/** What every interleaving of the network driver keeps, from a device with nothing on it. */
module UsbRuns {
  import opened Wrappers
  import opened UsbQueues
  import opened UsbOwnership

  lemma ApplyKeepsInv(s: Sys, a: Action)
    requires Inv(s) && CanApply(s, a)
    ensures Inv(Apply(s, a))
  {
    match a
    case Xmit(k, u, stale, o) => XmitKeepsInv(s, k, u, stale, o);
    case Alloc(u, k, o) => AllocKeepsInv(s, u, k, o);
    case GiveBack(u) => GiveBackKeepsInv(s, u);
    case Sort(i, status) => SortKeepsInv(s, i, status);
    case RxOff(i) => RxOffKeepsInv(s, i);
    case End(i, running, k, o) => EndKeepsInv(s, i, running, k, o);
    case TxOff(i) => TxOffKeepsInv(s, i);
    case Drop(i) => DropKeepsInv(s, i);
    case Mark(tx) => MarkKeepsInv(s, tx);
    case Bottom(o) => BottomKeepsInv(s, o);
    case Unpause(up) => UnpauseKeepsInv(s, up);
    case Wake(ok) => WakeKeepsInv(s, ok);
  }

  lemma {:induction false} RunKeepsInv(s: Sys, actions: seq<Action>)
    requires Inv(s) && CanRun(s, actions)
    ensures Inv(Run(s, actions))
    decreases |actions|
  {
    if actions != [] {
      ApplyKeepsInv(s, actions[0]);
      RunKeepsInv(Apply(s, actions[0]), actions[1..]);
    }
  }

  /** How often a buffer is on any list, the released ones included. */
  function Everywhere(q: Queues, k: Skb): nat {
    Count(q, RxList, k) + Count(q, TxList, k) + Count(q, DoneList, k) + Count(q, PauseList, k) +
    Count(q, AnchorList, k) + Count(q, ReleasedList, k)
  }

  /** At all times every buffer the driver took is in exactly one place, released buffers were
      released once, and the branch for an unknown state was never reached. */
  lemma EveryBufferInOnePlace(actions: seq<Action>, k: Skb)
    requires CanRun(START, actions)
    ensures
      var d := Run(START, actions).dev;
      Everywhere(d.q, k) == (if k in d.entry then 1 else 0) && d.q.bogus == []
  {
    StartInv();
    RunKeepsInv(START, actions);
    var s := Run(START, actions);
    assert ListsOk(s.dev.q, s.place);
  }

  /** Whether anything may still use a URB: the host controller, a running callback or unlink,
      or a buffer not yet released. */
  ghost predicate InUse(d: Dev, u: Urb) {
    u in d.urbs.flight || (exists i: nat :: i < |d.tasks| && !d.tasks[i].Idle? && d.tasks[i].urb == u) ||
    (exists k :: k in d.entry && d.entry[k].urb == Some(u) && Count(d.q, PauseList, k) == 0 && Count(d.q, ReleasedList, k) == 0)
  }

  lemma {:induction false} HeldIsCounted(tasks: seq<Task>, i: nat, u: Urb)
    requires i < |tasks| && !tasks[i].Idle? && tasks[i].urb == u
    ensures Holds(tasks, u) > 0
  {
    if i > 0 { HeldIsCounted(tasks[1..], i - 1, u); }
  }

  lemma UseIsCounted(s: Sys, u: Urb)
    requires Inv(s) && u in s.owner && InUse(s.dev, u)
    ensures Refs(s.dev.urbs, u) > 0
  {
    assert UrbOk(s.dev, s.place, u, s.owner[u]);
    if i: nat :| i < |s.dev.tasks| && !s.dev.tasks[i].Idle? && s.dev.tasks[i].urb == u {
      HeldIsCounted(s.dev.tasks, i, u);
    } else if u !in s.dev.urbs.flight {
      var k :| k in s.dev.entry && s.dev.entry[k].urb == Some(u) && Count(s.dev.q, PauseList, k) == 0 && Count(s.dev.q, ReleasedList, k) == 0;
      LiveEntryKeeps(s, k, u);
    }
  }

  /** The URB a live buffer names is kept by it. */
  lemma LiveEntryKeeps(s: Sys, k: Skb, u: Urb)
    requires Inv(s) && k in s.dev.entry && s.dev.entry[k].urb == Some(u)
    requires Count(s.dev.q, PauseList, k) == 0 && Count(s.dev.q, ReleasedList, k) == 0
    ensures u in s.owner && s.owner[u] == InEntry(k)
  {
    assert ListsOk(s.dev.q, s.place);
    assert !Settled(s.place[k]);
    assert SkbOk(s.dev, s.owner, k, s.place[k]);
    match s.place[k] {
      case InFlight(_) => assert UrbOk(s.dev, s.place, u, s.owner[u]);
      case InTask(_, i) => assert TaskOk(s.dev.entry, s.place, s.owner, i, s.dev.tasks[i]); TaskKeeps(s, i, k, u);
      case _ =>
    }
  }

  lemma TaskKeeps(s: Sys, i: nat, k: Skb, u: Urb)
    requires Inv(s) && i < |s.dev.tasks| && SkbOf(s.dev.tasks[i]) == Some(k) && k in s.dev.entry && s.dev.entry[k].urb == Some(u)
    ensures u in s.owner && s.owner[u] == InEntry(k)
  {
    assert TaskOk(s.dev.entry, s.place, s.owner, i, s.dev.tasks[i]);
    var v := s.dev.tasks[i].urb;
    assert UrbOk(s.dev, s.place, v, s.owner[v]);
  }

  /** A URB is freed when its last reference goes, once, and never while anything may use it. */
  lemma EveryUrbFreedOnce(actions: seq<Action>, u: Urb)
    requires CanRun(START, actions)
    ensures
      var d := Run(START, actions).dev;
      && d.urbs.freed[u] <= 1 && (u in d.urbs.refs ==> (d.urbs.freed[u] == 1 <==> d.urbs.refs[u] == 0))
      && (InUse(d, u) && u in d.urbs.refs ==> d.urbs.freed[u] == 0)
  {
    StartInv();
    RunKeepsInv(START, actions);
    var s := Run(START, actions);
    if u in s.owner {
      assert UrbOk(s.dev, s.place, u, s.owner[u]);
      if InUse(s.dev, u) { UseIsCounted(s, u); }
    }
  }

  /* Submissions. */

  /** The URBs a step hands to the host controller. */
  function Submits(s: Sys, a: Action): set<Urb>
    requires CanApply(s, a)
  {
    match a
    case Xmit(_, u, _, o) => if o == Sent then {u} else {}
    case Alloc(u, _, o) => if o == Posted then {u} else {}
    case End(i, running, _, o) => if running && s.dev.tasks[i].again && o == Posted then {s.dev.tasks[i].urb} else {}
    case Wake(ok) => if ok then {s.dev.q.anchor[0].urb} else {}
    case _ => {}
  }

  lemma FlightGrowsBySubmits(s: Sys, a: Action)
    requires CanApply(s, a)
    ensures Apply(s, a).dev.urbs.flight <= s.dev.urbs.flight + Submits(s, a)
    ensures Submits(s, a) <= Apply(s, a).dev.urbs.flight
  {
  }

  lemma DoomStays(s: Sys, a: Action)
    requires CanApply(s, a)
    ensures s.doomed <= Apply(s, a).doomed
  {
  }

  /** No URB that an unlink has picked, that the host controller has already, or that was freed
      is ever submitted. */
  lemma SubmissionsAreClean(s: Sys, a: Action, u: Urb)
    requires Inv(s) && CanApply(s, a) && u in Submits(s, a)
    ensures u !in s.doomed && u !in s.dev.urbs.flight && s.dev.urbs.freed[u] == 0
  {
    match a
    case Xmit(_, _, _, _) => NewUrb(s, u);
    case Alloc(_, _, _) => NewUrb(s, u);
    case End(i, _, _, _) => EndFacts(s, i);
    case Wake(_) => WakeFacts(s);
  }

  /** Once picked by an unlink and back from the host controller, a URB never goes there again. */
  lemma {:induction false} UnlinkedNeverFlies(s: Sys, actions: seq<Action>, u: Urb)
    requires Inv(s) && CanRun(s, actions) && u in s.doomed && u !in s.dev.urbs.flight
    ensures u !in Run(s, actions).dev.urbs.flight
    decreases |actions|
  {
    if actions != [] {
      FlightGrowsBySubmits(s, actions[0]);
      DoomStays(s, actions[0]);
      if u in Submits(s, actions[0]) { SubmissionsAreClean(s, actions[0], u); }
      ApplyKeepsInv(s, actions[0]);
      UnlinkedNeverFlies(Apply(s, actions[0]), actions[1..], u);
    }
  }

  /** What an unlink picks on either list is the URB at work for that buffer, and picking it
      dooms it. */
  lemma MarkDooms(s: Sys, tx: bool)
    requires Inv(s) && CanApply(s, Mark(tx))
    ensures
      var k := FirstLinked(s.dev, Queue(s.dev.q, tx)).value;
      var t := Apply(s, Mark(tx));
      && k in Queue(s.dev.q, tx) && AtWork(s, k).Some? && AtWork(s, k).value in t.doomed
      && k in t.dev.entry && t.dev.entry[k].state == UnlinkStart
  {
    var k := FirstLinked(s.dev, Queue(s.dev.q, tx)).value;
    FirstLinkedIsOn(s.dev, Queue(s.dev.q, tx));
    OnQueueFacts(s, tx, k);
    AtWorkFacts(s, k);
  }

  /* A transmission put off during suspend. */

  /** An unlink of everything on the transmit list, in one go. */
  predicate OnlyMarks(actions: seq<Action>) {
    forall a :: a in actions ==> a == Mark(true)
  }

  lemma OnlyMarksRest(actions: seq<Action>)
    requires OnlyMarks(actions) && actions != []
    ensures actions[0] == Mark(true) && OnlyMarks(actions[1..])
  {
    assert actions[0] in actions;
    forall a | a in actions[1..] ensures a == Mark(true) { assert a in actions; }
  }

  predicate FlyingOut(s: Sys, k: Skb, u: Urb) {
    k in s.place && s.place[k] == InFlight(true) && k in s.dev.q.txq && k in s.dev.entry && s.dev.entry[k].urb == Some(u)
  }

  /** Picking a buffer dooms its URB and no other that is on its way. */
  lemma MarkPicksOne(s: Sys, k: Skb, u: Urb)
    requires Inv(s) && CanApply(s, Mark(true)) && FlyingOut(s, k, u)
    ensures
      var t := Apply(s, Mark(true));
      var picked := FirstLinked(s.dev, s.dev.q.txq) == Some(k);
      && FlyingOut(t, k, u)
      && (u in t.doomed <==> u in s.doomed || picked)
      && t.dev.entry[k].state == (if picked then UnlinkStart else s.dev.entry[k].state)
  {
    var k0 := FirstLinked(s.dev, s.dev.q.txq).value;
    FirstLinkedIsOn(s.dev, s.dev.q.txq);
    OnQueueFacts(s, true, k0);
    AtWorkFacts(s, k0);
    AtWorkFacts(s, k);
    if AtWork(s, k0) == Some(u) { assert s.owner[u] == InEntry(k); }
  }

  /** An unlink picks a buffer exactly if it was not marked before, and it is marked now. */
  lemma {:induction false} MarksPick(s: Sys, actions: seq<Action>, k: Skb, u: Urb)
    requires Inv(s) && CanRun(s, actions) && OnlyMarks(actions) && FlyingOut(s, k, u) && u !in s.doomed
    ensures
      var t := Run(s, actions);
      && FlyingOut(t, k, u)
      && (s.dev.entry[k].state == UnlinkStart ==> u !in t.doomed)
      && (s.dev.entry[k].state != UnlinkStart ==> (u in t.doomed <==> t.dev.entry[k].state == UnlinkStart))
    decreases |actions|
  {
    if actions != [] {
      OnlyMarksRest(actions);
      var t := Apply(s, Mark(true));
      MarkPicksOne(s, k, u);
      FirstLinkedIsOn(s.dev, s.dev.q.txq);
      ApplyKeepsInv(s, Mark(true));
      if u in t.doomed { PickedStays(t, actions[1..], k, u); } else { MarksPick(t, actions[1..], k, u); }
    }
  }

  lemma {:induction false} PickedStays(s: Sys, actions: seq<Action>, k: Skb, u: Urb)
    requires Inv(s) && CanRun(s, actions) && OnlyMarks(actions) && FlyingOut(s, k, u)
    requires u in s.doomed && s.dev.entry[k].state == UnlinkStart
    ensures var t := Run(s, actions); FlyingOut(t, k, u) && u in t.doomed && t.dev.entry[k].state == UnlinkStart
    decreases |actions|
  {
    if actions != [] {
      OnlyMarksRest(actions);
      MarkPicksOne(s, k, u);
      ApplyKeepsInv(s, Mark(true));
      PickedStays(Apply(s, Mark(true)), actions[1..], k, u);
    }
  }

  lemma WokenFlies(s: Sys)
    requires Inv(s) && s.dev.q.anchor != []
    ensures
      var p, t := s.dev.q.anchor[0], Apply(s, Wake(true));
      && Inv(t) && FlyingOut(t, p.skb, p.urb) && p.urb in t.dev.urbs.flight && p.urb !in t.doomed
      && p.skb in s.dev.entry && t.dev.entry[p.skb].state == s.dev.entry[p.skb].state
  {
    WakeFacts(s);
    ApplyKeepsInv(s, Wake(true));
  }

  /** Such a transmission, submitted at resume, keeps the state the network stack left in its
      control block. From any state with one waiting: a whole unlink of the transmit list picks
      it exactly when that is not, by chance, the state of a buffer already being unlinked. */
  lemma StaleStateHidesFromUnlink(s: Sys, actions: seq<Action>)
    requires Inv(s) && s.dev.q.anchor != [] && CanRun(Apply(s, Wake(true)), actions) && OnlyMarks(actions)
    requires var d := Run(Apply(s, Wake(true)), actions).dev; FirstLinked(d, d.q.txq) == None
    ensures
      var p, t := s.dev.q.anchor[0], Run(Apply(s, Wake(true)), actions);
      && p.urb in Apply(s, Wake(true)).dev.urbs.flight && p.skb in s.dev.entry
      && (p.urb in t.doomed <==> s.dev.entry[p.skb].state != UnlinkStart)
  {
    var p := s.dev.q.anchor[0];
    WokenFlies(s);
    MarksPick(Apply(s, Wake(true)), actions, p.skb, p.urb);
    var d := Run(Apply(s, Wake(true)), actions).dev;
    FirstLinkedIsOn(d, d.q.txq);
  }

  /** That chance is reached from the start: the URB flies, and an unlink has nothing to pick. */
  lemma StaleStateIsReached(k: Skb, u: Urb)
    ensures
      var actions := [Xmit(k, u, UnlinkStart, Asleep), Wake(true)];
      && CanRun(START, actions)
      && var t := Run(START, actions);
         t.dev.q.txq == [k] && u in t.dev.urbs.flight && u !in t.doomed && FirstLinked(t.dev, t.dev.q.txq) == None
  {
    var first, second := Xmit(k, u, UnlinkStart, Asleep), Wake(true);
    var s := Apply(START, first);
    assert [first, second][1..] == [second] && [second][1..] == [];
    assert CanRun(Apply(s, second), []);
    assert Run(START, [first, second]) == Run(s, [second]) == Apply(s, second);
  }
}
