/** The command ring as driver and controller share it: what the controller executes is what was
    queued, whole runs through. */
module CommandSeen {
  import opened RingModel
  import opened RingExpansion
  import opened RingFifo
  import opened CommandSlots
  import opened CommandRuns
  import opened RingCancel

  /** The controller stands at `hw` with cycle state `ccs`; the first `taken` of the listed
      commands are those it has executed and the driver has not been told of. `executed` and
      `given` are histories. */
  datatype Shared = Shared(s: State, hw: nat, ccs: bool, taken: nat, executed: seq<Body>, given: seq<Body>)

  datatype Action = Driver(e: CommandRuns.Event) | Take

  /** The controller reports only what it has executed. */
  ghost predicate MayAct(y: Shared, a: Action) {
    match a
    case Driver(e) => CommandRuns.Enabled(y.s, e) && (e.Complete? && e.at == y.s.ring.deq ==> 1 <= y.taken)
    case Take => y.hw < |y.s.ring.trbs| && y.s.ring.trbs[y.hw].cycle == y.ccs
  }

  predicate IsQueued(s: State, e: CommandRuns.Event)
    requires s.ring.enq < |s.ring.trbs| && s.ring.deq < |s.ring.trbs| && 1 <= s.ring.t
  {
    e.Queue? && e.alive && Accepts(s.ring, e.reserved, e.mustSucceed)
  }

  ghost function Acted(y: Shared, a: Action): Shared
    requires MayAct(y, a)
  {
    match a
    case Driver(e) =>
      y.(s := CommandRuns.Apply(y.s, e),
         given := if IsQueued(y.s, e) then y.given + [e.body] else y.given,
         taken := if e.Complete? && e.at == y.s.ring.deq then y.taken - 1 else y.taken)
    case Take =>
      var trb := y.s.ring.trbs[y.hw];
      if IsLink(trb) then
        y.(hw := Next(y.hw, |y.s.ring.trbs|), ccs := if trb.body.kind.toggle then !y.ccs else y.ccs)
      else
        y.(hw := Next(y.hw, |y.s.ring.trbs|), taken := y.taken + 1, executed := y.executed + [trb.body])
  }

  /* The invariant. */

  /** Every cycle bit tells whether the TRB lies before enqueue on this lap. */
  ghost predicate AtRest(r: RingState) {
    forall p :: 0 <= p < |r.trbs| ==> (r.trbs[p].cycle <==> RestBit(r, p))
  }

  /** The listed commands not yet taken own exactly the slots between the controller and enqueue. */
  ghost predicate Waiting(r: RingState, list: seq<Command>, hw: nat, taken: nat) {
    && hw < |r.trbs| && r.enq < |r.trbs| && taken <= |list|
    && TrbsOf(list)[taken..] == Slots(r.trbs, hw, r.enq)
  }

  ghost predicate Whole(y: Shared) {
    && Matched(y.s.ring, y.s.list) && AtRest(y.s.ring)
    && Waiting(y.s.ring, y.s.list, y.hw, y.taken)
    && (y.ccs <==> if y.hw <= y.s.ring.enq then y.s.ring.pcs else !y.s.ring.pcs)
    && Veils(y.executed + Window(y.s.ring.trbs, y.hw, y.s.ring.enq), y.given)
  }

  /* Queueing a command. */

  /** From the TRB behind `a` round to `a` itself are all slots of the ring but its own. */
  lemma WholeLap(r: RingState, hw: nat, a: nat)
    requires r.Geometry() && hw < r.Size() && a < r.Size()
    ensures Next(a, r.Size()) == hw ==> |Slots(r.trbs, hw, a)| + (if IsLink(r.trbs[a]) then 0 else 1) == Times(r.segs, r.t - 1)
  {
    LastIsLink(r);
    SegBound(0, r.segs, r.t);
    if Next(a, r.Size()) == hw {
      UsedAndFree(r, hw, a);
      assert Slots(r.trbs, a, hw) == (if IsLink(r.trbs[a]) then [] else [a]) + Slots(r.trbs, hw, hw);
    }
  }

  /** The controller is not where enqueue goes next, or the ring would be full. */
  lemma NotOntoWaiting(r: RingState, list: seq<Command>, hw: nat, taken: nat)
    requires Matched(r, list) && Waiting(r, list, hw, taken) && (IsLink(r.trbs[r.enq]) || 2 <= FreeSlots(r))
    ensures Next(r.enq, r.Size()) != hw
  {
    FreeIsExact(r, list);
    WholeLap(r, hw, r.enq);
    assert |TrbsOf(list)[taken..]| <= |list|;
  }

  /** Stepping off a link shows the controller that link and nothing else. */
  lemma LeavingShowsNothing(r: RingState, list: seq<Command>, hw: nat, taken: nat)
    requires Matched(r, list) && AtRest(r) && Waiting(r, list, hw, taken)
    ensures
      var q := LeaveLink(r);
      && Matched(q, list) && AtRest(q) && Waiting(q, list, hw, taken) && !IsLink(q.trbs[q.enq])
      && Window(q.trbs, hw, q.enq) == Window(r.trbs, hw, r.enq)
      && ((if hw <= q.enq then q.pcs else !q.pcs) == (if hw <= r.enq then r.pcs else !r.pcs))
  {
    LeaveLinkMatched(r, list);
    if IsLink(r.trbs[r.enq]) {
      CrossLinkFacts(r, r.quirk);
      NotOntoWaiting(r, list, hw, taken);
      var q := LeaveLink(r);
      LastIsLink(r);
      SlotsFrame(r.trbs, q.trbs, hw, r.enq);
      SlotsAppend(q.trbs, hw, r.enq);
      WindowFrame(r.trbs, q.trbs, hw, r.enq);
      WindowAppend(q.trbs, hw, r.enq);
    }
  }

  lemma PutShowsOne(r: RingState, list: seq<Command>, hw: nat, taken: nat, body: Body)
    requires Matched(r, list) && AtRest(r) && Waiting(r, list, hw, taken) && !IsLink(r.trbs[r.enq]) && 2 <= FreeSlots(r)
    requires Data(body) && !body.chain && r.enq + 1 < r.Size()
    ensures
      var q := QueueTrb(r, body, r.pcs, false);
      && AtRest(q) && q.enq == r.enq + 1 && |q.trbs| == |r.trbs| && hw != q.enq && q.pcs == r.pcs
      && Slots(q.trbs, hw, q.enq) == Slots(r.trbs, hw, r.enq) + [r.enq]
      && Window(q.trbs, hw, q.enq) == Window(r.trbs, hw, r.enq) + [body]
  {
    NotOntoWaiting(r, list, hw, taken);
    var q := QueueTrb(r, body, r.pcs, false);
    SlotsFrame(r.trbs, q.trbs, hw, r.enq);
    SlotsAppend(q.trbs, hw, r.enq);
    WindowFrame(r.trbs, q.trbs, hw, r.enq);
    WindowAppend(q.trbs, hw, r.enq);
  }

  lemma ListedMore(list: seq<Command>, taken: nat, c: Command)
    requires taken <= |list|
    ensures TrbsOf(list + [c])[taken..] == TrbsOf(list)[taken..] + [c.trb]
  {
  }

  lemma QueueShowsOne(y: Shared, e: CommandRuns.Event)
    requires Whole(y) && MayAct(y, Driver(e)) && IsQueued(y.s, e)
    ensures Whole(Acted(y, Driver(e)))
    ensures
      var z := Acted(y, Driver(e));
      Window(z.s.ring.trbs, z.hw, z.s.ring.enq) == Window(y.s.ring.trbs, y.hw, y.s.ring.enq) + [e.body]
  {
    var r, list := y.s.ring, y.s.list;
    QueueKeepsMatched(r, list, e.reserved, e.mustSucceed, e.body, e.id);
    LeavingShowsNothing(r, list, y.hw, y.taken);
    LeaveLinkMatched(r, list);
    var q := LeaveLink(r);
    LastIsLink(q);
    PutShowsOne(q, list, y.hw, y.taken, e.body);
    ListedMore(list, y.taken, Listed(e.id, Effective(r)));
    VeilsMore(y.executed, Window(r.trbs, y.hw, r.enq), y.given, e.body);
  }

  lemma VeilsMore(done: seq<Body>, ahead: seq<Body>, given: seq<Body>, body: Body)
    requires Veils(done + ahead, given)
    ensures Veils(done + (ahead + [body]), given + [body])
  {
    assert done + (ahead + [body]) == (done + ahead) + [body];
  }

  /* The other steps. */

  lemma TakeKeepsWhole(y: Shared)
    requires Whole(y) && MayAct(y, Action.Take)
    ensures Whole(Acted(y, Action.Take))
  {
    var r := y.s.ring;
    LastIsLink(r);
    assert y.hw != r.enq;
    var rest, ahead := Slots(r.trbs, Next(y.hw, r.Size()), r.enq), Window(r.trbs, Next(y.hw, r.Size()), r.enq);
    if IsLink(r.trbs[y.hw]) {
      assert Slots(r.trbs, y.hw, r.enq) == [] + rest && Window(r.trbs, y.hw, r.enq) == [] + ahead;
    } else {
      var body := r.trbs[y.hw].body;
      assert Slots(r.trbs, y.hw, r.enq) == [y.hw] + rest && Window(r.trbs, y.hw, r.enq) == [body] + ahead;
      OneTaken(TrbsOf(y.s.list), y.taken, y.hw, rest);
      assert y.executed + ([body] + ahead) == (y.executed + [body]) + ahead;
    }
  }

  lemma OneTaken(trbs: seq<nat>, taken: nat, hw: nat, rest: seq<nat>)
    requires taken <= |trbs| && trbs[taken..] == [hw] + rest
    ensures taken < |trbs| && trbs[taken + 1..] == rest
  {
    assert |trbs[taken..]| == |trbs| - taken;
    assert trbs[taken + 1..] == trbs[taken..][1..];
  }

  lemma CompleteKeepsWhole(y: Shared, at: nat)
    requires Whole(y) && MayAct(y, Driver(Complete(at))) && at == y.s.ring.deq
    ensures Whole(Acted(y, Driver(Complete(at))))
  {
    ReportHasCommand(y.s.ring, y.s.list, at);
    CompletionMatches(y.s.ring, y.s.list);
    assert TrbsOf(y.s.list[1..])[y.taken - 1..] == TrbsOf(y.s.list)[y.taken..];
  }

  /** An aborted command the controller has not taken becomes a no-op; nothing else it will see changes. */
  lemma AbortKeepsWhole(y: Shared, at: nat)
    requires Whole(y) && at < y.s.ring.Size()
    ensures Whole(y.(s := y.s.(ring := y.s.ring.(trbs := y.s.ring.trbs[at := NoopOf(y.s.ring.trbs[at])]))))
  {
    var r := y.s.ring;
    var q := r.(trbs := r.trbs[at := NoopOf(r.trbs[at])]);
    AbortKeepsMatched(r, y.s.list, at);
    SlotsFrame(r.trbs, q.trbs, y.hw, r.enq);
    WindowIsSlots(r.trbs, y.hw, r.enq);
    WindowIsSlots(q.trbs, y.hw, q.enq);
    AbortVeils(y.executed, Window(r.trbs, y.hw, r.enq), Window(q.trbs, y.hw, q.enq), y.given);
  }

  lemma AbortVeils(done: seq<Body>, before: seq<Body>, after: seq<Body>, given: seq<Body>)
    requires |before| == |after| && (forall i :: 0 <= i < |before| ==> after[i] == before[i] || after[i] == NOOP)
    requires Veils(done + before, given)
    ensures Veils(done + after, given)
  {
    forall i | 0 <= i < |done + after| ensures (done + after)[i] == given[i] || (done + after)[i] == NOOP {
      assert (done + before)[i] == given[i] || (done + before)[i] == NOOP;
      if i >= |done| { assert (done + after)[i] == after[i - |done|]; }
    }
  }

  lemma DriverKeepsWhole(y: Shared, e: CommandRuns.Event)
    requires Whole(y) && MayAct(y, Driver(e))
    ensures Whole(Acted(y, Driver(e)))
  {
    match e
    case Queue(_, _, _, _, _) => if IsQueued(y.s, e) { QueueShowsOne(y, e); }
    case Complete(at) => if at == y.s.ring.deq { CompleteKeepsWhole(y, at); }
    case Abort(at) => AbortKeepsWhole(y, at);
  }

  lemma ActionKeepsWhole(y: Shared, a: Action)
    requires Whole(y) && MayAct(y, a)
    ensures Whole(Acted(y, a))
  {
    if a.Take? { TakeKeepsWhole(y); } else { DriverKeepsWhole(y, a.e); }
  }

  /* Over runs. */

  ghost predicate CanAct(y: Shared, actions: seq<Action>)
    decreases |actions|
  {
    actions == [] || (MayAct(y, actions[0]) && CanAct(Acted(y, actions[0]), actions[1..]))
  }

  ghost function AllActed(y: Shared, actions: seq<Action>): Shared
    requires CanAct(y, actions)
    decreases |actions|
  {
    if actions == [] then y else AllActed(Acted(y, actions[0]), actions[1..])
  }

  lemma {:induction false} RunKeepsWhole(y: Shared, actions: seq<Action>)
    requires Whole(y) && CanAct(y, actions)
    ensures Whole(AllActed(y, actions))
    decreases |actions|
  {
    if actions != [] {
      ActionKeepsWhole(y, actions[0]);
      RunKeepsWhole(Acted(y, actions[0]), actions[1..]);
    }
  }

  function Fresh(t: nat, segs: nat, quirk: bool): Shared {
    Shared(State(FreshRing(t, segs, quirk), []), 0, true, 0, [], [])
  }

  lemma FreshIsWhole(t: nat, segs: nat, quirk: bool)
    requires 3 <= t && 1 <= segs
    ensures Whole(Fresh(t, segs, quirk))
  {
    FreshIsMatched(t, segs, quirk);
    FreshRingShape(t, segs, quirk);
  }

  /** What the controller would execute if the driver did nothing more is what lies before enqueue. */
  lemma {:induction false} SeenWalk(r: RingState, at: nat, c: bool, fuel: nat)
    requires r.Geometry() && AtRest(r) && at < r.Size() && r.enq < r.Size() && Dist(at, r.enq, r.Size()) < fuel
    requires c <==> if at <= r.enq then r.pcs else !r.pcs
    ensures Visible(r.trbs, at, c, fuel) == Window(r.trbs, at, r.enq)
    decreases fuel
  {
    LastIsLink(r);
    if at != r.enq {
      SeenWalk(r, Next(at, r.Size()), if IsLink(r.trbs[at]) && r.trbs[at].body.kind.toggle then !c else c, fuel - 1);
    }
  }

  /** Over every run from a fresh command ring: what the controller has executed, followed by
      what it would execute next, is the commands accepted, in order, none lost or added, some
      turned into no-ops by an abort; and those next are in the TRBs of the listed commands it
      has not taken, in the list's order. */
  lemma CommandsAreExecuted(t: nat, segs: nat, quirk: bool, actions: seq<Action>)
    requires 3 <= t && 1 <= segs && CanAct(Fresh(t, segs, quirk), actions)
    ensures
      var y := AllActed(Fresh(t, segs, quirk), actions);
      && y.hw < y.s.ring.Size() && y.taken <= |y.s.list|
      && var next := Visible(y.s.ring.trbs, y.hw, y.ccs, y.s.ring.Size());
         && Veils(y.executed + next, y.given)
         && |next| == |y.s.list| - y.taken
         && (forall i :: 0 <= i < |next| ==>
               var c := y.s.list[y.taken + i];
               c.trb < y.s.ring.Size() && next[i] == y.s.ring.trbs[c.trb].body)
  {
    FreshIsWhole(t, segs, quirk);
    RunKeepsWhole(Fresh(t, segs, quirk), actions);
    var y := AllActed(Fresh(t, segs, quirk), actions);
    var r := y.s.ring;
    SeenWalk(r, y.hw, y.ccs, r.Size());
    WindowIsSlots(r.trbs, y.hw, r.enq);
    var slots := Slots(r.trbs, y.hw, r.enq);
    forall i | 0 <= i < |slots| ensures y.s.list[y.taken + i].trb == slots[i] {
      assert TrbsOf(y.s.list)[y.taken..][i] == TrbsOf(y.s.list)[y.taken + i];
    }
  }
}
