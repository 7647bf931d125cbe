/** What becomes of each reception, over whole runs: how its transfer ended and what the
    network stack answered decide whether its buffer is handed up or freed, and whether its
    URB goes round again. */
module UsbReceive {
  import opened Wrappers
  import opened UsbQueues
  import opened UsbOwnership
  import opened UsbRuns

  /** How each buffer's reception ended, what the network stack made of the good ones, which of
      those it had put by were thrown away, and the URBs of receptions that ended in a shutdown,
      stall or bus error. */
  datatype Heard = Heard(status: map<Skb, Status>, answered: map<Skb, Processed>, purged: set<Skb>, blocked: set<Urb>)

  const Nothing: Heard := Heard(map[], map[], {}, {})

  predicate WasGood(h: Heard, k: Skb) {
    k in h.status && h.status[k] == Good
  }

  function Hears(h: Heard, s: Sys, a: Action): Heard
    requires CanApply(s, a)
  {
    match a
    case Sort(i, status) =>
      var t := s.dev.tasks[i];
      h.(status := h.status[t.skb := status], blocked := if status == Blocked then h.blocked + {t.urb} else h.blocked)
    case Bottom(o) => if WasGood(h, s.dev.q.done[0]) then h.(answered := h.answered[s.dev.q.done[0] := o]) else h
    case Unpause(up) => if up then h else h.(purged := h.purged + {s.dev.q.paused[0]})
    case _ => h
  }

  function HearsAll(h: Heard, s: Sys, actions: seq<Action>): Heard
    requires CanRun(s, actions)
    decreases |actions|
  {
    if actions == [] then h else HearsAll(Hears(h, s, actions[0]), Apply(s, actions[0]), actions[1..])
  }

  /* The invariant, buffer by buffer. */

  function Ups(d: Dev, k: Skb): nat {
    multiset(d.q.up)[k]
  }

  predicate Unheard(h: Heard, k: Skb) {
    k !in h.status && k !in h.answered && k !in h.purged
  }

  /** The stack took it, at once or after putting it by. */
  predicate WentUp(h: Heard, k: Skb) {
    WasGood(h, k) && k in h.answered && h.answered[k] != Rejected && k !in h.purged
  }

  function After(status: Status): SkbState {
    if status == Good then RxDone else RxCleanup
  }

  predicate InCallback(h: Heard, tasks: seq<Task>, i: nat, k: Skb) {
    i < |tasks| &&
    if tasks[i].RxSorted? then
      k in h.status && k !in h.answered && k !in h.purged &&
      tasks[i].next == After(h.status[k]) && (tasks[i].mine <==> h.status[k] != Blocked)
    else Unheard(h, k)
  }

  /** What was heard of a buffer, by the place it is in. */
  predicate Told(d: Dev, h: Heard, k: Skb, p: Place) {
    match p
    case InFlight(_) => Unheard(h, k)
    case OnAnchor => Unheard(h, k)
    case InTask(_, i) => InCallback(h, d.tasks, i, k)
    case OnDone => k !in h.answered && k !in h.purged && StateOf(d, k) == if k in h.status then After(h.status[k]) else TxDone
    case OnPaused => WasGood(h, k) && k in h.answered && h.answered[k] == Paused && k !in h.purged
    case Gone => WasGood(h, k) ==> k in h.answered
  }

  predicate Fate(s: Sys, h: Heard, k: Skb) {
    && (if k in s.place then Told(s.dev, h, k, s.place[k]) else Unheard(h, k))
    && Ups(s.dev, k) == (if k in s.place && s.place[k] == Gone && WentUp(h, k) then 1 else 0)
  }

  ghost predicate AllFates(s: Sys, h: Heard) {
    forall k: Skb :: Fate(s, h, k)
  }

  /* A step that is about another buffer. */

  /** The buffer a step is about. */
  function Subject(s: Sys, a: Action): Option<Skb>
    requires CanApply(s, a)
  {
    match a
    case Xmit(k, _, _, _) => Some(k)
    case Alloc(_, k, _) => Some(k)
    case GiveBack(u) => Some(s.dev.urbs.context[u].skb)
    case Sort(i, _) => Some(s.dev.tasks[i].skb)
    case RxOff(i) => Some(s.dev.tasks[i].skb)
    case End(_, _, k, _) => Some(k)
    case TxOff(i) => Some(s.dev.tasks[i].skb)
    case Drop(_) => None
    case Mark(tx) => FirstLinked(s.dev, Queue(s.dev.q, tx))
    case Bottom(_) => Some(s.dev.q.done[0])
    case Unpause(_) => Some(s.dev.q.paused[0])
    case Wake(_) => Some(s.dev.q.anchor[0].skb)
  }

  predicate SameBuffer(s: Sys, t: Sys, k: Skb) {
    && (k in s.place <==> k in t.place) && (k in s.dev.entry <==> k in t.dev.entry)
    && (k in s.dev.entry ==> t.dev.entry[k] == s.dev.entry[k])
    && Ups(t.dev, k) == Ups(s.dev, k)
    && (k in s.place ==>
          t.place[k] == s.place[k] &&
          (s.place[k].InTask? ==>
             var i := s.place[k].task;
             i < |s.dev.tasks| && i < |t.dev.tasks| && t.dev.tasks[i] == s.dev.tasks[i]))
  }

  predicate SameHeard(h: Heard, g: Heard, k: Skb) {
    && (k in h.status <==> k in g.status) && (k in h.status ==> g.status[k] == h.status[k])
    && (k in h.answered <==> k in g.answered) && (k in h.answered ==> g.answered[k] == h.answered[k])
    && (k in h.purged <==> k in g.purged)
  }

  lemma OthersHearNothing(s: Sys, h: Heard, a: Action, k: Skb)
    requires CanApply(s, a) && Subject(s, a) != Some(k)
    ensures SameHeard(h, Hears(h, s, a), k)
  {
  }

  /** A buffer in a callback is that callback's alone. */
  lemma CallbackIsItsOwn(s: Sys, k: Skb)
    requires Inv(s) && k in s.place && s.place[k].InTask?
    ensures s.place[k].task < |s.dev.tasks| && SkbOf(s.dev.tasks[s.place[k].task]) == Some(k)
  {
    assert SkbOk(s.dev, s.owner, k, s.place[k]);
  }

  /** Where nothing but other buffers' entries and places, and other tasks, change. */
  lemma Elsewhere(s: Sys, t: Sys, k: Skb)
    requires Inv(s) && Ups(t.dev, k) == Ups(s.dev, k) && |s.dev.tasks| <= |t.dev.tasks|
    requires (k in s.place <==> k in t.place) && (k in s.place ==> t.place[k] == s.place[k])
    requires (k in s.dev.entry <==> k in t.dev.entry) && (k in s.dev.entry ==> t.dev.entry[k] == s.dev.entry[k])
    requires forall i: nat :: i < |s.dev.tasks| && SkbOf(s.dev.tasks[i]) == Some(k) ==> t.dev.tasks[i] == s.dev.tasks[i]
    ensures SameBuffer(s, t, k)
  {
    if k in s.place && s.place[k].InTask? { CallbackIsItsOwn(s, k); }
  }

  lemma XmitLeaves(s: Sys, x: Skb, u: Urb, stale: SkbState, o: Sending, k: Skb)
    requires Inv(s) && k != x
    ensures SameBuffer(s, AfterXmit(s, x, u, stale, o), k)
  {
    Elsewhere(s, AfterXmit(s, x, u, stale, o), k);
  }

  lemma AllocLeaves(s: Sys, u: Urb, x: Skb, o: Posting, k: Skb)
    requires Inv(s) && k != x
    ensures SameBuffer(s, AfterAlloc(s, u, x, o), k)
  {
    Elsewhere(s, AfterAlloc(s, u, x, o), k);
  }

  lemma EndLeaves(s: Sys, i: nat, running: bool, x: Skb, o: Posting, k: Skb)
    requires Inv(s) && CanApply(s, End(i, running, x, o)) && k != x
    ensures SameBuffer(s, AfterEnd(s, i, running, x, o), k)
  {
    Elsewhere(s, AfterEnd(s, i, running, x, o), k);
  }

  lemma GiveBackLeaves(s: Sys, u: Urb, k: Skb)
    requires Inv(s) && CanApply(s, GiveBack(u)) && s.dev.urbs.context[u].skb != k
    ensures SameBuffer(s, AfterGiveBack(s, u), k)
  {
    Elsewhere(s, AfterGiveBack(s, u), k);
  }

  lemma SortLeaves(s: Sys, i: nat, status: Status, k: Skb)
    requires Inv(s) && CanApply(s, Sort(i, status)) && s.dev.tasks[i].skb != k
    ensures SameBuffer(s, AfterSort(s, i, status), k)
  {
    Elsewhere(s, AfterSort(s, i, status), k);
  }

  lemma RxOffLeaves(s: Sys, i: nat, k: Skb)
    requires Inv(s) && CanApply(s, RxOff(i)) && s.dev.tasks[i].skb != k
    ensures SameBuffer(s, AfterRxOff(s, i), k)
  {
    Elsewhere(s, AfterRxOff(s, i), k);
  }

  lemma TxOffLeaves(s: Sys, i: nat, k: Skb)
    requires Inv(s) && CanApply(s, TxOff(i)) && s.dev.tasks[i].skb != k
    ensures SameBuffer(s, AfterTxOff(s, i), k)
  {
    Elsewhere(s, AfterTxOff(s, i), k);
  }

  lemma DropLeaves(s: Sys, i: nat, k: Skb)
    requires Inv(s) && CanApply(s, Drop(i))
    ensures SameBuffer(s, AfterDrop(s, i), k)
  {
    Elsewhere(s, AfterDrop(s, i), k);
  }

  lemma MarkLeaves(s: Sys, x: Skb, k: Skb)
    requires Inv(s) && k != x
    ensures SameBuffer(s, AfterMark(s, x), k)
  {
    Elsewhere(s, AfterMark(s, x), k);
  }

  /** The bottom half leaves every other entry alone and hands up its own buffer at most. */
  lemma BottomIsNarrow(s: Sys, o: Processed, k: Skb)
    requires s.dev.q.done != [] && k != s.dev.q.done[0]
    ensures
      var t := AfterBottom(s, o);
      && t.dev.entry == s.dev.entry && t.dev.tasks == s.dev.tasks
      && (k in s.place <==> k in t.place) && (k in s.place ==> t.place[k] == s.place[k])
  {
  }

  lemma BottomHandsUpOne(s: Sys, o: Processed, k: Skb)
    requires s.dev.q.done != [] && k != s.dev.q.done[0]
    ensures Ups(AfterBottom(s, o).dev, k) == Ups(s.dev, k)
  {
  }

  lemma BottomLeaves(s: Sys, o: Processed, k: Skb)
    requires Inv(s) && s.dev.q.done != [] && k != s.dev.q.done[0]
    ensures SameBuffer(s, AfterBottom(s, o), k)
  {
    BottomIsNarrow(s, o, k);
    BottomHandsUpOne(s, o, k);
    Elsewhere(s, AfterBottom(s, o), k);
  }

  lemma UnpauseLeaves(s: Sys, up: bool, k: Skb)
    requires Inv(s) && s.dev.q.paused != [] && k != s.dev.q.paused[0]
    ensures SameBuffer(s, AfterUnpause(s, up), k)
  {
    Elsewhere(s, AfterUnpause(s, up), k);
  }

  lemma WakeLeaves(s: Sys, ok: bool, k: Skb)
    requires Inv(s) && s.dev.q.anchor != [] && k != s.dev.q.anchor[0].skb
    ensures SameBuffer(s, AfterWake(s, ok), k)
  {
    Elsewhere(s, AfterWake(s, ok), k);
  }

  lemma StepLeaves(s: Sys, a: Action, k: Skb)
    requires Inv(s) && CanApply(s, a) && Subject(s, a) != Some(k)
    ensures SameBuffer(s, Apply(s, a), k)
  {
    match a
    case Xmit(x, u, stale, o) => XmitLeaves(s, x, u, stale, o, k);
    case Alloc(u, x, o) => AllocLeaves(s, u, x, o, k);
    case GiveBack(u) => GiveBackLeaves(s, u, k);
    case End(i, running, x, o) => EndLeaves(s, i, running, x, o, k);
    case Drop(i) => DropLeaves(s, i, k);
    case Mark(tx) => MarkLeaves(s, FirstLinked(s.dev, Queue(s.dev.q, tx)).value, k);
    case Bottom(o) => BottomLeaves(s, o, k);
    case Unpause(up) => UnpauseLeaves(s, up, k);
    case Wake(ok) => WakeLeaves(s, ok, k);
    case Sort(i, status) => SortLeaves(s, i, status, k);
    case RxOff(i) => RxOffLeaves(s, i, k);
    case TxOff(i) => TxOffLeaves(s, i, k);
  }

  lemma FateStays(s: Sys, t: Sys, h: Heard, g: Heard, k: Skb)
    requires SameBuffer(s, t, k) && SameHeard(h, g, k) && Fate(s, h, k)
    ensures Fate(t, g, k)
  {
  }

  /* The buffer a step is about. */

  lemma SentFate(s: Sys, h: Heard, k: Skb, u: Urb, stale: SkbState, o: Sending)
    requires Inv(s) && k !in s.dev.entry && Fate(s, h, k)
    ensures Fate(AfterXmit(s, k, u, stale, o), h, k)
  {
  }

  lemma AllocFate(s: Sys, h: Heard, u: Urb, k: Skb, o: Posting)
    requires Inv(s) && k !in s.dev.entry && Fate(s, h, k)
    ensures Fate(AfterAlloc(s, u, k, o), h, k)
  {
  }

  lemma EndFate(s: Sys, h: Heard, i: nat, running: bool, k: Skb, o: Posting)
    requires Inv(s) && CanApply(s, End(i, running, k, o)) && Fate(s, h, k)
    ensures Fate(AfterEnd(s, i, running, k, o), h, k)
  {
  }

  lemma GivenBackFate(s: Sys, h: Heard, u: Urb)
    requires Inv(s) && CanApply(s, GiveBack(u)) && Fate(s, h, s.dev.urbs.context[u].skb)
    ensures Fate(Apply(s, GiveBack(u)), h, s.dev.urbs.context[u].skb)
  {
    assert u in s.owner && UrbOk(s.dev, s.place, u, s.owner[u]);
  }

  lemma SortedFate(s: Sys, h: Heard, i: nat, status: Status)
    requires Inv(s) && CanApply(s, Sort(i, status)) && Fate(s, h, s.dev.tasks[i].skb)
    ensures Fate(Apply(s, Sort(i, status)), Hears(h, s, Sort(i, status)), s.dev.tasks[i].skb)
  {
    assert TaskOk(s.dev.entry, s.place, s.owner, i, s.dev.tasks[i]);
  }

  lemma OffFate(s: Sys, h: Heard, a: Action)
    requires Inv(s) && CanApply(s, a) && (a.RxOff? || a.TxOff?) && Fate(s, h, s.dev.tasks[a.i].skb)
    ensures Fate(Apply(s, a), h, s.dev.tasks[a.i].skb)
  {
    assert TaskOk(s.dev.entry, s.place, s.owner, a.i, s.dev.tasks[a.i]);
  }

  lemma MarkedFate(s: Sys, h: Heard, tx: bool, k: Skb)
    requires Inv(s) && CanApply(s, Mark(tx)) && FirstLinked(s.dev, Queue(s.dev.q, tx)) == Some(k) && Fate(s, h, k)
    ensures Fate(Apply(s, Mark(tx)), h, k)
  {
    FirstLinkedIsOn(s.dev, Queue(s.dev.q, tx));
    OnQueueFacts(s, tx, k);
    AtWorkFacts(s, k);
  }

  /** Only what was good is offered to the stack, and what it is not given is freed. */
  lemma BottomGoes(s: Sys, h: Heard, o: Processed, k: Skb)
    requires s.dev.q.done != [] && k == s.dev.q.done[0] && k in h.status && k in s.place && s.place[k] == OnDone && Fate(s, h, k)
    ensures
      var t := AfterBottom(s, o);
      && k in t.place && t.place[k] == (if h.status[k] == Good && o == Paused then OnPaused else Gone)
      && Ups(t.dev, k) == (if h.status[k] == Good && o == Taken then 1 else 0)
  {
  }

  lemma SentGoes(s: Sys, h: Heard, o: Processed, k: Skb)
    requires s.dev.q.done != [] && k == s.dev.q.done[0] && k !in h.status && k in s.place && s.place[k] == OnDone && Fate(s, h, k)
    ensures
      var t := AfterBottom(s, o);
      k in t.place && t.place[k] == Gone && Ups(t.dev, k) == 0
  {
  }

  lemma BottomFate(s: Sys, h: Heard, o: Processed)
    requires Inv(s) && CanApply(s, Bottom(o)) && Fate(s, h, s.dev.q.done[0])
    ensures Fate(AfterBottom(s, o), Hears(h, s, Bottom(o)), s.dev.q.done[0])
  {
    var k := s.dev.q.done[0];
    HeadListed(s.dev.q, s.place, DoneList);
    if k in h.status { BottomGoes(s, h, o, k); } else { SentGoes(s, h, o, k); }
  }

  lemma UnpausedFate(s: Sys, h: Heard, up: bool)
    requires Inv(s) && CanApply(s, Unpause(up)) && Fate(s, h, s.dev.q.paused[0])
    ensures Fate(Apply(s, Unpause(up)), Hears(h, s, Unpause(up)), s.dev.q.paused[0])
  {
    HeadListed(s.dev.q, s.place, PauseList);
  }

  lemma WokenFate(s: Sys, h: Heard, ok: bool)
    requires Inv(s) && CanApply(s, Wake(ok)) && Fate(s, h, s.dev.q.anchor[0].skb)
    ensures Fate(Apply(s, Wake(ok)), h, s.dev.q.anchor[0].skb)
  {
    WakeFacts(s);
  }

  lemma SubjectFate(s: Sys, h: Heard, a: Action, k: Skb)
    requires Inv(s) && CanApply(s, a) && Subject(s, a) == Some(k) && Fate(s, h, k)
    ensures Fate(Apply(s, a), Hears(h, s, a), k)
  {
    match a
    case GiveBack(u) => GivenBackFate(s, h, u);
    case Sort(i, status) => SortedFate(s, h, i, status);
    case RxOff(_) => OffFate(s, h, a);
    case TxOff(_) => OffFate(s, h, a);
    case Mark(tx) => MarkedFate(s, h, tx, k);
    case Bottom(o) => BottomFate(s, h, o);
    case Unpause(up) => UnpausedFate(s, h, up);
    case Wake(ok) => WokenFate(s, h, ok);
    case Xmit(_, u, stale, o) => SentFate(s, h, k, u, stale, o);
    case Alloc(u, _, o) => AllocFate(s, h, u, k, o);
    case End(i, running, _, o) => EndFate(s, h, i, running, k, o);
  }

  lemma StepKeepsFates(s: Sys, h: Heard, a: Action)
    requires Inv(s) && AllFates(s, h) && CanApply(s, a)
    ensures AllFates(Apply(s, a), Hears(h, s, a))
  {
    forall k: Skb ensures Fate(Apply(s, a), Hears(h, s, a), k) {
      assert Fate(s, h, k);
      if Subject(s, a) == Some(k) {
        SubjectFate(s, h, a, k);
      } else {
        OthersHearNothing(s, h, a, k);
        StepLeaves(s, a, k);
        FateStays(s, Apply(s, a), h, Hears(h, s, a), k);
      }
    }
  }

  /* The URBs of receptions. */

  predicate Receiving(p: Place) {
    (p.InFlight? || p.InTask?) && !p.tx
  }

  /** A buffer being received is marked exactly if an unlink has picked its URB. */
  predicate MarkOk(s: Sys, k: Skb) {
    k in s.place && Receiving(s.place[k]) ==>
      AtWork(s, k).Some? && (StateOf(s.dev, k) == UnlinkStart <==> AtWork(s, k).value in s.doomed)
  }

  predicate TailOk(s: Sys, i: nat) {
    i < |s.dev.tasks| && s.dev.tasks[i].RxTail? ==> (s.dev.tasks[i].again <==> s.dev.tasks[i].urb !in s.doomed)
  }

  /** The URB of a blocked reception stays with the buffer until both are let go. */
  predicate BlockedOk(s: Sys, h: Heard, u: Urb) {
    u in h.blocked ==>
      u in s.owner &&
      (s.owner[u].Nobody? || (s.owner[u].InEntry? && s.owner[u].skb in h.status && h.status[s.owner[u].skb] == Blocked))
  }

  ghost predicate UrbFates(s: Sys, h: Heard) {
    (forall k: Skb :: MarkOk(s, k)) && (forall i: nat :: TailOk(s, i)) && (forall u: Urb :: BlockedOk(s, h, u))
  }

  /** Two buffers are never worked on by one URB, nor a buffer by one whose callback is done with its own. */
  lemma AtWorkIsOne(s: Sys, k: Skb, x: Skb)
    requires Inv(s) && k in s.place && x in s.place && k != x
    requires (s.place[k].InFlight? || s.place[k].InTask?) && (s.place[x].InFlight? || s.place[x].InTask?)
    ensures AtWork(s, k).Some? && AtWork(s, k) != AtWork(s, x)
  {
    AtWorkFacts(s, k);
    AtWorkFacts(s, x);
  }

  lemma OnlyMarksDoom(s: Sys, a: Action)
    requires CanApply(s, a) && !a.Mark?
    ensures Apply(s, a).doomed == s.doomed
  {
  }

  /** What an unlink picks next is on a list and at work. */
  lemma PickedIsAtWork(s: Sys, tx: bool)
    requires Inv(s) && CanApply(s, Mark(tx))
    ensures
      var x := FirstLinked(s.dev, Queue(s.dev.q, tx)).value;
      && x in s.place && (s.place[x].InFlight? || s.place[x].InTask?) && s.place[x].tx == tx
      && x in s.dev.entry && AtWork(s, x).Some?
  {
    var x := FirstLinked(s.dev, Queue(s.dev.q, tx)).value;
    FirstLinkedIsOn(s.dev, Queue(s.dev.q, tx));
    OnQueueFacts(s, tx, x);
    AtWorkFacts(s, x);
  }

  lemma MarkStays(s: Sys, a: Action, k: Skb)
    requires Inv(s) && CanApply(s, a) && Subject(s, a) != Some(k) && MarkOk(s, k)
    ensures MarkOk(Apply(s, a), k)
  {
    StepLeaves(s, a, k);
    if a.Mark? { MarkLeavesOthers(s, a.tx, k); } else { OnlyMarksDoom(s, a); SameMark(s, Apply(s, a), k); }
  }

  lemma SameMark(s: Sys, t: Sys, k: Skb)
    requires SameBuffer(s, t, k) && t.doomed == s.doomed && MarkOk(s, k)
    ensures MarkOk(t, k)
  {
  }

  lemma MarkLeavesOthers(s: Sys, tx: bool, k: Skb)
    requires Inv(s) && CanApply(s, Mark(tx)) && FirstLinked(s.dev, Queue(s.dev.q, tx)) != Some(k) && MarkOk(s, k)
    requires SameBuffer(s, Apply(s, Mark(tx)), k)
    ensures MarkOk(Apply(s, Mark(tx)), k)
  {
    var x, t := FirstLinked(s.dev, Queue(s.dev.q, tx)).value, Apply(s, Mark(tx));
    PickedIsAtWork(s, tx);
    if k in s.place && Receiving(s.place[k]) {
      AtWorkIsOne(s, k, x);
      assert AtWork(t, k) == AtWork(s, k);
    }
  }

  lemma PostedMark(s: Sys, a: Action, k: Skb)
    requires Inv(s) && CanApply(s, a) && Subject(s, a) == Some(k) && (a.Alloc? || a.End?)
    requires a.End? ==> TailOk(s, a.i)
    ensures MarkOk(Apply(s, a), k)
  {
    if a.Alloc? { AllocMark(s, a.u, k, a.posting); } else { EndMark(s, a.i, a.running, k, a.posting); }
  }

  lemma AllocMark(s: Sys, u: Urb, k: Skb, o: Posting)
    requires Inv(s) && k !in s.dev.entry && u !in s.dev.urbs.refs
    ensures MarkOk(AfterAlloc(s, u, k, o), k)
  {
    NewUrb(s, u);
  }

  lemma EndMark(s: Sys, i: nat, running: bool, k: Skb, o: Posting)
    requires Inv(s) && CanApply(s, End(i, running, k, o)) && TailOk(s, i)
    ensures MarkOk(AfterEnd(s, i, running, k, o), k)
  {
  }

  lemma GivenBackMark(s: Sys, u: Urb)
    requires Inv(s) && CanApply(s, GiveBack(u)) && MarkOk(s, s.dev.urbs.context[u].skb)
    ensures MarkOk(AfterGiveBack(s, u), s.dev.urbs.context[u].skb)
  {
    assert u in s.owner && UrbOk(s.dev, s.place, u, s.owner[u]);
    AtWorkFacts(s, s.dev.urbs.context[u].skb);
  }

  lemma SortedMark(s: Sys, i: nat, status: Status)
    requires Inv(s) && CanApply(s, Sort(i, status)) && MarkOk(s, s.dev.tasks[i].skb)
    ensures MarkOk(AfterSort(s, i, status), s.dev.tasks[i].skb)
  {
    assert TaskOk(s.dev.entry, s.place, s.owner, i, s.dev.tasks[i]);
  }

  lemma PickedMark(s: Sys, tx: bool)
    requires Inv(s) && CanApply(s, Mark(tx))
    ensures MarkOk(Apply(s, Mark(tx)), FirstLinked(s.dev, Queue(s.dev.q, tx)).value)
  {
    PickedIsAtWork(s, tx);
  }

  lemma SubjectMark(s: Sys, a: Action, k: Skb)
    requires Inv(s) && CanApply(s, a) && Subject(s, a) == Some(k) && MarkOk(s, k) && (a.End? ==> TailOk(s, a.i))
    ensures MarkOk(Apply(s, a), k)
  {
    match a
    case Alloc(_, _, _) => PostedMark(s, a, k);
    case End(_, _, _, _) => PostedMark(s, a, k);
    case GiveBack(u) => GivenBackMark(s, u);
    case Sort(i, status) => SortedMark(s, i, status);
    case Mark(tx) => PickedMark(s, tx);
    case _ => SettlesMark(s, a, k);
  }

  /** Off to the done list or out of the driver, or sent. */
  lemma SettlesMark(s: Sys, a: Action, k: Skb)
    requires CanApply(s, a) && Subject(s, a) == Some(k) && (a.RxOff? || a.TxOff? || a.Xmit? || a.Bottom? || a.Unpause? || a.Wake?)
    ensures k in Apply(s, a).place && !Receiving(Apply(s, a).place[k])
  {
  }

  /* Callbacks that are done with their buffer. */

  lemma OffTail(s: Sys, i: nat)
    requires Inv(s) && CanApply(s, RxOff(i)) && MarkOk(s, s.dev.tasks[i].skb)
    ensures TailOk(AfterRxOff(s, i), i)
  {
    var k := s.dev.tasks[i].skb;
    assert TaskOk(s.dev.entry, s.place, s.owner, i, s.dev.tasks[i]);
    AtWorkFacts(s, k);
  }

  /** Steps that neither end such a callback nor make one. */
  lemma TailsFrom(s: Sys, a: Action, i: nat)
    requires CanApply(s, a) && i < |Apply(s, a).dev.tasks| && Apply(s, a).dev.tasks[i].RxTail? && a != RxOff(i)
    ensures i < |s.dev.tasks| && s.dev.tasks[i] == Apply(s, a).dev.tasks[i]
  {
  }

  lemma TailStays(s: Sys, a: Action, i: nat)
    requires Inv(s) && CanApply(s, a) && a != RxOff(i) && TailOk(s, i)
    ensures TailOk(Apply(s, a), i)
  {
    var t := Apply(s, a);
    if i < |t.dev.tasks| && t.dev.tasks[i].RxTail? {
      TailsFrom(s, a, i);
      if a.Mark? { MarkLeavesTail(s, a.tx, i); } else { OnlyMarksDoom(s, a); }
    }
  }

  lemma MarkLeavesTail(s: Sys, tx: bool, i: nat)
    requires Inv(s) && CanApply(s, Mark(tx)) && i < |s.dev.tasks| && s.dev.tasks[i].RxTail?
    ensures s.dev.tasks[i].urb in Apply(s, Mark(tx)).doomed <==> s.dev.tasks[i].urb in s.doomed
  {
    var x := FirstLinked(s.dev, Queue(s.dev.q, tx)).value;
    PickedIsAtWork(s, tx);
    AtWorkFacts(s, x);
    EndFacts(s, i);
  }

  /* URBs of blocked receptions. */

  /** The URB a step may give a new keeper. */
  function Rekept(s: Sys, a: Action): Option<Urb>
    requires CanApply(s, a)
  {
    match a
    case Xmit(_, u, _, _) => Some(u)
    case Alloc(u, _, _) => Some(u)
    case Sort(i, _) => Some(s.dev.tasks[i].urb)
    case End(i, _, _, _) => Some(s.dev.tasks[i].urb)
    case _ => None
  }

  lemma OthersAreKept(s: Sys, a: Action, u: Urb)
    requires CanApply(s, a) && u in s.owner && Rekept(s, a) != Some(u)
    ensures u in Apply(s, a).owner && (Apply(s, a).owner[u] == s.owner[u] || Apply(s, a).owner[u].Nobody?)
  {
  }

  /** No step gives a URB a new keeper while a blocked reception's buffer has it. */
  lemma KeeperStays(s: Sys, h: Heard, a: Action, u: Urb)
    requires Inv(s) && CanApply(s, a) && u in s.owner && s.owner[u].InEntry?
    requires s.owner[u].skb in h.status && Fate(s, h, s.owner[u].skb)
    ensures u in Apply(s, a).owner && (Apply(s, a).owner[u] == s.owner[u] || Apply(s, a).owner[u].Nobody?)
  {
    if a.Sort? { SortKeeps(s, h, a.i, u); }
    if a.End? { EndFacts(s, a.i); }
    OthersAreKept(s, a, u);
  }

  lemma SortKeeps(s: Sys, h: Heard, i: nat, u: Urb)
    requires Inv(s) && i < |s.dev.tasks| && s.dev.tasks[i].RxBack? && u in s.owner && s.owner[u].InEntry?
    requires s.owner[u].skb in h.status && Fate(s, h, s.owner[u].skb)
    ensures s.dev.tasks[i].urb != u
  {
    assert TaskOk(s.dev.entry, s.place, s.owner, i, s.dev.tasks[i]);
  }

  lemma NewlyBlocked(s: Sys, h: Heard, i: nat)
    requires Inv(s) && CanApply(s, Sort(i, Blocked))
    ensures BlockedOk(AfterSort(s, i, Blocked), Hears(h, s, Sort(i, Blocked)), s.dev.tasks[i].urb)
  {
    assert TaskOk(s.dev.entry, s.place, s.owner, i, s.dev.tasks[i]);
  }

  lemma BlockedStays(s: Sys, h: Heard, a: Action, u: Urb)
    requires Inv(s) && CanApply(s, a) && AllFates(s, h) && BlockedOk(s, h, u)
    ensures BlockedOk(Apply(s, a), Hears(h, s, a), u)
  {
    if a.Sort? && a.status == Blocked && s.dev.tasks[a.i].urb == u {
      NewlyBlocked(s, h, a.i);
    } else if u in h.blocked {
      if s.owner[u].Nobody? { NobodyStays(s, a, u); } else {
        assert Fate(s, h, s.owner[u].skb);
        KeeperStays(s, h, a, u);
        StatusStays(s, h, a, s.owner[u].skb);
      }
    }
  }

  lemma StatusStays(s: Sys, h: Heard, a: Action, k: Skb)
    requires Inv(s) && CanApply(s, a) && Fate(s, h, k) && k in h.status
    ensures k in Hears(h, s, a).status && Hears(h, s, a).status[k] == h.status[k]
  {
    if a.Sort? { assert TaskOk(s.dev.entry, s.place, s.owner, a.i, s.dev.tasks[a.i]); }
  }

  /** A URB let go by the driver is let go for good. */
  lemma NobodyStays(s: Sys, a: Action, u: Urb)
    requires Inv(s) && CanApply(s, a) && u in s.owner && s.owner[u].Nobody?
    ensures u in Apply(s, a).owner && Apply(s, a).owner[u].Nobody?
  {
    if a.Sort? { assert TaskOk(s.dev.entry, s.place, s.owner, a.i, s.dev.tasks[a.i]); }
    if a.End? { EndFacts(s, a.i); }
    OthersAreKept(s, a, u);
  }

  lemma StepKeepsUrbFates(s: Sys, h: Heard, a: Action)
    requires Inv(s) && AllFates(s, h) && UrbFates(s, h) && CanApply(s, a)
    ensures UrbFates(Apply(s, a), Hears(h, s, a))
  {
    forall k: Skb ensures MarkOk(Apply(s, a), k) {
      if Subject(s, a) == Some(k) { SubjectMark(s, a, k); } else { MarkStays(s, a, k); }
    }
    forall i: nat ensures TailOk(Apply(s, a), i) {
      if a == RxOff(i) { OffTail(s, i); } else { TailStays(s, a, i); }
    }
    forall u: Urb ensures BlockedOk(Apply(s, a), Hears(h, s, a), u) {
      BlockedStays(s, h, a, u);
    }
  }

  /* Over every run. */

  lemma {:induction false} RunKeepsFates(s: Sys, h: Heard, actions: seq<Action>)
    requires Inv(s) && AllFates(s, h) && UrbFates(s, h) && CanRun(s, actions)
    ensures
      var t, g := Run(s, actions), HearsAll(h, s, actions);
      Inv(t) && AllFates(t, g) && UrbFates(t, g)
    decreases |actions|
  {
    if actions != [] {
      ApplyKeepsInv(s, actions[0]);
      StepKeepsFates(s, h, actions[0]);
      StepKeepsUrbFates(s, h, actions[0]);
      RunKeepsFates(Apply(s, actions[0]), Hears(h, s, actions[0]), actions[1..]);
    }
  }

  lemma FromStart(actions: seq<Action>)
    requires CanRun(START, actions)
    ensures
      var t, g := Run(START, actions), HearsAll(Nothing, START, actions);
      Inv(t) && AllFates(t, g) && UrbFates(t, g)
  {
    StartInv();
    RunKeepsFates(START, Nothing, actions);
  }

  lemma ReleasedIsGone(s: Sys, k: Skb)
    requires Inv(s)
    ensures k in s.dev.q.released <==> k in s.place && s.place[k] == Gone
    ensures k in s.dev.q.paused <==> k in s.place && s.place[k] == OnPaused
  {
    assert Count(s.dev.q, ReleasedList, k) == if k in s.place && ListOf(s.place[k]) == ReleasedList then 1 else 0;
    assert Count(s.dev.q, PauseList, k) == if k in s.place && ListOf(s.place[k]) == PauseList then 1 else 0;
  }

  /** At any time of any run a buffer was handed up at most once, and put by or handed up only if
      its reception ended well. Once a received buffer is out of the driver, it went up exactly
      if the reception was good, the stack did not reject it and it was not purged while put by:
      every other one was freed. */
  lemma GoodOnesGoUp(actions: seq<Action>, k: Skb)
    requires CanRun(START, actions)
    ensures
      var d, h := Run(START, actions).dev, HearsAll(Nothing, START, actions);
      && multiset(d.q.up)[k] <= 1
      && (k in d.q.up ==> k in d.q.released && k in h.status && h.status[k] == Good)
      && (k in d.q.paused ==> k in h.status && h.status[k] == Good)
      && (k in d.q.released && k in h.status ==>
            (k in d.q.up <==>
               h.status[k] == Good && k in h.answered && k !in h.purged && (h.answered[k] == Taken || h.answered[k] == Paused)))
      && (k in d.q.released && k in h.status && h.status[k] == Good ==> k in h.answered)
  {
    FromStart(actions);
    var s := Run(START, actions);
    assert Fate(s, HearsAll(Nothing, START, actions), k);
    ReleasedIsGone(s, k);
  }

  /** The bottom half frees a buffer whose reception failed, whatever the stack would answer; one
      whose reception was good goes where the stack says. Either way it leaves the done list. */
  lemma FailedOnesAreFreed(actions: seq<Action>, o: Processed)
    requires CanRun(START, actions) && CanApply(Run(START, actions), Bottom(o))
    ensures
      var s, h := Run(START, actions), HearsAll(Nothing, START, actions);
      var k, t := s.dev.q.done[0], Apply(s, Bottom(o));
      k in h.status ==>
        && (k in t.dev.q.released <==> h.status[k] != Good || o != Paused)
        && (k in t.dev.q.up <==> h.status[k] == Good && o == Taken)
        && (k in t.dev.q.paused <==> h.status[k] == Good && o == Paused)
  {
    FromStart(actions);
    var s, h := Run(START, actions), HearsAll(Nothing, START, actions);
    var k := s.dev.q.done[0];
    var t := Apply(s, Bottom(o));
    assert Fate(s, h, k);
    HeadListed(s.dev.q, s.place, DoneList);
    if k in h.status { BottomGoes(s, h, o, k); }
    ApplyKeepsInv(s, Bottom(o));
    ReleasedIsGone(t, k);
  }

  /** The URB of a reception that ended in a shutdown, stall or bus error is never submitted again. */
  lemma BlockedNeverAgain(actions: seq<Action>, a: Action, u: Urb)
    requires CanRun(START, actions) && CanApply(Run(START, actions), a) && u in HearsAll(Nothing, START, actions).blocked
    ensures u !in Submits(Run(START, actions), a)
  {
    FromStart(actions);
    var s, h := Run(START, actions), HearsAll(Nothing, START, actions);
    assert BlockedOk(s, h, u);
    if a.End? { EndFacts(s, a.i); }
    if a.Wake? {
      WakeFacts(s);
      assert Fate(s, h, s.dev.q.anchor[0].skb);
    }
  }

  /** Any other reception's URB goes round again: its callback comes to the point where it
      decides, and there a running device posts it with a new buffer exactly if no unlink has
      picked it meanwhile. If it does not post it, the callback lets it go. */
  lemma OthersGoRound(actions: seq<Action>, i: nat, running: bool, k: Skb, o: Posting)
    requires CanRun(START, actions)
    ensures
      var s, h := Run(START, actions), HearsAll(Nothing, START, actions);
      i < |s.dev.tasks| ==>
        && (CanApply(s, RxOff(i)) ==>
              var t := s.dev.tasks[i];
              t.skb in h.status && (Apply(s, RxOff(i)).dev.tasks[i].RxTail? <==> h.status[t.skb] != Blocked))
        && (CanApply(s, End(i, running, k, o)) ==>
              var u := s.dev.tasks[i].urb;
              && (u in Submits(s, End(i, running, k, o)) <==> running && u !in s.doomed && o == Posted)
              && (u !in Submits(s, End(i, running, k, o)) ==>
                    Refs(Apply(s, End(i, running, k, o)).dev.urbs, u) == Refs(s.dev.urbs, u) - 1))
  {
    FromStart(actions);
    var s, h := Run(START, actions), HearsAll(Nothing, START, actions);
    if CanApply(s, RxOff(i)) { OffGoesOn(s, h, i); }
    if CanApply(s, End(i, running, k, o)) {
      assert TailOk(s, i);
      EndGoesOn(s, i, running, k, o);
    }
  }

  lemma EndGoesOn(s: Sys, i: nat, running: bool, k: Skb, o: Posting)
    requires Inv(s) && CanApply(s, End(i, running, k, o)) && TailOk(s, i)
    ensures
      var u := s.dev.tasks[i].urb;
      && (u in Submits(s, End(i, running, k, o)) <==> running && u !in s.doomed && o == Posted)
      && (u !in Submits(s, End(i, running, k, o)) ==>
            Refs(AfterEnd(s, i, running, k, o).dev.urbs, u) == Refs(s.dev.urbs, u) - 1)
  {
    EndFacts(s, i);
  }

  lemma OffGoesOn(s: Sys, h: Heard, i: nat)
    requires Inv(s) && AllFates(s, h) && CanApply(s, RxOff(i))
    ensures
      var t := s.dev.tasks[i];
      t.skb in h.status && (AfterRxOff(s, i).dev.tasks[i].RxTail? <==> h.status[t.skb] != Blocked)
  {
    assert TaskOk(s.dev.entry, s.place, s.owner, i, s.dev.tasks[i]);
    assert Fate(s, h, s.dev.tasks[i].skb);
  }
}
