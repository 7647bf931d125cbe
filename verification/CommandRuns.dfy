/** The command ring over whole runs: commands queued, completed and aborted in any order. */
module CommandRuns {
  import opened RingModel
  import opened RingExpansion
  import opened RingFifo
  import opened CommandSlots

  datatype State = State(ring: RingState, list: seq<Command>)

  /** A command is queued with this many slots reserved; the controller reports the TRB at
      `at` done; an aborted command's TRB is turned into a no-op. */
  datatype Event =
    | Queue(id: nat, body: Body, mustSucceed: bool, reserved: nat, alive: bool)
    | Complete(at: nat)
    | Abort(at: nat)

  /** A slot is reserved for each command that must succeed. */
  ghost predicate Enabled(s: State, e: Event) {
    Matched(s.ring, s.list) &&
    match e
    case Queue(_, body, mustSucceed, reserved, _) => Data(body) && !body.chain && (mustSucceed ==> 1 <= reserved)
    case Complete(at) => Reportable(s.ring, at)
    case Abort(at) => at < s.ring.Size()
  }

  function Completed(s: State): State
    requires s.list != [] && s.ring.Geometry() && s.ring.InSeg(s.ring.deqSeg, s.ring.deq) && s.ring.deq + 1 < s.ring.Size()
  {
    State(IncDeq(s.ring, s.ring.deqSeg, s.ring.deq), s.list[1..])
  }

  ghost function Apply(s: State, e: Event): State
    requires Enabled(s, e)
  {
    match e
    case Queue(id, body, mustSucceed, reserved, alive) =>
      if alive && Accepts(s.ring, reserved, mustSucceed)
      then State(WithCommand(s.ring, body), s.list + [Listed(id, Effective(s.ring))]) else s
    case Complete(at) =>
      if at == s.ring.deq then
        ReportHasCommand(s.ring, s.list, at);
        CompletionMatches(s.ring, s.list);
        Completed(s)
      else s
    case Abort(at) => State(s.ring.(trbs := s.ring.trbs[at := NoopOf(s.ring.trbs[at])]), s.list)
  }

  lemma ApplyKeepsMatched(s: State, e: Event)
    requires Enabled(s, e)
    ensures Matched(Apply(s, e).ring, Apply(s, e).list)
  {
    match e
    case Queue(id, body, mustSucceed, reserved, alive) =>
      if alive && Accepts(s.ring, reserved, mustSucceed) { QueueKeepsMatched(s.ring, s.list, reserved, mustSucceed, body, id); }
    case Complete(at) =>
      if at == s.ring.deq {
        ReportHasCommand(s.ring, s.list, at);
        CompletionMatches(s.ring, s.list);
      }
    case Abort(at) => AbortKeepsMatched(s.ring, s.list, at);
  }

  ghost predicate CanRun(s: State, events: seq<Event>)
    decreases |events|
  {
    events == [] || (Enabled(s, events[0]) && CanRun(Apply(s, events[0]), events[1..]))
  }

  ghost function Run(s: State, events: seq<Event>): State
    requires CanRun(s, events)
    decreases |events|
  {
    if events == [] then s else Run(Apply(s, events[0]), events[1..])
  }

  lemma {:induction false} RunKeepsMatched(s: State, events: seq<Event>)
    requires Matched(s.ring, s.list) && CanRun(s, events)
    ensures Matched(Run(s, events).ring, Run(s, events).list)
    decreases |events|
  {
    if events != [] {
      ApplyKeepsMatched(s, events[0]);
      RunKeepsMatched(Apply(s, events[0]), events[1..]);
    }
  }

  lemma FreshIsMatched(t: nat, segs: nat, quirk: bool)
    requires 3 <= t && 1 <= segs
    ensures Matched(FreshRing(t, segs, quirk), [])
  {
    FreshRingShape(t, segs, quirk);
    SegBound(0, segs, t);
    LinkInSeg(FreshRing(t, segs, quirk), 0, 0);
    SegBound(0, segs, t - 1);
  }

  /** Over every run from a fresh command ring the i-th listed command owns the i-th slot from
      dequeue, free slots and listed commands add up to the capacity, and enqueue meets
      dequeue only when nothing is listed. */
  lemma CommandsOwnSlots(t: nat, segs: nat, quirk: bool, events: seq<Event>)
    requires 3 <= t && 1 <= segs && CanRun(State(FreshRing(t, segs, quirk), []), events)
    ensures
      var s := Run(State(FreshRing(t, segs, quirk), []), events);
      && Matched(s.ring, s.list)
      && FreeSlots(s.ring) + |s.list| == Times(s.ring.segs, s.ring.t - 1)
      && (Effective(s.ring) == s.ring.deq <==> s.list == [])
  {
    FreshIsMatched(t, segs, quirk);
    RunKeepsMatched(State(FreshRing(t, segs, quirk), []), events);
    var s := Run(State(FreshRing(t, segs, quirk), []), events);
    FreeIsExact(s.ring, s.list);
    if Effective(s.ring) != s.ring.deq {
      SlotsNonempty(s.ring.trbs, s.ring.deq, Effective(s.ring));
    }
  }
}
