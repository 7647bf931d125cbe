/** Which doorbells each event rings, and what follows over any run: on an endpoint that nothing
    holds back no queued TD waits for a doorbell, but for the cases named here. */
module EndpointDoorbells {
  import opened Wrappers
  import opened Cancellation
  import opened CancellationProof
  import opened CancellationMoves

  /** Nothing is pending that would keep the doorbell from being written. */
  predicate Quiet(e: Ep) {
    !e.stop && !e.setDeq && !e.halted && !e.clearingTt
  }

  function StreamsOf(bells: seq<Bell>): set<nat> {
    set b | b in bells :: b.stream
  }

  /** The streams whose doorbell was written between one state and a later one. */
  function Rang(e: Ep, r: Ep): set<nat> {
    if |e.doorbells| <= |r.doorbells| then StreamsOf(r.doorbells[|e.doorbells|..]) else {}
  }

  /** The streams with TDs on their rings. */
  function ActiveStreams(e: Ep): set<nat> {
    set td | td in e.tds && td.stream in e.streams :: td.stream
  }

  predicate SameFlags(e: Ep, r: Ep) {
    r.stop == e.stop && r.setDeq == e.setDeq && r.halted == e.halted && r.clearingTt == e.clearingTt
  }

  /* What the parts of the handlers ring. */

  lemma {:induction false} RingsActive(e: Ep, k: nat)
    requires k <= |e.streams|
    ensures
      var r := ActiveDoorbells(e, k);
      && r == e.(doorbells := r.doorbells) && e.doorbells <= r.doorbells
      && (!Quiet(e) ==> r.doorbells == e.doorbells)
      && (Quiet(e) ==> forall s :: s in Rang(e, r) <==> s in e.streams[..k] && Active(e, s))
    decreases k
  {
    if k != 0 {
      RingsActive(e, k - 1);
      var q, r := ActiveDoorbells(e, k - 1), ActiveDoorbells(e, k);
      assert e.streams[..k] == e.streams[..k - 1] + [e.streams[k - 1]];
      if Quiet(e) && Active(e, e.streams[k - 1]) {
        assert r.doorbells[|e.doorbells|..] == q.doorbells[|e.doorbells|..] + [Bell(e.streams[k - 1], Statuses(q))];
        RangMore(e, q, Bell(e.streams[k - 1], Statuses(q)));
      }
    }
  }

  lemma RangMore(e: Ep, q: Ep, bell: Bell)
    requires e.doorbells <= q.doorbells
    ensures Rang(e, q.(doorbells := q.doorbells + [bell])) == Rang(e, q) + {bell.stream}
  {
    var before, after := q.doorbells[|e.doorbells|..], (q.doorbells + [bell])[|e.doorbells|..];
    assert after == before + [bell];
    assert forall b :: b in after <==> b in before || b == bell;
  }

  lemma Restarted(e: Ep)
    ensures
      var r := RestartRings(e);
      && r == e.(doorbells := r.doorbells) && e.doorbells <= r.doorbells
      && Rang(e, r) == (if Quiet(e) then ActiveStreams(e) else {})
  {
    RingsActive(e, |e.streams|);
    assert e.streams[..|e.streams|] == e.streams;
    var r := RestartRings(e);
    if Quiet(e) {
      forall s ensures s in Rang(e, r) <==> s in ActiveStreams(e) {
        assert s in ActiveStreams(e) <==> s in e.streams && Active(e, s);
      }
    }
  }

  /** Giving back rings nothing and takes only what is on the cancelled list. */
  lemma {:induction false} GivebackRingsNothing(e: Ep, todo: seq<Td>)
    ensures
      var r := GivebackFrom(e, todo);
      && SameFlags(e, r) && r.streams == e.streams && r.doorbells == e.doorbells
      && (forall td :: td in r.tds ==> td in e.tds) && (forall td :: td in e.tds && td !in todo ==> td in r.tds)
    decreases |todo|
  {
    if todo != [] {
      GivebackRingsNothing(if StatusOf(e, todo[0]) == Cleared then Cleanup(e, todo[0]) else e, todo[1..]);
    }
  }

  lemma {:induction false} FlushRingsNothing(e: Ep, todo: seq<Td>)
    ensures var r := GivebackFlushed(e, todo); SameFlags(e, r) && r.streams == e.streams && r.doorbells == e.doorbells
    ensures forall td :: td in GivebackFlushed(e, todo).tds ==> td in e.tds
    decreases |todo|
  {
    if todo != [] {
      var td := todo[0];
      FlushRingsNothing(if StatusOf(e, td) == ClearingCache then Cleanup(e.(status := e.status[td := Cleared]), td) else e, todo[1..]);
    }
  }

  /** After the pass no TD is on both lists, unless it was left for later. */
  lemma PassRingsNothing(e: Ep, hits: set<Td>, moved: bool)
    ensures
      var r := Invalidate(e, hits, moved);
      && r.streams == e.streams && r.doorbells == e.doorbells && r.cancelled == e.cancelled
      && r.stop == e.stop && r.halted == e.halted && r.clearingTt == e.clearingTt
      && (forall td :: td in r.tds ==> td in e.tds) && (!e.setDeq ==> forall td :: td in r.tds ==> td !in r.cancelled)
      && (e.setDeq ==> r.setDeq)
  {
    if !e.setDeq { InvalidateLeaves(e, hits, moved); }
  }

  lemma GivebackKeepsActive(e: Ep)
    requires forall td :: td in e.tds ==> td !in e.cancelled
    ensures ActiveStreams(Giveback(e)) == ActiveStreams(e)
  {
    GivebackRingsNothing(e, e.cancelled);
    assert forall td :: td in Giveback(e).tds <==> td in e.tds;
  }

  /** What a restart rings, and that it comes to what an event as a whole rings. */
  predicate RangAll(e: Ep, r: Ep) {
    e.doorbells <= r.doorbells && Rang(e, r) == if Quiet(r) then ActiveStreams(r) else {}
  }

  predicate RangNone(e: Ep, r: Ep) {
    r.doorbells == e.doorbells
  }

  lemma FinishStopRings(e: Ep, hits: set<Td>, moved: bool)
    ensures RangAll(e, FinishStop(e, hits, moved)) && !FinishStop(e, hits, moved).stop
  {
    var i := Invalidate(e, hits, moved).(stop := false);
    PassRingsNothing(e, hits, moved);
    GivebackRingsNothing(i, i.cancelled);
    Restarted(Giveback(i));
  }

  /** Restarting comes first here, and what is then given back is on no ring any more. */
  lemma SetDeqRings(e: Ep, hits: set<Td>, moved: bool)
    ensures RangAll(e, HandleSetDeq(e, hits, moved))
  {
    FlushRingsNothing(e, e.cancelled);
    var f := GivebackFlushed(e, e.cancelled).(setDeq := false);
    if f.cancelled == [] {
      Restarted(f);
    } else {
      var i := Invalidate(f, hits, moved);
      PassRingsNothing(f, hits, moved);
      Restarted(i);
      var r := RestartRings(i);
      GivebackRingsNothing(r, r.cancelled);
      GivebackKeepsActive(r);
    }
  }

  lemma ResetRings(e: Ep, hits: set<Td>, moved: bool, soft: bool)
    ensures
      var r := HandleReset(e, hits, moved, soft);
      && !r.halted && r.stop == e.stop && r.clearingTt == e.clearingTt
      && (if soft then RangAll(e, r) else RangNone(e, r))
  {
    var i := Invalidate(e, hits, moved).(halted := false);
    PassRingsNothing(e, hits, moved);
    GivebackRingsNothing(i, i.cancelled);
    Restarted(Giveback(i));
  }

  lemma HaltRings(e: Ep, td: Option<Td>, hard: bool, portError: bool)
    ensures
      var (r, failed) := HandleHalted(e, td, hard, portError, true);
      && RangNone(e, r) && r.tds == e.tds && r.streams == e.streams && failed == portError
      && r.stop == e.stop && r.setDeq == e.setDeq && r.clearingTt == e.clearingTt && (r.halted <==> e.halted || !portError)
      && (portError ==> r == e)
  {
  }

  /** A Stop Endpoint completion ends the command unless it is tried again, and then everything
      is restarted unless a reset is to come. */
  lemma StopRings(e: Ep, report: StopReport, hits: set<Td>, moved: bool)
    ensures
      var r := HandleStop(e, report, hits, moved, true);
      && (r.stop <==> e.stop && Retries(e, report))
      && (Retries(e, report) ==> r == e)
      && (!Retries(e, report) ==> RangAll(e, r))
  {
    if report.FoundHalted? {
      HaltRings(e, report.td, report.hard, report.portError);
      FinishStopRings(HandleHalted(e, report.td, report.hard, report.portError, true).0, hits, moved);
    } else {
      FinishStopRings(e, hits, moved);
    }
  }

  lemma {:induction false} MarkRingsNothing(e: Ep, todo: seq<Td>)
    ensures
      var r := MarkDirty(e, todo);
      SameFlags(e, r) && r.doorbells == e.doorbells && r.tds == e.tds && r.streams == e.streams
    decreases |todo|
  {
    if todo != [] {
      MarkRingsNothing(if todo[0] in e.cancelled then e
                       else e.(cancelled := e.cancelled + [todo[0]], status := e.status[todo[0] := Dirty]), todo[1..]);
    }
  }

  /* Event by event. */

  /** The events after which the driver restarts the rings. */
  predicate Restarts(e: Ep, ev: Event) {
    match ev
    case StopDone(report, _, _) => !Retries(e, report)
    case SetDeqDone(_, _) => true
    case ResetDone(_, _, soft) => soft
    case BufferCleared => true
    case _ => false
  }

  /** The doorbell of a stream is written by the URB queued for it, or for each stream that has
      TDs when the rings are restarted; either only if nothing is pending, and by nothing else. */
  lemma DoorbellsRung(e: Ep, ev: Event)
    ensures
      var r := After(e, ev);
      && e.doorbells <= r.doorbells
      && Rang(e, r) ==
           if !Quiet(r) then {} else if ev.Submit? then {ev.stream} else if Restarts(e, ev) then ActiveStreams(r) else {}
  {
    match ev
    case Submit(tds, urb, stream) => SubmitRings(e, tds, urb, stream);
    case Unlink(tds) => MarkRingsNothing(e, tds);
    case Complete(td) =>
    case Halt(td, hard, portError) => HaltRings(e, td, hard, portError);
    case HaltedBy(td, stall, behind, accepted, portError) =>
      HaltRings(if stall then e else ClearTt(e, behind, accepted), Some(td), true, portError);
    case _ => CommandRings(e, ev);
  }

  lemma CommandRings(e: Ep, ev: Event)
    requires ev.StopDone? || ev.SetDeqDone? || ev.ResetDone? || ev.BufferCleared?
    ensures if Restarts(e, ev) then RangAll(e, After(e, ev)) else RangNone(e, After(e, ev))
  {
    match ev
    case StopDone(report, hits, moved) => StopRings(e, report, hits, moved);
    case SetDeqDone(hits, moved) => SetDeqRings(e, hits, moved);
    case ResetDone(hits, moved, soft) => ResetRings(e, hits, moved, soft);
    case BufferCleared => Restarted(e.(clearingTt := false));
  }

  lemma SubmitRings(e: Ep, tds: seq<Td>, urb: nat, stream: nat)
    ensures
      var r := Enqueue(e, tds, urb, stream);
      && e.doorbells <= r.doorbells && Rang(e, r) == (if Quiet(r) then {stream} else {})
      && SameFlags(e, r) && r.tds == e.tds + tds && r.streams == e.streams
  {
    RangMore(e, e.(tds := e.tds + tds, numTds := e.numTds[urb := |tds|], done := e.done[urb := 0]),
             Bell(stream, Statuses(e.(tds := e.tds + tds, numTds := e.numTds[urb := |tds|], done := e.done[urb := 0]))));
  }

  /* The flags, event by event. */

  /** A stop command is queued for cancelled TDs only if nothing pending will see to them, and
      ends when its completion is not answered by another; a halt queues a reset unless the port
      is in error, and the reset's completion ends it; the hub is being waited for from when it
      took the request until it is done. */
  lemma FlagsFollow(e: Ep, ev: Event)
    ensures
      var r := After(e, ev);
      && (r.stop <==> if ev.StopDone? then e.stop && Retries(e, ev.report)
                      else e.stop || (ev.Unlink? && !e.setDeq && !e.halted))
      && (r.halted <==> if ev.ResetDone? then false
                        else e.halted || (ev.Halt? && !ev.portError) || (ev.HaltedBy? && !ev.portError) ||
                             (ev.StopDone? && ev.report.FoundHalted? && !ev.report.portError))
      && (r.clearingTt <==> if ev.BufferCleared? then false
                            else e.clearingTt || (ev.HaltedBy? && !ev.controlStall && ev.behindHub && ev.accepted))
  {
    match ev
    case Submit(tds, urb, stream) => SubmitRings(e, tds, urb, stream);
    case Unlink(tds) => MarkRingsNothing(e, tds);
    case Complete(td) =>
    case Halt(td, hard, portError) => HaltRings(e, td, hard, portError);
    case HaltedBy(td, stall, behind, accepted, portError) =>
      HaltRings(if stall then e else ClearTt(e, behind, accepted), Some(td), true, portError);
    case _ => CommandFlags(e, ev);
  }

  lemma CommandFlags(e: Ep, ev: Event)
    requires ev.StopDone? || ev.SetDeqDone? || ev.ResetDone? || ev.BufferCleared?
    ensures
      var r := After(e, ev);
      && (r.stop <==> if ev.StopDone? then e.stop && Retries(e, ev.report) else e.stop)
      && (r.halted <==> if ev.ResetDone? then false
                        else e.halted || (ev.StopDone? && ev.report.FoundHalted? && !ev.report.portError))
      && (r.clearingTt <==> !ev.BufferCleared? && e.clearingTt)
  {
    match ev
    case StopDone(report, hits, moved) => StopFlags(e, report, hits, moved);
    case SetDeqDone(hits, moved) => SetDeqFlags(e, hits, moved);
    case ResetDone(hits, moved, soft) => ResetRings(e, hits, moved, soft);
    case BufferCleared => Restarted(e.(clearingTt := false));
  }

  lemma FinishStopFlags(e: Ep, hits: set<Td>, moved: bool)
    ensures var r := FinishStop(e, hits, moved); !r.stop && r.halted == e.halted && r.clearingTt == e.clearingTt
  {
    var i := Invalidate(e, hits, moved).(stop := false);
    PassRingsNothing(e, hits, moved);
    GivebackRingsNothing(i, i.cancelled);
    Restarted(Giveback(i));
  }

  lemma StopFlags(e: Ep, report: StopReport, hits: set<Td>, moved: bool)
    ensures
      var r := HandleStop(e, report, hits, moved, true);
      && (r.stop <==> e.stop && Retries(e, report)) && r.clearingTt == e.clearingTt
      && (r.halted <==> e.halted || (report.FoundHalted? && !report.portError))
  {
    if report.FoundHalted? {
      HaltRings(e, report.td, report.hard, report.portError);
      FinishStopFlags(HandleHalted(e, report.td, report.hard, report.portError, true).0, hits, moved);
    } else {
      FinishStopFlags(e, hits, moved);
    }
  }

  lemma SetDeqFlags(e: Ep, hits: set<Td>, moved: bool)
    ensures var r := HandleSetDeq(e, hits, moved); r.stop == e.stop && r.halted == e.halted && r.clearingTt == e.clearingTt
  {
    FlushRingsNothing(e, e.cancelled);
    var f := GivebackFlushed(e, e.cancelled).(setDeq := false);
    Restarted(f);
    var i := Invalidate(f, hits, moved);
    PassRingsNothing(f, hits, moved);
    Restarted(i);
    GivebackRingsNothing(RestartRings(i), i.cancelled);
  }

  /* Over every run. */

  /** The streams whose doorbell was written since the endpoint was last found not to run, and
      whether it was then left alone with nothing pending: by a reset that does not restart it,
      or by a port error. */
  datatype Seen = Seen(awake: set<nat>, left: bool)

  /** The events that tell that the controller has stopped working on the endpoint. */
  predicate Stops(e: Ep, ev: Event) {
    ev.Halt? || ev.HaltedBy? || (ev.StopDone? && !Retries(e, ev.report))
  }

  predicate LeavesAlone(e: Ep, ev: Event) {
    Quiet(After(e, ev)) && (ev.Halt? || ev.HaltedBy? || (ev.ResetDone? && !ev.soft))
  }

  function Notes(w: Seen, e: Ep, ev: Event): Seen {
    Seen((if Stops(e, ev) then {} else w.awake) + Rang(e, After(e, ev)),
         if LeavesAlone(e, ev) then true else if Restarts(e, ev) && Quiet(After(e, ev)) then false else w.left)
  }

  function NotesAll(w: Seen, e: Ep, evs: seq<Event>): Seen
    decreases |evs|
  {
    if evs == [] then w else NotesAll(Notes(w, e, evs[0]), After(e, evs[0]), evs[1..])
  }

  /** Every TD is on the ring of a stream the endpoint has. */
  predicate Routed(e: Ep) {
    forall td :: td in e.tds ==> td.stream in e.streams
  }

  predicate Awake(e: Ep, w: Seen) {
    Quiet(e) && !w.left ==> forall td :: td in e.tds ==> td.stream in w.awake
  }

  lemma EventKeepsRouted(e: Ep, ev: Event)
    requires Routed(e) && Possible(e, ev)
    ensures Routed(After(e, ev)) && After(e, ev).streams == e.streams
    ensures forall td :: td in After(e, ev).tds ==> td in e.tds || (ev.Submit? && td.stream == ev.stream)
  {
    match ev
    case Submit(tds, urb, stream) => SubmitRings(e, tds, urb, stream);
    case Unlink(tds) => MarkRingsNothing(e, tds);
    case Complete(td) =>
    case Halt(td, hard, portError) => HaltRings(e, td, hard, portError);
    case HaltedBy(td, stall, behind, accepted, portError) =>
      HaltRings(if stall then e else ClearTt(e, behind, accepted), Some(td), true, portError);
    case _ => CommandAddsNothing(e, ev);
  }

  lemma CommandAddsNothing(e: Ep, ev: Event)
    requires ev.StopDone? || ev.SetDeqDone? || ev.ResetDone? || ev.BufferCleared?
    ensures After(e, ev).streams == e.streams && forall td :: td in After(e, ev).tds ==> td in e.tds
  {
    match ev
    case StopDone(report, hits, moved) => StopAddsNothing(e, report, hits, moved);
    case SetDeqDone(hits, moved) => SetDeqAddsNothing(e, hits, moved);
    case ResetDone(hits, moved, soft) => ResetAddsNothing(e, hits, moved, soft);
    case BufferCleared => Restarted(e.(clearingTt := false));
  }

  lemma ResetAddsNothing(e: Ep, hits: set<Td>, moved: bool, soft: bool)
    ensures
      var r := HandleReset(e, hits, moved, soft);
      r.streams == e.streams && forall td :: td in r.tds ==> td in e.tds
  {
    PassRingsNothing(e, hits, moved);
    PassAddsNothing(e, hits, moved, Invalidate(e, hits, moved).stop, false);
    var i := Invalidate(e, hits, moved);
    assert i.(halted := false) == i.(stop := i.stop, halted := false);
  }

  lemma PassAddsNothing(e: Ep, hits: set<Td>, moved: bool, stop: bool, halted: bool)
    ensures
      var g := Giveback(Invalidate(e, hits, moved).(stop := stop, halted := halted));
      var r := RestartRings(g);
      g.streams == r.streams == e.streams && r.tds == g.tds && forall td :: td in g.tds ==> td in e.tds
  {
    var i := Invalidate(e, hits, moved).(stop := stop, halted := halted);
    PassRingsNothing(e, hits, moved);
    GivebackRingsNothing(i, i.cancelled);
    Restarted(Giveback(i));
  }

  lemma FinishStopAddsNothing(e: Ep, hits: set<Td>, moved: bool)
    ensures var r := FinishStop(e, hits, moved); r.streams == e.streams && forall td :: td in r.tds ==> td in e.tds
  {
    PassAddsNothing(e, hits, moved, false, Invalidate(e, hits, moved).halted);
    var i := Invalidate(e, hits, moved);
    assert i.(stop := false) == i.(stop := false, halted := i.halted);
  }

  lemma StopAddsNothing(e: Ep, report: StopReport, hits: set<Td>, moved: bool)
    ensures
      var r := HandleStop(e, report, hits, moved, true);
      r.streams == e.streams && forall td :: td in r.tds ==> td in e.tds
  {
    if report.FoundHalted? {
      HaltRings(e, report.td, report.hard, report.portError);
      FinishStopAddsNothing(HandleHalted(e, report.td, report.hard, report.portError, true).0, hits, moved);
    } else {
      FinishStopAddsNothing(e, hits, moved);
    }
  }

  lemma SetDeqAddsNothing(e: Ep, hits: set<Td>, moved: bool)
    ensures
      var r := HandleSetDeq(e, hits, moved);
      r.streams == e.streams && forall td :: td in r.tds ==> td in e.tds
  {
    FlushRingsNothing(e, e.cancelled);
    var f := GivebackFlushed(e, e.cancelled).(setDeq := false);
    Restarted(f);
    var i := Invalidate(f, hits, moved);
    PassRingsNothing(f, hits, moved);
    Restarted(i);
    GivebackRingsNothing(RestartRings(i), i.cancelled);
  }

  /** An event that leaves nothing pending where something was restarts the rings, or leaves the
      endpoint alone. */
  lemma FreedMeansRestart(e: Ep, ev: Event)
    requires !Quiet(e) && Quiet(After(e, ev)) && Inv(e) && Possible(e, ev)
    ensures Restarts(e, ev) || LeavesAlone(e, ev)
  {
    FlagsFollow(e, ev);
    if !ev.StopDone? && !ev.SetDeqDone? && !ev.ResetDone? && !ev.BufferCleared? { MoveStaysPending(e, ev); }
  }

  lemma MoveStaysPending(e: Ep, ev: Event)
    requires !ev.StopDone? && !ev.SetDeqDone? && !ev.ResetDone? && !ev.BufferCleared?
    ensures After(e, ev).setDeq == e.setDeq
  {
    match ev
    case Submit(tds, urb, stream) => SubmitRings(e, tds, urb, stream);
    case Unlink(tds) => MarkRingsNothing(e, tds);
    case Complete(td) =>
    case Halt(td, hard, portError) => HaltRings(e, td, hard, portError);
    case HaltedBy(td, stall, behind, accepted, portError) =>
      HaltRings(if stall then e else ClearTt(e, behind, accepted), Some(td), true, portError);
  }

  lemma EventKeepsAwake(e: Ep, w: Seen, ev: Event)
    requires Inv(e) && Possible(e, ev) && Routed(e) && Awake(e, w)
    ensures Awake(After(e, ev), Notes(w, e, ev))
  {
    DoorbellsRung(e, ev);
    EventKeepsRouted(e, ev);
    var r := After(e, ev);
    if Quiet(r) && !Quiet(e) { FreedMeansRestart(e, ev); }
  }

  lemma {:induction false} RunKeepsAwake(e: Ep, w: Seen, evs: seq<Event>)
    requires Inv(e) && Routed(e) && Awake(e, w) && Trace(e, evs)
    ensures var r := End(e, evs); Inv(r) && Routed(r) && Awake(r, NotesAll(w, e, evs))
    decreases |evs|
  {
    if evs != [] {
      EventKeepsInv(e, evs[0]);
      EventKeepsRouted(e, evs[0]);
      EventKeepsAwake(e, w, evs[0]);
      RunKeepsAwake(After(e, evs[0]), Notes(w, e, evs[0]), evs[1..]);
    }
  }

  /** Over every run: when nothing is pending, every TD queued on the endpoint has had its
      stream's doorbell rung since the controller last stopped, unless the endpoint was left
      alone then. */
  lemma NoTdWaitsUnrung(streams: seq<nat>, evs: seq<Event>, td: Td)
    requires Trace(Idle(streams), evs)
    ensures
      var e, w := End(Idle(streams), evs), NotesAll(Seen({}, false), Idle(streams), evs);
      td in e.tds && !e.stop && !e.setDeq && !e.halted && !e.clearingTt && !w.left ==> td.stream in w.awake
  {
    RunKeepsAwake(Idle(streams), Seen({}, false), evs);
  }

  /** A completed reset that leaves nothing pending leaves the waiting TDs without a doorbell
      exactly if it is not of the kind that restarts the endpoint. */
  lemma ResetLeavesAlone(e: Ep, hits: set<Td>, moved: bool, soft: bool)
    requires Routed(e)
    ensures
      var r := HandleReset(e, hits, moved, soft);
      Quiet(r) && r.tds != [] ==> (Rang(e, r) == {} <==> !soft)
  {
    ResetRings(e, hits, moved, soft);
    ResetAddsNothing(e, hits, moved, soft);
    var r := HandleReset(e, hits, moved, soft);
    if Quiet(r) && r.tds != [] && soft {
      assert r.tds[0] in r.tds;
      assert r.tds[0].stream in ActiveStreams(r);
    }
  }

  /** The first of two TDs halts its endpoint, and when the reset is done the command that would
      move the controller past it cannot be queued. */
  function LeftAlone(first: Td, second: Td): seq<Event> {
    [Submit([first], first.urb, first.stream), Submit([second], second.urb, first.stream), Halt(Some(first), true, false),
     ResetDone({}, false, false)]
  }

  lemma ResetUnmoved(e: Ep, first: Td, second: Td)
    requires e.tds == [first, second] && first != second && e.cancelled == [first] && StatusOf(e, first) == Halted
    requires e.halted && !e.stop && !e.setDeq && !e.clearingTt
    ensures
      var r := HandleReset(e, {}, false, false);
      r.tds == [second] && Quiet(r) && r.doorbells == e.doorbells && r.streams == e.streams
  {
    var p := PassOne(Pass(e.status, None), first, Halted, false);
    assert [first][1..] == [] && PassAll(p, [], {}) == p;
    assert PassAll(Pass(e.status, None), [first], {}) == p;
    WithoutFirst(first, second);
    var i := Invalidate(e, {}, false);
    assert i.tds == [second];
    ResetRings(e, {}, false, false);
    GivebackRingsNothing(i.(halted := false), [first]);
    var c := Cleanup(i.(halted := false), first);
    assert GiveUp(p.status, [first]) == GiveUp(p.status[first := Cleared], []) == p.status[first := Cleared];
    assert GivebackFrom(i.(halted := false), [first]) == GivebackFrom(c, []);
  }

  lemma WithoutFirst(first: Td, second: Td)
    requires first != second
    ensures WithoutAll([first, second], [first]) == [second] && Without([second], first) == [second]
  {
    assert [second][1..] == [] && [first, second][1..] == [second] && [first][1..] == [];
    assert Without([second], first) == [second] + Without([], first);
    assert Without([first, second], first) == Without([second], first);
    assert WithoutAll([second], []) == [second];
  }

  predicate Waits(e: Ep, first: Td, second: Td) {
    e.tds == [first, second] && e.cancelled == [] && Quiet(e) && e.streams == [first.stream]
  }

  lemma TwoQueued(first: Td, second: Td)
    requires first.urb != second.urb && first.stream == second.stream
    ensures
      var i, evs := Idle([first.stream]), LeftAlone(first, second);
      Possible(i, evs[0]) && Possible(After(i, evs[0]), evs[1]) && Waits(After(After(i, evs[0]), evs[1]), first, second)
  {
    assert [first] + [second] == [first, second];
  }

  lemma FirstHalts(e: Ep, w: Seen, first: Td, second: Td)
    requires Waits(e, first, second) && first != second
    ensures
      var evs := LeftAlone(first, second);
      var h := After(e, evs[2]);
      var r := After(h, evs[3]);
      && Possible(e, evs[2]) && Possible(h, evs[3]) && r.tds == [second] && Quiet(r)
      && Notes(Notes(w, e, evs[2]), h, evs[3]) == Seen({}, true)
  {
    var evs := LeftAlone(first, second);
    var h := After(e, evs[2]);
    assert first in e.tds;
    assert h == e.(cancelled := [] + [first], status := e.status[first := Halted], halted := true);
    ResetUnmoved(h, first, second);
    assert Rang(e, h) == {} && Rang(h, After(h, evs[3])) == {};
  }

  lemma OneMore(e: Ep, w: Seen, ev: Event, rest: seq<Event>)
    requires Possible(e, ev) && Trace(After(e, ev), rest)
    ensures
      var evs := [ev] + rest;
      && Trace(e, evs) && End(e, evs) == End(After(e, ev), rest) && NotesAll(w, e, evs) == NotesAll(Notes(w, e, ev), After(e, ev), rest)
  {
    assert ([ev] + rest)[1..] == rest;
  }

  lemma FourEvents(i: Ep, w: Seen, a: Event, b: Event, c: Event, d: Event)
    requires Possible(i, a) && Possible(After(i, a), b) && Possible(After(After(i, a), b), c)
    requires Possible(After(After(After(i, a), b), c), d)
    ensures
      var e2 := After(After(i, a), b);
      && Trace(i, [a, b, c, d]) && End(i, [a, b, c, d]) == After(After(e2, c), d)
      && NotesAll(w, i, [a, b, c, d]) == Notes(Notes(Notes(Notes(w, i, a), After(i, a), b), e2, c), After(e2, c), d)
  {
    var e1 := After(i, a);
    var e2 := After(e1, b);
    var e3 := After(e2, c);
    var w1 := Notes(w, i, a);
    var w2 := Notes(w1, e1, b);
    var w3 := Notes(w2, e2, c);
    OneMore(e3, w3, d, []);
    OneMore(e2, w2, c, [d] + []);
    OneMore(e1, w1, b, [c] + ([d] + []));
    OneMore(i, w, a, [b] + ([c] + ([d] + [])));
    assert [a] + ([b] + ([c] + ([d] + []))) == [a, b, c, d];
  }

  /** So it happens: the second TD then waits, with nothing pending and no doorbell rung since
      the halt. */
  lemma LeftAloneIsReached(first: Td, second: Td)
    requires first.urb != second.urb && first.stream == second.stream
    ensures
      var i, evs := Idle([first.stream]), LeftAlone(first, second);
      && Trace(i, evs)
      && var e, w := End(i, evs), NotesAll(Seen({}, false), i, evs);
         e.tds == [second] && Quiet(e) && w == Seen({}, true)
  {
    var i, evs := Idle([first.stream]), LeftAlone(first, second);
    TwoQueued(first, second);
    var e2 := After(After(i, evs[0]), evs[1]);
    FirstHalts(e2, Notes(Notes(Seen({}, false), i, evs[0]), After(i, evs[0]), evs[1]), first, second);
    FourEvents(i, Seen({}, false), evs[0], evs[1], evs[2], evs[3]);
    assert evs == [evs[0], evs[1], evs[2], evs[3]];
  }
}
