/** Which cancelled TDs the controller has to be moved past, and that they wait for it. */
module CancellationMoves {
  import opened Wrappers
  import opened Cancellation
  import opened CancellationProof

  /** The controller stopped in this TD, or because of it, and its cancellation is not settled yet. */
  predicate Needs(status: map<Td, Status>, td: Td, hits: set<Td>) {
    var s := if td in status then status[td] else Dirty;
    (s == Halted || td in hits) && s != Cleared && s != ClearingCache
  }

  predicate SomeNeeds(status: map<Td, Status>, todo: seq<Td>, hits: set<Td>) {
    exists i :: 0 <= i < |todo| && Needs(status, todo[i], hits)
  }

  /** A TD behind position `i` of the same stream needs a move as well. */
  predicate Replaced(status: map<Td, Status>, todo: seq<Td>, hits: set<Td>, i: nat)
    requires i < |todo|
  {
    exists j :: i < j < |todo| && todo[j].stream == todo[i].stream && Needs(status, todo[j], hits)
  }

  /** The first TD that needs a move decides for which stream it is. */
  function MoveStream(status: map<Td, Status>, todo: seq<Td>, hits: set<Td>): Option<nat> {
    if todo == [] then None
    else if Needs(status, todo[0], hits) then Some(todo[0].stream)
    else MoveStream(status, todo[1..], hits)
  }

  /** What should become of the TD at position `i`. */
  function Verdict(status: map<Td, Status>, todo: seq<Td>, hits: set<Td>, i: nat, stream: Option<nat>): Status
    requires i < |todo|
  {
    if !Needs(status, todo[i], hits) then Cleared
    else if stream != Some(todo[i].stream) then Deferred
    else if Replaced(status, todo, hits, i) then Cleared
    else ClearingCache
  }

  lemma MoveStreamSome(status: map<Td, Status>, todo: seq<Td>, hits: set<Td>)
    ensures MoveStream(status, todo, hits).Some? <==> SomeNeeds(status, todo, hits)
  {
    if todo != [] && !Needs(status, todo[0], hits) {
      MoveStreamSome(status, todo[1..], hits);
      if SomeNeeds(status, todo, hits) {
        var i :| 0 <= i < |todo| && Needs(status, todo[i], hits);
        assert todo[1..][i - 1] == todo[i];
      }
      if SomeNeeds(status, todo[1..], hits) {
        var i :| 0 <= i < |todo[1..]| && Needs(status, todo[1..][i], hits);
        assert todo[i + 1] == todo[1..][i];
      }
    }
  }

  /** Where the pass stands before the rest of the list: whose move is queued so far. */
  predicate PassOk(p: Pass, was: map<Td, Status>, todo: seq<Td>) {
    && (p.cached.Some? ==> p.cached.value !in todo && p.cached.value in p.status && p.status[p.cached.value] == ClearingCache)
    && (forall td :: td in todo ==> (td in p.status <==> td in was) && (td in was ==> p.status[td] == was[td] != ClearingCache))
  }

  lemma PassStep(p: Pass, was: map<Td, Status>, todo: seq<Td>, hits: set<Td>)
    requires PassOk(p, was, todo) && Distinct(todo) && todo != []
    ensures var td := todo[0];
            var q := PassOne(p, td, if td in p.status then p.status[td] else Dirty, td in hits);
            && PassOk(q, was, todo[1..])
            && (!Needs(was, td, hits) ==> q.cached == p.cached && td in q.status && q.status[td] == Cleared)
            && (Needs(was, td, hits) && p.cached.Some? && p.cached.value.stream != td.stream ==>
                  q.cached == p.cached && td in q.status && q.status[td] == Deferred)
            && (Needs(was, td, hits) && (p.cached.Some? ==> p.cached.value.stream == td.stream) ==>
                  q.cached == Some(td) && td in q.status && q.status[td] == ClearingCache &&
                  (p.cached.Some? ==> p.cached.value in q.status && q.status[p.cached.value] == Cleared))
            && (forall x :: x != td && p.cached != Some(x) ==> (x in q.status <==> x in p.status) && (x in p.status ==> q.status[x] == p.status[x]))
            && (p.cached.Some? && q.cached == p.cached ==> q.status[p.cached.value] == ClearingCache)
  {
    assert todo[0] in todo && forall x :: x in todo[1..] ==> x in todo && x != todo[0];
  }

  predicate SomeOf(status: map<Td, Status>, todo: seq<Td>, hits: set<Td>, stream: nat) {
    exists j :: 0 <= j < |todo| && todo[j].stream == stream && Needs(status, todo[j], hits)
  }

  lemma Shifted(was: map<Td, Status>, todo: seq<Td>, hits: set<Td>, stream: Option<nat>)
    requires todo != []
    ensures forall i :: 1 <= i < |todo| ==> Verdict(was, todo, hits, i, stream) == Verdict(was, todo[1..], hits, i - 1, stream)
    ensures Replaced(was, todo, hits, 0) <==> SomeOf(was, todo[1..], hits, todo[0].stream)
  {
    forall i | 1 <= i < |todo| ensures Replaced(was, todo, hits, i) <==> Replaced(was, todo[1..], hits, i - 1) {
      if Replaced(was, todo, hits, i) {
        var j :| i < j < |todo| && todo[j].stream == todo[i].stream && Needs(was, todo[j], hits);
        assert todo[1..][j - 1] == todo[j];
      }
      if Replaced(was, todo[1..], hits, i - 1) {
        var j :| i - 1 < j < |todo[1..]| && todo[1..][j].stream == todo[1..][i - 1].stream && Needs(was, todo[1..][j], hits);
        assert todo[j + 1] == todo[1..][j];
      }
    }
    if Replaced(was, todo, hits, 0) {
      var j :| 0 < j < |todo| && todo[j].stream == todo[0].stream && Needs(was, todo[j], hits);
      assert todo[1..][j - 1] == todo[j];
    }
    if SomeOf(was, todo[1..], hits, todo[0].stream) {
      var j :| 0 <= j < |todo[1..]| && todo[1..][j].stream == todo[0].stream && Needs(was, todo[1..][j], hits);
      assert todo[j + 1] == todo[1..][j];
    }
  }

  lemma SomeOfShifted(was: map<Td, Status>, todo: seq<Td>, hits: set<Td>, stream: nat)
    requires todo != []
    ensures SomeOf(was, todo, hits, stream) <==>
            (todo[0].stream == stream && Needs(was, todo[0], hits)) || SomeOf(was, todo[1..], hits, stream)
  {
    if SomeOf(was, todo, hits, stream) {
      var j :| 0 <= j < |todo| && todo[j].stream == stream && Needs(was, todo[j], hits);
      if j != 0 { assert todo[1..][j - 1] == todo[j]; }
    }
    if SomeOf(was, todo[1..], hits, stream) {
      var j :| 0 <= j < |todo[1..]| && todo[1..][j].stream == stream && Needs(was, todo[1..][j], hits);
      assert todo[j + 1] == todo[1..][j];
    }
  }

  /** The stream a pass is about, given whose move is queued already. */
  function StreamOf(p: Pass, was: map<Td, Status>, todo: seq<Td>, hits: set<Td>): Option<nat> {
    if p.cached.Some? then Some(p.cached.value.stream) else MoveStream(was, todo, hits)
  }

  ghost predicate PassIsRight(p: Pass, r: Pass, was: map<Td, Status>, todo: seq<Td>, hits: set<Td>) {
    && (forall i :: 0 <= i < |todo| ==> todo[i] in r.status && r.status[todo[i]] == Verdict(was, todo, hits, i, StreamOf(p, was, todo, hits)))
    && (p.cached.Some? ==>
          p.cached.value in r.status &&
          r.status[p.cached.value] == if SomeOf(was, todo, hits, p.cached.value.stream) then Cleared else ClearingCache)
    && (r.cached.Some? <==> StreamOf(p, was, todo, hits).Some?)
    && (forall x :: x !in todo && p.cached != Some(x) ==> (x in r.status <==> x in p.status) && (x in p.status ==> r.status[x] == p.status[x]))
  }

  /** The whole pass settles each TD as it should be. */
  lemma {:induction false} PassVerdict(p: Pass, was: map<Td, Status>, todo: seq<Td>, hits: set<Td>)
    requires PassOk(p, was, todo) && Distinct(todo)
    ensures PassIsRight(p, PassAll(p, todo, hits), was, todo, hits)
    decreases |todo|
  {
    if todo != [] {
      var td := todo[0];
      var q := PassOne(p, td, if td in p.status then p.status[td] else Dirty, td in hits);
      PassStep(p, was, todo, hits);
      PassVerdict(q, was, todo[1..], hits);
      VerdictMore(p, q, PassAll(q, todo[1..], hits), was, todo, hits);
    }
  }

  lemma VerdictMore(p: Pass, q: Pass, r: Pass, was: map<Td, Status>, todo: seq<Td>, hits: set<Td>)
    requires PassOk(p, was, todo) && Distinct(todo) && todo != []
    requires q == PassOne(p, todo[0], if todo[0] in p.status then p.status[todo[0]] else Dirty, todo[0] in hits)
    requires PassIsRight(q, r, was, todo[1..], hits)
    ensures PassIsRight(p, r, was, todo, hits)
  {
    PassStep(p, was, todo, hits);
    Shifted(was, todo, hits, StreamOf(p, was, todo, hits));
    if p.cached.Some? { SomeOfShifted(was, todo, hits, p.cached.value.stream); }
    assert StreamOf(q, was, todo[1..], hits) == StreamOf(p, was, todo, hits);
    assert forall x :: x in todo[1..] ==> x in todo && x != todo[0];
    forall i | 0 <= i < |todo|
      ensures todo[i] in r.status && r.status[todo[i]] == Verdict(was, todo, hits, i, StreamOf(p, was, todo, hits))
    {
      if i != 0 { assert todo[1..][i - 1] == todo[i]; }
    }
  }

  // ------------------------------------------------------------ what the pass comes to

  /** With no move pending, one is queued exactly if the controller stopped in, or was halted by,
      a TD being cancelled; and every TD ends as it should, all cleared where no move could be queued. */
  lemma InvalidateDecides(e: Ep, hits: set<Td>, moved: bool)
    requires Books(e) && !e.setDeq && forall td :: td in e.cancelled ==> StatusOf(e, td) != ClearingCache
    ensures var r := Invalidate(e, hits, moved);
            && (r.setDeq <==> moved && SomeNeeds(e.status, e.cancelled, hits))
            && forall i :: 0 <= i < |e.cancelled| ==>
                 StatusOf(r, e.cancelled[i]) ==
                 if moved then Verdict(e.status, e.cancelled, hits, i, MoveStream(e.status, e.cancelled, hits)) else Cleared
  {
    PassSettles(e, hits);
    var r := PassAll(Pass(e.status, None), e.cancelled, hits);
    if r.cached.Some? && !moved { GivenUp(e, r.status); }
    if r.cached.None? { AllClearedVerdict(e, hits); }
  }

  lemma PassSettles(e: Ep, hits: set<Td>)
    requires Distinct(e.cancelled) && forall td :: td in e.cancelled ==> StatusOf(e, td) != ClearingCache
    ensures var r := PassAll(Pass(e.status, None), e.cancelled, hits);
            && (r.cached.Some? <==> SomeNeeds(e.status, e.cancelled, hits))
            && forall i :: 0 <= i < |e.cancelled| ==>
                 e.cancelled[i] in r.status &&
                 r.status[e.cancelled[i]] == Verdict(e.status, e.cancelled, hits, i, MoveStream(e.status, e.cancelled, hits))
  {
    forall td | td in e.cancelled ensures td in e.status ==> e.status[td] != ClearingCache {
      assert StatusOf(e, td) != ClearingCache;
    }
    PassVerdict(Pass(e.status, None), e.status, e.cancelled, hits);
    MoveStreamSome(e.status, e.cancelled, hits);
  }

  lemma GivenUp(e: Ep, status: map<Td, Status>)
    requires forall i :: 0 <= i < |e.cancelled| ==>
               e.cancelled[i] in status && status[e.cancelled[i]] in {Cleared, ClearingCache, Deferred}
    ensures forall i :: 0 <= i < |e.cancelled| ==>
              e.cancelled[i] in GiveUp(status, e.cancelled) && GiveUp(status, e.cancelled)[e.cancelled[i]] == Cleared
  {
    GiveUpClears(status, e.cancelled);
  }

  lemma AllClearedVerdict(e: Ep, hits: set<Td>)
    requires !SomeNeeds(e.status, e.cancelled, hits)
    ensures forall i :: 0 <= i < |e.cancelled| ==> !Needs(e.status, e.cancelled[i], hits)
  {
  }

  /** A TD that waits for the controller to be moved, or for its stream's turn. */
  predicate Waiting(e: Ep, td: Td) {
    td in e.cancelled && StatusOf(e, td) in {ClearingCache, Deferred}
  }

  lemma GivebackLeaves(e: Ep, td: Td)
    requires Books(e) && td in e.cancelled
    ensures td in Giveback(e).cancelled <==> StatusOf(e, td) != Cleared
    ensures StatusOf(Giveback(e), td) == StatusOf(e, td) && Giveback(e).setDeq == e.setDeq
  {
    GivebackKeepsBooks(e, e.cancelled);
  }

  /** The list is gone through, a flag is taken down and what is cleared is given back. */
  lemma PassedDecides(e: Ep, hits: set<Td>, moved: bool, i: nat, stop: bool, halted: bool)
    requires Inv(e) && !e.setDeq && i < |e.cancelled|
    ensures var e2, td := Invalidate(e, hits, moved).(stop := stop, halted := halted), e.cancelled[i];
            && Mid(e2)
            && (td in Giveback(e2).cancelled <==> Waiting(Giveback(e2), td))
            && (Waiting(Giveback(e2), td) <==>
                  moved && Verdict(e.status, e.cancelled, hits, i, MoveStream(e.status, e.cancelled, hits)) != Cleared)
            && (Giveback(e2).setDeq <==> moved && SomeNeeds(e.status, e.cancelled, hits))
  {
    NotClearing(e);
    InvalidateDecides(e, hits, moved);
    InvalidateReachesMid(e, hits, moved);
    var e1 := Invalidate(e, hits, moved);
    FlagsKeepMid(e1, stop, halted);
    InvalidateKeepsBooks(e, hits, moved);
    var e2 := e1.(stop := stop, halted := halted);
    assert StatusOf(e2, e.cancelled[i]) == StatusOf(e1, e.cancelled[i]);
    GivebackLeaves(e2, e.cancelled[i]);
  }

  /** What a Stop Endpoint handler that goes through the list leaves of a TD: waiting for the
      controller exactly if it has to be moved past the TD, else given back. */
  lemma StopDecides(e: Ep, hits: set<Td>, moved: bool, i: nat)
    requires Inv(e) && !e.setDeq && i < |e.cancelled|
    ensures var r, td := FinishStop(e, hits, moved), e.cancelled[i];
            && (td in r.cancelled <==> Waiting(r, td))
            && (Waiting(r, td) <==> moved && Verdict(e.status, e.cancelled, hits, i, MoveStream(e.status, e.cancelled, hits)) != Cleared)
            && (r.setDeq <==> moved && SomeNeeds(e.status, e.cancelled, hits))
  {
    var e1 := Invalidate(e, hits, moved);
    PassedDecides(e, hits, moved, i, false, e1.halted);
    assert e1.(stop := false) == e1.(stop := false, halted := e1.halted);
    RestartLeaves(e1.(stop := false));
  }

  lemma RestartLeaves(e: Ep)
    requires Mid(e)
    ensures var g, r := Giveback(e), RestartRings(Giveback(e));
            r.cancelled == g.cancelled && r.status == g.status && r.setDeq == g.setDeq
  {
    GivebackEndsHandler(e);
    GivebackEmpties(e);
    ActiveKeepsBooks(Giveback(e), |Giveback(e).streams|);
  }

  /** The same for a Reset Endpoint handler. */
  lemma ResetDecides(e: Ep, hits: set<Td>, moved: bool, soft: bool, i: nat)
    requires Inv(e) && !e.setDeq && i < |e.cancelled|
    ensures var r, td := HandleReset(e, hits, moved, soft), e.cancelled[i];
            && (td in r.cancelled <==> Waiting(r, td))
            && (Waiting(r, td) <==> moved && Verdict(e.status, e.cancelled, hits, i, MoveStream(e.status, e.cancelled, hits)) != Cleared)
            && (r.setDeq <==> moved && SomeNeeds(e.status, e.cancelled, hits))
  {
    var e1 := Invalidate(e, hits, moved);
    PassedDecides(e, hits, moved, i, e1.stop, false);
    assert e1.(halted := false) == e1.(stop := e1.stop, halted := false);
    if soft { RestartLeaves(e1.(halted := false)); }
  }

  // ------------------------------------------------------------------- over runs

  lemma {:induction false} MarkDirtyLeaves(e: Ep, todo: seq<Td>, td: Td)
    requires td in e.cancelled
    ensures var r := MarkDirty(e, todo); td in r.cancelled && StatusOf(r, td) == StatusOf(e, td)
    decreases |todo|
  {
    if todo != [] {
      MarkDirtyLeaves(if todo[0] in e.cancelled then e
                      else e.(cancelled := e.cancelled + [todo[0]], status := e.status[todo[0] := Dirty]), todo[1..], td);
    }
  }

  lemma {:induction false} RestartOnly(e: Ep, k: nat)
    requires k <= |e.streams|
    ensures ActiveDoorbells(e, k) == e.(doorbells := ActiveDoorbells(e, k).doorbells)
    decreases k
  {
    if k != 0 { RestartOnly(e, k - 1); }
  }

  lemma WaitingMeansMove(e: Ep, td: Td)
    requires Inv(e) && Waiting(e, td)
    ensures e.setDeq && td !in e.tds
  {
    assert StatusOf(e, td) == ClearingCache ==> Clearing(e, td);
  }

  /** With a move pending the pass does nothing, and giving back leaves out who waits. */
  lemma WaitsThroughPass(e: Ep, hits: set<Td>, moved: bool, stop: bool, halted: bool, td: Td)
    requires Inv(e) && Waiting(e, td)
    ensures var r := Giveback(Invalidate(e, hits, moved).(stop := stop, halted := halted));
            && Waiting(r, td) && StatusOf(r, td) == StatusOf(e, td)
            && Waiting(RestartRings(r), td) && StatusOf(RestartRings(r), td) == StatusOf(e, td)
  {
    WaitingMeansMove(e, td);
    FlagsKeepSettled(e, stop, halted);
    GivebackLeaves(e.(stop := stop, halted := halted), td);
    var r := Giveback(e.(stop := stop, halted := halted));
    RestartOnly(r, |r.streams|);
  }

  lemma WaitsThroughStop(e: Ep, report: StopReport, hits: set<Td>, moved: bool, td: Td)
    requires Inv(e) && ReportOk(e, report) && Waiting(e, td)
    ensures var r := HandleStop(e, report, hits, moved, true); Waiting(r, td) && StatusOf(r, td) == StatusOf(e, td)
  {
    WaitingMeansMove(e, td);
    WaitsThroughPass(e, hits, moved, false, e.halted, td);
    assert e.(stop := false) == e.(stop := false, halted := e.halted);
  }

  lemma WaitsThroughReset(e: Ep, hits: set<Td>, moved: bool, soft: bool, td: Td)
    requires Inv(e) && Waiting(e, td)
    ensures var r := HandleReset(e, hits, moved, soft); Waiting(r, td) && StatusOf(r, td) == StatusOf(e, td)
  {
    WaitingMeansMove(e, td);
    WaitsThroughPass(e, hits, moved, e.stop, false, td);
    assert e.(halted := false) == e.(stop := e.stop, halted := false);
  }

  lemma WaitsThroughCommand(e: Ep, ev: Event, td: Td)
    requires Inv(e) && Possible(e, ev) && Waiting(e, td) && (ev.StopDone? || ev.ResetDone? || ev.BufferCleared?)
    ensures Waiting(After(e, ev), td) && StatusOf(After(e, ev), td) == StatusOf(e, td)
  {
    match ev
    case StopDone(report, hits, moved) => WaitsThroughStop(e, report, hits, moved, td);
    case ResetDone(hits, moved, soft) => WaitsThroughReset(e, hits, moved, soft, td);
    case BufferCleared => RestartOnly(e.(clearingTt := false), |e.streams|);
  }

  /** As long as no dequeue move completes nothing happens to a waiting TD. */
  lemma WaitsThrough(e: Ep, ev: Event, td: Td)
    requires Inv(e) && Possible(e, ev) && Waiting(e, td) && !ev.SetDeqDone?
    ensures Waiting(After(e, ev), td) && StatusOf(After(e, ev), td) == StatusOf(e, td)
  {
    match ev
    case Submit(_, _, _) =>
    case Unlink(tds) => MarkDirtyLeaves(e, tds, td);
    case Complete(other) => WaitingMeansMove(e, td);
    case Halt(on, hard, portError) => HaltLeaves(e, on, hard, portError, td);
    case HaltedBy(on, stall, behind, accepted, portError) =>
      HaltLeaves(if stall then e else ClearTt(e, behind, accepted), Some(on), true, portError, td);
    case _ => WaitsThroughCommand(e, ev, td);
  }

  lemma HaltLeaves(e: Ep, on: Option<Td>, hard: bool, portError: bool, td: Td)
    requires Waiting(e, td)
    ensures var r := HandleHalted(e, on, hard, portError, true).0; Waiting(r, td) && StatusOf(r, td) == StatusOf(e, td)
  {
  }

  /** The controller still stands in the TD, and in or by no other of its stream. */
  predicate StandsIn(e: Ep, hits: set<Td>, td: Td) {
    td in hits && forall x :: x in e.cancelled && x.stream == td.stream && x != td ==> x !in hits && StatusOf(e, x) != Halted
  }

  /** A deferred TD has its turn, or goes on waiting, when another stream's move is through. */
  lemma DeferredWaitsOn(e: Ep, hits: set<Td>, td: Td)
    requires Inv(e) && Waiting(e, td) && StatusOf(e, td) == Deferred && StandsIn(e, hits, td)
    ensures Waiting(HandleSetDeq(e, hits, true), td)
  {
    WaitingMeansMove(e, td);
    FlushKeepsDeferred(e, td);
    var f := GivebackFlushed(e, e.cancelled).(setDeq := false);
    DeferredNext(e, f, hits, td);
    MidWaits(f, hits, td);
  }

  lemma FlushKeepsDeferred(e: Ep, td: Td)
    requires Inv(e) && e.setDeq && td in e.cancelled && StatusOf(e, td) == Deferred
    ensures var f := GivebackFlushed(e, e.cancelled).(setDeq := false);
            && Books(f) && td in f.cancelled
            && forall x :: x in f.cancelled ==> x in e.cancelled && StatusOf(f, x) == StatusOf(e, x) != ClearingCache
  {
    FlushLeaves(e);
    FlushKeepsBooks(e, e.cancelled);
  }

  lemma DeferredNext(e: Ep, f: Ep, hits: set<Td>, td: Td)
    requires Books(f) && !f.setDeq && td in f.cancelled && StatusOf(f, td) == Deferred && StandsIn(e, hits, td)
    requires forall x :: x in f.cancelled ==> x in e.cancelled && StatusOf(f, x) == StatusOf(e, x) != ClearingCache
    ensures StatusOf(Invalidate(f, hits, true), td) in {Deferred, ClearingCache}
  {
    var i :| 0 <= i < |f.cancelled| && f.cancelled[i] == td;
    InvalidateDecides(f, hits, true);
    NotReplaced(e, f, hits, i);
  }

  lemma NotReplaced(e: Ep, f: Ep, hits: set<Td>, i: nat)
    requires i < |f.cancelled| && Distinct(f.cancelled) && StatusOf(f, f.cancelled[i]) == Deferred && StandsIn(e, hits, f.cancelled[i])
    requires forall x :: x in f.cancelled ==> x in e.cancelled && StatusOf(f, x) == StatusOf(e, x)
    ensures Verdict(f.status, f.cancelled, hits, i, MoveStream(f.status, f.cancelled, hits)) in {Deferred, ClearingCache}
  {
    forall j | i < j < |f.cancelled| && f.cancelled[j].stream == f.cancelled[i].stream
      ensures !Needs(f.status, f.cancelled[j], hits)
    {
      assert f.cancelled[j] in f.cancelled;
      assert StatusOf(f, f.cancelled[j]) == StatusOf(e, f.cancelled[j]) != Halted;
    }
  }

  lemma MidWaits(f: Ep, hits: set<Td>, td: Td)
    requires Books(f) && !f.setDeq && f.cancelled != [] && td in f.cancelled
    requires forall x :: x in f.cancelled ==> StatusOf(f, x) != ClearingCache
    requires StatusOf(Invalidate(f, hits, true), td) in {Deferred, ClearingCache}
    ensures Waiting(Giveback(RestartRings(Invalidate(f, hits, true))), td)
  {
    var g := Invalidate(f, hits, true);
    InvalidateKeepsBooks(f, hits, true);
    InvalidateReachesMid(f, hits, true);
    RestartOnly(g, |g.streams|);
    ActiveKeepsBooks(g, |g.streams|);
    GivebackLeaves(RestartRings(g), td);
  }

  /** Until its own move is through: of the moves that complete, each is another stream's, the
      controller still stands in the TD then, and the next move can be queued. */
  ghost predicate NotYetMoved(e: Ep, evs: seq<Event>, td: Td)
    decreases |evs|
  {
    evs == [] ||
    ((evs[0].SetDeqDone? ==> StatusOf(e, td) == Deferred && evs[0].moved && StandsIn(e, evs[0].hits, td)) &&
     NotYetMoved(After(e, evs[0]), evs[1..], td))
  }

  /** Over every run, a TD the controller has to be moved past is not given back, nor its URB,
      before that move is through. */
  lemma {:induction false} WaitsForMove(e: Ep, evs: seq<Event>, td: Td)
    requires Inv(e) && Trace(e, evs) && Waiting(e, td) && NotYetMoved(e, evs, td)
    ensures var r := End(e, evs); Waiting(r, td) && td.urb !in r.givenBack
    decreases |evs|
  {
    if evs == [] {
      assert td in Held(e, td.urb);
    } else {
      if evs[0].SetDeqDone? { DeferredWaitsOn(e, evs[0].hits, td); } else { WaitsThrough(e, evs[0], td); }
      EventKeepsInv(e, evs[0]);
      WaitsForMove(After(e, evs[0]), evs[1..], td);
    }
  }

  /** And then it is given back. */
  lemma MovedIsGivenBack(e: Ep, hits: set<Td>, moved: bool, td: Td)
    requires Inv(e) && Clearing(e, td)
    ensures td !in HandleSetDeq(e, hits, moved).cancelled
  {
    FlushLeaves(e);
    FlushKeepsBooks(e, e.cancelled);
    var f := GivebackFlushed(e, e.cancelled).(setDeq := false);
    assert td !in f.cancelled;
    if f.cancelled != [] {
      var g := Invalidate(f, hits, moved);
      InvalidateReachesMid(f, hits, moved);
      InvalidateKeepsBooks(f, hits, moved);
      RestartOnly(g, |g.streams|);
      ActiveKeepsBooks(g, |g.streams|);
      GivebackKeepsBooks(RestartRings(g), RestartRings(g).cancelled);
    } else {
      RestartOnly(f, |f.streams|);
    }
  }

  /** So with a TD the controller stopped in: no completed Stop Endpoint command gives it back
      before the controller is past it, unless the move could not be queued, or a later TD of its
      stream is being moved past instead. */
  lemma HitIsMovedFirst(e: Ep, hits: set<Td>, i: nat, evs: seq<Event>)
    requires Inv(e) && e.stop && !e.setDeq && i < |e.cancelled| && e.cancelled[i] in hits
    requires !Replaced(e.status, e.cancelled, hits, i)
    requires Trace(FinishStop(e, hits, true), evs) && NotYetMoved(FinishStop(e, hits, true), evs, e.cancelled[i])
    ensures var r, td := End(FinishStop(e, hits, true), evs), e.cancelled[i]; td in r.cancelled && td.urb !in r.givenBack
  {
    StopDecides(e, hits, true, i);
    NotClearing(e);
    assert StatusOf(e, e.cancelled[i]) != Cleared;
    FinishStopKeeps(e, hits, true);
    WaitsForMove(FinishStop(e, hits, true), evs, e.cancelled[i]);
  }
}
