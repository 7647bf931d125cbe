/** What every handler keeps, and what follows over any run of an endpoint. */
module CancellationProof {
  import opened Wrappers
  import opened Cancellation

  // ---------------------------------------------------------------- the invariant

  /** The TDs of an URB that are on one of the lists. */
  function Held(e: Ep, urb: nat): set<Td> {
    set td | td in e.tds + e.cancelled && td.urb == urb
  }

  ghost predicate Lists(e: Ep) {
    && Distinct(e.tds) && Distinct(e.cancelled)
    && forall td :: td in e.tds || td in e.cancelled ==> td.urb in e.numTds
  }

  /** num_tds_done is the number of TDs of the URB on neither list, and an URB has been
      given back exactly once if all its TDs are done, else not at all. */
  ghost predicate Accounts(e: Ep) {
    && e.done.Keys == e.numTds.Keys
    && (forall u :: u in e.numTds ==> e.done[u] + |Held(e, u)| == e.numTds[u])
    && (forall u :: u in e.numTds ==> (u in e.givenBack <==> e.done[u] == e.numTds[u]))
    && (forall u :: u in e.givenBack ==> u in e.numTds)
    && (forall i, j :: 0 <= i < j < |e.givenBack| ==> e.givenBack[i] != e.givenBack[j])
  }

  /** Whenever the doorbell was written, all that was being cancelled was cleared. */
  ghost predicate Rung(e: Ep) {
    forall k, i :: 0 <= k < |e.doorbells| && 0 <= i < |e.doorbells[k].cancelled| ==> e.doorbells[k].cancelled[i] == Cleared
  }

  ghost predicate Books(e: Ep) {
    Lists(e) && Accounts(e) && Rung(e)
  }

  predicate Clearing(e: Ep, td: Td) {
    td in e.cancelled && StatusOf(e, td) == ClearingCache
  }

  /** Exactly one TD waits for the controller's cache to be cleared while a Set TR
      Dequeue command is pending, and none otherwise. */
  ghost predicate OneClearing(e: Ep) {
    && (e.setDeq <==> exists td :: Clearing(e, td))
    && (forall td, td' :: Clearing(e, td) && Clearing(e, td') ==> td == td')
  }

  /** TDs whose dequeue move is queued or deferred have left the TD list. */
  ghost predicate Unlinked(e: Ep) {
    forall td :: td in e.cancelled && StatusOf(e, td) in {ClearingCache, Deferred} ==> td !in e.tds
  }

  ghost predicate NoneCleared(e: Ep) {
    forall td :: td in e.cancelled ==> StatusOf(e, td) != Cleared
  }

  ghost predicate AllCleared(e: Ep) {
    forall td :: td in e.cancelled ==> StatusOf(e, td) == Cleared
  }

  ghost predicate DeferredOnlyPending(e: Ep) {
    forall td :: td in e.cancelled && StatusOf(e, td) == Deferred ==> e.setDeq
  }

  /** No cancelled TD is stranded: some command that will sort it out is pending. */
  ghost predicate NotStranded(e: Ep) {
    e.cancelled != [] ==> e.stop || e.setDeq || e.halted
  }

  /** Between handlers. */
  ghost predicate Inv(e: Ep) {
    Books(e) && OneClearing(e) && Unlinked(e) && NoneCleared(e) && DeferredOnlyPending(e) && NotStranded(e)
  }

  /** Inside a handler, once the cancelled list was gone through. */
  ghost predicate Mid(e: Ep) {
    Books(e) && OneClearing(e) && Unlinked(e) && (!e.setDeq ==> AllCleared(e))
  }

  // ------------------------------------------------------------------ a TD leaves

  lemma {:induction false} WithoutDistinct(s: seq<Td>, td: Td)
    requires Distinct(s)
    ensures Distinct(Without(s, td))
    decreases |s|
  {
    if s != [] {
      var rest := Without(s[1..], td);
      WithoutDistinct(s[1..], td);
      var head := if s[0] == td then [] else [s[0]];
      forall i, j | 0 <= i < j < |head + rest| ensures (head + rest)[i] != (head + rest)[j] {
        if i < |head| {
          assert (head + rest)[j] == rest[j - |head|];
          assert rest[j - |head|] in rest;
        }
      }
    }
  }

  lemma {:induction false} WithoutAllDistinct(s: seq<Td>, gone: seq<Td>)
    requires Distinct(s)
    ensures Distinct(WithoutAll(s, gone))
    decreases |gone|
  {
    if gone != [] {
      WithoutDistinct(s, gone[0]);
      WithoutAllDistinct(Without(s, gone[0]), gone[1..]);
    }
  }

  lemma HeldBound(e: Ep, u: nat, td: Td)
    requires td in e.tds || td in e.cancelled
    ensures Held(Cleanup(e, td), u) == Held(e, u) - {td}
    ensures td in Held(e, td.urb)
    ensures u != td.urb ==> Held(Cleanup(e, td), u) == Held(e, u)
    ensures |Held(Cleanup(e, td), td.urb)| == |Held(e, td.urb)| - 1
  {
    assert Held(Cleanup(e, td), td.urb) == Held(e, td.urb) - {td};
  }

  lemma CleanupKeepsAccounts(e: Ep, td: Td)
    requires Lists(e) && Accounts(e) && (td in e.tds || td in e.cancelled)
    ensures Accounts(Cleanup(e, td))
  {
    var e' := Cleanup(e, td);
    assert td.urb in e.numTds;
    forall u | u in e.numTds
      ensures e'.done[u] + |Held(e', u)| == e.numTds[u]
      ensures u in e'.givenBack <==> e'.done[u] == e.numTds[u]
    {
      HeldBound(e, u, td);
    }
  }

  lemma CleanupKeepsBooks(e: Ep, td: Td)
    requires Books(e) && (td in e.tds || td in e.cancelled)
    ensures Books(Cleanup(e, td))
  {
    WithoutDistinct(e.tds, td);
    WithoutDistinct(e.cancelled, td);
    CleanupKeepsAccounts(e, td);
  }

  /** Books that name the same TDs and counts are equally in order. */
  lemma BooksTransfer(e: Ep, r: Ep)
    requires Books(e) && Distinct(r.tds) && Distinct(r.cancelled)
    requires r.numTds == e.numTds && r.done == e.done && r.givenBack == e.givenBack && r.doorbells == e.doorbells
    requires forall td :: (td in r.tds || td in r.cancelled) <==> (td in e.tds || td in e.cancelled)
    ensures Books(r)
  {
    forall u ensures Held(r, u) == Held(e, u) {
      forall td ensures td in Held(r, u) <==> td in Held(e, u) {
      }
    }
  }

  /** Nothing but the lists and the accounts differs. */
  predicate SameFlags(e: Ep, e': Ep) {
    && e'.stop == e.stop && e'.setDeq == e.setDeq && e'.halted == e.halted && e'.clearingTt == e.clearingTt
    && e'.streams == e.streams && e'.doorbells == e.doorbells && e'.numTds == e.numTds
  }

  lemma {:induction false} GivebackKeepsBooks(e: Ep, todo: seq<Td>)
    requires Books(e) && Distinct(todo) && forall td :: td in todo ==> td in e.cancelled
    ensures var r := GivebackFrom(e, todo);
            && Books(r) && SameFlags(e, r) && r.status == e.status
            && (forall td :: td in r.cancelled <==>
                             td in e.cancelled && !(td in todo && StatusOf(e, td) == Cleared))
            && (forall td :: td in r.tds ==> td in e.tds)
    decreases |todo|
  {
    if todo != [] {
      var td := todo[0];
      var e1 := if StatusOf(e, td) == Cleared then Cleanup(e, td) else e;
      if StatusOf(e, td) == Cleared { CleanupKeepsBooks(e, td); }
      forall x | x in todo[1..] ensures x in e1.cancelled {
        assert x != td;
      }
      GivebackKeepsBooks(e1, todo[1..]);
    }
  }

  lemma {:induction false} FlushKeepsBooks(e: Ep, todo: seq<Td>)
    requires Books(e) && Distinct(todo) && forall td :: td in todo ==> td in e.cancelled
    ensures var r := GivebackFlushed(e, todo);
            && Books(r) && SameFlags(e, r)
            && (forall td :: td in r.cancelled <==>
                             td in e.cancelled && !(td in todo && StatusOf(e, td) == ClearingCache))
            && (forall td :: td in r.cancelled ==> StatusOf(r, td) == StatusOf(e, td))
            && (forall td :: td in r.tds ==> td in e.tds)
            && |r.cancelled| <= |e.cancelled|
            && ((exists td :: td in todo && StatusOf(e, td) == ClearingCache) ==> |r.cancelled| < |e.cancelled|)
    decreases |todo|
  {
    if todo != [] {
      var td := todo[0];
      FlushOneKeepsBooks(e, td);
      var e1 := FlushOne(e, td);
      forall x | x in todo[1..] ensures x in e1.cancelled && StatusOf(e1, x) == StatusOf(e, x) {
        assert x != td;
      }
      FlushKeepsBooks(e1, todo[1..]);
    }
  }

  function FlushOne(e: Ep, td: Td): Ep {
    if StatusOf(e, td) == ClearingCache then Cleanup(e.(status := e.status[td := Cleared]), td) else e
  }

  /** One TD of that pass. */
  lemma FlushOneKeepsBooks(e: Ep, td: Td)
    requires Books(e) && td in e.cancelled
    ensures
      var r := FlushOne(e, td);
      && Books(r) && SameFlags(e, r)
      && (forall x :: x in r.cancelled <==> x in e.cancelled && !(x == td && StatusOf(e, td) == ClearingCache))
      && (forall x :: x != td ==> StatusOf(r, x) == StatusOf(e, x))
      && (StatusOf(e, td) != ClearingCache ==> r == e)
      && (forall x :: x in r.tds ==> x in e.tds)
      && |r.cancelled| <= |e.cancelled| && (StatusOf(e, td) == ClearingCache ==> |r.cancelled| < |e.cancelled|)
  {
    if StatusOf(e, td) == ClearingCache {
      var e0 := e.(status := e.status[td := Cleared]);
      assert forall u :: Held(e0, u) == Held(e, u);
      CleanupKeepsBooks(e0, td);
    }
  }

  // ------------------------------------------------------------------ doorbells

  lemma {:induction false} ActiveKeepsBooks(e: Ep, k: nat)
    requires Books(e) && k <= |e.streams|
    requires e.stop || e.setDeq || e.halted || e.clearingTt || AllCleared(e)
    ensures var r := ActiveDoorbells(e, k);
            && Books(r) && r == e.(doorbells := r.doorbells)
    decreases k
  {
    if k != 0 {
      ActiveKeepsBooks(e, k - 1);
      var r := ActiveDoorbells(e, k - 1);
      assert Statuses(r) == Statuses(e);
      assert forall u :: Held(Doorbell(r, e.streams[k - 1]), u) == Held(e, u);
    }
  }

  // ------------------------------------------------------------ the pass over the list

  /** Halfway through the pass: `seen` holds the TDs already decided. */
  ghost predicate PassInv(p: Pass, seen: set<Td>, start: map<Td, Status>) {
    && (forall td :: td in seen ==> td in p.status && p.status[td] in {Cleared, ClearingCache, Deferred})
    && (forall td :: td in seen ==> (p.status[td] == ClearingCache <==> p.cached == Some(td)))
    && (forall td :: td in seen && p.status[td] == Deferred ==> p.cached.Some?)
    && (p.cached.Some? ==> p.cached.value in seen)
    && (forall td :: td !in seen ==> (td in p.status <==> td in start) && (td in start ==> p.status[td] == start[td]))
  }

  lemma PassOneKeeps(p: Pass, td: Td, hit: bool, seen: set<Td>, start: map<Td, Status>)
    requires PassInv(p, seen, start) && td !in seen
    requires td in start ==> start[td] != ClearingCache
    ensures PassInv(PassOne(p, td, if td in p.status then p.status[td] else Dirty, hit), seen + {td}, start)
  {
  }

  lemma {:induction false} PassKeeps(p: Pass, todo: seq<Td>, hits: set<Td>, seen: set<Td>, start: map<Td, Status>)
    requires PassInv(p, seen, start) && Distinct(todo)
    requires forall td :: td in todo ==> td !in seen && (td in start ==> start[td] != ClearingCache)
    ensures PassInv(PassAll(p, todo, hits), seen + (set td | td in todo), start)
    decreases |todo|
  {
    if todo == [] {
      assert seen + (set td | td in todo) == seen;
    } else {
      var td := todo[0];
      PassOneKeeps(p, td, td in hits, seen, start);
      forall x | x in todo[1..] ensures x !in seen + {td} && x in todo {
      }
      PassKeeps(PassOne(p, td, if td in p.status then p.status[td] else Dirty, td in hits), todo[1..], hits, seen + {td}, start);
      assert seen + {td} + (set x | x in todo[1..]) == seen + (set x | x in todo);
    }
  }

  lemma {:induction false} GiveUpClears(status: map<Td, Status>, todo: seq<Td>)
    requires forall td :: td in todo ==> td in status && status[td] in {Cleared, ClearingCache, Deferred}
    ensures var r := GiveUp(status, todo);
            && (forall td :: td in todo ==> td in r && r[td] == Cleared)
            && (forall td :: td in status && status[td] == Cleared ==> td in r && r[td] == Cleared)
    decreases |todo|
  {
    if todo != [] {
      var td := todo[0];
      var waiting := status[td] == ClearingCache || status[td] == Deferred;
      GiveUpClears(if waiting then status[td := Cleared] else status, todo[1..]);
    }
  }

  lemma InvalidateKeepsBooks(e: Ep, hits: set<Td>, moved: bool)
    requires Books(e)
    ensures Books(Invalidate(e, hits, moved))
    ensures var r := Invalidate(e, hits, moved);
            && r.cancelled == e.cancelled && r.stop == e.stop && r.halted == e.halted
            && r.clearingTt == e.clearingTt && r.streams == e.streams && (e.setDeq ==> r == e)
  {
    InvalidateLeaves(e, hits, moved);
    if !e.setDeq {
      WithoutAllDistinct(e.tds, e.cancelled);
      BooksTransfer(e, Invalidate(e, hits, moved));
    }
  }

  lemma InvalidateLeaves(e: Ep, hits: set<Td>, moved: bool)
    ensures var r := Invalidate(e, hits, moved);
            && r.cancelled == e.cancelled && r.stop == e.stop && r.halted == e.halted
            && r.clearingTt == e.clearingTt && r.streams == e.streams && (e.setDeq ==> r == e)
            && r.numTds == e.numTds && r.done == e.done && r.givenBack == e.givenBack && r.doorbells == e.doorbells
            && r.tds == if e.setDeq then e.tds else WithoutAll(e.tds, e.cancelled)
  {
    if !e.setDeq { PassLeaves(e, PassAll(Pass(e.status, None), e.cancelled, hits), WithoutAll(e.tds, e.cancelled), moved); }
  }

  lemma PassLeaves(e: Ep, p: Pass, tds: seq<Td>, moved: bool)
    ensures var e1 := e.(tds := tds, status := p.status);
            var r := if p.cached.None? then e1 else if moved then e1.(setDeq := true)
                     else e1.(status := GiveUp(p.status, e.cancelled));
            && r.cancelled == e.cancelled && r.stop == e.stop && r.halted == e.halted
            && r.clearingTt == e.clearingTt && r.streams == e.streams
            && r.numTds == e.numTds && r.done == e.done && r.givenBack == e.givenBack && r.doorbells == e.doorbells
            && r.tds == tds
  {
  }

  /** What the pass has decided once it is through. */
  lemma PassDecides(e: Ep, hits: set<Td>)
    requires Distinct(e.cancelled)
    requires forall td :: td in e.cancelled ==> StatusOf(e, td) != ClearingCache
    ensures var p := PassAll(Pass(e.status, None), e.cancelled, hits);
            && (forall td :: td in e.cancelled ==>
                  && td in p.status && p.status[td] in {Cleared, ClearingCache, Deferred}
                  && (p.status[td] == ClearingCache <==> p.cached == Some(td))
                  && (p.status[td] == Deferred ==> p.cached.Some?))
            && (p.cached.Some? ==> p.cached.value in e.cancelled)
  {
    PassKeeps(Pass(e.status, None), e.cancelled, hits, {}, e.status);
    assert {} + (set td | td in e.cancelled) == set td | td in e.cancelled;
  }

  /** After the pass everything is cleared, or the dequeue move of exactly one TD is
      on its way and the rest is cleared or deferred until then. */
  lemma InvalidateReachesMid(e: Ep, hits: set<Td>, moved: bool)
    requires Books(e)
    requires if e.setDeq then OneClearing(e) && Unlinked(e)
             else forall td :: td in e.cancelled ==> StatusOf(e, td) != ClearingCache
    ensures Mid(Invalidate(e, hits, moved))
  {
    InvalidateKeepsBooks(e, hits, moved);
    if !e.setDeq {
      PassDecides(e, hits);
      var p := PassAll(Pass(e.status, None), e.cancelled, hits);
      var r := Invalidate(e, hits, moved);
      if p.cached.Some? && !moved { GiveUpClears(p.status, e.cancelled); }
      if p.cached.Some? && moved { assert Clearing(r, p.cached.value); }
      assert forall td :: td in r.tds ==> td !in r.cancelled;
    }
  }

  /** From there, giving back what is cleared and restarting the rings, in either
      order, ends the handler. */
  lemma FinishFromMid(e: Ep)
    requires Mid(e)
    ensures Inv(RestartRings(Giveback(e))) && Inv(Giveback(e))
  {
    GivebackEndsHandler(e);
    GivebackEmpties(e);
    RestartKeepsInv(Giveback(e));
  }

  lemma FinishRestartFirst(e: Ep)
    requires Mid(e)
    ensures Inv(Giveback(RestartRings(e)))
  {
    ActiveKeepsBooks(e, |e.streams|);
    MidIgnoresDoorbells(e, RestartRings(e));
    GivebackEndsHandler(RestartRings(e));
  }

  lemma GivebackEmpties(e: Ep)
    requires Mid(e)
    ensures var g := Giveback(e); g.setDeq || g.cancelled == []
  {
    GivebackKeepsBooks(e, e.cancelled);
    var g := Giveback(e);
    SomeMember(g.cancelled);
  }

  lemma SomeMember(s: seq<Td>)
    ensures s != [] ==> exists td :: td in s
  {
    if s != [] { assert s[0] in s; }
  }

  lemma MidIgnoresDoorbells(e: Ep, r: Ep)
    requires Mid(e) && Books(r) && r == e.(doorbells := r.doorbells)
    ensures Mid(r)
  {
    forall td ensures Clearing(r, td) <==> Clearing(e, td) {
    }
  }

  lemma RestartKeepsInv(e: Ep)
    requires Inv(e)
    requires e.stop || e.setDeq || e.halted || e.clearingTt || e.cancelled == []
    ensures Inv(RestartRings(e))
  {
    ActiveKeepsBooks(e, |e.streams|);
    var r := RestartRings(e);
    forall td ensures Clearing(r, td) <==> Clearing(e, td) {
    }
  }

  lemma GivebackEndsHandler(e: Ep)
    requires Mid(e)
    ensures Inv(Giveback(e))
  {
    GivebackKeepsBooks(e, e.cancelled);
    GivebackEmpties(e);
    var g := Giveback(e);
    forall td ensures Clearing(g, td) <==> Clearing(e, td) {
    }
  }

  // ---------------------------------------------------------------- the handlers

  lemma FlagsKeepMid(e: Ep, stop: bool, halted: bool)
    requires Mid(e)
    ensures Mid(e.(stop := stop, halted := halted))
  {
    var r := e.(stop := stop, halted := halted);
    BooksTransfer(e, r);
    forall td ensures Clearing(r, td) <==> Clearing(e, td) {
    }
  }

  /** What holds between handlers, apart from some command being pending. */
  ghost predicate Settled(e: Ep) {
    Books(e) && OneClearing(e) && Unlinked(e) && NoneCleared(e) && DeferredOnlyPending(e)
  }

  lemma FlagsKeepSettled(e: Ep, stop: bool, halted: bool)
    requires Settled(e)
    ensures Settled(e.(stop := stop, halted := halted))
  {
    var r := e.(stop := stop, halted := halted);
    BooksTransfer(e, r);
    forall td ensures Clearing(r, td) <==> Clearing(e, td) {
    }
  }

  lemma FinishStopKeeps(e: Ep, hits: set<Td>, moved: bool)
    requires Settled(e)
    ensures Inv(FinishStop(e, hits, moved))
  {
    if !e.setDeq { NotClearing(e); }
    InvalidateReachesMid(e, hits, moved);
    var e1 := Invalidate(e, hits, moved);
    FlagsKeepMid(e1, false, e1.halted);
    assert e1.(stop := false) == e1.(stop := false, halted := e1.halted);
    FinishFromMid(e1.(stop := false));
  }

  lemma NotClearing(e: Ep)
    requires OneClearing(e) && !e.setDeq
    ensures forall td :: td in e.cancelled ==> StatusOf(e, td) != ClearingCache
  {
    forall td | td in e.cancelled ensures StatusOf(e, td) != ClearingCache {
      assert !Clearing(e, td);
    }
  }

  /** A queued TD that joins the cancelled list with a status that waits for nothing. */
  lemma AddEntry(e: Ep, td: Td, s: Status)
    requires Settled(e) && td in e.tds && td !in e.cancelled && (s == Halted || s == Dirty)
    ensures Settled(e.(cancelled := e.cancelled + [td], status := e.status[td := s]))
  {
    var r := e.(cancelled := e.cancelled + [td], status := e.status[td := s]);
    AppendDistinct(e.cancelled, td);
    BooksTransfer(e, r);
    OldStatuses(e, r, td, s);
  }

  lemma AppendDistinct(s: seq<Td>, td: Td)
    requires Distinct(s) && td !in s
    ensures Distinct(s + [td])
  {
  }

  lemma OldStatuses(e: Ep, r: Ep, td: Td, s: Status)
    requires s != ClearingCache && td !in e.cancelled
    requires r == e.(cancelled := e.cancelled + [td], status := e.status[td := s])
    ensures forall x :: Clearing(r, x) <==> Clearing(e, x)
    ensures forall x :: x in e.cancelled ==> StatusOf(r, x) == StatusOf(e, x)
  {
    forall x ensures Clearing(r, x) <==> Clearing(e, x) {
    }
  }

  lemma HandleHaltedKeeps(e: Ep, td: Option<Td>, hard: bool, portError: bool, canQueue: bool)
    requires Settled(e) && (td.Some? ==> td.value in e.tds)
    ensures Settled(HandleHalted(e, td, hard, portError, canQueue).0)
    ensures !HandleHalted(e, td, hard, portError, canQueue).1 ==> HandleHalted(e, td, hard, portError, canQueue).0.halted
    ensures portError ==> HandleHalted(e, td, hard, portError, canQueue).0 == e
  {
    if !portError {
      var add := hard && td.Some? && td.value !in e.cancelled;
      if add { AddEntry(e, td.value, Halted); }
      var e1 := if add then e.(cancelled := e.cancelled + [td.value], status := e.status[td.value := Halted]) else e;
      FlagsKeepSettled(e1, e1.stop, true);
      assert e1.(halted := true) == e1.(stop := e1.stop, halted := true);
    }
  }

  predicate ReportOk(e: Ep, report: StopReport) {
    report.FoundHalted? && report.td.Some? ==> report.td.value in e.tds
  }

  lemma HandleStopKeeps(e: Ep, report: StopReport, hits: set<Td>, moved: bool)
    requires Inv(e) && ReportOk(e, report)
    ensures Inv(HandleStop(e, report, hits, moved, true))
  {
    match report {
      case Stopped => FinishStopKeeps(e, hits, moved);
      case FoundHalted(td, hard, portError) =>
        if e.halted {
          FlagsKeepSettled(e, false, e.halted);
          assert e.(stop := false) == e.(stop := false, halted := e.halted);
        } else {
          HandleHaltedKeeps(e, td, hard, portError, true);
          var (e1, failed) := HandleHalted(e, td, hard, portError, true);
          if failed {
            FinishStopKeeps(e1, hits, moved);
          } else {
            FlagsKeepSettled(e1, false, e1.halted);
            assert e1.(stop := false) == e1.(stop := false, halted := e1.halted);
          }
        }
      case FoundStopped(timedOut) =>
        if e.halted || timedOut { FinishStopKeeps(e, hits, moved); }
      case FoundRunning =>
    }
  }

  lemma HandleResetKeeps(e: Ep, hits: set<Td>, moved: bool, soft: bool)
    requires Inv(e)
    ensures Inv(HandleReset(e, hits, moved, soft))
  {
    if !e.setDeq { NotClearing(e); }
    InvalidateReachesMid(e, hits, moved);
    var e1 := Invalidate(e, hits, moved);
    FlagsKeepMid(e1, e1.stop, false);
    assert e1.(halted := false) == e1.(stop := e1.stop, halted := false);
    FinishFromMid(e1.(halted := false));
  }

  /** After the flush no TD waits for the cache any more, and the list is shorter. */
  lemma FlushLeaves(e: Ep)
    requires Settled(e) && e.setDeq
    ensures var f := GivebackFlushed(e, e.cancelled).(setDeq := false);
            && Books(f)
            && (forall td :: td in f.cancelled ==> StatusOf(f, td) != ClearingCache)
            && |f.cancelled| < |e.cancelled|
            && f.stop == e.stop && f.halted == e.halted
  {
    FlushKeepsBooks(e, e.cancelled);
    var g := GivebackFlushed(e, e.cancelled);
    BooksTransfer(g, g.(setDeq := false));
    var td :| Clearing(e, td);
    assert td in e.cancelled && StatusOf(e, td) == ClearingCache;
  }

  lemma EmptyKeepsInv(e: Ep)
    requires Books(e) && e.cancelled == [] && !e.setDeq
    ensures Inv(e)
  {
  }

  lemma HandleSetDeqKeeps(e: Ep, hits: set<Td>, moved: bool)
    requires Inv(e) && e.setDeq
    ensures Inv(HandleSetDeq(e, hits, moved))
  {
    FlushLeaves(e);
    var f := GivebackFlushed(e, e.cancelled).(setDeq := false);
    if f.cancelled != [] {
      InvalidateReachesMid(f, hits, moved);
      FinishRestartFirst(Invalidate(f, hits, moved));
    } else {
      EmptyKeepsInv(f);
      RestartKeepsInv(f);
    }
  }

  // ------------------------------------------------------------- draining the list

  lemma {:induction false} DistinctWithin(s: seq<Td>, s': seq<Td>)
    requires Distinct(s) && forall td :: td in s ==> td in s'
    ensures |s| <= |s'|
    decreases |s|
  {
    if s != [] {
      var rest := s[1..];
      forall td | td in rest ensures td in Without(s', s[0]) {
        assert td != s[0];
      }
      DistinctWithin(rest, Without(s', s[0]));
    }
  }

  /** Each completed dequeue move strictly shortens the cancelled list. */
  lemma SetDeqShrinks(e: Ep, hits: set<Td>, moved: bool)
    requires Inv(e) && e.setDeq
    ensures |HandleSetDeq(e, hits, moved).cancelled| < |e.cancelled|
  {
    FlushLeaves(e);
    var f := GivebackFlushed(e, e.cancelled).(setDeq := false);
    if f.cancelled != [] {
      var i := Invalidate(f, hits, moved);
      InvalidateReachesMid(f, hits, moved);
      InvalidateKeepsBooks(f, hits, moved);
      ActiveKeepsBooks(i, |i.streams|);
      var r := RestartRings(i);
      GivebackKeepsBooks(r, r.cancelled);
      DistinctWithin(Giveback(r).cancelled, f.cancelled);
    } else {
      ActiveKeepsBooks(f, |f.streams|);
    }
  }

  /** What the controller reports while a sequence of dequeue moves completes. */
  datatype Report = Report(hits: set<Td>, moved: bool)

  function Drain(e: Ep, reports: seq<Report>): Ep
    decreases |reports|
  {
    if reports == [] || !e.setDeq then e
    else Drain(HandleSetDeq(e, reports[0].hits, reports[0].moved), reports[1..])
  }

  /** With nothing newly cancelled, as many completions as there were TDs suffice, and
      then the list is empty unless another command is still to look at it. */
  lemma {:induction false} SetDeqDrains(e: Ep, reports: seq<Report>)
    requires Inv(e) && |e.cancelled| <= |reports|
    ensures var r := Drain(e, reports);
            && Inv(r) && !r.setDeq && (r.stop || r.halted || r.cancelled == [])
    decreases |reports|
  {
    if e.setDeq {
      SetDeqShrinks(e, reports[0].hits, reports[0].moved);
      HandleSetDeqKeeps(e, reports[0].hits, reports[0].moved);
      SetDeqDrains(HandleSetDeq(e, reports[0].hits, reports[0].moved), reports[1..]);
    }
  }

  // ------------------------------------------------------------------ other events

  lemma {:induction false} MarkDirtyKeeps(e: Ep, todo: seq<Td>)
    requires Settled(e) && forall td :: td in todo ==> td in e.tds || td in e.cancelled
    ensures Settled(MarkDirty(e, todo))
    ensures var r := MarkDirty(e, todo); r.stop == e.stop && r.setDeq == e.setDeq && r.halted == e.halted
    decreases |todo|
  {
    if todo != [] {
      if todo[0] !in e.cancelled { AddEntry(e, todo[0], Dirty); }
      MarkDirtyKeeps(if todo[0] in e.cancelled then e
                     else e.(cancelled := e.cancelled + [todo[0]], status := e.status[todo[0] := Dirty]), todo[1..]);
    }
  }

  lemma CancelKeeps(e: Ep, todo: seq<Td>)
    requires Inv(e) && forall td :: td in todo ==> td in e.tds || td in e.cancelled
    ensures Inv(Cancel(e, todo))
  {
    MarkDirtyKeeps(e, todo);
    var r := MarkDirty(e, todo);
    FlagsKeepSettled(r, true, r.halted);
    assert r.(stop := true) == r.(stop := true, halted := r.halted);
  }

  lemma TtClearedKeeps(e: Ep)
    requires Inv(e)
    ensures Inv(TtCleared(e))
  {
    var r := e.(clearingTt := false);
    BooksTransfer(e, r);
    forall td ensures Clearing(r, td) <==> Clearing(e, td) {
    }
    RestartKeepsInv(r);
  }

  lemma ClearTtKeeps(e: Ep, behindHub: bool, accepted: bool)
    requires Inv(e)
    ensures Inv(ClearTt(e, behindHub, accepted)) && ClearTt(e, behindHub, accepted).tds == e.tds
  {
    var r := e.(clearingTt := true);
    BooksTransfer(e, r);
    forall td ensures Clearing(r, td) <==> Clearing(e, td) {
    }
  }

  lemma FinishHaltedKeeps(e: Ep, td: Td, controlStall: bool, behindHub: bool, accepted: bool, portError: bool)
    requires Inv(e) && td in e.tds
    ensures Inv(FinishHalted(e, td, controlStall, behindHub, accepted, portError, true))
  {
    ClearTtKeeps(e, behindHub, accepted);
    HandleHaltedKeeps(if controlStall then e else ClearTt(e, behindHub, accepted), Some(td), true, portError, true);
  }

  lemma FinishKeeps(e: Ep, td: Td)
    requires Inv(e) && td in e.tds
    ensures Inv(Cleanup(e, td))
  {
    CleanupKeepsBooks(e, td);
    var r := Cleanup(e, td);
    forall x ensures Clearing(r, x) <==> Clearing(e, x) {
    }
  }

  predicate NewUrb(e: Ep, tds: seq<Td>, urb: nat, stream: nat) {
    && urb !in e.numTds && tds != [] && Distinct(tds) && stream in e.streams
    && forall td :: td in tds ==> td.urb == urb && td.stream == stream
  }

  lemma {:induction false} DistinctSize(s: seq<Td>)
    requires Distinct(s)
    ensures |set td | td in s| == |s|
    decreases |s|
  {
    if s != [] {
      DistinctSize(s[1..]);
      assert (set td | td in s) == {s[0]} + set td | td in s[1..];
    }
  }

  lemma EnqueueBooks(e: Ep, tds: seq<Td>, urb: nat, stream: nat)
    requires Books(e) && NewUrb(e, tds, urb, stream)
    ensures Books(e.(tds := e.tds + tds, numTds := e.numTds[urb := |tds|], done := e.done[urb := 0]))
  {
    var r := e.(tds := e.tds + tds, numTds := e.numTds[urb := |tds|], done := e.done[urb := 0]);
    JoinedDistinct(e.tds, tds);
    DistinctSize(tds);
    EnqueueHolds(e, r, tds, urb, stream);
  }

  lemma JoinedDistinct(s: seq<Td>, t: seq<Td>)
    requires Distinct(s) && Distinct(t) && forall td :: td in t ==> td !in s
    ensures Distinct(s + t)
  {
    forall i, j | 0 <= i < j < |s + t| ensures (s + t)[i] != (s + t)[j] {
      if i < |s| <= j { assert (s + t)[i] in s && (s + t)[j] in t; }
    }
  }

  /** A new URB holds exactly its own TDs, the others what they held. */
  lemma EnqueueHolds(e: Ep, r: Ep, tds: seq<Td>, urb: nat, stream: nat)
    requires Lists(e) && NewUrb(e, tds, urb, stream) && r.tds == e.tds + tds && r.cancelled == e.cancelled
    ensures Held(r, urb) == set td | td in tds
    ensures forall u :: u in e.numTds ==> Held(r, u) == Held(e, u)
  {
    forall u | u in e.numTds ensures Held(r, u) == Held(e, u) {
    }
  }

  lemma EnqueueKeeps(e: Ep, tds: seq<Td>, urb: nat, stream: nat)
    requires Inv(e) && NewUrb(e, tds, urb, stream)
    ensures Inv(Enqueue(e, tds, urb, stream))
  {
    EnqueueBooks(e, tds, urb, stream);
    var r0 := e.(tds := e.tds + tds, numTds := e.numTds[urb := |tds|], done := e.done[urb := 0]);
    assert forall td :: td in tds ==> td !in e.cancelled;
    forall x ensures Clearing(r0, x) <==> Clearing(e, x) {
    }
    var r := Doorbell(r0, stream);
    forall u ensures Held(r, u) == Held(r0, u) {
    }
    forall x ensures Clearing(r, x) <==> Clearing(r0, x) {
    }
  }

  // ------------------------------------------------------------------- over runs

  datatype Event =
    | Submit(tds: seq<Td>, urb: nat, stream: nat)
    | Unlink(tds: seq<Td>)
    | Complete(td: Td)
    | Halt(on: Option<Td>, hard: bool, portError: bool)
    | HaltedBy(td: Td, controlStall: bool, behindHub: bool, accepted: bool, portError: bool)
    | StopDone(report: StopReport, hits: set<Td>, moved: bool)
    | SetDeqDone(hits: set<Td>, moved: bool)
    | ResetDone(hits: set<Td>, moved: bool, soft: bool)
    | BufferCleared

  predicate Possible(e: Ep, ev: Event) {
    match ev
    case Submit(tds, urb, stream) => NewUrb(e, tds, urb, stream)
    case Unlink(tds) => forall td :: td in tds ==> td in e.tds || td in e.cancelled
    case Complete(td) => td in e.tds
    case Halt(td, _, _) => td.Some? ==> td.value in e.tds
    case HaltedBy(td, _, _, _, _) => td in e.tds
    case StopDone(report, _, _) => ReportOk(e, report)
    case SetDeqDone(_, _) => e.setDeq
    case ResetDone(_, _, _) => true
    case BufferCleared => true
  }

  /** One event, with the host alive and memory for every command that is queued. */
  function After(e: Ep, ev: Event): Ep {
    match ev
    case Submit(tds, urb, stream) => Enqueue(e, tds, urb, stream)
    case Unlink(tds) => Cancel(e, tds)
    case Complete(td) => Cleanup(e, td)
    case Halt(td, hard, portError) => HandleHalted(e, td, hard, portError, true).0
    case HaltedBy(td, stall, behind, accepted, portError) => FinishHalted(e, td, stall, behind, accepted, portError, true)
    case StopDone(report, hits, moved) => HandleStop(e, report, hits, moved, true)
    case SetDeqDone(hits, moved) => HandleSetDeq(e, hits, moved)
    case ResetDone(hits, moved, soft) => HandleReset(e, hits, moved, soft)
    case BufferCleared => TtCleared(e)
  }

  lemma EventKeepsInv(e: Ep, ev: Event)
    requires Inv(e) && Possible(e, ev)
    ensures Inv(After(e, ev))
  {
    match ev {
      case Submit(tds, urb, stream) => EnqueueKeeps(e, tds, urb, stream);
      case Unlink(tds) => CancelKeeps(e, tds);
      case Complete(td) => FinishKeeps(e, td);
      case Halt(td, hard, portError) => HandleHaltedKeeps(e, td, hard, portError, true);
      case HaltedBy(td, stall, behind, accepted, portError) => FinishHaltedKeeps(e, td, stall, behind, accepted, portError);
      case StopDone(report, hits, moved) => HandleStopKeeps(e, report, hits, moved);
      case SetDeqDone(hits, moved) => HandleSetDeqKeeps(e, hits, moved);
      case ResetDone(hits, moved, soft) => HandleResetKeeps(e, hits, moved, soft);
      case BufferCleared => TtClearedKeeps(e);
    }
  }

  ghost predicate Trace(e: Ep, evs: seq<Event>)
    decreases |evs|
  {
    evs == [] || (Possible(e, evs[0]) && Trace(After(e, evs[0]), evs[1..]))
  }

  function End(e: Ep, evs: seq<Event>): Ep
    decreases |evs|
  {
    if evs == [] then e else End(After(e, evs[0]), evs[1..])
  }

  /** An endpoint on which nothing was ever queued. */
  function Idle(streams: seq<nat>): Ep {
    Ep(false, false, false, false, streams, [], [], map[], map[], map[], [], [])
  }

  lemma {:induction false} RunKeepsInv(e: Ep, evs: seq<Event>)
    requires Inv(e) && Trace(e, evs)
    ensures Inv(End(e, evs))
    decreases |evs|
  {
    if evs != [] {
      EventKeepsInv(e, evs[0]);
      RunKeepsInv(After(e, evs[0]), evs[1..]);
    }
  }

  /** Over every run of an endpoint: the doorbell was only ever written with nothing
      but cleared TDs on the cancelled list; no cancelled TD is stranded; the dequeue
      move pending is that of exactly one TD; and every URB is accounted for. */
  lemma EndpointRuns(streams: seq<nat>, evs: seq<Event>)
    requires Trace(Idle(streams), evs)
    ensures var e := End(Idle(streams), evs);
            && Rung(e) && NotStranded(e) && OneClearing(e) && DeferredOnlyPending(e) && Accounts(e)
  {
    var i := Idle(streams);
    assert Inv(i);
    RunKeepsInv(i, evs);
  }

  // ------------------------------------------------------------------- host death

  lemma {:induction false} CleanupAllKeepsBooks(e: Ep, todo: seq<Td>)
    requires Books(e) && Distinct(todo) && forall td :: td in todo ==> td in e.tds || td in e.cancelled
    ensures var r := CleanupAll(e, todo);
            && Books(r) && r.numTds == e.numTds
            && (forall td :: td in r.tds <==> td in e.tds && td !in todo)
            && (forall td :: td in r.cancelled <==> td in e.cancelled && td !in todo)
    decreases |todo|
  {
    if todo != [] {
      DistinctRest(todo);
      CleanupKeepsBooks(e, todo[0]);
      CleanupAllKeepsBooks(Cleanup(e, todo[0]), todo[1..]);
    }
  }

  lemma DistinctRest(s: seq<Td>)
    requires Distinct(s) && s != []
    ensures Distinct(s[1..]) && s[0] !in s[1..]
    ensures forall x :: x in s <==> x == s[0] || x in s[1..]
  {
  }

  lemma KillEmpties(e: Ep)
    requires Books(e)
    ensures var r := Kill(e); Books(r) && r.tds == [] && r.cancelled == [] && r.numTds == e.numTds
  {
    CleanupAllKeepsBooks(e, e.tds);
    var e1 := CleanupAll(e, e.tds);
    CleanupAllKeepsBooks(e1, e1.cancelled);
    var r := Kill(e);
    SomeMember(r.tds);
    SomeMember(r.cancelled);
  }

  /** When the host dies, every URB accepted so far has been given back, each once; also when
      TDs were stranded. */
  lemma KillGivesAllBack(e: Ep)
    requires Books(e)
    ensures var r := Kill(e);
            && r.tds == [] && r.cancelled == []
            && (forall u :: u in e.numTds <==> u in r.givenBack)
            && (forall i, j :: 0 <= i < j < |r.givenBack| ==> r.givenBack[i] != r.givenBack[j])
  {
    KillEmpties(e);
    var r := Kill(e);
    forall u | u in e.numTds ensures u in r.givenBack {
      assert Held(r, u) == {};
    }
  }

  // ------------------------------------------------- when a command cannot be queued

  /** The endpoint was found running, or stopped although nothing says it should be yet: the
      stop command is tried again. */
  predicate Retries(e: Ep, report: StopReport) {
    report == FoundRunning || (report == FoundStopped(false) && !e.halted)
  }

  /** Whatever a Stop Endpoint completion reports, cancelled TDs are stranded exactly if the
      command is to be tried again, none can be had, and no other one is pending. */
  lemma RetryStrands(e: Ep, report: StopReport, hits: set<Td>, moved: bool, canQueue: bool)
    requires Inv(e) && e.stop && ReportOk(e, report)
    ensures NotStranded(HandleStop(e, report, hits, moved, canQueue)) <==>
            canQueue || !Retries(e, report) || e.setDeq || e.halted || e.cancelled == []
  {
    if canQueue {
      HandleStopKeeps(e, report, hits, moved);
    } else if report.FoundHalted? {
      if !e.halted { FailedResetKeeps(e, report.td, report.hard, report.portError, hits, moved); }
    } else if !Retries(e, report) {
      FinishStopKeeps(e, hits, moved);
    }
  }

  /** Without its reset command an endpoint found halted is cleaned up at once. */
  lemma FailedResetKeeps(e: Ep, td: Option<Td>, hard: bool, portError: bool, hits: set<Td>, moved: bool)
    requires Inv(e) && !e.halted && (td.Some? ==> td.value in e.tds)
    ensures Inv(HandleStop(e, FoundHalted(td, hard, portError), hits, moved, false))
  {
    HandleHaltedKeeps(e, td, hard, portError, false);
    FinishStopKeeps(HandleHalted(e, td, hard, portError, false).0, hits, moved);
  }

  /** A halted endpoint leaves a TD stranded exactly if the TD is known, a hard reset was to
      clear it, the port is in order, the command could not be queued and nothing else is pending. */
  lemma HaltStrands(e: Ep, td: Option<Td>, hard: bool, portError: bool, canQueue: bool)
    requires Inv(e) && (td.Some? ==> td.value in e.tds)
    ensures NotStranded(HandleHalted(e, td, hard, portError, canQueue).0) <==>
            canQueue || portError || !hard || td.None? || e.stop || e.setDeq || e.halted
  {
  }

  /** A stranded TD is met again: the next URB rings the doorbell with it still on the ring. */
  lemma StrandedIsRung(e: Ep, td: Td, tds: seq<Td>, urb: nat, stream: nat)
    requires !NotStranded(e) && !e.clearingTt && td in e.cancelled && StatusOf(e, td) != Cleared
    ensures !Rung(Enqueue(e, tds, urb, stream))
  {
    var i :| 0 <= i < |e.cancelled| && e.cancelled[i] == td;
    var r := Enqueue(e, tds, urb, stream);
    assert r.doorbells[|r.doorbells| - 1].cancelled[i] == StatusOf(e, td);
  }

  lemma OneEvent(e: Ep, first: Event)
    requires Possible(e, first)
    ensures Trace(e, [first]) && End(e, [first]) == After(e, first)
  {
    assert [first][1..] == [];
    assert Trace(After(e, first), []);
  }

  lemma TwoEvents(e: Ep, first: Event, second: Event)
    requires Possible(e, first) && Possible(After(e, first), second)
    ensures Trace(e, [first, second]) && End(e, [first, second]) == After(After(e, first), second)
  {
    OneEvent(After(e, first), second);
    assert [first, second][1..] == [second];
  }

  lemma OneQueued(td: Td)
    ensures var evs := [Submit([td], td.urb, td.stream)];
            Trace(Idle([td.stream]), evs) && Inv(End(Idle([td.stream]), evs)) &&
            var e := End(Idle([td.stream]), evs);
            e.tds == [td] && e.cancelled == [] && !e.stop && !e.setDeq && !e.halted && !e.clearingTt
  {
    var i := Idle([td.stream]);
    assert Inv(i) && Possible(i, Submit([td], td.urb, td.stream));
    OneEvent(i, Submit([td], td.urb, td.stream));
    EventKeepsInv(i, Submit([td], td.urb, td.stream));
  }

  lemma OneCancelled(td: Td)
    ensures var evs := [Submit([td], td.urb, td.stream), Unlink([td])];
            Trace(Idle([td.stream]), evs) && Inv(End(Idle([td.stream]), evs)) &&
            var e := End(Idle([td.stream]), evs);
            e.cancelled == [td] && StatusOf(e, td) == Dirty && e.stop && !e.setDeq && !e.halted && !e.clearingTt
  {
    var i, first, second := Idle([td.stream]), Submit([td], td.urb, td.stream), Unlink([td]);
    OneQueued(td);
    OneEvent(i, first);
    CancelsOne(After(i, first), td);
    TwoEvents(i, first, second);
    EventKeepsInv(After(i, first), second);
  }

  lemma CancelsOne(e: Ep, td: Td)
    requires e.tds == [td] && e.cancelled == [] && !e.stop && !e.setDeq && !e.halted
    ensures Possible(e, Unlink([td]))
    ensures After(e, Unlink([td])) == e.(cancelled := [td], status := e.status[td := Dirty], stop := true)
  {
    assert td in e.tds;
    assert [td][1..] == [];
    assert MarkDirty(e, [td]) == MarkDirty(e.(cancelled := [] + [td], status := e.status[td := Dirty]), []);
  }

  /** Both are reached. One TD is queued and cancelled, the endpoint is found running or not
      yet started, and no command can be had for the retry. */
  lemma RetryStrandsReached(td: Td, report: StopReport, tds: seq<Td>, urb: nat, stream: nat)
    requires report == FoundRunning || report == FoundStopped(false)
    ensures var evs := [Submit([td], td.urb, td.stream), Unlink([td])];
            && Trace(Idle([td.stream]), evs)
            && var e := HandleStop(End(Idle([td.stream]), evs), report, {}, false, false);
               !NotStranded(e) && e.cancelled == [td] && !Rung(Enqueue(e, tds, urb, stream))
  {
    OneCancelled(td);
    var e := End(Idle([td.stream]), [Submit([td], td.urb, td.stream), Unlink([td])]);
    RetryStrands(e, report, {}, false, false);
    StrandedIsRung(HandleStop(e, report, {}, false, false), td, tds, urb, stream);
  }

  /** Or one TD is queued and halts the endpoint, and no command can be had for its reset. */
  lemma HaltStrandsReached(td: Td, tds: seq<Td>, urb: nat, stream: nat)
    ensures var evs := [Submit([td], td.urb, td.stream)];
            && Trace(Idle([td.stream]), evs)
            && var e := HandleHalted(End(Idle([td.stream]), evs), Some(td), true, false, false).0;
               !NotStranded(e) && e.cancelled == [td] && !Rung(Enqueue(e, tds, urb, stream))
  {
    OneQueued(td);
    var e := End(Idle([td.stream]), [Submit([td], td.urb, td.stream)]);
    HaltStrands(e, Some(td), true, false, false);
    StrandedIsRung(HandleHalted(e, Some(td), true, false, false).0, td, tds, urb, stream);
  }

  // -------------------------------------------------- while the hub clears its buffer

  /** Every ring with TDs is rung, if nothing holds the doorbell. */
  lemma {:induction false} ActiveRings(e: Ep, k: nat)
    requires k <= |e.streams| && !e.stop && !e.setDeq && !e.halted && !e.clearingTt
    ensures var r := ActiveDoorbells(e, k);
            && r == e.(doorbells := r.doorbells) && |e.doorbells| <= |r.doorbells|
            && ((exists i :: 0 <= i < k && Active(e, e.streams[i])) ==> |e.doorbells| < |r.doorbells|)
    decreases k
  {
    if k != 0 { ActiveRings(e, k - 1); }
  }

  /** While the hub clears its buffer an URB is queued without ringing, and once the hub is
      done the doorbell is rung for it. */
  lemma BufferHoldsDoorbell(e: Ep, tds: seq<Td>, urb: nat, stream: nat)
    requires Inv(e) && !e.stop && !e.setDeq && !e.halted && NewUrb(e, tds, urb, stream)
    ensures var r := Enqueue(e, tds, urb, stream);
            && |r.doorbells| == |e.doorbells| + (if e.clearingTt then 0 else 1)
            && |r.doorbells| < |TtCleared(r).doorbells|
  {
    var r := Enqueue(e, tds, urb, stream).(clearingTt := false);
    assert tds[0] in r.tds;
    assert Active(r, tds[0].stream);
    ActiveRings(r, |r.streams|);
  }

  /** The flag is set in a run: a TD behind a hub halts its endpoint, and its reset completes. */
  lemma BufferIsBeingCleared(td: Td)
    ensures var evs := [Submit([td], td.urb, td.stream), HaltedBy(td, false, true, true, false)];
            && Trace(Idle([td.stream]), evs)
            && var e := End(Idle([td.stream]), evs); e.clearingTt && e.halted && e.cancelled == [td]
  {
    var i, first, second := Idle([td.stream]), Submit([td], td.urb, td.stream), HaltedBy(td, false, true, true, false);
    OneQueued(td);
    OneEvent(i, first);
    assert td in After(i, first).tds;
    TwoEvents(i, first, second);
  }
}
