/** Runs in which the driver keeps to its own counts: a TD takes no more TRBs than were asked
    for when the ring was prepared for it. Nothing else is asked of its writes. */
module RingCounts {
  import opened RingModel
  import opened RingExpansion
  import opened RingFifo

  /** The room there is once the ring was prepared for `n` TRBs, from what the driver knows before. */
  function RoomFor(r: RingState, n: nat): int
    requires 2 <= r.t && r.enq < |r.trbs| && Times(r.enqSeg, r.t) <= r.enq
  {
    if StuckOnLink(r) then Times(r.segs, r.t - 1) else r.Room() + Times(ExpansionNeeded(r, n), r.t - 1)
  }

  lemma PreparedRoom(y: Sys, n: nat)
    requires Inv(y) && (0 < ExpansionNeeded(y.r, n) ==> !LinkAhead(y))
    ensures Inv(Prepared(y, n)) && Prepared(y, n).r.Room() == RoomFor(y.r, n)
    ensures var r := Prepared(y, n).r; r.enq < |r.trbs| && !IsLink(r.trbs[r.enq])
    ensures !StuckOnLink(y.r) ==> n < RoomFor(y.r, n)
  {
    PreparedHasRoom(y, n);
    PreparedOffLink(y, n);
    if StuckOnLink(y.r) { StuckRoom(y, n); } else { UnstuckRoom(y, n); }
  }

  lemma PreparedOffLink(y: Sys, n: nat)
    requires Inv(y) && (0 < ExpansionNeeded(y.r, n) ==> !LinkAhead(y))
    ensures Inv(Prepared(y, n))
    ensures var r := Prepared(y, n).r; r.enq < |r.trbs| && !IsLink(r.trbs[r.enq])
  {
    PreparedKeepsInv(y, n);
    GrownKeepsInv(y, n);
    var y1 := Grow(y, ExpansionNeeded(y.r, n));
    if IsLink(y1.r.trbs[y1.r.enq]) { CrossLinkFacts(y1.r, y1.r.quirk); }
  }

  lemma GrownKeepsInv(y: Sys, n: nat)
    requires Inv(y) && (0 < ExpansionNeeded(y.r, n) ==> !LinkAhead(y))
    ensures Inv(Grow(y, ExpansionNeeded(y.r, n)))
  {
    if 0 < ExpansionNeeded(y.r, n) {
      ExpansionMeansRoom(y);
      GrowKeepsInv(y, ExpansionNeeded(y.r, n));
    } else {
      GrowByNothing(y);
    }
  }

  lemma StuckRoom(y: Sys, n: nat)
    requires Inv(y) && StuckOnLink(y.r)
    ensures Prepared(y, n).r.Room() == RoomFor(y.r, n)
  {
    GrowByNothing(y);
    StuckMeansNoRoom(y.r);
    CrossRoom(y.r, y.r.quirk);
  }

  lemma UnstuckRoom(y: Sys, n: nat)
    requires Inv(y) && !StuckOnLink(y.r) && (0 < ExpansionNeeded(y.r, n) ==> !LinkAhead(y))
    ensures Prepared(y, n).r.Room() == RoomFor(y.r, n)
  {
    GrownFits(y, n);
    LeavingKeepsRoom(y, n);
  }

  lemma GrownFits(y: Sys, n: nat)
    requires Inv(y) && !StuckOnLink(y.r) && (0 < ExpansionNeeded(y.r, n) ==> !LinkAhead(y))
    ensures Inv(Grow(y, ExpansionNeeded(y.r, n))) && Grow(y, ExpansionNeeded(y.r, n)).r.Room() == RoomFor(y.r, n) >= 1
  {
    GrownKeepsInv(y, n);
    ExpansionMeansRoom(y);
    GrownRoom(y, ExpansionNeeded(y.r, n));
  }

  lemma LeavingKeepsRoom(y: Sys, n: nat)
    requires Inv(y) && Inv(Grow(y, ExpansionNeeded(y.r, n))) && 1 <= Grow(y, ExpansionNeeded(y.r, n)).r.Room()
    ensures Prepared(y, n).r.Room() == Grow(y, ExpansionNeeded(y.r, n)).r.Room()
  {
    CrossedRoom(Grow(y, ExpansionNeeded(y.r, n)));
  }

  lemma CrossedRoom(y: Sys)
    requires Inv(y) && 1 <= y.r.Room()
    ensures IsLink(y.r.trbs[y.r.enq]) ==> Cross(y, y.r.quirk).r.Room() == y.r.Room()
  {
    if IsLink(y.r.trbs[y.r.enq]) { CrossRoom(y.r, y.r.quirk); }
  }

  lemma GrownRoom(y: Sys, k: nat)
    requires Inv(y) && 1 <= y.r.Room()
    ensures Grow(y, k).r.Room() == y.r.Room() + Times(k, y.r.t - 1) >= 1
  {
    SpliceRoom(y.r, k);
  }

  // ------------------------------------------------------------------- runs

  /** What the driver may still write on the strength of its last preparation. */
  function Left(r: RingState, left: nat, step: Step): nat
    requires 2 <= r.t && r.enq < |r.trbs| && Times(r.enqSeg, r.t) <= r.enq
  {
    match step
    case Prepare(n, ok) =>
      if !ok then left
      else if StuckOnLink(r) && Times(r.segs, r.t - 1) <= n then (if r.segs == 0 then 0 else Times(r.segs, r.t - 1) - 1)
      else n
    case Write(_, _) => if left == 0 then 0 else left - 1
    case Give => 0
    case Undo => 0
    case Done(_, _) => left
    case Take => left
  }

  /** A step the driver or the controller can take. A TRB is written within the count; beyond
      it, only while there happens to be room. */
  ghost predicate Allowed(y: Sys, left: nat, step: Step)
    requires Inv(y)
  {
    match step
    case Prepare(n, ok) => 0 < ExpansionNeeded(y.r, n) ==> !LinkAhead(y)
    case Write(body, _) => Data(body) && !IsLink(y.r.trbs[y.r.enq]) && (1 <= left || 2 <= y.r.Room())
    case Give => y.open
    case Undo => y.open
    case Done(seg, last) => Retirable(y, seg, last)
    case Take => true
  }

  /** The count is covered by room, as long as a TRB could be written at all. */
  ghost predicate Covered(y: Sys, left: nat) {
    Inv(y) && (left == 0 || IsLink(y.r.trbs[y.r.enq]) || left < y.r.Room())
  }

  lemma AllowedIsEnabled(y: Sys, left: nat, step: Step)
    requires Covered(y, left) && Allowed(y, left, step)
    ensures Enabled(y, step)
  {
  }

  lemma RetireKeepsRoom(y: Sys, seg: nat, last: nat)
    requires Inv(y) && Retirable(y, seg, last) && !IsLink(y.r.trbs[y.r.enq])
    ensures y.r.Room() <= Retire(y, seg, last).r.Room()
  {
    var y', n := Retire(y, seg, last), y.r.Size();
    RetireTarget(y.r, seg, last);
    RetireDist(y.hw, last, y.r.deq, y.r.enq, n);
    SegDistGrows(y.r, y'.r.deqSeg, y'.r.deq);
    SegDistRange(y.r);
    RoomGrows(y.r, y'.r.deqSeg, y'.r.deq);
  }

  lemma PrepareCovers(y: Sys, left: nat, n: nat)
    requires Covered(y, left) && (0 < ExpansionNeeded(y.r, n) ==> !LinkAhead(y))
    ensures Covered(Prepared(y, n), Left(y.r, left, Prepare(n, true)))
  {
    PreparedRoom(y, n);
  }

  lemma WriteCovers(y: Sys, left: nat, body: Body, more: bool)
    requires Covered(y, left) && Allowed(y, left, Write(body, more))
    ensures y.r.enq + 1 < |y.r.trbs| && Covered(Written(y, body, more), Left(y.r, left, Write(body, more)))
  {
    WrittenKeepsInv(y, body, more);
  }

  lemma DoneCovers(y: Sys, left: nat, seg: nat, last: nat)
    requires Covered(y, left) && Retirable(y, seg, last)
    ensures Covered(Retire(y, seg, last), left)
  {
    RetireKeepsInv(y, seg, last);
    if !IsLink(y.r.trbs[y.r.enq]) { RetireKeepsRoom(y, seg, last); }
  }

  lemma StepCovers(y: Sys, left: nat, step: Step)
    requires Covered(y, left) && Allowed(y, left, step)
    ensures Enabled(y, step) && Covered(Apply(y, step), Left(y.r, left, step))
  {
    AllowedIsEnabled(y, left, step);
    match step
    case Prepare(n, ok) => if ok { PrepareCovers(y, left, n); }
    case Write(body, more) => WriteCovers(y, left, body, more);
    case Done(seg, last) => DoneCovers(y, left, seg, last);
    case Give => PublishKeepsInv(y);
    case Undo => RollbackKeepsInv(y);
    case Take => ConsumeKeepsInv(y);
  }

  /** The driver keeps to its counts all along. */
  ghost predicate Counted(y: Sys, left: nat, steps: seq<Step>)
    requires Covered(y, left)
    decreases |steps|
  {
    steps == [] ||
    (Allowed(y, left, steps[0]) &&
     (StepCovers(y, left, steps[0]);
      Counted(Apply(y, steps[0]), Left(y.r, left, steps[0]), steps[1..])))
  }

  lemma {:induction false} CountedCanRun(y: Sys, left: nat, steps: seq<Step>)
    requires Covered(y, left) && Counted(y, left, steps)
    ensures CanRun(y, steps)
    decreases |steps|
  {
    if steps != [] {
      StepCovers(y, left, steps[0]);
      CountedCanRun(Apply(y, steps[0]), Left(y.r, left, steps[0]), steps[1..]);
    }
  }

  /** Over every run from a fresh ring in which no TD takes more TRBs than were asked for, the
      controller executes and sees exactly the TRBs of the TDs given. Only a ring that was
      empty with enqueue on a link counts for no more than it holds. */
  lemma FifoOverCountedRuns(y: Sys, steps: seq<Step>)
    requires Initial(y) && Covered(y, 0) && Counted(y, 0, steps)
    ensures CanRun(y, steps)
    ensures var y' := Run(y, steps);
            && Inv(y')
            && y'.consumed + Visible(y'.r.trbs, y'.hw, y'.ccs, y'.r.Size()) == Recorded(Ledger([], []), steps).given
  {
    CountedCanRun(y, 0, steps);
    FifoOverRuns(y, steps);
  }

  lemma FreshIsCovered(y: Sys)
    requires Initial(y)
    ensures Covered(y, 0)
  {
    InitialInv(y);
  }
}
