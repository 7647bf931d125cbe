/** A run in which the ring has to grow while the controller still rests on the link just
    ahead of enqueue: two segments of three TRBs, one lap of the driver. */
module RingLag {
  import opened RingModel
  import opened RingExpansion
  import opened RingFifo
  import opened RingChains

  const ZERO: Body := Body(Empty, 0, 0, false, false)

  function LinkTrb(toggle: bool, cycle: bool): Trb {
    Trb(Body(Link(toggle), 0, 0, false, false), cycle)
  }

  function At(trbs: seq<Trb>, enqSeg: nat, enq: nat, pcs: bool, deqSeg: nat, deq: nat): RingState {
    RingState(3, 2, false, trbs, enqSeg, enq, pcs, deqSeg, deq)
  }

  const UNUSED: Trb := Trb(ZERO, false)

  /** The ring, the controller and the histories as the run goes on. */
  function Lap(b: Body, k: nat): Sys {
    var n, w := Trb(b, true), Trb(b, false);
    var l0, l1 := LinkTrb(false, false), LinkTrb(true, false);
    var h0, h1 := LinkTrb(false, true), LinkTrb(true, true);
    match k
    case 0 => Sys(At([UNUSED, UNUSED, l0, UNUSED, UNUSED, l1], 0, 0, true, 0, 0), 0, true, false, 0, 0, true, [], [])
    case 1 => Sys(At([w, UNUSED, l0, UNUSED, UNUSED, l1], 0, 1, true, 0, 0), 0, true, true, 0, 0, true, [], [])
    case 2 => Sys(At([w, n, h0, UNUSED, UNUSED, l1], 1, 3, true, 0, 0), 0, true, true, 0, 0, true, [], [])
    case 3 => Sys(At([n, n, h0, UNUSED, UNUSED, l1], 1, 3, true, 0, 0), 0, true, false, 0, 0, true, [b, b], [])
    case 4 => Sys(At([n, n, h0, UNUSED, UNUSED, l1], 1, 3, true, 0, 0), 1, true, false, 0, 0, true, [b, b], [b])
    case 5 => Sys(At([n, n, h0, UNUSED, UNUSED, l1], 1, 3, true, 0, 0), 2, true, false, 0, 0, true, [b, b], [b, b])
    case 6 => Sys(At([n, n, h0, UNUSED, UNUSED, l1], 1, 3, true, 1, 3), 2, true, false, 0, 0, true, [b, b], [b, b])
    case 7 => Sys(At([n, n, h0, w, UNUSED, l1], 1, 4, true, 1, 3), 2, true, true, 1, 3, true, [b, b], [b, b])
    case 8 => Sys(At([n, n, h0, w, n, h1], 0, 0, false, 1, 3), 2, true, true, 1, 3, true, [b, b], [b, b])
    case _ => Sys(At([n, n, h0, n, n, h1], 0, 0, false, 1, 3), 2, true, false, 1, 3, true, [b, b, b, b], [b, b])
  }

  function StepAt(b: Body, k: nat): Step {
    match k
    case 2 => Give
    case 3 => Take
    case 4 => Take
    case 5 => Done(0, 1)
    case 8 => Give
    case _ => Write(b, true)
  }

  lemma Sizes()
    ensures Times(0, 3) == 0 && Times(1, 3) == 3 && Times(2, 3) == 6
    ensures Times(0, 2) == 0 && Times(1, 2) == 2 && Times(2, 2) == 4
  {
    TimesIsProduct(1, 3);
    TimesIsProduct(2, 3);
    TimesIsProduct(1, 2);
    TimesIsProduct(2, 2);
  }

  lemma WritesOn(b: Body, k: nat)
    requires Data(b) && !b.chain && k in {0, 1, 6, 7} && Inv(Lap(b, k))
    ensures Enabled(Lap(b, k), StepAt(b, k)) && Apply(Lap(b, k), StepAt(b, k)) == Lap(b, k + 1)
  {
    Sizes();
  }

  lemma MovesOn(b: Body, k: nat)
    requires Data(b) && !b.chain && k in {3, 4, 5} && Inv(Lap(b, k))
    ensures Enabled(Lap(b, k), StepAt(b, k)) && Apply(Lap(b, k), StepAt(b, k)) == Lap(b, k + 1)
  {
    Sizes();
  }

  lemma GivesFirst(b: Body)
    requires Data(b) && !b.chain && Inv(Lap(b, 2))
    ensures Enabled(Lap(b, 2), Give) && Apply(Lap(b, 2), Give) == Lap(b, 3)
  {
    Sizes();
    var trbs := Lap(b, 2).r.trbs;
    assert Window(trbs, 2, 3) == [] + Window(trbs, 3, 3) == [];
    assert Window(trbs, 1, 3) == [b] + Window(trbs, 2, 3);
    assert Window(trbs, 0, 3) == [b] + Window(trbs, 1, 3);
  }

  lemma GivesSecond(b: Body)
    requires Data(b) && !b.chain && Inv(Lap(b, 8))
    ensures Enabled(Lap(b, 8), Give) && Apply(Lap(b, 8), Give) == Lap(b, 9)
  {
    Sizes();
    var trbs := Lap(b, 8).r.trbs;
    assert Window(trbs, 5, 0) == [] + Window(trbs, 0, 0) == [];
    assert Window(trbs, 4, 0) == [b] + Window(trbs, 5, 0);
    assert Window(trbs, 3, 0) == [b] + Window(trbs, 4, 0);
  }

  lemma GoesOn(b: Body, k: nat)
    requires Data(b) && !b.chain && k < 9 && Inv(Lap(b, k))
    ensures Enabled(Lap(b, k), StepAt(b, k)) && Apply(Lap(b, k), StepAt(b, k)) == Lap(b, k + 1)
    ensures Inv(Lap(b, k + 1))
  {
    if k == 2 { GivesFirst(b); } else if k == 8 { GivesSecond(b); }
    else if k in {3, 4, 5} { MovesOn(b, k); } else { WritesOn(b, k); }
    StepKeepsInv(Lap(b, k), StepAt(b, k));
  }

  lemma {:induction false} LapInv(b: Body, k: nat)
    requires Data(b) && !b.chain && k <= 9
    ensures Inv(Lap(b, k))
  {
    if k == 0 {
      LapStart(b);
      InitialInv(Lap(b, 0));
    } else {
      LapInv(b, k - 1);
      GoesOn(b, k - 1);
    }
  }

  ghost function LapOf(b: Body): nat -> Sys {
    (j: nat) => Lap(b, j)
  }

  ghost function StepsOf(b: Body): nat -> Step {
    (j: nat) => StepAt(b, j)
  }

  lemma LapLeads(b: Body, k: nat)
    requires Data(b) && !b.chain && k < 9
    ensures LeadsBy(Leading(), LapOf(b), StepsOf(b), k)
  {
    LapInv(b, k);
    GoesOn(b, k);
  }

  lemma LapRuns(b: Body)
    requires Data(b) && !b.chain
    ensures Reached(LapOf(b)(0), LapOf(b)(9))
  {
    forall k: nat | k < 9 ensures LeadsBy(Leading(), LapOf(b), StepsOf(b), k) { LapLeads(b, k); }
    LeadingIsFaithful();
    ChainReaches(Leading(), LapOf(b), StepsOf(b), 9);
  }

  /** Such a state is reached from a fresh ring, with everything so far handed over properly;
      the next two TRBs need another segment, and adding it exposes an unwritten TRB. */
  lemma LagIsReached(b: Body)
    requires Data(b) && !b.chain
    ensures Lap(b, 0).r == FreshRing(3, 2, false) && Initial(Lap(b, 0))
    ensures Reached(Lap(b, 0), Lap(b, 9))
    ensures
      var y := Lap(b, 9);
      && Inv(y) && LinkAhead(y) && ExpansionNeeded(y.r, 2) == 1
      && var z := Grow(y, 1);
         z.hw < z.r.Size() &&
         var seen := Visible(z.r.trbs, z.hw, z.ccs, z.r.Size());
         seen != [] && seen[0].kind == Empty
  {
    Sizes();
    LapStart(b);
    LapRuns(b);
    LapInv(b, 9);
    GrowUnderLaggingController(Lap(b, 9), 1);
  }

  lemma LapStart(b: Body)
    ensures Initial(Lap(b, 0)) && Lap(b, 0).r == FreshRing(3, 2, false)
  {
    Sizes();
    assert FreshSegments(3, 1, true, false) == FreshSegments(3, 0, true, false) + FreshSegment(3, true, false);
    assert FreshSegments(3, 2, true, true) == [UNUSED, UNUSED, LinkTrb(false, false), UNUSED, UNUSED, LinkTrb(true, false)];
    FreshIsInitial(3, 2, false);
  }
}
