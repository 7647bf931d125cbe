/** Cancelling TDs of a transfer ring: their TRBs are turned into no-ops in place, and the
    controller is moved on if it stopped among them. Both as steps of the runs of driver and
    controller, under the lock that keeps a TD from being written meanwhile. */
module RingCancel {
  import opened RingModel
  import opened RingExpansion
  import opened RingFifo
  import opened RingCounts
  import opened MoveDequeue
  import opened CommandSlots

  const NOOP: Body := Body(Noop, 0, 0, false, false)

  /** The TRBs from `first` to `last` as no-ops (td_to_noop without flipping cycle bits). */
  function Blanked(y: Sys, first: nat, last: nat): Sys
    requires first < |y.r.trbs| && last < |y.r.trbs| && y.hw < |y.r.trbs| && y.First() < |y.r.trbs|
  {
    var trbs := NoopTd(y.r.trbs, first, last, false);
    y.(r := y.r.(trbs := trbs), published := y.consumed + Window(trbs, y.hw, y.First()))
  }

  predicate InTd(first: nat, last: nat, p: nat, n: nat)
    requires first < n && last < n && p < n
  {
    Dist(first, p, n) <= Dist(first, last, n)
  }

  lemma BlankKeepsInv(y: Sys, first: nat, last: nat)
    requires Inv(y) && !y.open && first < y.r.Size() && last < y.r.Size()
    ensures Inv(Blanked(y, first, last))
  {
    SameKindsKeepGeometry(y.r, Blanked(y, first, last).r);
  }

  /** What the controller meets on its way, slot by slot. */
  lemma {:induction false} WindowIsSlots(trbs: seq<Trb>, a: nat, b: nat)
    requires a < |trbs| && b < |trbs|
    ensures |Window(trbs, a, b)| == |Slots(trbs, a, b)|
    ensures forall i :: 0 <= i < |Slots(trbs, a, b)| ==>
              Slots(trbs, a, b)[i] < |trbs| && !IsLink(trbs[Slots(trbs, a, b)[i]]) &&
              Window(trbs, a, b)[i] == trbs[Slots(trbs, a, b)[i]].body
    decreases Dist(a, b, |trbs|)
  {
    if a != b { WindowIsSlots(trbs, Next(a, |trbs|), b); }
  }

  /** Of the published TRBs exactly those of the TD become no-ops that the controller has not
      taken; no other TRB changes, is lost or comes in. */
  lemma BlankReplaces(y: Sys, first: nat, last: nat, i: nat)
    requires Inv(y) && !y.open && first < y.r.Size() && last < y.r.Size()
    ensures var z, slots, c := Blanked(y, first, last), Slots(y.r.trbs, y.hw, y.r.enq), |y.consumed|;
            && |z.published| == |y.published| == c + |slots|
            && (i < c ==> z.published[i] == y.published[i])
            && (i < |slots| ==>
                  slots[i] < y.r.Size() &&
                  z.published[c + i] == if InTd(first, last, slots[i], y.r.Size()) then NOOP else y.published[c + i])
  {
    var z := Blanked(y, first, last);
    WindowIsSlots(y.r.trbs, y.hw, y.r.enq);
    WindowIsSlots(z.r.trbs, y.hw, y.r.enq);
    SlotsFrame(y.r.trbs, z.r.trbs, y.hw, y.r.enq);
  }

  // ------------------------------------------------------------------- runs

  datatype Event =
    | Drive(step: Step)
    | Blank(first: nat, last: nat)
    | Move(seg: nat, last: nat)

  /** A TD in the ring that was given and is not retired. */
  predicate OnRing(y: Sys, first: nat, last: nat) {
    && first < |y.r.trbs| && last < |y.r.trbs| && y.r.deq < |y.r.trbs| && y.r.enq < |y.r.trbs| && y.hw < |y.r.trbs|
    && Dist(y.r.deq, first, |y.r.trbs|) <= Dist(y.r.deq, last, |y.r.trbs|) < Dist(y.r.deq, y.r.enq, |y.r.trbs|)
  }

  /** Where the controller is moved for the TD that ends at `last`. */
  predicate Movable(y: Sys, seg: nat, last: nat) {
    && OnRing(y, last, last) && !y.open && !y.Lag()
    && Findable(|y.r.trbs|, y.r.deq, y.hw, last)
    && y.r.InSeg(seg, NewDequeue(|y.r.trbs|, y.r.deq, y.hw, last))
  }

  predicate MayHappen(y: Sys, e: Event) {
    match e
    case Drive(step) => Enabled(y, step)
    case Blank(first, last) => !y.open && OnRing(y, first, last)
    case Move(seg, last) => Movable(y, seg, last)
  }

  function Happened(y: Sys, e: Event): Sys
    requires Inv(y) && MayHappen(y, e)
  {
    match e
    case Drive(step) => Apply(y, step)
    case Blank(first, last) => Blanked(y, first, last)
    case Move(seg, last) => Skipped(y, seg, NewDequeue(|y.r.trbs|, y.r.deq, y.hw, last))
  }

  lemma MoveKeepsInv(y: Sys, seg: nat, last: nat)
    requires Inv(y) && Movable(y, seg, last)
    ensures Inv(Happened(y, Move(seg, last)))
  {
    NewDequeueIsAhead(y, last);
    SkipKeepsInv(y, seg, NewDequeue(y.r.Size(), y.r.deq, y.hw, last));
  }

  lemma EventKeepsInv(y: Sys, e: Event)
    requires Inv(y) && MayHappen(y, e)
    ensures Inv(Happened(y, e))
  {
    match e
    case Drive(step) => StepKeepsInv(y, step);
    case Blank(first, last) => BlankKeepsInv(y, first, last);
    case Move(seg, last) => MoveKeepsInv(y, seg, last);
  }

  ghost predicate CanHappen(y: Sys, events: seq<Event>)
    decreases |events|
  {
    events == [] || (Inv(y) && MayHappen(y, events[0]) && CanHappen(Happened(y, events[0]), events[1..]))
  }

  ghost function AllHappened(y: Sys, events: seq<Event>): Sys
    requires CanHappen(y, events)
    decreases |events|
  {
    if events == [] then y else AllHappened(Happened(y, events[0]), events[1..])
  }

  /** What was given: cancelling takes nothing back. */
  function Noted(l: Ledger, events: seq<Event>): Ledger
    decreases |events|
  {
    if events == [] then l
    else Noted(if events[0].Drive? then Entered(l, events[0].step) else l, events[1..])
  }

  /** The same TRBs in the same order, some of them as no-ops. */
  predicate Veils(seen: seq<Body>, given: seq<Body>) {
    |seen| == |given| && forall i :: 0 <= i < |seen| ==> seen[i] == given[i] || seen[i] == NOOP
  }

  ghost predicate Veiled(y: Sys, l: Ledger) {
    Inv(y) && Veils(y.published, l.given) && (if y.open then Pending(y) else []) == l.pending
  }

  lemma BlankVeils(y: Sys, first: nat, last: nat, given: seq<Body>)
    requires Inv(y) && !y.open && first < y.r.Size() && last < y.r.Size() && Veils(y.published, given)
    ensures Veils(Blanked(y, first, last).published, given)
  {
    var z, c := Blanked(y, first, last), |y.consumed|;
    forall i | 0 <= i < |y.published| ensures |z.published| == |y.published| && (z.published[i] == y.published[i] || z.published[i] == NOOP) {
      BlankReplaces(y, first, last, i);
      if c <= i { BlankReplaces(y, first, last, i - c); }
    }
    BlankReplaces(y, first, last, 0);
  }

  lemma DriveVeils(y: Sys, step: Step, l: Ledger)
    requires Veiled(y, l) && Enabled(y, step)
    ensures Veiled(Apply(y, step), Entered(l, step))
  {
    StepRecorded(y, step, Ledger(y.published, l.pending));
    StepKeepsInv(y, step);
  }

  lemma EventNoted(y: Sys, e: Event, l: Ledger)
    requires Veiled(y, l) && MayHappen(y, e)
    ensures Veiled(Happened(y, e), if e.Drive? then Entered(l, e.step) else l)
  {
    EventKeepsInv(y, e);
    match e
    case Drive(step) => DriveVeils(y, step, l);
    case Blank(first, last) => BlankVeils(y, first, last, l.given);
    case Move(seg, last) =>
  }

  lemma {:induction false} TraceNoted(y: Sys, events: seq<Event>, l: Ledger)
    requires CanHappen(y, events) && Veiled(y, l)
    ensures Veiled(AllHappened(y, events), Noted(l, events))
    decreases |events|
  {
    if events != [] {
      EventNoted(y, events[0], l);
      TraceNoted(Happened(y, events[0]), events[1..], if events[0].Drive? then Entered(l, events[0].step) else l);
    }
  }

  /** Over every run from a fresh ring, cancellations and moves of the controller included:
      what the controller has gone past, followed by what it would execute next, is the
      sequence of TRBs of the TDs given, in order, with nothing lost and nothing added, some of
      them turned into no-ops. */
  lemma FifoOverCancellations(y: Sys, events: seq<Event>)
    requires Initial(y) && CanHappen(y, events)
    ensures var z := AllHappened(y, events);
            && Inv(z)
            && Veils(z.consumed + Visible(z.r.trbs, z.hw, z.ccs, z.r.Size()), Noted(Ledger([], []), events).given)
  {
    InitialInv(y);
    TraceNoted(y, events, Ledger([], []));
    ControllerSeesPublished(AllHappened(y, events));
  }

  /** After a move the TD is behind the controller: no TRB up to its last is ahead any more. */
  lemma MovedPast(y: Sys, seg: nat, last: nat, p: nat)
    requires Inv(y) && Movable(y, seg, last)
    requires p < y.r.Size() && Dist(y.r.deq, p, y.r.Size()) <= Dist(y.r.deq, last, y.r.Size())
    ensures var z := Happened(y, Move(seg, last));
            Inv(z) && z.r.trbs == y.r.trbs && z.r.deq == z.hw && p !in Slots(z.r.trbs, z.hw, z.r.enq)
  {
    MoveKeepsInv(y, seg, last);
    FollowingOrder(y.hw, y.First(), y.r.deq, y.r.enq, y.r.Size());
    PassesAll(y.hw, y.r.deq, last, y.r.enq, p, y.r.Size());
    NotMet(y.r.trbs, NewDequeue(y.r.Size(), y.r.deq, y.hw, last), y.r.enq, p);
  }

  lemma PassesAll(hw: nat, deq: nat, last: nat, enq: nat, p: nat, n: nat)
    requires hw < n && deq < n && last < n && enq < n && p < n && Dist(deq, p, n) <= Dist(deq, last, n)
    requires Dist(deq, last, n) < Dist(deq, enq, n) && Dist(deq, hw, n) <= Dist(deq, enq, n)
    requires Findable(n, deq, hw, last)
    ensures var q := NewDequeue(n, deq, hw, last); Dist(q, enq, n) <= Dist(q, p, n)
  {
  }

  lemma {:induction false} NotMet(trbs: seq<Trb>, a: nat, b: nat, p: nat)
    requires a < |trbs| && b < |trbs| && p < |trbs| && Dist(a, b, |trbs|) <= Dist(a, p, |trbs|)
    ensures p !in Slots(trbs, a, b)
    decreases Dist(a, b, |trbs|)
  {
    if a != b { NotMet(trbs, Next(a, |trbs|), b, p); }
  }

  // ------------------------------------------------------- by the driver's counts

  /** The same events, with nothing asked of the driver's writes but that a TD keeps to its count. */
  ghost predicate MayHappenCounted(y: Sys, left: nat, e: Event)
    requires Inv(y)
  {
    match e
    case Drive(step) => Allowed(y, left, step)
    case Blank(first, last) => !y.open && OnRing(y, first, last)
    case Move(seg, last) => Movable(y, seg, last)
  }

  function LeftAfter(r: RingState, left: nat, e: Event): nat
    requires 2 <= r.t && r.enq < |r.trbs| && Times(r.enqSeg, r.t) <= r.enq
  {
    if e.Drive? then Left(r, left, e.step) else left
  }

  /** Cancelling leaves the room as it is, moving on frees some. */
  lemma EventCovers(y: Sys, left: nat, e: Event)
    requires Covered(y, left) && MayHappenCounted(y, left, e)
    ensures MayHappen(y, e) && Covered(Happened(y, e), LeftAfter(y.r, left, e))
  {
    match e
    case Drive(step) => StepCovers(y, left, step);
    case Blank(first, last) => BlankKeepsInv(y, first, last);
    case Move(seg, last) =>
      MoveKeepsInv(y, seg, last);
      NewDequeueIsAhead(y, last);
      SkipKeepsRoom(y, seg, NewDequeue(y.r.Size(), y.r.deq, y.hw, last));
  }

  ghost predicate CanHappenCounted(y: Sys, left: nat, events: seq<Event>)
    requires Covered(y, left)
    decreases |events|
  {
    events == [] ||
    (MayHappenCounted(y, left, events[0]) &&
     (EventCovers(y, left, events[0]);
      CanHappenCounted(Happened(y, events[0]), LeftAfter(y.r, left, events[0]), events[1..])))
  }

  lemma {:induction false} CountedHappens(y: Sys, left: nat, events: seq<Event>)
    requires Covered(y, left) && CanHappenCounted(y, left, events)
    ensures CanHappen(y, events)
    decreases |events|
  {
    if events != [] {
      EventCovers(y, left, events[0]);
      CountedHappens(Happened(y, events[0]), LeftAfter(y.r, left, events[0]), events[1..]);
    }
  }

  /** Over every run from a fresh ring in which TDs keep to their counts, are cancelled in place
      and moved past: the TRBs given, in order, none lost or added, some as no-ops. Nothing is
      asked about room. */
  lemma FifoOverCountedCancellations(y: Sys, events: seq<Event>)
    requires Initial(y) && Covered(y, 0) && CanHappenCounted(y, 0, events)
    ensures CanHappen(y, events)
    ensures var z := AllHappened(y, events);
            && Inv(z)
            && Veils(z.consumed + Visible(z.r.trbs, z.hw, z.ccs, z.r.Size()), Noted(Ledger([], []), events).given)
  {
    CountedHappens(y, 0, events);
    FifoOverCancellations(y, events);
  }
}
