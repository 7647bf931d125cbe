/** Moving the controller past a cancelled TD: where the new dequeue position is,
    with which cycle state, and how the driver catches up with it. */
module MoveDequeue {
  import opened RingModel
  import opened RingExpansion
  import opened RingFifo

  /** The cycle state of a consumer that stands at `a` with state `c` and walks to `b`. */
  function CycleAt(trbs: seq<Trb>, a: nat, c: bool, b: nat): bool
    requires a < |trbs| && b < |trbs|
    decreases Dist(a, b, |trbs|)
  {
    if a == b then c
    else CycleAt(trbs, Next(a, |trbs|), c != Toggles(trbs[a]), b)
  }

  predicate Toggles(trb: Trb) {
    trb.body.kind.Link? && trb.body.kind.toggle
  }

  lemma {:induction false} CycleStep(trbs: seq<Trb>, a: nat, c: bool, b: nat)
    requires a < |trbs| && b < |trbs| && Next(b, |trbs|) != a
    ensures CycleAt(trbs, a, c, Next(b, |trbs|)) == (CycleAt(trbs, a, c, b) != Toggles(trbs[b]))
    decreases Dist(a, b, |trbs|)
  {
    if a != b {
      CycleStep(trbs, Next(a, |trbs|), c != Toggles(trbs[a]), b);
    } else {
      assert CycleAt(trbs, Next(a, |trbs|), c != Toggles(trbs[a]), Next(b, |trbs|)) == (c != Toggles(trbs[a]));
    }
  }

  /** Whether the walk from dequeue meets both the controller and the end of the TD
      and stops before it is back at dequeue. */
  predicate Findable(n: nat, deq: nat, hw: nat, last: nat) {
    && deq < n && hw < n && last < n
    && (Dist(deq, last, n) < Dist(deq, hw, n) || Next(last, n) != deq)
  }

  /** A walk from `deq` that has reached `q` has gone past `a`. */
  predicate Passed(n: nat, deq: nat, a: nat, q: nat)
    requires deq < n && q < n
  {
    a < n && Dist(deq, a, n) < Dist(deq, q, n)
  }

  lemma PassedStep(n: nat, deq: nat, a: nat, q: nat)
    requires deq < n && q < n && Next(q, n) != deq
    ensures Passed(n, deq, a, Next(q, n)) <==> Passed(n, deq, a, q) || a == q
    ensures Dist(deq, Next(q, n), n) == Dist(deq, q, n) + 1
  {
  }

  /** The later, in walking order, of the controller and the TRB after the TD. */
  function NewDequeue(n: nat, deq: nat, hw: nat, last: nat): (q: nat)
    requires Findable(n, deq, hw, last)
    ensures q < n
    ensures q == hw || q == Next(last, n)
    ensures Dist(deq, hw, n) <= Dist(deq, q, n) && Dist(deq, last, n) < Dist(deq, q, n)
  {
    if Dist(deq, last, n) < Dist(deq, hw, n) then hw else Next(last, n)
  }

  /** The whole system once the controller and the driver have moved to `q`. */
  function Skipped(y: Sys, seg: nat, q: nat): Sys
    requires y.hw < |y.r.trbs| && q < |y.r.trbs|
  {
    y.(r := y.r.(deqSeg := seg, deq := q),
       hw := q,
       ccs := CycleAt(y.r.trbs, y.hw, y.ccs, q),
       consumed := y.consumed + Window(y.r.trbs, y.hw, q))
  }

  lemma {:induction false} CycleOnTheWay(y: Sys, a: nat, c: bool, b: nat)
    requires Inv(y) && a < y.r.Size() && b < y.r.Size()
    requires Dist(y.hw, a, y.r.Size()) <= Dist(y.hw, b, y.r.Size()) <= Dist(y.hw, y.First(), y.r.Size())
    requires c <==> (if a <= y.r.enq then y.r.pcs else !y.r.pcs)
    ensures CycleAt(y.r.trbs, a, c, b) <==> (if b <= y.r.enq then y.r.pcs else !y.r.pcs)
    decreases Dist(a, b, y.r.Size())
  {
    if a != b {
      LastIsLink(y.r);
      CycleOnTheWay(y, Next(a, y.r.Size()), c != Toggles(y.r.trbs[a]), b);
    }
  }

  /** Between the controller and the unpublished part of the ring, in walking
      order from dequeue. */
  predicate Ahead(y: Sys, q: nat) {
    && q < |y.r.trbs| && y.hw < |y.r.trbs| && y.First() < |y.r.trbs|
    && Dist(y.hw, q, |y.r.trbs|) <= Dist(y.hw, y.First(), |y.r.trbs|)
  }

  lemma SkipOrder(hw: nat, q: nat, first: nat, enq: nat, deq: nat, n: nat)
    requires hw < n && q < n && first < n && enq < n && deq < n
    requires Dist(hw, q, n) <= Dist(hw, first, n) <= Dist(hw, enq, n)
    requires if deq == Next(hw, n) then q != hw || Dist(deq, hw, n) <= Dist(deq, enq, n) else Dist(deq, hw, n) <= Dist(deq, enq, n)
    ensures Dist(q, first, n) <= Dist(q, enq, n)
    ensures Dist(deq, q, n) <= Dist(deq, enq, n)
  {
  }

  lemma SkipKeepsSegments(y: Sys, seg: nat, q: nat)
    requires Inv(y) && (y.Lag() ==> q != y.hw) && Ahead(y, q) && y.r.InSeg(seg, q)
    ensures var y' := Skipped(y, seg, q); y'.r.Shape() && Spare(y') && Order(y')
  {
    SkipOrder(y.hw, q, y.First(), y.r.enq, y.r.deq, y.r.Size());
    SegDistGrows(y.r, seg, q);
    SegDistRange(y.r);
    RoomGrows(y.r, seg, q);
  }

  /** Skipping only frees room. */
  lemma SkipKeepsRoom(y: Sys, seg: nat, q: nat)
    requires Inv(y) && (y.Lag() ==> q != y.hw) && Ahead(y, q) && y.r.InSeg(seg, q)
    ensures y.r.Room() <= Skipped(y, seg, q).r.Room()
  {
    SkipOrder(y.hw, q, y.First(), y.r.enq, y.r.deq, y.r.Size());
    SegDistGrows(y.r, seg, q);
    SegDistRange(y.r);
    RoomGrows(y.r, seg, q);
  }

  /** Moving on to a TRB the controller could have reached keeps the ring sound:
      what it has not skipped is still exactly what it will see. Only staying on a link that
      dequeue has passed would take dequeue back. */
  lemma SkipKeepsInv(y: Sys, seg: nat, q: nat)
    requires Inv(y) && (y.Lag() ==> q != y.hw) && Ahead(y, q) && y.r.InSeg(seg, q)
    ensures Inv(Skipped(y, seg, q))
  {
    var y' := Skipped(y, seg, q);
    SkipKeepsSegments(y, seg, q);
    CycleOnTheWay(y, y.hw, y.ccs, q);
    WindowSplit(y.r.trbs, y.hw, q, y.First());
  }

  /** A controller that follows dequeue is between dequeue and the unpublished part. */
  lemma FollowingOrder(hw: nat, first: nat, deq: nat, enq: nat, n: nat)
    requires hw < n && first < n && deq < n && enq < n
    requires Dist(hw, first, n) <= Dist(hw, enq, n) && Dist(deq, hw, n) <= Dist(deq, enq, n)
    ensures Dist(deq, hw, n) <= Dist(deq, first, n)
  {
  }

  /** For a TD that is published and not yet retired, the new dequeue position is one
      the controller can be moved to, and past the TD. */
  lemma NewDequeueIsAhead(y: Sys, last: nat)
    requires Inv(y) && !y.Lag() && last < y.r.Size()
    requires Dist(y.r.deq, last, y.r.Size()) < Dist(y.r.deq, y.First(), y.r.Size())
    ensures Findable(y.r.Size(), y.r.deq, y.hw, last)
    ensures Ahead(y, NewDequeue(y.r.Size(), y.r.deq, y.hw, last))
  {
    FollowingOrder(y.hw, y.First(), y.r.deq, y.r.enq, y.r.Size());
  }

  /** The TRB at `last` is not among those the controller has yet to take. */
  predicate Behind(y: Sys, q: nat, last: nat) {
    q < |y.r.trbs| && last < |y.r.trbs| && y.First() < |y.r.trbs| && Dist(q, y.First(), |y.r.trbs|) <= Dist(q, last, |y.r.trbs|)
  }

  /** The position found is past a published TD exactly if the controller is not still on the
      link in front of dequeue; from there it is the link itself that is found. */
  lemma PassesExactly(y: Sys, last: nat)
    requires Inv(y) && last < y.r.Size() && !IsLink(y.r.trbs[last])
    requires Dist(y.r.deq, last, y.r.Size()) < Dist(y.r.deq, y.First(), y.r.Size())
    requires y.Lag() ==> y.hw != y.First()
    ensures Findable(y.r.Size(), y.r.deq, y.hw, last)
    ensures Behind(y, NewDequeue(y.r.Size(), y.r.deq, y.hw, last), last) <==> !y.Lag()
    ensures y.Lag() ==> NewDequeue(y.r.Size(), y.r.deq, y.hw, last) == y.hw
  {
    if y.Lag() {
      LagFindsLink(y.hw, y.r.deq, last, y.First(), y.r.Size());
    } else {
      NewDequeueIsAhead(y, last);
      FollowingOrder(y.hw, y.First(), y.r.deq, y.r.enq, y.r.Size());
      PassesWhenFollowing(y.hw, y.r.deq, last, y.First(), y.r.Size());
    }
  }

  lemma LagFindsLink(hw: nat, deq: nat, last: nat, first: nat, n: nat)
    requires hw < n && deq == Next(hw, n) && last < n && first < n && last != hw
    requires Dist(deq, last, n) < Dist(deq, first, n)
    ensures Findable(n, deq, hw, last) && NewDequeue(n, deq, hw, last) == hw
    ensures first != hw ==> Dist(hw, last, n) < Dist(hw, first, n)
  {
  }

  lemma PassesWhenFollowing(hw: nat, deq: nat, last: nat, first: nat, n: nat)
    requires hw < n && deq < n && last < n && first < n
    requires Dist(deq, last, n) < Dist(deq, first, n) && Dist(deq, hw, n) <= Dist(deq, first, n)
    requires Findable(n, deq, hw, last)
    ensures var q := NewDequeue(n, deq, hw, last); Dist(q, first, n) <= Dist(q, last, n)
  {
  }

  /** Moving past a cancelled TD that was published: the position found and the cycle state
      found with it leave a sound ring, the TD is behind dequeue, and what lies between the old
      and the new position is skipped, nothing else. Only a controller still on the link in front
      of dequeue is not moved at all: it stays as it is, and dequeue goes back to that link. */
  lemma PastCancelledTd(y: Sys, seg: nat, last: nat)
    requires Inv(y) && last < y.r.Size() && !IsLink(y.r.trbs[last])
    requires Dist(y.r.deq, last, y.r.Size()) < Dist(y.r.deq, y.First(), y.r.Size()) && (y.Lag() ==> y.hw != y.First())
    requires Findable(y.r.Size(), y.r.deq, y.hw, last)
             ==> y.r.InSeg(seg, NewDequeue(y.r.Size(), y.r.deq, y.hw, last))
    ensures Findable(y.r.Size(), y.r.deq, y.hw, last)
    ensures var q := NewDequeue(y.r.Size(), y.r.deq, y.hw, last);
            var z := Skipped(y, seg, q);
            if y.Lag() then z == y.(r := y.r.(deqSeg := seg, deq := y.hw))
            else
              && Inv(z)
              && Dist(y.r.deq, last, y.r.Size()) < Dist(y.r.deq, z.r.deq, y.r.Size())
              && Window(y.r.trbs, y.hw, y.First())
                 == Window(y.r.trbs, y.hw, q) + Visible(z.r.trbs, z.hw, z.ccs, z.r.Size())
  {
    PassesExactly(y, last);
    if y.Lag() { StaysPut(y, seg); } else { FollowingMoves(y, seg, last); }
  }

  lemma StaysPut(y: Sys, seg: nat)
    requires y.hw < y.r.Size()
    ensures Skipped(y, seg, y.hw) == y.(r := y.r.(deqSeg := seg, deq := y.hw))
  {
    assert y.consumed + Window(y.r.trbs, y.hw, y.hw) == y.consumed;
  }

  lemma FollowingMoves(y: Sys, seg: nat, last: nat)
    requires Inv(y) && !y.Lag() && last < y.r.Size()
    requires Dist(y.r.deq, last, y.r.Size()) < Dist(y.r.deq, y.First(), y.r.Size())
    requires Findable(y.r.Size(), y.r.deq, y.hw, last) && y.r.InSeg(seg, NewDequeue(y.r.Size(), y.r.deq, y.hw, last))
    ensures var q := NewDequeue(y.r.Size(), y.r.deq, y.hw, last);
            var z := Skipped(y, seg, q);
            && Inv(z)
            && Window(y.r.trbs, y.hw, y.First())
               == Window(y.r.trbs, y.hw, q) + Visible(z.r.trbs, z.hw, z.ccs, z.r.Size())
  {
    NewDequeueIsAhead(y, last);
    var q := NewDequeue(y.r.Size(), y.r.deq, y.hw, last);
    SkipKeepsInv(y, seg, q);
    WindowSplit(y.r.trbs, y.hw, q, y.First());
    var z := Skipped(y, seg, q);
    VisibleWalk(z, z.hw, z.ccs, z.r.Size());
  }
}
