/** When a transfer ring must grow before a TD is queued, by how much, and what
    growing it does. */
module RingExpansion {
  import opened RingModel

  /** One unused segment, owned by a driver whose producer cycle state is `pcs`. */
  function FreshSegment(t: nat, pcs: bool, toggle: bool): (s: seq<Trb>)
    ensures |s| == t
  {
    seq(t, o requires 0 <= o < t =>
      Trb(Body(if o + 1 == t then Link(toggle) else Empty, 0, 0, false, false), !pcs))
  }

  /** `k` unused segments, the last of which may close the ring. */
  function FreshSegments(t: nat, k: nat, pcs: bool, closes: bool): (s: seq<Trb>)
    ensures |s| == Times(k, t)
    ensures forall i :: 0 <= i < |s| ==> s[i].cycle != pcs
  {
    if k == 0 then []
    else FreshSegments(t, k - 1, pcs, false) + FreshSegment(t, pcs, closes)
  }

  /** The `j`-th fresh segment ends in a link and holds no other. */
  lemma {:induction false} FreshLink(t: nat, k: nat, pcs: bool, closes: bool, j: nat, o: nat)
    requires j < k && o < t
    ensures Times(j, t) + o < Times(k, t)
    ensures var trb := FreshSegments(t, k, pcs, closes)[Times(j, t) + o];
            trb == FreshSegment(t, pcs, closes && j == k - 1)[o]
    decreases k
  {
    SegBound(j, k, t);
    if j < k - 1 { FreshLink(t, k - 1, pcs, false, j, o); }
  }

  lemma {:induction false} FreshToggles(t: nat, k: nat, pcs: bool, closes: bool, i: nat)
    requires 0 < t && i < Times(k, t)
    ensures var trb := FreshSegments(t, k, pcs, closes)[i];
            IsLink(trb) ==> (trb.body.kind.toggle <==> closes && i == Times(k, t) - 1)
    decreases k
  {
    if i < Times(k - 1, t) { FreshToggles(t, k - 1, pcs, false, i); }
  }

  /** A newly allocated ring: every TRB zero but the links, producer cycle state 1. */
  function FreshRing(t: nat, segs: nat, quirk: bool): RingState {
    RingState(t, segs, quirk, FreshSegments(t, segs, true, true), 0, 0, true, 0, 0)
  }

  lemma FreshRingShape(t: nat, segs: nat, quirk: bool)
    requires 3 <= t && 1 <= segs
    ensures FreshRing(t, segs, quirk).Shape()
    ensures var r := FreshRing(t, segs, quirk); forall p :: 0 <= p < |r.trbs| ==> !r.trbs[p].cycle
  {
    var r := FreshRing(t, segs, quirk);
    forall s: nat | s < segs
      ensures EndsInLink(r.trbs, s, t)
    {
      SegBound(s, segs, t);
      forall p | Times(s, t) <= p < Times(s, t) + t
        ensures IsLink(r.trbs[p]) <==> p == Times(s, t) + t - 1
      {
        FreshLink(t, segs, true, true, s, p - Times(s, t));
      }
    }
    forall p | 0 <= p < |r.trbs| && IsLink(r.trbs[p])
      ensures r.trbs[p].body.kind.toggle <==> p == |r.trbs| - 1
    {
      FreshToggles(t, segs, true, true, p);
    }
  }

  /** Inserting TRBs at position `x`, the end of some segment. If that segment was
      the last one, its link stops toggling. */
  function InsertAt(trbs: seq<Trb>, x: nat, added: seq<Trb>): seq<Trb>
    requires 0 < x <= |trbs|
  {
    (if x == |trbs| then trbs[..x - 1] + [Untoggled(trbs[x - 1])] else trbs[..x]) + added + trbs[x..]
  }

  function Untoggled(l: Trb): Trb {
    l.(body := l.body.(kind := Link(false)))
  }

  /** Splicing `k` fresh segments in after the enqueue segment. When that was
      the last segment, its link stops toggling and the new last link starts. */
  function Splice(r: RingState, k: nat): RingState
    requires r.Geometry() && r.enqSeg < r.segs
  {
    if k == 0 then r
    else
      SegEnd(r);
      r.(trbs := InsertAt(r.trbs, End(r), FreshSegments(r.t, k, r.pcs, r.enqSeg + 1 == r.segs)),
         segs := r.segs + k,
         deqSeg := if r.enqSeg < r.deqSeg then r.deqSeg + k else r.deqSeg,
         deq := if r.enqSeg < r.deqSeg then r.deq + Times(k, r.t) else r.deq)
  }

  /** The position after the link of the enqueue segment. */
  function End(r: RingState): nat {
    Times(r.enqSeg, r.t) + r.t
  }

  lemma SegEnd(r: RingState)
    requires r.Geometry() && r.enqSeg < r.segs
    ensures 0 < End(r) <= |r.trbs|
    ensures End(r) == |r.trbs| <==> r.enqSeg + 1 == r.segs
    ensures End(r) == Times(r.enqSeg + 1, r.t)
  {
    SegBound(r.enqSeg, r.segs, r.t);
  }

  /** Where position `p` is found after `m` TRBs were inserted at `x`. */
  function Shift(p: nat, x: nat, m: nat): nat {
    if p < x then p else p + m
  }

  function Moved(r: RingState, k: nat, p: nat): nat {
    Shift(p, End(r), Times(k, r.t))
  }

  /** Every old TRB is found at its new place, all others are fresh. */
  lemma SplicedAt(r: RingState, k: nat, p: nat)
    requires r.Geometry() && r.enqSeg < r.segs && p < |r.trbs|
    ensures |Splice(r, k).trbs| == |r.trbs| + Times(k, r.t)
    ensures Moved(r, k, p) < |Splice(r, k).trbs|
    ensures Splice(r, k).trbs[Moved(r, k, p)] ==
            if k != 0 && p + 1 == |r.trbs| && End(r) == |r.trbs| then Untoggled(r.trbs[p]) else r.trbs[p]
  {
    SegEnd(r);
    if k != 0 { InsertedAt(r.trbs, End(r), FreshSegments(r.t, k, r.pcs, r.enqSeg + 1 == r.segs), p); }
  }

  lemma InsertedAt(trbs: seq<Trb>, x: nat, added: seq<Trb>, p: nat)
    requires 0 < x <= |trbs| && p < |trbs|
    ensures |InsertAt(trbs, x, added)| == |trbs| + |added|
    ensures InsertAt(trbs, x, added)[Shift(p, x, |added|)] == if p + 1 == |trbs| == x then Untoggled(trbs[p]) else trbs[p]
  {
  }

  lemma FreshAt(r: RingState, k: nat, i: nat)
    requires r.Geometry() && r.enqSeg < r.segs && i < Times(k, r.t)
    ensures End(r) + i < |Splice(r, k).trbs|
    ensures Splice(r, k).trbs[End(r) + i] == FreshSegments(r.t, k, r.pcs, r.enqSeg + 1 == r.segs)[i]
  {
    SegEnd(r);
  }

  /** A TRB of an old segment, where it is found in the grown ring. */
  lemma SlotKept(r: RingState, k: nat, s: nat, p: nat)
    requires r.Geometry() && r.enqSeg < r.segs && r.InSeg(s, p) && 0 < k
    ensures Moved(r, k, p) < |Splice(r, k).trbs|
    ensures IsLink(Splice(r, k).trbs[Moved(r, k, p)]) <==> p == Times(s, r.t) + r.t - 1
  {
    LinkInSeg(r, s, p);
    SplicedAt(r, k, p);
  }

  lemma SlotFresh(r: RingState, k: nat, j: nat, o: nat)
    requires r.Geometry() && r.enqSeg < r.segs && j < k && o < r.t
    ensures End(r) + Times(j, r.t) + o < |Splice(r, k).trbs|
    ensures IsLink(Splice(r, k).trbs[End(r) + Times(j, r.t) + o]) <==> o == r.t - 1
  {
    FreshLink(r.t, k, r.pcs, r.enqSeg + 1 == r.segs, j, o);
    FreshAt(r, k, Times(j, r.t) + o);
  }

  /** Which segment of the grown ring is which. */
  lemma SegmentOrigin(enqSeg: nat, t: nat, k: nat, s: nat)
    ensures s <= enqSeg ==> Times(s, t) + t <= Times(enqSeg, t) + t
    ensures enqSeg < s <= enqSeg + k ==> Times(s, t) == Times(enqSeg, t) + t + Times(s - enqSeg - 1, t)
    ensures enqSeg + k < s ==> Times(s, t) == Times(s - k, t) + Times(k, t) && Times(enqSeg, t) + t <= Times(s - k, t)
  {
    if s <= enqSeg {
      SegBound(s, enqSeg + 1, t);
    } else if s <= enqSeg + k {
      TimesAdd(enqSeg + 1, s - enqSeg - 1, t);
    } else {
      TimesAdd(s - k, k, t);
      SegOrder(enqSeg, s - k, t);
    }
  }

  lemma SplicedSlot(r: RingState, k: nat, s: nat, o: nat)
    requires r.Geometry() && r.enqSeg < r.segs && 0 < k && s < r.segs + k && o < r.t
    ensures Times(s, r.t) + o < |Splice(r, k).trbs|
    ensures IsLink(Splice(r, k).trbs[Times(s, r.t) + o]) <==> o == r.t - 1
  {
    if s <= r.enqSeg { SlotBefore(r, k, s, o); } else if s <= r.enqSeg + k { SlotWithin(r, k, s, o); } else { SlotBehind(r, k, s, o); }
  }

  lemma SlotBefore(r: RingState, k: nat, s: nat, o: nat)
    requires r.Geometry() && r.enqSeg < r.segs && 0 < k && s <= r.enqSeg && o < r.t
    ensures Times(s, r.t) + o < |Splice(r, k).trbs|
    ensures IsLink(Splice(r, k).trbs[Times(s, r.t) + o]) <==> o == r.t - 1
  {
    SegmentOrigin(r.enqSeg, r.t, k, s);
    SlotKept(r, k, s, Times(s, r.t) + o);
  }

  lemma SlotWithin(r: RingState, k: nat, s: nat, o: nat)
    requires r.Geometry() && r.enqSeg < r.segs && 0 < k && r.enqSeg < s <= r.enqSeg + k && o < r.t
    ensures Times(s, r.t) + o < |Splice(r, k).trbs|
    ensures IsLink(Splice(r, k).trbs[Times(s, r.t) + o]) <==> o == r.t - 1
  {
    SegmentOrigin(r.enqSeg, r.t, k, s);
    SlotFresh(r, k, s - r.enqSeg - 1, o);
  }

  lemma SlotBehind(r: RingState, k: nat, s: nat, o: nat)
    requires r.Geometry() && r.enqSeg < r.segs && 0 < k && r.enqSeg + k < s < r.segs + k && o < r.t
    ensures Times(s, r.t) + o < |Splice(r, k).trbs|
    ensures IsLink(Splice(r, k).trbs[Times(s, r.t) + o]) <==> o == r.t - 1
  {
    SegmentOrigin(r.enqSeg, r.t, k, s);
    SlotKept(r, k, s - k, Times(s - k, r.t) + o);
  }

  lemma SplicedSegment(r: RingState, k: nat, s: nat)
    requires r.Geometry() && r.enqSeg < r.segs && 0 < k && s < r.segs + k
    ensures EndsInLink(Splice(r, k).trbs, s, r.t)
  {
    var r', b := Splice(r, k), Times(s, r.t);
    SplicedSlot(r, k, s, r.t - 1);
    forall p | b <= p < b + r.t
      ensures IsLink(r'.trbs[p]) <==> p == b + r.t - 1
    {
      SplicedSlot(r, k, s, p - b);
    }
  }

  /** Of all links only the very last one toggles. */
  lemma SplicedToggle(r: RingState, k: nat, p: nat)
    requires r.Shape() && 0 < k && p < |Splice(r, k).trbs|
    ensures var r' := Splice(r, k);
            IsLink(r'.trbs[p]) ==> (r'.trbs[p].body.kind.toggle <==> p == |r'.trbs| - 1)
  {
    SegEnd(r);
    var x, m := End(r), Times(k, r.t);
    if p < x {
      SplicedAt(r, k, p);
    } else if p < x + m {
      FreshAt(r, k, p - x);
      FreshToggles(r.t, k, r.pcs, r.enqSeg + 1 == r.segs, p - x);
    } else {
      SplicedAt(r, k, p - m);
    }
  }

  lemma SpliceKeepsShape(r: RingState, k: nat)
    requires r.Shape()
    ensures Splice(r, k).Shape()
  {
    if k != 0 {
      var r' := Splice(r, k);
      forall s: nat | s < r'.segs
        ensures EndsInLink(r'.trbs, s, r'.t)
      {
        SplicedSegment(r, k, s);
      }
      forall p | 0 <= p < |r'.trbs| && IsLink(r'.trbs[p])
        ensures r'.trbs[p].body.kind.toggle <==> p == |r'.trbs| - 1
      {
        SplicedToggle(r, k, p);
      }
      SpliceSize(r, k);
    }
  }

  /** A position and its segment move together. */
  lemma MovedSeg(enqSeg: nat, t: nat, segs: nat, k: nat, s: nat, p: nat)
    requires s < segs && Times(s, t) <= p < Times(s, t) + t
    ensures var s' := if enqSeg < s then s + k else s;
            var p' := Shift(p, Times(enqSeg, t) + t, Times(k, t));
            s' < segs + k && Times(s', t) <= p' < Times(s', t) + t
    ensures enqSeg < s <==> Times(enqSeg, t) + t <= p
  {
    TimesAdd(s, k, t);
    if enqSeg < s { SegOrder(enqSeg, s, t); }
    if s < enqSeg { SegOrder(s, enqSeg, t); }
  }

  lemma SpliceSize(r: RingState, k: nat)
    requires r.Shape()
    ensures var r' := Splice(r, k);
            && |r'.trbs| == Times(r'.segs, r'.t)
            && r'.InSeg(r'.enqSeg, r'.enq)
            && r'.InSeg(r'.deqSeg, r'.deq)
            && r'.deq == Moved(r, k, r.deq)
  {
    SegEnd(r);
    TimesAdd(r.segs, k, r.t);
    MovedSeg(r.enqSeg, r.t, r.segs, k, r.deqSeg, r.deq);
    MovedSeg(r.enqSeg, r.t, r.segs, k, r.enqSeg, r.enq);
  }

  // ------------------------------------------------- how many segments to add

  /** xhci_ring_expansion_needed in closed form. */
  function ExpansionNeeded(r: RingState, n: nat): nat
    requires 2 <= r.t && r.enq < |r.trbs| && Times(r.enqSeg, r.t) <= r.enq
  {
    var past := (r.enq - Times(r.enqSeg, r.t)) + n - (r.t - 1);
    if past < 0 || StuckOnLink(r) then 0
    else
      var segments := 1 + past / (r.t - 1);
      if r.SegDist() <= segments then segments - r.SegDist() + 1 else 0
  }

  /** Enqueue rests on a link and dequeue is the first TRB of the next segment. */
  predicate StuckOnLink(r: RingState)
    requires r.enq < |r.trbs|
  {
    IsLink(r.trbs[r.enq]) && Times(r.NextSeg(r.enqSeg), r.t) == r.deq
  }

  lemma DivBound(a: nat, m: nat, d: nat)
    requires 0 < m
    ensures a / m < d <==> a < Times(d, m)
  {
    var q := a / m;
    TimesIsProduct(q, m);
    assert a == q * m + a % m;
    if q < d { SegOrder(q, d, m); }
    if d < q { SegOrder(d, q, m); }
  }

  lemma SegDistRange(r: RingState)
    requires r.enqSeg < r.segs && r.deqSeg < r.segs
    ensures 1 <= r.SegDist() <= r.segs
  {
  }

  /** No expansion is asked for exactly when more free slots than TRBs lie
      before the dequeue segment. */
  lemma NoExpansionMeansRoom(r: RingState, n: nat)
    requires r.Shape() && r.enq < |r.trbs| && !StuckOnLink(r)
    ensures ExpansionNeeded(r, n) == 0 <==> n < r.Room()
  {
    SegDistRange(r);
    var past := (r.enq - Times(r.enqSeg, r.t)) + n - (r.t - 1);
    if 0 <= past {
      DivBound(past, r.t - 1, r.SegDist() - 1);
    }
  }

  /** Each spliced segment adds t - 1 free slots and moves dequeue one segment off. */
  lemma SpliceRoom(r: RingState, k: nat)
    requires r.Shape()
    ensures Splice(r, k).SegDist() == r.SegDist() + k
    ensures Splice(r, k).Room() == r.Room() + Times(k, r.t - 1)
    ensures r.Room() <= Splice(r, k).Room()
  {
    SegDistRange(r);
    TimesAdd(r.SegDist() - 1, k, r.t - 1);
  }

  /** The answer is exact: after splicing that many segments no more are needed,
      and after splicing fewer, exactly the missing ones still are. */
  lemma ExpansionIsExact(r: RingState, n: nat, j: nat)
    requires r.Shape() && r.enq < |r.trbs|
    requires j <= ExpansionNeeded(r, n)
    ensures Splice(r, j).enq < |Splice(r, j).trbs|
    ensures ExpansionNeeded(Splice(r, j), n) == ExpansionNeeded(r, n) - j
  {
    var r' := Splice(r, j);
    SpliceRoom(r, j);
    SpliceKeepsShape(r, j);
    SplicedAt(r, j, r.enq);
    SegEnd(r);
    if 0 < j {
      assert r'.enq == Moved(r, j, r.enq);
      if StuckOnLink(r') {
        assert r'.NextSeg(r'.enqSeg) == r.enqSeg + 1;
        SameSegOf(r', r.enqSeg + 1);
      }
    }
  }

  /** A segment whose first TRB is dequeue is the dequeue segment. */
  lemma SameSegOf(r: RingState, s: nat)
    requires r.InSeg(r.deqSeg, r.deq) && Times(s, r.t) == r.deq && 0 < r.t
    ensures r.deqSeg == s
  {
    if s < r.deqSeg { SegOrder(s, r.deqSeg, r.t); }
    if r.deqSeg < s { SegOrder(r.deqSeg, s, r.t); }
  }
}
