/** The transfer and command rings of the xHCI driver as a value: the TRBs of
    all segments laid end to end in the order of the segments' `next` pointers,
    and the driver's own enqueue and dequeue positions.

    A pointer to a TRB is its position in that layout, so both ways of moving
    forward (the next TRB of the segment, the first TRB of the next segment)
    are "one position on, around the ring". */
module RingModel {

  datatype Kind =
    | Empty
    | Normal
    | Isoc
    | Noop
    | Command(op: nat)
    | Link(toggle: bool)

  /** What a TRB says, apart from who owns it. */
  datatype Body = Body(kind: Kind, addr: nat, len: nat, chain: bool, ioc: bool)

  datatype Trb = Trb(body: Body, cycle: bool)

  predicate IsLink(trb: Trb) {
    trb.body.kind.Link?
  }

  /** The position after `p` on a ring of `n` TRBs (next_trb). */
  function Next(p: nat, n: nat): (q: nat)
    requires p < n
    ensures q < n
  {
    if p + 1 == n then 0 else p + 1
  }

  /** How many steps forward lead from `a` to `b` on a ring of `n` TRBs. */
  function Dist(a: nat, b: nat, n: nat): (d: nat)
    requires a < n && b < n
    ensures d < n
    ensures d == 0 <==> a == b
  {
    if a <= b then b - a else b + n - a
  }

  /** `k` times `m`, as repeated addition: all that is needed of the product, and
      cheap to reason about. */
  function Times(k: nat, m: nat): nat {
    if k == 0 then 0 else Times(k - 1, m) + m
  }

  /** `t` is TRBS_PER_SEGMENT, `pcs` the producer cycle state, `quirk` the
      answer of xhci_link_chain_quirk for this ring. */
  datatype RingState = RingState(
    t: nat, segs: nat, quirk: bool, trbs: seq<Trb>,
    enqSeg: nat, enq: nat, pcs: bool, deqSeg: nat, deq: nat)
  {
    function Size(): nat { |trbs| }

    predicate InSeg(s: nat, p: nat) {
      s < segs && Times(s, t) <= p < Times(s, t) + t
    }

    /** Every segment ends in a link TRB, and only the last link toggles. */
    ghost predicate Geometry() {
      && 3 <= t
      && 1 <= segs
      && |trbs| == Times(segs, t)
      && (forall s: nat :: s < segs ==> EndsInLink(trbs, s, t))
      && (forall p :: 0 <= p < |trbs| && IsLink(trbs[p]) ==>
                        (trbs[p].body.kind.toggle <==> p == |trbs| - 1))
    }

    /** The shape every operation keeps. The enqueue position never overtakes
        the dequeue position inside a segment they share. */
    ghost predicate Shape() {
      && Geometry()
      && InSeg(enqSeg, enq)
      && InSeg(deqSeg, deq)
      && (deqSeg == enqSeg ==> deq <= enq)
    }

    function NextSeg(s: nat): nat {
      if s + 1 == segs then 0 else s + 1
    }

    /** How many segments the enqueue segment must advance to reach the
        dequeue segment: 1 for its successor, `segs` for itself. */
    function SegDist(): nat {
      if enqSeg < deqSeg then deqSeg - enqSeg
      else if deqSeg + segs >= enqSeg then deqSeg + segs - enqSeg
      else 0
    }

    /** Non-link slots from the enqueue position up to the dequeue segment. */
    function Room(): int {
      if 1 <= t && 1 <= SegDist() then (t - 1 - (enq - Times(enqSeg, t))) + Times(SegDist() - 1, t - 1) else 0
    }
  }

  /** The TRBs of segment `s` are there, and exactly the last is a link. */
  ghost predicate EndsInLink(trbs: seq<Trb>, s: nat, t: nat) {
    && Times(s, t) + t <= |trbs|
    && forall p :: Times(s, t) <= p < Times(s, t) + t ==> (IsLink(trbs[p]) <==> p == Times(s, t) + t - 1)
  }

  /** Within a segment only the last TRB is the link. */
  lemma LinkInSeg(r: RingState, s: nat, p: nat)
    requires r.Geometry() && r.InSeg(s, p)
    ensures p < r.Size() && Times(s, r.t) + r.t <= r.Size()
    ensures IsLink(r.trbs[p]) <==> p == Times(s, r.t) + r.t - 1
    ensures p == Times(s, r.t) + r.t - 1 ==> (p == r.Size() - 1 <==> s == r.segs - 1)
  {
    assert EndsInLink(r.trbs, s, r.t);
    SegBound(s, r.segs, r.t);
  }

  lemma {:induction false} TimesAdd(a: nat, b: nat, m: nat)
    ensures Times(a + b, m) == Times(a, m) + Times(b, m)
    decreases b
  {
    if b != 0 { TimesAdd(a, b - 1, m); }
  }

  lemma {:induction false} TimesIsProduct(k: nat, m: nat)
    ensures Times(k, m) == k * m
  {
    if k != 0 { TimesIsProduct(k - 1, m); }
  }

  lemma SegOrder(s: nat, s': nat, t: nat)
    requires s < s'
    ensures Times(s, t) + t <= Times(s', t)
  {
    TimesAdd(s + 1, s' - s - 1, t);
    assert Times(s + 1, t) == Times(s, t) + t;
  }

  lemma SegBound(s: nat, segs: nat, t: nat)
    requires s < segs
    ensures Times(s, t) + t <= Times(segs, t)
    ensures s + 1 < segs ==> Times(s, t) + t + t <= Times(segs, t)
    ensures s + 1 == segs ==> Times(s, t) + t == Times(segs, t)
  {
    SegOrder(s, segs, t);
    if s + 1 < segs { SegOrder(s + 1, segs, t); }
  }

  // ---------------------------------------------------------------- producer

  /** The TRB at the enqueue position, a link, is handed to the controller and
      enqueue moves to the next segment. */
  function CrossLink(r: RingState, chain: bool): RingState
    requires r.enq < |r.trbs| && IsLink(r.trbs[r.enq])
  {
    var l := r.trbs[r.enq];
    var s := r.NextSeg(r.enqSeg);
    r.(trbs := r.trbs[r.enq := Trb(l.body.(chain := chain), !l.cycle)],
       pcs := if l.body.kind.toggle then !r.pcs else r.pcs,
       enqSeg := s,
       enq := Times(s, r.t))
  }

  /** Moving on from the TRB just written (inc_enq). A following link is
      stepped over only if the TD goes on or more TRBs are coming. */
  function IncEnq(r: RingState, more: bool): RingState
    requires r.enq + 1 < |r.trbs|
  {
    var chain := r.trbs[r.enq].body.chain;
    var r1 := r.(enq := r.enq + 1);
    var l := r.trbs[r.enq + 1];
    if IsLink(l) && (chain || more) then
      CrossLink(r1, if r.quirk then l.body.chain else chain)
    else
      r1
  }

  /** Writing one TRB at the enqueue position with the given cycle bit (queue_trb). */
  function QueueTrb(r: RingState, body: Body, cycle: bool, more: bool): RingState
    requires r.enq + 1 < |r.trbs|
  {
    IncEnq(r.(trbs := r.trbs[r.enq := Trb(body, cycle)]), more)
  }

  /** Leaving a link the last TD stopped in front of (the loop of prepare_ring). */
  function LeaveLink(r: RingState): RingState
    requires r.enq < |r.trbs|
  {
    if IsLink(r.trbs[r.enq]) then CrossLink(r, r.quirk) else r
  }

  /** Setting the dequeue position after the TRB at `last` (inc_deq). */
  function IncDeq(r: RingState, lastSeg: nat, last: nat): RingState
    requires last + 1 < |r.trbs|
  {
    if IsLink(r.trbs[last + 1]) then
      var s := r.NextSeg(lastSeg);
      r.(deqSeg := s, deq := Times(s, r.t))
    else
      r.(deqSeg := lastSeg, deq := last + 1)
  }

  /** A TRB turned into a no-op: links are only unchained, the cycle bit stays (trb_to_noop). */
  function NoopOf(trb: Trb): Trb {
    if IsLink(trb) then trb.(body := trb.body.(chain := false))
    else trb.(body := Body(Noop, 0, 0, false, false))
  }

  /** The TRBs from `first` to `last` turned into no-ops; with `flip` the cycle
      bits strictly between them are inverted (td_to_noop). */
  function NoopTd(trbs: seq<Trb>, first: nat, last: nat, flip: bool): (s: seq<Trb>)
    requires first < |trbs| && last < |trbs|
    ensures |s| == |trbs|
    ensures forall p :: 0 <= p < |trbs| ==>
              && (s[p].cycle != trbs[p].cycle ==> flip && p != first && p != last)
              && (IsLink(s[p]) <==> IsLink(trbs[p]))
  {
    seq(|trbs|, p requires 0 <= p < |trbs| =>
      if Dist(first, p, |trbs|) <= Dist(first, last, |trbs|) then
        var x := NoopOf(trbs[p]);
        if flip && p != first && p != last then x.(cycle := !x.cycle) else x
      else trbs[p])
  }

  // ------------------------------------------------------- geometry is kept

  lemma SameKindsKeepGeometry(r: RingState, r': RingState)
    requires r.Geometry()
    requires r'.t == r.t && r'.segs == r.segs && |r'.trbs| == |r.trbs|
    requires forall p :: 0 <= p < |r.trbs| ==>
               (IsLink(r.trbs[p]) || IsLink(r'.trbs[p])) ==> r'.trbs[p].body.kind == r.trbs[p].body.kind
    ensures r'.Geometry()
  {
    forall s: nat | s < r'.segs
      ensures EndsInLink(r'.trbs, s, r'.t)
    {
      assert EndsInLink(r.trbs, s, r.t);
    }
  }

  /** Where a link crossing leads, position by position. */
  lemma CrossLinkFacts(r: RingState, chain: bool)
    requires r.Geometry() && r.InSeg(r.enqSeg, r.enq) && r.InSeg(r.deqSeg, r.deq)
    requires r.enq < r.Size() && IsLink(r.trbs[r.enq])
    ensures var c := CrossLink(r, chain);
            && c.Geometry()
            && c.InSeg(c.enqSeg, c.enq)
            && c.enq == Next(r.enq, r.Size())
            && (c.pcs != r.pcs <==> r.enq == r.Size() - 1)
            && !IsLink(c.trbs[c.enq])
  {
    var c := CrossLink(r, chain);
    SameKindsKeepGeometry(r, c);
    LinkInSeg(r, r.enqSeg, r.enq);
    SegBound(r.enqSeg, r.segs, r.t);
    SegBound(c.enqSeg, c.segs, c.t);
    LinkInSeg(c, c.enqSeg, c.enq);
  }
}
