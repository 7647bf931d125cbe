/** The driver and the host controller sharing one ring. The controller sees
    nothing but cycle bits; the driver publishes a whole transfer descriptor by
    flipping one of them. */
module RingFifo {
  import opened RingModel
  import opened RingExpansion

  /** `hw` and `ccs` are the controller's dequeue position and consumer cycle
      state. While `open`, TRBs from `start` on are being written and the one
      at `start` is withheld. `published` and `consumed` are histories. */
  datatype Sys = Sys(
    r: RingState, hw: nat, ccs: bool,
    open: bool, startSeg: nat, start: nat, startCycle: bool,
    published: seq<Body>, consumed: seq<Body>)
  {
    /** The first TRB not yet published. */
    function First(): nat { if open then start else r.enq }

    /** The controller rests on a link that the driver's dequeue has passed. */
    predicate Lag() {
      && hw < |r.trbs| && r.deq < |r.trbs|
      && IsLink(r.trbs[hw]) && r.deq == Next(hw, |r.trbs|)
    }
  }

  /** The TRBs other than links met when walking from `a` up to `b`. */
  function Window(trbs: seq<Trb>, a: nat, b: nat): seq<Body>
    requires a < |trbs| && b < |trbs|
    decreases Dist(a, b, |trbs|)
  {
    if a == b then []
    else
      (if IsLink(trbs[a]) then [] else [trbs[a].body]) + Window(trbs, Next(a, |trbs|), b)
  }

  /** What the controller would execute if the driver did nothing more: it takes
      TRBs while their cycle bit equals its own cycle state, which it toggles at
      a toggling link. `fuel` bounds the walk. */
  function Visible(trbs: seq<Trb>, at: nat, ccs: bool, fuel: nat): seq<Body>
    requires at < |trbs|
    decreases fuel
  {
    if fuel == 0 || trbs[at].cycle != ccs then []
    else if IsLink(trbs[at]) then
      Visible(trbs, Next(at, |trbs|), if trbs[at].body.kind.toggle then !ccs else ccs, fuel - 1)
    else
      [trbs[at].body] + Visible(trbs, Next(at, |trbs|), ccs, fuel - 1)
  }

  /** The cycle bit of position `p` when nothing is withheld. */
  predicate RestBit(r: RingState, p: nat) {
    if p < r.enq then r.pcs else !r.pcs
  }

  ghost predicate Bits(y: Sys) {
    forall p :: 0 <= p < |y.r.trbs| ==>
      (y.r.trbs[p].cycle <==> (RestBit(y.r, p) != (y.open && p == y.start)))
  }

  /** The dequeue position trails the controller, which trails the driver. */
  ghost predicate Order(y: Sys) {
    && y.hw < |y.r.trbs| && y.r.enq < |y.r.trbs| && y.First() < |y.r.trbs| && y.r.deq < |y.r.trbs|
    && Dist(y.hw, y.First(), |y.r.trbs|) <= Dist(y.hw, y.r.enq, |y.r.trbs|)
    && (y.Lag() || Dist(y.r.deq, y.hw, |y.r.trbs|) <= Dist(y.r.deq, y.r.enq, |y.r.trbs|))
  }

  /** There is a free slot before the dequeue segment, except when the ring is
      empty and enqueue was left on a link that dequeue has already passed. */
  ghost predicate Spare(y: Sys) {
    || 1 <= y.r.Room()
    || (y.r.enq < |y.r.trbs| && IsLink(y.r.trbs[y.r.enq]) && y.r.deq == Next(y.r.enq, |y.r.trbs|) && y.hw == y.r.enq)
  }

  /** A TD being written began at a TRB of its own, with the cycle state of then. */
  ghost predicate OpenOk(y: Sys) {
    y.open ==>
      && y.r.InSeg(y.startSeg, y.start) && y.start < |y.r.trbs|
      && y.start != y.r.enq && !IsLink(y.r.trbs[y.start])
      && (y.startCycle <==> (if y.start <= y.r.enq then y.r.pcs else !y.r.pcs))
  }

  /** The controller's cycle state is the driver's, unless it is one lap behind. */
  predicate CcsOk(y: Sys) {
    y.ccs <==> (if y.hw <= y.r.enq then y.r.pcs else !y.r.pcs)
  }

  ghost predicate History(y: Sys)
    requires y.hw < |y.r.trbs| && y.First() < |y.r.trbs|
  {
    y.published == y.consumed + Window(y.r.trbs, y.hw, y.First())
  }

  ghost predicate Inv(y: Sys) {
    && y.r.Shape()
    && y.r.enq < y.r.Size() && y.r.deq < y.r.Size()
    && OpenOk(y)
    && Bits(y)
    && Order(y)
    && Spare(y)
    && CcsOk(y)
    && History(y)
  }

  // ------------------------------------------------------- facts about windows

  /** A window depends only on the TRBs inside it. */
  lemma {:induction false} WindowFrame(s: seq<Trb>, s': seq<Trb>, a: nat, b: nat)
    requires a < |s| == |s'| && b < |s|
    requires forall p :: 0 <= p < |s| && Dist(a, p, |s|) < Dist(a, b, |s|) ==> s[p].body == s'[p].body
    ensures Window(s, a, b) == Window(s', a, b)
    decreases Dist(a, b, |s|)
  {
    if a != b {
      assert Dist(a, a, |s|) == 0;
      var a' := Next(a, |s|);
      forall p | 0 <= p < |s| && Dist(a', p, |s|) < Dist(a', b, |s|)
        ensures s[p].body == s'[p].body
      {
        assert Dist(a, p, |s|) < Dist(a, b, |s|);
      }
      WindowFrame(s, s', a', b);
    }
  }

  lemma {:induction false} WindowAppend(s: seq<Trb>, a: nat, b: nat)
    requires a < |s| && b < |s| && Next(b, |s|) != a
    ensures Window(s, a, Next(b, |s|)) ==
            Window(s, a, b) + (if IsLink(s[b]) then [] else [s[b].body])
    decreases Dist(a, b, |s|)
  {
    if a == b {
      assert Window(s, Next(a, |s|), Next(a, |s|)) == [];
    } else {
      WindowAppend(s, Next(a, |s|), b);
    }
  }

  lemma {:induction false} WindowSplit(s: seq<Trb>, a: nat, b: nat, c: nat)
    requires a < |s| && b < |s| && c < |s|
    requires Dist(a, b, |s|) <= Dist(a, c, |s|)
    ensures Window(s, a, c) == Window(s, a, b) + Window(s, b, c)
    decreases Dist(a, b, |s|)
  {
    if a == b {
      assert Window(s, a, b) == [];
    } else {
      var a' := Next(a, |s|);
      var head := if IsLink(s[a]) then [] else [s[a].body];
      WindowSplit(s, a', b, c);
      assert head + (Window(s, a', b) + Window(s, b, c)) == (head + Window(s, a', b)) + Window(s, b, c);
    }
  }

  // --------------------------------------------------- what the controller sees

  lemma {:induction false} VisibleWalk(y: Sys, at: nat, c: bool, fuel: nat)
    requires Inv(y) && at < y.r.Size()
    requires Dist(y.hw, at, y.r.Size()) <= Dist(y.hw, y.First(), y.r.Size())
    requires c <==> (if at <= y.r.enq then y.r.pcs else !y.r.pcs)
    requires Dist(at, y.First(), y.r.Size()) < fuel
    ensures Visible(y.r.trbs, at, c, fuel) == Window(y.r.trbs, at, y.First())
    decreases fuel
  {
    var n := y.r.Size();
    if at == y.First() {
      assert y.r.trbs[at].cycle != c;
    } else {
      assert at != y.r.enq;
      assert y.r.trbs[at].cycle == c;
      var c' := if IsLink(y.r.trbs[at]) && y.r.trbs[at].body.kind.toggle then !c else c;
      LastIsLink(y.r);
      VisibleWalk(y, Next(at, n), c', fuel - 1);
    }
  }

  lemma LastIsLink(r: RingState)
    requires r.Geometry()
    ensures 0 < |r.trbs| && IsLink(r.trbs[|r.trbs| - 1])
  {
    LinkInSeg(r, r.segs - 1, |r.trbs| - 1);
  }

  /** At every moment the controller's view of the ring is the published TRBs it
      has not taken yet: nothing of a TD still being written, and all of what
      was published. */
  lemma ControllerSeesPublished(y: Sys)
    requires Inv(y)
    ensures y.published == y.consumed + Visible(y.r.trbs, y.hw, y.ccs, y.r.Size())
  {
    VisibleWalk(y, y.hw, y.ccs, y.r.Size());
  }

  // ------------------------------------------------------------- driver steps

  predicate Data(body: Body) {
    !body.kind.Link?
  }

  /** Storing a TRB at the enqueue position; the first one of a TD is withheld. */
  function Put(y: Sys, body: Body): Sys
    requires y.r.enq < |y.r.trbs|
  {
    var r := y.r;
    y.(r := r.(trbs := r.trbs[r.enq := Trb(body, if y.open then r.pcs else !r.pcs)], enq := r.enq + 1),
       open := true,
       startSeg := if y.open then y.startSeg else r.enqSeg,
       start := if y.open then y.start else r.enq,
       startCycle := if y.open then y.startCycle else r.pcs)
  }

  function Cross(y: Sys, chain: bool): Sys
    requires y.r.enq < |y.r.trbs| && IsLink(y.r.trbs[y.r.enq])
  {
    y.(r := CrossLink(y.r, chain))
  }

  lemma PutKeepsShape(y: Sys, body: Body)
    requires Inv(y) && Data(body) && !IsLink(y.r.trbs[y.r.enq])
    ensures Put(y, body).r.Shape() && y.r.enq + 1 < y.r.Size()
  {
    var r, r' := y.r, Put(y, body).r;
    LinkInSeg(r, r.enqSeg, r.enq);
    SegBound(r.enqSeg, r.segs, r.t);
    SameKindsKeepGeometry(r, r');
  }

  lemma PutKeepsBits(y: Sys, body: Body)
    requires y.r.enq + 1 < |y.r.trbs| && Bits(y)
    requires y.open ==> y.start != y.r.enq
    ensures Bits(Put(y, body))
  {
  }

  /** Enqueue moves one position on, onto neither the controller nor dequeue. */
  lemma AdvanceKeepsOrder(hw: nat, first: nat, deq: nat, enq: nat, n: nat, lag: bool)
    requires hw < n && first < n && deq < n && enq < n
    requires Dist(hw, first, n) <= Dist(hw, enq, n)
    requires lag || Dist(deq, hw, n) <= Dist(deq, enq, n)
    requires Next(enq, n) != hw && (lag || Next(enq, n) != deq)
    ensures Dist(hw, first, n) <= Dist(hw, Next(enq, n), n)
    ensures lag || Dist(deq, hw, n) <= Dist(deq, Next(enq, n), n)
  {
  }

  /** Behind the controller and short of dequeue there is no controller. */
  lemma NotOntoController(hw: nat, deq: nat, enq: nat, n: nat)
    requires hw < n && deq < n && enq < n && 1 < n
    requires Dist(deq, hw, n) <= Dist(deq, enq, n) && Next(enq, n) != deq
    ensures Next(enq, n) != hw
  {
  }

  lemma PutKeepsOrder(y: Sys, body: Body)
    requires Inv(y) && Data(body) && !IsLink(y.r.trbs[y.r.enq])
    requires 2 <= y.r.Room()
    ensures y.r.enq + 1 < y.r.Size() && Order(Put(y, body)) && y.hw != y.r.enq + 1
  {
    var r, n := y.r, y.r.Size();
    PutKeepsShape(y, body);
    NotOntoDequeue(r);
    if y.Lag() {
      if r.enq + 1 == y.hw { LagMeansNoRoom(y); }
    } else {
      NotOntoController(y.hw, r.deq, r.enq, n);
    }
    AdvanceKeepsOrder(y.hw, y.First(), r.deq, r.enq, n, y.Lag());
  }

  lemma NotOntoDequeue(r: RingState)
    requires r.Shape() && r.enq + 1 < r.Size() && !IsLink(r.trbs[r.enq])
    ensures r.enq + 1 != r.deq
  {
    LinkInSeg(r, r.enqSeg, r.enq);
    if r.enq + 1 == r.deq {
      SameSeg(r, r.enqSeg, r.deqSeg, r.deq);
    }
  }

  lemma PutKeepsInv(y: Sys, body: Body)
    requires Inv(y) && Data(body) && !IsLink(y.r.trbs[y.r.enq])
    requires 2 <= y.r.Room()
    ensures Inv(Put(y, body))
  {
    var y' := Put(y, body);
    PutKeepsShape(y, body);
    PutKeepsBits(y, body);
    PutKeepsOrder(y, body);
    assert y'.r.Room() == y.r.Room() - 1;
    WindowFrame(y.r.trbs, y'.r.trbs, y.hw, y.First());
  }

  /** If the controller lags on the link just ahead, the segment is the last one
      before the dequeue segment. */
  lemma LagMeansNoRoom(y: Sys)
    requires y.r.Shape() && y.hw < y.r.Size() && y.r.enq < y.r.Size() && y.Lag() && y.r.enq + 1 == y.hw
    requires !IsLink(y.r.trbs[y.r.enq])
    ensures y.r.Room() <= 1
  {
    var r := y.r;
    LinkInSeg(r, r.enqSeg, r.enq);
    LinkInSeg(r, r.enqSeg, y.hw);
    NextOfLink(r, r.enqSeg, y.hw);
    SameSeg(r, r.NextSeg(r.enqSeg), r.deqSeg, r.deq);
    assert r.SegDist() == 1;
  }

  /** After the link of segment `s` comes the first TRB of the next segment. */
  lemma NextOfLink(r: RingState, s: nat, p: nat)
    requires r.Geometry() && r.InSeg(s, p) && p < r.Size() && IsLink(r.trbs[p])
    ensures Next(p, r.Size()) == Times(r.NextSeg(s), r.t)
    ensures r.InSeg(r.NextSeg(s), Next(p, r.Size()))
  {
    LinkInSeg(r, s, p);
    SegBound(s, r.segs, r.t);
    assert Times(s + 1, r.t) == Times(s, r.t) + r.t;
    SegBound(r.NextSeg(s), r.segs, r.t);
  }

  lemma SameSeg(r: RingState, s: nat, s': nat, p: nat)
    requires r.InSeg(s, p) && r.InSeg(s', p)
    ensures s == s'
  {
    if s < s' { SegOrder(s, s', r.t); }
    if s' < s { SegOrder(s', s, r.t); }
  }

  /** Where the segment of the enqueue position stands after a link crossing. */
  lemma CrossSegment(r: RingState, chain: bool)
    requires r.Shape() && r.enq < r.Size() && IsLink(r.trbs[r.enq])
    ensures var r' := CrossLink(r, chain);
            && r.enq - Times(r.enqSeg, r.t) == r.t - 1
            && 1 <= r.SegDist() <= r.segs && 1 <= r'.SegDist()
            && r.Room() == Times(r.SegDist() - 1, r.t - 1)
            && r'.Room() == (r.t - 1) + Times(r'.SegDist() - 1, r.t - 1)
            && (r'.enqSeg == r.deqSeg <==> r.SegDist() == 1)
            && r'.SegDist() == if r.SegDist() == 1 then r.segs else r.SegDist() - 1
  {
    LinkInSeg(r, r.enqSeg, r.enq);
  }

  /** Stepping over a link never enters the dequeue segment, unless the ring is empty. */
  lemma CrossRoom(r: RingState, chain: bool)
    requires r.Shape() && r.enq < r.Size() && IsLink(r.trbs[r.enq])
    requires 1 <= r.Room() || r.deq == Next(r.enq, r.Size())
    ensures var r' := CrossLink(r, chain);
            && r'.Shape() && r'.enq < r'.Size()
            && (1 <= r.Room() ==> r'.enqSeg != r.deqSeg && r'.Room() == r.Room())
            && (r.Room() < 1 ==> r'.enq == r.deq && r'.Room() == Times(r.segs, r.t - 1))
            && 1 <= r'.Room()
  {
    var r' := CrossLink(r, chain);
    CrossLinkFacts(r, chain);
    NextOfLink(r, r.enqSeg, r.enq);
    CrossSegment(r, chain);
    if r.Room() < 1 {
      SameSeg(r', r'.enqSeg, r.deqSeg, r.deq);
    }
  }

  lemma NextOutsideSeg(r: RingState, s: nat)
    requires r.Shape() && s < r.segs && s != r.deqSeg
    ensures r.deq != Times(s, r.t)
  {
    if r.deq == Times(s, r.t) { SameSeg(r, s, r.deqSeg, r.deq); }
  }

  lemma CrossKeepsOrder(y: Sys, chain: bool)
    requires Inv(y) && IsLink(y.r.trbs[y.r.enq])
    ensures y.hw != Next(y.r.enq, y.r.Size()) && Cross(y, chain).r.enq < y.r.Size() && Order(Cross(y, chain))
  {
    var y' := Cross(y, chain);
    var r, r', n := y.r, y'.r, y.r.Size();
    CrossLinkFacts(r, chain);
    CrossRoom(r, chain);
    assert y'.Lag() <==> y.Lag();
    assert r'.enq == Next(r.enq, n);
    assert y'.First() == if y.open then y.start else r'.enq;
    if r.Room() < 1 {
      assert y.hw == r.enq && y.Lag();
    } else {
      NextOutsideSeg(r, r'.enqSeg);
      if y.Lag() {
        assert !IsLink(r'.trbs[r'.enq]);
      } else {
        NotOntoController(y.hw, r.deq, r.enq, n);
      }
      AdvanceKeepsOrder(y.hw, y.First(), r.deq, r.enq, n, y.Lag());
    }
  }

  lemma CrossKeepsBits(y: Sys, chain: bool)
    requires y.r.enq < |y.r.trbs| && IsLink(y.r.trbs[y.r.enq]) && Bits(y)
    requires y.open ==> y.start != y.r.enq
    requires CrossLink(y.r, chain).enq == Next(y.r.enq, |y.r.trbs|)
    requires CrossLink(y.r, chain).pcs != y.r.pcs <==> y.r.enq == |y.r.trbs| - 1
    ensures Bits(Cross(y, chain))
  {
  }

  lemma CrossKeepsHistory(y: Sys, chain: bool)
    requires Inv(y) && IsLink(y.r.trbs[y.r.enq])
    requires Cross(y, chain).r.enq == Next(y.r.enq, y.r.Size()) && y.hw != Next(y.r.enq, y.r.Size())
    ensures History(Cross(y, chain))
  {
    var y' := Cross(y, chain);
    WindowFrame(y.r.trbs, y'.r.trbs, y.hw, y.First());
    if !y.open {
      WindowAppend(y'.r.trbs, y.hw, y.r.enq);
    }
  }

  lemma CrossKeepsOpen(y: Sys, chain: bool)
    requires Inv(y) && IsLink(y.r.trbs[y.r.enq])
    requires Cross(y, chain).r.enq == Next(y.r.enq, y.r.Size()) && y.hw != Next(y.r.enq, y.r.Size())
    requires Cross(y, chain).r.pcs != y.r.pcs <==> y.r.enq == y.r.Size() - 1
    ensures OpenOk(Cross(y, chain)) && CcsOk(Cross(y, chain))
  {
    if y.open { NotBackToStart(y.hw, y.start, y.r.enq, y.r.Size()); }
  }

  lemma NotBackToStart(hw: nat, start: nat, enq: nat, n: nat)
    requires hw < n && start < n && enq < n && start != enq
    requires Dist(hw, start, n) <= Dist(hw, enq, n) && hw != Next(enq, n)
    ensures Next(enq, n) != start
  {
  }

  lemma CrossKeepsInv(y: Sys, chain: bool)
    requires Inv(y) && IsLink(y.r.trbs[y.r.enq])
    ensures Inv(Cross(y, chain))
  {
    CrossLinkFacts(y.r, chain);
    CrossRoom(y.r, chain);
    CrossKeepsBits(y, chain);
    CrossKeepsOrder(y, chain);
    CrossKeepsOpen(y, chain);
    CrossKeepsHistory(y, chain);
  }

  // ------------------------------------------------------------ growing the ring

  /** The controller rests on the link just ahead of enqueue. Segments spliced in
      behind that link would be the next thing it reads. */
  predicate LinkAhead(y: Sys) {
    y.r.enq < y.hw < End(y.r)
  }

  function Grow(y: Sys, k: nat): Sys
    requires y.r.Geometry() && y.r.enqSeg < y.r.segs
  {
    y.(r := Splice(y.r, k),
       hw := Moved(y.r, k, y.hw),
       startSeg := if y.open && y.r.enqSeg < y.startSeg then y.startSeg + k else y.startSeg,
       start := if y.open then Moved(y.r, k, y.start) else y.start)
  }

  /** A walk that does not pass enqueue is not disturbed by inserting behind it. */
  lemma {:induction false} WindowInsert(trbs: seq<Trb>, x: nat, added: seq<Trb>, enq: nat, a: nat, b: nat)
    requires enq < x <= |trbs| && a < |trbs| && b < |trbs|
    requires Dist(a, b, |trbs|) <= Dist(a, enq, |trbs|)
    requires !(enq < a < x) && !(enq < b < x)
    ensures Window(InsertAt(trbs, x, added), Shift(a, x, |added|), Shift(b, x, |added|)) == Window(trbs, a, b)
    decreases Dist(a, b, |trbs|)
  {
    if a != b {
      var trbs' := InsertAt(trbs, x, added);
      assert trbs'[Shift(a, x, |added|)] == trbs[a];
      WindowInsert(trbs, x, added, enq, Next(a, |trbs|), b);
    }
  }

  /** Where an inserted TRB belongs to the driver, all cycle bits stay right. */
  lemma InsertKeepsBits(r: RingState, x: nat, added: seq<Trb>, p: nat, open: bool, start: nat)
    requires r.enq < x <= |r.trbs|
    requires forall q :: 0 <= q < |r.trbs| ==> (r.trbs[q].cycle <==> (RestBit(r, q) != (open && q == start)))
    requires forall q :: 0 <= q < |added| ==> added[q].cycle != r.pcs
    requires open ==> start < |r.trbs|
    requires p < |InsertAt(r.trbs, x, added)|
    ensures InsertAt(r.trbs, x, added)[p].cycle <==>
            (RestBit(r, p) != (open && p == Shift(start, x, |added|)))
  {
    if p < x {
    } else if p < x + |added| {
      assert InsertAt(r.trbs, x, added)[p] == added[p - x];
    } else {
      assert InsertAt(r.trbs, x, added)[p] == r.trbs[p - |added|];
    }
  }

  lemma GrowKeepsBits(y: Sys, k: nat)
    requires Inv(y)
    ensures Bits(Grow(y, k))
  {
    if k != 0 {
      var y' := Grow(y, k);
      SegEnd(y.r);
      var added := FreshSegments(y.r.t, k, y.r.pcs, y.r.enqSeg + 1 == y.r.segs);
      forall p | 0 <= p < |y'.r.trbs|
        ensures y'.r.trbs[p].cycle <==> (RestBit(y'.r, p) != (y'.open && p == y'.start))
      {
        InsertKeepsBits(y.r, End(y.r), added, p, y.open, y.start);
      }
    }
  }

  /** Walking order is not disturbed either. */
  lemma ShiftKeepsDist(a: nat, b: nat, c: nat, enq: nat, x: nat, m: nat, n: nat)
    requires enq < x <= n && a < n && b < n && c < n
    requires !(enq < a < x) && !(enq < b < x) && !(enq < c < x)
    requires Dist(a, b, n) <= Dist(a, c, n)
    ensures Dist(Shift(a, x, m), Shift(b, x, m), n + m) <= Dist(Shift(a, x, m), Shift(c, x, m), n + m)
  {
  }

  /** Nothing but a lagging controller can be ahead of enqueue in its segment. */
  lemma NoneAhead(y: Sys)
    requires Inv(y) && !LinkAhead(y)
    ensures !(y.r.enq < y.r.deq < End(y.r))
    ensures !(y.r.enq < y.First() < End(y.r))
  {
    if y.r.enq < y.r.deq < End(y.r) {
      SameSeg(y.r, y.r.enqSeg, y.r.deqSeg, y.r.deq);
    }
    SegEnd(y.r);
    NoneBetween(y.hw, y.First(), y.r.enq, End(y.r), y.r.Size());
  }

  lemma NoneBetween(hw: nat, first: nat, enq: nat, x: nat, n: nat)
    requires hw < n && first < n && enq < x <= n
    requires Dist(hw, first, n) <= Dist(hw, enq, n) && !(enq < hw < x)
    ensures !(enq < first < x)
  {
  }

  lemma GrowFacts(y: Sys, k: nat)
    requires Inv(y)
    ensures var y' := Grow(y, k);
            && y'.r.Size() == y.r.Size() + Times(k, y.r.t)
            && End(y.r) <= y.r.Size()
            && y'.hw == Shift(y.hw, End(y.r), Times(k, y.r.t))
            && y'.r.deq == Shift(y.r.deq, End(y.r), Times(k, y.r.t))
            && y'.r.enq == Shift(y.r.enq, End(y.r), Times(k, y.r.t))
            && y'.First() == Shift(y.First(), End(y.r), Times(k, y.r.t))
            && y'.r.Shape()
  {
    SegEnd(y.r);
    SpliceSize(y.r, k);
    SpliceKeepsShape(y.r, k);
    SplicedAt(y.r, k, y.r.enq);
  }

  /** With room left, dequeue is not the TRB after a link enqueue rests on. */
  lemma RoomMeansNotStuck(r: RingState)
    requires r.Shape() && r.enq < r.Size() && IsLink(r.trbs[r.enq]) && 1 <= r.Room()
    ensures r.deq != Next(r.enq, r.Size())
  {
    if r.deq == Next(r.enq, r.Size()) {
      CrossSegment(r, false);
      NextOfLink(r, r.enqSeg, r.enq);
      SameSeg(r, r.NextSeg(r.enqSeg), r.deqSeg, r.deq);
    }
  }

  /** A controller lagging behind dequeue, not on the link ahead of enqueue, keeps
      lagging in the grown ring. */
  lemma LagMoves(y: Sys, k: nat)
    requires Inv(y) && !LinkAhead(y) && y.Lag() && 1 <= y.r.Room()
    ensures Grow(y, k).Lag()
  {
    GrowFacts(y, k);
    SplicedAt(y.r, k, y.hw);
    if y.hw == y.r.enq { RoomMeansNotStuck(y.r); }
    ShiftKeepsNext(y.hw, y.r.enq, End(y.r), Times(k, y.r.t), y.r.Size());
  }

  lemma ShiftKeepsNext(a: nat, enq: nat, x: nat, m: nat, n: nat)
    requires a < n && enq < x <= n && !(enq <= a < x)
    ensures Shift(a, x, m) < n + m
    ensures Next(Shift(a, x, m), n + m) == Shift(Next(a, n), x, m)
  {
  }

  lemma GrowKeepsOrder(y: Sys, k: nat)
    requires Inv(y) && !LinkAhead(y) && 1 <= y.r.Room()
    ensures Order(Grow(y, k))
  {
    if y.Lag() { GrowKeepsLagging(y, k); } else { GrowKeepsFollowing(y, k); }
  }

  lemma GrowKeepsLagging(y: Sys, k: nat)
    requires Inv(y) && !LinkAhead(y) && 1 <= y.r.Room() && y.Lag()
    ensures Order(Grow(y, k))
  {
    GrowFacts(y, k);
    NoneAhead(y);
    ShiftKeepsDist(y.hw, y.First(), y.r.enq, y.r.enq, End(y.r), Times(k, y.r.t), y.r.Size());
    LagMoves(y, k);
  }

  lemma GrowKeepsFollowing(y: Sys, k: nat)
    requires Inv(y) && !LinkAhead(y) && 1 <= y.r.Room() && !y.Lag()
    ensures Order(Grow(y, k))
  {
    GrowFacts(y, k);
    NoneAhead(y);
    ShiftedOrder(y.hw, y.First(), y.r.deq, y.r.enq, End(y.r), Times(k, y.r.t), y.r.Size());
  }

  lemma ShiftedOrder(hw: nat, first: nat, deq: nat, enq: nat, x: nat, m: nat, n: nat)
    requires enq < x <= n && hw < n && first < n && deq < n
    requires !(enq < hw < x) && !(enq < first < x) && !(enq < deq < x)
    requires Dist(hw, first, n) <= Dist(hw, enq, n) && Dist(deq, hw, n) <= Dist(deq, enq, n)
    ensures Shift(hw, x, m) < n + m && Shift(first, x, m) < n + m && Shift(deq, x, m) < n + m && Shift(enq, x, m) < n + m
    ensures Dist(Shift(hw, x, m), Shift(first, x, m), n + m) <= Dist(Shift(hw, x, m), Shift(enq, x, m), n + m)
    ensures Dist(Shift(deq, x, m), Shift(hw, x, m), n + m) <= Dist(Shift(deq, x, m), Shift(enq, x, m), n + m)
  {
    ShiftKeepsDist(hw, first, enq, enq, x, m, n);
    ShiftKeepsDist(deq, hw, enq, enq, x, m, n);
  }

  lemma GrownStart(y: Sys, k: nat)
    requires y.r.Shape() && y.open && y.r.InSeg(y.startSeg, y.start)
    requires y.start + 1 < y.r.Size() && !IsLink(y.r.trbs[y.start])
    ensures var y' := Grow(y, k);
            && y'.r.InSeg(y'.startSeg, y'.start) && y'.start < y'.r.Size()
            && !IsLink(y'.r.trbs[y'.start])
  {
    SplicedAt(y.r, k, y.start);
    MovedSeg(y.r.enqSeg, y.r.t, y.r.segs, k, y.startSeg, y.start);
  }

  lemma GrowKeepsOpen(y: Sys, k: nat)
    requires Inv(y) && !LinkAhead(y)
    ensures OpenOk(Grow(y, k)) && CcsOk(Grow(y, k))
  {
    SegEnd(y.r);
    if y.open {
      LastIsLink(y.r);
      GrownStart(y, k);
    }
  }

  lemma GrowKeepsWindow(y: Sys, k: nat)
    requires Inv(y) && !LinkAhead(y)
    ensures var y' := Grow(y, k);
            && y'.hw < y'.r.Size() && y'.First() < y'.r.Size()
            && Window(y'.r.trbs, y'.hw, y'.First()) == Window(y.r.trbs, y.hw, y.First())
  {
    if k == 0 { assert Grow(y, 0).r == y.r; } else { GrownWindow(y, k); }
  }

  lemma GrownWindow(y: Sys, k: nat)
    requires Inv(y) && !LinkAhead(y) && k != 0
    ensures var y' := Grow(y, k);
            && y'.hw < y'.r.Size() && y'.First() < y'.r.Size()
            && Window(y'.r.trbs, y'.hw, y'.First()) == Window(y.r.trbs, y.hw, y.First())
  {
    SegEnd(y.r);
    NoneAhead(y);
    SplicedAt(y.r, k, y.hw);
    SplicedAt(y.r, k, y.First());
    WindowInsert(y.r.trbs, End(y.r), FreshSegments(y.r.t, k, y.r.pcs, y.r.enqSeg + 1 == y.r.segs),
                 y.r.enq, y.hw, y.First());
  }

  lemma GrowKeepsInv(y: Sys, k: nat)
    requires Inv(y) && !LinkAhead(y) && 1 <= y.r.Room()
    ensures Inv(Grow(y, k))
  {
    GrowKeepsBits(y, k);
    GrowKeepsOrder(y, k);
    GrowKeepsWindow(y, k);
    SpliceRoom(y.r, k);
    SpliceKeepsShape(y.r, k);
    GrowKeepsOpen(y, k);
  }

  /** Growing while the controller rests on the link ahead of enqueue hands it
      the first fresh TRB, which no driver step ever wrote. */
  lemma GrowUnderLaggingController(y: Sys, k: nat)
    requires Inv(y) && LinkAhead(y) && 0 < k
    ensures var y' := Grow(y, k);
            && y'.hw < y'.r.Size()
            && var seen := Visible(y'.r.trbs, y'.hw, y'.ccs, y'.r.Size());
               seen != [] && seen[0].kind == Empty
  {
    var y' := Grow(y, k);
    OnlyLagAhead(y);
    LinkAheadIsLast(y);
    SplicedAt(y.r, k, y.hw);
    FirstFresh(y.r, k);
    FreshAt(y.r, k, 0);
    assert y'.hw == y.hw && y'.hw + 1 == End(y.r);
    assert y'.r.trbs[y'.hw].cycle == y'.ccs;
    assert Next(y'.hw, y'.r.Size()) == End(y.r);
    assert !y'.r.trbs[y'.hw].body.kind.toggle;
    StepsThroughLink(y'.r.trbs, y'.hw, y'.ccs, y'.r.Size());
  }

  lemma StepsThroughLink(trbs: seq<Trb>, at: nat, ccs: bool, fuel: nat)
    requires at + 1 < |trbs| && 2 <= fuel
    requires IsLink(trbs[at]) && !trbs[at].body.kind.toggle && trbs[at].cycle == ccs
    requires !IsLink(trbs[at + 1]) && trbs[at + 1].cycle == ccs
    ensures Visible(trbs, at, ccs, fuel) != [] && Visible(trbs, at, ccs, fuel)[0] == trbs[at + 1].body
  {
  }

  lemma LinkAheadIsLast(y: Sys)
    requires Inv(y) && LinkAhead(y) && y.Lag()
    ensures y.hw + 1 == End(y.r)
  {
    SegEnd(y.r);
    LinkInSeg(y.r, y.r.enqSeg, y.hw);
  }

  /** What the driver itself can tell: unless its dequeue is the very TRB after the link ahead
      of enqueue, the controller is not on that link. */
  lemma DequeueElsewhere(y: Sys)
    requires Inv(y) && 0 < End(y.r) <= y.r.Size() && y.r.deq != Next(End(y.r) - 1, y.r.Size())
    ensures !LinkAhead(y)
  {
    if LinkAhead(y) {
      OnlyLagAhead(y);
      LinkAheadIsLast(y);
    }
  }

  lemma FirstFresh(r: RingState, k: nat)
    requires r.Geometry() && 0 < k
    ensures r.t <= Times(k, r.t)
    ensures FreshSegments(r.t, k, r.pcs, r.enqSeg + 1 == r.segs)[0] == Trb(Body(Empty, 0, 0, false, false), !r.pcs)
  {
    FreshLink(r.t, k, r.pcs, r.enqSeg + 1 == r.segs, 0, 0);
  }

  lemma OnlyLagAhead(y: Sys)
    requires Inv(y) && LinkAhead(y)
    ensures y.Lag() && y.hw != y.First()
  {
    SegEnd(y.r);
    if y.r.enq < y.r.deq < End(y.r) {
      SameSeg(y.r, y.r.enqSeg, y.r.deqSeg, y.r.deq);
    }
    if !y.Lag() {
      NoneBetween(y.r.deq, y.hw, y.r.enq, End(y.r), y.r.Size());
    }
  }

  // ------------------------------------------------------------- all the steps

  /** Pending TRBs: written, not yet published. */
  function Pending(y: Sys): seq<Body>
    requires y.r.enq < |y.r.trbs| && y.First() < |y.r.trbs|
  {
    Window(y.r.trbs, y.First(), y.r.enq)
  }

  /** The first TRB gets its cycle bit, and with it the whole TD (giveback_first_trb). */
  function Publish(y: Sys): Sys
    requires y.open && y.start < |y.r.trbs| && y.r.enq < |y.r.trbs|
  {
    y.(r := y.r.(trbs := y.r.trbs[y.start := y.r.trbs[y.start].(cycle := y.startCycle)]),
       open := false,
       published := y.published + Pending(y))
  }

  lemma PublishKeepsInv(y: Sys)
    requires Inv(y) && y.open
    ensures Inv(Publish(y))
  {
    var y' := Publish(y);
    SameKindsKeepGeometry(y.r, y'.r);
    WindowFrame(y.r.trbs, y'.r.trbs, y.hw, y.r.enq);
    WindowSplit(y.r.trbs, y.hw, y.start, y.r.enq);
    assert Bits(y');
  }

  /** The controller takes the TRB it stands on, if it owns it. */
  function Consume(y: Sys): Sys
    requires y.hw < |y.r.trbs|
  {
    var trb := y.r.trbs[y.hw];
    if trb.cycle != y.ccs then y
    else if IsLink(trb) then
      y.(hw := Next(y.hw, |y.r.trbs|), ccs := if trb.body.kind.toggle then !y.ccs else y.ccs)
    else
      y.(hw := Next(y.hw, |y.r.trbs|), consumed := y.consumed + [trb.body])
  }

  lemma ConsumeKeepsInv(y: Sys)
    requires Inv(y)
    ensures Inv(Consume(y))
  {
    if y.hw != y.First() {
      ConsumeKeepsCcs(y);
      ConsumeKeepsOrder(y.hw, y.First(), y.r.deq, y.r.enq, y.r.Size(), y.Lag());
      ConsumeKeepsHistory(y);
    } else {
      assert y.r.trbs[y.hw].cycle != y.ccs;
    }
  }

  lemma ConsumeKeepsCcs(y: Sys)
    requires Inv(y) && y.hw != y.First()
    ensures y.r.trbs[y.hw].cycle == y.ccs && y.hw != y.r.enq
    ensures CcsOk(Consume(y))
  {
    LastIsLink(y.r);
  }

  lemma ConsumeKeepsHistory(y: Sys)
    requires Inv(y) && y.hw != y.First()
    ensures var y' := Consume(y);
            && y'.hw == Next(y.hw, y.r.Size())
            && History(y')
  {
  }

  lemma ConsumeKeepsOrder(hw: nat, first: nat, deq: nat, enq: nat, n: nat, lag: bool)
    requires hw < n && first < n && deq < n && enq < n
    requires Dist(hw, first, n) <= Dist(hw, enq, n) && hw != first && hw != enq
    requires if lag then deq == Next(hw, n) else Dist(deq, hw, n) <= Dist(deq, enq, n)
    ensures Dist(Next(hw, n), first, n) <= Dist(Next(hw, n), enq, n)
    ensures Dist(deq, Next(hw, n), n) <= Dist(deq, enq, n)
  {
  }

  /** The driver learns that the TRB at `last` is done and sets dequeue after it. */
  function Retire(y: Sys, seg: nat, last: nat): Sys
    requires last + 1 < |y.r.trbs|
  {
    y.(r := IncDeq(y.r, seg, last))
  }

  /** The TRB at `last` lies between dequeue and the controller. */
  predicate Retirable(y: Sys, seg: nat, last: nat) {
    && y.r.InSeg(seg, last) && last + 1 < |y.r.trbs| && y.hw < |y.r.trbs| && y.r.deq < |y.r.trbs|
    && !IsLink(y.r.trbs[last])
    && !y.Lag()
    && Dist(y.r.deq, last, |y.r.trbs|) < Dist(y.r.deq, y.hw, |y.r.trbs|)
  }

  lemma RetireDist(hw: nat, last: nat, deq: nat, enq: nat, n: nat)
    requires hw < n && last + 1 < n && deq < n && enq < n
    requires Dist(deq, last, n) < Dist(deq, hw, n) <= Dist(deq, enq, n)
    ensures Dist(last + 1, hw, n) <= Dist(last + 1, enq, n)
    ensures Dist(deq, last + 1, n) <= Dist(deq, enq, n)
    ensures last + 1 != hw ==>
              && Dist(Next(last + 1, n), hw, n) <= Dist(Next(last + 1, n), enq, n)
    ensures last + 1 != enq ==> Dist(deq, Next(last + 1, n), n) <= Dist(deq, enq, n)
    ensures last + 1 == enq ==> hw == enq
  {
  }

  lemma RetireOrder(y: Sys, seg: nat, last: nat)
    requires Inv(y) && Retirable(y, seg, last)
    ensures var y' := Retire(y, seg, last); y'.r.deq < y'.r.Size() && Order(y')
  {
    RetireTarget(y.r, seg, last);
    RetireDist(y.hw, last, y.r.deq, y.r.enq, y.r.Size());
  }

  lemma RetireTarget(r: RingState, seg: nat, last: nat)
    requires r.Geometry() && r.InSeg(seg, last) && last + 1 < r.Size() && !IsLink(r.trbs[last])
    ensures var r' := IncDeq(r, seg, last);
            && r'.deq < r'.Size() && r'.InSeg(r'.deqSeg, r'.deq)
            && r'.deq == (if IsLink(r.trbs[last + 1]) then Next(last + 1, r.Size()) else last + 1)
            && !IsLink(r'.trbs[r'.deq])
  {
    LinkInSeg(r, seg, last);
    if IsLink(r.trbs[last + 1]) {
      NextOfLink(r, seg, last + 1);
      SegBound(r.NextSeg(seg), r.segs, r.t);
      LinkInSeg(r, r.NextSeg(seg), Next(last + 1, r.Size()));
    }
  }

  lemma SegMonotone(r: RingState, s: nat, p: nat, s': nat, p': nat)
    requires r.InSeg(s, p) && r.InSeg(s', p') && p <= p'
    ensures s <= s'
  {
    if s' < s { SegOrder(s', s, r.t); }
  }

  /** Dequeue moving on towards enqueue only gets farther ahead of it, cyclically. */
  lemma SegDistGrows(r: RingState, s: nat, p: nat)
    requires r.Shape() && r.enq < r.Size() && r.deq < r.Size() && r.InSeg(s, p) && p < r.Size()
    requires Dist(r.deq, p, r.Size()) <= Dist(r.deq, r.enq, r.Size())
    ensures s == r.enqSeg ==> p <= r.enq
    ensures r.SegDist() <= r.(deqSeg := s, deq := p).SegDist()
  {
    if r.deq <= r.enq {
      SegMonotone(r, r.deqSeg, r.deq, s, p);
      SegMonotone(r, s, p, r.enqSeg, r.enq);
    } else if p <= r.enq {
      SegMonotone(r, s, p, r.enqSeg, r.enq);
      SegMonotone(r, r.enqSeg, r.enq, r.deqSeg, r.deq);
    } else {
      SegMonotone(r, r.deqSeg, r.deq, s, p);
      SegMonotone(r, r.enqSeg, r.enq, r.deqSeg, r.deq);
    }
  }

  lemma RoomGrows(r: RingState, s: nat, p: nat)
    requires 3 <= r.t && 1 <= r.SegDist() <= r.(deqSeg := s, deq := p).SegDist()
    ensures r.Room() <= r.(deqSeg := s, deq := p).Room()
  {
    TimesAdd(r.SegDist() - 1, r.(deqSeg := s, deq := p).SegDist() - r.SegDist(), r.t - 1);
  }

  lemma RetireSegments(y: Sys, seg: nat, last: nat)
    requires Inv(y) && Retirable(y, seg, last)
    ensures var y' := Retire(y, seg, last);
            && (y'.r.deqSeg == y'.r.enqSeg ==> y'.r.deq <= y'.r.enq)
            && Spare(y')
  {
    var y', n := Retire(y, seg, last), y.r.Size();
    RetireTarget(y.r, seg, last);
    RetireDist(y.hw, last, y.r.deq, y.r.enq, n);
    if Dist(y.r.deq, y'.r.deq, n) <= Dist(y.r.deq, y.r.enq, n) {
      SegDistGrows(y.r, y'.r.deqSeg, y'.r.deq);
      RoomGrows(y.r, y'.r.deqSeg, y'.r.deq);
    } else {
      assert y.r.enq == last + 1 && y.hw == y.r.enq;
      if y'.r.deqSeg == y'.r.enqSeg {
        NextOfLink(y.r, y.r.enqSeg, y.r.enq);
      }
    }
  }

  lemma RetireKeepsInv(y: Sys, seg: nat, last: nat)
    requires Inv(y) && Retirable(y, seg, last)
    ensures Inv(Retire(y, seg, last))
  {
    RetireTarget(y.r, seg, last);
    RetireOrder(y, seg, last);
    RetireSegments(y, seg, last);
  }

  /** Undoing everything written since `start` (the cleanup of xhci_queue_isoc_tx). */
  function Rollback(y: Sys): Sys
    requires y.open && y.start < |y.r.trbs| && y.r.enq < |y.r.trbs|
  {
    y.(r := y.r.(trbs := NoopTd(y.r.trbs, y.start, y.r.enq, true),
                 enqSeg := y.startSeg, enq := y.start, pcs := y.startCycle),
       open := false)
  }

  lemma RollbackKeepsBits(y: Sys)
    requires y.open && y.start < |y.r.trbs| && y.r.enq < |y.r.trbs| && y.start != y.r.enq
    requires y.startCycle <==> (if y.start <= y.r.enq then y.r.pcs else !y.r.pcs)
    requires Bits(y)
    ensures Bits(Rollback(y))
  {
  }

  lemma RollbackDist(hw: nat, start: nat, deq: nat, enq: nat, n: nat)
    requires hw < n && start < n && deq < n && enq < n && start != enq
    requires Dist(hw, start, n) <= Dist(hw, enq, n)
    requires Dist(deq, hw, n) <= Dist(deq, enq, n) || (deq == Next(hw, n) && hw != start)
    ensures Dist(deq, start, n) <= Dist(deq, enq, n)
    ensures Dist(deq, hw, n) <= Dist(deq, enq, n) ==> Dist(deq, hw, n) <= Dist(deq, start, n)
  {
  }

  /** Taking enqueue back leaves more room before the dequeue segment. */
  lemma RollbackRoom(r: RingState, s: nat, p: nat)
    requires r.Shape() && r.enq < r.Size() && r.deq < r.Size() && r.InSeg(s, p) && p < r.Size()
    requires Dist(r.deq, p, r.Size()) <= Dist(r.deq, r.enq, r.Size())
    ensures s == r.deqSeg ==> r.deq <= p
    ensures r.Room() <= r.(enqSeg := s, enq := p).Room()
  {
    var r' := r.(enqSeg := s, enq := p);
    if r.deq <= r.enq {
      SegMonotone(r, r.deqSeg, r.deq, s, p);
      SegMonotone(r, s, p, r.enqSeg, r.enq);
    } else if p <= r.enq {
      SegMonotone(r, s, p, r.enqSeg, r.enq);
      SegMonotone(r, r.enqSeg, r.enq, r.deqSeg, r.deq);
    } else {
      SegMonotone(r, r.deqSeg, r.deq, s, p);
      SegMonotone(r, r.enqSeg, r.enq, r.deqSeg, r.deq);
    }
    if s == r.enqSeg {
      assert r'.SegDist() == r.SegDist() && p <= r.enq;
    } else {
      assert r'.SegDist() >= r.SegDist() + 1;
      TimesAdd(r.SegDist(), r'.SegDist() - 1 - r.SegDist(), r.t - 1);
    }
  }

  lemma RollbackKeepsOrder(y: Sys)
    requires Inv(y) && y.open
    ensures Order(Rollback(y)) && Spare(Rollback(y))
    ensures y.startSeg == y.r.deqSeg ==> y.r.deq <= y.start
  {
    RollbackDist(y.hw, y.start, y.r.deq, y.r.enq, y.r.Size());
    RollbackRoom(y.r, y.startSeg, y.start);
    assert Rollback(y).Lag() <==> y.Lag();
  }

  lemma RollbackKeepsInv(y: Sys)
    requires Inv(y) && y.open
    ensures Inv(Rollback(y))
  {
    RollbackKeepsBits(y);
    RollbackKeepsOrder(y);
    RollbackKeepsRest(y);
    RollbackKeepsCcs(y);
  }

  lemma RollbackKeepsCcs(y: Sys)
    requires Inv(y) && y.open
    ensures CcsOk(Rollback(y))
  {
    RollbackCcs(y.hw, y.start, y.r.enq, y.r.Size());
  }

  lemma RollbackKeepsRest(y: Sys)
    requires Inv(y) && y.open && (y.startSeg == y.r.deqSeg ==> y.r.deq <= y.start)
    ensures Rollback(y).r.Shape() && OpenOk(Rollback(y))
    ensures Rollback(y).hw < |Rollback(y).r.trbs| && Rollback(y).First() < |Rollback(y).r.trbs| && History(Rollback(y))
  {
    var y' := Rollback(y);
    SameKindsKeepGeometry(y.r, y'.r);
    WindowFrame(y.r.trbs, y'.r.trbs, y.hw, y.start);
  }

  lemma RollbackCcs(hw: nat, start: nat, enq: nat, n: nat)
    requires hw < n && start < n && enq < n && start != enq
    requires Dist(hw, start, n) <= Dist(hw, enq, n)
    ensures (hw <= enq) == ((hw <= start) == (start <= enq))
  {
  }

  // ------------------------------------------------------------------- runs

  /** One step of the driver (the first five) or of the controller (the last). A
      Prepare that is refused changes nothing. */
  datatype Step =
    | Prepare(n: nat, ok: bool)
    | Write(body: Body, more: bool)
    | Give
    | Undo
    | Done(seg: nat, last: nat)
    | Take

  predicate Enabled(y: Sys, step: Step) {
    && y.r.enq < |y.r.trbs| && y.hw < |y.r.trbs| && y.First() < |y.r.trbs| && 2 <= y.r.t
    && Times(y.r.enqSeg, y.r.t) <= y.r.enq
    && match step {
         case Prepare(n, ok) => 0 < ExpansionNeeded(y.r, n) ==> !LinkAhead(y)
         case Write(body, _) => Data(body) && !IsLink(y.r.trbs[y.r.enq]) && 2 <= y.r.Room()
         case Give => y.open
         case Undo => y.open
         case Done(seg, last) => Retirable(y, seg, last)
         case Take => true
       }
  }

  /** Making room for `n` TRBs and stepping off a link (prepare_ring). */
  function Prepared(y: Sys, n: nat): Sys
    requires Inv(y)
  {
    var y1 := Grow(y, ExpansionNeeded(y.r, n));
    SplicedAt(y.r, ExpansionNeeded(y.r, n), y.r.enq);
    SegEnd(y.r);
    if IsLink(y1.r.trbs[y1.r.enq]) then Cross(y1, y1.r.quirk) else y1
  }

  /** Writing one TRB of a TD, the first one with its cycle bit inverted. */
  function Written(y: Sys, body: Body, more: bool): Sys
    requires y.r.enq + 1 < |y.r.trbs|
  {
    Put(y, body).(r := QueueTrb(y.r, body, if y.open then y.r.pcs else !y.r.pcs, more))
  }

  lemma NotLinkMeansNext(y: Sys)
    requires Inv(y) && !IsLink(y.r.trbs[y.r.enq])
    ensures y.r.enq + 1 < |y.r.trbs|
  {
    LastIsLink(y.r);
  }

  function Apply(y: Sys, step: Step): Sys
    requires Inv(y) && Enabled(y, step)
  {
    match step
    case Prepare(n, ok) => if ok then Prepared(y, n) else y
    case Write(body, more) => NotLinkMeansNext(y); Written(y, body, more)
    case Give => Publish(y)
    case Undo => Rollback(y)
    case Done(seg, last) => Retire(y, seg, last)
    case Take => Consume(y)
  }

  /** Expansion is only asked for when enqueue is not stuck behind an empty ring. */
  lemma ExpansionMeansRoom(y: Sys)
    requires Inv(y) && !StuckOnLink(y.r)
    ensures 1 <= y.r.Room()
  {
    if IsLink(y.r.trbs[y.r.enq]) {
      NextOfLink(y.r, y.r.enqSeg, y.r.enq);
    }
  }

  lemma GrowByNothing(y: Sys)
    requires Inv(y)
    ensures Grow(y, 0) == y
  {
    assert Grow(y, 0).r == y.r;
  }

  lemma PreparedKeepsInv(y: Sys, n: nat)
    requires Inv(y) && (0 < ExpansionNeeded(y.r, n) ==> !LinkAhead(y))
    ensures Inv(Prepared(y, n))
  {
    var k := ExpansionNeeded(y.r, n);
    if 0 < k {
      ExpansionMeansRoom(y);
      GrowKeepsInv(y, k);
    } else {
      GrowByNothing(y);
    }
    var y1 := Grow(y, k);
    if IsLink(y1.r.trbs[y1.r.enq]) {
      CrossKeepsInv(y1, y1.r.quirk);
    }
  }

  lemma CrossKeepsPending(y: Sys, chain: bool)
    requires Inv(y) && y.open && IsLink(y.r.trbs[y.r.enq]) && 1 <= y.r.Room()
    ensures var y' := Cross(y, chain);
            && Inv(y')
            && Pending(y') == Pending(y)
            && y'.r.Room() == y.r.Room()
  {
    var y' := Cross(y, chain);
    CrossKeepsInv(y, chain);
    CrossKeepsOrder(y, chain);
    CrossRoom(y.r, chain);
    CrossLinkFacts(y.r, chain);
    NotBackToStart(y.hw, y.start, y.r.enq, y.r.Size());
    WindowFrame(y.r.trbs, y'.r.trbs, y.start, y.r.enq);
    WindowAppend(y'.r.trbs, y.start, y.r.enq);
  }

  lemma WrittenKeepsInv(y: Sys, body: Body, more: bool)
    requires Inv(y) && Data(body) && !IsLink(y.r.trbs[y.r.enq]) && 2 <= y.r.Room()
    ensures y.r.enq + 1 < |y.r.trbs|
    ensures Inv(Written(y, body, more))
    ensures Written(y, body, more).r.Room() == y.r.Room() - 1
    ensures var y' := Written(y, body, more); Pending(y') == (if y.open then Pending(y) else []) + [body]
  {
    NotLinkMeansNext(y);
    PutKeepsPending(y, body);
    WrittenIsPut(y, body, more);
    var y1 := Put(y, body);
    assert y1.r.Room() == y.r.Room() - 1;
    if IsLink(y.r.trbs[y.r.enq + 1]) && (body.chain || more) {
      CrossKeepsPending(y1, if y.r.quirk then y.r.trbs[y.r.enq + 1].body.chain else body.chain);
    }
  }

  /** What writing a TRB leaves alone, and where a TD begins. */
  lemma WrittenFields(y: Sys, body: Body, more: bool)
    requires y.r.enq + 1 < |y.r.trbs|
    ensures var z := Written(y, body, more);
            && z.open && z.published == y.published && z.consumed == y.consumed && z.hw == y.hw
            && |z.r.trbs| == |y.r.trbs|
            && z.startSeg == (if y.open then y.startSeg else y.r.enqSeg)
            && z.start == (if y.open then y.start else y.r.enq)
            && z.startCycle == (if y.open then y.startCycle else y.r.pcs)
  {
  }

  /** Queueing a TRB is storing it and, maybe, stepping over the link behind it. */
  lemma WrittenIsPut(y: Sys, body: Body, more: bool)
    requires y.r.enq + 1 < |y.r.trbs|
    ensures var y1 := Put(y, body);
            var l := y.r.trbs[y.r.enq + 1];
            Written(y, body, more) ==
            if IsLink(l) && (body.chain || more) then Cross(y1, if y.r.quirk then l.body.chain else body.chain)
            else y1
  {
  }

  lemma PutKeepsPending(y: Sys, body: Body)
    requires Inv(y) && Data(body) && !IsLink(y.r.trbs[y.r.enq]) && 2 <= y.r.Room()
    ensures var y' := Put(y, body);
            && Inv(y')
            && Pending(y') == (if y.open then Pending(y) else []) + [body]
  {
    var y' := Put(y, body);
    PutKeepsInv(y, body);
    WindowFrame(y.r.trbs, y'.r.trbs, y'.start, y.r.enq);
    WindowAppend(y'.r.trbs, y'.start, y.r.enq);
  }

  lemma StepKeepsInv(y: Sys, step: Step)
    requires Inv(y) && Enabled(y, step)
    ensures Inv(Apply(y, step))
  {
    match step {
      case Prepare(n, ok) => if ok { PreparedKeepsInv(y, n); }
      case Write(body, more) => WrittenKeepsInv(y, body, more);
      case Give => PublishKeepsInv(y);
      case Undo => RollbackKeepsInv(y);
      case Done(seg, last) => RetireKeepsInv(y, seg, last);
      case Take => ConsumeKeepsInv(y);
    }
  }

  ghost predicate CanRun(y: Sys, steps: seq<Step>)
    decreases |steps|
  {
    steps == [] ||
    (Inv(y) && Enabled(y, steps[0]) && CanRun(Apply(y, steps[0]), steps[1..]))
  }

  ghost function Run(y: Sys, steps: seq<Step>): Sys
    requires CanRun(y, steps)
    decreases |steps|
  {
    if steps == [] then y else Run(Apply(y, steps[0]), steps[1..])
  }

  /** What a history of driver steps has handed out, and what it has only written. */
  datatype Ledger = Ledger(given: seq<Body>, pending: seq<Body>)

  function Recorded(l: Ledger, steps: seq<Step>): Ledger
    decreases |steps|
  {
    if steps == [] then l
    else
      Recorded(Entered(l, steps[0]), steps[1..])
  }

  function Entered(l: Ledger, step: Step): Ledger {
    match step
    case Write(body, _) => l.(pending := l.pending + [body])
    case Give => Ledger(l.given + l.pending, [])
    case Undo => l.(pending := [])
    case Prepare(_, _) => l
    case Done(_, _) => l
    case Take => l
  }

  /** A freshly allocated ring, with the controller at its first TRB. */
  ghost predicate Initial(y: Sys) {
    && y.r.Geometry()
    && y.r.enqSeg == 0 && y.r.enq == 0 && y.r.deqSeg == 0 && y.r.deq == 0 && y.r.pcs
    && (forall p :: 0 <= p < |y.r.trbs| ==> !y.r.trbs[p].cycle)
    && y.hw == 0 && y.ccs && !y.open && y.published == [] && y.consumed == []
  }

  /** A newly allocated ring is such a ring. */
  lemma FreshIsInitial(t: nat, segs: nat, quirk: bool)
    requires 3 <= t && 1 <= segs
    ensures Initial(Sys(FreshRing(t, segs, quirk), 0, true, false, 0, 0, true, [], []))
  {
    FreshRingShape(t, segs, quirk);
  }

  lemma InitialInv(y: Sys)
    requires Initial(y)
    ensures Inv(y)
  {
    LastIsLink(y.r);
    SegBound(0, y.r.segs, y.r.t);
  }

  ghost predicate Agrees(y: Sys, l: Ledger) {
    && Inv(y)
    && y.published == l.given
    && (if y.open then Pending(y) else []) == l.pending
  }

  lemma StepRecorded(y: Sys, step: Step, l: Ledger)
    requires Agrees(y, l) && Enabled(y, step)
    ensures Agrees(Apply(y, step), Entered(l, step))
  {
    if step.Write? { WriteRecorded(y, step.body, step.more, l); }
    else if step.Prepare? { if step.ok { PrepareRecorded(y, step.n, l); } }
    else if step.Done? { DoneRecorded(y, step.seg, step.last, l); }
    else if step.Take? { TakeRecorded(y, l); }
    else if step.Give? { GiveRecorded(y, l); }
    else { UndoRecorded(y, l); }
  }

  lemma DoneRecorded(y: Sys, seg: nat, last: nat, l: Ledger)
    requires Agrees(y, l) && Retirable(y, seg, last)
    ensures Agrees(Retire(y, seg, last), l)
  {
    RetireKeepsInv(y, seg, last);
  }

  lemma TakeRecorded(y: Sys, l: Ledger)
    requires Agrees(y, l)
    ensures Agrees(Consume(y), l)
  {
    ConsumeKeepsInv(y);
  }

  lemma GiveRecorded(y: Sys, l: Ledger)
    requires Agrees(y, l) && y.open
    ensures Agrees(Publish(y), Entered(l, Give))
  {
    PublishKeepsInv(y);
  }

  lemma UndoRecorded(y: Sys, l: Ledger)
    requires Agrees(y, l) && y.open
    ensures Agrees(Rollback(y), Entered(l, Undo))
  {
    RollbackKeepsInv(y);
  }

  lemma WriteRecorded(y: Sys, body: Body, more: bool, l: Ledger)
    requires Agrees(y, l) && Data(body) && !IsLink(y.r.trbs[y.r.enq]) && 2 <= y.r.Room()
    ensures y.r.enq + 1 < |y.r.trbs| && Agrees(Written(y, body, more), Entered(l, Write(body, more)))
  {
    WrittenKeepsInv(y, body, more);
    WrittenFields(y, body, more);
  }

  lemma PrepareRecorded(y: Sys, n: nat, l: Ledger)
    requires Agrees(y, l) && (0 < ExpansionNeeded(y.r, n) ==> !LinkAhead(y))
    ensures Agrees(Prepared(y, n), l)
  {
    PreparedKeepsPending(y, n);
  }

  lemma {:induction false} RunRecorded(y: Sys, steps: seq<Step>, l: Ledger)
    requires CanRun(y, steps) && Agrees(y, l)
    ensures Agrees(Run(y, steps), Recorded(l, steps))
    decreases |steps|
  {
    if steps != [] {
      StepRecorded(y, steps[0], l);
      RunRecorded(Apply(y, steps[0]), steps[1..], Entered(l, steps[0]));
    }
  }

  lemma PreparedKeepsPending(y: Sys, n: nat)
    requires Inv(y) && (0 < ExpansionNeeded(y.r, n) ==> !LinkAhead(y))
    ensures var y' := Prepared(y, n);
            && Inv(y') && y'.open == y.open && y'.published == y.published
            && (y.open ==> Pending(y') == Pending(y))
  {
    var k := ExpansionNeeded(y.r, n);
    PreparedKeepsInv(y, n);
    if 0 < k {
      ExpansionMeansRoom(y);
      GrowKeepsInv(y, k);
      if y.open { GrowKeepsPending(y, k); SpliceRoom(y.r, k); }
    } else {
      GrowByNothing(y);
    }
    var y1 := Grow(y, k);
    if y.open && IsLink(y1.r.trbs[y1.r.enq]) {
      OpenMeansRoom(y1);
      CrossKeepsPending(y1, y1.r.quirk);
    }
  }

  lemma OpenMeansRoom(y: Sys)
    requires Inv(y) && y.open
    ensures 1 <= y.r.Room()
  {
  }

  lemma GrowKeepsPending(y: Sys, k: nat)
    requires Inv(y) && !LinkAhead(y) && y.open && 0 < k && Inv(Grow(y, k))
    ensures Pending(Grow(y, k)) == Pending(y)
  {
    SegEnd(y.r);
    NoneAhead(y);
    SplicedAt(y.r, k, y.start);
    SplicedAt(y.r, k, y.r.enq);
    WindowInsert(y.r.trbs, End(y.r), FreshSegments(y.r.t, k, y.r.pcs, y.r.enqSeg + 1 == y.r.segs),
                 y.r.enq, y.start, y.r.enq);
  }

  /** Over every run from a fresh ring, whatever the controller and the driver do
      in turns: what the controller has executed, followed by what it would
      execute next, is exactly the sequence of TRBs of the TDs given so far. A TD
      that is only written, or was undone, has no part in it. */
  lemma FifoOverRuns(y: Sys, steps: seq<Step>)
    requires Initial(y) && CanRun(y, steps)
    ensures var y' := Run(y, steps);
            && Inv(y')
            && y'.consumed + Visible(y'.r.trbs, y'.hw, y'.ccs, y'.r.Size())
               == Recorded(Ledger([], []), steps).given
  {
    InitialInv(y);
    RunRecorded(y, steps, Ledger([], []));
    ControllerSeesPublished(Run(y, steps));
  }

  // -------------------------------------------------------------- rolling back

  /** Steps between entering xhci_queue_isoc_tx and its cleanup: making room
      without growing, writing, and anything the controller and its events do. */
  ghost predicate Attempt(y: Sys, steps: seq<Step>)
    requires CanRun(y, steps)
    decreases |steps|
  {
    steps == [] ||
    (&& !steps[0].Give? && !steps[0].Undo?
     && (steps[0].Prepare? && steps[0].ok ==> ExpansionNeeded(y.r, steps[0].n) == 0)
     && Attempt(Apply(y, steps[0]), steps[1..]))
  }

  /** `y` continues an attempt that began with enqueue at `p` in segment `s` and
      cycle state `c`. */
  ghost predicate BeganAt(y: Sys, s: nat, p: nat, c: bool, n: nat) {
    && Inv(y) && |y.r.trbs| == n
    && (if y.open then y.startSeg == s && y.start == p && y.startCycle == c
        else y.r.enqSeg == s && y.r.enq == p && y.r.pcs == c && !IsLink(y.r.trbs[y.r.enq]))
  }

  lemma StepBegan(y: Sys, step: Step, s: nat, p: nat, c: bool, n: nat)
    requires Enabled(y, step) && BeganAt(y, s, p, c, n)
    requires !step.Give? && !step.Undo?
    requires step.Prepare? && step.ok ==> ExpansionNeeded(y.r, step.n) == 0
    ensures BeganAt(Apply(y, step), s, p, c, n)
    ensures Apply(y, step).published == y.published
  {
    if step.Prepare? { PrepareBegan(y, step, s, p, c, n); }
    else if step.Write? { WriteBegan(y, step, s, p, c, n); }
    else if step.Take? { TakeBegan(y, s, p, c, n); }
    else { DoneBegan(y, step.seg, step.last, s, p, c, n); }
  }

  lemma DoneBegan(y: Sys, seg: nat, last: nat, s: nat, p: nat, c: bool, n: nat)
    requires Retirable(y, seg, last) && BeganAt(y, s, p, c, n)
    ensures BeganAt(Retire(y, seg, last), s, p, c, n)
  {
    RetireKeepsInv(y, seg, last);
    BeganKept(y, Retire(y, seg, last), s, p, c, n);
  }

  /** An attempt begins where it did as long as the driver does not write or move enqueue. */
  lemma BeganKept(y: Sys, z: Sys, s: nat, p: nat, c: bool, n: nat)
    requires BeganAt(y, s, p, c, n) && Inv(z) && z.r.trbs == y.r.trbs && z.open == y.open
    requires z.startSeg == y.startSeg && z.start == y.start && z.startCycle == y.startCycle
    requires z.r.enqSeg == y.r.enqSeg && z.r.enq == y.r.enq && z.r.pcs == y.r.pcs
    ensures BeganAt(z, s, p, c, n)
  {
  }

  lemma TakeBegan(y: Sys, s: nat, p: nat, c: bool, n: nat)
    requires BeganAt(y, s, p, c, n)
    ensures BeganAt(Consume(y), s, p, c, n)
  {
    ConsumeKeepsInv(y);
    BeganKept(y, Consume(y), s, p, c, n);
  }

  lemma PrepareBegan(y: Sys, step: Step, s: nat, p: nat, c: bool, n: nat)
    requires Enabled(y, step) && BeganAt(y, s, p, c, n)
    requires step.Prepare? && (step.ok ==> ExpansionNeeded(y.r, step.n) == 0)
    ensures BeganAt(Apply(y, step), s, p, c, n)
    ensures Apply(y, step).published == y.published
  {
    StepKeepsInv(y, step);
    if step.ok { GrowByNothing(y); }
  }

  lemma WriteBegan(y: Sys, step: Step, s: nat, p: nat, c: bool, n: nat)
    requires Enabled(y, step) && BeganAt(y, s, p, c, n)
    requires step.Write?
    ensures BeganAt(Apply(y, step), s, p, c, n)
    ensures Apply(y, step).published == y.published
  {
    StepKeepsInv(y, step);
  }

  lemma {:induction false} AttemptBegan(y: Sys, steps: seq<Step>, s: nat, p: nat, c: bool, n: nat)
    requires CanRun(y, steps) && Attempt(y, steps)
    requires BeganAt(y, s, p, c, n)
    ensures BeganAt(Run(y, steps), s, p, c, n)
    ensures Run(y, steps).published == y.published
    decreases |steps|
  {
    if steps != [] {
      StepBegan(y, steps[0], s, p, c, n);
      AttemptBegan(Apply(y, steps[0]), steps[1..], s, p, c, n);
    }
  }

  /** However many TDs and links a partly queued URB has crossed, and whatever the
      controller did meanwhile, undoing it restores the enqueue position, the cycle
      state and every cycle bit of the ring, and the controller never saw it. */
  lemma RollbackRestores(y: Sys, steps: seq<Step>)
    requires Inv(y) && !y.open && !IsLink(y.r.trbs[y.r.enq])
    requires CanRun(y, steps) && Attempt(y, steps) && Run(y, steps).open
    ensures Inv(Run(y, steps))
    ensures var z := Rollback(Run(y, steps));
            && Inv(z)
            && z.r.enqSeg == y.r.enqSeg && z.r.enq == y.r.enq && z.r.pcs == y.r.pcs
            && |z.r.trbs| == |y.r.trbs|
            && (forall p :: 0 <= p < |y.r.trbs| ==> z.r.trbs[p].cycle == y.r.trbs[p].cycle)
            && z.consumed + Visible(z.r.trbs, z.hw, z.ccs, z.r.Size()) == y.published
  {
    AttemptBegan(y, steps, y.r.enqSeg, y.r.enq, y.r.pcs, |y.r.trbs|);
    var y' := Run(y, steps);
    var z := Rollback(y');
    RollbackKeepsInv(y');
    ControllerSeesPublished(z);
    forall p | 0 <= p < |y.r.trbs|
      ensures z.r.trbs[p].cycle == y.r.trbs[p].cycle
    {
      assert RestBit(z.r, p) == RestBit(y.r, p);
    }
  }

  /** Once the whole URB was checked for room, preparing any part of it finds room
      without growing the ring. */
  lemma CheckedOnceNeverGrows(y: Sys, part: nat)
    requires Inv(y) && part < y.r.Room()
    ensures ExpansionNeeded(y.r, part) == 0
  {
    if !StuckOnLink(y.r) {
      NoExpansionMeansRoom(y.r, part);
    }
  }

  /** After a successful prepare there is room for all the TRBs asked for, and one
      to spare, unless the ring was empty with enqueue stuck on a link. Then there
      is room exactly if the TRBs do not fill the whole ring. */
  lemma PreparedHasRoom(y: Sys, n: nat)
    requires Inv(y) && (0 < ExpansionNeeded(y.r, n) ==> !LinkAhead(y))
    ensures Inv(Prepared(y, n))
    ensures !StuckOnLink(y.r) ==> n < Prepared(y, n).r.Room()
    ensures StuckOnLink(y.r) ==> (n < Prepared(y, n).r.Room() <==> n < Times(y.r.segs, y.r.t - 1))
  {
    PreparedKeepsInv(y, n);
    if StuckOnLink(y.r) { StuckHasRoom(y, n); } else { UnstuckHasRoom(y, n); }
  }

  lemma StuckHasRoom(y: Sys, n: nat)
    requires Inv(y) && StuckOnLink(y.r)
    ensures n < Prepared(y, n).r.Room() <==> n < Times(y.r.segs, y.r.t - 1)
  {
    GrowByNothing(y);
    StuckMeansNoRoom(y.r);
    CrossRoom(y.r, y.r.quirk);
  }

  lemma UnstuckHasRoom(y: Sys, n: nat)
    requires Inv(y) && !StuckOnLink(y.r) && (0 < ExpansionNeeded(y.r, n) ==> !LinkAhead(y))
    ensures n < Prepared(y, n).r.Room()
  {
    GrownHasRoom(y, n);
    var y1 := Grow(y, ExpansionNeeded(y.r, n));
    if IsLink(y1.r.trbs[y1.r.enq]) {
      CrossRoom(y1.r, y1.r.quirk);
    }
  }

  lemma GrownHasRoom(y: Sys, n: nat)
    requires Inv(y) && (0 < ExpansionNeeded(y.r, n) ==> !LinkAhead(y)) && !StuckOnLink(y.r)
    ensures var y1 := Grow(y, ExpansionNeeded(y.r, n)); Inv(y1) && n < y1.r.Room()
  {
    var k := ExpansionNeeded(y.r, n);
    ExpansionMeansRoom(y);
    ExpansionIsExact(y.r, n, k);
    if 0 < k { GrowKeepsInv(y, k); } else { GrowByNothing(y); }
    StillNotStuck(y, k);
    NoExpansionMeansRoom(Grow(y, k).r, n);
  }

  lemma StillNotStuck(y: Sys, k: nat)
    requires Inv(y) && Inv(Grow(y, k)) && 1 <= y.r.Room()
    ensures !StuckOnLink(Grow(y, k).r)
  {
    var r := Grow(y, k).r;
    SpliceRoom(y.r, k);
    if StuckOnLink(r) { StuckMeansNoRoom(r); }
  }

  lemma StuckMeansNoRoom(r: RingState)
    requires r.Shape() && r.enq < r.Size() && StuckOnLink(r)
    ensures r.Room() < 1 && r.deq == Next(r.enq, r.Size())
  {
    NextOfLink(r, r.enqSeg, r.enq);
    if 1 <= r.Room() { RoomMeansNotStuck(r); }
  }

  /** Writing as many TRBs as there was room for never moves enqueue into the
      dequeue segment: the driver stays behind it or, if it began there, in it. */
  lemma WriteStaysOut(y: Sys, body: Body, more: bool)
    requires Inv(y) && Data(body) && !IsLink(y.r.trbs[y.r.enq]) && 2 <= y.r.Room()
    ensures y.r.enq + 1 < |y.r.trbs|
    ensures var y' := Written(y, body, more);
            y'.r.enqSeg == y.r.enqSeg || y'.r.enqSeg != y.r.deqSeg
  {
    NotLinkMeansNext(y);
    WrittenIsPut(y, body, more);
    PutKeepsInv(y, body);
    var y1 := Put(y, body);
    assert y1.r.Room() == y.r.Room() - 1;
    if IsLink(y1.r.trbs[y1.r.enq]) {
      CrossRoom(y1.r, false);
    }
  }

  /** Without room for two, a TRB takes the last slot before the dequeue segment. */
  lemma LastSlot(y: Sys)
    requires Inv(y) && !IsLink(y.r.trbs[y.r.enq]) && y.r.Room() <= 1
    ensures y.r.SegDist() == 1 && y.r.enq + 2 == Times(y.r.enqSeg, y.r.t) + y.r.t
    ensures y.r.enq + 1 < y.r.Size() && IsLink(y.r.trbs[y.r.enq + 1])
    ensures y.r.NextSeg(y.r.enqSeg) == y.r.deqSeg && (y.r.deqSeg == y.r.enqSeg ==> y.r.deq <= y.r.enq)
    ensures y.r.InSeg(y.r.enqSeg, y.r.enq + 1)
  {
    LinkInSeg(y.r, y.r.enqSeg, y.r.enq);
    LinkInSeg(y.r, y.r.enqSeg, y.r.enq + 1);
    SegDistRange(y.r);
  }

  /** A TRB in the last slot, with enqueue left on the link: the ring is full and looks empty. */
  lemma LastSlotFills(y: Sys, body: Body)
    requires Inv(y) && Data(body) && !IsLink(y.r.trbs[y.r.enq]) && y.r.Room() <= 1
    ensures y.r.enq + 1 < |y.r.trbs| && !Inv(Put(y, body))
  {
    LastSlot(y);
    var z := Put(y, body);
    assert z.r.Room() == y.r.Room() - 1;
  }

  /** The same, with enqueue going on into the dequeue segment. */
  lemma LastSlotOverruns(y: Sys, body: Body, chain: bool)
    requires Inv(y) && Data(body) && !IsLink(y.r.trbs[y.r.enq]) && y.r.Room() <= 1
    ensures y.r.enq + 1 < |y.r.trbs| && IsLink(Put(y, body).r.trbs[y.r.enq + 1]) && !Inv(Cross(Put(y, body), chain))
  {
    LastSlot(y);
    var z := Cross(Put(y, body), chain);
    if Inv(z) {
      assert z.r.deq == z.r.enq;
      OntoDequeue(z.hw, z.start, z.r.deq, z.r.Size(), z.Lag());
    }
  }

  /** With enqueue on dequeue nothing can be between the controller and enqueue but a link. */
  lemma OntoDequeue(hw: nat, first: nat, deq: nat, n: nat, lag: bool)
    requires hw < n && first < n && deq < n && Dist(hw, first, n) <= Dist(hw, deq, n)
    requires if lag then deq == Next(hw, n) else Dist(deq, hw, n) <= 0
    ensures first == deq || (lag && first == hw)
  {
  }

  /** The room asked for is exactly what a write needs: one TRB written without it, whatever
      follows, breaks the invariant. */
  lemma WriteNeedsRoom(y: Sys, body: Body, more: bool)
    requires Inv(y) && Data(body) && !IsLink(y.r.trbs[y.r.enq])
    ensures y.r.enq + 1 < |y.r.trbs|
    ensures Inv(Written(y, body, more)) <==> 2 <= y.r.Room()
  {
    NotLinkMeansNext(y);
    if 2 <= y.r.Room() {
      WrittenKeepsInv(y, body, more);
    } else {
      WrittenIsPut(y, body, more);
      LastSlotFills(y, body);
      LastSlotOverruns(y, body, if y.r.quirk then y.r.trbs[y.r.enq + 1].body.chain else body.chain);
    }
  }
}
