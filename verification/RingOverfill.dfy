/** A bulk transfer that takes more TRBs than the ring was prepared for: on a ring of two
    segments of any length with one TRB queued, a single buffer that is cut short at the link. */
module RingOverfill {
  import opened RingModel
  import opened RingExpansion
  import opened RingFifo
  import opened RingChains
  import opened RingCounts
  import opened IsocUrb
  import opened BulkUrb
  import C = TdCutting

  // -------------------------------------------------- a full ring looks empty

  /** The TD takes all the room there is, up to a dequeue position at the start of its segment. */
  ghost predicate Fills(p: Sys, td: seq<Body>) {
    && Inv(p) && !p.open && !IsLink(p.r.trbs[p.r.enq]) && TdShaped(td)
    && |td| == p.r.Room() && p.r.deq == Times(p.r.deqSeg, p.r.t)
  }

  /** Enqueue rests on the link in front of dequeue. */
  ghost predicate Stuck(r: RingState) {
    && r.Geometry() && r.InSeg(r.enqSeg, r.enq) && r.InSeg(r.deqSeg, r.deq)
    && 1 <= r.enq < |r.trbs| && Times(r.enqSeg, r.t) <= r.enq && StuckOnLink(r)
  }

  lemma LastTrbFills(v: Sys, body: Body)
    requires Inv(v) && !IsLink(v.r.trbs[v.r.enq]) && v.r.Room() == 1 && Data(body) && !body.chain
    requires v.r.deq == Times(v.r.deqSeg, v.r.t)
    ensures v.r.enq + 1 < |v.r.trbs|
    ensures var r := Written(v, body, false).r; Stuck(r) && r.enq == v.r.enq + 1 && r.pcs == v.r.pcs
  {
    LastSlot(v);
    NotLinkMeansNext(v);
    WrittenIsPut(v, body, false);
    SameKindsKeepGeometry(v.r, Put(v, body).r);
  }

  lemma OneSlotLeft(p: Sys, td: seq<Body>)
    requires Fills(p, td)
    ensures var v := WrittenTd(p, td, |td| - 1);
            Inv(v) && !IsLink(v.r.trbs[v.r.enq]) && v.r.Room() == 1 && v.r.deq == Times(v.r.deqSeg, v.r.t)
    ensures Data(td[|td| - 1]) && !td[|td| - 1].chain
  {
    WrittenTdOk(p, td, |td| - 1);
    TdKept(p, td, |td| - 1);
  }

  /** The last of them leaves enqueue on the link in front of dequeue. */
  lemma FilledIsStuck(p: Sys, td: seq<Body>)
    requires Fills(p, td)
    ensures var v, w := WrittenTd(p, td, |td| - 1), WrittenTd(p, td, |td|);
            Inv(v) && Stuck(w.r) && w.r.enq == v.r.enq + 1 && w.r.pcs == v.r.pcs
  {
    OneSlotLeft(p, td);
    LastTrbFills(WrittenTd(p, td, |td| - 1), td[|td| - 1]);
    NextIsWritten(p, td, |td| - 1);
  }

  lemma {:induction false} KeepsController(y: Sys, td: seq<Body>, j: nat)
    requires j <= |td|
    ensures var z := WrittenTd(y, td, j);
            z.hw == y.hw && z.ccs == y.ccs && z.published == y.published && z.consumed == y.consumed
    decreases j
  {
    if j != 0 { KeepsController(y, td, j - 1); }
  }

  /** Giving a TD changes nothing but a cycle bit and the history. */
  lemma GivenKeeps(w: Sys)
    requires Stuck(w.r) && w.open && w.start < |w.r.trbs|
    ensures var z := Given(w);
            && Stuck(z.r) && z.r.enq == w.r.enq && z.r.pcs == w.r.pcs && z.r.deq == w.r.deq && |z.r.trbs| == |w.r.trbs|
            && z.hw == w.hw && z.ccs == w.ccs && w.published <= z.published && z.consumed == w.consumed
  {
    SameKindsKeepGeometry(w.r, Given(w).r);
  }

  /** The driver takes the full ring for an empty one: it will not add a segment for any TD. */
  lemma FullLooksEmpty(p: Sys, td: seq<Body>)
    requires Fills(p, td)
    ensures var z := Given(WrittenTd(p, td, |td|));
            && Stuck(z.r) && z.hw == p.hw && z.ccs == p.ccs && z.r.deq == p.r.deq
            && p.published <= z.published && z.consumed == p.consumed
            && forall m: nat :: ExpansionNeeded(z.r, m) == 0
  {
    FilledIsStuck(p, td);
    TdKept(p, td, |td|);
    KeepsController(p, td, |td|);
    GivenKeeps(WrittenTd(p, td, |td|));
  }

  /** The TD after that begins where the controller has yet to go: its first TRB replaces one
      that was given, and is executed before it is given itself. */
  lemma NextTdOverwrites(p: Sys, td: seq<Body>, body: Body, more: bool)
    requires Fills(p, td) && p.hw == p.r.deq && Data(body)
    ensures var z := Given(WrittenTd(p, td, |td|));
            && Stuck(z.r)
            && var r := LeaveLink(z.r);
               && r.enq == p.hw && r.enq + 1 < |r.trbs|
               && RingModel.QueueTrb(r, body, !r.pcs, more).trbs[p.hw] == Trb(body, p.ccs)
  {
    FilledIsStuck(p, td);
    TdKept(p, td, |td|);
    KeepsController(p, td, |td| - 1);
    GivenKeeps(WrittenTd(p, td, |td|));
    CcsAtWrap(WrittenTd(p, td, |td| - 1), Given(WrittenTd(p, td, |td|)).r);
    Overwrites(Given(WrittenTd(p, td, |td|)).r, body, more);
  }

  lemma Overwrites(z: RingState, body: Body, more: bool)
    requires Stuck(z)
    ensures var r := LeaveLink(z);
            && r.enq == z.deq && r.enq + 1 < |r.trbs| && (r.pcs != z.pcs <==> z.enq == |z.trbs| - 1)
            && z.deq == Next(z.enq, |z.trbs|)
            && RingModel.QueueTrb(r, body, !r.pcs, more).trbs[r.enq] == Trb(body, !r.pcs)
  {
    CrossLinkFacts(z, z.quirk);
    LastIsLink(LeaveLink(z));
  }

  /** A controller at dequeue is one lap behind an enqueue position about to arrive there. */
  lemma CcsAtWrap(v: Sys, z: RingState)
    requires Inv(v) && Stuck(z) && z.enq == v.r.enq + 1 && z.pcs == v.r.pcs && v.hw == z.deq && |z.trbs| == |v.r.trbs|
    ensures v.ccs <==> if z.enq == |z.trbs| - 1 then z.pcs else !z.pcs
  {
    NextOfLink(z, z.enqSeg, z.enq);
  }

  // ------------------------------------------------------ a transfer that does it

  /** So many bytes that begin 512 behind a page boundary: one TRB more than pages. */
  function Span(t: nat): nat
    requires 3 <= t
  {
    (2 * t - 5) * C.PAGE
  }

  function Buffer(t: nat): seq<C.Block>
    requires 3 <= t
  {
    [C.Block(512, Span(t))]
  }

  const MAX_PACKET: nat := 1024

  function Long(t: nat, mapOk: nat -> bool): Transfer
    requires 3 <= t
  {
    Transfer(Buffer(t), Span(t), MAX_PACKET, mapOk, (j: nat) => 0)
  }

  lemma Counted(t: nat, mapOk: nat -> bool)
    requires 3 <= t
    ensures Long(t, mapOk).Valid() && Long(t, mapOk).Count() == 2 * t - 4
  {
    assert Buffer(t)[1..] == [];
    assert Span(t) + 512 + C.PAGE - 1 == (2 * t - 4) * C.PAGE + 511;
  }

  /** The number of TRBs from a TRB on, with `left` bytes to go from `addr` in the one block. */
  function LensFrom(t: nat, mapOk: nat -> bool, j: nat, o: nat, addr: nat, left: nat): seq<nat>
    requires 3 <= t && left <= Span(t)
  {
    C.LensBy(C.CutRule(Span(t), MAX_PACKET, t, mapOk), Buffer(t), Span(t), t, j, o, C.Spot(1, addr, left), Span(t) - left)
  }

  function CutLen(t: nat, mapOk: bool, o: nat, addr: nat, left: nat): nat
    requires 3 <= t && left <= Span(t)
  {
    C.Cut(Span(t), MAX_PACKET, t, o, mapOk, C.Spot(1, addr, left), Span(t) - left).0
  }

  /** `c` gives the number of TRBs from the j-th on, at an offset and an address, for what is left. */
  type Counter = (nat, nat, nat, nat) -> nat

  predicate CountsAt(c: Counter, t: nat, mapOk: nat -> bool, j: nat, o: nat, addr: nat, left: nat)
    requires 3 <= t
  {
    left <= Span(t) ==>
      var len := CutLen(t, mapOk(j), o, addr, left);
      && (len == left ==> c(j, o, addr, left) == 1)
      && (0 < len < left ==> c(j, o, addr, left) == 1 + c(j + 1, C.NextOffset(t, o), addr + len, left - len))
  }

  ghost predicate Counts(c: Counter, t: nat, mapOk: nat -> bool)
    requires 3 <= t
  {
    forall j: nat, o: nat, addr: nat, left: nat :: CountsAt(c, t, mapOk, j, o, addr, left)
  }

  lemma LensFromCounts(t: nat, mapOk: nat -> bool, j: nat, o: nat, addr: nat, left: nat)
    requires 3 <= t && left <= Span(t)
    ensures var len := CutLen(t, mapOk(j), o, addr, left);
            && (len == left ==> |LensFrom(t, mapOk, j, o, addr, left)| == 1)
            && (0 < len < left ==>
                  |LensFrom(t, mapOk, j, o, addr, left)| ==
                  1 + |LensFrom(t, mapOk, j + 1, C.NextOffset(t, o), addr + len, left - len)|)
  {
    var rule := C.CutRule(Span(t), MAX_PACKET, t, mapOk);
    var s := C.Spot(1, addr, left);
    var len := CutLen(t, mapOk(j), o, addr, left);
    assert rule(j, o, s, Span(t) - left) == len;
    if len < left { assert C.Skip(Buffer(t), s, len) == C.Spot(1, addr + len, left - len); }
  }

  function LensCounter(t: nat, mapOk: nat -> bool): Counter
    requires 3 <= t
  {
    (j: nat, o: nat, addr: nat, left: nat) => if left <= Span(t) then |LensFrom(t, mapOk, j, o, addr, left)| else 0
  }

  lemma LensCounterCounts(t: nat, mapOk: nat -> bool)
    requires 3 <= t
    ensures Counts(LensCounter(t, mapOk), t, mapOk)
  {
    forall j: nat, o: nat, addr: nat, left: nat ensures CountsAt(LensCounter(t, mapOk), t, mapOk, j, o, addr, left) {
      if left <= Span(t) { LensFromCounts(t, mapOk, j, o, addr, left); }
    }
  }

  /** After a TRB of `len` bytes. */
  lemma OneCut(c: Counter, t: nat, mapOk: nat -> bool, j: nat, o: nat, addr: nat, left: nat, len: nat, n: nat)
    requires 3 <= t && Counts(c, t, mapOk) && left <= Span(t) && 0 < len < left && CutLen(t, mapOk(j), o, addr, left) == len
    requires c(j + 1, C.NextOffset(t, o), addr + len, left - len) == n
    ensures c(j, o, addr, left) == n + 1
  {
    assert CountsAt(c, t, mapOk, j, o, addr, left);
  }

  lemma LastCut(c: Counter, t: nat, mapOk: nat -> bool, j: nat, o: nat, addr: nat, left: nat)
    requires 3 <= t && Counts(c, t, mapOk) && left <= Span(t) && CutLen(t, mapOk(j), o, addr, left) == left
    ensures c(j, o, addr, left) == 1
  {
    assert CountsAt(c, t, mapOk, j, o, addr, left);
  }

  /** Away from a link a TRB ends with its page, or with the buffer. */
  lemma PlainCut(t: nat, mapOk: bool, o: nat, addr: nat, left: nat, len: nat)
    requires 3 <= t && left <= Span(t) && (o + 2 != t || len == left)
    requires len == if C.UpToBoundary(addr) < left then C.UpToBoundary(addr) else left
    ensures CutLen(t, mapOk, o, addr, left) == len
  {
  }

  /** In front of the link a TRB that ends with its page is cut by 512 bytes. */
  lemma LinkCut(t: nat, mapOk: bool, addr: nat, left: nat)
    requires 3 <= t && C.UpToBoundary(addr) < left <= Span(t) && 512 < C.UpToBoundary(addr)
    requires (Span(t) - left + C.UpToBoundary(addr)) % MAX_PACKET == 512
    ensures CutLen(t, mapOk, t - 2, addr, left) == C.UpToBoundary(addr) - 512
  {
  }

  lemma PageMod(addr: nat)
    requires addr % C.PAGE == 0
    ensures C.UpToBoundary(addr) == C.PAGE && C.UpToBoundary(addr + (C.PAGE - 512)) == 512 && (addr + C.PAGE) % C.PAGE == 0
  {
  }

  /** Whole pages, then the last 512 bytes: nothing in front of a link is cut. */
  lemma {:induction false} PagesLeft(c: Counter, t: nat, mapOk: nat -> bool, j: nat, o: nat, addr: nat, pages: nat)
    requires 3 <= t && Counts(c, t, mapOk) && addr % C.PAGE == 0 && pages * C.PAGE + 512 <= Span(t) && o + pages + 2 <= t
    ensures c(j, o, addr, pages * C.PAGE + 512) == pages + 1
    decreases pages
  {
    var left := pages * C.PAGE + 512;
    PageMod(addr);
    if pages == 0 {
      PlainCut(t, mapOk(j), o, addr, 512, 512);
      LastCut(c, t, mapOk, j, o, addr, 512);
    } else {
      PagesLeft(c, t, mapOk, j + 1, o + 1, addr + C.PAGE, pages - 1);
      PlainCut(t, mapOk(j), o, addr, left, C.PAGE);
      OneCut(c, t, mapOk, j, o, addr, left, C.PAGE, pages);
    }
  }

  /** In front of the link a page is cut by 512 bytes, which the first TRB behind it makes up for. */
  lemma AtLink(c: Counter, t: nat, mapOk: nat -> bool, j: nat, addr: nat, pages: nat)
    requires 3 <= t && Counts(c, t, mapOk) && addr % C.PAGE == 0 && 1 <= pages && pages * C.PAGE + 512 <= Span(t) && pages + 2 <= t
    ensures c(j, t - 2, addr, pages * C.PAGE + 512) == pages + 2
  {
    var left := pages * C.PAGE + 512;
    AlignedPage(t, pages);
    PageMod(addr);
    BehindLink(c, t, mapOk, j + 1, addr, pages);
    LinkCut(t, mapOk(j), addr, left);
    OneCut(c, t, mapOk, j, t - 2, addr, left, C.PAGE - 512, pages + 1);
  }

  lemma BehindLink(c: Counter, t: nat, mapOk: nat -> bool, j: nat, addr: nat, pages: nat)
    requires 3 <= t && Counts(c, t, mapOk) && addr % C.PAGE == 0 && 1 <= pages && pages * C.PAGE + 512 <= Span(t) && pages + 2 <= t
    ensures c(j, 0, addr + (C.PAGE - 512), (pages - 1) * C.PAGE + 1024) == pages + 1
  {
    var left := (pages - 1) * C.PAGE + 1024;
    PageMod(addr);
    PagesLeft(c, t, mapOk, j + 1, 1, addr + C.PAGE, pages - 1);
    PlainCut(t, mapOk(j), 0, addr + (C.PAGE - 512), left, 512);
    OneCut(c, t, mapOk, j, 0, addr + (C.PAGE - 512), left, 512, pages);
  }

  /** How far into a packet a page in the buffer ends. */
  lemma AlignedPage(t: nat, pages: nat)
    requires 3 <= t && 1 <= pages && pages * C.PAGE + 512 <= Span(t)
    ensures (Span(t) - (pages * C.PAGE + 512) + C.PAGE) % MAX_PACKET == 512
  {
    assert Span(t) - (pages * C.PAGE + 512) + C.PAGE == (2 * t - 5 - pages) * C.PAGE + 64512 + 512;
  }

  lemma {:induction false} UpToLink(c: Counter, t: nat, mapOk: nat -> bool, j: nat, addr: nat, d: nat)
    requires 3 <= t && Counts(c, t, mapOk) && addr % C.PAGE == 0 && d + 2 < t && (t - 2 + d) * C.PAGE + 512 <= Span(t)
    ensures c(j, t - 2 - d, addr, (t - 2 + d) * C.PAGE + 512) == t + d
    decreases d
  {
    if d == 0 {
      AtLink(c, t, mapOk, j, addr, t - 2);
    } else {
      PageMod(addr);
      UpToLink(c, t, mapOk, j + 1, addr + C.PAGE, d - 1);
      PlainCut(t, mapOk(j), t - 2 - d, addr, (t - 2 + d) * C.PAGE + 512, C.PAGE);
      OneCut(c, t, mapOk, j, t - 2 - d, addr, (t - 2 + d) * C.PAGE + 512, C.PAGE, t + d - 1);
    }
  }

  /** Queued behind one TRB it takes one more than was counted. */
  lemma TakesOneMore(t: nat, mapOk: nat -> bool)
    requires 3 <= t
    ensures var x := Long(t, mapOk); |C.BulkLens(x.blocks, x.full, x.maxPkt, t, 1, x.mapOk)| == x.Count() + 1
  {
    Counted(t, mapOk);
    var x := Long(t, mapOk);
    assert C.BulkLens(x.blocks, x.full, x.maxPkt, t, 1, x.mapOk) == LensFrom(t, mapOk, 0, 1, 512, Span(t));
    var c := LensCounter(t, mapOk);
    LensCounterCounts(t, mapOk);
    if t == 3 { Shortest(c, t, mapOk); } else { Longer(c, t, mapOk); }
  }

  lemma Longer(c: Counter, t: nat, mapOk: nat -> bool)
    requires 4 <= t && Counts(c, t, mapOk)
    ensures c(0, 1, 512, Span(t)) == 2 * t - 3
  {
    UpToLink(c, t, mapOk, 1, C.PAGE, t - 4);
    PlainCut(t, mapOk(0), 1, 512, Span(t), C.PAGE - 512);
    OneCut(c, t, mapOk, 0, 1, 512, Span(t), C.PAGE - 512, 2 * t - 4);
  }

  lemma Shortest(c: Counter, t: nat, mapOk: nat -> bool)
    requires t == 3 && Counts(c, t, mapOk)
    ensures c(0, 1, 512, C.PAGE) == 3
  {
    LastTwo(c, t, mapOk);
    LinkCut(t, mapOk(0), 512, C.PAGE);
    OneCut(c, t, mapOk, 0, 1, 512, C.PAGE, 64512, 2);
  }

  lemma LastTwo(c: Counter, t: nat, mapOk: nat -> bool)
    requires t == 3 && Counts(c, t, mapOk)
    ensures c(1, 0, 65024, 1024) == 2
  {
    PlainCut(t, mapOk(2), 1, C.PAGE, 512, 512);
    LastCut(c, t, mapOk, 2, 1, C.PAGE, 512);
    PlainCut(t, mapOk(1), 0, 65024, 1024, 512);
    OneCut(c, t, mapOk, 1, 0, 65024, 1024, 512, 1);
  }

  // ------------------------------------------------------------- and the ring it meets

  ghost function Fresh(t: nat, quirk: bool): Sys {
    Sys(FreshRing(t, 2, quirk), 0, true, false, 0, 0, true, [], [])
  }

  /** A fresh ring of two segments with one TRB queued and given. */
  ghost predicate OneQueued(y: Sys, t: nat, b: Body) {
    && Inv(y) && !y.open && y.r.t == t && y.r.segs == 2 && y.r.enqSeg == 0 && y.r.enq == 1 && y.r.deqSeg == 0 && y.r.deq == 0
    && !IsLink(y.r.trbs[1]) && y.hw == 0 && y.published == [b] && y.consumed == []
  }

  lemma FreshPrepared(t: nat, quirk: bool)
    requires 3 <= t
    ensures var y := Fresh(t, quirk);
            && Initial(y) && Inv(y) && Times(0, t) == 0 && Times(1, t) == t && Times(2, t) == 2 * t
            && ExpansionNeeded(y.r, 1) == 0 && Prepared(y, 1) == y
            && 2 < |y.r.trbs| && !IsLink(y.r.trbs[0]) && !IsLink(y.r.trbs[1])
  {
    var y := Fresh(t, quirk);
    FreshIsInitial(t, 2, quirk);
    InitialInv(y);
    TimesIsProduct(1, t);
    TimesIsProduct(2, t);
    LinkInSeg(y.r, 0, 0);
    LinkInSeg(y.r, 0, 1);
    GrowByNothing(y);
  }

  lemma OneIsQueued(t: nat, quirk: bool, b: Body)
    requires 3 <= t && Data(b) && !b.chain
    ensures Inv(Fresh(t, quirk)) && Initial(Fresh(t, quirk))
    ensures var y := GivenBulk(Fresh(t, quirk), 1, [b]);
            OneQueued(y, t, b) && CanRun(Fresh(t, quirk), BulkSteps(1, [b])) && Run(Fresh(t, quirk), BulkSteps(1, [b])) == y
  {
    var y0 := Fresh(t, quirk);
    FreshPrepared(t, quirk);
    assert TdShaped([b]);
    FreshRoom(t, quirk);
    GivesFitting(y0, 1, [b]);
    FittingRuns(y0, 1, [b]);
    FirstWritten(y0, b);
  }

  lemma FreshRoom(t: nat, quirk: bool)
    requires 3 <= t && 0 < |Fresh(t, quirk).r.trbs| && !IsLink(Fresh(t, quirk).r.trbs[0])
    ensures 1 < RoomFor(Fresh(t, quirk).r, 1)
  {
  }

  lemma FirstWritten(y: Sys, b: Body)
    requires Inv(y) && Prepared(y, 1) == y && !y.open && 2 < |y.r.trbs| && !IsLink(y.r.trbs[1]) && y.r.enq == 0 && !b.chain
    requires y.r.segs == 2 && y.r.enqSeg == 0 && y.r.deqSeg == 0 && y.r.deq == 0 && y.hw == 0 && y.published == [] && y.consumed == []
    requires Data(b)
    requires Inv(GivenBulk(y, 1, [b]))
    ensures OneQueued(GivenBulk(y, 1, [b]), y.r.t, b)
  {
    assert WrittenTd(y, [b], 1) == Written(WrittenTd(y, [b], 0), b, false);
    assert Written(y, b, false) == Put(y, b);
    assert Window(Put(y, b).r.trbs, 0, 1) == [b] + Window(Put(y, b).r.trbs, 1, 1);
  }

  /** On that ring the transfer is counted to fit without another segment, and fills it. */
  lemma LongFills(y: Sys, t: nat, b: Body, mapOk: nat -> bool, trbs: seq<C.DataTrb>)
    requires 3 <= t && OneQueued(y, t, b) && Long(t, mapOk).Valid() && CutFor(y.r, Long(t, mapOk), trbs)
    ensures ExpansionNeeded(y.r, Long(t, mapOk).Count()) == 0 && Prepared(y, Long(t, mapOk).Count()) == y
    ensures Fills(y, BulkBodies(trbs)) && !FitsBulk(y.r, Long(t, mapOk))
  {
    var x := Long(t, mapOk);
    Counted(t, mapOk);
    TakesOneMore(t, mapOk);
    RoomBehindOne(y, t, b);
    CheckedOnceNeverGrows(y, x.Count());
    GrowByNothing(y);
    CutLength(y.r, x, trbs);
  }

  lemma RoomBehindOne(y: Sys, t: nat, b: Body)
    requires 3 <= t && OneQueued(y, t, b)
    ensures y.r.Room() == 2 * t - 3 && Times(y.r.enqSeg, y.r.t) == 0 && StartOffset(y.r) == 1
  {
    TimesIsProduct(1, t - 1);
  }

  lemma Unfitting(y: Sys, t: nat, b: Body, mapOk: nat -> bool)
    requires 3 <= t && OneQueued(y, t, b) && Long(t, mapOk).Valid()
    ensures ExpansionNeeded(y.r, Long(t, mapOk).Count()) == 0 && !FitsBulk(y.r, Long(t, mapOk))
  {
    Counted(t, mapOk);
    TakesOneMore(t, mapOk);
    RoomBehindOne(y, t, b);
    CheckedOnceNeverGrows(y, Long(t, mapOk).Count());
  }

  /** A run from a fresh ring whose next transfer breaks it: the driver counts one TRB too few,
      finds room and adds no segment. */
  lemma OverfillIsReached(t: nat, quirk: bool, b: Body, mapOk: nat -> bool)
    requires 3 <= t && Data(b) && !b.chain
    ensures Initial(Fresh(t, quirk)) && Inv(Fresh(t, quirk)) && Long(t, mapOk).Valid()
    ensures var y, x := GivenBulk(Fresh(t, quirk), 1, [b]), Long(t, mapOk);
            && Reached(Fresh(t, quirk), y) && OneQueued(y, t, b)
            && ExpansionNeeded(y.r, x.Count()) == 0 && !FitsBulk(y.r, x)
            && exists trbs :: CutFor(y.r, x, trbs)
  {
    OneIsQueued(t, quirk, b);
    Counted(t, mapOk);
    Unfitting(GivenBulk(Fresh(t, quirk), 1, [b]), t, b, mapOk);
    SomeCut(GivenBulk(Fresh(t, quirk), 1, [b]).r, Long(t, mapOk));
  }

  /** With that transfer queued the full ring looks empty, so that no later transfer makes it
      grow; and the first TRB of the next TD takes the place of the one the controller is about
      to execute, marked as given. */
  lemma OverfillLosesTrbs(y: Sys, t: nat, b: Body, mapOk: nat -> bool, trbs: seq<C.DataTrb>, body: Body, more: bool)
    requires 3 <= t && OneQueued(y, t, b) && Long(t, mapOk).Valid() && CutFor(y.r, Long(t, mapOk), trbs) && Data(body)
    ensures var z := GivenBulk(y, Long(t, mapOk).Count(), BulkBodies(trbs));
            && Stuck(z.r) && (forall m: nat :: ExpansionNeeded(z.r, m) == 0)
            && z.hw == 0 && z.consumed == [] && [b] <= z.published
            && var r := LeaveLink(z.r);
               && r.enq == 0 && 1 < |r.trbs|
               && RingModel.QueueTrb(r, body, !r.pcs, more).trbs[0] == Trb(body, z.ccs)
  {
    LongFills(y, t, b, mapOk, trbs);
    LosesTrbs(y, BulkBodies(trbs), body, more, Given(WrittenTd(y, BulkBodies(trbs), |trbs|)));
  }

  lemma LosesTrbs(p: Sys, td: seq<Body>, body: Body, more: bool, z: Sys)
    requires Fills(p, td) && p.hw == p.r.deq && Data(body) && z == Given(WrittenTd(p, td, |td|))
    ensures && Stuck(z.r) && (forall m: nat :: ExpansionNeeded(z.r, m) == 0)
            && z.hw == p.hw && z.consumed == p.consumed && p.published <= z.published
            && var r := LeaveLink(z.r);
               && r.enq == p.hw && p.hw + 1 < |r.trbs|
               && RingModel.QueueTrb(r, body, !r.pcs, more).trbs[p.hw] == Trb(body, z.ccs)
  {
    FullLooksEmpty(p, td);
    NextTdOverwrites(p, td, body, more);
  }
}
