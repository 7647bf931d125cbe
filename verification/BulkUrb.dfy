/** Queueing a bulk transfer: the ring is prepared for the TRBs counted, and then as many are
    written as the transfer was cut into. */
module BulkUrb {
  import opened RingModel
  import opened RingExpansion
  import opened RingFifo
  import opened RingCounts
  import opened RingChains
  import opened IsocUrb
  import opened Wrappers
  import C = TdCutting

  /** A transfer to be queued: its blocks, its length, the packet size of the endpoint, whether
      the j-th TRB could be bounced, and where the bounce buffer of its segment lies. */
  datatype Transfer = Transfer(blocks: seq<C.Block>, full: nat, maxPkt: nat, mapOk: nat -> bool, bounceAt: nat -> nat)
  {
    predicate Valid() { blocks != [] && 1 <= maxPkt && full <= C.Total(blocks) }

    /** What the ring is prepared for. */
    function Count(): nat { C.CountSg(blocks, full) }
  }

  /** A TRB in the ring; a bounced one points to the buffer of its segment. */
  function BulkBody(trb: C.DataTrb): Body {
    Body(Normal, trb.src.addr, trb.len, trb.chain, trb.ioc)
  }

  function BulkBodies(trbs: seq<C.DataTrb>): (td: seq<Body>)
    ensures |td| == |trbs|
  {
    seq(|trbs|, i requires 0 <= i < |trbs| => BulkBody(trbs[i]))
  }

  lemma BulkIsShaped(trbs: seq<C.DataTrb>)
    requires trbs != [] && C.Chained(trbs, false)
    ensures TdShaped(BulkBodies(trbs))
  {
  }

  // ------------------------------------------------ where the TRBs of a TD come to lie

  /** The offset of a position in its segment. */
  function Offset(r: RingState): int {
    r.enq - Times(r.enqSeg, r.t)
  }

  /** Enqueue is at a TRB of its own, whatever else is wrong with the ring. */
  ghost predicate Placed(r: RingState) {
    r.Geometry() && r.InSeg(r.enqSeg, r.enq) && r.enq < r.Size() && !IsLink(r.trbs[r.enq])
  }

  /** Writing a TRB that goes on moves enqueue to the next offset, over a link if there is one. */
  lemma WritePlaces(y: Sys, body: Body, more: bool)
    requires Placed(y.r) && Data(body) && (body.chain || more)
    ensures y.r.enq + 1 < |y.r.trbs|
    ensures IsLink(y.r.trbs[y.r.enq + 1]) <==> Offset(y.r) + 2 == y.r.t
    ensures var r := Written(y, body, more).r;
            && Placed(r) && r.t == y.r.t && 0 <= Offset(y.r) && Offset(r) == C.NextOffset(y.r.t, Offset(y.r))
  {
    var r := y.r;
    LinkInSeg(r, r.enqSeg, r.enq);
    SegBound(r.enqSeg, r.segs, r.t);
    LinkInSeg(r, r.enqSeg, r.enq + 1);
    PutPlaces(y, body);
    WrittenIsPut(y, body, more);
    var y1 := Put(y, body);
    if IsLink(r.trbs[r.enq + 1]) {
      CrossPlaces(y1.r, if r.quirk then r.trbs[r.enq + 1].body.chain else body.chain);
    }
  }

  lemma PutPlaces(y: Sys, body: Body)
    requires Placed(y.r) && Data(body) && y.r.enq + 1 < |y.r.trbs| && y.r.InSeg(y.r.enqSeg, y.r.enq + 1)
    ensures var r := Put(y, body).r;
            && r.Geometry() && r.InSeg(r.enqSeg, r.enq) && r.enq == y.r.enq + 1 && r.t == y.r.t && r.enqSeg == y.r.enqSeg
            && r.trbs[r.enq] == y.r.trbs[r.enq]
  {
    SameKindsKeepGeometry(y.r, Put(y, body).r);
  }

  lemma CrossPlaces(r: RingState, chain: bool)
    requires r.Geometry() && r.InSeg(r.enqSeg, r.enq) && r.enq < r.Size() && IsLink(r.trbs[r.enq])
    ensures var r' := CrossLink(r, chain); Placed(r') && r'.t == r.t && Offset(r') == 0
  {
    var r' := CrossLink(r, chain);
    SameKindsKeepGeometry(r, r');
    SegBound(r'.enqSeg, r.segs, r.t);
    LinkInSeg(r', r'.enqSeg, r'.enq);
  }

  /** Enqueue is placed where the j-th TRB of a TD comes that began at `off`. */
  ghost predicate PlacedFor(r: RingState, t: nat, off: nat, j: nat) {
    Placed(r) && r.t == t && Offset(r) == C.OffsetOf(t, off, j)
  }

  lemma PlacesNext(y: Sys, body: Body, more: bool, t: nat, off: nat, j: nat)
    requires PlacedFor(y.r, t, off, j) && Data(body) && (body.chain || more)
    ensures y.r.enq + 1 < |y.r.trbs| && PlacedFor(Written(y, body, more).r, t, off, j + 1)
  {
    WritePlaces(y, body, more);
  }

  lemma {:induction false} TdPlaces(y: Sys, td: seq<Body>, t: nat, off: nat, j: nat)
    requires PlacedFor(y.r, t, off, 0) && TdShaped(td) && j < |td|
    ensures PlacedFor(WrittenTd(y, td, j).r, t, off, j)
    decreases j
  {
    if j != 0 {
      TdPlaces(y, td, t, off, j - 1);
      PlacesNext(WrittenTd(y, td, j - 1), td[j - 1], true, t, off, j - 1);
      WrittenTdStep(y, td, j);
    }
  }

  /** What writing TRBs leaves alone, and where the TD begins. */
  ghost predicate TdKeeps(y: Sys, z: Sys, began: bool) {
    && z.r.t == y.r.t && z.r.segs == y.r.segs && z.r.deqSeg == y.r.deqSeg && z.r.deq == y.r.deq
    && |z.r.trbs| == |y.r.trbs|
    && z.open == began && (began ==> z.start == y.r.enq && z.startCycle == y.r.pcs)
  }

  lemma WrittenKeeps(y: Sys, z: Sys, began: bool, body: Body, more: bool)
    requires TdKeeps(y, z, began) && z.r.enq + 1 < |z.r.trbs| && (!began ==> z == y)
    ensures TdKeeps(y, Written(z, body, more), true)
  {
  }

  lemma {:induction false} TdKept(y: Sys, td: seq<Body>, j: nat)
    requires Placed(y.r) && !y.open && TdShaped(td) && j <= |td|
    ensures TdKeeps(y, WrittenTd(y, td, j), 0 < j)
    decreases j
  {
    if j != 0 {
      TdKept(y, td, j - 1);
      TdReady(y, td, j - 1);
      WrittenKeeps(y, WrittenTd(y, td, j - 1), 0 < j - 1, td[j - 1], j - 1 < |td| - 1);
    }
  }

  /** Each TRB of a TD finds enqueue at a place of its own. */
  lemma TdReady(y: Sys, td: seq<Body>, j: nat)
    requires Placed(y.r) && TdShaped(td) && j < |td|
    ensures var z := WrittenTd(y, td, j);
            && Placed(z.r) && z.r.enq + 1 < |z.r.trbs|
            && WrittenTd(y, td, j + 1) == Written(z, td[j], j < |td| - 1)
  {
    TdPlaces(y, td, y.r.t, Offset(y.r), j);
    NextSlot(WrittenTd(y, td, j).r);
    WrittenTdStep(y, td, j + 1);
  }

  /** The TRBs of a TD written as they come: each says by its chain bit whether another will. */
  function WrittenSoFar(y: Sys, td: seq<Body>): Sys {
    if td == [] then y
    else
      var z, body := WrittenSoFar(y, td[..|td| - 1]), td[|td| - 1];
      if z.r.enq + 1 < |z.r.trbs| then Written(z, body, body.chain) else z
  }

  lemma {:induction false} SoFarIsTd(y: Sys, td: seq<Body>, j: nat)
    requires TdShaped(td) && j <= |td|
    ensures WrittenSoFar(y, td[..j]) == WrittenTd(y, td, j)
    decreases j
  {
    if j != 0 {
      SoFarIsTd(y, td, j - 1);
      assert td[..j][..j - 1] == td[..j - 1];
    }
  }

  lemma SoFarNext(y: Sys, td: seq<Body>, body: Body)
    requires var z := WrittenSoFar(y, td); z.r.enq + 1 < |z.r.trbs|
    ensures WrittenSoFar(y, td + [body]) == Written(WrittenSoFar(y, td), body, body.chain)
  {
    assert (td + [body])[..|td|] == td;
  }

  /** A TD being written from `p` on: `z` is the ring so far, with enqueue at offset `o` if more is to come. */
  ghost predicate Writing(p: Sys, z: Sys, began: bool, more: bool, o: nat) {
    TdKeeps(p, z, began) && (!began ==> z == p) && (more ==> Placed(z.r) && Offset(z.r) == o)
  }

  lemma WritingNext(p: Sys, z: Sys, began: bool, o: nat, body: Body)
    requires Writing(p, z, began, true, o) && Data(body)
    ensures z.r.enq + 1 < |z.r.trbs| && Writing(p, Written(z, body, body.chain), true, body.chain, C.NextOffset(p.r.t, o))
    ensures IsLink(z.r.trbs[z.r.enq + 1]) <==> o + 2 == p.r.t
  {
    NextSlot(z.r);
    WrittenKeeps(p, z, began, body, body.chain);
    if body.chain { WritePlaces(z, body, true); }
  }

  /** The ring as the loop leaves it after these TRBs. */
  ghost predicate WroteTrbs(p: Sys, trbs: seq<C.DataTrb>, more: bool, o: nat, r: RingState) {
    r == WrittenSoFar(p, BulkBodies(trbs)).r && Writing(p, WrittenSoFar(p, BulkBodies(trbs)), trbs != [], more, o)
  }

  /** Where the queueing loop stands, in the transfer and on the ring. */
  ghost predicate StandsIn(mem: nat -> Byte, x: Transfer, p: Sys, off: nat,
                           s: C.Spot, enqd: nat, trbs: seq<C.DataTrb>, o: nat, r: RingState)
  {
    && x.Valid()
    && C.Standing(mem, x.blocks, x.full, C.CutRule(x.full, x.maxPkt, p.r.t, x.mapOk), x.bounceAt, p.r.t,
                  C.BulkLens(x.blocks, x.full, x.maxPkt, p.r.t, off, x.mapOk), s, enqd, trbs, o)
    && WroteTrbs(p, trbs, trbs == [] || enqd < x.full, o, r)
  }

  /** The same as a value, for the loop, which need not look inside. */
  type Stand = (C.Spot, nat, seq<C.DataTrb>, nat, RingState) -> bool

  ghost function StandOf(mem: nat -> Byte, x: Transfer, p: Sys, off: nat): Stand {
    (s: C.Spot, enqd: nat, trbs: seq<C.DataTrb>, o: nat, r: RingState) => StandsIn(mem, x, p, off, s, enqd, trbs, o, r)
  }

  ghost predicate MeansAt(stand: Stand, mem: nat -> Byte, x: Transfer, p: Sys, off: nat,
                          s: C.Spot, enqd: nat, trbs: seq<C.DataTrb>, o: nat, r: RingState)
  {
    stand(s, enqd, trbs, o, r) <==> StandsIn(mem, x, p, off, s, enqd, trbs, o, r)
  }

  ghost predicate Means(stand: Stand, mem: nat -> Byte, x: Transfer, p: Sys, off: nat) {
    forall s: C.Spot, enqd: nat, trbs: seq<C.DataTrb>, o: nat, r: RingState ::
      MeansAt(stand, mem, x, p, off, s, enqd, trbs, o, r)
  }

  lemma StandOfMeans(mem: nat -> Byte, x: Transfer, p: Sys, off: nat)
    ensures Means(StandOf(mem, x, p, off), mem, x, p, off)
  {
    forall s: C.Spot, enqd: nat, trbs: seq<C.DataTrb>, o: nat, r: RingState
      ensures MeansAt(StandOf(mem, x, p, off), mem, x, p, off, s, enqd, trbs, o, r)
    {
      assert StandOf(mem, x, p, off)(s, enqd, trbs, o, r) <==> StandsIn(mem, x, p, off, s, enqd, trbs, o, r);
    }
  }

  lemma StandsAtStart(mem: nat -> Byte, x: Transfer, p: Sys, off: nat)
    requires x.Valid() && !p.open && Placed(p.r) && Offset(p.r) == off
    ensures StandsIn(mem, x, p, off, C.Begin(x.blocks), 0, [], off, p.r)
  {
    C.CuttingStarts(mem, x.blocks, x.full, x.maxPkt, p.r.t, off, x.mapOk, x.bounceAt);
    NothingWritten(p, off);
  }

  lemma StandsAtEnd(mem: nat -> Byte, x: Transfer, p: Sys, off: nat, s: C.Spot, enqd: nat, trbs: seq<C.DataTrb>, o: nat, r: RingState)
    requires StandsIn(mem, x, p, off, s, enqd, trbs, o, r) && trbs != [] && enqd >= x.full
    ensures C.CutWhole(mem, x.blocks, x.full, x.bounceAt, trbs)
    ensures C.LensOf(trbs) == C.BulkLens(x.blocks, x.full, x.maxPkt, p.r.t, off, x.mapOk)
    ensures r == WrittenSoFar(p, BulkBodies(trbs)).r
  {
    C.CuttingEnds(mem, x.blocks, x.full, C.CutRule(x.full, x.maxPkt, p.r.t, x.mapOk), x.bounceAt, p.r.t,
                  C.BulkLens(x.blocks, x.full, x.maxPkt, p.r.t, off, x.mapOk), s, enqd, trbs, o);
  }

  lemma NothingWritten(p: Sys, o: nat)
    requires !p.open && Placed(p.r) && Offset(p.r) == o
    ensures WroteTrbs(p, [], true, o, p.r)
  {
    assert BulkBodies([]) == [];
  }

  lemma WritesNext(p: Sys, trbs: seq<C.DataTrb>, trb: C.DataTrb)
    requires var z := WrittenSoFar(p, BulkBodies(trbs)); z.r.enq + 1 < |z.r.trbs|
    ensures WrittenSoFar(p, BulkBodies(trbs + [trb])) == Written(WrittenSoFar(p, BulkBodies(trbs)), BulkBody(trb), trb.chain)
  {
    BodiesNext(trbs, trb);
    SoFarNext(p, BulkBodies(trbs), BulkBody(trb));
  }

  lemma WroteIs(p: Sys, trbs: seq<C.DataTrb>, more: bool, o: nat, w: Sys)
    requires w == WrittenSoFar(p, BulkBodies(trbs)) && trbs != [] && Writing(p, w, true, more, o)
    ensures WroteTrbs(p, trbs, more, o, w.r)
  {
  }

  lemma BodiesNext(trbs: seq<C.DataTrb>, trb: C.DataTrb)
    ensures BulkBodies(trbs + [trb]) == BulkBodies(trbs) + [BulkBody(trb)]
  {
  }

  lemma BodiesAreTd(p: Sys, trbs: seq<C.DataTrb>)
    requires trbs != [] && C.Chained(trbs, false)
    ensures WrittenSoFar(p, BulkBodies(trbs)) == WrittenTd(p, BulkBodies(trbs), |trbs|)
  {
    BulkIsShaped(trbs);
    SoFarIsTd(p, BulkBodies(trbs), |trbs|);
    assert BulkBodies(trbs)[..|trbs|] == BulkBodies(trbs);
  }

  /** Giving the TD is setting the cycle bit of its first TRB. */
  lemma GivenInPlace(p: Sys, td: seq<Body>)
    requires Placed(p.r) && !p.open && TdShaped(td)
    ensures var r := WrittenTd(p, td, |td|).r;
            && p.r.enq < |r.trbs|
            && Given(WrittenTd(p, td, |td|)).r == r.(trbs := r.trbs[p.r.enq := r.trbs[p.r.enq].(cycle := p.r.pcs)])
  {
    TdKept(p, td, |td|);
    TdPlaced(p, td);
  }

  lemma TdPlaced(p: Sys, td: seq<Body>)
    requires Placed(p.r) && TdShaped(td)
    ensures var r := WrittenTd(p, td, |td|).r; r.enq < |r.trbs|
  {
    TdReady(p, td, |td| - 1);
    var z := WrittenTd(p, td, |td| - 1);
    WrittenEnds(z, td[|td| - 1]);
  }

  lemma WrittenEnds(z: Sys, body: Body)
    requires z.r.enq + 1 < |z.r.trbs| && !body.chain
    ensures var r := Written(z, body, false).r; r.enq == z.r.enq + 1 < |r.trbs|
  {
  }

  /** The j-th TRB of a TD lies at the j-th offset from where the TD began: where it was cut
      for a link there is a link, and only there. */
  lemma CutsMeetLinks(y: Sys, td: seq<Body>, j: nat)
    requires Placed(y.r) && TdShaped(td) && j < |td| && 0 <= Offset(y.r)
    ensures var r := WrittenTd(y, td, j).r;
            && r.enq + 1 < |r.trbs|
            && (IsLink(r.trbs[r.enq + 1]) <==> C.OffsetOf(y.r.t, Offset(y.r), j) + 2 == y.r.t)
  {
    TdPlaces(y, td, y.r.t, Offset(y.r), j);
    NextSlot(WrittenTd(y, td, j).r);
  }

  lemma NextSlot(r: RingState)
    requires Placed(r)
    ensures r.enq + 1 < |r.trbs| && (IsLink(r.trbs[r.enq + 1]) <==> Offset(r) + 2 == r.t)
  {
    LinkInSeg(r, r.enqSeg, r.enq);
    SegBound(r.enqSeg, r.segs, r.t);
    LinkInSeg(r, r.enqSeg, r.enq + 1);
  }

  // ------------------------------------------------------- which transfers fit

  /** No TRB of the TD breaks the ring. */
  ghost predicate Survives(y: Sys, td: seq<Body>) {
    forall j :: 0 <= j <= |td| ==> Inv(WrittenTd(y, td, j))
  }

  /** The ring survives a TD exactly if there is room for it and one more TRB. */
  lemma SurvivesExactly(y: Sys, td: seq<Body>)
    requires Inv(y) && !IsLink(y.r.trbs[y.r.enq]) && TdShaped(td)
    ensures Survives(y, td) <==> |td| < y.r.Room()
  {
    if |td| < y.r.Room() {
      forall j | 0 <= j <= |td| ensures Inv(WrittenTd(y, td, j)) { WrittenTdOk(y, td, j); }
    } else {
      var room: nat := y.r.Room();
      TooManyBreak(y, td, room);
    }
  }

  /** The TRB that takes the last slot is the one that breaks it. */
  lemma TooManyBreak(y: Sys, td: seq<Body>, room: nat)
    requires Inv(y) && !IsLink(y.r.trbs[y.r.enq]) && TdShaped(td) && y.r.Room() == room && 1 <= room <= |td|
    ensures !Inv(WrittenTd(y, td, room))
  {
    var z := WrittenTd(y, td, room - 1);
    WrittenTdOk(y, td, room - 1);
    WriteNeedsRoom(z, td[room - 1], room < |td|);
    WrittenTdStep(y, td, room);
  }

  // ------------------------------------------------- a transfer, from before the call

  /** Where the first TRB will come to lie once the ring is prepared. */
  function StartOffset(r: RingState): nat
    requires r.enq < |r.trbs| && Times(r.enqSeg, r.t) <= r.enq
  {
    if IsLink(r.trbs[r.enq]) then 0 else r.enq - Times(r.enqSeg, r.t)
  }

  lemma PreparedOffset(y: Sys, n: nat)
    requires Inv(y) && (0 < ExpansionNeeded(y.r, n) ==> !LinkAhead(y))
    ensures Inv(Prepared(y, n)) && Prepared(y, n).r.t == y.r.t
    ensures Offset(Prepared(y, n).r) == StartOffset(y.r)
  {
    PreparedKeepsInv(y, n);
    GrownKeepsInv(y, n);
    GrownOffset(y, ExpansionNeeded(y.r, n));
    LeavingOffset(y, n);
  }

  lemma GrownOffset(y: Sys, k: nat)
    requires Inv(y)
    ensures var r := Grow(y, k).r;
            && r.t == y.r.t && r.enq == y.r.enq && r.enqSeg == y.r.enqSeg && r.enq < |r.trbs|
            && (IsLink(r.trbs[r.enq]) <==> IsLink(y.r.trbs[y.r.enq]))
  {
    SegEnd(y.r);
    LastIsLink(y.r);
    SplicedAt(y.r, k, y.r.enq);
  }

  lemma LeavingOffset(y: Sys, n: nat)
    requires Inv(y) && Inv(Grow(y, ExpansionNeeded(y.r, n)))
    ensures var r, r' := Grow(y, ExpansionNeeded(y.r, n)).r, Prepared(y, n).r;
            r'.t == r.t && Offset(r') == StartOffset(r)
  {
    var r := Grow(y, ExpansionNeeded(y.r, n)).r;
    if IsLink(r.trbs[r.enq]) { CrossPlaces(r, r.quirk); }
  }

  /** A ring ready for a transfer, prepared from what it was. */
  ghost predicate ReadyFor(p: Sys, r: RingState) {
    && !p.open && Placed(p.r) && p.r.InSeg(p.r.deqSeg, p.r.deq) && p.r.t == r.t
    && r.enq < |r.trbs| && Times(r.enqSeg, r.t) <= r.enq && Offset(p.r) == StartOffset(r)
  }

  lemma PreparedForBulk(y: Sys, n: nat)
    requires Inv(y) && !y.open && (0 < ExpansionNeeded(y.r, n) ==> !LinkAhead(y))
    ensures Prepared(y, n).r == PreparedRing(y.r, n) && ReadyFor(Prepared(y, n), y.r)
  {
    PrepareFacts(y, n);
    PreparedKeepsPending(y, n);
    PreparedOffset(y, n);
    PreparedOffLink(y, n);
  }

  /** How many TRBs the transfer will be cut into on this ring. */
  function TrbsNeeded(r: RingState, x: Transfer): nat
    requires r.enq < |r.trbs| && Times(r.enqSeg, r.t) <= r.enq && x.Valid()
  {
    |C.BulkLens(x.blocks, x.full, x.maxPkt, r.t, StartOffset(r), x.mapOk)|
  }

  /** Whether the transfer fits: a matter of the ring as it is before the call, of the blocks,
      length and packet size of the transfer, and of which bounce buffers can be mapped. */
  predicate FitsBulk(r: RingState, x: Transfer)
    requires 2 <= r.t && r.enq < |r.trbs| && Times(r.enqSeg, r.t) <= r.enq && x.Valid()
  {
    TrbsNeeded(r, x) < RoomFor(r, x.Count())
  }

  function CutsFor(r: RingState, x: Transfer): nat
    requires r.enq < |r.trbs| && Times(r.enqSeg, r.t) <= r.enq && x.Valid()
  {
    C.BulkCuts(x.blocks, x.full, x.maxPkt, r.t, StartOffset(r), x.mapOk)
  }

  /** It takes no more TRBs than counted and one for each that is cut short, each at a link it crosses. */
  lemma CountBounds(r: RingState, x: Transfer)
    requires r.enq < |r.trbs| && Times(r.enqSeg, r.t) <= r.enq && x.Valid()
    ensures 1 <= TrbsNeeded(r, x) <= x.Count() + CutsFor(r, x)
    ensures CutsFor(r, x) <= C.Crossed(r.t, StartOffset(r), TrbsNeeded(r, x) - 1)
  {
    C.BulkCount(x.blocks, x.full, x.maxPkt, r.t, StartOffset(r), x.mapOk);
  }

  /** A transfer that is cut short nowhere fits whenever the driver's own count does; one that
      is, whenever there is room for a TRB more at each link it is cut short at. */
  lemma CountFits(y: Sys, x: Transfer)
    requires Inv(y) && x.Valid() && (0 < ExpansionNeeded(y.r, x.Count()) ==> !LinkAhead(y))
    ensures x.Count() + CutsFor(y.r, x) < RoomFor(y.r, x.Count()) ==> FitsBulk(y.r, x)
    ensures CutsFor(y.r, x) == 0 && !StuckOnLink(y.r) ==> FitsBulk(y.r, x)
  {
    CountBounds(y.r, x);
    PreparedRoom(y, x.Count());
  }

  /** The TRBs are those the transfer is cut into on this ring. */
  predicate CutFor(r: RingState, x: Transfer, trbs: seq<C.DataTrb>)
    requires r.enq < |r.trbs| && Times(r.enqSeg, r.t) <= r.enq && x.Valid()
  {
    trbs != [] && C.Chained(trbs, false) &&
    C.LensOf(trbs) == C.BulkLens(x.blocks, x.full, x.maxPkt, r.t, StartOffset(r), x.mapOk)
  }

  lemma CutLength(r: RingState, x: Transfer, trbs: seq<C.DataTrb>)
    requires r.enq < |r.trbs| && Times(r.enqSeg, r.t) <= r.enq && x.Valid() && CutFor(r, x, trbs)
    ensures |BulkBodies(trbs)| == TrbsNeeded(r, x) && TdShaped(BulkBodies(trbs))
  {
    assert |C.LensOf(trbs)| == |trbs|;
    BulkIsShaped(trbs);
  }

  lemma SomeCut(r: RingState, x: Transfer)
    requires r.enq < |r.trbs| && Times(r.enqSeg, r.t) <= r.enq && x.Valid()
    ensures exists trbs :: CutFor(r, x, trbs)
  {
    CountBounds(r, x);
    var lens := C.BulkLens(x.blocks, x.full, x.maxPkt, r.t, StartOffset(r), x.mapOk);
    var trbs := seq(|lens|, i requires 0 <= i < |lens| => C.DataTrb(C.Dma(0), lens[i], i < |lens| - 1, i == |lens| - 1));
    assert C.LensOf(trbs) == lens;
    assert CutFor(r, x, trbs);
  }

  /** Queueing a transfer keeps the ring sound, TRB by TRB, if and only if it fits. */
  lemma BulkFitsExactly(y: Sys, x: Transfer, trbs: seq<C.DataTrb>)
    requires Inv(y) && x.Valid() && (0 < ExpansionNeeded(y.r, x.Count()) ==> !LinkAhead(y))
    requires CutFor(y.r, x, trbs)
    ensures Inv(Prepared(y, x.Count()))
    ensures Survives(Prepared(y, x.Count()), BulkBodies(trbs)) <==> FitsBulk(y.r, x)
  {
    PreparedRoom(y, x.Count());
    CutLength(y.r, x, trbs);
    SurvivesExactly(Prepared(y, x.Count()), BulkBodies(trbs));
  }

  /** Giving whatever has been written. */
  function Given(z: Sys): Sys {
    if z.open && z.start < |z.r.trbs| && z.r.enq < |z.r.trbs| then Publish(z) else z
  }

  /** The ring with the transfer prepared for, written and given. */
  function GivenBulk(y: Sys, n: nat, td: seq<Body>): Sys
    requires Inv(y)
  {
    Given(WrittenTd(Prepared(y, n), td, |td|))
  }

  /** A transfer that fits is handed over as a whole, after everything before it. */
  lemma BulkIsPublished(y: Sys, x: Transfer, trbs: seq<C.DataTrb>)
    requires Inv(y) && !y.open && x.Valid() && (0 < ExpansionNeeded(y.r, x.Count()) ==> !LinkAhead(y))
    requires CutFor(y.r, x, trbs) && FitsBulk(y.r, x)
    ensures var z := GivenBulk(y, x.Count(), BulkBodies(trbs));
            && Inv(z) && !z.open
            && z.consumed + Visible(z.r.trbs, z.hw, z.ccs, z.r.Size()) == y.published + BulkBodies(trbs)
  {
    CutLength(y.r, x, trbs);
    GivesFitting(y, x.Count(), BulkBodies(trbs));
  }

  lemma GivesFitting(y: Sys, n: nat, td: seq<Body>)
    requires Inv(y) && !y.open && (0 < ExpansionNeeded(y.r, n) ==> !LinkAhead(y))
    requires TdShaped(td) && |td| < RoomFor(y.r, n)
    ensures var z := GivenBulk(y, n, td);
            && Inv(z) && !z.open
            && z.consumed + Visible(z.r.trbs, z.hw, z.ccs, z.r.Size()) == y.published + td
  {
    var p := Prepared(y, n);
    PreparedRoom(y, n);
    PreparedKeepsPending(y, n);
    WrittenTdOk(p, td, |td|);
    assert td[..|td|] == td;
    PublishedTd(p, WrittenTd(p, td, |td|), td);
  }

  lemma PublishedTd(p: Sys, z: Sys, td: seq<Body>)
    requires Inv(p) && !p.open && Wrote(p, z, td, |td|) && td != [] && td[..|td|] == td
    ensures Inv(Publish(z)) && !Publish(z).open
    ensures var w := Publish(z); w.consumed + Visible(w.r.trbs, w.hw, w.ccs, w.r.Size()) == p.published + td
  {
    PublishKeepsInv(z);
    ControllerSeesPublished(Publish(z));
  }

  // --------------------------------------------------------------- as steps of a run

  /** A first step, those of writing the TRBs, and the last one that gives them. */
  function StepAt(first: Step, td: seq<Body>, k: nat): Step {
    if k == 0 then first else if k <= |td| then Write(td[k - 1], k - 1 < |td| - 1) else Give
  }

  /** The states they lead through: `y`, then `w(j)` with `j` TRBs of `n` written, then `z`. */
  function StateAt(y: Sys, w: nat -> Sys, n: nat, z: Sys, k: nat): Sys {
    if k == 0 then y else if k <= n + 1 then w(k - 1) else z
  }

  ghost function StepsOf(first: Step, td: seq<Body>): nat -> Step {
    (k: nat) => StepAt(first, td, k)
  }

  ghost function StatesOf(y: Sys, w: nat -> Sys, n: nat, z: Sys): nat -> Sys {
    (k: nat) => StateAt(y, w, n, z, k)
  }

  /** Preparing for `n` TRBs, writing those of the TD and giving it. */
  ghost function BulkSteps(n: nat, td: seq<Body>): seq<Step> {
    Listed(StepsOf(Prepare(n, true), td), 0, |td| + 2)
  }

  lemma GiveOnward(z: Sys)
    requires Inv(z) && z.open
    ensures Onward(z, Give, Given(z))
  {
  }

  lemma WriteOnward(y: Sys, z: Sys, td: seq<Body>, j: nat, next: Sys)
    requires Fits(y, td) && j < |td| && Wrote(y, z, td, j)
    requires z.r.enq + 1 < |z.r.trbs| ==> next == Written(z, td[j], j < |td| - 1)
    ensures Onward(z, Write(td[j], j < |td| - 1), next)
  {
    NotLinkMeansNext(z);
  }

  lemma NextIsWritten(y: Sys, td: seq<Body>, j: nat)
    requires j < |td|
    ensures var z := WrittenTd(y, td, j);
            z.r.enq + 1 < |z.r.trbs| ==> WrittenTd(y, td, j + 1) == Written(z, td[j], j < |td| - 1)
  {
    if WrittenTd(y, td, j).r.enq + 1 < |WrittenTd(y, td, j).r.trbs| { WrittenTdStep(y, td, j + 1); }
  }

  /** The next TRB of a fitting TD can be written. */
  lemma NextOnward(p: Sys, td: seq<Body>, j: nat)
    requires Fits(p, td) && j < |td|
    ensures Onward(WrittenTd(p, td, j), Write(td[j], j < |td| - 1), WrittenTd(p, td, j + 1))
  {
    WrittenTdOk(p, td, j);
    NextIsWritten(p, td, j);
    WriteOnward(p, WrittenTd(p, td, j), td, j, WrittenTd(p, td, j + 1));
  }

  lemma LastOnward(p: Sys, td: seq<Body>)
    requires Fits(p, td)
    ensures Onward(WrittenTd(p, td, |td|), Give, Given(WrittenTd(p, td, |td|)))
  {
    WrittenTdOk(p, td, |td|);
    GiveOnward(WrittenTd(p, td, |td|));
  }

  lemma PreparedFits(y: Sys, n: nat, td: seq<Body>)
    requires Inv(y) && (0 < ExpansionNeeded(y.r, n) ==> !LinkAhead(y))
    requires TdShaped(td) && |td| < RoomFor(y.r, n)
    ensures Fits(Prepared(y, n), td) && Onward(y, Prepare(n, true), Prepared(y, n))
  {
    PreparedRoom(y, n);
  }

  /** Each step of the TD by itself leads on. */
  ghost predicate TdLeads(rel: Relation, y: Sys, first: Step, w: nat -> Sys, td: seq<Body>, z: Sys) {
    && rel(y, first, w(0))
    && (forall j: nat :: j < |td| ==> rel(w(j), Write(td[j], j < |td| - 1), w(j + 1)))
    && rel(w(|td|), Give, z)
  }

  lemma TdLeadsAt(rel: Relation, y: Sys, first: Step, w: nat -> Sys, td: seq<Body>, z: Sys, k: nat)
    requires TdLeads(rel, y, first, w, td, z) && k < |td| + 2
    ensures LeadsBy(rel, StatesOf(y, w, |td|, z), StepsOf(first, td), k)
  {
    if 1 <= k <= |td| { assert rel(w(k - 1), Write(td[k - 1], k - 1 < |td| - 1), w(k - 1 + 1)); }
  }

  lemma TdRuns(rel: Relation, y: Sys, n: nat, w: nat -> Sys, td: seq<Body>, z: Sys)
    requires Faithful(rel) && TdLeads(rel, y, Prepare(n, true), w, td, z)
    ensures CanRun(y, BulkSteps(n, td)) && Run(y, BulkSteps(n, td)) == z
  {
    var f, g := StatesOf(y, w, |td|, z), StepsOf(Prepare(n, true), td);
    forall k: nat | k < |td| + 2 ensures LeadsBy(rel, f, g, k) { TdLeadsAt(rel, y, Prepare(n, true), w, td, z, k); }
    ChainRuns(rel, f, g, 0, |td| + 2);
  }

  ghost function WrittenOf(p: Sys, td: seq<Body>): nat -> Sys {
    (j: nat) => if j <= |td| then WrittenTd(p, td, j) else p
  }

  lemma FitsLeads(y: Sys, first: Step, p: Sys, td: seq<Body>)
    requires Onward(y, first, p) && Fits(p, td)
    ensures TdLeads(Leading(), y, first, WrittenOf(p, td), td, Given(WrittenTd(p, td, |td|)))
  {
    forall j: nat | j < |td|
      ensures Leading()(WrittenOf(p, td)(j), Write(td[j], j < |td| - 1), WrittenOf(p, td)(j + 1))
    {
      NextLeads(p, td, j);
    }
    LastOnward(p, td);
    LeadingIs(y, first, p);
    LeadingIs(WrittenTd(p, td, |td|), Give, Given(WrittenTd(p, td, |td|)));
    TdLeadsIf(Leading(), y, first, p, td);
  }

  lemma TdLeadsIf(rel: Relation, y: Sys, first: Step, p: Sys, td: seq<Body>)
    requires rel(y, first, p) && rel(WrittenTd(p, td, |td|), Give, Given(WrittenTd(p, td, |td|)))
    requires forall j: nat :: j < |td| ==> rel(WrittenOf(p, td)(j), Write(td[j], j < |td| - 1), WrittenOf(p, td)(j + 1))
    ensures TdLeads(rel, y, first, WrittenOf(p, td), td, Given(WrittenTd(p, td, |td|)))
  {
    assert WrittenOf(p, td)(0) == p;
    assert WrittenOf(p, td)(|td|) == WrittenTd(p, td, |td|);
  }

  lemma LeadingIs(y: Sys, step: Step, z: Sys)
    requires Onward(y, step, z)
    ensures Leading()(y, step, z)
  {
  }

  lemma NextLeads(p: Sys, td: seq<Body>, j: nat)
    requires Fits(p, td) && j < |td|
    ensures Leading()(WrittenOf(p, td)(j), Write(td[j], j < |td| - 1), WrittenOf(p, td)(j + 1))
  {
    NextOnward(p, td, j);
    LeadingIs(WrittenTd(p, td, j), Write(td[j], j < |td| - 1), WrittenTd(p, td, j + 1));
  }

  /** A TD that fits is a stretch of a run of driver and controller. */
  lemma FittingRuns(y: Sys, n: nat, td: seq<Body>)
    requires Inv(y) && (0 < ExpansionNeeded(y.r, n) ==> !LinkAhead(y))
    requires TdShaped(td) && |td| < RoomFor(y.r, n)
    ensures CanRun(y, BulkSteps(n, td)) && Run(y, BulkSteps(n, td)) == GivenBulk(y, n, td)
  {
    PreparedFits(y, n, td);
    FitsLeads(y, Prepare(n, true), Prepared(y, n), td);
    LeadingIsFaithful();
    TdRuns(Leading(), y, n, WrittenOf(Prepared(y, n), td), td, GivenBulk(y, n, td));
  }

  /** A transfer that fits is a stretch of a run, so that all that holds over runs holds of it. */
  lemma BulkRuns(y: Sys, x: Transfer, trbs: seq<C.DataTrb>)
    requires Inv(y) && x.Valid() && (0 < ExpansionNeeded(y.r, x.Count()) ==> !LinkAhead(y))
    requires CutFor(y.r, x, trbs) && FitsBulk(y.r, x)
    ensures var td := BulkBodies(trbs);
            CanRun(y, BulkSteps(x.Count(), td)) && Run(y, BulkSteps(x.Count(), td)) == GivenBulk(y, x.Count(), td)
  {
    CutLength(y.r, x, trbs);
    FittingRuns(y, x.Count(), BulkBodies(trbs));
  }
}
