/** Reading the ring back: what a controller fetches for the TRBs a queued URB put on it. */
module RingFetch {
  import opened Wrappers
  import opened RingModel
  import opened RingExpansion
  import opened RingFifo
  import opened RingCounts
  import opened RingTds
  import opened IsocUrb
  import opened BulkUrb
  import C = TdCutting

  /** What the bounce buffers hold, by their addresses. */
  type Buffers = map<nat, seq<Byte>>

  /** What is copied to bounce buffers while these TRBs are cut, the last copy to each staying. */
  function Copied(trbs: seq<C.DataTrb>): Buffers {
    if trbs == [] then map[]
    else
      var last := trbs[|trbs| - 1];
      match last.src
      case Dma(_) => Copied(trbs[..|trbs| - 1])
      case Bounce(addr, copy) => Copied(trbs[..|trbs| - 1])[addr := copy]
  }

  /** The controller fetches as many bytes as a TRB says from where it points to. */
  function Fetched(mem: nat -> Byte, buffers: Buffers, b: Body): seq<Byte> {
    if b.addr in buffers && b.len <= |buffers[b.addr]| then buffers[b.addr][..b.len] else C.MemBytes(mem, b.addr, b.len)
  }

  function AllFetched(mem: nat -> Byte, buffers: Buffers, td: seq<Body>): seq<Byte> {
    if td == [] then [] else AllFetched(mem, buffers, td[..|td| - 1]) + Fetched(mem, buffers, td[|td| - 1])
  }

  function SumLen(td: seq<Body>): nat {
    if td == [] then 0 else SumLen(td[..|td| - 1]) + td[|td| - 1].len
  }

  /** A plain TD whose only interrupt is at its end. */
  predicate OneTd(td: seq<Body>) {
    td != [] && forall i :: 0 <= i < |td| ==>
      td[i].kind == Normal && (td[i].chain <==> i < |td| - 1) && (td[i].ioc <==> i == |td| - 1)
  }

  /** The TRBs make the controller fetch exactly these bytes, in order. */
  ghost predicate Carries(mem: nat -> Byte, buffers: Buffers, td: seq<Body>, bytes: seq<Byte>) {
    OneTd(td) && AllFetched(mem, buffers, td) == bytes && SumLen(td) == |bytes|
  }

  /** Bounce buffers lie apart from each other and from the blocks of the transfer. */
  ghost predicate Apart(x: Transfer) {
    && (forall j: nat, k: nat :: x.bounceAt(j) == x.bounceAt(k) ==> j == k)
    && (forall j: nat, i :: 0 <= i < |x.blocks| ==>
          !(x.blocks[i].addr <= x.bounceAt(j) < x.blocks[i].addr + x.blocks[i].len))
  }

  // ------------------------------------------------------- what one TRB makes it fetch

  lemma CopiedMore(trbs: seq<C.DataTrb>, n: nat)
    requires n < |trbs|
    ensures Copied(trbs[..n + 1]) ==
            if trbs[n].src.Bounce? then Copied(trbs[..n])[trbs[n].src.addr := trbs[n].src.copy] else Copied(trbs[..n])
  {
    assert trbs[..n + 1][..n] == trbs[..n];
  }

  /** Nothing is copied to where an earlier copy lies. */
  lemma {:induction false} CopyStays(x: Transfer, trbs: seq<C.DataTrb>, n: nat, j: nat)
    requires Apart(x) && j < n <= |trbs| && trbs[j].src.Bounce?
    requires forall k :: 0 <= k < |trbs| ==> C.PointsRight(x.blocks, x.bounceAt(k), trbs[k])
    ensures trbs[j].src.addr in Copied(trbs[..n]) && Copied(trbs[..n])[trbs[j].src.addr] == trbs[j].src.copy
    decreases n
  {
    CopiedMore(trbs, n - 1);
    assert C.PointsRight(x.blocks, x.bounceAt(j), trbs[j]);
    if j < n - 1 {
      CopyStays(x, trbs, n - 1, j);
      assert C.PointsRight(x.blocks, x.bounceAt(n - 1), trbs[n - 1]);
    }
  }

  lemma {:induction false} CopiedFrom(x: Transfer, trbs: seq<C.DataTrb>, n: nat, addr: nat) returns (j: nat)
    requires n <= |trbs| && addr in Copied(trbs[..n])
    requires forall k :: 0 <= k < |trbs| ==> C.PointsRight(x.blocks, x.bounceAt(k), trbs[k])
    ensures addr == x.bounceAt(j)
    decreases n
  {
    CopiedMore(trbs, n - 1);
    assert C.PointsRight(x.blocks, x.bounceAt(n - 1), trbs[n - 1]);
    if trbs[n - 1].src.Bounce? && addr == trbs[n - 1].src.addr { j := n - 1; } else { j := CopiedFrom(x, trbs, n - 1, addr); }
  }

  /** The controller fetches what the TRB was cut to name. */
  lemma FetchesNamed(mem: nat -> Byte, x: Transfer, trbs: seq<C.DataTrb>, j: nat)
    requires Apart(x) && j < |trbs| && forall k :: 0 <= k < |trbs| ==> C.PointsRight(x.blocks, x.bounceAt(k), trbs[k])
    requires |C.Named(mem, trbs[j])| == trbs[j].len
    ensures Fetched(mem, Copied(trbs), BulkBody(trbs[j])) == C.Named(mem, trbs[j])
  {
    assert trbs[..|trbs|] == trbs;
    if trbs[j].src.Bounce? {
      CopyStays(x, trbs, |trbs|, j);
      BouncedNamed(mem, Copied(trbs), trbs[j]);
    } else {
      if trbs[j].len != 0 && trbs[j].src.addr in Copied(trbs) {
        var k := CopiedFrom(x, trbs, |trbs|, trbs[j].src.addr);
        NotBounced(x, x.bounceAt(j), trbs[j], k);
      }
      PlainNamed(mem, Copied(trbs), trbs[j]);
    }
  }

  lemma BouncedNamed(mem: nat -> Byte, buffers: Buffers, trb: C.DataTrb)
    requires trb.src.Bounce? && trb.src.addr in buffers && buffers[trb.src.addr] == trb.src.copy && |trb.src.copy| == trb.len
    ensures Fetched(mem, buffers, BulkBody(trb)) == C.Named(mem, trb)
  {
    assert trb.src.copy[..trb.len] == trb.src.copy;
  }

  lemma PlainNamed(mem: nat -> Byte, buffers: Buffers, trb: C.DataTrb)
    requires trb.src.Dma? && (trb.len == 0 || trb.src.addr !in buffers)
    ensures Fetched(mem, buffers, BulkBody(trb)) == C.Named(mem, trb)
  {
    if trb.len == 0 { assert Fetched(mem, buffers, BulkBody(trb)) == [] == C.Named(mem, trb); }
  }

  lemma NotBounced(x: Transfer, bounce: nat, trb: C.DataTrb, k: nat)
    requires Apart(x) && C.PointsRight(x.blocks, bounce, trb) && trb.src.Dma? && 0 < trb.len
    ensures trb.src.addr != x.bounceAt(k)
  {
  }

  lemma FetchOneMore(mem: nat -> Byte, buffers: Buffers, td: seq<Body>, n: nat)
    requires n < |td|
    ensures AllFetched(mem, buffers, td[..n + 1]) == AllFetched(mem, buffers, td[..n]) + Fetched(mem, buffers, td[n])
    ensures SumLen(td[..n + 1]) == SumLen(td[..n]) + td[n].len
  {
    assert td[..n + 1][..n] == td[..n];
  }

  lemma {:induction false} FetchesAll(mem: nat -> Byte, x: Transfer, trbs: seq<C.DataTrb>, n: nat)
    requires Apart(x) && n <= |trbs| && forall k :: 0 <= k < |trbs| ==> C.PointsRight(x.blocks, x.bounceAt(k), trbs[k])
    requires forall k :: 0 <= k < |trbs| ==> |C.Named(mem, trbs[k])| == trbs[k].len
    ensures AllFetched(mem, Copied(trbs), BulkBodies(trbs)[..n]) == C.AllNamed(mem, trbs[..n])
    ensures SumLen(BulkBodies(trbs)[..n]) == |C.AllNamed(mem, trbs[..n])|
    decreases n
  {
    if n != 0 {
      FetchesAll(mem, x, trbs, n - 1);
      FetchesNamed(mem, x, trbs, n - 1);
      FetchOneMore(mem, Copied(trbs), BulkBodies(trbs), n - 1);
      NamesOneMore(mem, trbs, n - 1);
    }
  }

  lemma NamesOneMore(mem: nat -> Byte, trbs: seq<C.DataTrb>, n: nat)
    requires n < |trbs|
    ensures C.AllNamed(mem, trbs[..n + 1]) == C.AllNamed(mem, trbs[..n]) + C.Named(mem, trbs[n])
  {
    assert trbs[..n + 1][..n] == trbs[..n];
  }

  lemma BulkCarries(mem: nat -> Byte, x: Transfer, trbs: seq<C.DataTrb>)
    requires Apart(x) && x.Valid() && C.CutWhole(mem, x.blocks, x.full, x.bounceAt, trbs)
    ensures Carries(mem, Copied(trbs), BulkBodies(trbs), C.FirstBytes(mem, x.blocks, x.full))
  {
    FetchesAll(mem, x, trbs, |trbs|);
    assert BulkBodies(trbs)[..|trbs|] == BulkBodies(trbs) && trbs[..|trbs|] == trbs;
  }

  // ------------------------------------------------------------------ on the ring itself

  /** The TRBs between two positions of a ring. */
  function NewOn(r: RingState, from: nat): seq<Body>
    requires from < |r.trbs| && r.enq < |r.trbs|
  {
    Window(r.trbs, from, r.enq)
  }

  /** A TD that fits is on the ring, from where enqueue was to where it is. */
  lemma GivenIsOnRing(y: Sys, n: nat, td: seq<Body>)
    requires Inv(y) && !y.open && (0 < ExpansionNeeded(y.r, n) ==> !LinkAhead(y)) && TdShaped(td) && |td| < RoomFor(y.r, n)
    ensures Inv(Prepared(y, n))
    ensures var p, z := Prepared(y, n), GivenBulk(y, n, td);
            p.r.enq < |z.r.trbs| && z.r.enq < |z.r.trbs| && NewOn(z.r, p.r.enq) == td
  {
    var p := Prepared(y, n);
    PreparedRoom(y, n);
    PreparedKeepsPending(y, n);
    WrittenTdOk(p, td, |td|);
    assert td[..|td|] == td;
    PublishedOnRing(p, WrittenTd(p, td, |td|), td);
  }

  lemma PublishedOnRing(p: Sys, z: Sys, td: seq<Body>)
    requires Inv(p) && !p.open && Wrote(p, z, td, |td|) && td != [] && td[..|td|] == td
    ensures var w := Publish(z); p.r.enq < |w.r.trbs| && w.r.enq < |w.r.trbs| && NewOn(w.r, p.r.enq) == td
  {
    WindowFrame(z.r.trbs, Publish(z).r.trbs, p.r.enq, z.r.enq);
  }

  /** What is new on the ring makes the controller fetch exactly the bytes of the transfer. */
  lemma TransferIsOnRing(mem: nat -> Byte, y: Sys, x: Transfer, trbs: seq<C.DataTrb>)
    requires Inv(y) && !y.open && x.Valid() && (0 < ExpansionNeeded(y.r, x.Count()) ==> !LinkAhead(y))
    requires CutFor(y.r, x, trbs) && FitsBulk(y.r, x) && Apart(x) && C.CutWhole(mem, x.blocks, x.full, x.bounceAt, trbs)
    ensures Inv(Prepared(y, x.Count()))
    ensures var from, z := Prepared(y, x.Count()).r.enq, GivenBulk(y, x.Count(), BulkBodies(trbs)).r;
            && from < |z.trbs| && z.enq < |z.trbs|
            && Carries(mem, Copied(trbs), NewOn(z, from), C.FirstBytes(mem, x.blocks, x.full))
  {
    CutLength(y.r, x, trbs);
    GivenIsOnRing(y, x.Count(), BulkBodies(trbs));
    BulkCarries(mem, x, trbs);
  }

  /** Read back from the ring, from where the TD begins, the TRBs make the controller fetch these bytes. */
  ghost predicate ReadsBack(mem: nat -> Byte, r: RingState, from: nat, buffers: Buffers, bytes: seq<Byte>) {
    from < |r.trbs| && r.enq < |r.trbs| && Carries(mem, buffers, NewOn(r, from), bytes)
  }

  lemma FittingReadsBack(mem: nat -> Byte, y: Sys, x: Transfer, trbs: seq<C.DataTrb>)
    requires Inv(y) && !y.open && x.Valid() && (0 < ExpansionNeeded(y.r, x.Count()) ==> !LinkAhead(y))
    requires CutFor(y.r, x, trbs) && C.CutWhole(mem, x.blocks, x.full, x.bounceAt, trbs)
    ensures FitsBulk(y.r, x) && Apart(x) ==>
              ReadsBack(mem, GivenBulk(y, x.Count(), BulkBodies(trbs)).r, Prepared(y, x.Count()).r.enq, Copied(trbs),
                        C.FirstBytes(mem, x.blocks, x.full))
  {
    if FitsBulk(y.r, x) && Apart(x) { TransferIsOnRing(mem, y, x, trbs); }
  }

  /** And so does what the controller newly sees. */
  lemma TransferIsSeen(mem: nat -> Byte, y: Sys, x: Transfer, trbs: seq<C.DataTrb>)
    requires Inv(y) && !y.open && x.Valid() && (0 < ExpansionNeeded(y.r, x.Count()) ==> !LinkAhead(y))
    requires CutFor(y.r, x, trbs) && FitsBulk(y.r, x) && Apart(x) && C.CutWhole(mem, x.blocks, x.full, x.bounceAt, trbs)
    ensures var z := GivenBulk(y, x.Count(), BulkBodies(trbs));
            && Inv(z)
            && var all := z.consumed + Visible(z.r.trbs, z.hw, z.ccs, z.r.Size());
               && y.published <= all
               && Carries(mem, Copied(trbs), all[|y.published|..], C.FirstBytes(mem, x.blocks, x.full))
  {
    BulkIsPublished(y, x, trbs);
    BulkCarries(mem, x, trbs);
    assert (y.published + BulkBodies(trbs))[|y.published|..] == BulkBodies(trbs);
  }

  // --------------------------------------------------------------- isochronous URBs

  /** A TD whose first TRB says that it is isochronous. */
  predicate OneIsocTd(td: seq<Body>) {
    td != [] && forall i :: 0 <= i < |td| ==>
      td[i].kind == (if i == 0 then Isoc else Normal) && (td[i].chain <==> i < |td| - 1) && (td[i].ioc <==> i == |td| - 1)
  }

  /** By their chain bits the TRBs are one TD for each packet, and each makes the controller
      fetch exactly the bytes of its packet. */
  ghost predicate CarriesPackets(mem: nat -> Byte, trbs: seq<Body>, packets: seq<C.Block>) {
    && Unfinished([], trbs) == [] && |Ended([], trbs)| == |packets|
    && forall i :: 0 <= i < |packets| ==> CarriesPacket(mem, Ended([], trbs)[i], packets[i])
  }

  ghost predicate CarriesPacket(mem: nat -> Byte, td: seq<Body>, packet: C.Block) {
    && OneIsocTd(td) && SumLen(td) == packet.len
    && AllFetched(mem, map[], td) == C.MemBytes(mem, packet.addr, packet.len)
  }

  /** The TDs are cut from the packets (`CutIsocTd`). */
  predicate CutFrom(tds: seq<seq<C.Block>>, packets: seq<C.Block>) {
    |tds| == |packets| && forall i :: 0 <= i < |tds| ==> tds[i] != [] && C.Contiguous(tds[i], packets[i].addr, packets[i].len)
  }

  lemma {:induction false} TdEnds(td: seq<Body>, n: nat)
    requires TdShaped(td) && n <= |td|
    ensures Ended(if n == |td| then [] else td[..n], td[n..]) == if n == |td| then [] else [td]
    ensures Unfinished(if n == |td| then [] else td[..n], td[n..]) == []
    decreases |td| - n
  {
    if n < |td| {
      TdEnds(td, n + 1);
      assert td[n..] == [td[n]] + td[n + 1..];
      TdsOneMore(td[..n], td[n], td[n + 1..]);
      assert td[..n] + [td[n]] == td[..n + 1];
      if n + 1 == |td| { assert td[..n + 1] == td; }
    }
  }

  /** By their chain bits the TRBs of TDs are those TDs. */
  lemma {:induction false} AllTdsEnd(tds: seq<seq<Body>>)
    requires forall i :: 0 <= i < |tds| ==> TdShaped(tds[i])
    ensures Ended([], AllBodies(tds)) == tds && Unfinished([], AllBodies(tds)) == []
    decreases |tds|
  {
    if tds != [] {
      var front, last := tds[..|tds| - 1], tds[|tds| - 1];
      AllTdsEnd(front);
      TdsAppend([], AllBodies(front), last);
      TdEnds(last, 0);
      assert last[..0] == [] && last[0..] == last;
      assert tds == front + [last];
    }
  }

  lemma {:induction false} PiecesFetched(mem: nat -> Byte, td: seq<Body>, pieces: seq<C.Block>, addr: nat, len: nat)
    requires |td| == |pieces| && C.Contiguous(pieces, addr, len)
    requires forall j :: 0 <= j < |td| ==> td[j].addr == pieces[j].addr && td[j].len == pieces[j].len
    ensures AllFetched(mem, map[], td) == C.MemBytes(mem, addr, len) && SumLen(td) == len
    decreases |td|
  {
    if td != [] {
      var n := |td| - 1;
      PiecesFetched(mem, td[..n], pieces[..n], addr, len - pieces[n].len);
      C.MemSplit(mem, addr, len, len - pieces[n].len);
    }
  }

  lemma PacketFetched(mem: nat -> Byte, td: seq<C.Block>, packet: C.Block)
    requires td != [] && C.Contiguous(td, packet.addr, packet.len)
    ensures CarriesPacket(mem, IsocBodies(td), packet)
  {
    PiecesFetched(mem, IsocBodies(td), td, packet.addr, packet.len);
  }

  lemma UrbCarries(mem: nat -> Byte, tds: seq<seq<C.Block>>, packets: seq<C.Block>)
    requires CutFrom(tds, packets)
    ensures CarriesPackets(mem, AllBodies(IsocTds(tds)), packets)
  {
    forall i | 0 <= i < |tds| ensures TdShaped(IsocTds(tds)[i]) { IsocIsShaped(tds[i]); }
    AllTdsEnd(IsocTds(tds));
    forall i | 0 <= i < |packets| ensures CarriesPacket(mem, IsocTds(tds)[i], packets[i]) {
      PacketFetched(mem, tds[i], packets[i]);
    }
  }

  /** What a queued URB put on the ring makes the controller fetch exactly its packets, one TD each. */
  lemma UrbIsOnRing(mem: nat -> Byte, y: Sys, tds: seq<seq<C.Block>>, packets: seq<C.Block>)
    requires IsocFits(y, tds) && CutFrom(tds, packets)
    ensures var z := IsocOutcome(y, tds, |tds|).r;
            y.r.enq < |z.trbs| && z.enq < |z.trbs| && CarriesPackets(mem, NewOn(z, y.r.enq), packets)
  {
    IsocFitsUrb(y, tds);
    UrbOnRing(y, IsocTds(tds));
    UrbCarries(mem, tds, packets);
  }

  lemma UrbOnRing(y: Sys, tds: seq<seq<Body>>)
    requires UrbFits(y, tds)
    ensures var z := Outcome(y, tds, |tds|).r;
            y.r.enq < |z.trbs| && z.enq < |z.trbs| && NewOn(z, y.r.enq) == AllBodies(tds)
  {
    var z := Queued(y, tds, |tds|);
    QueuedOk(y, tds, |tds|);
    assert tds[..|tds|] == tds;
    WindowFrame(z.r.trbs, Publish(z).r.trbs, y.r.enq, z.r.enq);
  }

  /** And so does what the controller newly sees. */
  lemma UrbIsSeen(mem: nat -> Byte, y: Sys, tds: seq<seq<C.Block>>, packets: seq<C.Block>)
    requires IsocFits(y, tds) && CutFrom(tds, packets)
    ensures var z := IsocOutcome(y, tds, |tds|);
            && Inv(z)
            && var all := z.consumed + Visible(z.r.trbs, z.hw, z.ccs, z.r.Size());
               y.published <= all && CarriesPackets(mem, all[|y.published|..], packets)
  {
    IsocFitsUrb(y, tds);
    UrbIsPublished(y, IsocTds(tds));
    UrbCarries(mem, tds, packets);
    assert (y.published + AllBodies(IsocTds(tds)))[|y.published|..] == AllBodies(IsocTds(tds));
  }
}
