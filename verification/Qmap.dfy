/** QMAP multiplexing: the frame written for each mux device and the loop that takes a
    received buffer apart. */
module Qmap {
  import opened Wrappers

  /** An upper network device with the mux ID it was registered under. */
  datatype Dev = Dev(name: nat, muxId: Byte)

  const HEADER_SIZE: nat := 4

  function Header(pad: Byte, muxId: Byte, len: nat): Bytes {
    [pad, muxId, (len / 256) % 256, len % 256]
  }

  function LengthAt(data: Bytes, off: nat): nat
    requires off + HEADER_SIZE <= |data|
  {
    var high: int := data[off + 2];
    high * 256 + data[off + 3]
  }

  /** qmimux_find_dev: the first upper device with this mux ID. */
  function FindDev(devs: seq<Dev>, muxId: Byte): Option<Dev> {
    if devs == [] then None
    else if devs[0].muxId == muxId then Some(devs[0])
    else FindDev(devs[1..], muxId)
  }

  datatype Protocol = IPv4 | IPv6

  /** The protocol the first nibble names, if it names one. */
  function ProtocolOf(first: Byte): Option<Protocol> {
    if first / 16 == 4 then Some(IPv4) else if first / 16 == 6 then Some(IPv6) else None
  }

  /** A packet handed up: the device, its protocol, and the slice of the buffer it was copied from. */
  datatype Delivery = Delivery(dev: Dev, protocol: Protocol, start: nat, len: nat)

  function Packet(data: Bytes, d: Delivery): Bytes
    requires d.start + d.len <= |data|
  {
    data[d.start..d.start + d.len]
  }

  /** Whether an allocation, or the hand-over to the network stack, succeeds for the frame at an offset. */
  datatype Kernel = Kernel(alloc: nat -> bool, accept: nat -> bool)

  /** What becomes of the frame at one offset. */
  datatype Fate = Skipped | Refused | Handed(delivery: Delivery)

  /** The body of the loop, for a frame that lies inside the buffer. The control bit is 0x80
      of the first byte, the padding length its low six bits. */
  function FateAt(data: Bytes, off: nat, devs: seq<Dev>, kernel: Kernel): (r: Fate)
    requires off + HEADER_SIZE < |data| && off + HEADER_SIZE + LengthAt(data, off) <= |data|
    ensures r.Handed? ==>
      var d := r.delivery;
      d.start == off + HEADER_SIZE && 0 < d.len <= LengthAt(data, off) && d.dev in devs && d.dev.muxId == data[off + 1]
  {
    var len := LengthAt(data, off);
    var pad := data[off];
    if pad >= 128 || len == 0 || pad % 64 >= len then Skipped
    else
      var net := FindDev(devs, data[off + 1]);
      if net.None? then Skipped
      else if !kernel.alloc(off) then Refused
      else
        var protocol := ProtocolOf(data[off + HEADER_SIZE]);
        if protocol.None? then Skipped
        else if !kernel.accept(off) then Refused
        else
          FindDevFinds(devs, data[off + 1]);
          Handed(Delivery(net.value, protocol.value, off + HEADER_SIZE, len - pad % 64))
  }

  lemma FindDevFinds(devs: seq<Dev>, muxId: Byte)
    ensures FindDev(devs, muxId).Some? ==> FindDev(devs, muxId).value in devs && FindDev(devs, muxId).value.muxId == muxId
    ensures FindDev(devs, muxId).None? ==> forall d :: d in devs ==> d.muxId != muxId
  {
    if devs != [] { FindDevFinds(devs[1..], muxId); }
  }

  /** qmimux_rx_fixup from an offset on: the packets handed up, and whether it returns 1. */
  function Fixup(data: Bytes, off: nat, devs: seq<Dev>, kernel: Kernel): (seq<Delivery>, bool)
    decreases |data| - off
  {
    if off + HEADER_SIZE >= |data| then ([], true)
    else
      var next := off + HEADER_SIZE + LengthAt(data, off);
      if next > |data| then ([], false)
      else
        match FateAt(data, off, devs, kernel)
        case Skipped => Fixup(data, next, devs, kernel)
        case Refused => ([], false)
        case Handed(d) =>
          var (rest, ok) := Fixup(data, next, devs, kernel);
          ([d] + rest, ok)
  }

  /** The loop as it runs over the buffer. */
  method RxFixup(data: Bytes, devs: seq<Dev>, kernel: Kernel) returns (delivered: seq<Delivery>, ok: bool)
    ensures delivered == Fixup(data, 0, devs, kernel).0 && ok == Fixup(data, 0, devs, kernel).1
  {
    delivered, ok := [], true;
    ghost var whole := Fixup(data, 0, devs, kernel);
    var off: nat := 0;
    while off + HEADER_SIZE < |data|
      invariant off <= |data|
      invariant whole.0 == delivered + Fixup(data, off, devs, kernel).0
      invariant ok && whole.1 == Fixup(data, off, devs, kernel).1
      decreases |data| - off
    {
      var len := LengthAt(data, off);
      if off + len + HEADER_SIZE > |data| {
        ok := false;
        return;
      }
      match FateAt(data, off, devs, kernel) {
        case Skipped =>
        case Refused =>
          ok := false;
          return;
        case Handed(d) =>
          JoinLeft(delivered, d, Fixup(data, off + HEADER_SIZE + len, devs, kernel).0);
          delivered := delivered + [d];
      }
      off := off + HEADER_SIZE + len;
    }
  }

  lemma JoinLeft(before: seq<Delivery>, d: Delivery, after: seq<Delivery>)
    ensures before + ([d] + after) == (before + [d]) + after
  {
  }

  /** qmimux_start_xmit: the header is pushed in front of the packet, in place. */
  class SkBuff {
    var data: Bytes

    constructor (data: Bytes)
      ensures this.data == data
    {
      this.data := data;
    }

    method StartXmit(muxId: Byte)
      modifies this
      ensures data == Encode(Frame(0, muxId, old(data)))
    {
      var len := |data|;
      var hdr: Bytes := [0, 0, 0, 0];
      data := hdr + data;
      data := data[0 := 0][1 := muxId];
      data := data[2 := (len / 256) % 256][3 := len % 256];
    }
  }

  /* Arbitrary input. */

  predicate InOrder(data: Bytes, off: nat, ds: seq<Delivery>)
    decreases |ds|
  {
    ds == [] ||
    (off + HEADER_SIZE <= ds[0].start && 0 < ds[0].len && ds[0].start + ds[0].len <= |data| &&
     InOrder(data, ds[0].start + ds[0].len, ds[1..]))
  }

  lemma InOrderLater(data: Bytes, off: nat, later: nat, ds: seq<Delivery>)
    requires InOrder(data, later, ds) && off <= later
    ensures InOrder(data, off, ds)
  {
  }

  /** On any buffer at all, what is handed up are non-empty slices inside it, in order, each
      after its own header and none overlapping another. */
  lemma {:induction false} SlicesAreOrdered(data: Bytes, off: nat, devs: seq<Dev>, kernel: Kernel)
    ensures InOrder(data, off, Fixup(data, off, devs, kernel).0)
    decreases |data| - off
  {
    if off + HEADER_SIZE < |data| && off + HEADER_SIZE + LengthAt(data, off) <= |data| {
      var next := off + HEADER_SIZE + LengthAt(data, off);
      SlicesAreOrdered(data, next, devs, kernel);
      match FateAt(data, off, devs, kernel)
      case Skipped => InOrderLater(data, off, next, Fixup(data, next, devs, kernel).0);
      case Refused =>
      case Handed(d) =>
        var rest := Fixup(data, next, devs, kernel).0;
        assert ([d] + rest)[1..] == rest;
        InOrderLater(data, d.start + d.len, next, rest);
    }
  }

  /** Ordered slices are pairwise disjoint. */
  lemma {:induction false} OrderedIsDisjoint(data: Bytes, off: nat, ds: seq<Delivery>, i: nat, j: nat)
    requires InOrder(data, off, ds) && i < j < |ds|
    ensures off < ds[i].start && ds[i].start + ds[i].len + HEADER_SIZE <= ds[j].start
    ensures ds[j].start + ds[j].len <= |data|
    decreases |ds|
  {
    if i > 0 {
      OrderedIsDisjoint(data, ds[0].start + ds[0].len, ds[1..], i - 1, j - 1);
    } else {
      OrderedFrom(data, ds[0].start + ds[0].len, ds[1..], j - 1);
    }
  }

  lemma {:induction false} OrderedFrom(data: Bytes, off: nat, ds: seq<Delivery>, j: nat)
    requires InOrder(data, off, ds) && j < |ds|
    ensures off + HEADER_SIZE <= ds[j].start && ds[j].start + ds[j].len <= |data|
    decreases |ds|
  {
    if j > 0 { OrderedFrom(data, ds[0].start + ds[0].len, ds[1..], j - 1); }
  }

  /* Frames: the format itself, independent of the loop. */

  datatype Frame = Frame(pad: Byte, muxId: Byte, payload: Bytes)

  function Encode(f: Frame): Bytes {
    Header(f.pad, f.muxId, |f.payload|) + f.payload
  }

  function EncodeAll(fs: seq<Frame>): Bytes {
    if fs == [] then [] else Encode(fs[0]) + EncodeAll(fs[1..])
  }

  /** A packet of IP version 4 or 6, by its first byte. */
  predicate StartsAsIp(packet: Bytes) {
    packet != [] && (0x40 <= packet[0] <= 0x4F || 0x60 <= packet[0] <= 0x6F)
  }

  function VersionOf(packet: Bytes): Protocol
    requires StartsAsIp(packet)
  {
    if packet[0] <= 0x4F then IPv4 else IPv6
  }

  /** A frame that carries a packet for a registered device: not a control frame, with some
      payload left once its padding is cut off, and starting as IP. */
  predicate Deliverable(f: Frame, devs: seq<Dev>) {
    f.pad < 128 && f.pad % 64 < |f.payload| &&
    FindDev(devs, f.muxId).Some? && StartsAsIp(f.payload)
  }

  datatype Received = Received(dev: Dev, protocol: Protocol, packet: Bytes)

  function Carried(f: Frame, devs: seq<Dev>): Received
    requires Deliverable(f, devs)
  {
    Received(FindDev(devs, f.muxId).value, VersionOf(f.payload), f.payload[..|f.payload| - f.pad % 64])
  }

  /** What a receiver should get from these frames. */
  function Expected(fs: seq<Frame>, devs: seq<Dev>): seq<Received> {
    if fs == [] then []
    else OneExpected(fs[0], devs) + Expected(fs[1..], devs)
  }

  predicate Within(data: Bytes, ds: seq<Delivery>) {
    forall k :: 0 <= k < |ds| ==> ds[k].start + ds[k].len <= |data|
  }

  function ReceivedOf(data: Bytes, ds: seq<Delivery>): seq<Received>
    requires Within(data, ds)
  {
    seq(|ds|, k requires 0 <= k < |ds| => Received(ds[k].dev, ds[k].protocol, Packet(data, ds[k])))
  }

  predicate Sized(fs: seq<Frame>) {
    forall f :: f in fs ==> |f.payload| <= 65535
  }

  lemma FixupIsWithin(data: Bytes, off: nat, devs: seq<Dev>, kernel: Kernel)
    ensures Within(data, Fixup(data, off, devs, kernel).0)
  {
    SlicesAreOrdered(data, off, devs, kernel);
    var ds := Fixup(data, off, devs, kernel).0;
    forall k | 0 <= k < |ds| ensures ds[k].start + ds[k].len <= |data| {
      OrderedFrom(data, off, ds, k);
    }
  }

  /** The header of a frame says how long it is. */
  lemma FrameAt(data: Bytes, off: nat, f: Frame, rest: Bytes)
    requires off <= |data| && data[off..] == Encode(f) + rest && |f.payload| <= 65535
    ensures off + HEADER_SIZE + |f.payload| <= |data|
    ensures data[off] == f.pad && data[off + 1] == f.muxId && LengthAt(data, off) == |f.payload|
    ensures data[off + HEADER_SIZE..off + HEADER_SIZE + |f.payload|] == f.payload
    ensures data[off + HEADER_SIZE + |f.payload|..] == rest
  {
    var tail := data[off..];
    assert |tail| == HEADER_SIZE + |f.payload| + |rest|;
    assert tail[0] == data[off] && tail[1] == data[off + 1] && tail[2] == data[off + 2] && tail[3] == data[off + 3];
    assert tail[HEADER_SIZE..HEADER_SIZE + |f.payload|] == f.payload;
    assert tail[HEADER_SIZE + |f.payload|..] == rest;
  }

  /** A frame is four bytes and the payload: padding and control bit, mux ID, and the length
      with its high byte first, which tells the payload's length exactly when it is below 64K. */
  lemma LengthReadsBack(f: Frame)
    ensures |Encode(f)| == 4 + |f.payload| && Encode(f)[0] == f.pad && Encode(f)[1] == f.muxId && Encode(f)[4..] == f.payload
    ensures var high: int := Encode(f)[2]; high * 256 + Encode(f)[3] == |f.payload| % 65536
    ensures LengthAt(Encode(f), 0) == |f.payload| <==> |f.payload| <= 65535
    ensures LengthAt(Encode(f), 0) == |f.payload| % 65536
  {
    var n := |f.payload|;
    assert n % 65536 == (n / 256) % 256 * 256 + n % 256;
  }

  /** The frame at an offset is handed up exactly if it is no control frame, has payload left
      without its padding, is for a registered device, starts as IP, and neither memory nor the
      network stack fails; the loop gives up on it exactly if one of these does. */
  lemma HandedExactly(data: Bytes, off: nat, devs: seq<Dev>, kernel: Kernel)
    requires off + HEADER_SIZE < |data| && off + HEADER_SIZE + LengthAt(data, off) <= |data|
    ensures
      var r, pad, first := FateAt(data, off, devs, kernel), data[off] % 64, data[off + HEADER_SIZE];
      var plain := data[off] < 0x80 && pad < LengthAt(data, off) && exists d :: d in devs && d.muxId == data[off + 1];
      var ip := 0x40 <= first <= 0x4F || 0x60 <= first <= 0x6F;
      && (r.Handed? <==> plain && ip && kernel.alloc(off) && kernel.accept(off))
      && (r.Refused? <==> plain && (!kernel.alloc(off) || (ip && !kernel.accept(off))))
      && (r.Handed? ==>
            && r.delivery.len == LengthAt(data, off) - pad && r.delivery.protocol == (if first < 0x60 then IPv4 else IPv6)
            && r.delivery.start == off + HEADER_SIZE && r.delivery.dev in devs && r.delivery.dev.muxId == data[off + 1])
  {
    FindDevFinds(devs, data[off + 1]);
  }

  /** What one frame comes to. A frame that carries nothing may still be refused, when the
      allocation made before its first byte is looked at fails. */
  lemma FateOfFrame(data: Bytes, off: nat, f: Frame, rest: Bytes, devs: seq<Dev>, kernel: Kernel)
    requires off <= |data| && data[off..] == Encode(f) + rest && 0 < |f.payload| <= 65535
    ensures off + HEADER_SIZE + LengthAt(data, off) <= |data|
    ensures var r := FateAt(data, off, devs, kernel);
      if Deliverable(f, devs) then
        (r.Refused? && !(kernel.alloc(off) && kernel.accept(off))) ||
        (r.Handed? && r.delivery.start + r.delivery.len <= |data| &&
         Received(r.delivery.dev, r.delivery.protocol, Packet(data, r.delivery)) == Carried(f, devs))
      else r.Skipped? || (r.Refused? && !kernel.alloc(off))
  {
    FrameAt(data, off, f, rest);
    var start := off + HEADER_SIZE;
    assert data[start] == data[start..start + |f.payload|][0];
    if Deliverable(f, devs) {
      var len := |f.payload| - f.pad % 64;
      assert data[start..start + len] == data[start..start + |f.payload|][..len];
    }
  }

  lemma ReceivedSplit(data: Bytes, d: Delivery, ds: seq<Delivery>)
    requires Within(data, [d] + ds)
    ensures Within(data, ds) && d.start + d.len <= |data|
    ensures ReceivedOf(data, [d] + ds) == [Received(d.dev, d.protocol, Packet(data, d))] + ReceivedOf(data, ds)
  {
    assert ([d] + ds)[0] == d;
    assert forall k :: 0 <= k < |ds| ==> ([d] + ds)[k + 1] == ds[k];
  }

  ghost predicate Willing(kernel: Kernel) {
    forall off: nat :: kernel.alloc(off) && kernel.accept(off)
  }

  /** What the loop hands up from an offset on is what was expected, or a beginning of it if the system ran out. */
  ghost predicate Receives(data: Bytes, off: nat, devs: seq<Dev>, kernel: Kernel, expected: seq<Received>) {
    var (ds, ok) := Fixup(data, off, devs, kernel);
    Within(data, ds) && ReceivedOf(data, ds) <= expected && (ok || Willing(kernel) ==> ReceivedOf(data, ds) == expected)
  }

  lemma EmptyReceived(data: Bytes, expected: seq<Received>)
    ensures ReceivedOf(data, []) == [] && ReceivedOf(data, []) <= expected
  {
  }

  /** A frame taken up hands its content on, then the rest. */
  lemma HandedThenRest(data: Bytes, off: nat, devs: seq<Dev>, kernel: Kernel, first: Received, rest: seq<Received>)
    requires off + HEADER_SIZE < |data| && off + HEADER_SIZE + LengthAt(data, off) <= |data|
    requires FateAt(data, off, devs, kernel).Handed?
    requires
      var d := FateAt(data, off, devs, kernel).delivery;
      d.start + d.len <= |data| && Received(d.dev, d.protocol, Packet(data, d)) == first
    requires Receives(data, off + HEADER_SIZE + LengthAt(data, off), devs, kernel, rest)
    ensures Receives(data, off, devs, kernel, [first] + rest)
  {
    FixupIsWithin(data, off, devs, kernel);
    ReceivedSplit(data, FateAt(data, off, devs, kernel).delivery,
                  Fixup(data, off + HEADER_SIZE + LengthAt(data, off), devs, kernel).0);
  }

  function OneExpected(f: Frame, devs: seq<Dev>): seq<Received> {
    if Deliverable(f, devs) then [Carried(f, devs)] else []
  }

  lemma FrameThenRest(data: Bytes, off: nat, f: Frame, rest: Bytes, devs: seq<Dev>, kernel: Kernel, later: seq<Received>)
    requires off <= |data| && data[off..] == Encode(f) + rest && |f.payload| <= 65535
    requires Receives(data, off + HEADER_SIZE + |f.payload|, devs, kernel, later)
    ensures Receives(data, off, devs, kernel, OneExpected(f, devs) + later)
  {
    FrameAt(data, off, f, rest);
    EmptyReceived(data, OneExpected(f, devs) + later);
    if |f.payload| > 0 {
      FateOfFrame(data, off, f, rest, devs, kernel);
      if FateAt(data, off, devs, kernel).Handed? {
        HandedThenRest(data, off, devs, kernel, Carried(f, devs), later);
      }
    } else {
      assert OneExpected(f, devs) + later == later;
    }
  }

  /** Whatever frames were written one after another, the loop hands up exactly what they
      carry, in order; if the system runs out on the way, a beginning of it. */
  lemma {:induction false} FramesAreReceived(data: Bytes, off: nat, fs: seq<Frame>, devs: seq<Dev>, kernel: Kernel)
    requires off <= |data| && data[off..] == EncodeAll(fs) && Sized(fs)
    ensures Receives(data, off, devs, kernel, Expected(fs, devs))
    decreases |fs|
  {
    EmptyReceived(data, []);
    if fs != [] {
      var f := fs[0];
      FrameAt(data, off, f, EncodeAll(fs[1..]));
      FramesAreReceived(data, off + HEADER_SIZE + |f.payload|, fs[1..], devs, kernel);
      FrameThenRest(data, off, f, EncodeAll(fs[1..]), devs, kernel, Expected(fs[1..], devs));
    }
  }

  /** When nothing runs out, the loop reaches the end of such a buffer. */
  lemma {:induction false} WillingReachesEnd(data: Bytes, off: nat, fs: seq<Frame>, devs: seq<Dev>, kernel: Kernel)
    requires off <= |data| && data[off..] == EncodeAll(fs) && Sized(fs) && Willing(kernel)
    ensures Fixup(data, off, devs, kernel).1
    decreases |fs|
  {
    if fs != [] {
      var f, rest := fs[0], EncodeAll(fs[1..]);
      var next := off + HEADER_SIZE + |f.payload|;
      FrameAt(data, off, f, rest);
      WillingReachesEnd(data, next, fs[1..], devs, kernel);
      WillingGoesOn(data, off, f, rest, devs, kernel, next);
    }
  }

  lemma WillingGoesOn(data: Bytes, off: nat, f: Frame, rest: Bytes, devs: seq<Dev>, kernel: Kernel, next: nat)
    requires off <= |data| && data[off..] == Encode(f) + rest && |f.payload| <= 65535 && Willing(kernel)
    requires next == off + HEADER_SIZE + |f.payload| && Fixup(data, next, devs, kernel).1
    ensures Fixup(data, off, devs, kernel).1
  {
    FrameAt(data, off, f, rest);
    if |f.payload| > 0 { FateOfFrame(data, off, f, rest, devs, kernel); }
  }

  /* The writer and the reader together. */

  /** A packet given to the mux device at a position in the table. */
  datatype Sent = Sent(dev: Dev, packet: Bytes)

  function Written(sent: seq<Sent>): seq<Frame> {
    if sent == [] then [] else [Frame(0, sent[0].dev.muxId, sent[0].packet)] + Written(sent[1..])
  }

  predicate Unique(devs: seq<Dev>) {
    forall i, j :: 0 <= i < j < |devs| ==> devs[i].muxId != devs[j].muxId
  }

  predicate Transferable(m: Sent, devs: seq<Dev>) {
    m.dev in devs && |m.packet| <= 65535 && StartsAsIp(m.packet)
  }

  lemma {:induction false} UniqueIsFound(devs: seq<Dev>, d: Dev)
    requires Unique(devs) && d in devs
    ensures FindDev(devs, d.muxId) == Some(d)
  {
    if devs[0] != d {
      assert d in devs[1..];
      var k :| 0 <= k < |devs| && devs[k] == d;
      assert k > 0 && devs[0].muxId != devs[k].muxId;
      assert forall i, j :: 0 <= i < j < |devs[1..]| ==> devs[1..][i] == devs[i + 1] && devs[1..][j] == devs[j + 1];
      UniqueIsFound(devs[1..], d);
    }
  }

  function Delivered(m: Sent): Received
    requires StartsAsIp(m.packet)
  {
    Received(m.dev, VersionOf(m.packet), m.packet)
  }

  /** Any number of packets written by the mux devices and received in one buffer come out
      at the same devices, unchanged and in the same order, and nothing else does. */
  lemma {:induction false} WrittenIsExpected(sent: seq<Sent>, devs: seq<Dev>)
    requires Unique(devs) && forall m :: m in sent ==> Transferable(m, devs)
    ensures Sized(Written(sent))
    ensures |Expected(Written(sent), devs)| == |sent|
    ensures forall k :: 0 <= k < |sent| ==> Transferable(sent[k], devs) && Expected(Written(sent), devs)[k] == Delivered(sent[k])
    decreases |sent|
  {
    if sent != [] {
      var m, f := sent[0], Frame(0, sent[0].dev.muxId, sent[0].packet);
      assert m in sent;
      assert forall x :: x in sent[1..] ==> x in sent;
      UniqueIsFound(devs, m.dev);
      WrittenIsExpected(sent[1..], devs);
      assert m.packet[..|m.packet| - 0] == m.packet;
      assert Deliverable(f, devs) && Carried(f, devs) == Delivered(m);
      WrittenMore(sent, devs);
    }
  }

  /** The first packet comes out in front of what the others give. */
  lemma WrittenMore(sent: seq<Sent>, devs: seq<Dev>)
    requires sent != []
    requires var f := Frame(0, sent[0].dev.muxId, sent[0].packet); Deliverable(f, devs)
    ensures var f := Frame(0, sent[0].dev.muxId, sent[0].packet);
            && Expected(Written(sent), devs) == [Carried(f, devs)] + Expected(Written(sent[1..]), devs)
            && Written(sent) == [f] + Written(sent[1..])
  {
    var f := Frame(0, sent[0].dev.muxId, sent[0].packet);
    assert ([f] + Written(sent[1..]))[1..] == Written(sent[1..]);
  }

  lemma RoundTrip(sent: seq<Sent>, devs: seq<Dev>, kernel: Kernel)
    requires Unique(devs) && Willing(kernel) && forall m :: m in sent ==> Transferable(m, devs)
    ensures
      var data := EncodeAll(Written(sent));
      var (ds, ok) := Fixup(data, 0, devs, kernel);
      && ok && Within(data, ds) && |ds| == |sent|
      && forall k :: 0 <= k < |sent| ==> Transferable(sent[k], devs) && ReceivedOf(data, ds)[k] == Delivered(sent[k])
  {
    var data := EncodeAll(Written(sent));
    assert data[0..] == data;
    WrittenIsExpected(sent, devs);
    FramesAreReceived(data, 0, Written(sent), devs, kernel);
    WillingReachesEnd(data, 0, Written(sent), devs, kernel);
  }

  /* Every buffer is frames and a tail. */

  /** The frames a buffer holds, as far as their lengths lead. */
  function Frames(data: Bytes, off: nat): seq<Frame>
    decreases |data| - off
  {
    if off + HEADER_SIZE >= |data| || off + HEADER_SIZE + LengthAt(data, off) > |data| then []
    else
      [Frame(data[off], data[off + 1], data[off + HEADER_SIZE..off + HEADER_SIZE + LengthAt(data, off)])] +
      Frames(data, off + HEADER_SIZE + LengthAt(data, off))
  }

  /** A buffer is exactly the encoding of the frames its lengths lead to, and a tail. */
  lemma FirstFrameIsEncoded(data: Bytes, off: nat)
    requires off + HEADER_SIZE < |data| && off + HEADER_SIZE + LengthAt(data, off) <= |data|
    ensures data[off..] == Encode(Frames(data, off)[0]) + data[off + HEADER_SIZE + LengthAt(data, off)..]
    ensures |Frames(data, off)[0].payload| == LengthAt(data, off) <= 65535
  {
    var next := off + HEADER_SIZE + LengthAt(data, off);
    InThree(data, off, off + HEADER_SIZE, next);
    HeaderAt(data, off);
    assert Frames(data, off)[0] == Frame(data[off], data[off + 1], data[off + HEADER_SIZE..next]);
  }

  lemma InThree(data: Bytes, from: nat, mid: nat, next: nat)
    requires from <= mid <= next <= |data|
    ensures data[from..] == data[from..mid] + data[mid..next] + data[next..]
  {
  }

  lemma HeaderAt(data: Bytes, off: nat)
    requires off + HEADER_SIZE <= |data|
    ensures data[off..off + HEADER_SIZE] == Header(data[off], data[off + 1], LengthAt(data, off))
    ensures LengthAt(data, off) <= 65535
  {
  }

  lemma FramesUnfold(data: Bytes, off: nat, devs: seq<Dev>)
    requires off + HEADER_SIZE < |data| && off + HEADER_SIZE + LengthAt(data, off) <= |data|
    ensures Expected(Frames(data, off), devs) ==
            OneExpected(Frames(data, off)[0], devs) + Expected(Frames(data, off + HEADER_SIZE + LengthAt(data, off)), devs)
  {
    assert Frames(data, off)[1..] == Frames(data, off + HEADER_SIZE + LengthAt(data, off));
  }

  lemma NoFrames(data: Bytes, off: nat, devs: seq<Dev>, kernel: Kernel)
    requires off + HEADER_SIZE >= |data| || off + HEADER_SIZE + LengthAt(data, off) > |data|
    ensures Receives(data, off, devs, kernel, Expected(Frames(data, off), devs))
  {
    EmptyReceived(data, []);
  }

  /** On any buffer, what is handed up is exactly what its whole frames carry, or a beginning
      of it when the system runs out. */
  lemma {:induction false} AnyBufferIsItsFrames(data: Bytes, off: nat, devs: seq<Dev>, kernel: Kernel)
    ensures Receives(data, off, devs, kernel, Expected(Frames(data, off), devs))
    decreases |data| - off
  {
    if off + HEADER_SIZE >= |data| || off + HEADER_SIZE + LengthAt(data, off) > |data| {
      NoFrames(data, off, devs, kernel);
    } else {
      var next := off + HEADER_SIZE + LengthAt(data, off);
      AnyBufferIsItsFrames(data, next, devs, kernel);
      FramesUnfold(data, off, devs);
      FirstFrameReceived(data, off, next, devs, kernel, Expected(Frames(data, next), devs));
    }
  }

  lemma FirstFrameReceived(data: Bytes, off: nat, next: nat, devs: seq<Dev>, kernel: Kernel, later: seq<Received>)
    requires off + HEADER_SIZE < |data| && next == off + HEADER_SIZE + LengthAt(data, off) <= |data|
    requires Receives(data, next, devs, kernel, later)
    ensures Receives(data, off, devs, kernel, OneExpected(Frames(data, off)[0], devs) + later)
  {
    FirstFrameIsEncoded(data, off);
    FrameThenRest(data, off, Frames(data, off)[0], data[next..], devs, kernel, later);
  }

  /* The table of mux devices. */

  datatype Answer = Done | Invalid | Restart | NoDevice

  predicate TableOk(devs: seq<Dev>, flag: bool) {
    Unique(devs) && (flag <==> devs != []) && forall d :: d in devs ==> 1 <= d.muxId <= 254
  }

  class MuxTable {
    var devs: seq<Dev>
    var muxFlag: bool

    constructor ()
      ensures devs == [] && TableOk(devs, muxFlag)
    {
      devs, muxFlag := [], false;
    }

    method FindDevice(muxId: Byte) returns (d: Option<Dev>)
      ensures d == FindDev(devs, muxId)
    {
      var k := 0;
      assert devs[0..] == devs;
      while k < |devs|
        invariant 0 <= k <= |devs| && FindDev(devs, muxId) == FindDev(devs[k..], muxId)
      {
        if devs[k].muxId == muxId { return Some(devs[k]); }
        assert devs[k..][1..] == devs[k + 1..];
        k := k + 1;
      }
      d := None;
    }

    /** add_mux_store, for a number that was read (None: not a number below 256); the flags
        say whether the lock was free and the new device could be registered. */
    method AddMux(number: Option<Byte>, name: nat, free: bool, registered: bool) returns (answer: Answer)
      requires TableOk(devs, muxFlag)
      modifies this
      ensures TableOk(devs, muxFlag)
      ensures answer == Done <==>
        number.Some? && 1 <= number.value <= 254 && free && registered && FindDev(old(devs), number.value).None?
      ensures devs == if answer == Done then [Dev(name, number.value)] + old(devs) else old(devs)
      ensures answer == Restart <==> number.Some? && 1 <= number.value <= 254 && !free
    {
      if number.None? || number.value < 1 || number.value > 254 { return Invalid; }
      if !free { return Restart; }
      FindDevFinds(devs, number.value);
      var present := FindDevice(number.value);
      if present.Some? { return Invalid; }
      if !registered { return NoDevice; }
      devs := [Dev(name, number.value)] + devs;
      muxFlag := true;
      answer := Done;
    }

    /** del_mux_store. */
    method DelMux(number: Option<Byte>, free: bool) returns (answer: Answer)
      requires TableOk(devs, muxFlag)
      modifies this
      ensures TableOk(devs, muxFlag)
      ensures answer == Done <==> number.Some? && free && FindDev(old(devs), number.value).Some?
      ensures answer == Done ==>
        (forall d :: d in devs <==> d in old(devs) && d.muxId != number.value) && |devs| == |old(devs)| - 1
      ensures answer != Done ==> devs == old(devs)
    {
      if number.None? { return Invalid; }
      if !free { return Restart; }
      FindDevFinds(devs, number.value);
      var present := FindDevice(number.value);
      if present.None? { return Invalid; }
      DropsOne(devs, number.value);
      devs := Drop(devs, number.value);
      if devs == [] { muxFlag := false; }
      answer := Done;
    }
  }

  /** The list without the first device of this ID. */
  function Drop(devs: seq<Dev>, muxId: Byte): seq<Dev> {
    if devs == [] then [] else if devs[0].muxId == muxId then devs[1..] else [devs[0]] + Drop(devs[1..], muxId)
  }

  lemma {:induction false} DropKeepsRest(devs: seq<Dev>, muxId: Byte, d: Dev)
    ensures d in Drop(devs, muxId) ==> d in devs
    ensures d in devs && d.muxId != muxId ==> d in Drop(devs, muxId)
  {
    if devs != [] {
      assert devs == [devs[0]] + devs[1..];
      DropKeepsRest(devs[1..], muxId, d);
    }
  }

  lemma UniqueParts(devs: seq<Dev>)
    requires devs != []
    ensures Unique(devs) <==> Unique(devs[1..]) && forall d :: d in devs[1..] ==> d.muxId != devs[0].muxId
  {
    if Unique(devs) {
      forall i, j | 0 <= i < j < |devs[1..]| ensures devs[1..][i].muxId != devs[1..][j].muxId {
        assert devs[i + 1].muxId != devs[j + 1].muxId;
      }
      forall d | d in devs[1..] ensures d.muxId != devs[0].muxId {
        var k :| 0 <= k < |devs[1..]| && devs[1..][k] == d;
        assert devs[0].muxId != devs[k + 1].muxId;
      }
    }
    if Unique(devs[1..]) && forall d :: d in devs[1..] ==> d.muxId != devs[0].muxId {
      forall i, j | 0 <= i < j < |devs| ensures devs[i].muxId != devs[j].muxId {
        assert devs[j] == devs[1..][j - 1];
        if i > 0 { assert devs[1..][i - 1].muxId != devs[1..][j - 1].muxId; }
      }
    }
  }

  /** Deleting takes out the one device of this ID and no other. */
  lemma {:induction false} DropsOne(devs: seq<Dev>, muxId: Byte)
    requires Unique(devs) && FindDev(devs, muxId).Some?
    ensures Unique(Drop(devs, muxId)) && |Drop(devs, muxId)| == |devs| - 1
    ensures forall d :: d in Drop(devs, muxId) <==> d in devs && d.muxId != muxId
  {
    UniqueParts(devs);
    if devs[0].muxId != muxId {
      var rest := Drop(devs[1..], muxId);
      DropsOne(devs[1..], muxId);
      var kept := [devs[0]] + rest;
      assert kept[1..] == rest;
      UniqueParts(kept);
    }
    forall d ensures d in Drop(devs, muxId) <==> d in devs && d.muxId != muxId {
      DropKeepsRest(devs, muxId, d);
      if d in Drop(devs, muxId) { DroppedIsGone(devs, muxId, d); }
    }
  }

  lemma DroppedIsGone(devs: seq<Dev>, muxId: Byte, d: Dev)
    requires Unique(devs) && FindDev(devs, muxId).Some? && d in Drop(devs, muxId)
    ensures d.muxId != muxId
  {
    UniqueParts(devs);
    if devs[0].muxId != muxId && d != devs[0] {
      DroppedIsGone(devs[1..], muxId, d);
    }
  }
}
