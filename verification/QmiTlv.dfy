/** QMI messages: nested headers around a run of type-length-value records, and the reader
    that looks a record up by type or by position. */
module QmiTlv {
  import opened Wrappers

  /** A record: a type, and a value whose length takes two bytes, low byte first. */
  datatype Tlv = Tlv(kind: Byte, value: Bytes)

  const TLV_HEADER: nat := 3
  const MESSAGE_HEADER: nat := 4
  const MUX_HEADER: nat := 3
  const QMI_HEADER: nat := 6
  const BUFFER_SIZE: nat := 256

  /** Where the records of a composed message start. */
  const BODY_AT: nat := QMI_HEADER + MUX_HEADER + MESSAGE_HEADER

  function Low(n: nat): Byte {
    n % 256
  }

  function High(n: nat): Byte {
    n / 256 % 256
  }

  function Le16(low: Byte, high: Byte): nat {
    var top: int := high;
    top * 256 + low
  }

  lemma Le16RoundTrip(n: nat)
    ensures n < 65536 <==> Le16(Low(n), High(n)) == n
  {
    assert n % 65536 == n / 256 % 256 * 256 + n % 256;
  }

  function EncodeTlv(t: Tlv): (r: Bytes)
    ensures |r| == TLV_HEADER + |t.value|
  {
    [t.kind, Low(|t.value|), High(|t.value|)] + t.value
  }

  function EncodeTlvs(ts: seq<Tlv>): Bytes {
    if ts == [] then [] else EncodeTlv(ts[0]) + EncodeTlvs(ts[1..])
  }

  /** The type that asks for the i-th record. */
  const BY_INDEX: nat := 0x1000

  /** GetTLV: the record's offset, nothing, or a walk that leaves the declared length. */
  datatype Lookup = Found(at: nat) | Missing | Astray

  function TlvLength(body: Bytes, off: nat): nat
    requires off + TLV_HEADER <= |body|
  {
    Le16(body[off + 1], body[off + 2])
  }

  predicate Wanted(body: Bytes, off: nat, count: nat, wanted: nat)
    requires off + TLV_HEADER <= |body|
  {
    if wanted > BY_INDEX then count + BY_INDEX == wanted else body[off] == wanted
  }

  /** The walk from an offset on; `count` records lie before it. */
  function Look(body: Bytes, off: nat, count: nat, wanted: nat): Lookup
    requires off <= |body|
    decreases |body| - off
  {
    if off + TLV_HEADER > |body| then Missing
    else if Wanted(body, off, count + 1, wanted) then Found(off)
    else if off + TLV_HEADER + TlvLength(body, off) > |body| then Astray
    else Look(body, off + TLV_HEADER + TlvLength(body, off), count + 1, wanted)
  }

  /** GetTLV as it runs, over the bytes the message header counts. */
  method GetTlv(body: Bytes, wanted: nat) returns (r: Lookup)
    ensures r == Look(body, 0, 0, wanted)
  {
    var found: nat := 0;
    var length: nat := |body|;
    var off: nat := 0;
    while length >= TLV_HEADER
      invariant length + off == |body|
      invariant Look(body, 0, 0, wanted) == Look(body, off, found, wanted)
    {
      found := found + 1;
      if wanted > BY_INDEX {
        if found + BY_INDEX == wanted { return Found(off); }
      } else if body[off] == wanted {
        return Found(off);
      }
      var step := TlvLength(body, off) + TLV_HEADER;
      if step > length { return Astray; }
      length, off := length - step, off + step;
    }
    r := Missing;
  }

  /* What the reader finds in what was written. */

  predicate Sized(ts: seq<Tlv>) {
    forall t :: t in ts ==> |t.value| < 65536
  }

  /** The offset of the k-th record. */
  function OffsetOf(ts: seq<Tlv>, k: nat): nat
    requires k <= |ts|
  {
    if k == 0 then 0 else TLV_HEADER + |ts[0].value| + OffsetOf(ts[1..], k - 1)
  }

  /** The first record of a type. */
  function FirstOf(ts: seq<Tlv>, kind: nat): Option<nat> {
    if ts == [] then None
    else if ts[0].kind == kind then Some(0)
    else
      var k := FirstOf(ts[1..], kind);
      if k.None? then None else Some(k.value + 1)
  }

  /** The record a request stands for, `count` records in: by type up to 0x1000, by position
      (from 1) above. */
  function Asked(ts: seq<Tlv>, count: nat, wanted: nat): Option<nat> {
    if wanted > BY_INDEX then
      if BY_INDEX + count < wanted <= BY_INDEX + count + |ts| then Some(wanted - BY_INDEX - count - 1) else None
    else FirstOf(ts, wanted)
  }

  lemma {:induction false} FirstOfIsFirst(ts: seq<Tlv>, kind: nat)
    ensures
      var k := FirstOf(ts, kind);
      if k.Some? then k.value < |ts| && ts[k.value].kind == kind && forall j :: 0 <= j < k.value ==> ts[j].kind != kind
      else forall j :: 0 <= j < |ts| ==> ts[j].kind != kind
  {
    if ts != [] {
      FirstOfIsFirst(ts[1..], kind);
      assert forall j :: 0 < j < |ts| ==> ts[j] == ts[1..][j - 1];
    }
  }

  lemma {:induction false} OffsetStep(ts: seq<Tlv>, k: nat)
    requires k <= |ts|
    ensures OffsetOf(ts, k) <= |EncodeTlvs(ts)|
    ensures EncodeTlvs(ts)[OffsetOf(ts, k)..] == EncodeTlvs(ts[k..])
  {
    if k == 0 {
      assert ts[0..] == ts;
    } else {
      OffsetStep(ts[1..], k - 1);
      assert ts[1..][k - 1..] == ts[k..];
      var head := EncodeTlv(ts[0]);
      assert (head + EncodeTlvs(ts[1..]))[|head| + OffsetOf(ts[1..], k - 1)..] == EncodeTlvs(ts[1..])[OffsetOf(ts[1..], k - 1)..];
    }
  }

  /** The bytes at a record's offset are that record. */
  predicate RecordAt(body: Bytes, off: nat, t: Tlv) {
    off + TLV_HEADER + |t.value| <= |body| && body[off] == t.kind && TlvLength(body, off) == |t.value| &&
    body[off + TLV_HEADER..off + TLV_HEADER + |t.value|] == t.value
  }

  lemma WrittenRecordAt(body: Bytes, off: nat, t: Tlv, rest: Bytes)
    requires off <= |body| && body[off..] == EncodeTlv(t) + rest && |t.value| < 65536
    ensures RecordAt(body, off, t) && body[off + TLV_HEADER + |t.value|..] == rest
  {
    var tail := body[off..];
    Le16RoundTrip(|t.value|);
    assert tail[0] == body[off] && tail[1] == body[off + 1] && tail[2] == body[off + 2];
    assert tail[TLV_HEADER..TLV_HEADER + |t.value|] == t.value;
    assert tail[TLV_HEADER + |t.value|..] == rest;
  }

  /** The walk from an offset on finds the k-th of these records, or nothing. */
  predicate Finds(body: Bytes, off: nat, count: nat, ts: seq<Tlv>, wanted: nat, k: Option<nat>)
    requires off <= |body|
  {
    if k.Some? then
      k.value < |ts| && Look(body, off, count, wanted) == Found(off + OffsetOf(ts, k.value)) &&
      RecordAt(body, off + OffsetOf(ts, k.value), ts[k.value])
    else Look(body, off, count, wanted) == Missing
  }

  lemma AskedLater(ts: seq<Tlv>, count: nat, wanted: nat)
    requires ts != [] && (wanted > BY_INDEX ==> wanted > BY_INDEX + count)
    requires if wanted > BY_INDEX then count + 1 + BY_INDEX != wanted else ts[0].kind != wanted
    ensures
      var k := Asked(ts[1..], count + 1, wanted);
      Asked(ts, count, wanted) == if k.Some? then Some(k.value + 1) else None
  {
  }

  lemma FindsLater(body: Bytes, off: nat, count: nat, ts: seq<Tlv>, wanted: nat, k: Option<nat>)
    requires off <= |body| && ts != [] && RecordAt(body, off, ts[0]) && !Wanted(body, off, count + 1, wanted)
    requires Finds(body, off + TLV_HEADER + |ts[0].value|, count + 1, ts[1..], wanted, k)
    ensures Finds(body, off, count, ts, wanted, if k.Some? then Some(k.value + 1) else None)
  {
  }

  lemma FindsHere(body: Bytes, off: nat, count: nat, ts: seq<Tlv>, wanted: nat)
    requires off <= |body| && ts != [] && RecordAt(body, off, ts[0]) && Wanted(body, off, count + 1, wanted)
    ensures Asked(ts, count, wanted) == Some(0) && Finds(body, off, count, ts, wanted, Some(0))
  {
  }

  lemma HeadRecord(body: Bytes, off: nat, ts: seq<Tlv>)
    requires off <= |body| && body[off..] == EncodeTlvs(ts) && ts != [] && Sized(ts)
    ensures RecordAt(body, off, ts[0]) && Sized(ts[1..])
    ensures body[off + TLV_HEADER + |ts[0].value|..] == EncodeTlvs(ts[1..])
  {
    WrittenRecordAt(body, off, ts[0], EncodeTlvs(ts[1..]));
  }

  lemma LookPasses(body: Bytes, off: nat, count: nat, ts: seq<Tlv>, wanted: nat)
    requires off <= |body| && ts != [] && RecordAt(body, off, ts[0]) && !Wanted(body, off, count + 1, wanted)
    requires wanted > BY_INDEX ==> wanted > BY_INDEX + count
    requires Finds(body, off + TLV_HEADER + |ts[0].value|, count + 1, ts[1..], wanted, Asked(ts[1..], count + 1, wanted))
    ensures Finds(body, off, count, ts, wanted, Asked(ts, count, wanted))
  {
    AskedLater(ts, count, wanted);
    FindsLater(body, off, count, ts, wanted, Asked(ts[1..], count + 1, wanted));
  }

  lemma NothingLeft(body: Bytes, off: nat, count: nat, wanted: nat)
    requires off <= |body| && body[off..] == EncodeTlvs([])
    ensures Finds(body, off, count, [], wanted, Asked([], count, wanted))
  {
    assert |body[off..]| == 0;
  }

  /** Every record written is found again, whole, by its position and (the first of its type)
      by its type; what was not written is not found. */
  lemma {:induction false} LookFinds(body: Bytes, off: nat, count: nat, ts: seq<Tlv>, wanted: nat)
    requires off <= |body| && body[off..] == EncodeTlvs(ts) && Sized(ts)
    requires wanted > BY_INDEX ==> wanted > BY_INDEX + count
    ensures Finds(body, off, count, ts, wanted, Asked(ts, count, wanted))
    decreases |ts|
  {
    if ts == [] {
      NothingLeft(body, off, count, wanted);
    } else {
      HeadRecord(body, off, ts);
      if Wanted(body, off, count + 1, wanted) {
        FindsHere(body, off, count, ts, wanted);
      } else {
        LookFinds(body, off + TLV_HEADER + |ts[0].value|, count + 1, ts[1..], wanted);
        LookPasses(body, off, count, ts, wanted);
      }
    }
  }

  /** A run of records that fills the declared length, but for at most two bytes. */
  predicate Chain(body: Bytes, off: nat)
    requires off <= |body|
    decreases |body| - off
  {
    off + TLV_HEADER > |body| ||
    (off + TLV_HEADER + TlvLength(body, off) <= |body| && Chain(body, off + TLV_HEADER + TlvLength(body, off)))
  }

  /** On arbitrary input: looking for a type that no record can have ends inside the declared
      length exactly when the records' own lengths keep inside it. */
  lemma {:induction false} StaysInsideExactly(body: Bytes, off: nat, count: nat)
    requires off <= |body|
    ensures Look(body, off, count, BY_INDEX) == Missing <==> Chain(body, off)
    ensures Chain(body, off) ==> forall wanted :: Look(body, off, count, wanted) != Astray
    decreases |body| - off
  {
    if off + TLV_HEADER <= |body| && off + TLV_HEADER + TlvLength(body, off) <= |body| {
      StaysInsideExactly(body, off + TLV_HEADER + TlvLength(body, off), count + 1);
    }
  }
}
