/** The two profile requests as the modem reads them: each setting looked up by its record type. */
module QmiReadBack {
  import opened Wrappers
  import opened QmiTlv
  import opened QmiRequest

  /** The value of the first record of a type, as a reader takes it out of the bytes. */
  function ValueOf(body: Bytes, kind: Byte): Option<Bytes> {
    match Look(body, 0, 0, kind)
    case Found(at) =>
      if at + TLV_HEADER <= |body| && at + TLV_HEADER + TlvLength(body, at) <= |body|
      then Some(body[at + TLV_HEADER..at + TLV_HEADER + TlvLength(body, at)]) else None
    case _ => None
  }

  lemma FoundIsRead(body: Bytes, at: nat, t: Tlv)
    requires RecordAt(body, at, t) && Look(body, 0, 0, t.kind) == Found(at)
    ensures ValueOf(body, t.kind) == Some(t.value)
  {
  }

  /** A record that was written is read with its value. */
  lemma WrittenIsRead(r: Request, t: Tlv)
    requires FitsBuffer(r) && t in TlvsOf(r)
    ensures ValueOf(EncodeTlvs(TlvsOf(r)), t.kind) == Some(t.value)
  {
    var ts, body := TlvsOf(r), EncodeTlvs(TlvsOf(r));
    var k :| 0 <= k < |ts| && ts[k] == t;
    WrittenIsFound(r, k, 0);
    FoundIsRead(body, OffsetOf(ts, k), t);
  }

  lemma UnwrittenIsAbsent(r: Request, kind: Byte)
    requires FitsBuffer(r) && forall t :: t in TlvsOf(r) ==> t.kind != kind
    ensures ValueOf(EncodeTlvs(TlvsOf(r)), kind) == None
  {
    WrittenIsFound(r, 0, kind);
  }

  /** A single byte that tells the number modulo 256. */
  predicate IsByte(v: Option<Bytes>, n: int) {
    v.Some? && |v.value| == 1 && v.value[0] == n % 256
  }

  predicate IsPair(v: Option<Bytes>, first: int, second: int) {
    v.Some? && |v.value| == 2 && v.value[0] == first % 256 && v.value[1] == second % 256
  }

  predicate IsText(v: Option<Bytes>, text: string) {
    v.Some? && |v.value| == |text| && forall k :: 0 <= k < |text| ==> v.value[k] == text[k] as int % 256
  }

  predicate NoName(s: Option<Bytes>) {
    s == None || s == Some([])
  }

  /** A record of a type written at most once, from the part of the request that may hold it. */
  lemma PartIsRead(r: Request, part: seq<Tlv>, kind: Byte)
    requires FitsBuffer(r) && |part| <= 1 && (forall t :: t in part ==> t in TlvsOf(r) && t.kind == kind)
    requires forall t :: t in TlvsOf(r) && t.kind == kind ==> t in part
    ensures ValueOf(EncodeTlvs(TlvsOf(r)), kind) == if part == [] then None else Some(part[0].value)
  {
    if part == [] { UnwrittenIsAbsent(r, kind); } else { WrittenIsRead(r, part[0]); }
  }

  /** A record is in a request exactly if it is in one of its parts. */
  lemma StartParts(p: Profile, m: Modem, t: Tlv)
    ensures
      var e := Effective(p, m);
      t in StartTlvs(p, m) <==>
        t == Tlv(0x30, [if m.cdma then 2 else 1]) || t in ApnTlv(p, m) || t in StringTlv(0x17, e.user) || t in StringTlv(0x18, e.password) ||
        t in AuthTlv(0x16, e) || t == Tlv(0x19, [Uchar(p.ipFamily)]) || t in IndexTlv(p, m)
  {
  }

  lemma ModifyParts(p: Profile, t: Tlv)
    ensures
      t in ModifyTlvs(p) <==>
        t == Tlv(0x01, [0, Uchar(p.index)]) || t == Tlv(0x11, [Uchar(p.ipType)]) || t in StringTlv(0x14, p.apn) ||
        t in StringTlv(0x1B, p.user) || t in StringTlv(0x1C, p.password) || t in AuthTlv(0x1D, p)
  {
  }

  /** The part a request has for a type. */
  function StartPart(p: Profile, m: Modem, kind: Byte): seq<Tlv> {
    var e := Effective(p, m);
    if kind == 0x30 then [Tlv(0x30, [if m.cdma then 2 else 1])]
    else if kind == 0x14 then ApnTlv(p, m)
    else if kind == 0x17 then StringTlv(0x17, e.user)
    else if kind == 0x18 then StringTlv(0x18, e.password)
    else if kind == 0x16 then AuthTlv(0x16, e)
    else if kind == 0x19 then [Tlv(0x19, [Uchar(p.ipFamily)])]
    else if kind == 0x31 then IndexTlv(p, m)
    else []
  }

  function ModifyPart(p: Profile, kind: Byte): seq<Tlv> {
    if kind == 0x01 then [Tlv(0x01, [0, Uchar(p.index)])]
    else if kind == 0x11 then [Tlv(0x11, [Uchar(p.ipType)])]
    else if kind == 0x14 then StringTlv(0x14, p.apn)
    else if kind == 0x1B then StringTlv(0x1B, p.user)
    else if kind == 0x1C then StringTlv(0x1C, p.password)
    else if kind == 0x1D then AuthTlv(0x1D, p)
    else []
  }

  lemma StartPartIsRead(p: Profile, m: Modem, kind: Byte)
    requires StartFits(p, m, BUFFER_SIZE)
    ensures
      var part := StartPart(p, m, kind);
      ValueOf(EncodeTlvs(StartTlvs(p, m)), kind) == if part == [] then None else Some(part[0].value)
  {
    forall t | t in StartTlvs(p, m) && t.kind == kind ensures t in StartPart(p, m, kind) { StartParts(p, m, t); }
    forall t | t in StartPart(p, m, kind) ensures t in StartTlvs(p, m) && t.kind == kind { StartParts(p, m, t); }
    PartIsRead(Start(p, m), StartPart(p, m, kind), kind);
  }

  lemma ModifyPartIsRead(p: Profile, kind: Byte)
    requires ModifyFits(p, BUFFER_SIZE)
    ensures
      var part := ModifyPart(p, kind);
      ValueOf(EncodeTlvs(ModifyTlvs(p)), kind) == if part == [] then None else Some(part[0].value)
  {
    forall t | t in ModifyTlvs(p) && t.kind == kind ensures t in ModifyPart(p, kind) { ModifyParts(p, t); }
    forall t | t in ModifyPart(p, kind) ensures t in ModifyTlvs(p) && t.kind == kind { ModifyParts(p, t); }
    PartIsRead(Modify(p), ModifyPart(p, kind), kind);
  }

  function OfPart(part: seq<Tlv>): Option<Bytes> {
    if part == [] then None else Some(part[0].value)
  }

  /** A start-network request as a reader sees it: the technology, and the access point name,
      credentials, address family and profile index under their own types. A CDMA modem gets no
      name and no index, and the operator's own credentials when the profile has none. */
  predicate StartMeans(p: Profile, m: Modem, read: Byte -> Option<Bytes>) {
    && IsByte(read(0x30), if m.cdma then 2 else 1)
    && IsByte(read(0x19), p.ipFamily)
    && read(0x14) == (if m.cdma then None else p.apn)
    && (if m.cdma || p.index == 0 then read(0x31) == None else IsByte(read(0x31), p.index))
    && (if m.cdma && NoName(p.user) && NoName(p.password) then
          IsText(read(0x17), "ctnet@mycdma.cn") && IsText(read(0x18), "vnet.mobi") && IsByte(read(0x16), 2)
        else
          && read(0x17) == p.user && read(0x18) == p.password
          && (if p.user.Some? && p.password.Some? then IsByte(read(0x16), p.auth) else read(0x16) == None))
  }

  /** A modify-profile request: the profile, its address type, and the name and credentials as
      far as the profile has them. */
  predicate ModifyMeans(p: Profile, read: Byte -> Option<Bytes>) {
    && IsPair(read(0x01), 0, p.index) && IsByte(read(0x11), p.ipType)
    && read(0x14) == p.apn && read(0x1B) == p.user && read(0x1C) == p.password
    && (if p.user.Some? && p.password.Some? then IsByte(read(0x1D), p.auth) else read(0x1D) == None)
  }

  lemma StartPartsMean(p: Profile, m: Modem, read: Byte -> Option<Bytes>)
    requires forall kind: Byte :: read(kind) == OfPart(StartPart(p, m, kind))
    ensures StartMeans(p, m, read)
  {
  }

  lemma ModifyPartsMean(p: Profile, read: Byte -> Option<Bytes>)
    requires forall kind: Byte :: read(kind) == OfPart(ModifyPart(p, kind))
    ensures ModifyMeans(p, read)
  {
  }

  /** What a modem reads from the bytes of a start-network request. */
  lemma StartReadsBack(p: Profile, m: Modem)
    requires StartFits(p, m, BUFFER_SIZE)
    ensures StartMeans(p, m, (kind: Byte) => ValueOf(EncodeTlvs(StartTlvs(p, m)), kind))
  {
    forall kind: Byte ensures ValueOf(EncodeTlvs(StartTlvs(p, m)), kind) == OfPart(StartPart(p, m, kind)) {
      StartPartIsRead(p, m, kind);
    }
    StartPartsMean(p, m, (kind: Byte) => ValueOf(EncodeTlvs(StartTlvs(p, m)), kind));
  }

  /** What a modem reads from the bytes of a modify-profile request. */
  lemma ModifyReadsBack(p: Profile)
    requires ModifyFits(p, BUFFER_SIZE)
    ensures ModifyMeans(p, (kind: Byte) => ValueOf(EncodeTlvs(ModifyTlvs(p)), kind))
  {
    forall kind: Byte ensures ValueOf(EncodeTlvs(ModifyTlvs(p)), kind) == OfPart(ModifyPart(p, kind)) {
      ModifyPartIsRead(p, kind);
    }
    ModifyPartsMean(p, (kind: Byte) => ValueOf(EncodeTlvs(ModifyTlvs(p)), kind));
  }
}
