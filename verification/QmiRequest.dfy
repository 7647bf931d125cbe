/** The two profile requests, written record by record into a 256-byte buffer. */
module QmiRequest {
  import opened Wrappers
  import opened QmiTlv

  /** A profile as the caller gives it; a string is its bytes before the terminator, None a null pointer. */
  datatype Profile = Profile(
    apn: Option<Bytes>, user: Option<Bytes>, password: Option<Bytes>, auth: int, ipType: int, index: int, ipFamily: int)

  datatype Modem = Modem(cdma: bool)

  /** A number stored in one byte. */
  function Uchar(n: int): Byte {
    n % 256
  }

  function Ascii(s: string): (r: Bytes)
    ensures |r| == |s|
  {
    seq(|s|, k requires 0 <= k < |s| => s[k] as int % 256)
  }

  predicate Blank(s: Option<Bytes>) {
    s.None? || s.value == []
  }

  predicate DefaultsApply(p: Profile, m: Modem) {
    m.cdma && Blank(p.user) && Blank(p.password)
  }

  /** The profile with the operator's default credentials where they apply. */
  function Effective(p: Profile, m: Modem): Profile {
    if DefaultsApply(p, m)
    then p.(user := Some(Ascii("ctnet@mycdma.cn")), password := Some(Ascii("vnet.mobi")), auth := 2)
    else p
  }

  function StringTlv(kind: Byte, s: Option<Bytes>): seq<Tlv> {
    if s.Some? then [Tlv(kind, s.value)] else []
  }

  function AuthTlv(kind: Byte, p: Profile): seq<Tlv> {
    if p.user.Some? && p.password.Some? then [Tlv(kind, [Uchar(p.auth)])] else []
  }

  function ApnTlv(p: Profile, m: Modem): seq<Tlv> {
    if m.cdma then [] else StringTlv(0x14, p.apn)
  }

  function IndexTlv(p: Profile, m: Modem): seq<Tlv> {
    if p.index != 0 && !m.cdma then [Tlv(0x31, [Uchar(p.index)])] else []
  }

  /** The records of a start-network request: only the stated ones, each at most once. */
  function StartTlvs(p: Profile, m: Modem): seq<Tlv> {
    var e := Effective(p, m);
    [Tlv(0x30, [if m.cdma then 2 else 1])] +
    ApnTlv(p, m) + StringTlv(0x17, e.user) + StringTlv(0x18, e.password) + AuthTlv(0x16, e) +
    [Tlv(0x19, [Uchar(p.ipFamily)])] + IndexTlv(p, m)
  }

  /** The records of a modify-profile request. */
  function ModifyTlvs(p: Profile): seq<Tlv> {
    [Tlv(0x01, [0, Uchar(p.index)])] + [Tlv(0x11, [Uchar(p.ipType)])] +
    StringTlv(0x14, p.apn) + StringTlv(0x1B, p.user) + StringTlv(0x1C, p.password) + AuthTlv(0x1D, p)
  }

  /** A string copied as the last record leaves its terminator behind it. */
  predicate EndsInString(p: Profile) {
    (p.apn.Some? || p.user.Some? || p.password.Some?) && !(p.user.Some? && p.password.Some?)
  }

  function Size(ts: seq<Tlv>): nat {
    |EncodeTlvs(ts)|
  }

  predicate StartFits(p: Profile, m: Modem, room: nat) {
    BODY_AT + Size(StartTlvs(p, m)) <= room
  }

  /** How far a modify request reaches into a buffer, the terminator of a last string included. */
  function ModifyExtent(p: Profile): nat {
    BODY_AT + Size(ModifyTlvs(p)) + (if EndsInString(p) then 1 else 0)
  }

  predicate ModifyFits(p: Profile, room: nat) {
    ModifyExtent(p) <= room
  }

  lemma {:induction false} EncodeJoins(a: seq<Tlv>, b: seq<Tlv>)
    ensures EncodeTlvs(a + b) == EncodeTlvs(a) + EncodeTlvs(b)
    ensures Size(a + b) == Size(a) + Size(b)
  {
    if a == [] {
      assert a + b == b;
    } else {
      assert (a + b)[1..] == a[1..] + b;
      EncodeJoins(a[1..], b);
    }
  }

  lemma SizeOfOne(t: Tlv)
    ensures EncodeTlvs([t]) == EncodeTlv(t) && Size([t]) == TLV_HEADER + |t.value|
  {
    assert [t][1..] == [];
  }

  /** The buffer holds these records, and nothing behind `at` matters yet. */
  predicate Holds(buf: array<Byte>, at: nat, ts: seq<Tlv>)
    reads buf
  {
    BODY_AT <= at <= buf.Length && buf[BODY_AT..at] == EncodeTlvs(ts)
  }

  method PutByte(buf: array<Byte>, at: nat, kind: Byte, v: Byte, ghost ts: seq<Tlv>) returns (next: nat)
    requires Holds(buf, at, ts) && at + TLV_HEADER + 1 <= buf.Length
    modifies buf
    ensures next == at + TLV_HEADER + 1 && Holds(buf, next, ts + [Tlv(kind, [v])])
    ensures buf[..BODY_AT] == old(buf[..BODY_AT])
    ensures forall k :: next <= k < buf.Length ==> buf[k] == old(buf[k])
  {
    ghost var before := buf[..];
    assert before[BODY_AT..at] == buf[BODY_AT..at];
    buf[at] := kind;
    buf[at + 1] := 1;
    buf[at + 2] := 0;
    buf[at + 3] := v;
    next := at + TLV_HEADER + 1;
    ByteAppended(before, buf[..], at, ts, kind, v);
    assert buf[..][BODY_AT..next] == buf[BODY_AT..next];
  }

  lemma ByteAppended(before: Bytes, after: Bytes, at: nat, ts: seq<Tlv>, kind: Byte, v: Byte)
    requires BODY_AT <= at && at + TLV_HEADER + 1 <= |before| && before[BODY_AT..at] == EncodeTlvs(ts)
    requires after == before[at := kind][at + 1 := 1][at + 2 := 0][at + 3 := v]
    ensures after[BODY_AT..at + TLV_HEADER + 1] == EncodeTlvs(ts + [Tlv(kind, [v])])
    ensures after[..BODY_AT] == before[..BODY_AT]
  {
    assert after[..at] == before[..at];
    assert after[at..at + TLV_HEADER] == [kind, 1, 0] == EncodeTlv(Tlv(kind, [v]))[..TLV_HEADER];
    assert after[at + TLV_HEADER..at + TLV_HEADER + 1] == [v];
    RecordAppended(before, after, at, ts, Tlv(kind, [v]));
  }

  /** qstrcpy: the bytes of the string and its terminator. */
  method CopyString(buf: array<Byte>, at: nat, s: Bytes)
    requires at + |s| < buf.Length
    modifies buf
    ensures buf[..] == old(buf[..at]) + s + [0] + old(buf[at + |s| + 1..])
  {
    var k := 0;
    while k < |s|
      invariant 0 <= k <= |s|
      invariant forall q :: 0 <= q < buf.Length ==> buf[q] == if at <= q < at + k then s[q - at] else old(buf[q])
    {
      buf[at + k] := s[k];
      k := k + 1;
    }
    buf[at + k] := 0;
  }

  lemma RecordAppended(before: Bytes, after: Bytes, at: nat, ts: seq<Tlv>, t: Tlv)
    requires BODY_AT <= at && at + TLV_HEADER + |t.value| <= |before| && |after| == |before|
    requires before[BODY_AT..at] == EncodeTlvs(ts) && after[..at] == before[..at]
    requires after[at..at + TLV_HEADER] == EncodeTlv(t)[..TLV_HEADER]
    requires after[at + TLV_HEADER..at + TLV_HEADER + |t.value|] == t.value
    ensures after[BODY_AT..at + TLV_HEADER + |t.value|] == EncodeTlvs(ts + [t])
    ensures after[..BODY_AT] == before[..BODY_AT]
  {
    RecordBytes(after, at, t);
    SlicesJoin(before, after, BODY_AT, at, at + TLV_HEADER + |t.value|);
    RecordJoined(before[BODY_AT..at], after[at..at + TLV_HEADER + |t.value|], ts, t);
  }

  lemma RecordJoined(front: Bytes, record: Bytes, ts: seq<Tlv>, t: Tlv)
    requires front == EncodeTlvs(ts) && record == EncodeTlv(t)
    ensures front + record == EncodeTlvs(ts + [t])
  {
    EncodeJoins(ts, [t]);
    SizeOfOne(t);
  }

  lemma RecordBytes(after: Bytes, at: nat, t: Tlv)
    requires at + TLV_HEADER + |t.value| <= |after|
    requires after[at..at + TLV_HEADER] == EncodeTlv(t)[..TLV_HEADER]
    requires after[at + TLV_HEADER..at + TLV_HEADER + |t.value|] == t.value
    ensures after[at..at + TLV_HEADER + |t.value|] == EncodeTlv(t)
  {
    var next := at + TLV_HEADER + |t.value|;
    assert after[at..next] == after[at..at + TLV_HEADER] + after[at + TLV_HEADER..next];
    assert EncodeTlv(t) == EncodeTlv(t)[..TLV_HEADER] + t.value;
  }

  lemma SlicesJoin(before: Bytes, after: Bytes, from: nat, at: nat, next: nat)
    requires from <= at <= next <= |after| && at <= |before| && after[..at] == before[..at]
    ensures after[from..next] == before[from..at] + after[at..next] && after[..from] == before[..from]
  {
    assert after[from..at] == after[..at][from..] == before[from..at];
    assert after[..from] == after[..at][..from];
  }

  lemma CopiedParts(marked: Bytes, after: Bytes, mid: nat, s: Bytes)
    requires mid + |s| < |marked|
    requires after == marked[..mid] + s + [0] + marked[mid + |s| + 1..]
    ensures |after| == |marked| && after[..mid] == marked[..mid] && after[mid..mid + |s|] == s
  {
  }

  method PutString(buf: array<Byte>, at: nat, kind: Byte, s: Bytes, ghost ts: seq<Tlv>) returns (next: nat)
    requires Holds(buf, at, ts) && at + TLV_HEADER + |s| + 1 <= buf.Length
    modifies buf
    ensures next == at + TLV_HEADER + |s| && Holds(buf, next, ts + [Tlv(kind, s)])
    ensures buf[..BODY_AT] == old(buf[..BODY_AT])
    ensures next < buf.Length && buf[next] == 0
    ensures forall k :: next < k < buf.Length ==> buf[k] == old(buf[k])
  {
    ghost var before := buf[..];
    buf[at] := kind;
    buf[at + 1] := Low(|s|);
    buf[at + 2] := High(|s|);
    ghost var marked := buf[..];
    ghost var mid := at + TLV_HEADER;
    assert buf[..mid] == marked[..mid] && buf[mid + |s| + 1..] == marked[mid + |s| + 1..];
    CopyString(buf, at + TLV_HEADER, s);
    next := at + TLV_HEADER + |s|;
    ghost var after := buf[..];
    CopiedParts(marked, after, mid, s);
    MarkedParts(before, marked, after, at, Tlv(kind, s));
    RecordAppended(before, after, at, ts, Tlv(kind, s));
    assert buf[BODY_AT..next] == after[BODY_AT..next];
  }

  /** Writing the string left the record's header and what lies before it as they were. */
  lemma MarkedParts(before: Bytes, marked: Bytes, after: Bytes, at: nat, t: Tlv)
    requires at + TLV_HEADER <= |before| == |marked| == |after|
    requires marked == before[at := t.kind][at + 1 := Low(|t.value|)][at + 2 := High(|t.value|)]
    requires after[..at + TLV_HEADER] == marked[..at + TLV_HEADER]
    ensures after[..at] == before[..at] && after[at..at + TLV_HEADER] == EncodeTlv(t)[..TLV_HEADER]
  {
    assert after[..at] == after[..at + TLV_HEADER][..at] == marked[..at];
    assert after[at..at + TLV_HEADER] == after[..at + TLV_HEADER][at..] == marked[at..at + TLV_HEADER];
  }

  /** A string record if there is a string. */
  method PutOptional(buf: array<Byte>, at: nat, kind: Byte, s: Option<Bytes>, ghost ts: seq<Tlv>) returns (next: nat)
    requires Holds(buf, at, ts) && at + Size(StringTlv(kind, s)) + (if s.Some? then 1 else 0) <= buf.Length
    modifies buf
    ensures next == at + Size(StringTlv(kind, s)) && Holds(buf, next, ts + StringTlv(kind, s))
    ensures buf[..BODY_AT] == old(buf[..BODY_AT])
    ensures s.Some? ==> next < buf.Length && buf[next] == 0
    ensures forall k :: next + (if s.Some? then 1 else 0) <= k < buf.Length ==> buf[k] == old(buf[k])
  {
    next := at;
    if s.Some? {
      SizeOfOne(Tlv(kind, s.value));
      next := PutString(buf, at, kind, s.value, ts);
    } else {
      assert ts + StringTlv(kind, s) == ts;
    }
  }

  method PutAuth(buf: array<Byte>, at: nat, kind: Byte, p: Profile, ghost ts: seq<Tlv>) returns (next: nat)
    requires Holds(buf, at, ts) && at + Size(AuthTlv(kind, p)) <= buf.Length
    modifies buf
    ensures next == at + Size(AuthTlv(kind, p)) && Holds(buf, next, ts + AuthTlv(kind, p))
    ensures buf[..BODY_AT] == old(buf[..BODY_AT])
    ensures forall k :: next <= k < buf.Length ==> buf[k] == old(buf[k])
  {
    next := at;
    if p.user.Some? && p.password.Some? {
      SizeOfOne(Tlv(kind, [Uchar(p.auth)]));
      next := PutByte(buf, at, kind, Uchar(p.auth), ts);
    } else {
      assert ts + AuthTlv(kind, p) == ts;
    }
  }

  /** User name, password and, if both are there, how to authenticate. */
  method PutCredentials(buf: array<Byte>, at: nat, kind: Byte, auth: Byte, p: Profile, ghost ts: seq<Tlv>) returns (next: nat)
    requires kind <= 253 && Holds(buf, at, ts)
    requires
      at + Size(StringTlv(kind, p.user)) + Size(StringTlv(kind + 1, p.password)) + Size(AuthTlv(auth, p)) +
      (if p.user.Some? != p.password.Some? then 1 else 0) <= buf.Length
    modifies buf
    ensures next == at + Size(StringTlv(kind, p.user)) + Size(StringTlv(kind + 1, p.password)) + Size(AuthTlv(auth, p))
    ensures Holds(buf, next, ts + StringTlv(kind, p.user) + StringTlv(kind + 1, p.password) + AuthTlv(auth, p))
    ensures buf[..BODY_AT] == old(buf[..BODY_AT])
    ensures p.user.Some? != p.password.Some? ==> next < buf.Length && buf[next] == 0
    ensures forall k :: next + (if p.user.Some? != p.password.Some? then 1 else 0) <= k < buf.Length ==> buf[k] == old(buf[k])
  {
    AuthSize(auth, p);
    next := PutOptional(buf, at, kind, p.user, ts);
    next := PutOptional(buf, next, kind + 1, p.password, ts + StringTlv(kind, p.user));
    next := PutAuth(buf, next, auth, p, ts + StringTlv(kind, p.user) + StringTlv(kind + 1, p.password));
  }

  lemma AuthSize(kind: Byte, p: Profile)
    ensures Size(AuthTlv(kind, p)) == if p.user.Some? && p.password.Some? then 4 else 0
  {
    SizeOfOne(Tlv(kind, [Uchar(p.auth)]));
  }

  lemma StringSize(kind: Byte, s: Option<Bytes>)
    ensures Size(StringTlv(kind, s)) == if s.Some? then TLV_HEADER + |s.value| else 0
  {
    if s.Some? { SizeOfOne(Tlv(kind, s.value)); }
  }

  /* The whole requests. */

  /** The sizes of the parts of a start-network request. */
  lemma StartSizes(p: Profile, m: Modem)
    ensures
      var e := Effective(p, m);
      Size(StartTlvs(p, m)) == 4 + Size(ApnTlv(p, m)) + Size(StringTlv(0x17, e.user)) + Size(StringTlv(0x18, e.password)) +
                               Size(AuthTlv(0x16, e)) + 4 + Size(IndexTlv(p, m))
  {
    var e := Effective(p, m);
    var tech, family := [Tlv(0x30, [if m.cdma then 2 else 1])], [Tlv(0x19, [Uchar(p.ipFamily)])];
    SizeOfOne(tech[0]);
    SizeOfOne(family[0]);
    EncodeJoins(tech, ApnTlv(p, m));
    EncodeJoins(tech + ApnTlv(p, m), StringTlv(0x17, e.user));
    EncodeJoins(tech + ApnTlv(p, m) + StringTlv(0x17, e.user), StringTlv(0x18, e.password));
    EncodeJoins(tech + ApnTlv(p, m) + StringTlv(0x17, e.user) + StringTlv(0x18, e.password), AuthTlv(0x16, e));
    EncodeJoins(tech + ApnTlv(p, m) + StringTlv(0x17, e.user) + StringTlv(0x18, e.password) + AuthTlv(0x16, e), family);
    EncodeJoins(tech + ApnTlv(p, m) + StringTlv(0x17, e.user) + StringTlv(0x18, e.password) + AuthTlv(0x16, e) + family, IndexTlv(p, m));
  }

  /** WdsStartNwInterfaceReq: what the message header's length is to count, plus that header. */
  method WdsStartNwInterfaceReq(buf: array<Byte>, p: Profile, m: Modem) returns (length: nat)
    requires StartFits(p, m, buf.Length)
    modifies buf
    ensures length == MESSAGE_HEADER + Size(StartTlvs(p, m))
    ensures buf[BODY_AT..BODY_AT + Size(StartTlvs(p, m))] == EncodeTlvs(StartTlvs(p, m))
    ensures buf[..BODY_AT] == old(buf[..BODY_AT])
  {
    var e := p;
    if m.cdma && Blank(p.user) && Blank(p.password) {
      e := e.(user := Some(Ascii("ctnet@mycdma.cn")), password := Some(Ascii("vnet.mobi")), auth := 2);
    }
    StartSizes(p, m);
    assert buf[BODY_AT..BODY_AT] == EncodeTlvs([]);
    ghost var tech := [Tlv(0x30, [if m.cdma then 2 else 1])];
    var at := PutByte(buf, BODY_AT, 0x30, if m.cdma then 2 else 1, []);
    assert [] + tech == tech;
    at := PutApn(buf, at, p, m, tech);
    at := PutCredentials(buf, at, 0x17, 0x16, e, tech + ApnTlv(p, m));
    ghost var ts := tech + ApnTlv(p, m) + StringTlv(0x17, e.user) + StringTlv(0x18, e.password) + AuthTlv(0x16, e);
    at := PutFamily(buf, at, p, m, ts);
    length := MESSAGE_HEADER + (at - BODY_AT);
  }

  method PutFamily(buf: array<Byte>, at: nat, p: Profile, m: Modem, ghost ts: seq<Tlv>) returns (next: nat)
    requires Holds(buf, at, ts) && at + 4 + Size(IndexTlv(p, m)) <= buf.Length
    modifies buf
    ensures next == at + 4 + Size(IndexTlv(p, m)) && Holds(buf, next, ts + [Tlv(0x19, [Uchar(p.ipFamily)])] + IndexTlv(p, m))
    ensures buf[..BODY_AT] == old(buf[..BODY_AT])
  {
    next := PutByte(buf, at, 0x19, Uchar(p.ipFamily), ts);
    next := PutIndex(buf, next, p, m, ts + [Tlv(0x19, [Uchar(p.ipFamily)])]);
  }

  method PutApn(buf: array<Byte>, at: nat, p: Profile, m: Modem, ghost ts: seq<Tlv>) returns (next: nat)
    requires Holds(buf, at, ts) && at + Size(ApnTlv(p, m)) + 1 <= buf.Length
    modifies buf
    ensures next == at + Size(ApnTlv(p, m)) && Holds(buf, next, ts + ApnTlv(p, m))
    ensures buf[..BODY_AT] == old(buf[..BODY_AT])
  {
    if !m.cdma {
      next := PutOptional(buf, at, 0x14, p.apn, ts);
    } else {
      next := at;
      assert ts + [] == ts;
    }
  }

  /** The profile index. The source has a second test for cdma inside this one, for an index
      of type 0x32; inside a test for not cdma it never holds. */
  method PutIndex(buf: array<Byte>, at: nat, p: Profile, m: Modem, ghost ts: seq<Tlv>) returns (next: nat)
    requires Holds(buf, at, ts) && at + Size(IndexTlv(p, m)) <= buf.Length
    modifies buf
    ensures next == at + Size(IndexTlv(p, m)) && Holds(buf, next, ts + IndexTlv(p, m))
    ensures buf[..BODY_AT] == old(buf[..BODY_AT])
  {
    if p.index != 0 && !m.cdma {
      SizeOfOne(Tlv(0x31, [Uchar(p.index)]));
      next := PutByte(buf, at, 0x31, Uchar(p.index), ts);
    } else {
      next := at;
      assert ts + IndexTlv(p, m) == ts;
    }
  }

  lemma ModifySizes(p: Profile)
    ensures
      Size(ModifyTlvs(p)) == 5 + 4 + Size(StringTlv(0x14, p.apn)) + Size(StringTlv(0x1B, p.user)) +
                             Size(StringTlv(0x1C, p.password)) + Size(AuthTlv(0x1D, p))
  {
    var first, second := [Tlv(0x01, [0, Uchar(p.index)])], [Tlv(0x11, [Uchar(p.ipType)])];
    SizeOfOne(first[0]);
    SizeOfOne(second[0]);
    EncodeJoins(first, second);
    EncodeJoins(first + second, StringTlv(0x14, p.apn));
    EncodeJoins(first + second + StringTlv(0x14, p.apn), StringTlv(0x1B, p.user));
    EncodeJoins(first + second + StringTlv(0x14, p.apn) + StringTlv(0x1B, p.user), StringTlv(0x1C, p.password));
    EncodeJoins(first + second + StringTlv(0x14, p.apn) + StringTlv(0x1B, p.user) + StringTlv(0x1C, p.password), AuthTlv(0x1D, p));
  }

  /** The fixed first record of a modify-profile request. */
  method PutProfile(buf: array<Byte>, index: Byte) returns (next: nat)
    requires BODY_AT + 5 <= buf.Length
    modifies buf
    ensures next == BODY_AT + 5 && Holds(buf, next, [Tlv(0x01, [0, index])])
    ensures buf[..BODY_AT] == old(buf[..BODY_AT])
    ensures forall k :: next <= k < buf.Length ==> buf[k] == old(buf[k])
  {
    buf[BODY_AT] := 0x01;
    buf[BODY_AT + 1] := 2;
    buf[BODY_AT + 2] := 0;
    buf[BODY_AT + 3] := 0;
    buf[BODY_AT + 4] := index;
    next := BODY_AT + 5;
    SizeOfOne(Tlv(0x01, [0, index]));
  }

  /** WdsModifyProfileSettingsReq. */
  method WdsModifyProfileSettingsReq(buf: array<Byte>, p: Profile) returns (length: nat)
    requires ModifyFits(p, buf.Length)
    modifies buf
    ensures length == MESSAGE_HEADER + Size(ModifyTlvs(p))
    ensures buf[BODY_AT..BODY_AT + Size(ModifyTlvs(p))] == EncodeTlvs(ModifyTlvs(p))
    ensures buf[..BODY_AT] == old(buf[..BODY_AT])
    ensures EndsInString(p) ==> buf[BODY_AT + Size(ModifyTlvs(p))] == 0
    ensures forall k :: ModifyExtent(p) <= k < buf.Length ==> buf[k] == old(buf[k])
  {
    ModifySizes(p);
    AuthSize(0x1D, p);
    ghost var first, second := [Tlv(0x01, [0, Uchar(p.index)])], [Tlv(0x11, [Uchar(p.ipType)])];
    var at := PutProfile(buf, Uchar(p.index));
    at := PutByte(buf, at, 0x11, Uchar(p.ipType), first);
    StringSize(0x1B, p.user);
    StringSize(0x1C, p.password);
    at := PutOptional(buf, at, 0x14, p.apn, first + second);
    at := PutCredentials(buf, at, 0x1B, 0x1D, p, first + second + StringTlv(0x14, p.apn));
    length := MESSAGE_HEADER + (at - BODY_AT);
  }

  /* The message around the records. */

  datatype Request = Start(profile: Profile, modem: Modem) | Modify(profile: Profile) | Bare

  function TlvsOf(r: Request): seq<Tlv> {
    match r
    case Start(p, m) => StartTlvs(p, m)
    case Modify(p) => ModifyTlvs(p)
    case Bare => []
  }

  /** Every byte the request writes, terminators included, lies in the buffer. */
  predicate FitsBuffer(r: Request) {
    match r
    case Start(p, m) => StartFits(p, m, BUFFER_SIZE)
    case Modify(p) => ModifyFits(p, BUFFER_SIZE)
    case Bare => true
  }

  /** The layout: interface type, length, flags, service and client; flags and transaction;
      message type and length; records. */
  function Message(service: Byte, transaction: nat, kind: nat, body: Bytes): (r: Bytes)
    ensures |r| == BODY_AT + |body|
  {
    var length := BODY_AT + |body| - 1;
    [1, Low(length), High(length), 0, service, 0] + [0, Low(transaction), High(transaction)] +
    [Low(kind), High(kind), Low(|body|), High(|body|)] + body
  }

  class QmiThread {
    var transactionId: nat

    constructor ()
      ensures transactionId == 0
    {
      transactionId := 0;
    }

    /** GetQMUXTransactionId: never zero, and never the same twice in a row. */
    method NextTransaction() returns (id: nat)
      requires transactionId <= 0xFFFF
      modifies this
      ensures id == transactionId == if old(transactionId) == 0xFFFF then 1 else old(transactionId) + 1
      ensures 1 <= id <= 0xFFFF && id != old(transactionId)
    {
      transactionId := transactionId + 1;
      if transactionId > 0xFFFF { transactionId := 1; }
      id := transactionId;
    }

    /** ComposeQMUXMsg: the buffer is filled in place and as much of it copied as the outer
        length says. `room` says whether the copy could be allocated. */
    method ComposeQMUXMsg(service: Byte, kind: nat, r: Request, room: bool) returns (msg: Option<Bytes>)
      requires transactionId <= 0xFFFF && kind <= 0xFFFF && FitsBuffer(r)
      modifies this
      ensures 1 <= transactionId <= 0xFFFF
      ensures msg == if room then Some(Message(service, transactionId, kind, EncodeTlvs(TlvsOf(r)))) else None
    {
      var id := NextTransaction();
      var buf := FilledBuffer(service, id, kind, r);
      msg := None;
      if room {
        var length := Le16(buf[1], buf[2]) + 1;
        msg := Some(buf[..][..length]);
      }
    }
  }

  /** The buffer with the whole message in it. */
  method FilledBuffer(service: Byte, id: nat, kind: nat, r: Request) returns (buf: array<Byte>)
    requires FitsBuffer(r)
    ensures fresh(buf) && BODY_AT <= buf.Length && IsMessage(buf[..], Message(service, id, kind, EncodeTlvs(TlvsOf(r))))
  {
    buf := NewBuffer(service, id, kind);
    var counted := FillBody(buf, r);
    ghost var body := EncodeTlvs(TlvsOf(r));
    ghost var filled := buf[..];
    assert filled[..BODY_AT] == buf[..BODY_AT] && filled[BODY_AT..BODY_AT + |body|] == body;
    SetLengths(buf, counted - MESSAGE_HEADER);
    FilledIsMessage(filled, buf[..], service, id, kind, body);
  }

  /** The message lies at the front of the buffer, and the outer length says where it ends. */
  predicate IsMessage(b: Bytes, msg: Bytes) {
    3 <= |b| && Le16(b[1], b[2]) + 1 == |msg| <= |b| && b[..|msg|] == msg
  }

  lemma FilledIsMessage(filled: Bytes, b: Bytes, service: Byte, id: nat, kind: nat, body: Bytes)
    requires |filled| == BUFFER_SIZE && BODY_AT + |body| <= BUFFER_SIZE && b == WithLengths(filled, |body|)
    requires filled[..BODY_AT] == Head(service, id, kind) && filled[BODY_AT..BODY_AT + |body|] == body
    ensures IsMessage(b, Message(service, id, kind, body))
  {
    MessageBytes(filled, service, id, kind, body);
    Le16RoundTrip(BODY_AT + |body| - 1);
  }

  method NewBuffer(service: Byte, id: nat, kind: nat) returns (buf: array<Byte>)
    ensures fresh(buf) && buf.Length == BUFFER_SIZE && buf[..BODY_AT] == Head(service, id, kind)
  {
    buf := new Byte[BUFFER_SIZE](_ => 0);
    buf[0] := 1;
    buf[4] := service;
    SetTwo(buf, 7, id);
    SetTwo(buf, 9, kind);
  }

  /** The request's own function, if it has one. */
  method FillBody(buf: array<Byte>, r: Request) returns (counted: nat)
    requires buf.Length == BUFFER_SIZE && FitsBuffer(r)
    modifies buf
    ensures counted == MESSAGE_HEADER + Size(TlvsOf(r)) && BODY_AT + Size(TlvsOf(r)) <= BUFFER_SIZE
    ensures buf[BODY_AT..BODY_AT + Size(TlvsOf(r))] == EncodeTlvs(TlvsOf(r)) && buf[..BODY_AT] == old(buf[..BODY_AT])
  {
    match r
    case Start(p, m) => counted := WdsStartNwInterfaceReq(buf, p, m);
    case Modify(p) => counted := WdsModifyProfileSettingsReq(buf, p);
    case Bare => counted := MESSAGE_HEADER;
  }

  method SetTwo(buf: array<Byte>, at: nat, n: nat)
    requires at + 2 <= buf.Length
    modifies buf
    ensures buf[..] == old(buf[..])[at := Low(n)][at + 1 := High(n)]
  {
    buf[at] := Low(n);
    buf[at + 1] := High(n);
  }

  /** Both lengths, the outer one counted from what the inner one reads back as. */
  method SetLengths(buf: array<Byte>, n: nat)
    requires buf.Length == BUFFER_SIZE && BODY_AT + n <= BUFFER_SIZE
    modifies buf
    ensures buf[..] == WithLengths(old(buf[..]), n)
  {
    SetTwo(buf, 11, n);
    Le16RoundTrip(n);
    ghost var inner := buf[..];
    assert buf[11] == inner[11] && buf[12] == inner[12];
    var length := Le16(buf[11], buf[12]) + MESSAGE_HEADER + MUX_HEADER + QMI_HEADER - 1;
    SetTwo(buf, 1, length);
  }

  function WithLengths(b: Bytes, n: nat): Bytes
    requires |b| >= BODY_AT
  {
    b[11 := Low(n)][12 := High(n)][1 := Low(BODY_AT + n - 1)][2 := High(BODY_AT + n - 1)]
  }

  function Head(service: Byte, id: nat, kind: nat): Bytes {
    [1, 0, 0, 0, service, 0, 0, Low(id), High(id), Low(kind), High(kind), 0, 0]
  }

  /** The thirteen header bytes and the records behind them are the message. */
  lemma MessageBytes(b: Bytes, service: Byte, id: nat, kind: nat, body: Bytes)
    requires |b| == BUFFER_SIZE && BODY_AT + |body| <= BUFFER_SIZE
    requires b[..BODY_AT] == Head(service, id, kind) && b[BODY_AT..BODY_AT + |body|] == body
    ensures WithLengths(b, |body|)[..BODY_AT + |body|] == Message(service, id, kind, body)
  {
    LengthsInHead(b, body);
    HeadBytes(service, id, kind, body);
  }

  lemma LengthsInHead(b: Bytes, body: Bytes)
    requires BODY_AT + |body| <= |b| && b[BODY_AT..BODY_AT + |body|] == body
    ensures WithLengths(b, |body|)[..BODY_AT + |body|] == WithLengths(b[..BODY_AT], |body|) + body
  {
    LengthsKeepRest(b, |body|);
    var c := WithLengths(b, |body|);
    assert c[BODY_AT..][..|body|] == b[BODY_AT..][..|body|] == body;
    assert c[..BODY_AT + |body|] == c[..BODY_AT] + c[BODY_AT..][..|body|];
  }

  lemma LengthsKeepRest(b: Bytes, n: nat)
    requires |b| >= BODY_AT
    ensures WithLengths(b, n)[..BODY_AT] == WithLengths(b[..BODY_AT], n) && WithLengths(b, n)[BODY_AT..] == b[BODY_AT..]
  {
  }

  lemma HeadBytes(service: Byte, id: nat, kind: nat, body: Bytes)
    ensures WithLengths(Head(service, id, kind), |body|) + body == Message(service, id, kind, body)
  {
  }

  /** The two nested lengths of a message say how many bytes it has and how many of them are
      records; interface type, service, transaction and message type read back as given. */
  lemma LengthsAgree(service: Byte, transaction: nat, kind: nat, body: Bytes)
    requires |body| < 65536 - BODY_AT
    ensures
      var msg := Message(service, transaction, kind, body);
      && Le16(msg[1], msg[2]) + 1 == |msg| && Le16(msg[11], msg[12]) + BODY_AT == |msg|
      && msg[0] == 1 && msg[3] == 0 && msg[4] == service && msg[5] == 0 && msg[6] == 0
      && (transaction < 65536 ==> Le16(msg[7], msg[8]) == transaction) && (kind < 65536 ==> Le16(msg[9], msg[10]) == kind)
      && msg[BODY_AT..] == body
  {
    Le16RoundTrip(transaction);
    Le16RoundTrip(kind);
    Le16RoundTrip(BODY_AT + |body| - 1);
    Le16RoundTrip(|body|);
  }

  /* What a reader finds in a request. */

  predicate Distinct(ts: seq<Tlv>) {
    forall i, j :: 0 <= i < j < |ts| ==> ts[i].kind != ts[j].kind
  }

  lemma {:induction false} FitsIsSized(ts: seq<Tlv>)
    requires Size(ts) < 65536
    ensures Sized(ts) && |ts| <= Size(ts)
  {
    if ts != [] {
      assert ts == [ts[0]] + ts[1..];
      FitsIsSized(ts[1..]);
    }
  }

  lemma RequestFits(r: Request)
    requires FitsBuffer(r)
    ensures BODY_AT + Size(TlvsOf(r)) <= BUFFER_SIZE
  {
  }

  predicate RecordTypes(r: Request, kind: Byte) {
    match r
    case Start(_, _) => kind in {0x30, 0x14, 0x17, 0x18, 0x16, 0x19, 0x31}
    case Modify(_) => kind in {0x01, 0x11, 0x14, 0x1B, 0x1C, 0x1D}
    case Bare => false
  }

  predicate KindsIn(ts: seq<Tlv>, kinds: set<Byte>) {
    forall t :: t in ts ==> t.kind in kinds
  }

  lemma JoinDistinct(a: seq<Tlv>, b: seq<Tlv>, these: set<Byte>, those: set<Byte>)
    requires Distinct(a) && Distinct(b) && KindsIn(a, these) && KindsIn(b, those) && these !! those
    ensures Distinct(a + b) && KindsIn(a + b, these + those)
  {
    forall i, j | 0 <= i < j < |a + b| ensures (a + b)[i].kind != (a + b)[j].kind {
      if i < |a| { assert (a + b)[i] in a; } else { assert (a + b)[i] == b[i - |a|]; }
      if j < |a| { assert (a + b)[j] in a; } else { assert (a + b)[j] == b[j - |a|] && b[j - |a|] in b; }
    }
  }

  lemma StartIsDistinct(p: Profile, m: Modem)
    ensures Distinct(StartTlvs(p, m)) && KindsIn(StartTlvs(p, m), {0x30, 0x14, 0x17, 0x18, 0x16, 0x19, 0x31})
  {
    var e := Effective(p, m);
    var tech, family := [Tlv(0x30, [if m.cdma then 2 else 1])], [Tlv(0x19, [Uchar(p.ipFamily)])];
    JoinDistinct(tech, ApnTlv(p, m), {0x30}, {0x14});
    var a := tech + ApnTlv(p, m);
    JoinDistinct(a, StringTlv(0x17, e.user), {0x30, 0x14}, {0x17});
    var b := a + StringTlv(0x17, e.user);
    JoinDistinct(b, StringTlv(0x18, e.password), {0x30, 0x14, 0x17}, {0x18});
    var c := b + StringTlv(0x18, e.password);
    JoinDistinct(c, AuthTlv(0x16, e), {0x30, 0x14, 0x17, 0x18}, {0x16});
    var d := c + AuthTlv(0x16, e);
    JoinDistinct(d, family, {0x30, 0x14, 0x17, 0x18, 0x16}, {0x19});
    JoinDistinct(d + family, IndexTlv(p, m), {0x30, 0x14, 0x17, 0x18, 0x16, 0x19}, {0x31});
  }

  lemma ModifyIsDistinct(p: Profile)
    ensures Distinct(ModifyTlvs(p)) && KindsIn(ModifyTlvs(p), {0x01, 0x11, 0x14, 0x1B, 0x1C, 0x1D})
  {
    var first, second := [Tlv(0x01, [0, Uchar(p.index)])], [Tlv(0x11, [Uchar(p.ipType)])];
    JoinDistinct(first, second, {0x01}, {0x11});
    var a := first + second;
    JoinDistinct(a, StringTlv(0x14, p.apn), {0x01, 0x11}, {0x14});
    var b := a + StringTlv(0x14, p.apn);
    JoinDistinct(b, StringTlv(0x1B, p.user), {0x01, 0x11, 0x14}, {0x1B});
    var c := b + StringTlv(0x1B, p.user);
    JoinDistinct(c, StringTlv(0x1C, p.password), {0x01, 0x11, 0x14, 0x1B}, {0x1C});
    JoinDistinct(c + StringTlv(0x1C, p.password), AuthTlv(0x1D, p), {0x01, 0x11, 0x14, 0x1B, 0x1C}, {0x1D});
  }

  lemma TlvsAreDistinct(r: Request)
    ensures Distinct(TlvsOf(r)) && forall t :: t in TlvsOf(r) ==> RecordTypes(r, t.kind)
  {
    match r
    case Start(p, m) => StartIsDistinct(p, m);
    case Modify(p) => ModifyIsDistinct(p);
    case Bare =>
  }

  lemma {:induction false} FirstOfDistinct(ts: seq<Tlv>, k: nat)
    requires Distinct(ts) && k < |ts|
    ensures FirstOf(ts, ts[k].kind) == Some(k)
  {
    if k > 0 {
      assert ts[0].kind != ts[k].kind;
      assert forall i, j :: 0 <= i < j < |ts[1..]| ==> ts[1..][i] == ts[i + 1] && ts[1..][j] == ts[j + 1];
      FirstOfDistinct(ts[1..], k - 1);
    }
  }

  /** Each record a request wrote is found by its type and by its position, with exactly the
      bytes written; a type or position that was not written is not found. */
  lemma WrittenIsFound(r: Request, k: nat, wanted: nat)
    requires FitsBuffer(r)
    ensures
      var ts, body := TlvsOf(r), EncodeTlvs(TlvsOf(r));
      && (k < |ts| ==>
            OffsetOf(ts, k) <= |body| && RecordAt(body, OffsetOf(ts, k), ts[k]) &&
            Look(body, 0, 0, ts[k].kind) == Found(OffsetOf(ts, k)) && Look(body, 0, 0, BY_INDEX + k + 1) == Found(OffsetOf(ts, k)))
      && (wanted <= BY_INDEX && (forall t :: t in ts ==> t.kind != wanted) ==> Look(body, 0, 0, wanted) == Missing)
      && (wanted > BY_INDEX + |ts| ==> Look(body, 0, 0, wanted) == Missing)
  {
    var ts, body := TlvsOf(r), EncodeTlvs(TlvsOf(r));
    RequestFits(r);
    FitsIsSized(ts);
    TlvsAreDistinct(r);
    assert body[0..] == body;
    LookFinds(body, 0, 0, ts, wanted);
    FirstOfIsFirst(ts, wanted);
    if k < |ts| {
      FirstOfDistinct(ts, k);
      LookFinds(body, 0, 0, ts, ts[k].kind);
      LookFinds(body, 0, 0, ts, BY_INDEX + k + 1);
    }
  }

  /** A message may fill the buffer to its last byte only if its last record is not a string:
      the terminator of a last string is written one byte behind the message. */
  lemma RoomForTerminator(p: Profile)
    ensures ModifyFits(p, BUFFER_SIZE) <==>
      BODY_AT + Size(ModifyTlvs(p)) <= BUFFER_SIZE && !(EndsInString(p) && BODY_AT + Size(ModifyTlvs(p)) == BUFFER_SIZE)
    ensures EndsInString(p) <==> ModifyTlvs(p)[|ModifyTlvs(p)| - 1].kind in {0x14, 0x1B, 0x1C}
  {
  }

  /** A profile with an access point name of 231 characters and no credentials. */
  function LongName(): Profile {
    Profile(Some(seq(231, _ => 65)), None, None, 0, 0, 1, 0)
  }

  lemma LongNameSize()
    ensures BODY_AT + Size(ModifyTlvs(LongName())) == BUFFER_SIZE && EndsInString(LongName())
    ensures !ModifyFits(LongName(), BUFFER_SIZE) && ModifyFits(LongName(), BUFFER_SIZE + 1)
  {
    var p := LongName();
    ModifySizes(p);
    StringSize(0x14, p.apn);
    StringSize(0x1B, p.user);
    StringSize(0x1C, p.password);
    AuthSize(0x1D, p);
  }

  /** Its message takes the 256 bytes of the buffer, and one more is written, whatever was there. */
  method TerminatorOverruns(buf: array<Byte>) returns (length: nat)
    requires BUFFER_SIZE < buf.Length
    modifies buf
    ensures MUX_HEADER + QMI_HEADER + length == BUFFER_SIZE && buf[BUFFER_SIZE] == 0
    ensures forall k :: BUFFER_SIZE < k < buf.Length ==> buf[k] == old(buf[k])
  {
    LongNameSize();
    length := WdsModifyProfileSettingsReq(buf, LongName());
  }
}
