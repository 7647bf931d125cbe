/** Cutting the buffer of a transfer into TRBs: 64 KB pages, scatter lists, and the
    packet alignment that the TRB before a link must end on. */
module TdCutting {
  import opened Wrappers

  /** A stretch of DMA memory: the whole buffer, or one entry of a scatter list. */
  datatype Block = Block(addr: nat, len: nat)

  /** What a TRB points to: a stretch of the buffer itself, or the copy of some of it
      that was put into the segment's bounce buffer. */
  datatype Source = Dma(addr: nat) | Bounce(addr: nat, copy: seq<Byte>)

  datatype DataTrb = DataTrb(src: Source, len: nat, chain: bool, ioc: bool)

  const PAGE: nat := 65536

  /** TRB_BUFF_LEN_UP_TO_BOUNDARY. */
  function UpToBoundary(addr: nat): (n: nat)
    ensures 1 <= n <= PAGE
    ensures (addr + n) % PAGE == 0
  {
    PAGE - addr % PAGE
  }

  function MemBytes(mem: nat -> Byte, addr: nat, len: nat): (s: seq<Byte>)
    ensures |s| == len
  {
    seq(len, i requires 0 <= i < len => mem(addr + i))
  }

  /** All bytes of the source, block after block. */
  function SourceBytes(mem: nat -> Byte, blocks: seq<Block>): seq<Byte> {
    if blocks == [] then [] else MemBytes(mem, blocks[0].addr, blocks[0].len) + SourceBytes(mem, blocks[1..])
  }

  /** The bytes the controller will fetch for a TRB. */
  function Named(mem: nat -> Byte, trb: DataTrb): seq<Byte> {
    match trb.src
    case Dma(addr) => MemBytes(mem, addr, trb.len)
    case Bounce(_, copy) => copy
  }

  function AllNamed(mem: nat -> Byte, trbs: seq<DataTrb>): seq<Byte> {
    if trbs == [] then [] else AllNamed(mem, trbs[..|trbs| - 1]) + Named(mem, trbs[|trbs| - 1])
  }

  lemma MemSplit(mem: nat -> Byte, addr: nat, len: nat, k: nat)
    requires k <= len
    ensures MemBytes(mem, addr, len) == MemBytes(mem, addr, k) + MemBytes(mem, addr + k, len - k)
  {
  }

  /** Every TRB of a TD but the last is chained, and only the last interrupts. */
  predicate Chained(trbs: seq<DataTrb>, open: bool) {
    forall i :: 0 <= i < |trbs| ==>
      && (trbs[i].chain <==> open || i < |trbs| - 1)
      && (trbs[i].ioc <==> !open && i == |trbs| - 1)
  }

  /** A TRB that points into the buffer stays inside one 64 KB page. */
  predicate InOnePage(trb: DataTrb) {
    trb.src.Dma? ==> trb.src.addr % PAGE + trb.len <= PAGE
  }

  // ------------------------------------------------------------------ counting

  /** count_trbs: pages touched, and at least one. */
  function CountTrbs(addr: nat, len: nat): nat {
    if len == 0 && addr % PAGE == 0 then 1 else (len + addr % PAGE + PAGE - 1) / PAGE
  }

  /** count_sg_trbs_needed for the first `left` bytes of a list. */
  function CountSg(blocks: seq<Block>, left: nat): nat {
    if blocks == [] then 0
    else
      CountTrbs(blocks[0].addr, blocks[0].len) +
      (if left <= blocks[0].len then 0 else CountSg(blocks[1..], left - blocks[0].len))
  }

  /** One TRB up to the page boundary uses up one of the pages counted. */
  lemma PageUsed(addr: nat, len: nat)
    requires UpToBoundary(addr) < len
    ensures CountTrbs(addr, len) == 1 + CountTrbs(addr + UpToBoundary(addr), len - UpToBoundary(addr))
  {
    var n := UpToBoundary(addr);
    assert (addr + n) % PAGE == 0;
    assert len + addr % PAGE == (len - n) + PAGE;
  }

  // ----------------------------------------------------------------- alignment

  /** Where the next TRB goes: the offset in its segment of `t` TRBs. */
  function NextOffset(t: nat, off: nat): nat {
    if off + 1 == t - 1 then 0 else off + 1
  }

  function OffsetOf(t: nat, off: nat, j: nat): nat {
    if j == 0 then off else NextOffset(t, OffsetOf(t, off, j - 1))
  }

  /** How many of the first `n` TRBs have a link behind them. */
  function Crossed(t: nat, off: nat, n: nat): nat {
    if n == 0 then 0 else Crossed(t, off, n - 1) + (if OffsetOf(t, off, n - 1) + 2 == t then 1 else 0)
  }

  lemma SplitAligns(x: nat, m: nat)
    requires 1 <= m
    ensures x % m <= x && (x - x % m) % m == 0
  {
    assert x == (x / m) * m + x % m;
    ModOfMultiple(x / m, m);
  }

  lemma ModOfMultiple(k: nat, m: nat)
    requires 1 <= m
    ensures (k * m) % m == 0
  {
    if k != 0 {
      ModOfMultiple(k - 1, m);
      assert k * m == (k - 1) * m + m;
      AddOnce((k - 1) * m, m);
    }
  }

  lemma AddOnce(x: nat, m: nat)
    requires 1 <= m
    ensures (x + m) % m == x % m
  {
    var q, r, p := (x + m) / m, (x + m) % m, x / m + 1;
    assert x + m == q * m + r;
    assert x + m == p * m + x % m;
    if q < p { MulOrder(q, p, m); }
    if p < q { MulOrder(p, q, m); }
  }

  lemma MulOrder(a: nat, b: nat, m: nat)
    requires a < b
    ensures a * m + m <= b * m
  {
    assert b * m == a * m + m + (b - a - 1) * m;
  }

  lemma PadAligns(x: nat, m: nat)
    requires 1 <= m
    ensures (x + (m - x % m)) % m == 0
  {
    assert x + (m - x % m) == (x / m + 1) * m;
    ModOfMultiple(x / m + 1, m);
  }

  /** xhci_align_td: the length to use, and whether the bounce buffer is. */
  function AlignTd(enqd: nat, len: nat, full: nat, maxPkt: nat, mapOk: bool): (nat, bool)
    requires 1 <= maxPkt && enqd + len < full
  {
    var unalign := (enqd + len) % maxPkt;
    if unalign == 0 then (len, false)
    else if len > unalign then (len - unalign, false)
    else
      var room := full - enqd;
      var want := maxPkt - enqd % maxPkt;
      if mapOk then (if want > room then room else want, true) else (len, false)
  }

  lemma AlignedEnd(enqd: nat, len: nat, full: nat, maxPkt: nat, mapOk: bool)
    requires 1 <= maxPkt && enqd + len < full
    ensures var (len', bounced) := AlignTd(enqd, len, full, maxPkt, mapOk);
            && enqd + len' <= full
            && (0 < len ==> 0 < len')
            && (!bounced ==> len' <= len)
            && (bounced ==> 0 < len')
            && ((enqd + len') % maxPkt == 0 || enqd + len' == full || (!mapOk && len' <= (enqd + len') % maxPkt))
            && (!bounced && len' != len ==> enqd + len' < full)
  {
    SplitAligns(enqd + len, maxPkt);
    PadAligns(enqd, maxPkt);
  }

  // ------------------------------------------------------------ the transfer itself

  /** What is left of the source: `blockLen` bytes of the current block from `addr`,
      then the blocks from `next` on. */
  function Rest(mem: nat -> Byte, blocks: seq<Block>, next: nat, addr: nat, blockLen: nat): seq<Byte>
    requires next <= |blocks|
  {
    MemBytes(mem, addr, blockLen) + SourceBytes(mem, blocks[next..])
  }

  /** TRBs still needed if none is cut short for alignment. */
  function Needed(blocks: seq<Block>, next: nat, addr: nat, blockLen: nat, left: nat): nat
    requires next <= |blocks|
  {
    CountTrbs(addr, blockLen) + (if left <= blockLen then 0 else CountSg(blocks[next..], left - blockLen))
  }

  /** Where the loop stands in the source: inside a block, with the blocks from `next` on to come. */
  datatype Spot = Spot(next: nat, addr: nat, blockLen: nat)

  /** `sent` bytes further on in the list. */
  function Skip(blocks: seq<Block>, s: Spot, sent: nat): Spot
    decreases |blocks| - s.next
  {
    if s.blockLen <= sent && s.next < |blocks| then
      Skip(blocks, Spot(s.next + 1, blocks[s.next].addr, blocks[s.next].len), sent - s.blockLen)
    else Spot(s.next, s.addr + sent, if sent <= s.blockLen then s.blockLen - sent else 0)
  }

  /** The bytes of all blocks. */
  function Total(blocks: seq<Block>): nat {
    if blocks == [] then 0 else blocks[0].len + Total(blocks[1..])
  }

  lemma {:induction false} SourceTotal(mem: nat -> Byte, blocks: seq<Block>)
    ensures |SourceBytes(mem, blocks)| == Total(blocks)
  {
    if blocks != [] { SourceTotal(mem, blocks[1..]); }
  }

  /** The first `n` bytes of the source. */
  function FirstBytes(mem: nat -> Byte, blocks: seq<Block>, n: nat): seq<Byte>
    requires n <= Total(blocks)
  {
    SourceTotal(mem, blocks);
    SourceBytes(mem, blocks)[..n]
  }

  lemma CountMono(addr: nat, len: nat, k: nat)
    requires k <= len
    ensures 1 <= CountTrbs(addr + k, len - k) <= CountTrbs(addr, len)
  {
    assert (addr + k) % PAGE <= addr % PAGE + k;
  }

  /** Going on in the list never needs more TRBs than there were. */
  lemma {:induction false} SkipNeeds(blocks: seq<Block>, s: Spot, sent: nat, after: nat)
    requires s.next <= |blocks| && 0 < after && sent + after <= s.blockLen + Total(blocks[s.next..])
    ensures var r := Skip(blocks, s, sent);
            && r.next <= |blocks|
            && Needed(blocks, r.next, r.addr, r.blockLen, after) <= Needed(blocks, s.next, s.addr, s.blockLen, sent + after)
    decreases |blocks| - s.next
  {
    if s.blockLen <= sent && s.next < |blocks| {
      var s' := Spot(s.next + 1, blocks[s.next].addr, blocks[s.next].len);
      NeededIsCount(blocks, s.next, sent - s.blockLen + after);
      assert blocks[s.next..][1..] == blocks[s.next + 1..];
      SkipNeeds(blocks, s', sent - s.blockLen, after);
    } else {
      CountMono(s.addr, s.blockLen, sent);
    }
  }

  /** A spot inside the block before the next one. */
  predicate InBlock(blocks: seq<Block>, s: Spot) {
    && 1 <= s.next <= |blocks| && blocks[s.next - 1].addr <= s.addr
    && s.addr + s.blockLen == blocks[s.next - 1].addr + blocks[s.next - 1].len
  }

  lemma {:induction false} SkipInBlock(blocks: seq<Block>, s: Spot, sent: nat)
    requires InBlock(blocks, s) && sent <= s.blockLen + Total(blocks[s.next..])
    ensures InBlock(blocks, Skip(blocks, s, sent))
    decreases |blocks| - s.next
  {
    if s.blockLen <= sent && s.next < |blocks| {
      assert blocks[s.next..][1..] == blocks[s.next + 1..];
      SkipInBlock(blocks, Spot(s.next + 1, blocks[s.next].addr, blocks[s.next].len), sent - s.blockLen);
    }
  }

  /** A TRB that points into the buffer points into a block; a bounced one to its bounce buffer. */
  predicate PointsRight(blocks: seq<Block>, bounce: nat, trb: DataTrb) {
    match trb.src
    case Dma(addr) =>
      0 < trb.len ==> exists i :: 0 <= i < |blocks| && blocks[i].addr <= addr && addr + trb.len <= blocks[i].addr + blocks[i].len
    case Bounce(addr, _) => addr == bounce
  }

  /** Skipping the blocks used up by `sent` bytes (the inner loop over the list). */
  method AdvanceSg(mem: nat -> Byte, blocks: seq<Block>, next: nat, addr: nat, blockLen: nat, sent: nat)
    returns (next': nat, addr': nat, blockLen': nat)
    requires next <= |blocks| && sent <= |Rest(mem, blocks, next, addr, blockLen)|
    ensures next <= next' <= |blocks|
    ensures Rest(mem, blocks, next', addr', blockLen') == Rest(mem, blocks, next, addr, blockLen)[sent..]
    ensures blockLen' == 0 ==> next' == |blocks|
    ensures Spot(next', addr', blockLen') == Skip(blocks, Spot(next, addr, blockLen), sent)
  {
    next', addr', blockLen' := next, addr, blockLen;
    var left: nat := sent;
    while blockLen' <= left && next' < |blocks|
      invariant next <= next' <= |blocks|
      invariant left <= |Rest(mem, blocks, next', addr', blockLen')|
      invariant Rest(mem, blocks, next', addr', blockLen')[left..] == Rest(mem, blocks, next, addr, blockLen)[sent..]
      invariant Skip(blocks, Spot(next', addr', blockLen'), left) == Skip(blocks, Spot(next, addr, blockLen), sent)
      decreases |blocks| - next'
    {
      RestNext(mem, blocks, next', addr', blockLen');
      left := left - blockLen';
      addr', blockLen' := blocks[next'].addr, blocks[next'].len;
      next' := next' + 1;
    }
    RestWithin(mem, blocks, next', addr', blockLen', left);
    addr', blockLen' := addr' + left, blockLen' - left;
  }

  lemma NeededIsCount(blocks: seq<Block>, next: nat, left: nat)
    requires next < |blocks|
    ensures Needed(blocks, next + 1, blocks[next].addr, blocks[next].len, left) == CountSg(blocks[next..], left)
    ensures 0 < left ==> Needed(blocks, next, 0, 0, left) == 1 + CountSg(blocks[next..], left)
  {
    assert blocks[next..][1..] == blocks[next + 1..];
  }

  lemma RestNext(mem: nat -> Byte, blocks: seq<Block>, next: nat, addr: nat, blockLen: nat)
    requires next < |blocks|
    ensures Rest(mem, blocks, next, addr, blockLen)
            == MemBytes(mem, addr, blockLen) + Rest(mem, blocks, next + 1, blocks[next].addr, blocks[next].len)
  {
    assert blocks[next..][1..] == blocks[next + 1..];
  }

  lemma RestWithin(mem: nat -> Byte, blocks: seq<Block>, next: nat, addr: nat, blockLen: nat, k: nat)
    requires next <= |blocks| && k <= |Rest(mem, blocks, next, addr, blockLen)|
    requires blockLen <= k ==> next == |blocks|
    ensures k <= blockLen
    ensures Rest(mem, blocks, next, addr + k, blockLen - k) == Rest(mem, blocks, next, addr, blockLen)[k..]
  {
    if next == |blocks| { assert SourceBytes(mem, blocks[next..]) == []; }
    MemSplit(mem, addr, blockLen, k);
  }

  /** A TRB that is not cut short leaves one TRB less to be queued. */
  lemma OneNeeded(blocks: seq<Block>, next: nat, addr: nat, blockLen: nat, left: nat)
    requires next <= |blocks|
    ensures UpToBoundary(addr) < blockLen && UpToBoundary(addr) < left ==>
              Needed(blocks, next, addr + UpToBoundary(addr), blockLen - UpToBoundary(addr), left - UpToBoundary(addr)) + 1
              == Needed(blocks, next, addr, blockLen, left)
    ensures blockLen <= UpToBoundary(addr) && blockLen < left ==>
              Needed(blocks, next, addr, blockLen, left) == 1 + CountSg(blocks[next..], left - blockLen)
    ensures 1 <= Needed(blocks, next, addr, blockLen, left)
  {
    if UpToBoundary(addr) < blockLen { PageUsed(addr, blockLen); }
  }

  /** The same with the step over the list: an uncut TRB brings the end one nearer, any TRB at
      least not farther away. */
  lemma CountStep(blocks: seq<Block>, s: Spot, enqd: nat, full: nat, len: nat)
    requires s.next <= |blocks| && enqd + len < full && full - enqd <= s.blockLen + Total(blocks[s.next..])
    ensures var r := Skip(blocks, s, len);
            && r.next <= |blocks|
            && Needed(blocks, r.next, r.addr, r.blockLen, full - enqd - len) +
               (if len == PlainLen(s.addr, s.blockLen, enqd, full) then 1 else 0)
               <= Needed(blocks, s.next, s.addr, s.blockLen, full - enqd)
  {
    SkipNeeds(blocks, s, len, full - enqd - len);
    if len == PlainLen(s.addr, s.blockLen, enqd, full) { PlainStep(blocks, s, enqd, full, len); }
  }

  lemma PlainStep(blocks: seq<Block>, s: Spot, enqd: nat, full: nat, len: nat)
    requires s.next <= |blocks| && enqd + len < full && full - enqd <= s.blockLen + Total(blocks[s.next..])
    requires len == PlainLen(s.addr, s.blockLen, enqd, full)
    ensures var r := Skip(blocks, s, len);
            && r.next <= |blocks|
            && 1 + Needed(blocks, r.next, r.addr, r.blockLen, full - enqd - len)
               <= Needed(blocks, s.next, s.addr, s.blockLen, full - enqd)
  {
    OneNeeded(blocks, s.next, s.addr, s.blockLen, full - enqd);
    if len == s.blockLen && s.next < |blocks| { BlockDone(blocks, s, full - enqd - len); }
  }

  /** After the whole of a block the next one begins. */
  lemma BlockDone(blocks: seq<Block>, s: Spot, after: nat)
    requires s.next < |blocks| && 0 < after <= Total(blocks[s.next..])
    ensures var r := Skip(blocks, s, s.blockLen);
            r.next <= |blocks| && Needed(blocks, r.next, r.addr, r.blockLen, after) <= CountSg(blocks[s.next..], after)
  {
    var s' := Spot(s.next + 1, blocks[s.next].addr, blocks[s.next].len);
    assert blocks[s.next..][1..] == blocks[s.next + 1..];
    NeededIsCount(blocks, s.next, after);
    SkipNeeds(blocks, s', 0, after);
  }

  lemma AppendTrb(mem: nat -> Byte, trbs: seq<DataTrb>, trb: DataTrb)
    ensures AllNamed(mem, trbs + [trb]) == AllNamed(mem, trbs) + Named(mem, trb)
  {
    assert (trbs + [trb])[..|trbs|] == trbs;
  }

  /** The length of the next TRB before alignment. */
  function PlainLen(addr: nat, blockLen: nat, enqd: nat, full: nat): (n: nat)
    requires enqd <= full
    ensures n <= UpToBoundary(addr) && n <= blockLen && enqd + n <= full
    ensures n == 0 ==> blockLen == 0 || enqd == full
  {
    var n := if UpToBoundary(addr) < blockLen then UpToBoundary(addr) else blockLen;
    if enqd + n > full then full - enqd else n
  }

  /** The TRB of `len` bytes ends on a packet boundary or ends the TD, if a link follows
      it. Only a TRB too short to be split, whose bounce buffer could not be mapped, may not. */
  predicate LinkAligned(t: nat, off: nat, end: nat, len: nat, full: nat, maxPkt: nat, mapOk: bool)
    requires 1 <= maxPkt
  {
    off + 2 == t ==> end % maxPkt == 0 || end == full || (!mapOk && len <= end % maxPkt)
  }

  /** Every TRB with a link behind it is aligned; the first of them is the `j`-th, at offset `o`
      and after `enqd` bytes. */
  ghost predicate AlignedFrom(lens: seq<nat>, t: nat, o: nat, full: nat, maxPkt: nat, mapOk: nat -> bool, j: nat, enqd: nat)
    requires 1 <= maxPkt
    decreases |lens|
  {
    lens == [] ||
    (LinkAligned(t, o, enqd + lens[0], lens[0], full, maxPkt, mapOk(j)) &&
     AlignedFrom(lens[1..], t, NextOffset(t, o), full, maxPkt, mapOk, j + 1, enqd + lens[0]))
  }

  /** The bytes queued so far, after each TRB. */
  function EndOf(trbs: seq<DataTrb>, j: nat): nat
    requires j < |trbs|
  {
    trbs[j].len + (if j == 0 then 0 else EndOf(trbs, j - 1))
  }

  lemma {:induction false} EndOfPrefix(trbs: seq<DataTrb>, trb: DataTrb, j: nat)
    requires j < |trbs|
    ensures EndOf(trbs + [trb], j) == EndOf(trbs, j)
    decreases j
  {
    if j != 0 { EndOfPrefix(trbs, trb, j - 1); }
  }

  /** How the loop stands: where it is in the source, and what it has queued. */
  ghost predicate Progress(mem: nat -> Byte, blocks: seq<Block>, full: nat,
                           next: nat, addr: nat, blockLen: nat, enqd: nat, trbs: seq<DataTrb>)
  {
    && next <= |blocks| && enqd <= full <= |SourceBytes(mem, blocks)|
    && Rest(mem, blocks, next, addr, blockLen) == SourceBytes(mem, blocks)[enqd..]
    && AllNamed(mem, trbs) == SourceBytes(mem, blocks)[..enqd]
    && (trbs == [] ==> enqd == 0)
    && (trbs != [] ==> EndOf(trbs, |trbs| - 1) == enqd && Chained(trbs, enqd < full))
    && (forall j :: 0 <= j < |trbs| ==> InOnePage(trbs[j]) && |Named(mem, trbs[j])| == trbs[j].len)
  }

  /** The TRB queued next names the next `len` bytes of the source. */
  ghost predicate Continues(mem: nat -> Byte, source: seq<Byte>, enqd: nat, full: nat, trb: DataTrb)
  {
    && enqd + trb.len <= full <= |source|
    && Named(mem, trb) == source[enqd..enqd + trb.len]
    && InOnePage(trb)
    && (trb.chain <==> enqd + trb.len < full) && (trb.ioc <==> enqd + trb.len == full)
  }

  lemma ChainedAppend(trbs: seq<DataTrb>, trb: DataTrb, open: bool)
    requires trbs != [] ==> Chained(trbs, true)
    requires (trb.chain <==> open) && (trb.ioc <==> !open)
    ensures Chained(trbs + [trb], open)
  {
  }

  lemma ProgressMade(mem: nat -> Byte, blocks: seq<Block>, full: nat,
                     next: nat, addr: nat, blockLen: nat, enqd: nat, trbs: seq<DataTrb>, trb: DataTrb,
                     next': nat, addr': nat, blockLen': nat)
    requires Progress(mem, blocks, full, next, addr, blockLen, enqd, trbs)
    requires trbs == [] || enqd < full
    requires Continues(mem, SourceBytes(mem, blocks), enqd, full, trb)
    requires next' <= |blocks|
    requires Rest(mem, blocks, next', addr', blockLen') == Rest(mem, blocks, next, addr, blockLen)[trb.len..]
    ensures Progress(mem, blocks, full, next', addr', blockLen', enqd + trb.len, trbs + [trb])
  {
    var source := SourceBytes(mem, blocks);
    AppendTrb(mem, trbs, trb);
    assert source[..enqd] + source[enqd..enqd + trb.len] == source[..enqd + trb.len];
    assert source[enqd..][trb.len..] == source[enqd + trb.len..];
    ChainedAppend(trbs, trb, enqd + trb.len < full);
    if trbs != [] { EndOfPrefix(trbs, trb, |trbs| - 1); }
  }

  lemma PlainNames(mem: nat -> Byte, blocks: seq<Block>, next: nat, addr: nat, blockLen: nat, enqd: nat, len: nat)
    requires next <= |blocks| && enqd <= |SourceBytes(mem, blocks)| && len <= blockLen
    requires Rest(mem, blocks, next, addr, blockLen) == SourceBytes(mem, blocks)[enqd..]
    ensures enqd + len <= |SourceBytes(mem, blocks)|
    ensures MemBytes(mem, addr, len) == SourceBytes(mem, blocks)[enqd..enqd + len]
  {
    MemSplit(mem, addr, blockLen, len);
    var source := SourceBytes(mem, blocks);
    assert source[enqd..enqd + len] == source[enqd..][..len];
  }

  /** The length of the TRB cut next, and whether it points to the bounce buffer: aligned if
      a link follows and the TD goes on. */
  function Cut(full: nat, maxPkt: nat, t: nat, o: nat, mapOk: bool, s: Spot, enqd: nat): (r: (nat, bool))
    requires 1 <= maxPkt && enqd <= full
    ensures enqd + r.0 <= full
  {
    var len := PlainLen(s.addr, s.blockLen, enqd, full);
    if enqd + len < full && o + 2 == t then
      AlignedEnd(enqd, len, full, maxPkt, mapOk);
      AlignTd(enqd, len, full, maxPkt, mapOk)
    else (len, false)
  }

  /** The length a rule gives the `j`-th TRB, at offset `o` of its segment, from a spot of the
      source with `enqd` bytes behind it. */
  type Rule = (nat, nat, Spot, nat) -> nat

  function LenBy(rule: Rule, full: nat, j: nat, o: nat, s: Spot, enqd: nat): (len: nat)
    requires enqd <= full
    ensures enqd + len <= full
  {
    if enqd + rule(j, o, s, enqd) <= full then rule(j, o, s, enqd) else full - enqd
  }

  /** The lengths of all TRBs from the `j`-th on. An empty TRB behind the first ends the list:
      real blocks do not lead to one. */
  function LensBy(rule: Rule, blocks: seq<Block>, full: nat, t: nat, j: nat, o: nat, s: Spot, enqd: nat): seq<nat>
    requires enqd <= full
    decreases j == 0, full - enqd
  {
    var len := LenBy(rule, full, j, o, s, enqd);
    if enqd + len == full || (len == 0 && j != 0) then [len]
    else [len] + LensBy(rule, blocks, full, t, j + 1, NextOffset(t, o), Skip(blocks, s, len), enqd + len)
  }

  /** The source's own rule: up to a page boundary, block end or the end of the transfer, and
      aligned in front of a link. */
  function CutRule(full: nat, maxPkt: nat, t: nat, mapOk: nat -> bool): Rule
    requires 1 <= maxPkt
  {
    (j: nat, o: nat, s: Spot, enqd: nat) => if enqd <= full then Cut(full, maxPkt, t, o, mapOk(j), s, enqd).0 else 0
  }

  function Begin(blocks: seq<Block>): Spot
    requires blocks != []
  {
    Spot(1, blocks[0].addr, blocks[0].len)
  }

  /** The TRBs xhci_queue_bulk_tx cuts a transfer into, by their lengths. */
  function BulkLens(blocks: seq<Block>, full: nat, maxPkt: nat, t: nat, off: nat, mapOk: nat -> bool): seq<nat>
    requires 1 <= maxPkt && blocks != []
  {
    LensBy(CutRule(full, maxPkt, t, mapOk), blocks, full, t, 0, off, Begin(blocks), 0)
  }

  function LensOf(trbs: seq<DataTrb>): seq<nat> {
    seq(|trbs|, i requires 0 <= i < |trbs| => trbs[i].len)
  }

  /** One turn of the loop up to queueing: the TRB, aligned if a link follows. */
  method CutTrb(mem: nat -> Byte, blocks: seq<Block>, full: nat, maxPkt: nat, linkNext: bool, mapOk: bool, bounce: nat,
                next: nat, addr: nat, blockLen: nat, enqd: nat, ghost trbs: seq<DataTrb>, ghost t: nat, ghost o: nat)
    returns (trb: DataTrb)
    requires Progress(mem, blocks, full, next, addr, blockLen, enqd, trbs)
    requires 1 <= maxPkt && (linkNext <==> o + 2 == t) && InBlock(blocks, Spot(next, addr, blockLen))
    ensures PointsRight(blocks, bounce, trb)
    ensures Continues(mem, SourceBytes(mem, blocks), enqd, full, trb)
    ensures trb.len == 0 ==> blockLen == 0 || enqd == full
    ensures (trb.len, trb.src.Bounce?) == Cut(full, maxPkt, t, o, mapOk, Spot(next, addr, blockLen), enqd)
  {
    var len, bounced := PlainLen(addr, blockLen, enqd, full), false;
    if enqd + len < full && linkNext {
      AlignedEnd(enqd, len, full, maxPkt, mapOk);
      var (len', b) := AlignTd(enqd, len, full, maxPkt, mapOk);
      len, bounced := len', b;
    }
    if !bounced { PlainNames(mem, blocks, next, addr, blockLen, enqd, len); }
    var src := if bounced then Bounce(bounce, SourceBytes(mem, blocks)[enqd..enqd + len]) else Dma(addr);
    trb := DataTrb(src, len, enqd + len < full, enqd + len >= full);
  }

  /** One whole turn of the loop: a TRB is queued and the source advanced past it. */
  method Turn(mem: nat -> Byte, blocks: seq<Block>, full: nat, maxPkt: nat, linkNext: bool, mapOk: nat -> bool, bounceAt: nat -> nat,
              next: nat, addr: nat, blockLen: nat, enqd: nat, trbs: seq<DataTrb>, ghost t: nat, ghost o: nat)
    returns (trb: DataTrb, next': nat, addr': nat, blockLen': nat)
    requires Progress(mem, blocks, full, next, addr, blockLen, enqd, trbs)
    requires 1 <= maxPkt && (linkNext <==> o + 2 == t) && InBlock(blocks, Spot(next, addr, blockLen))
    requires trbs == [] || (enqd < full && (blockLen == 0 ==> next == |blocks|))
    ensures Progress(mem, blocks, full, next', addr', blockLen', enqd + trb.len, trbs + [trb])
    ensures blockLen' == 0 ==> next' == |blocks|
    ensures trbs != [] ==> 0 < trb.len
    ensures trb.len == Cut(full, maxPkt, t, o, mapOk(|trbs|), Spot(next, addr, blockLen), enqd).0
    ensures Spot(next', addr', blockLen') == Skip(blocks, Spot(next, addr, blockLen), trb.len)
    ensures InBlock(blocks, Spot(next', addr', blockLen')) && PointsRight(blocks, bounceAt(|trbs|), trb)
  {
    if enqd < full { SomethingLeft(mem, blocks, full, next, addr, blockLen, enqd); }
    trb := CutTrb(mem, blocks, full, maxPkt, linkNext, mapOk(|trbs|), bounceAt(|trbs|), next, addr, blockLen, enqd, trbs, t, o);
    next', addr', blockLen' := AdvanceSg(mem, blocks, next, addr, blockLen, trb.len);
    ProgressMade(mem, blocks, full, next, addr, blockLen, enqd, trbs, trb, next', addr', blockLen');
    SourceTotal(mem, blocks[next..]);
    SkipInBlock(blocks, Spot(next, addr, blockLen), trb.len);
  }

  /** The same, in terms of where the loop stands. */
  method TurnOn(mem: nat -> Byte, blocks: seq<Block>, full: nat, maxPkt: nat, linkNext: bool, mapOk: nat -> bool, bounceAt: nat -> nat,
                s: Spot, enqd: nat, trbs: seq<DataTrb>, ghost t: nat, ghost o: nat, ghost goal: seq<nat>, ghost rule: Rule)
    returns (trb: DataTrb, r: Spot)
    requires 1 <= maxPkt && rule == CutRule(full, maxPkt, t, mapOk) && (linkNext <==> o + 2 == t) && (trbs == [] || enqd < full)
    requires Standing(mem, blocks, full, rule, bounceAt, t, goal, s, enqd, trbs, o)
    ensures Standing(mem, blocks, full, rule, bounceAt, t, goal, r, enqd + trb.len, trbs + [trb], NextOffset(t, o))
    ensures (trbs != [] ==> 0 < trb.len) && (trb.chain <==> enqd + trb.len < full)
  {
    var next', addr', blockLen';
    trb, next', addr', blockLen' :=
      Turn(mem, blocks, full, maxPkt, linkNext, mapOk, bounceAt, s.next, s.addr, s.blockLen, enqd, trbs, t, o);
    r := Spot(next', addr', blockLen');
    assert trb.len == rule(|trbs|, o, s, enqd);
    CuttingNext(goal, rule, blocks, full, t, trbs, trb, o, s, enqd);
    assert (trbs + [trb])[|trbs|].chain <==> enqd + trb.len < full;
  }

  /** Where the loop stands: in the source, in what it has cut, and in the lengths of the whole transfer. */
  ghost predicate Standing(mem: nat -> Byte, blocks: seq<Block>, full: nat, rule: Rule, bounceAt: nat -> nat, t: nat, goal: seq<nat>,
                           s: Spot, enqd: nat, trbs: seq<DataTrb>, o: nat)
  {
    && InBlock(blocks, s) && (forall j :: 0 <= j < |trbs| ==> PointsRight(blocks, bounceAt(j), trbs[j]))
    && Progress(mem, blocks, full, s.next, s.addr, s.blockLen, enqd, trbs)
    && (s.blockLen == 0 ==> trbs == [] || s.next == |blocks|)
    && Cutting(goal, rule, blocks, full, t, LensOf(trbs), trbs == [] || enqd < full, o, s, enqd)
  }

  /** The TRBs name exactly the first `full` bytes of the source, in order; all but the last are
      chained, only the last interrupts, and those that point into the buffer stay in a page. */
  ghost predicate CutWhole(mem: nat -> Byte, blocks: seq<Block>, full: nat, bounceAt: nat -> nat, trbs: seq<DataTrb>)
    requires full <= Total(blocks)
  {
    && (forall j :: 0 <= j < |trbs| ==> PointsRight(blocks, bounceAt(j), trbs[j]))
    && AllNamed(mem, trbs) == FirstBytes(mem, blocks, full)
    && trbs != [] && Chained(trbs, false) && EndOf(trbs, |trbs| - 1) == full
    && forall j :: 0 <= j < |trbs| ==> InOnePage(trbs[j]) && |Named(mem, trbs[j])| == trbs[j].len
  }

  lemma ProgressDone(mem: nat -> Byte, blocks: seq<Block>, full: nat, bounceAt: nat -> nat,
                     next: nat, addr: nat, blockLen: nat, enqd: nat, trbs: seq<DataTrb>)
    requires Progress(mem, blocks, full, next, addr, blockLen, enqd, trbs) && trbs != [] && enqd == full
    requires forall j :: 0 <= j < |trbs| ==> PointsRight(blocks, bounceAt(j), trbs[j])
    ensures full <= Total(blocks) && CutWhole(mem, blocks, full, bounceAt, trbs)
  {
    SourceTotal(mem, blocks);
  }

  /** The loop before its first turn. */
  lemma CuttingStarts(mem: nat -> Byte, blocks: seq<Block>, full: nat, maxPkt: nat, t: nat, off: nat, mapOk: nat -> bool,
                      bounceAt: nat -> nat)
    requires blocks != [] && full <= Total(blocks) && 1 <= maxPkt
    ensures Standing(mem, blocks, full, CutRule(full, maxPkt, t, mapOk), bounceAt, t, BulkLens(blocks, full, maxPkt, t, off, mapOk),
                     Begin(blocks), 0, [], off)
  {
    SourceTotal(mem, blocks);
    RestStart(mem, blocks, full);
    assert LensOf([]) == [];
  }

  /** And after its last. */
  lemma CuttingEnds(mem: nat -> Byte, blocks: seq<Block>, full: nat, rule: Rule, bounceAt: nat -> nat, t: nat, goal: seq<nat>,
                    s: Spot, enqd: nat, trbs: seq<DataTrb>, o: nat)
    requires Standing(mem, blocks, full, rule, bounceAt, t, goal, s, enqd, trbs, o) && trbs != [] && enqd >= full
    ensures full <= Total(blocks) && CutWhole(mem, blocks, full, bounceAt, trbs) && LensOf(trbs) == goal
  {
    ProgressDone(mem, blocks, full, bounceAt, s.next, s.addr, s.blockLen, enqd, trbs);
  }

  /** The lengths so far, followed by those still to come if any, are those of the whole transfer. */
  ghost predicate Cutting(goal: seq<nat>, rule: Rule, blocks: seq<Block>, full: nat, t: nat,
                          lens: seq<nat>, more: bool, o: nat, s: Spot, enqd: nat)
  {
    enqd <= full && goal == lens + (if more then LensBy(rule, blocks, full, t, |lens|, o, s, enqd) else [])
  }

  lemma CuttingNext(goal: seq<nat>, rule: Rule, blocks: seq<Block>, full: nat, t: nat,
                    trbs: seq<DataTrb>, trb: DataTrb, o: nat, s: Spot, enqd: nat)
    requires Cutting(goal, rule, blocks, full, t, LensOf(trbs), true, o, s, enqd)
    requires trb.len == rule(|trbs|, o, s, enqd) && enqd + trb.len <= full && (trbs != [] ==> 0 < trb.len)
    ensures Cutting(goal, rule, blocks, full, t, LensOf(trbs + [trb]), enqd + trb.len < full,
                    NextOffset(t, o), Skip(blocks, s, trb.len), enqd + trb.len)
  {
    assert LensOf(trbs + [trb]) == LensOf(trbs) + [trb.len];
  }

  lemma CutAligned(full: nat, maxPkt: nat, t: nat, o: nat, mapOk: bool, s: Spot, enqd: nat)
    requires 1 <= maxPkt && enqd <= full
    ensures var len := Cut(full, maxPkt, t, o, mapOk, s, enqd).0; LinkAligned(t, o, enqd + len, len, full, maxPkt, mapOk)
  {
    var len := PlainLen(s.addr, s.blockLen, enqd, full);
    if enqd + len < full { AlignedEnd(enqd, len, full, maxPkt, mapOk); }
  }

  lemma {:induction false} LensAligned(blocks: seq<Block>, full: nat, maxPkt: nat, t: nat, mapOk: nat -> bool,
                                       j: nat, o: nat, s: Spot, enqd: nat)
    requires 1 <= maxPkt && enqd <= full
    ensures AlignedFrom(LensBy(CutRule(full, maxPkt, t, mapOk), blocks, full, t, j, o, s, enqd), t, o, full, maxPkt, mapOk, j, enqd)
    decreases j == 0, full - enqd
  {
    var rule := CutRule(full, maxPkt, t, mapOk);
    var len := LenBy(rule, full, j, o, s, enqd);
    CutAligned(full, maxPkt, t, o, mapOk(j), s, enqd);
    if enqd + len < full && (len != 0 || j == 0) {
      var rest := LensBy(rule, blocks, full, t, j + 1, NextOffset(t, o), Skip(blocks, s, len), enqd + len);
      LensAligned(blocks, full, maxPkt, t, mapOk, j + 1, NextOffset(t, o), Skip(blocks, s, len), enqd + len);
      assert ([len] + rest)[1..] == rest;
    }
  }

  /** How many TRBs are not as long as they would be without alignment. */
  function Cuts(rule: Rule, blocks: seq<Block>, full: nat, t: nat, j: nat, o: nat, s: Spot, enqd: nat): nat
    requires enqd <= full
    decreases j == 0, full - enqd
  {
    var len := LenBy(rule, full, j, o, s, enqd);
    if enqd + len == full || (len == 0 && j != 0) then 0
    else
      (if len == PlainLen(s.addr, s.blockLen, enqd, full) then 0 else 1) +
      Cuts(rule, blocks, full, t, j + 1, NextOffset(t, o), Skip(blocks, s, len), enqd + len)
  }

  /** Enough of the source is left, in a block if any. */
  predicate Supplied(blocks: seq<Block>, full: nat, j: nat, s: Spot, enqd: nat) {
    && s.next <= |blocks| && enqd <= full <= enqd + s.blockLen + Total(blocks[s.next..])
    && (s.blockLen == 0 ==> j == 0 || s.next == |blocks|) && (j != 0 ==> enqd < full)
  }

  lemma {:induction false} SkipSupplies(blocks: seq<Block>, s: Spot, sent: nat, after: nat)
    requires s.next <= |blocks| && 0 < after && sent + after <= s.blockLen + Total(blocks[s.next..])
    ensures var r := Skip(blocks, s, sent);
            && r.next <= |blocks| && after <= r.blockLen + Total(blocks[r.next..])
            && (r.blockLen == 0 ==> r.next == |blocks|)
    decreases |blocks| - s.next
  {
    if s.blockLen <= sent && s.next < |blocks| {
      assert blocks[s.next..][1..] == blocks[s.next + 1..];
      SkipSupplies(blocks, Spot(s.next + 1, blocks[s.next].addr, blocks[s.next].len), sent - s.blockLen, after);
    }
  }

  /** A rule that cuts something off whatever is left, and departs from the plain length only
      in front of a link. */
  predicate SoundAt(rule: Rule, blocks: seq<Block>, full: nat, t: nat, j: nat, o: nat, s: Spot, enqd: nat) {
    && (j != 0 && Supplied(blocks, full, j, s, enqd) ==> 0 < rule(j, o, s, enqd))
    && (enqd + rule(j, o, s, enqd) < full && o + 2 != t ==> rule(j, o, s, enqd) == PlainLen(s.addr, s.blockLen, enqd, full))
  }

  ghost predicate Sound(rule: Rule, blocks: seq<Block>, full: nat, t: nat) {
    forall j: nat, o: nat, s: Spot, enqd: nat :: SoundAt(rule, blocks, full, t, j, o, s, enqd)
  }

  /** A measure of the TRBs still needed: a TRB as long as can be brings it down, no TRB up. */
  predicate MeasuresAt(need: (Spot, nat) -> nat, blocks: seq<Block>, full: nat, s: Spot, enqd: nat, len: nat) {
    s.next <= |blocks| && enqd <= full ==>
      && 1 <= need(s, full - enqd)
      && (enqd + len < full <= enqd + s.blockLen + Total(blocks[s.next..]) ==>
            need(Skip(blocks, s, len), full - enqd - len) +
            (if len == PlainLen(s.addr, s.blockLen, enqd, full) then 1 else 0) <= need(s, full - enqd))
  }

  ghost predicate Measures(need: (Spot, nat) -> nat, blocks: seq<Block>, full: nat) {
    forall s: Spot, enqd: nat, len: nat :: MeasuresAt(need, blocks, full, s, enqd, len)
  }

  function NeedOf(blocks: seq<Block>): (Spot, nat) -> nat {
    (s: Spot, left: nat) => if s.next <= |blocks| then Needed(blocks, s.next, s.addr, s.blockLen, left) else 0
  }

  lemma NeedMeasures(blocks: seq<Block>, full: nat)
    ensures Measures(NeedOf(blocks), blocks, full)
  {
    forall s: Spot, enqd: nat, len: nat ensures MeasuresAt(NeedOf(blocks), blocks, full, s, enqd, len) {
      if s.next <= |blocks| && enqd <= full {
        OneNeeded(blocks, s.next, s.addr, s.blockLen, full - enqd);
        if enqd + len < full <= enqd + s.blockLen + Total(blocks[s.next..]) { CountStep(blocks, s, enqd, full, len); }
      }
    }
  }

  /** Of the TRBs from the `j`-th on, those counted and those cut short. */
  predicate Tallied(rule: Rule, need: (Spot, nat) -> nat, blocks: seq<Block>, full: nat, t: nat, j: nat, o: nat, s: Spot, enqd: nat)
    requires enqd <= full
  {
    |LensBy(rule, blocks, full, t, j, o, s, enqd)| <= need(s, full - enqd) + Cuts(rule, blocks, full, t, j, o, s, enqd)
  }

  lemma TallyMore(rule: Rule, need: (Spot, nat) -> nat, blocks: seq<Block>, full: nat, t: nat,
                  j: nat, o: nat, s: Spot, enqd: nat, len: nat)
    requires enqd + len < full && len == rule(j, o, s, enqd) && (j == 0 || 0 < len)
    requires need(Skip(blocks, s, len), full - enqd - len) +
             (if len == PlainLen(s.addr, s.blockLen, enqd, full) then 1 else 0) <= need(s, full - enqd)
    requires Tallied(rule, need, blocks, full, t, j + 1, NextOffset(t, o), Skip(blocks, s, len), enqd + len)
    ensures Tallied(rule, need, blocks, full, t, j, o, s, enqd)
  {
  }

  /** The TRBs cut are at most those still needed and one for each that was cut short. */
  lemma {:induction false} LensCounted(rule: Rule, need: (Spot, nat) -> nat, blocks: seq<Block>, full: nat, t: nat,
                                       j: nat, o: nat, s: Spot, enqd: nat)
    requires Sound(rule, blocks, full, t) && Measures(need, blocks, full) && Supplied(blocks, full, j, s, enqd)
    ensures Tallied(rule, need, blocks, full, t, j, o, s, enqd)
    decreases j == 0, full - enqd
  {
    var len := LenBy(rule, full, j, o, s, enqd);
    assert SoundAt(rule, blocks, full, t, j, o, s, enqd);
    assert MeasuresAt(need, blocks, full, s, enqd, len);
    if enqd + len < full {
      SkipSupplies(blocks, s, len, full - enqd - len);
      LensCounted(rule, need, blocks, full, t, j + 1, NextOffset(t, o), Skip(blocks, s, len), enqd + len);
      TallyMore(rule, need, blocks, full, t, j, o, s, enqd, len);
    }
  }

  /** Of `n` TRBs from the `j`-th on, `cuts` of them cut short, not more are than have a link behind
      them that is crossed. */
  predicate AtLinks(t: nat, off: nat, j: nat, n: nat, cuts: nat) {
    1 <= n && Crossed(t, off, j) + cuts <= Crossed(t, off, j + n - 1)
  }

  lemma LensMore(rule: Rule, blocks: seq<Block>, full: nat, t: nat, j: nat, o: nat, s: Spot, enqd: nat, len: nat)
    requires enqd + len < full && len == rule(j, o, s, enqd) && (j == 0 || 0 < len)
    ensures |LensBy(rule, blocks, full, t, j, o, s, enqd)| ==
            1 + |LensBy(rule, blocks, full, t, j + 1, NextOffset(t, o), Skip(blocks, s, len), enqd + len)|
    ensures Cuts(rule, blocks, full, t, j, o, s, enqd) ==
            (if len == PlainLen(s.addr, s.blockLen, enqd, full) then 0 else 1) +
            Cuts(rule, blocks, full, t, j + 1, NextOffset(t, o), Skip(blocks, s, len), enqd + len)
  {
  }

  lemma AtLinksMore(t: nat, off: nat, j: nat, n: nat, cuts: nat, more: nat)
    requires AtLinks(t, off, j + 1, n, more)
    requires cuts == more || (cuts == more + 1 && OffsetOf(t, off, j) + 2 == t)
    ensures AtLinks(t, off, j, n + 1, cuts)
  {
  }

  /** A TRB is only cut short in front of a link the TD goes on to cross. */
  lemma {:induction false} CutsAtLinks(rule: Rule, blocks: seq<Block>, full: nat, t: nat, off: nat, j: nat, o: nat, s: Spot, enqd: nat)
    requires Sound(rule, blocks, full, t) && enqd <= full && o == OffsetOf(t, off, j)
    ensures AtLinks(t, off, j, |LensBy(rule, blocks, full, t, j, o, s, enqd)|, Cuts(rule, blocks, full, t, j, o, s, enqd))
    decreases j == 0, full - enqd
  {
    var len := LenBy(rule, full, j, o, s, enqd);
    assert SoundAt(rule, blocks, full, t, j, o, s, enqd);
    if enqd + len < full && (len != 0 || j == 0) {
      var o', r := NextOffset(t, o), Skip(blocks, s, len);
      CutsAtLinks(rule, blocks, full, t, off, j + 1, o', r, enqd + len);
      LensMore(rule, blocks, full, t, j, o, s, enqd, len);
      AtLinksMore(t, off, j, |LensBy(rule, blocks, full, t, j + 1, o', r, enqd + len)|,
                  Cuts(rule, blocks, full, t, j, o, s, enqd), Cuts(rule, blocks, full, t, j + 1, o', r, enqd + len));
    }
  }

  lemma CutIsSound(blocks: seq<Block>, full: nat, maxPkt: nat, t: nat, mapOk: nat -> bool)
    requires 1 <= maxPkt
    ensures Sound(CutRule(full, maxPkt, t, mapOk), blocks, full, t)
  {
    var rule := CutRule(full, maxPkt, t, mapOk);
    forall j: nat, o: nat, s: Spot, enqd: nat ensures SoundAt(rule, blocks, full, t, j, o, s, enqd) {
      if j != 0 && Supplied(blocks, full, j, s, enqd) { CutsSomething(full, maxPkt, t, o, mapOk(j), s, enqd); }
      if enqd <= full { assert rule(j, o, s, enqd) == Cut(full, maxPkt, t, o, mapOk(j), s, enqd).0; }
    }
  }

  lemma CutsSomething(full: nat, maxPkt: nat, t: nat, o: nat, mapOk: bool, s: Spot, enqd: nat)
    requires 1 <= maxPkt && enqd < full && 0 < s.blockLen
    ensures 0 < Cut(full, maxPkt, t, o, mapOk, s, enqd).0
  {
    var len := PlainLen(s.addr, s.blockLen, enqd, full);
    if enqd + len < full { AlignedEnd(enqd, len, full, maxPkt, mapOk); }
  }

  function BulkCuts(blocks: seq<Block>, full: nat, maxPkt: nat, t: nat, off: nat, mapOk: nat -> bool): nat
    requires 1 <= maxPkt && blocks != []
  {
    Cuts(CutRule(full, maxPkt, t, mapOk), blocks, full, t, 0, off, Begin(blocks), 0)
  }

  /** Every TRB of a transfer with a link behind it ends on a packet boundary or ends the TD,
      unless it was too short to split and could not be bounced. */
  lemma BulkIsAligned(blocks: seq<Block>, full: nat, maxPkt: nat, t: nat, off: nat, mapOk: nat -> bool)
    requires 1 <= maxPkt && blocks != []
    ensures AlignedFrom(BulkLens(blocks, full, maxPkt, t, off, mapOk), t, off, full, maxPkt, mapOk, 0, 0)
  {
    LensAligned(blocks, full, maxPkt, t, mapOk, 0, off, Begin(blocks), 0);
  }

  /** A transfer takes no more TRBs than were counted for it, and one more for each link at
      which a TRB is cut short; so at most one more for each link it crosses. */
  lemma BulkCount(blocks: seq<Block>, full: nat, maxPkt: nat, t: nat, off: nat, mapOk: nat -> bool)
    requires 1 <= maxPkt && blocks != [] && full <= Total(blocks)
    ensures var lens, cuts := BulkLens(blocks, full, maxPkt, t, off, mapOk), BulkCuts(blocks, full, maxPkt, t, off, mapOk);
            1 <= |lens| <= CountSg(blocks, full) + cuts && cuts <= Crossed(t, off, |lens| - 1)
  {
    var rule := CutRule(full, maxPkt, t, mapOk);
    CutIsSound(blocks, full, maxPkt, t, mapOk);
    NeedMeasures(blocks, full);
    LensCounted(rule, NeedOf(blocks), blocks, full, t, 0, off, Begin(blocks), 0);
    CutsAtLinks(rule, blocks, full, t, off, 0, off, Begin(blocks), 0);
  }

  /** While bytes are left to queue there are bytes left in the source. */
  lemma SomethingLeft(mem: nat -> Byte, blocks: seq<Block>, full: nat, next: nat, addr: nat, blockLen: nat, enqd: nat)
    requires next <= |blocks| && enqd < full <= |SourceBytes(mem, blocks)|
    requires Rest(mem, blocks, next, addr, blockLen) == SourceBytes(mem, blocks)[enqd..]
    ensures blockLen == 0 ==> next < |blocks|
  {
    assert 0 < |Rest(mem, blocks, next, addr, blockLen)|;
  }

  lemma RestStart(mem: nat -> Byte, blocks: seq<Block>, full: nat)
    requires blocks != [] && full <= |SourceBytes(mem, blocks)|
    ensures Progress(mem, blocks, full, 1, blocks[0].addr, blocks[0].len, 0, [])
    ensures Needed(blocks, 1, blocks[0].addr, blocks[0].len, full) == CountSg(blocks, full)
  {
  }

  /** The pieces lie one behind the other, from `addr` for `len` bytes. */
  predicate Contiguous(pieces: seq<Block>, addr: nat, len: nat)
    decreases |pieces|
  {
    if pieces == [] then len == 0
    else
      var last := pieces[|pieces| - 1];
      && last.len <= len && last.addr == addr + len - last.len
      && Contiguous(pieces[..|pieces| - 1], addr, len - last.len)
  }

  lemma ContiguousAppend(pieces: seq<Block>, addr: nat, len: nat, n: nat)
    requires Contiguous(pieces, addr, len)
    ensures Contiguous(pieces + [Block(addr + len, n)], addr, len + n)
  {
    assert (pieces + [Block(addr + len, n)])[..|pieces|] == pieces;
  }

  /** One TRB is enough exactly when no page boundary lies inside. */
  lemma OnePageLeft(addr: nat, len: nat)
    ensures len <= UpToBoundary(addr) ==> CountTrbs(addr, len) == 1
    ensures 1 <= CountTrbs(addr, len)
  {
  }

  /** A piece up to the page boundary, or to the end, leaves one TRB less to come. */
  lemma PieceLeft(at: nat, remain: nat)
    ensures
      var n := if UpToBoundary(at) > remain then remain else UpToBoundary(at);
      && at % PAGE + n <= PAGE && 1 <= CountTrbs(at, remain)
      && (CountTrbs(at, remain) == 1 ==> n == remain)
      && (CountTrbs(at, remain) != 1 ==> CountTrbs(at + n, remain - n) == CountTrbs(at, remain) - 1)
  {
    OnePageLeft(at, remain);
    if UpToBoundary(at) < remain {
      PageUsed(at, remain);
      OnePageLeft(at + UpToBoundary(at), remain - UpToBoundary(at));
    }
  }

  /** The TRBs of one isochronous TD (inner loop of xhci_queue_isoc_tx): exactly as many
      as were counted, exactly the bytes of the packet, so that the length check after
      the loop never fails. */
  method CutIsocTd(addr: nat, len: nat) returns (pieces: seq<Block>, lengthOk: bool)
    ensures |pieces| == CountTrbs(addr, len)
    ensures Contiguous(pieces, addr, len)
    ensures forall j :: 0 <= j < |pieces| ==> pieces[j].addr % PAGE + pieces[j].len <= PAGE
    ensures lengthOk
  {
    var trbsPerTd := CountTrbs(addr, len);
    var at: nat, remain: nat, running: nat := addr, len, 0;
    pieces := [];
    OnePageLeft(addr, len);
    for j := 0 to trbsPerTd
      invariant |pieces| == j && at == addr + running && running + remain == len
      invariant j < trbsPerTd ==> CountTrbs(at, remain) == trbsPerTd - j
      invariant j == trbsPerTd ==> remain == 0
      invariant Contiguous(pieces, addr, running)
      invariant forall i :: 0 <= i < j ==> pieces[i].addr % PAGE + pieces[i].len <= PAGE
    {
      var n := UpToBoundary(at);
      if n > remain {
        n := remain;
      }
      PieceLeft(at, remain);
      ContiguousAppend(pieces, addr, running, n);
      pieces := pieces + [Block(at, n)];
      running := running + n;
      at := at + n;
      remain := remain - n;
    }
    lengthOk := running == len;
  }
}
