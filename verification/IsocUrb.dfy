/** Writing TDs TRB by TRB, and queueing an isochronous URB of many TDs, all published by one
    cycle bit or none at all, as a function of the ring. */
module IsocUrb {
  import opened RingModel
  import opened RingExpansion
  import opened RingFifo
  import C = TdCutting

  /** prepare_ring's effect on the ring when it succeeds. */
  function PreparedRing(r: RingState, n: nat): RingState
    requires r.Shape() && r.enq < r.Size()
  {
    SplicedAt(r, ExpansionNeeded(r, n), r.enq);
    SegEnd(r);
    LeaveLink(Splice(r, ExpansionNeeded(r, n)))
  }

  /** The TRBs of one isochronous TD: the first is an Isoc TRB, all but the last
      are chained, only the last interrupts. */
  function IsocBody(td: seq<C.Block>, j: nat): Body
    requires j < |td|
  {
    Body(if j == 0 then Isoc else Normal, td[j].addr, td[j].len, j < |td| - 1, j == |td| - 1)
  }

  /** The whole TD. */
  function IsocBodies(td: seq<C.Block>): (bodies: seq<Body>)
    ensures |bodies| == |td|
  {
    seq(|td|, j requires 0 <= j < |td| => IsocBody(td, j))
  }

  function IsocTds(tds: seq<seq<C.Block>>): (all: seq<seq<Body>>)
    ensures |all| == |tds|
  {
    seq(|tds|, i requires 0 <= i < |tds| => IsocBodies(tds[i]))
  }

  /** The TRBs of a TD: all but the last are chained, none is a link. */
  predicate TdShaped(td: seq<Body>) {
    td != [] && forall j :: 0 <= j < |td| ==> !td[j].kind.Link? && (td[j].chain <==> j < |td| - 1)
  }

  lemma IsocIsShaped(td: seq<C.Block>)
    requires td != []
    ensures TdShaped(IsocBodies(td))
  {
  }

  function AllBodies(tds: seq<seq<Body>>): seq<Body> {
    if tds == [] then [] else AllBodies(tds[..|tds| - 1]) + tds[|tds| - 1]
  }

  function CountTrbs(tds: seq<seq<Body>>): nat {
    if tds == [] then 0 else CountTrbs(tds[..|tds| - 1]) + |tds[|tds| - 1]|
  }

  lemma {:induction false} CountPrefix(tds: seq<seq<Body>>, i: nat)
    requires i <= |tds|
    ensures CountTrbs(tds[..i]) <= CountTrbs(tds)
    ensures i < |tds| ==> CountTrbs(tds[..i]) + |tds[i]| <= CountTrbs(tds)
    decreases |tds|
  {
    if i == |tds| {
      assert tds[..i] == tds;
    } else {
      var front := tds[..|tds| - 1];
      CountPrefix(front, i);
      assert front[..i] == tds[..i];
    }
  }

  /** Two rings at rest with the same enqueue position and cycle state have the
      same cycle bits. */
  lemma RestoredBits(y: Sys, z: Sys)
    requires Inv(y) && Inv(z) && !y.open && !z.open
    requires y.r.enq == z.r.enq && y.r.pcs == z.r.pcs && |y.r.trbs| == |z.r.trbs|
    ensures forall p :: 0 <= p < |y.r.trbs| ==> z.r.trbs[p].cycle == y.r.trbs[p].cycle
  {
    forall p | 0 <= p < |y.r.trbs|
      ensures z.r.trbs[p].cycle == y.r.trbs[p].cycle
    {
      assert RestBit(z.r, p) == RestBit(y.r, p);
    }
  }

  lemma PrepareFacts(y: Sys, n: nat)
    requires Inv(y) && (0 < ExpansionNeeded(y.r, n) ==> !LinkAhead(y))
    ensures Inv(Prepared(y, n))
    ensures var grown := Splice(y.r, ExpansionNeeded(y.r, n));
            && grown.Shape() && grown.enq < grown.Size()
            && Prepared(y, n).r == LeaveLink(grown)
  {
    PreparedKeepsInv(y, n);
    SpliceKeepsShape(y.r, ExpansionNeeded(y.r, n));
    SplicedAt(y.r, ExpansionNeeded(y.r, n), y.r.enq);
    SegEnd(y.r);
  }

  lemma PreparedKeepsRoom(y: Sys, n: nat)
    requires Inv(y) && n < y.r.Room()
    ensures ExpansionNeeded(y.r, n) == 0
    ensures Inv(Prepared(y, n))
    ensures var r' := Prepared(y, n).r; r'.Room() == y.r.Room() && !IsLink(r'.trbs[r'.enq])
  {
    CheckedOnceNeverGrows(y, n);
    PreparedKeepsInv(y, n);
    GrowByNothing(y);
    if IsLink(y.r.trbs[y.r.enq]) {
      CrossRoom(y.r, y.r.quirk);
      CrossLinkFacts(y.r, y.r.quirk);
    }
  }

  lemma WrittenOffLink(y: Sys, body: Body, more: bool)
    requires Inv(y) && Data(body) && !IsLink(y.r.trbs[y.r.enq]) && y.r.enq + 1 < y.r.Size()
    requires body.chain || more
    requires Inv(Written(y, body, more))
    ensures var r' := Written(y, body, more).r; !IsLink(r'.trbs[r'.enq])
  {
    WrittenIsPut(y, body, more);
    PutKeepsShape(y, body);
    var y1 := Put(y, body);
    if IsLink(y1.r.trbs[y1.r.enq]) {
      CrossLinkFacts(y1.r, if y.r.quirk then y.r.trbs[y.r.enq + 1].body.chain else body.chain);
    }
  }

  // ------------------------------------------- an isochronous URB, TRB by TRB

  /** There is room for the TD, and the enqueue position is ready for it. */
  ghost predicate Fits(y: Sys, td: seq<Body>) {
    && Inv(y) && !IsLink(y.r.trbs[y.r.enq])
    && TdShaped(td) && |td| < y.r.Room()
  }

  /** `z` has `j` more TRBs of a TD written than `y`. */
  ghost predicate Wrote(y: Sys, z: Sys, td: seq<Body>, j: nat)
    requires j <= |td|
  {
    && Inv(y) && Inv(z)
    && z.r.Room() == y.r.Room() - j
    && z.open == (y.open || 0 < j)
    && (z.open ==> Pending(z) == (if y.open then Pending(y) else []) + td[..j])
    && (j < |td| ==> !IsLink(z.r.trbs[z.r.enq]))
    && SameStart(y, z)
  }

  /** Nothing was published or consumed, and the TD being written begins where it did. */
  ghost predicate SameStart(y: Sys, z: Sys) {
    && z.published == y.published && z.consumed == y.consumed && z.hw == y.hw
    && |z.r.trbs| == |y.r.trbs|
    && (z.open ==>
          && z.startSeg == (if y.open then y.startSeg else y.r.enqSeg)
          && z.start == (if y.open then y.start else y.r.enq)
          && z.startCycle == (if y.open then y.startCycle else y.r.pcs))
    && (!z.open ==> !y.open && z.r.enqSeg == y.r.enqSeg && z.r.enq == y.r.enq && z.r.pcs == y.r.pcs)
  }

  lemma StartKept(y: Sys, z: Sys, body: Body, more: bool)
    requires z.r.enq + 1 < |z.r.trbs| && SameStart(y, z)
    ensures SameStart(y, Written(z, body, more))
  {
    WrittenFields(z, body, more);
  }

  lemma OneMore(y: Sys, z: Sys, w: Sys, td: seq<Body>, j: nat)
    requires j < |td| && Wrote(y, z, td, j) && SameStart(y, w)
    requires Inv(w) && w.open && w.r.Room() == z.r.Room() - 1
    requires Pending(w) == (if z.open then Pending(z) else []) + [td[j]]
    requires j + 1 < |td| ==> !IsLink(w.r.trbs[w.r.enq])
    ensures Wrote(y, w, td, j + 1)
  {
    assert td[..j + 1] == td[..j] + [td[j]];
  }

  lemma WroteNext(y: Sys, z: Sys, td: seq<Body>, j: nat)
    requires TdShaped(td) && j < |td| && j + 1 < y.r.Room() && Wrote(y, z, td, j)
    ensures z.r.enq + 1 < |z.r.trbs|
    ensures Wrote(y, Written(z, td[j], j < |td| - 1), td, j + 1)
  {
    var body, more := td[j], j < |td| - 1;
    WrittenKeepsInv(z, body, more);
    StartKept(y, z, body, more);
    WrittenFields(z, body, more);
    if more { WrittenOffLink(z, body, more); }
    OneMore(y, z, Written(z, body, more), td, j);
  }

  /** The first `j` TRBs of a TD written one after the other, as long as the array goes on. */
  function WrittenTd(y: Sys, td: seq<Body>, j: nat): Sys
    requires j <= |td|
    decreases j
  {
    if j == 0 then y
    else
      var z := WrittenTd(y, td, j - 1);
      if z.r.enq + 1 < |z.r.trbs| then Written(z, td[j - 1], j < |td|) else z
  }

  lemma {:induction false} WrittenTdOk(y: Sys, td: seq<Body>, j: nat)
    requires Inv(y) && !IsLink(y.r.trbs[y.r.enq]) && TdShaped(td) && j <= |td| && (j == 0 || j < y.r.Room())
    ensures Wrote(y, WrittenTd(y, td, j), td, j)
    decreases j
  {
    if j == 0 {
      WroteNothing(y, td);
    } else {
      WrittenTdOk(y, td, j - 1);
      WroteUpTo(y, td, j);
    }
  }

  lemma WroteUpTo(y: Sys, td: seq<Body>, j: nat)
    requires TdShaped(td) && 0 < j <= |td| && j < y.r.Room() && Wrote(y, WrittenTd(y, td, j - 1), td, j - 1)
    ensures Wrote(y, WrittenTd(y, td, j), td, j)
  {
    WroteNext(y, WrittenTd(y, td, j - 1), td, j - 1);
    WrittenTdStep(y, td, j);
  }

  lemma WroteNothing(y: Sys, td: seq<Body>)
    requires Inv(y) && !IsLink(y.r.trbs[y.r.enq])
    ensures Wrote(y, y, td, 0)
  {
  }

  lemma WrittenTdStep(y: Sys, td: seq<Body>, j: nat)
    requires 0 < j <= |td| && WrittenTd(y, td, j - 1).r.enq + 1 < |WrittenTd(y, td, j - 1).r.trbs|
    ensures WrittenTd(y, td, j) == Written(WrittenTd(y, td, j - 1), td[j - 1], j - 1 < |td| - 1)
  {
  }

  /** The whole URB was checked for room, and nothing of it is queued yet. */
  ghost predicate UrbFits(y: Sys, tds: seq<seq<Body>>) {
    && Inv(y) && !y.open && !IsLink(y.r.trbs[y.r.enq])
    && 1 <= |tds| && (forall i :: 0 <= i < |tds| ==> TdShaped(tds[i]))
    && CountTrbs(tds) < y.r.Room()
  }

  /** `z` has the first `i` TDs of the URB written, none of them published. */
  ghost predicate HasQueued(y: Sys, z: Sys, tds: seq<seq<Body>>, i: nat)
    requires i <= |tds|
  {
    && Inv(z)
    && z.r.Room() == y.r.Room() - CountTrbs(tds[..i])
    && z.open == (0 < i)
    && (z.open ==> Pending(z) == AllBodies(tds[..i]))
    && (i == 0 ==> z == y)
    && SameStart(y, z)
  }

  /** Preparing the next TD finds room without growing the ring. */
  lemma NextTdFits(y: Sys, z: Sys, tds: seq<seq<Body>>, i: nat)
    requires UrbFits(y, tds) && i < |tds| && HasQueued(y, z, tds, i)
    ensures ExpansionNeeded(z.r, |tds[i]|) == 0
    ensures Prepared(z, |tds[i]|).r == PreparedRing(z.r, |tds[i]|)
    ensures Fits(Prepared(z, |tds[i]|), tds[i])
  {
    CountPrefix(tds, i);
    PreparedKeepsRoom(z, |tds[i]|);
    PrepareFacts(z, |tds[i]|);
  }

  lemma PreparedSameStart(y: Sys, z: Sys, tds: seq<seq<Body>>, i: nat)
    requires UrbFits(y, tds) && i < |tds| && HasQueued(y, z, tds, i)
    ensures var p := Prepared(z, |tds[i]|);
            && Inv(p) && p.open == z.open && SameStart(y, p) && p.r.Room() == z.r.Room()
            && (p.open ==> Pending(p) == Pending(z))
  {
    NextTdFits(y, z, tds, i);
    CountPrefix(tds, i);
    PreparedKeepsRoom(z, |tds[i]|);
    PreparedKeepsPending(z, |tds[i]|);
    GrowByNothing(z);
  }

  lemma WroteWhole(y: Sys, z: Sys, w: Sys, tds: seq<seq<Body>>, i: nat)
    requires UrbFits(y, tds) && i < |tds| && HasQueued(y, z, tds, i)
    requires Wrote(Prepared(z, |tds[i]|), w, tds[i], |tds[i]|)
    ensures HasQueued(y, w, tds, i + 1)
  {
    PreparedSameStart(y, z, tds, i);
    assert tds[..i + 1][..i] == tds[..i];
    assert tds[i][..|tds[i]|] == tds[i];
  }

  /** The first `i` TDs prepared and written one after the other. */
  ghost function Queued(y: Sys, tds: seq<seq<Body>>, i: nat): Sys
    requires UrbFits(y, tds) && i <= |tds|
    decreases i, 0
  {
    if i == 0 then y
    else
      QueuedOk(y, tds, i - 1);
      NextTdFits(y, Queued(y, tds, i - 1), tds, i - 1);
      WrittenTd(Prepared(Queued(y, tds, i - 1), |tds[i - 1]|), tds[i - 1], |tds[i - 1]|)
  }

  lemma {:induction false} QueuedOk(y: Sys, tds: seq<seq<Body>>, i: nat)
    requires UrbFits(y, tds) && i <= |tds|
    ensures HasQueued(y, Queued(y, tds, i), tds, i)
    decreases i, 1
  {
    if i != 0 {
      var z, td := Queued(y, tds, i - 1), tds[i - 1];
      QueuedOk(y, tds, i - 1);
      NextTdFits(y, z, tds, i - 1);
      WrittenTdOk(Prepared(z, |td|), td, |td|);
      WroteWhole(y, z, Queued(y, tds, i), tds, i - 1);
    } else {
      assert tds[..0] == [];
    }
  }

  /** What the driver leaves when TD `i` could not be prepared, or when `i` is the
      number of TDs and the URB is handed over. */
  ghost function Outcome(y: Sys, tds: seq<seq<Body>>, i: nat): Sys
    requires UrbFits(y, tds) && i <= |tds|
  {
    QueuedOk(y, tds, i);
    if i == |tds| then Publish(Queued(y, tds, i))
    else if i == 0 then y
    else Rollback(Queued(y, tds, i))
  }

  /** An isochronous URB that was checked for room as a whole. Each of its TDs has a TRB. */
  ghost predicate IsocFits(y: Sys, tds: seq<seq<C.Block>>) {
    && Inv(y) && !y.open && !IsLink(y.r.trbs[y.r.enq])
    && 1 <= |tds| && (forall i :: 0 <= i < |tds| ==> tds[i] != [])
    && CountTrbs(IsocTds(tds)) < y.r.Room()
  }

  lemma IsocFitsUrb(y: Sys, tds: seq<seq<C.Block>>)
    requires IsocFits(y, tds)
    ensures UrbFits(y, IsocTds(tds))
  {
    forall i | 0 <= i < |tds| ensures TdShaped(IsocTds(tds)[i]) { IsocIsShaped(tds[i]); }
  }

  ghost function IsocOutcome(y: Sys, tds: seq<seq<C.Block>>, i: nat): Sys
    requires IsocFits(y, tds) && i <= |tds|
  {
    IsocFitsUrb(y, tds);
    Outcome(y, IsocTds(tds), i)
  }

  /** The outcome in terms of the enqueue position and cycle state at the start. */
  lemma OutcomeInPlace(y: Sys, tds: seq<seq<Body>>, i: nat)
    requires UrbFits(y, tds) && i <= |tds|
    ensures var r, o := Queued(y, tds, i).r, Outcome(y, tds, i).r;
            && y.r.enq < |r.trbs| && r.enq < |r.trbs|
            && (i == |tds| ==> o == r.(trbs := r.trbs[y.r.enq := r.trbs[y.r.enq].(cycle := y.r.pcs)]))
            && (0 < i < |tds| ==> o == r.(trbs := NoopTd(r.trbs, y.r.enq, r.enq, true),
                                          enqSeg := y.r.enqSeg, enq := y.r.enq, pcs := y.r.pcs))
            && (i == 0 ==> o == r)
  {
    QueuedOk(y, tds, i);
  }

  /** A queued URB is handed over as a whole: after what was published before come
      the TRBs of all its TDs, in order. */
  lemma UrbIsPublished(y: Sys, tds: seq<seq<Body>>)
    requires UrbFits(y, tds)
    ensures var z := Outcome(y, tds, |tds|);
            && Inv(z)
            && z.consumed + Visible(z.r.trbs, z.hw, z.ccs, z.r.Size()) == y.published + AllBodies(tds)
  {
    var z := Queued(y, tds, |tds|);
    QueuedOk(y, tds, |tds|);
    PublishKeepsInv(z);
    ControllerSeesPublished(Publish(z));
    assert tds[..|tds|] == tds;
  }

  /** Before that, the controller sees nothing of it. */
  lemma UrbIsHidden(y: Sys, tds: seq<seq<Body>>, i: nat)
    requires UrbFits(y, tds) && i <= |tds|
    ensures HasQueued(y, Queued(y, tds, i), tds, i)
    ensures var z := Queued(y, tds, i);
            z.consumed + Visible(z.r.trbs, z.hw, z.ccs, z.r.Size()) == y.published
  {
    QueuedOk(y, tds, i);
    ControllerSeesPublished(Queued(y, tds, i));
  }

  /** However many TDs were queued before the one that failed, the ring is back
      where it was: enqueue, cycle state and every cycle bit. */
  lemma UrbIsUndone(y: Sys, tds: seq<seq<Body>>, i: nat)
    requires UrbFits(y, tds) && i < |tds|
    ensures var z := Outcome(y, tds, i);
            && Inv(z)
            && z.r.enqSeg == y.r.enqSeg && z.r.enq == y.r.enq && z.r.pcs == y.r.pcs
            && |z.r.trbs| == |y.r.trbs|
            && (forall p :: 0 <= p < |y.r.trbs| ==> z.r.trbs[p].cycle == y.r.trbs[p].cycle)
            && z.consumed + Visible(z.r.trbs, z.hw, z.ccs, z.r.Size()) == y.published
  {
    if i != 0 {
      QueuedOk(y, tds, i);
      RollbackKeepsInv(Queued(y, tds, i));
      RestoredBits(y, Outcome(y, tds, i));
    }
    ControllerSeesPublished(Outcome(y, tds, i));
  }
}
