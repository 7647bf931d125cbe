/** Counting the slots of a ring that can hold a TRB. */
module CommandSlots {
  import opened RingModel
  import opened RingFifo

  /** The positions, links left out, met when walking from `a` up to `b`. */
  function Slots(trbs: seq<Trb>, a: nat, b: nat): seq<nat>
    requires a < |trbs| && b < |trbs|
    decreases Dist(a, b, |trbs|)
  {
    if a == b then []
    else (if IsLink(trbs[a]) then [] else [a]) + Slots(trbs, Next(a, |trbs|), b)
  }

  lemma {:induction false} SlotsFrame(s: seq<Trb>, s': seq<Trb>, a: nat, b: nat)
    requires a < |s| == |s'| && b < |s|
    requires forall p :: 0 <= p < |s| ==> IsLink(s[p]) == IsLink(s'[p])
    ensures Slots(s, a, b) == Slots(s', a, b)
    decreases Dist(a, b, |s|)
  {
    if a != b { SlotsFrame(s, s', Next(a, |s|), b); }
  }

  lemma {:induction false} SlotsAppend(s: seq<Trb>, a: nat, b: nat)
    requires a < |s| && b < |s| && Next(b, |s|) != a
    ensures Slots(s, a, Next(b, |s|)) == Slots(s, a, b) + (if IsLink(s[b]) then [] else [b])
    decreases Dist(a, b, |s|)
  {
    if a == b {
      assert Slots(s, Next(a, |s|), Next(a, |s|)) == [];
    } else {
      SlotsAppend(s, Next(a, |s|), b);
    }
  }

  lemma {:induction false} SlotsSplit(s: seq<Trb>, a: nat, b: nat, c: nat)
    requires a < |s| && b < |s| && c < |s|
    requires Dist(a, b, |s|) <= Dist(a, c, |s|)
    ensures Slots(s, a, c) == Slots(s, a, b) + Slots(s, b, c)
    decreases Dist(a, b, |s|)
  {
    if a == b {
      assert Slots(s, a, b) == [];
    } else {
      var head := if IsLink(s[a]) then [] else [a];
      SlotsSplit(s, Next(a, |s|), b, c);
      assert head + (Slots(s, Next(a, |s|), b) + Slots(s, b, c)) == (head + Slots(s, Next(a, |s|), b)) + Slots(s, b, c);
    }
  }

  lemma SlotsNonempty(s: seq<Trb>, a: nat, b: nat)
    requires a < |s| && b < |s|
    ensures Slots(s, a, b) != [] ==> a != b
    ensures a != b && !IsLink(s[a]) ==> 1 <= |Slots(s, a, b)|
  {
  }

  /** Inside a segment every position before the link is a slot. */
  lemma {:induction false} SlotsInSeg(r: RingState, seg: nat, a: nat, b: nat)
    requires r.Geometry() && r.InSeg(seg, a) && r.InSeg(seg, b) && a <= b
    requires a < r.Size() && b < r.Size()
    ensures |Slots(r.trbs, a, b)| == b - a
    decreases b - a
  {
    if a < b {
      LinkInSeg(r, seg, a);
      SlotsInSeg(r, seg, a + 1, b);
    }
  }

  /** From a TRB other than the first of a one-segment ring to the next segment. */
  lemma SlotsToNextSeg(r: RingState, seg: nat, a: nat)
    requires r.Geometry() && r.InSeg(seg, a) && a < r.Size()
    requires Times(r.NextSeg(seg), r.t) != a
    ensures Times(r.NextSeg(seg), r.t) < r.Size()
    ensures |Slots(r.trbs, a, Times(r.NextSeg(seg), r.t))| == r.t - 1 - (a - Times(seg, r.t))
  {
    var l := Times(seg, r.t) + r.t - 1;
    LinkInSeg(r, seg, a);
    LinkInSeg(r, seg, l);
    NextOfLink(r, seg, l);
    SlotsInSeg(r, seg, a, l);
    SlotsAppend(r.trbs, a, l);
  }

  /** Enqueue, or the TRB after it if it rests on a link. */
  function Effective(r: RingState): nat
    requires r.enq < |r.trbs|
  {
    if IsLink(r.trbs[r.enq]) then Next(r.enq, |r.trbs|) else r.enq
  }

  /** How many commands the ring can still take: the slots from enqueue round to
      dequeue, all of them when it is empty. */
  function FreeSlots(r: RingState): nat
    requires r.enq < |r.trbs| && r.deq < |r.trbs| && 1 <= r.t
  {
    if Effective(r) == r.deq then Times(r.segs, r.t - 1)
    else |Slots(r.trbs, Effective(r), r.deq)|
  }

  /** All slots of `k` segments, from the first TRB of segment `s`. */
  lemma {:induction false} SlotsOfSegments(r: RingState, s: nat, k: nat)
    requires r.Geometry() && s + k < r.segs
    ensures Times(s, r.t) < r.Size() && Times(s + k, r.t) < r.Size()
    ensures |Slots(r.trbs, Times(s, r.t), Times(s + k, r.t))| == Times(k, r.t - 1)
    decreases k
  {
    SegBound(s, r.segs, r.t);
    SegBound(s + k, r.segs, r.t);
    if k != 0 {
      SlotsOfSegments(r, s, k - 1);
      SegOrder(s + k - 1, s + k, r.t);
      if k != 1 { SegOrder(s, s + k - 1, r.t); }
      SlotsToNextSeg(r, s + k - 1, Times(s + k - 1, r.t));
      SlotsSplit(r.trbs, Times(s, r.t), Times(s + k - 1, r.t), Times(s + k, r.t));
    }
  }

  /** Used and free slots together are all slots of the ring. */
  lemma UsedAndFree(r: RingState, a: nat, b: nat)
    requires r.Geometry() && a < r.Size() && b < r.Size() && a != b
    ensures |Slots(r.trbs, a, b)| + |Slots(r.trbs, b, a)| == Times(r.segs, r.t - 1)
  {
    if b < a {
      UsedAndFree(r, b, a);
    } else {
      LastIsLink(r);
      SlotsOfRing(r);
      SlotsAround(r.trbs, a, b);
    }
  }

  lemma SlotsOfRing(r: RingState)
    requires r.Geometry() && 0 < r.Size()
    ensures |Slots(r.trbs, 0, r.Size() - 1)| == Times(r.segs, r.t - 1)
  {
    var s, l := r.segs - 1, r.Size() - 1;
    SlotsOfSegments(r, 0, s);
    LinkInSeg(r, s, l);
    SegBound(s, r.segs, r.t);
    SlotsInSeg(r, s, Times(s, r.t), l);
    SlotsSplit(r.trbs, 0, Times(s, r.t), l);
  }

  /** From one position to another and back again leads past every slot once. */
  lemma SlotsAround(trbs: seq<Trb>, a: nat, b: nat)
    requires a < b < |trbs| && IsLink(trbs[|trbs| - 1])
    ensures |Slots(trbs, a, b)| + |Slots(trbs, b, a)| == |Slots(trbs, 0, |trbs| - 1)|
  {
    var l := |trbs| - 1;
    SlotsSplit(trbs, 0, a, l);
    SlotsSplit(trbs, a, b, l);
    SlotsAppend(trbs, b, l);
    if a != 0 { SlotsSplit(trbs, b, 0, a); }
  }

  // --------------------------------------------------------------- command list

  /** A command in the driver's list and the TRB it was written to. */
  datatype Command = Listed(id: nat, trb: nat)

  function TrbsOf(cmds: seq<Command>): seq<nat> {
    seq(|cmds|, i requires 0 <= i < |cmds| => cmds[i].trb)
  }

  /** The i-th command of the list owns the i-th slot from dequeue, and at least one
      slot is free, so that a full ring is never mistaken for an empty one. */
  ghost predicate Matched(r: RingState, cmds: seq<Command>) {
    && r.Geometry() && r.InSeg(r.enqSeg, r.enq) && r.InSeg(r.deqSeg, r.deq)
    && r.enq < r.Size() && r.deq < r.Size() && !IsLink(r.trbs[r.deq])
    && TrbsOf(cmds) == Slots(r.trbs, r.deq, Effective(r))
    && |cmds| < Times(r.segs, r.t - 1)
  }

  /** The free count and the list always add up to the capacity of the ring. */
  lemma FreeIsExact(r: RingState, cmds: seq<Command>)
    requires Matched(r, cmds)
    ensures FreeSlots(r) + |cmds| == Times(r.segs, r.t - 1)
    ensures 1 <= FreeSlots(r)
  {
    if Effective(r) != r.deq {
      UsedAndFree(r, r.deq, Effective(r));
    }
    assert |TrbsOf(cmds)| == |cmds|;
  }

  /** The driver's test before queueing a command (prepare_ring on the command ring),
      with `reserved` slots kept for commands that must not fail. */
  predicate Accepts(r: RingState, reserved: nat, mustSucceed: bool)
    requires r.enq < |r.trbs| && r.deq < |r.trbs| && 1 <= r.t
  {
    (if mustSucceed then reserved else reserved + 1) < FreeSlots(r)
  }

  /** Stepping off a link and writing one command TRB, at once visible. */
  function WithCommand(r: RingState, body: Body): RingState
    requires r.Geometry() && r.InSeg(r.enqSeg, r.enq) && r.InSeg(r.deqSeg, r.deq) && r.enq < r.Size()
  {
    var r1 := LeaveLink(r);
    if IsLink(r.trbs[r.enq]) then
      CrossLinkFacts(r, r.quirk);
      LastIsLink(r1);
      QueueTrb(r1, body, r1.pcs, false)
    else
      LastIsLink(r);
      QueueTrb(r1, body, r1.pcs, false)
  }

  lemma LeaveLinkMatched(r: RingState, cmds: seq<Command>)
    requires Matched(r, cmds)
    ensures var r1 := LeaveLink(r);
            && Matched(r1, cmds) && !IsLink(r1.trbs[r1.enq]) && r1.enq == Effective(r)
            && |r1.trbs| == |r.trbs| && r1.deq == r.deq && r1.segs == r.segs && r1.t == r.t
            && FreeSlots(r1) == FreeSlots(r)
  {
    if IsLink(r.trbs[r.enq]) {
      CrossLinkFacts(r, r.quirk);
      var r1 := LeaveLink(r);
      SlotsFrame(r.trbs, r1.trbs, r.deq, r1.enq);
      SlotsFrame(r.trbs, r1.trbs, r1.enq, r.deq);
    }
  }

  lemma PutCommandMatched(r: RingState, cmds: seq<Command>, body: Body, id: nat)
    requires Matched(r, cmds) && !IsLink(r.trbs[r.enq]) && 2 <= FreeSlots(r)
    requires Data(body) && !body.chain && r.enq + 1 < r.Size()
    ensures Matched(QueueTrb(r, body, r.pcs, false), cmds + [Listed(id, r.enq)])
  {
    var r' := QueueTrb(r, body, r.pcs, false);
    LinkInSeg(r, r.enqSeg, r.enq);
    SameKindsKeepGeometry(r, r');
    FreeIsExact(r, cmds);
    assert r' == r.(trbs := r'.trbs, enq := r.enq + 1);
    SlotsFrame(r.trbs, r'.trbs, r.deq, Effective(r'));
    NotYetFull(r, cmds);
    SlotsAppend(r.trbs, r.deq, r.enq);
    if IsLink(r'.trbs[r'.enq]) {
      SlotsAppend(r.trbs, r.deq, r.enq + 1);
    }
    assert TrbsOf(cmds + [Listed(id, r.enq)]) == TrbsOf(cmds) + [r.enq];
  }

  /** With two free slots the next one is not the last before dequeue. */
  lemma NotYetFull(r: RingState, cmds: seq<Command>)
    requires Matched(r, cmds) && !IsLink(r.trbs[r.enq]) && 2 <= FreeSlots(r) && r.enq + 1 < r.Size()
    ensures r.enq + 1 != r.deq
    ensures IsLink(r.trbs[r.enq + 1]) ==> Next(r.enq + 1, r.Size()) != r.deq
  {
    if r.enq + 1 == r.deq {
      OneBeforeDequeue(r);
    } else if IsLink(r.trbs[r.enq + 1]) && Next(r.enq + 1, r.Size()) == r.deq {
      TwoBeforeDequeue(r);
    }
  }

  lemma OneBeforeDequeue(r: RingState)
    requires r.enq + 1 < r.Size() && !IsLink(r.trbs[r.enq]) && r.enq + 1 == r.deq
    ensures |Slots(r.trbs, r.enq, r.deq)| == 1
  {
    assert Slots(r.trbs, r.enq, r.deq) == [r.enq] + Slots(r.trbs, r.deq, r.deq);
  }

  lemma TwoBeforeDequeue(r: RingState)
    requires r.enq + 1 < r.Size() && r.deq < r.Size() && !IsLink(r.trbs[r.enq]) && IsLink(r.trbs[r.enq + 1])
    requires Next(r.enq + 1, r.Size()) == r.deq && r.enq != r.deq
    ensures |Slots(r.trbs, r.enq, r.deq)| == 1
  {
    assert Slots(r.trbs, r.enq + 1, r.deq) == [] + Slots(r.trbs, r.deq, r.deq);
    assert Slots(r.trbs, r.enq, r.deq) == [r.enq] + Slots(r.trbs, r.enq + 1, r.deq);
  }

  /** A command is accepted only if two slots are free, given that a slot has been
      reserved for each command that must succeed; it goes to the end of the list
      and owns the first free slot. */
  lemma QueueKeepsMatched(r: RingState, cmds: seq<Command>, reserved: nat, mustSucceed: bool, body: Body, id: nat)
    requires Matched(r, cmds) && Data(body) && !body.chain
    requires Accepts(r, reserved, mustSucceed)
    requires mustSucceed ==> 1 <= reserved
    ensures Matched(WithCommand(r, body), cmds + [Listed(id, Effective(r))])
    ensures FreeSlots(WithCommand(r, body)) == FreeSlots(r) - 1
  {
    var r1 := LeaveLink(r);
    LeaveLinkMatched(r, cmds);
    LastIsLink(r1);
    PutCommandMatched(r1, cmds, body, id);
    FreeIsExact(r, cmds);
    FreeIsExact(WithCommand(r, body), cmds + [Listed(id, Effective(r))]);
  }

  /** A must-succeed command without a reserved slot can take the last free one:
      the full ring then looks exactly like an empty one. */
  lemma UnreservedFillsRing(r: RingState, cmds: seq<Command>, body: Body)
    requires Matched(r, cmds) && !IsLink(r.trbs[r.enq]) && FreeSlots(r) == 1 && cmds != []
    requires Data(body) && !body.chain && r.enq + 1 < r.Size()
    ensures Accepts(r, 0, true)
    ensures var r' := QueueTrb(r, body, r.pcs, false);
            Effective(r') == r'.deq && FreeSlots(r') == Times(r.segs, r.t - 1)
  {
    LinkInSeg(r, r.enqSeg, r.enq);
    if IsLink(r.trbs[r.enq + 1]) {
      NextOfLink(r, r.enqSeg, r.enq + 1);
      LinkInSeg(r, r.NextSeg(r.enqSeg), Next(r.enq + 1, r.Size()));
    }
    LastSlot(r, cmds);
  }

  lemma LastSlot(r: RingState, cmds: seq<Command>)
    requires Matched(r, cmds) && !IsLink(r.trbs[r.enq]) && FreeSlots(r) == 1 && cmds != [] && r.enq + 1 < r.Size()
    requires IsLink(r.trbs[r.enq + 1]) ==> !IsLink(r.trbs[Next(r.enq + 1, r.Size())])
    ensures r.deq == if IsLink(r.trbs[r.enq + 1]) then Next(r.enq + 1, r.Size()) else r.enq + 1
  {
    assert |TrbsOf(cmds)| == |cmds|;
    SlotsNonempty(r.trbs, r.deq, r.enq);
    var a := r.enq + 1;
    assert Slots(r.trbs, r.enq, r.deq) == [r.enq] + Slots(r.trbs, a, r.deq);
    if a != r.deq && IsLink(r.trbs[a]) {
      var b := Next(a, r.Size());
      assert Slots(r.trbs, a, r.deq) == [] + Slots(r.trbs, b, r.deq);
      SlotsNonempty(r.trbs, b, r.deq);
    }
  }

  /** The command the controller reports next is the first of the list, so the
      driver's cross-check of the two always succeeds, and dequeue moves to the slot
      of the second. */
  lemma CompletionMatches(r: RingState, cmds: seq<Command>)
    requires Matched(r, cmds) && cmds != []
    ensures cmds[0].trb == r.deq && r.deq + 1 < r.Size()
    ensures Matched(IncDeq(r, r.deqSeg, r.deq), cmds[1..])
  {
    FirstIsNext(r, cmds);
    RetireTarget(r, r.deqSeg, r.deq);
    if IsLink(r.trbs[r.deq + 1]) {
      EffectiveIsSlot(r);
      assert Slots(r.trbs, r.deq + 1, Effective(r)) == [] + Slots(r.trbs, Next(r.deq + 1, r.Size()), Effective(r));
    }
  }

  /** The slot at dequeue is the first command's, the slots behind it are those of the others. */
  lemma FirstIsNext(r: RingState, cmds: seq<Command>)
    requires Matched(r, cmds) && cmds != []
    ensures cmds[0].trb == r.deq && r.deq + 1 < r.Size() && !IsLink(r.trbs[r.deq])
    ensures TrbsOf(cmds[1..]) == Slots(r.trbs, r.deq + 1, Effective(r))
  {
    assert |TrbsOf(cmds)| == |cmds|;
    SlotsNonempty(r.trbs, r.deq, Effective(r));
    assert TrbsOf(cmds)[0] == cmds[0].trb;
    assert Slots(r.trbs, r.deq, Effective(r)) == [r.deq] + Slots(r.trbs, Next(r.deq, r.Size()), Effective(r));
    LastIsLink(r);
    assert TrbsOf(cmds[1..]) == TrbsOf(cmds)[1..];
  }

  /** The controller reports a TRB at dequeue only if a command was written there. */
  predicate Reportable(r: RingState, at: nat)
    requires r.enq < |r.trbs| && r.deq < |r.trbs|
  {
    at == r.deq ==> at in Slots(r.trbs, r.deq, Effective(r))
  }

  /** So there is a first command for the handler to take whenever it gets that far, and only then. */
  lemma ReportHasCommand(r: RingState, cmds: seq<Command>, at: nat)
    requires Matched(r, cmds)
    ensures at == r.deq ==> (Reportable(r, at) <==> cmds != [])
  {
    assert |TrbsOf(cmds)| == |cmds|;
    if cmds != [] { FirstIsNext(r, cmds); SlotsNonempty(r.trbs, r.deq, Effective(r)); }
  }

  lemma EffectiveIsSlot(r: RingState)
    requires r.Geometry() && r.InSeg(r.enqSeg, r.enq) && r.enq < r.Size()
    ensures !IsLink(r.trbs[Effective(r)])
  {
    if IsLink(r.trbs[r.enq]) {
      NextOfLink(r, r.enqSeg, r.enq);
      LinkInSeg(r, r.NextSeg(r.enqSeg), Next(r.enq, r.Size()));
    }
  }

  /** Turning an aborted command into a no-op leaves every command its slot. */
  lemma AbortKeepsMatched(r: RingState, cmds: seq<Command>, p: nat)
    requires Matched(r, cmds) && p < r.Size()
    ensures Matched(r.(trbs := r.trbs[p := NoopOf(r.trbs[p])]), cmds)
  {
    var r' := r.(trbs := r.trbs[p := NoopOf(r.trbs[p])]);
    SameKindsKeepGeometry(r, r');
    SlotsFrame(r.trbs, r'.trbs, r.deq, Effective(r));
  }
}
