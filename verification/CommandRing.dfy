/** The command ring and the list of commands the driver waits for. */
module CommandRing {
  import opened RingModel
  import opened RingFifo
  import opened RingExpansion
  import opened CommandSlots
  import T = TransferRing

  /** Hops from segment `s` forward to the segment of dequeue, counting a full turn
      when dequeue lies behind `p` in the segment itself. */
  function Hops(r: RingState, s: nat, p: nat): nat {
    if s < r.deqSeg then r.deqSeg - s
    else if s == r.deqSeg then if p <= r.deq then 0 else r.segs
    else if s <= r.deqSeg + r.segs then r.deqSeg + r.segs - s else 0
  }

  /** One hop of the count: the rest of a segment without dequeue in it. */
  lemma HopCount(r: RingState, s: nat, p: nat)
    requires r.Geometry() && r.InSeg(s, p) && p < r.Size() && r.InSeg(r.deqSeg, r.deq) && r.deq < r.Size()
    requires !(r.deqSeg == s && p <= r.deq)
    ensures var q := Times(r.NextSeg(s), r.t);
            && q < r.Size() && r.InSeg(r.NextSeg(s), q)
            && |Slots(r.trbs, p, r.deq)| == (Times(s, r.t) + r.t - 1 - p) + |Slots(r.trbs, q, r.deq)|
            && Hops(r, r.NextSeg(s), q) + 1 == Hops(r, s, p)
  {
    var q, l := Times(r.NextSeg(s), r.t), Times(s, r.t) + r.t - 1;
    LinkInSeg(r, s, l);
    NextOfLink(r, s, l);
    HopOrder(r, s, p);
    SlotsToNextSeg(r, s, p);
    SlotsSplit(r.trbs, p, q, r.deq);
  }

  lemma HopOrder(r: RingState, s: nat, p: nat)
    requires r.Geometry() && r.InSeg(s, p) && p < r.Size() && r.InSeg(r.deqSeg, r.deq) && r.deq < r.Size()
    requires !(r.deqSeg == s && p <= r.deq)
    requires r.InSeg(r.NextSeg(s), Times(r.NextSeg(s), r.t)) && Times(r.NextSeg(s), r.t) < r.Size()
    ensures var q := Times(r.NextSeg(s), r.t);
            && q != p && Dist(p, q, r.Size()) <= Dist(p, r.deq, r.Size())
            && Hops(r, r.NextSeg(s), q) + 1 == Hops(r, s, p)
  {
    var q := Times(r.NextSeg(s), r.t);
    LinkInSeg(r, s, p);
    if s + 1 < r.segs {
      assert q == Times(s, r.t) + r.t;
    } else {
      assert q == 0;
    }
    if s < r.deqSeg { SegOrder(s, r.deqSeg, r.t); if s + 1 < r.deqSeg { SegOrder(s + 1, r.deqSeg, r.t); } }
    if r.deqSeg < s { SegOrder(r.deqSeg, s, r.t); }
  }

  /** What becomes of a completion event. `NoCommand` is where the head of an empty list would
      be taken for a command. */
  datatype Answer = Ignored | NoCommand | Completed(id: nat)

  class CommandQueue {
    const ring: T.Ring
    var cmdList: seq<Command>
    var reserved: nat

    ghost predicate Valid()
      reads this, ring, ring.trbs
    {
      Matched(ring.Abs(), cmdList)
    }

    constructor (t: nat, segs: nat, quirk: bool, reserved: nat)
      requires 3 <= t && 1 <= segs
      ensures Valid() && cmdList == [] && this.reserved == reserved && fresh(ring) && fresh(ring.trbs)
    {
      ring := new T.Ring(t, segs, quirk);
      cmdList := [];
      this.reserved := reserved;
      new;
      SegBound(0, segs, t);
      LinkInSeg(ring.Abs(), 0, 0);
      SegBound(0, segs, t - 1);
    }

    /** xhci_num_trbs_free. */
    method NumTrbsFree() returns (free: nat)
      requires Valid()
      ensures free == FreeSlots(ring.Abs())
    {
      ghost var r := ring.Abs();
      var seg: nat, enq: nat := ring.enqSeg, ring.enq;
      if IsLink(ring.trbs[enq]) {
        NextOfLink(r, seg, enq);
        seg := if seg + 1 == ring.segs then 0 else seg + 1;
        enq := Times(seg, ring.t);
      }
      if enq == ring.deq {
        return Times(ring.segs, ring.t - 1);
      }
      free := 0;
      var i: nat := 0;
      while true
        invariant enq < ring.trbs.Length && r.InSeg(seg, enq)
        invariant i + Hops(r, seg, enq) <= ring.segs
        invariant free + |Slots(r.trbs, enq, r.deq)| == FreeSlots(r)
        decreases Hops(r, seg, enq)
      {
        if ring.deqSeg == seg && ring.deq >= enq {
          SlotsInSeg(r, seg, enq, ring.deq);
          return free + (ring.deq - enq);
        }
        HopCount(r, seg, enq);
        LinkInSeg(r, seg, enq);
        free := free + (Times(seg, ring.t) + ring.t - 1 - enq);
        seg := if seg + 1 == ring.segs then 0 else seg + 1;
        enq := Times(seg, ring.t);
        if i >= ring.segs {
          return free;
        }
        i := i + 1;
      }
    }

    /** queue_command: refused unless enough slots are free beyond those reserved. */
    method QueueCommand(id: nat, body: Body, mustSucceed: bool, alive: bool) returns (ok: bool)
      requires Valid() && Data(body) && !body.chain
      requires mustSucceed ==> 1 <= reserved
      modifies this`cmdList, ring, ring.trbs
      ensures Valid() && ring.trbs == old(ring.trbs)
      ensures ok <==> alive && Accepts(old(ring.Abs()), reserved, mustSucceed)
      ensures !ok ==> cmdList == old(cmdList) && ring.Abs() == old(ring.Abs())
      ensures ok ==> ring.Abs() == WithCommand(old(ring.Abs()), body)
      ensures ok ==> cmdList == old(cmdList) + [Listed(id, old(Effective(ring.Abs())))]
    {
      if !alive { return false; }
      var needed := if mustSucceed then reserved else reserved + 1;
      var free := NumTrbsFree();
      if free <= needed { return false; }
      QueueKeepsMatched(ring.Abs(), cmdList, reserved, mustSucceed, body, id);
      LeaveLinkMatched(ring.Abs(), cmdList);
      ring.LeaveLinks();
      cmdList := cmdList + [Listed(id, ring.enq)];
      ring.QueueTrb(body, ring.pcs, false);
      return true;
    }

    /** handle_cmd_completion for an event that reports the TRB at `at`: only the TRB
        at dequeue is accepted, and the first command of the list is then done. */
    method HandleCmdCompletion(at: nat) returns (answer: Answer)
      requires Valid()
      modifies this`cmdList, ring
      ensures Valid()
      ensures answer.Ignored? <==> at != old(ring.deq)
      ensures answer.NoCommand? <==> at == old(ring.deq) && !old(Reportable(ring.Abs(), at))
      ensures answer.Completed? ==> old(cmdList) != [] && answer.id == old(cmdList)[0].id && cmdList == old(cmdList)[1..]
      ensures answer.Completed? ==>
                && old(ring.deq) + 1 < |old(ring.Abs()).trbs|
                && ring.Abs() == IncDeq(old(ring.Abs()), old(ring.deqSeg), old(ring.deq))
      ensures !answer.Completed? ==> cmdList == old(cmdList) && ring.Abs() == old(ring.Abs())
    {
      if at != ring.deq { return Ignored; }
      ReportHasCommand(ring.Abs(), cmdList, at);
      if cmdList == [] { return NoCommand; }
      CompletionMatches(ring.Abs(), cmdList);
      var cmd := cmdList[0];
      if cmd.trb != ring.deq {
        assert false;
      }
      cmdList := cmdList[1..];
      ring.IncDeq(ring.deqSeg, ring.deq);
      return Completed(cmd.id);
    }
  }
}
