/** The producer side of a ring as the driver runs it: TRBs written in place,
    positions and cycle state updated field by field. Each method is tied to the
    function that says what it does to the ring as a value. */
module TransferRing {
  import opened RingModel
  import opened RingExpansion
  import opened RingFifo
  import opened IsocUrb
  import opened MoveDequeue
  import opened ActualLength
  import opened BulkUrb
  import opened RingFetch
  import opened RingCounts
  import opened Wrappers
  import C = TdCutting

  /** Both ways to go on from a TRB lead to the next position. */
  lemma StepToNext(r: RingState, seg: nat, p: nat)
    requires r.Geometry() && r.InSeg(seg, p) && p < r.Size()
    ensures if IsLink(r.trbs[p]) then
              Next(p, r.Size()) == Times(r.NextSeg(seg), r.t) && r.InSeg(r.NextSeg(seg), Next(p, r.Size()))
              && !IsLink(r.trbs[Next(p, r.Size())])
            else p + 1 < r.Size() && Next(p, r.Size()) == p + 1 && r.InSeg(seg, p + 1)
  {
    LinkInSeg(r, seg, p);
    if IsLink(r.trbs[p]) {
      NextOfLink(r, seg, p);
      LinkInSeg(r, r.NextSeg(seg), Next(p, r.Size()));
    }
  }

  /** A ring with these fields is the spliced one. */
  lemma SpliceFields(r: RingState, k: nat, z: RingState)
    requires r.Geometry() && r.enqSeg < r.segs && k != 0 && End(r) <= |r.trbs|
    requires z.trbs == InsertAt(r.trbs, End(r), FreshSegments(r.t, k, r.pcs, r.enqSeg + 1 == r.segs))
    requires z.t == r.t && z.quirk == r.quirk && z.segs == r.segs + k
    requires z.enqSeg == r.enqSeg && z.enq == r.enq && z.pcs == r.pcs
    requires z.deqSeg == if r.enqSeg < r.deqSeg then r.deqSeg + k else r.deqSeg
    requires z.deq == if r.enqSeg < r.deqSeg then r.deq + Times(k, r.t) else r.deq
    ensures z == Splice(r, k)
  {
  }

  /** The endpoint allowed the first `i` TDs. */
  predicate AllSchedulable(schedulable: seq<bool>, i: nat) {
    i <= |schedulable| && forall j :: 0 <= j < i ==> schedulable[j]
  }

  lemma SchedulableUpTo(schedulable: seq<bool>, i: nat)
    requires i < |schedulable| && schedulable[i] && AllSchedulable(schedulable, i)
    ensures AllSchedulable(schedulable, i + 1)
  {
  }

  /** Preparing and writing the TD leads from `z` to `next`, without growing the ring. */
  ghost predicate TdFollows(z: Sys, first: bool, td: seq<C.Block>, next: Sys) {
    && Inv(z) && ExpansionNeeded(z.r, |td|) == 0
    && Prepared(z, |td|).r == PreparedRing(z.r, |td|) && Fits(Prepared(z, |td|), IsocBodies(td))
    && (first <==> !Prepared(z, |td|).open)
    && next == WrittenTd(Prepared(z, |td|), IsocBodies(td), |td|)
  }

  ghost function QueuedOf(y: Sys, all: seq<seq<Body>>): nat -> Sys
    requires UrbFits(y, all)
  {
    (i: nat) => if i <= |all| then Queued(y, all, i) else y
  }

  lemma TdsFollow(y: Sys, tds: seq<seq<C.Block>>)
    requires UrbFits(y, IsocTds(tds))
    ensures forall i: nat :: i < |tds| ==>
              TdFollows(QueuedOf(y, IsocTds(tds))(i), i == 0, tds[i], QueuedOf(y, IsocTds(tds))(i + 1))
  {
    forall i: nat | i < |tds|
      ensures TdFollows(QueuedOf(y, IsocTds(tds))(i), i == 0, tds[i], QueuedOf(y, IsocTds(tds))(i + 1))
    {
      NextFollows(y, IsocTds(tds), tds[i], i);
    }
  }

  lemma NextFollows(y: Sys, all: seq<seq<Body>>, td: seq<C.Block>, i: nat)
    requires UrbFits(y, all) && i < |all| && all[i] == IsocBodies(td)
    ensures TdFollows(Queued(y, all, i), i == 0, td, Queued(y, all, i + 1))
  {
    QueuedOk(y, all, i);
    NextTdFits(y, Queued(y, all, i), all, i);
    PreparedSameStart(y, Queued(y, all, i), all, i);
  }

  class Ring {
    const t: nat
    const quirk: bool
    var segs: nat
    var trbs: array<Trb>
    var enqSeg: nat
    var enq: nat
    var pcs: bool
    var deqSeg: nat
    var deq: nat

    function Abs(): RingState
      reads this, trbs
    {
      RingState(t, segs, quirk, trbs[..], enqSeg, enq, pcs, deqSeg, deq)
    }

    constructor (t: nat, segs: nat, quirk: bool)
      requires 3 <= t && 1 <= segs
      ensures Abs() == FreshRing(t, segs, quirk) && Abs().Shape() && fresh(trbs)
    {
      var init := FreshSegments(t, segs, true, true);
      this.t, this.segs, this.quirk := t, segs, quirk;
      trbs := new Trb[|init|](i requires 0 <= i < |init| => init[i]);
      enqSeg, enq, pcs, deqSeg, deq := 0, 0, true, 0, 0;
      new;
      assert trbs[..] == init;
      FreshRingShape(t, segs, quirk);
    }

    /** next_trb on positions. */
    function NextPos(p: nat): (q: nat)
      requires p < trbs.Length
      reads this
      ensures q == Next(p, trbs.Length)
    {
      if p + 1 == trbs.Length then 0 else p + 1
    }

    /** Hand the link at the enqueue position to the controller and move on. */
    method CrossEnqueueLink(chain: bool)
      requires Abs().Geometry() && Abs().InSeg(enqSeg, enq) && Abs().InSeg(deqSeg, deq)
      requires enq < trbs.Length && IsLink(trbs[enq])
      modifies this`enq, this`enqSeg, this`pcs, trbs
      ensures Abs() == CrossLink(old(Abs()), chain)
      ensures enq < trbs.Length && !IsLink(trbs[enq])
    {
      ghost var r := Abs();
      CrossLinkFacts(r, chain);
      var l := trbs[enq];
      trbs[enq] := Trb(l.body.(chain := chain), !l.cycle);
      if l.body.kind.toggle {
        pcs := !pcs;
      }
      enqSeg := if enqSeg + 1 == segs then 0 else enqSeg + 1;
      enq := Times(enqSeg, t);
      assert trbs[..] == CrossLink(r, chain).trbs;
    }

    method IncEnq(more: bool)
      requires Abs().Geometry() && Abs().InSeg(enqSeg, enq) && Abs().InSeg(deqSeg, deq)
      requires enq < trbs.Length && !IsLink(trbs[enq])
      modifies this`enq, this`enqSeg, this`pcs, trbs
      ensures old(enq) + 1 < trbs.Length
      ensures Abs() == RingModel.IncEnq(old(Abs()), more)
    {
      ghost var r := Abs();
      LinkInSeg(r, enqSeg, enq);
      SegBound(enqSeg, segs, t);
      var chain := trbs[enq].body.chain;
      enq := enq + 1;
      ghost var r1 := Abs();
      ghost var crossed := false;
      while IsLink(trbs[enq])
        invariant enq < trbs.Length
        invariant if crossed then
                    && IsLink(r1.trbs[r1.enq]) && (chain || more) && !IsLink(trbs[enq])
                    && Abs() == CrossLink(r1, if quirk then r1.trbs[r1.enq].body.chain else chain)
                  else Abs() == r1
        decreases !crossed
      {
        if !chain && !more {
          break;
        }
        CrossEnqueueLink(if quirk then trbs[enq].body.chain else chain);
        crossed := true;
      }
    }

    method QueueTrb(body: Body, cycle: bool, more: bool)
      requires Abs().Geometry() && Abs().InSeg(enqSeg, enq) && Abs().InSeg(deqSeg, deq)
      requires enq < trbs.Length && !IsLink(trbs[enq]) && Data(body)
      modifies this`enq, this`enqSeg, this`pcs, trbs
      ensures old(enq) + 1 < trbs.Length
      ensures Abs() == RingModel.QueueTrb(old(Abs()), body, cycle, more)
    {
      ghost var r := Abs();
      trbs[enq] := Trb(body, cycle);
      assert Abs() == r.(trbs := r.trbs[r.enq := Trb(body, cycle)]);
      SameKindsKeepGeometry(r, Abs());
      IncEnq(more);
    }

    /** xhci_ring_expansion_needed: walk the segments that would be entered. */
    method NewSegmentsNeeded(n: nat) returns (needed: nat)
      requires Abs().Shape() && enq < trbs.Length
      ensures needed == ExpansionNeeded(Abs(), n)
    {
      var used := enq - Times(enqSeg, t);
      var past := used + n - (t - 1);
      if past < 0 {
        return 0;
      }
      if IsLink(trbs[enq]) && Times(if enqSeg + 1 == segs then 0 else enqSeg + 1, t) == deq {
        return 0;
      }
      var newSegs := 1 + past / (t - 1);
      assert 0 <= past / (t - 1) by { DivBound(past, t - 1, 1); }
      ghost var all := newSegs;
      var seg := enqSeg;
      while newSegs > 0
        invariant 0 <= newSegs <= all
        invariant all - newSegs < Abs().SegDist()
        invariant seg == if enqSeg + (all - newSegs) < segs then enqSeg + (all - newSegs)
                         else enqSeg + (all - newSegs) - segs
      {
        seg := if seg + 1 == segs then 0 else seg + 1;
        if seg == deqSeg {
          return newSegs;
        }
        newSegs := newSegs - 1;
      }
      return 0;
    }

    /** A copy of the TRBs with `added` inserted at `x`. */
    method CopyWith(x: nat, added: seq<Trb>) returns (grown: array<Trb>)
      requires 0 < x <= trbs.Length
      ensures fresh(grown)
      ensures grown[..] == InsertAt(trbs[..], x, added)
    {
      var m, n := |added|, trbs.Length;
      ghost var target := InsertAt(trbs[..], x, added);
      grown := new Trb[n + m](_ => Trb(Body(Empty, 0, 0, false, false), false));
      for p := 0 to x
        invariant forall q :: 0 <= q < p ==> grown[q] == target[q]
      {
        grown[p] := if p + 1 == n then Untoggled(trbs[p]) else trbs[p];
      }
      for p := 0 to m
        invariant forall q :: 0 <= q < x + p ==> grown[q] == target[q]
      {
        grown[x + p] := added[p];
      }
      for p := x to n
        invariant forall q :: 0 <= q < p + m ==> grown[q] == target[q]
      {
        grown[p + m] := trbs[p];
      }
      assert grown[..] == target;
    }

    /** xhci_ring_expansion: fresh segments go in behind the enqueue segment. */
    method Expand(k: nat)
      requires Abs().Geometry() && enqSeg < segs
      modifies this`trbs, this`segs, this`deqSeg, this`deq
      ensures k == 0 ==> trbs == old(trbs)
      ensures k != 0 ==> fresh(trbs)
      ensures Abs() == Splice(old(Abs()), k)
    {
      if k == 0 { return; }
      SpliceAfterEnq(k);
    }

    /** xhci_ring_expansion: fresh segments go in behind the enqueue segment. */
    method SpliceAfterEnq(k: nat)
      requires Abs().Geometry() && enqSeg < segs && k != 0
      modifies this`trbs, this`segs, this`deqSeg, this`deq
      ensures fresh(trbs) && Abs() == Splice(old(Abs()), k)
    {
      ghost var r := Abs();
      SegEnd(r);
      trbs := CopyWith(Times(enqSeg, t) + t, FreshSegments(t, k, pcs, enqSeg + 1 == segs));
      segs := segs + k;
      if enqSeg < deqSeg {
        deqSeg := deqSeg + k;
        deq := deq + Times(k, t);
      }
      SpliceFields(r, k, Abs());
    }

    /** Step off links at the enqueue position before a TD is queued. */
    method LeaveLinks()
      requires Abs().Geometry() && Abs().InSeg(enqSeg, enq) && Abs().InSeg(deqSeg, deq) && enq < trbs.Length
      modifies this`enq, this`enqSeg, this`pcs, trbs
      ensures Abs() == LeaveLink(old(Abs()))
    {
      ghost var r := Abs();
      ghost var crossed := false;
      while IsLink(trbs[enq])
        invariant enq < trbs.Length
        invariant if crossed then IsLink(r.trbs[r.enq]) && !IsLink(trbs[enq]) && Abs() == CrossLink(r, quirk)
                  else Abs() == r
        decreases !crossed
      {
        CrossEnqueueLink(quirk);
        crossed := true;
      }
    }

    /** prepare_ring for a transfer ring: `schedulable` says whether the endpoint
        state allows queueing, `canExpand` whether memory was found to grow. */
    method PrepareRing(n: nat, schedulable: bool, canExpand: bool) returns (ok: bool)
      requires Abs().Shape() && enq < trbs.Length
      modifies this, trbs
      ensures trbs == old(trbs) || fresh(trbs)
      ensures ok <==> schedulable && (ExpansionNeeded(old(Abs()), n) == 0 || canExpand)
      ensures Abs() == if ok then PreparedRing(old(Abs()), n) else old(Abs())
      ensures ExpansionNeeded(old(Abs()), n) == 0 || !ok ==> trbs == old(trbs)
    {
      if !schedulable { return false; }
      var needed := NewSegmentsNeeded(n);
      if needed != 0 && !canExpand { return false; }
      SpliceKeepsShape(Abs(), needed);
      SplicedAt(Abs(), needed, enq);
      SegEnd(Abs());
      Expand(needed);
      LeaveLinks();
      return true;
    }

    /** Let the controller have the whole TD (giveback_first_trb). */
    method GivebackFirstTrb(startCycle: bool, start: nat)
      requires start < trbs.Length
      modifies trbs
      ensures trbs[..] == old(trbs[..])[start := old(trbs[start]).(cycle := startCycle)]
    {
      trbs[start] := trbs[start].(cycle := startCycle);
    }

    /** trb_to_noop, with the cycle bit inverted on request. */
    method TrbToNoop(p: nat, flip: bool)
      requires p < trbs.Length
      modifies trbs
      ensures
        var x := NoopOf(old(trbs[p]));
        trbs[p] == if flip then x.(cycle := !x.cycle) else x
      ensures forall q :: 0 <= q < trbs.Length && q != p ==> trbs[q] == old(trbs[q])
    {
      var x := trbs[p];
      x := if IsLink(x) then x.(body := x.body.(chain := false)) else x.(body := Body(Noop, 0, 0, false, false));
      if flip {
        x := x.(cycle := !x.cycle);
      }
      trbs[p] := x;
    }

    /** Turn the TRBs from `first` to `last` into no-ops, one by one. */
    method TdToNoop(first: nat, last: nat, flip: bool)
      requires first < trbs.Length && last < trbs.Length
      modifies trbs
      ensures trbs[..] == NoopTd(old(trbs[..]), first, last, flip)
    {
      ghost var was := trbs[..];
      var n, p := trbs.Length, first;
      while true
        invariant 0 <= p < n && Dist(first, p, n) <= Dist(first, last, n)
        invariant forall q :: 0 <= q < n ==>
                    trbs[q] == if Dist(first, q, n) < Dist(first, p, n) then NoopTd(was, first, last, flip)[q]
                               else was[q]
        decreases Dist(p, last, n)
      {
        TrbToNoop(p, flip && p != first && p != last);
        if p == last { break; }
        p := NextPos(p);
      }
      assert trbs[..] == NoopTd(was, first, last, flip);
    }

    /** The TD ending at `last` is finished: dequeue moves behind it (inc_deq). */
    method IncDeq(lastSeg: nat, last: nat)
      requires Abs().Geometry() && Abs().InSeg(lastSeg, last) && last + 1 < trbs.Length && !IsLink(trbs[last])
      modifies this`deqSeg, this`deq
      ensures Abs() == RingModel.IncDeq(old(Abs()), lastSeg, last)
    {
      RetireTarget(Abs(), lastSeg, last);
      ghost var target := RingModel.IncDeq(Abs(), lastSeg, last);
      deqSeg, deq := lastSeg, last;
      if !IsLink(trbs[deq]) {
        deq := deq + 1;
      }
      ghost var hopped := false;
      while IsLink(trbs[deq])
        invariant deq < trbs.Length
        invariant if hopped || !IsLink(trbs[last + 1]) then Abs() == target && !IsLink(trbs[deq])
                  else deqSeg == lastSeg && deq == last + 1
        decreases !hopped
      {
        deqSeg := if deqSeg + 1 == segs then 0 else deqSeg + 1;
        deq := Times(deqSeg, t);
        hopped := true;
      }
    }

    /** next_trb: the TRB after `p`, links included, and its segment. */
    method NextTrb(seg: nat, p: nat) returns (seg': nat, p': nat)
      requires Abs().Geometry() && Abs().InSeg(seg, p) && p < trbs.Length
      ensures p' == Next(p, trbs.Length) && Abs().InSeg(seg', p')
      ensures seg' == if IsLink(trbs[p]) then (if seg + 1 == segs then 0 else seg + 1) else seg
      ensures IsLink(trbs[p]) ==> !IsLink(trbs[p'])
    {
      StepToNext(Abs(), seg, p);
      if IsLink(trbs[p]) {
        seg' := if seg + 1 == segs then 0 else seg + 1;
        p' := Times(seg', t);
      } else {
        seg', p' := seg, p + 1;
      }
    }

    /** sum_trb_lengths: the bytes of the TRBs from dequeue up to `stop`. */
    method SumTrbLengths(stop: nat) returns (sum: nat)
      requires Abs().Geometry() && Abs().InSeg(deqSeg, deq) && deq < trbs.Length && stop < trbs.Length
      ensures sum == WalkLen(trbs[..], deq, stop)
    {
      var seg: nat, p: nat := deqSeg, deq;
      sum := 0;
      while p != stop
        invariant p < trbs.Length && Abs().InSeg(seg, p)
        invariant sum + WalkLen(trbs[..], p, stop) == WalkLen(trbs[..], deq, stop)
        decreases Dist(p, stop, trbs.Length)
      {
        if !trbs[p].body.kind.Noop? && !IsLink(trbs[p]) {
          sum := sum + trbs[p].body.len;
        }
        seg, p := NextTrb(seg, p);
      }
    }

    /** xhci_move_dequeue_past_td up to queueing the command: from dequeue, walk until
        both the controller at `hw` (with consumer cycle state `hwCycle`) and the end
        of the TD at `last` have been met. */
    method FindNewDequeue(hw: nat, hwCycle: bool, last: nat) returns (found: bool, seg: nat, q: nat, cycle: bool)
      requires Abs().Geometry() && Abs().InSeg(deqSeg, deq) && deq < trbs.Length
      ensures found <==> Findable(trbs.Length, deq, hw, last)
      ensures found ==> q == NewDequeue(trbs.Length, deq, hw, last) && Abs().InSeg(seg, q)
      ensures found ==> cycle == CycleAt(trbs[..], hw, hwCycle, q)
    {
      ghost var n := trbs.Length;
      seg, q, cycle := deqSeg, deq, hwCycle;
      var cycleFound, lastFound := false, false;
      while true
        invariant q < n && Abs().InSeg(seg, q)
        invariant cycleFound <==> Passed(n, deq, hw, q)
        invariant lastFound <==> Passed(n, deq, last, q)
        invariant !(cycleFound && lastFound)
        invariant cycle == if cycleFound then CycleAt(trbs[..], hw, hwCycle, q) else hwCycle
        decreases n - Dist(deq, q, n)
      {
        if !cycleFound && q == hw {
          cycleFound := true;
          if lastFound {
            return true, seg, q, cycle;
          }
        }
        if q == last {
          lastFound := true;
        }
        if cycleFound && IsLink(trbs[q]) && trbs[q].body.kind.toggle {
          cycle := !cycle;
        }
        ghost var was := q;
        seg, q := NextTrb(seg, q);
        if q == deq {
          return false, seg, q, cycle;
        }
        PassedStep(n, deq, hw, was);
        PassedStep(n, deq, last, was);
        if cycleFound { CycleStep(trbs[..], hw, hwCycle, was); }
        if cycleFound && lastFound {
          return true, seg, q, cycle;
        }
      }
    }

    /** The driver's dequeue follows to `queued` once the controller has moved there
        (update_ring_for_set_deq_completion). */
    method UpdateRingForSetDeq(queuedSeg: nat, queued: nat)
      requires Abs().Geometry() && Abs().InSeg(deqSeg, deq) && deq < trbs.Length
      requires Abs().InSeg(queuedSeg, queued) && queued < trbs.Length
      modifies this`deqSeg, this`deq
      ensures deq == queued && deqSeg == queuedSeg
    {
      var seg, p := WalkTo(queued);
      SameSeg(Abs(), seg, queuedSeg, queued);
      deqSeg, deq := seg, p;
    }

    /** The loop of update_ring_for_set_deq_completion. It never stops in front of a
        link without looking whether the link itself is what it is looking for. */
    method WalkTo(queued: nat) returns (seg: nat, p: nat)
      requires Abs().Geometry() && Abs().InSeg(deqSeg, deq) && deq < trbs.Length && queued < trbs.Length
      ensures p == queued && Abs().InSeg(seg, p)
    {
      ghost var n := trbs.Length;
      seg, p := deqSeg, deq;
      if IsLink(trbs[p]) {
        seg, p := NextTrb(seg, p);
      }
      while p != queued
        invariant p < n && Abs().InSeg(seg, p)
        invariant IsLink(trbs[p]) ==> p == queued
        invariant !IsLink(trbs[deq]) ==> Dist(p, queued, n) <= Dist(deq, queued, n)
        decreases Dist(p, queued, n)
      {
        seg, p := NextTrb(seg, p);
        if IsLink(trbs[p]) {
          if p == queued { break; }
          seg, p := NextTrb(seg, p);
        }
        if p == deq { break; }
      }
    }

    /** Writing the TRBs of one TD; the first TRB of the URB is withheld. The ghost
        `y` is the ring together with the controller. */
    method QueueIsocTd(first: bool, td: seq<C.Block>, ghost y: Sys)
      requires Abs() == y.r && (first <==> !y.open) && Fits(y, IsocBodies(td))
      modifies this`enq, this`enqSeg, this`pcs, trbs
      ensures Abs() == WrittenTd(y, IsocBodies(td), |td|).r
    {
      for j := 0 to |td|
        invariant Abs() == WrittenTd(y, IsocBodies(td), j).r
      {
        QueueIsocTrb(first, td, j, y);
      }
    }

    method QueueIsocTrb(first: bool, td: seq<C.Block>, j: nat, ghost y: Sys)
      requires Fits(y, IsocBodies(td)) && j < |td| && Abs() == WrittenTd(y, IsocBodies(td), j).r && (first <==> !y.open)
      modifies this`enq, this`enqSeg, this`pcs, trbs
      ensures Abs() == WrittenTd(y, IsocBodies(td), j + 1).r
    {
      WrittenTdOk(y, IsocBodies(td), j);
      QueueTrb(IsocBody(td, j), if first && j == 0 then !pcs else pcs, j < |td| - 1);
    }

    /** The cleanup after a TD of the URB that began at `start` could not be prepared. */
    method UndoTo(startSeg: nat, start: nat, startCycle: bool)
      requires start < trbs.Length && enq < trbs.Length
      modifies this`enq, this`enqSeg, this`pcs, trbs
      ensures Abs() == old(Abs()).(trbs := NoopTd(old(trbs[..]), start, old(enq), true),
                                   enqSeg := startSeg, enq := start, pcs := startCycle)
    {
      TdToNoop(start, enq, true);
      enq, enqSeg, pcs := start, startSeg, startCycle;
    }

    /** prepare_ring where no growth is needed: only the endpoint state can refuse. */
    method PrepareNoGrowth(n: nat, schedulable: bool) returns (ok: bool)
      requires Abs().Shape() && enq < trbs.Length && ExpansionNeeded(Abs(), n) == 0
      modifies this, trbs
      ensures trbs == old(trbs) && ok == schedulable
      ensures Abs() == if ok then PreparedRing(old(Abs()), n) else old(Abs())
    {
      ok := PrepareRing(n, schedulable, false);
    }

    /** Preparing and writing one TD where the ring has room for it. */
    method QueueFitting(first: bool, td: seq<C.Block>, schedulable: bool, ghost z: Sys, ghost next: Sys) returns (ok: bool)
      requires Abs() == z.r && TdFollows(z, first, td, next)
      modifies this, trbs
      ensures trbs == old(trbs) && ok == schedulable
      ensures Abs() == if ok then next.r else z.r
    {
      ok := PrepareNoGrowth(|td|, schedulable);
      if ok {
        QueueIsocTd(first, td, Prepared(z, |td|));
      }
    }

    /** Preparing and writing the TDs in order, up to the first that is refused. With `i` of
        them written the ring is as in `at(i)`. */
    method QueueTds(tds: seq<seq<C.Block>>, schedulable: seq<bool>, ghost at: nat -> Sys) returns (queued: nat)
      requires |schedulable| == |tds| && Abs() == at(0).r
      requires forall i: nat :: i < |tds| ==> TdFollows(at(i), i == 0, tds[i], at(i + 1))
      modifies this, trbs
      ensures trbs == old(trbs)
      ensures queued <= |tds| && Abs() == at(queued).r
      ensures AllSchedulable(schedulable, queued)
      ensures queued < |tds| ==> !schedulable[queued]
    {
      queued := 0;
      while queued < |tds|
        invariant trbs == old(trbs)
        invariant queued <= |tds| && Abs() == at(queued).r
        invariant AllSchedulable(schedulable, queued)
      {
        var prepared := QueueFitting(queued == 0, tds[queued], schedulable[queued], at(queued), at(queued + 1));
        if !prepared {
          return;
        }
        SchedulableUpTo(schedulable, queued);
        queued := queued + 1;
      }
    }

    /** The same where the whole URB was checked for room. */
    method QueueChecked(tds: seq<seq<C.Block>>, schedulable: seq<bool>, ghost y: Sys, ghost all: seq<seq<Body>>)
      returns (queued: nat)
      requires Abs() == y.r && all == IsocTds(tds) && UrbFits(y, all) && |schedulable| == |tds|
      modifies this, trbs
      ensures trbs == old(trbs)
      ensures queued <= |tds| && Abs() == Queued(y, all, queued).r
      ensures AllSchedulable(schedulable, queued)
      ensures queued < |tds| ==> !schedulable[queued]
    {
      TdsFollow(y, tds);
      queued := QueueTds(tds, schedulable, QueuedOf(y, all));
    }

    /** Queueing the TDs of an isochronous URB. `schedulable[i]` is what the endpoint
        context shows when TD `i` is prepared; room for the whole URB was checked
        before. A TD that cannot be prepared undoes all that came before it. */
    method QueueIsocTx(tds: seq<seq<C.Block>>, schedulable: seq<bool>, ghost y: Sys) returns (queued: nat)
      requires Abs() == y.r && IsocFits(y, tds) && |schedulable| == |tds|
      modifies this, trbs
      ensures trbs == old(trbs)
      ensures queued <= |tds| && Abs() == IsocOutcome(y, tds, queued).r
      ensures AllSchedulable(schedulable, queued)
      ensures queued < |tds| ==> !schedulable[queued]
    {
      var start, startSeg, startCycle := enq, enqSeg, pcs;
      IsocFitsUrb(y, tds);
      queued := QueueChecked(tds, schedulable, y, IsocTds(tds));
      OutcomeInPlace(y, IsocTds(tds), queued);
      if queued == |tds| {
        GivebackFirstTrb(startCycle, start);
      } else if queued != 0 {
        UndoTo(startSeg, start, startCycle);
      }
    }

    /** Queueing a bulk transfer, whether or not it fits: the ring is prepared for the TRBs
        counted, all that the transfer is cut into are written, and the first is given. */
    method QueueBulkTx(mem: nat -> Byte, x: Transfer, schedulable: bool, canExpand: bool, ghost y: Sys)
      returns (ok: bool, queued: seq<C.DataTrb>)
      requires Abs() == y.r && Inv(y) && !y.open && x.Valid()
      requires 0 < ExpansionNeeded(y.r, x.Count()) ==> !LinkAhead(y)
      modifies this, trbs
      ensures trbs == old(trbs) || fresh(trbs)
      ensures ok <==> schedulable && (ExpansionNeeded(y.r, x.Count()) == 0 || canExpand)
      ensures !ok ==> Abs() == y.r
      ensures ok ==>
                && C.CutWhole(mem, x.blocks, x.full, x.bounceAt, queued)
                && CutFor(y.r, x, queued)
                && Abs() == GivenBulk(y, x.Count(), BulkBodies(queued)).r
      ensures ok && FitsBulk(y.r, x) && Apart(x) ==>
                ReadsBack(mem, Abs(), Prepared(y, x.Count()).r.enq, Copied(queued), C.FirstBytes(mem, x.blocks, x.full))
    {
      queued := [];
      ok := PrepareBulk(x.Count(), schedulable, canExpand, y, Prepared(y, x.Count()));
      if ok {
        queued := WriteBulk(mem, x, y.r, Prepared(y, x.Count()));
        FittingReadsBack(mem, y, x, queued);
      }
    }

    method PrepareBulk(n: nat, schedulable: bool, canExpand: bool, ghost y: Sys, ghost p: Sys) returns (ok: bool)
      requires Abs() == y.r && Inv(y) && !y.open && (0 < ExpansionNeeded(y.r, n) ==> !LinkAhead(y)) && p == Prepared(y, n)
      modifies this, trbs
      ensures trbs == old(trbs) || fresh(trbs)
      ensures ok <==> schedulable && (ExpansionNeeded(y.r, n) == 0 || canExpand)
      ensures Abs() == if ok then p.r else y.r
      ensures ReadyFor(p, y.r)
    {
      PreparedForBulk(y, n);
      ok := PrepareRing(n, schedulable, canExpand);
    }

    /** The part that follows a successful preparation. */
    method WriteBulk(mem: nat -> Byte, x: Transfer, ghost r: RingState, ghost p: Sys) returns (queued: seq<C.DataTrb>)
      requires Abs() == p.r && ReadyFor(p, r) && x.Valid()
      modifies this`enq, this`enqSeg, this`pcs, trbs
      ensures C.CutWhole(mem, x.blocks, x.full, x.bounceAt, queued) && CutFor(r, x, queued)
      ensures Abs() == Given(WrittenTd(p, BulkBodies(queued), |queued|)).r
    {
      var start, startCycle := enq, pcs;
      queued := CutAndWrite(mem, x, p, StartOffset(r));
      BodiesAreTd(p, queued);
      BulkIsShaped(queued);
      GivenInPlace(p, BulkBodies(queued));
      GivebackFirstTrb(startCycle, start);
    }

    /** Cutting and writing all of a transfer. */
    method CutAndWrite(mem: nat -> Byte, x: Transfer, ghost p: Sys, ghost off: nat) returns (queued: seq<C.DataTrb>)
      requires Abs() == p.r && x.Valid() && !p.open && Placed(p.r) && p.r.InSeg(p.r.deqSeg, p.r.deq) && Offset(p.r) == off
      modifies this`enq, this`enqSeg, this`pcs, trbs
      ensures C.CutWhole(mem, x.blocks, x.full, x.bounceAt, queued)
      ensures C.LensOf(queued) == C.BulkLens(x.blocks, x.full, x.maxPkt, t, off, x.mapOk)
      ensures Abs() == WrittenSoFar(p, BulkBodies(queued)).r
    {
      ghost var stand := StandOf(mem, x, p, off);
      StandOfMeans(mem, x, p, off);
      StandsAtStart(mem, x, p, off);
      assert MeansAt(stand, mem, x, p, off, C.Begin(x.blocks), 0, [], off, Abs());
      ghost var s, enqd, o;
      queued, s, enqd, o := QueueTrbs(mem, x, p, off, stand);
      assert MeansAt(stand, mem, x, p, off, s, enqd, queued, o, Abs());
      StandsAtEnd(mem, x, p, off, s, enqd, queued, o, Abs());
    }

    /** The loop: a TRB is cut, aligned if the ring has a link behind it, and written. */
    method QueueTrbs(mem: nat -> Byte, x: Transfer, ghost p: Sys, ghost off: nat, ghost stand: Stand)
      returns (queued: seq<C.DataTrb>, ghost at: C.Spot, ghost sent: nat, ghost o: nat)
      requires Means(stand, mem, x, p, off) && p.r.InSeg(p.r.deqSeg, p.r.deq) && p.r.t == t && x.blocks != []
      requires stand(C.Begin(x.blocks), 0, [], off, Abs())
      modifies this`enq, this`enqSeg, this`pcs, trbs
      ensures stand(at, sent, queued, o, Abs()) && queued != [] && sent >= x.full
    {
      var s, enqd: nat := C.Begin(x.blocks), 0;
      queued, o := [], off;
      while queued == [] || enqd < x.full
        invariant stand(s, enqd, queued, o, Abs())
        decreases queued == [], x.full - enqd
      {
        var trb, r := QueueOneTrb(mem, x, s, enqd, queued, p, off, o, stand);
        s, enqd, queued := r, enqd + trb.len, queued + [trb];
        o := C.NextOffset(t, o);
      }
      at, sent := s, enqd;
    }

    method QueueOneTrb(mem: nat -> Byte, x: Transfer, s: C.Spot, enqd: nat, queued: seq<C.DataTrb>,
                       ghost p: Sys, ghost off: nat, ghost o: nat, ghost stand: Stand)
      returns (trb: C.DataTrb, r: C.Spot)
      requires Means(stand, mem, x, p, off) && p.r.InSeg(p.r.deqSeg, p.r.deq) && p.r.t == t
      requires stand(s, enqd, queued, o, Abs()) && (queued == [] || enqd < x.full)
      modifies this`enq, this`enqSeg, this`pcs, trbs
      ensures stand(r, enqd + trb.len, queued + [trb], C.NextOffset(t, o), Abs())
      ensures queued != [] ==> 0 < trb.len
    {
      assert MeansAt(stand, mem, x, p, off, s, enqd, queued, o, Abs());
      ghost var rule := C.CutRule(x.full, x.maxPkt, t, x.mapOk);
      ghost var goal := C.BulkLens(x.blocks, x.full, x.maxPkt, t, off, x.mapOk);
      trb, r := C.TurnOn(mem, x.blocks, x.full, x.maxPkt, LinkIsNext(p, queued, o), x.mapOk, x.bounceAt, s, enqd, queued, t, o, goal, rule);
      WriteTrb(trb, p, queued, o);
      assert MeansAt(stand, mem, x, p, off, r, enqd + trb.len, queued + [trb], C.NextOffset(t, o), Abs());
    }

    /** Whether the TRB behind the enqueue position is a link. */
    function LinkIsNext(ghost p: Sys, ghost queued: seq<C.DataTrb>, ghost o: nat): (b: bool)
      requires WroteTrbs(p, queued, true, o, Abs())
      reads this, trbs
      ensures b <==> o + 2 == p.r.t
    {
      NextSlot(Abs());
      IsLink(trbs[enq + 1])
    }

    /** One TRB written, the first of the TD with its cycle bit inverted. */
    method WriteTrb(trb: C.DataTrb, ghost p: Sys, queued: seq<C.DataTrb>, ghost o: nat)
      requires WroteTrbs(p, queued, true, o, Abs()) && p.r.InSeg(p.r.deqSeg, p.r.deq)
      modifies this`enq, this`enqSeg, this`pcs, trbs
      ensures WroteTrbs(p, queued + [trb], trb.chain, C.NextOffset(p.r.t, o), Abs())
    {
      ghost var z := WrittenSoFar(p, BulkBodies(queued));
      WritingNext(p, z, queued != [], o, BulkBody(trb));
      WritesNext(p, queued, trb);
      QueueTrb(BulkBody(trb), if queued == [] then !pcs else pcs, trb.chain);
      WroteIs(p, queued + [trb], trb.chain, C.NextOffset(p.r.t, o), Written(z, BulkBody(trb), trb.chain));
    }
  }
}
