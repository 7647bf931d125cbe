/** The TDs the controller sees when TDs are cancelled in place, where links carry the chain bit over. */
module RingTdCancel {
  import opened RingModel
  import opened RingExpansion
  import opened RingFifo
  import opened CommandSlots
  import opened MoveDequeue
  import opened RingCancel
  import opened RingTds

  /** For a controller that has got to a link, what the link says of the TRB before it. */
  function Here(y: Sys): bool
    requires y.hw < |y.r.trbs|
  {
    IsLink(y.r.trbs[y.hw]) && y.r.trbs[y.hw].body.chain
  }

  /** Every link ahead of the controller is right. */
  ghost predicate RightAhead(y: Sys) {
    && Inv(y) && !y.r.quirk && y.hw < |y.r.trbs| && ChainedFrom(y, Here(y), false)
  }

  /** From a TRB other than a link it does not matter what was before. */
  lemma AnyBefore(s: seq<Trb>, a: nat, b: nat, before: bool, other: bool)
    requires a < |s| && b < |s| && (a == b || !IsLink(s[a]))
    ensures LinksRight(false, s, a, b, before) <==> LinksRight(false, s, a, b, other)
    ensures a != b ==> Before(s, a, b, before) == Before(s, a, b, other)
  {
  }

  /** The chain bits ahead of a controller moved on to `q`. */
  lemma {:induction false} LinksTail(s: seq<Trb>, a: nat, q: nat, b: nat, before: bool)
    requires a < |s| && q < |s| && b < |s| && Dist(a, q, |s|) <= Dist(a, b, |s|)
    requires LinksRight(false, s, a, b, before)
    ensures LinksRight(false, s, q, b, Before(s, a, q, before))
    ensures Before(s, q, b, Before(s, a, q, before)) == Before(s, a, b, before)
    decreases Dist(a, q, |s|)
  {
    if a != q { LinksTail(s, Next(a, |s|), q, b, if IsLink(s[a]) then before else s[a].body.chain); }
  }

  /** So at `q` it may start over. */
  lemma StartOver(s: seq<Trb>, q: nat, b: nat, before: bool)
    requires q < |s| && b < |s| && LinksRight(false, s, q, b, before)
    ensures var here := IsLink(s[q]) && s[q].body.chain;
            LinksRight(false, s, q, b, here) && (q != b ==> Before(s, q, b, here) == Before(s, q, b, before))
  {
    if q != b && !IsLink(s[q]) { AnyBefore(s, q, b, before, false); }
  }

  lemma WriteStaysRight(y: Sys, body: Body, more: bool)
    requires RightAhead(y) && Data(body) && !IsLink(y.r.trbs[y.r.enq]) && 2 <= y.r.Room()
    ensures y.r.enq + 1 < |y.r.trbs| && RightAhead(Written(y, body, more))
  {
    WrittenKeepsInv(y, body, more);
    WriteKeepsChained(y, body, more, Here(y), false);
    PutKeepsOrder(y, body);
    WrittenIsPut(y, body, more);
    SameHere(y, Written(y, body, more));
  }

  lemma SameHere(y: Sys, z: Sys)
    requires y.hw < |y.r.trbs| && z.hw < |z.r.trbs| && Inv(z) && !z.r.quirk && ChainedFrom(z, Here(y), false)
    requires Here(z) == Here(y)
    ensures RightAhead(z)
  {
  }

  lemma PrepareStaysRight(y: Sys, n: nat)
    requires RightAhead(y) && (0 < ExpansionNeeded(y.r, n) ==> !LinkAhead(y))
    ensures RightAhead(Prepared(y, n))
  {
    PreparedKeepsInv(y, n);
    GrownStaysRight(y, n);
    var y1 := Grow(y, ExpansionNeeded(y.r, n));
    if IsLink(y1.r.trbs[y1.r.enq]) { CrossStaysRight(y1); }
  }

  lemma GrownStaysRight(y: Sys, n: nat)
    requires RightAhead(y) && (0 < ExpansionNeeded(y.r, n) ==> !LinkAhead(y))
    ensures RightAhead(Grow(y, ExpansionNeeded(y.r, n)))
  {
    var k := ExpansionNeeded(y.r, n);
    GrownIsChained(y, n, Here(y), false);
    if k == 0 { GrowByNothing(y); } else { GrownHere(y, k); }
  }

  lemma GrownHere(y: Sys, k: nat)
    requires Inv(y) && k != 0
    ensures var z := Grow(y, k); z.hw < |z.r.trbs| && Here(z) == Here(y) && z.r.quirk == y.r.quirk
  {
    LastIsLink(y.r);
    SplicedAt(y.r, k, y.hw);
  }

  lemma CrossStaysRight(y: Sys)
    requires RightAhead(y) && IsLink(y.r.trbs[y.r.enq])
    ensures RightAhead(Cross(y, false))
  {
    CrossKeepsInv(y, false);
    CrossLinkFacts(y.r, false);
    if y.hw == y.r.enq {
      CrossedLink(y, false);
      assert LinksRight(false, Cross(y, false).r.trbs, Next(y.hw, y.r.Size()), Next(y.hw, y.r.Size()), false);
    } else {
      CrossKeepsChained(y, false, Here(y), false);
      CrossedLink(y, false);
    }
  }

  lemma TakeStaysRight(y: Sys)
    requires RightAhead(y)
    ensures RightAhead(Consume(y))
  {
    ConsumeKeepsInv(y);
    if y.r.trbs[y.hw].cycle == y.ccs {
      NotPast(y);
      var next := Next(y.hw, y.r.Size());
      StartOver(y.r.trbs, next, y.r.enq, if IsLink(y.r.trbs[y.hw]) then Here(y) else y.r.trbs[y.hw].body.chain);
    }
  }

  lemma DriveStaysRight(y: Sys, step: Step)
    requires RightAhead(y) && Enabled(y, step)
    ensures RightAhead(Apply(y, step))
  {
    if step.Write? { WriteStaysRight(y, step.body, step.more); }
    else if step.Prepare? { if step.ok { PrepareStaysRight(y, step.n); } }
    else if step.Take? { TakeStaysRight(y); }
    else if step.Give? { GiveStaysRight(y); }
    else if step.Undo? { UndoStaysRight(y); }
    else { DoneStaysRight(y, step.seg, step.last); }
  }

  lemma GiveStaysRight(y: Sys)
    requires RightAhead(y) && y.open
    ensures RightAhead(Publish(y))
  {
    PublishKeepsInv(y);
    GiveKeepsChained(y, Here(y), false);
    SameHere(y, Publish(y));
  }

  lemma UndoStaysRight(y: Sys)
    requires RightAhead(y) && y.open
    ensures RightAhead(Rollback(y))
  {
    RollbackKeepsInv(y);
    UndoKeepsChained(y, Here(y), false);
    UndoKeepsHere(y);
    SameHere(y, Rollback(y));
  }

  lemma UndoKeepsHere(y: Sys)
    requires Inv(y) && y.open
    ensures Here(Rollback(y)) == Here(y)
  {
  }

  lemma DoneStaysRight(y: Sys, seg: nat, last: nat)
    requires RightAhead(y) && Retirable(y, seg, last)
    ensures RightAhead(Retire(y, seg, last))
  {
    RetireKeepsInv(y, seg, last);
    DoneKeepsChained(y, seg, last, Here(y), false);
    SameHere(y, Retire(y, seg, last));
  }

  // ------------------------------------------------------------------- cancelling a TD

  /** The TRBs from `first` to `last` are those of a TD, as far as the controller has yet to take them. */
  predicate TdAt(y: Sys, first: nat, last: nat) {
    && first < |y.r.trbs| && last < |y.r.trbs| && y.hw < |y.r.trbs| && y.r.enq < |y.r.trbs|
    && !IsLink(y.r.trbs[first]) && !IsLink(y.r.trbs[last]) && !y.r.trbs[last].body.chain
    && (Dist(y.hw, first, |y.r.trbs|) < Dist(y.hw, y.r.enq, |y.r.trbs|) ==> !Before(y.r.trbs, y.hw, first, false))
  }

  /** Links stay right when a whole TD is turned into no-ops: those inside it are unchained with it. */
  lemma {:induction false} BlankLinks(s: seq<Trb>, first: nat, last: nat, a: nat, b: nat, before: bool, after: bool)
    requires first < |s| && last < |s| && a < |s| && b < |s|
    requires !IsLink(s[first]) && !IsLink(s[last]) && !s[last].body.chain
    requires LinksRight(false, s, a, b, before)
    requires if InTd(first, last, a, |s|) && a != first then !after else after == before
    ensures var s' := NoopTd(s, first, last, false);
            LinksRight(false, s', a, b, after) && (!Before(s, a, b, before) ==> !Before(s', a, b, after))
    decreases Dist(a, b, |s|)
  {
    if a != b {
      var s', a', n := NoopTd(s, first, last, false), Next(a, |s|), |s|;
      NextInTd(first, last, a, n);
      BlankLinks(s, first, last, a', b, if IsLink(s[a]) then before else s[a].body.chain,
                 if IsLink(s'[a]) then after else s'[a].body.chain);
    }
  }

  lemma NextInTd(first: nat, last: nat, a: nat, n: nat)
    requires first < n && last < n && a < n
    ensures InTd(first, last, Next(a, n), n) && Next(a, n) != first ==> InTd(first, last, a, n)
    ensures InTd(first, last, a, n) && a != last ==> InTd(first, last, Next(a, n), n) && Next(a, n) != first
    ensures !InTd(first, last, Next(a, n), n) && InTd(first, last, a, n) ==> a == last
  {
  }

  lemma BlankStaysRight(y: Sys, first: nat, last: nat)
    requires RightAhead(y) && !y.open && TdAt(y, first, last)
    ensures RightAhead(Blanked(y, first, last))
  {
    var z := Blanked(y, first, last);
    BlankKeepsInv(y, first, last);
    var after := if InTd(first, last, y.hw, y.r.Size()) && y.hw != first then false else Here(y);
    BlankLinks(y.r.trbs, first, last, y.hw, y.r.enq, Here(y), after);
    StartOver(z.r.trbs, y.hw, y.r.enq, after);
  }

  lemma MoveStaysRight(y: Sys, seg: nat, last: nat)
    requires RightAhead(y) && Movable(y, seg, last)
    ensures RightAhead(Happened(y, Move(seg, last)))
  {
    MoveKeepsInv(y, seg, last);
    NewDequeueIsAhead(y, last);
    var q := NewDequeue(y.r.Size(), y.r.deq, y.hw, last);
    LinksTail(y.r.trbs, y.hw, q, y.r.enq, Here(y));
    StartOver(y.r.trbs, q, y.r.enq, Before(y.r.trbs, y.hw, q, Here(y)));
  }

  /** Only whole TDs are cancelled. */
  predicate OfTds(y: Sys, e: Event) {
    e.Blank? ==> TdAt(y, e.first, e.last)
  }

  lemma EventStaysRight(y: Sys, e: Event)
    requires RightAhead(y) && MayHappen(y, e) && OfTds(y, e)
    ensures RightAhead(Happened(y, e))
  {
    match e
    case Drive(step) => DriveStaysRight(y, step);
    case Blank(first, last) => BlankStaysRight(y, first, last);
    case Move(seg, last) => MoveStaysRight(y, seg, last);
  }

  ghost predicate AllOfTds(y: Sys, events: seq<Event>)
    requires CanHappen(y, events)
    decreases |events|
  {
    events == [] || (OfTds(y, events[0]) && AllOfTds(Happened(y, events[0]), events[1..]))
  }

  lemma {:induction false} TraceStaysRight(y: Sys, events: seq<Event>)
    requires RightAhead(y) && CanHappen(y, events) && AllOfTds(y, events)
    ensures RightAhead(AllHappened(y, events))
    decreases |events|
  {
    if events != [] {
      EventStaysRight(y, events[0]);
      TraceStaysRight(Happened(y, events[0]), events[1..]);
    }
  }

  lemma InitialIsRight(y: Sys)
    requires Initial(y) && !y.r.quirk
    ensures RightAhead(y)
  {
    InitialIsWhole(y);
  }

  /** Put together by chain bits, links included, what the controller sees ahead are the TDs of
      the TRBs it sees. */
  lemma SeesTdsAhead(y: Sys)
    requires RightAhead(y)
    ensures var met, seen := Met(y.r.trbs, y.hw, y.ccs, y.r.Size()), Visible(y.r.trbs, y.hw, y.ccs, y.r.Size());
            Ended([], met) == Ended([], seen) && Unfinished([], met) == Unfinished([], seen)
  {
    MetWalk(y, y.hw, y.ccs, y.r.Size());
    VisibleWalk(y, y.hw, y.ccs, y.r.Size());
    if IsLink(y.r.trbs[y.hw]) { TrbAfterLink(y.r, y.hw); }
    LinksShorter(false, y.r.trbs, y.hw, y.First(), y.r.enq, Here(y));
    SameTdsAhead(y.r.trbs, y.hw, y.First(), Here(y));
  }

  lemma SameTdsAhead(s: seq<Trb>, a: nat, b: nat, here: bool)
    requires a < |s| && b < |s| && LinksRight(false, s, a, b, here) && here == (IsLink(s[a]) && s[a].body.chain)
    requires IsLink(s[a]) ==> !IsLink(s[Next(a, |s|)])
    ensures Ended([], Walked(s, a, b)) == Ended([], Window(s, a, b)) && Unfinished([], Walked(s, a, b)) == Unfinished([], Window(s, a, b))
  {
    if a == b || !IsLink(s[a]) {
      SameTds(s, a, b, []);
    } else {
      var next := Next(a, |s|);
      AnyBefore(s, next, b, here, false);
      SameTds(s, next, b, []);
      TdsOneMore([], s[a].body, Walked(s, next, b));
      assert Window(s, a, b) == Window(s, next, b);
    }
  }

  // -------------------------------------------------------- a TD is cancelled as a whole

  predicate NoTwoLinks(s: seq<Trb>) {
    forall p :: 0 <= p < |s| && IsLink(s[p]) ==> !IsLink(s[Next(p, |s|)])
  }

  /** What comes next on the way: a slot, or where the way ends. */
  function SlotAfter(s: seq<Trb>, a: nat, b: nat, i: nat): nat
    requires a < |s| && b < |s| && i < |Slots(s, a, b)|
  {
    if i + 1 < |Slots(s, a, b)| then Slots(s, a, b)[i + 1] else b
  }

  /** Two slots in a row are at most a link apart. */
  lemma {:induction false} SlotsInARow(s: seq<Trb>, a: nat, b: nat, i: nat)
    requires a < |s| && b < |s| && i < |Slots(s, a, b)| && NoTwoLinks(s)
    ensures var p, next := Slots(s, a, b)[i], SlotAfter(s, a, b, i);
            && p < |s| && !IsLink(s[p])
            && (next == Next(p, |s|) || (IsLink(s[Next(p, |s|)]) && next == Next(Next(p, |s|), |s|)))
    decreases Dist(a, b, |s|)
  {
    var a' := Next(a, |s|);
    var rest := Slots(s, a', b);
    if IsLink(s[a]) {
      assert Slots(s, a, b) == rest;
      SlotsInARow(s, a', b, i);
    } else if i != 0 {
      assert Slots(s, a, b) == [a] + rest;
      SlotsInARow(s, a', b, i - 1);
    } else if a' != b && IsLink(s[a']) {
      assert rest == Slots(s, Next(a', |s|), b);
    }
  }

  lemma {:induction false} SlotsOnWay(s: seq<Trb>, a: nat, b: nat, i: nat)
    requires a < |s| && b < |s| && i < |Slots(s, a, b)|
    ensures Slots(s, a, b)[i] < |s| && i <= Dist(a, Slots(s, a, b)[i], |s|) < Dist(a, b, |s|)
    decreases Dist(a, b, |s|)
  {
    if !IsLink(s[a]) && i == 0 { } else {
      SlotsOnWay(s, Next(a, |s|), b, if IsLink(s[a]) then i else i - 1);
    }
  }

  /** The chain bit before the slot that comes next. */
  lemma BeforeNextSlot(s: seq<Trb>, a: nat, b: nat, i: nat, before: bool)
    requires a < |s| && b < |s| && i + 1 < |Slots(s, a, b)| && NoTwoLinks(s)
    ensures Slots(s, a, b)[i] < |s| && Slots(s, a, b)[i + 1] < |s|
    ensures Before(s, a, Slots(s, a, b)[i + 1], before) == s[Slots(s, a, b)[i]].body.chain
  {
    SlotsInARow(s, a, b, i);
    SlotsOnWay(s, a, b, i);
    SlotsOnWay(s, a, b, i + 1);
    var p := Slots(s, a, b)[i];
    LinksAppend(false, s, a, p, before);
    if Slots(s, a, b)[i + 1] != Next(p, |s|) { LinksAppend(false, s, a, Next(p, |s|), before); }
  }

  /** A TRB in mid-TD is followed by another no-op if it is one, and by the TRB given if it is as given. */
  predicate KeptPair(seen: seq<Body>, given: seq<Body>, i: nat)
    requires i < |seen| == |given|
  {
    given[i].chain ==>
      if i + 1 < |seen| then (seen[i] == NOOP ==> seen[i + 1] == NOOP) && (seen[i] == given[i] ==> seen[i + 1] == given[i + 1])
      else seen[i] == given[i]
  }

  /** So from `c` on of a TD all is there or nothing. */
  predicate KeptWhole(seen: seq<Body>, given: seq<Body>, c: nat) {
    |seen| == |given| && forall i :: c <= i < |seen| ==> KeptPair(seen, given, i)
  }

  ghost predicate Keeps(y: Sys, given: seq<Body>) {
    Veils(y.published, given) && KeptWhole(y.published, given, |y.consumed|)
  }

  /** Inside the TD nothing is left out, and nothing outside is touched. */
  lemma BlankedInARow(y: Sys, first: nat, last: nat, i: nat)
    requires Inv(y) && !y.open && TdAt(y, first, last) && OnRing(y, first, last) && NoTwoLinks(y.r.trbs)
    requires i < |Slots(y.r.trbs, y.hw, y.r.enq)|
    requires var p := Slots(y.r.trbs, y.hw, y.r.enq)[i]; p < y.r.Size() && y.r.trbs[p].body.chain
    ensures var slots, n := Slots(y.r.trbs, y.hw, y.r.enq), y.r.Size();
            if i + 1 < |slots| then slots[i + 1] < n && (InTd(first, last, slots[i], n) <==> InTd(first, last, slots[i + 1], n))
            else !InTd(first, last, slots[i], n)
  {
    var s, n := y.r.trbs, y.r.Size();
    SlotsInARow(s, y.hw, y.r.enq, i);
    SlotsOnWay(s, y.hw, y.r.enq, i);
    var p := Slots(s, y.hw, y.r.enq)[i];
    NextInTd(first, last, p, n);
    NextInTd(first, last, Next(p, n), n);
    if i + 1 < |Slots(s, y.hw, y.r.enq)| {
      SlotsOnWay(s, y.hw, y.r.enq, i + 1);
      BeforeNextSlot(s, y.hw, y.r.enq, i, false);
    } else {
      EnqueueOutside(y, first, last);
    }
  }

  lemma EnqueueOutside(y: Sys, first: nat, last: nat)
    requires OnRing(y, first, last)
    ensures !InTd(first, last, y.r.enq, |y.r.trbs|)
  {
  }

  lemma BlankKeepsWhole(y: Sys, first: nat, last: nat, given: seq<Body>)
    requires Inv(y) && !y.open && TdAt(y, first, last) && OnRing(y, first, last) && Keeps(y, given)
    ensures Keeps(Blanked(y, first, last), given)
  {
    var z, c := Blanked(y, first, last), |y.consumed|;
    BlankVeils(y, first, last, given);
    BlankReplaces(y, first, last, 0);
    forall p | 0 <= p < y.r.Size() && IsLink(y.r.trbs[p]) ensures !IsLink(y.r.trbs[Next(p, y.r.Size())]) {
      TrbAfterLink(y.r, p);
    }
    forall i | c <= i < |z.published| ensures KeptPair(z.published, given, i) {
      if given[i].chain {
        assert KeptPair(y.published, given, i);
        BlankKeepsPair(y, first, last, given, i - c);
      }
    }
  }

  lemma BlankKeepsPair(y: Sys, first: nat, last: nat, given: seq<Body>, i: nat)
    requires Inv(y) && !y.open && TdAt(y, first, last) && OnRing(y, first, last) && Keeps(y, given) && NoTwoLinks(y.r.trbs)
    requires |y.consumed| + i < |y.published| && given[|y.consumed| + i].chain
    ensures var z, k := Blanked(y, first, last), |y.consumed| + i;
            |z.published| == |y.published| == |given| && KeptPair(z.published, given, k)
  {
    BlankReplaces(y, first, last, i);
    BlankReplaces(y, first, last, i + 1);
    SlotHolds(y, i);
    assert KeptPair(y.published, given, |y.consumed| + i);
    if y.published[|y.consumed| + i] == given[|y.consumed| + i] { BlankedInARow(y, first, last, i); }
  }

  /** The i-th TRB ahead of the controller is the one in its i-th slot. */
  lemma SlotHolds(y: Sys, i: nat)
    requires Inv(y) && !y.open && i < |Slots(y.r.trbs, y.hw, y.r.enq)|
    ensures Slots(y.r.trbs, y.hw, y.r.enq)[i] < y.r.Size() && |y.consumed| + i < |y.published|
    ensures y.r.trbs[Slots(y.r.trbs, y.hw, y.r.enq)[i]].body == y.published[|y.consumed| + i]
  {
    WindowIsSlots(y.r.trbs, y.hw, y.r.enq);
  }

  lemma LaterKeepsWhole(seen: seq<Body>, given: seq<Body>, c: nat, d: nat)
    requires KeptWhole(seen, given, c) && c <= d
    ensures KeptWhole(seen, given, d)
  {
  }

  lemma JoinKeepsWhole(seen: seq<Body>, given: seq<Body>, c: nat, more: seq<Body>)
    requires KeptWhole(seen, given, c)
    ensures KeptWhole(seen + more, given + more, c)
  {
    forall i | c <= i < |seen + more| ensures KeptPair(seen + more, given + more, i) {
      if i < |seen| { assert KeptPair(seen, given, i); }
    }
  }

  lemma DriveKeepsWhole(y: Sys, step: Step, l: Ledger)
    requires Veiled(y, l) && KeptWhole(y.published, l.given, |y.consumed|) && Enabled(y, step)
    ensures KeptWhole(Apply(y, step).published, Entered(l, step).given, |Apply(y, step).consumed|)
  {
    StepRecorded(y, step, Ledger(y.published, l.pending));
    TakenOrNot(y, step);
    LaterKeepsWhole(y.published, l.given, |y.consumed|, |Apply(y, step).consumed|);
    if step.Give? { JoinKeepsWhole(y.published, l.given, |y.consumed|, l.pending); }
  }

  lemma TakenOrNot(y: Sys, step: Step)
    requires Inv(y) && Enabled(y, step)
    ensures |y.consumed| <= |Apply(y, step).consumed|
  {
    if step.Prepare? { if step.ok { PreparedFields(y, step.n); } }
  }

  lemma PreparedFields(y: Sys, n: nat)
    requires Inv(y)
    ensures Prepared(y, n).consumed == y.consumed
  {
  }

  lemma EventKeepsWhole(y: Sys, e: Event, l: Ledger)
    requires Veiled(y, l) && KeptWhole(y.published, l.given, |y.consumed|) && MayHappen(y, e) && OfTds(y, e)
    ensures var z := Happened(y, e); KeptWhole(z.published, (if e.Drive? then Entered(l, e.step) else l).given, |z.consumed|)
  {
    match e
    case Drive(step) => DriveKeepsWhole(y, step, l);
    case Blank(first, last) => BlankKeepsWhole(y, first, last, l.given);
    case Move(seg, last) =>
      LaterKeepsWhole(y.published, l.given, |y.consumed|, |Happened(y, e).consumed|);
  }

  lemma {:induction false} TraceKeepsWhole(y: Sys, events: seq<Event>, l: Ledger)
    requires Veiled(y, l) && KeptWhole(y.published, l.given, |y.consumed|) && CanHappen(y, events) && AllOfTds(y, events)
    ensures var z := AllHappened(y, events);
            Veiled(z, Noted(l, events)) && KeptWhole(z.published, Noted(l, events).given, |z.consumed|)
    decreases |events|
  {
    if events != [] {
      EventKeepsWhole(y, events[0], l);
      EventNoted(y, events[0], l);
      TraceKeepsWhole(Happened(y, events[0]), events[1..], if events[0].Drive? then Entered(l, events[0].step) else l);
    }
  }

  /** Over every run from a fresh ring in which TDs are cancelled and moved past: what the
      controller sees ahead, put together by chain bits, links included, are the TDs of the TRBs
      it sees; and of each TD that was given and that it has not begun it sees all or only no-ops. */
  lemma TdsOverCancellations(y: Sys, events: seq<Event>)
    requires Initial(y) && !y.r.quirk && CanHappen(y, events) && AllOfTds(y, events)
    ensures var z := AllHappened(y, events);
            && Inv(z)
            && var met, seen := Met(z.r.trbs, z.hw, z.ccs, z.r.Size()), Visible(z.r.trbs, z.hw, z.ccs, z.r.Size());
               && Ended([], met) == Ended([], seen) && Unfinished([], met) == Unfinished([], seen)
               && Veils(z.consumed + seen, Noted(Ledger([], []), events).given)
               && KeptWhole(z.consumed + seen, Noted(Ledger([], []), events).given, |z.consumed|)
  {
    InitialIsRight(y);
    TraceStaysRight(y, events);
    TraceKeepsWhole(y, events, Ledger([], []));
    SeesTdsAhead(AllHappened(y, events));
    ControllerSeesPublished(AllHappened(y, events));
  }

  /** And every link that was handed over and is ahead of the controller is chained exactly if
      the TRB before it is. */
  lemma LinksOverCancellations(y: Sys, events: seq<Event>, p: nat)
    requires Initial(y) && !y.r.quirk && CanHappen(y, events) && AllOfTds(y, events) && HandedOver(AllHappened(y, events), p)
    ensures var s := AllHappened(y, events).r.trbs; 0 < p && (s[p].body.chain <==> s[p - 1].body.chain)
  {
    InitialIsRight(y);
    TraceStaysRight(y, events);
    LinkIsRight(AllHappened(y, events), p, Here(AllHappened(y, events)), false);
  }
}
