/** What the controller makes of the chain bits. It puts TRBs together to TDs by them, and a
    link it passes has one too. */
module RingTds {
  import opened RingModel
  import opened RingExpansion
  import opened RingFifo

  // ------------------------------------------------------------ TDs by chain bits

  /** What the controller executes, links included. */
  function Met(trbs: seq<Trb>, at: nat, ccs: bool, fuel: nat): seq<Body>
    requires at < |trbs|
    decreases fuel
  {
    if fuel == 0 || trbs[at].cycle != ccs then []
    else
      [trbs[at].body] +
      Met(trbs, Next(at, |trbs|), if IsLink(trbs[at]) && trbs[at].body.kind.toggle then !ccs else ccs, fuel - 1)
  }

  /** The TD under way after one more TRB. An unchained link ends it like any other TRB. */
  function Onto(td: seq<Body>, b: Body): seq<Body> {
    if !b.chain then [] else if b.kind.Link? then td else td + [b]
  }

  /** The TD that ends with a TRB, if one does. */
  function EndedBy(td: seq<Body>, b: Body): seq<seq<Body>> {
    if b.chain then [] else if !b.kind.Link? then [td + [b]] else if td == [] then [] else [td]
  }

  /** The TDs that end among these TRBs, with `td` under way before them. */
  function Ended(td: seq<Body>, met: seq<Body>): seq<seq<Body>>
    decreases |met|
  {
    if met == [] then [] else EndedBy(td, met[0]) + Ended(Onto(td, met[0]), met[1..])
  }

  /** The TD under way behind them. */
  function Unfinished(td: seq<Body>, met: seq<Body>): seq<Body>
    decreases |met|
  {
    if met == [] then td else Unfinished(Onto(td, met[0]), met[1..])
  }

  lemma TdsOneMore(td: seq<Body>, b: Body, met: seq<Body>)
    ensures Ended(td, [b] + met) == EndedBy(td, b) + Ended(Onto(td, b), met)
    ensures Unfinished(td, [b] + met) == Unfinished(Onto(td, b), met)
  {
    assert ([b] + met)[1..] == met;
  }

  lemma {:induction false} TdsAppend(td: seq<Body>, s: seq<Body>, t: seq<Body>)
    ensures Ended(td, s + t) == Ended(td, s) + Ended(Unfinished(td, s), t)
    ensures Unfinished(td, s + t) == Unfinished(Unfinished(td, s), t)
    decreases |s|
  {
    if s == [] {
      assert s + t == t;
    } else {
      assert (s + t)[1..] == s[1..] + t;
      TdsAppend(Onto(td, s[0]), s[1..], t);
    }
  }

  // ------------------------------------------------------ what the chain bits of links say

  /** A link continues the TD of the TRB before it, and only then. Where the controller wants
      links chained, one after the end of a TD is chained as well. */
  predicate Right(quirk: bool, before: bool, chain: bool) {
    if quirk then before || chain else chain == before
  }

  /** All links from `a` up to `b` are right; `before` is the chain bit before `a`. */
  predicate LinksRight(quirk: bool, trbs: seq<Trb>, a: nat, b: nat, before: bool)
    requires a < |trbs| && b < |trbs|
    decreases Dist(a, b, |trbs|)
  {
    a == b ||
    if IsLink(trbs[a]) then
      Right(quirk, before, trbs[a].body.chain) && LinksRight(quirk, trbs, Next(a, |trbs|), b, before)
    else
      LinksRight(quirk, trbs, Next(a, |trbs|), b, trbs[a].body.chain)
  }

  /** The chain bit of the last TRB other than a link before `b`. */
  function Before(trbs: seq<Trb>, a: nat, b: nat, before: bool): bool
    requires a < |trbs| && b < |trbs|
    decreases Dist(a, b, |trbs|)
  {
    if a == b then before
    else Before(trbs, Next(a, |trbs|), b, if IsLink(trbs[a]) then before else trbs[a].body.chain)
  }

  lemma {:induction false} LinksAppend(quirk: bool, s: seq<Trb>, a: nat, b: nat, before: bool)
    requires a < |s| && b < |s| && Next(b, |s|) != a
    ensures LinksRight(quirk, s, a, Next(b, |s|), before) <==>
            LinksRight(quirk, s, a, b, before) && (IsLink(s[b]) ==> Right(quirk, Before(s, a, b, before), s[b].body.chain))
    ensures Before(s, a, Next(b, |s|), before) == if IsLink(s[b]) then Before(s, a, b, before) else s[b].body.chain
    decreases Dist(a, b, |s|)
  {
    if a != b {
      LinksAppend(quirk, s, Next(a, |s|), b, if IsLink(s[a]) then before else s[a].body.chain);
    } else {
      assert LinksRight(quirk, s, Next(a, |s|), Next(a, |s|), if IsLink(s[a]) then before else s[a].body.chain);
    }
  }

  lemma {:induction false} LinksFrame(quirk: bool, s: seq<Trb>, s': seq<Trb>, a: nat, b: nat, before: bool)
    requires a < |s| == |s'| && b < |s|
    requires forall p :: 0 <= p < |s| && Dist(a, p, |s|) < Dist(a, b, |s|) ==> s[p].body == s'[p].body
    ensures LinksRight(quirk, s, a, b, before) <==> LinksRight(quirk, s', a, b, before)
    ensures Before(s, a, b, before) == Before(s', a, b, before)
    decreases Dist(a, b, |s|)
  {
    if a != b {
      assert Dist(a, a, |s|) == 0;
      var a' := Next(a, |s|);
      forall p | 0 <= p < |s| && Dist(a', p, |s|) < Dist(a', b, |s|) ensures s[p].body == s'[p].body {
        assert Dist(a, p, |s|) < Dist(a, b, |s|);
      }
      LinksFrame(quirk, s, s', a', b, if IsLink(s[a]) then before else s[a].body.chain);
    }
  }

  lemma {:induction false} LinksShorter(quirk: bool, s: seq<Trb>, a: nat, b: nat, c: nat, before: bool)
    requires a < |s| && b < |s| && c < |s| && Dist(a, b, |s|) <= Dist(a, c, |s|)
    requires LinksRight(quirk, s, a, c, before)
    ensures LinksRight(quirk, s, a, b, before)
    decreases Dist(a, b, |s|)
  {
    if a != b { LinksShorter(quirk, s, Next(a, |s|), b, c, if IsLink(s[a]) then before else s[a].body.chain); }
  }

  /** Inserting TRBs behind enqueue disturbs no walk that does not pass it. */
  lemma {:induction false} LinksInsert(quirk: bool, trbs: seq<Trb>, x: nat, added: seq<Trb>, enq: nat, a: nat, b: nat, before: bool)
    requires enq < x <= |trbs| && a < |trbs| && b < |trbs|
    requires Dist(a, b, |trbs|) <= Dist(a, enq, |trbs|)
    requires !(enq < a < x) && !(enq < b < x)
    ensures var s, a', b' := InsertAt(trbs, x, added), Shift(a, x, |added|), Shift(b, x, |added|);
            && (LinksRight(quirk, s, a', b', before) <==> LinksRight(quirk, trbs, a, b, before))
            && Before(s, a', b', before) == Before(trbs, a, b, before)
    decreases Dist(a, b, |trbs|)
  {
    if a != b {
      assert InsertAt(trbs, x, added)[Shift(a, x, |added|)] == trbs[a];
      LinksInsert(quirk, trbs, x, added, enq, Next(a, |trbs|), b, if IsLink(trbs[a]) then before else trbs[a].body.chain);
    }
  }

  // ----------------------------------------------------------------- the invariant

  /** The controller is inside a TD. */
  function Inside(y: Sys): bool {
    Unfinished([], y.consumed) != []
  }

  /** Every link handed over and ahead of the controller is right. Enqueue rests on a link only
      after the end of a TD; `some` asks that of a link with nothing ahead of the controller too. */
  ghost predicate ChainedFrom(y: Sys, before: bool, some: bool) {
    && y.hw < |y.r.trbs| && y.r.enq < |y.r.trbs|
    && LinksRight(y.r.quirk, y.r.trbs, y.hw, y.r.enq, before)
    && (IsLink(y.r.trbs[y.r.enq]) && (some || y.hw != y.r.enq) ==> !Before(y.r.trbs, y.hw, y.r.enq, before))
  }

  ghost predicate Chained(y: Sys) {
    ChainedFrom(y, Inside(y), true)
  }

  ghost predicate Whole(y: Sys) {
    Inv(y) && Chained(y)
  }

  /** Where links are to be chained, a TRB that more are to follow is chained. (A control
      transfer of several TDs handed over at once is not written so.) */
  predicate Orderly(quirk: bool, step: Step) {
    quirk && step.Write? && step.more ==> step.body.chain
  }

  lemma PutKeepsChained(y: Sys, body: Body, before: bool, some: bool)
    requires Inv(y) && ChainedFrom(y, before, some) && Data(body) && !IsLink(y.r.trbs[y.r.enq]) && 2 <= y.r.Room()
    ensures var z := Put(y, body);
            && Inv(z) && z.hw != z.r.enq
            && LinksRight(z.r.quirk, z.r.trbs, z.hw, z.r.enq, before)
            && Before(z.r.trbs, z.hw, z.r.enq, before) == body.chain
  {
    var z := Put(y, body);
    PutKeepsInv(y, body);
    PutKeepsOrder(y, body);
    LinksFrame(y.r.quirk, y.r.trbs, z.r.trbs, y.hw, y.r.enq, before);
    LinksAppend(y.r.quirk, z.r.trbs, y.hw, y.r.enq, before);
  }

  lemma CrossKeepsChained(y: Sys, chain: bool, before: bool, some: bool)
    requires Inv(y) && IsLink(y.r.trbs[y.r.enq]) && LinksRight(y.r.quirk, y.r.trbs, y.hw, y.r.enq, before)
    requires Right(y.r.quirk, Before(y.r.trbs, y.hw, y.r.enq, before), chain)
    ensures ChainedFrom(Cross(y, chain), before, some)
  {
    var z := Cross(y, chain);
    CrossKeepsOrder(y, chain);
    CrossLinkFacts(y.r, chain);
    CrossedLink(y, chain);
    LinksFrame(y.r.quirk, y.r.trbs, z.r.trbs, y.hw, y.r.enq, before);
    LinksAppend(y.r.quirk, z.r.trbs, y.hw, y.r.enq, before);
  }

  /** The link just crossed carries the chain bit it was given. */
  lemma CrossedLink(y: Sys, chain: bool)
    requires y.r.enq < |y.r.trbs| && IsLink(y.r.trbs[y.r.enq])
    ensures var s := Cross(y, chain).r.trbs; |s| == |y.r.trbs| && IsLink(s[y.r.enq]) && s[y.r.enq].body.chain == chain
    ensures forall p :: 0 <= p < |y.r.trbs| && p != y.r.enq ==> Cross(y, chain).r.trbs[p] == y.r.trbs[p]
  {
  }

  lemma WriteKeepsChained(y: Sys, body: Body, more: bool, before: bool, some: bool)
    requires Inv(y) && ChainedFrom(y, before, some) && Data(body) && !IsLink(y.r.trbs[y.r.enq]) && 2 <= y.r.Room()
    requires Orderly(y.r.quirk, Write(body, more))
    ensures y.r.enq + 1 < |y.r.trbs| && ChainedFrom(Written(y, body, more), before, some)
  {
    NotLinkMeansNext(y);
    PutKeepsChained(y, body, before, some);
    WrittenIsPut(y, body, more);
    if IsLink(y.r.trbs[y.r.enq + 1]) && (body.chain || more) {
      CrossKeepsChained(Put(y, body), if y.r.quirk then y.r.trbs[y.r.enq + 1].body.chain else body.chain, before, some);
    }
  }

  lemma GrowKeepsChained(y: Sys, k: nat, before: bool, some: bool)
    requires Inv(y) && ChainedFrom(y, before, some) && !LinkAhead(y)
    ensures ChainedFrom(Grow(y, k), before, some)
  {
    if k == 0 {
      GrowByNothing(y);
    } else {
      GrownLinks(y, k, before);
      GrownEnqueue(y, k);
    }
  }

  lemma GrownLinks(y: Sys, k: nat, before: bool)
    requires Inv(y) && !LinkAhead(y) && k != 0
    ensures var z := Grow(y, k);
            && z.hw < |z.r.trbs| && z.r.enq < |z.r.trbs|
            && (LinksRight(y.r.quirk, z.r.trbs, z.hw, z.r.enq, before) <==> LinksRight(y.r.quirk, y.r.trbs, y.hw, y.r.enq, before))
            && Before(z.r.trbs, z.hw, z.r.enq, before) == Before(y.r.trbs, y.hw, y.r.enq, before)
  {
    SegEnd(y.r);
    SplicedAt(y.r, k, y.hw);
    SplicedAt(y.r, k, y.r.enq);
    LinksInsert(y.r.quirk, y.r.trbs, End(y.r), FreshSegments(y.r.t, k, y.r.pcs, y.r.enqSeg + 1 == y.r.segs),
                y.r.enq, y.hw, y.r.enq, before);
  }

  lemma GrownEnqueue(y: Sys, k: nat)
    requires Inv(y) && k != 0
    ensures var z := Grow(y, k);
            && z.r.quirk == y.r.quirk && z.consumed == y.consumed && z.r.enq < |z.r.trbs|
            && (IsLink(z.r.trbs[z.r.enq]) <==> IsLink(y.r.trbs[y.r.enq])) && (z.hw == z.r.enq <==> y.hw == y.r.enq)
  {
    SegEnd(y.r);
    LastIsLink(y.r);
    SplicedAt(y.r, k, y.r.enq);
  }

  lemma PrepareKeepsChained(y: Sys, n: nat, before: bool)
    requires Inv(y) && ChainedFrom(y, before, true) && (0 < ExpansionNeeded(y.r, n) ==> !LinkAhead(y))
    ensures ChainedFrom(Prepared(y, n), before, true)
  {
    GrownIsChained(y, n, before, true);
    var y1 := Grow(y, ExpansionNeeded(y.r, n));
    if IsLink(y1.r.trbs[y1.r.enq]) { CrossKeepsChained(y1, y1.r.quirk, before, true); }
  }

  lemma GrownIsChained(y: Sys, n: nat, before: bool, some: bool)
    requires Inv(y) && ChainedFrom(y, before, some) && (0 < ExpansionNeeded(y.r, n) ==> !LinkAhead(y))
    ensures Inv(Grow(y, ExpansionNeeded(y.r, n))) && ChainedFrom(Grow(y, ExpansionNeeded(y.r, n)), before, some)
  {
    var k := ExpansionNeeded(y.r, n);
    if 0 < k {
      ExpansionMeansRoom(y);
      GrowKeepsInv(y, k);
      GrowKeepsChained(y, k, before, some);
    } else {
      GrowByNothing(y);
    }
  }

  lemma GiveKeepsChained(y: Sys, before: bool, some: bool)
    requires Inv(y) && ChainedFrom(y, before, some) && y.open
    ensures ChainedFrom(Publish(y), before, some)
  {
    LinksFrame(y.r.quirk, y.r.trbs, Publish(y).r.trbs, y.hw, y.r.enq, before);
  }

  lemma UndoKeepsChained(y: Sys, before: bool, some: bool)
    requires Inv(y) && ChainedFrom(y, before, some) && y.open
    ensures ChainedFrom(Rollback(y), before, some)
  {
    LinksShorter(y.r.quirk, y.r.trbs, y.hw, y.start, y.r.enq, before);
    LinksFrame(y.r.quirk, y.r.trbs, Rollback(y).r.trbs, y.hw, y.start, before);
  }

  lemma DoneKeepsChained(y: Sys, seg: nat, last: nat, before: bool, some: bool)
    requires ChainedFrom(y, before, some) && last + 1 < |y.r.trbs|
    ensures ChainedFrom(Retire(y, seg, last), before, some)
  {
  }

  lemma TakeKeepsChained(y: Sys)
    requires Whole(y)
    ensures Chained(Consume(y))
  {
    if y.r.trbs[y.hw].cycle == y.ccs { TakenChained(y); }
  }

  lemma TakenChained(y: Sys)
    requires Whole(y) && y.r.trbs[y.hw].cycle == y.ccs
    ensures Chained(Consume(y))
  {
    NotPast(y);
    var b := y.r.trbs[y.hw].body;
    if !b.kind.Link? {
      TdsAppend([], y.consumed, [b]);
      assert Unfinished(Unfinished([], y.consumed), [b]) == Onto(Unfinished([], y.consumed), b);
    }
  }

  /** What the controller takes was published. */
  lemma NotPast(y: Sys)
    requires Inv(y) && y.r.trbs[y.hw].cycle == y.ccs
    ensures y.hw != y.First() && y.hw != y.r.enq
  {
  }

  lemma StepKeepsChained(y: Sys, step: Step)
    requires Whole(y) && Enabled(y, step) && Orderly(y.r.quirk, step)
    ensures Chained(Apply(y, step))
  {
    if step.Write? { WriteKeepsChained(y, step.body, step.more, Inside(y), true); }
    else if step.Prepare? { if step.ok { PrepareKeepsChained(y, step.n, Inside(y)); } }
    else { RestKeepsChained(y, step); }
  }

  lemma RestKeepsChained(y: Sys, step: Step)
    requires Whole(y) && Enabled(y, step) && !step.Write? && !step.Prepare?
    ensures Chained(Apply(y, step))
  {
    match step
    case Take => TakeKeepsChained(y);
    case Give => GiveKeepsChained(y, Inside(y), true);
    case Undo => UndoKeepsChained(y, Inside(y), true);
    case Done(seg, last) => DoneKeepsChained(y, seg, last, Inside(y), true);
  }

  lemma StepKeepsQuirk(y: Sys, step: Step)
    requires Inv(y) && Enabled(y, step)
    ensures Apply(y, step).r.quirk == y.r.quirk
  {
    if step.Prepare? { if step.ok { PrepareKeepsQuirk(y, step.n); } }
    else if step.Write? { NotLinkMeansNext(y); }
  }

  lemma PrepareKeepsQuirk(y: Sys, n: nat)
    requires Inv(y)
    ensures Prepared(y, n).r.quirk == y.r.quirk
  {
  }

  predicate AllOrderly(quirk: bool, steps: seq<Step>) {
    forall i :: 0 <= i < |steps| ==> Orderly(quirk, steps[i])
  }

  lemma {:induction false} RunKeepsChained(y: Sys, steps: seq<Step>)
    requires Whole(y) && CanRun(y, steps) && AllOrderly(y.r.quirk, steps)
    ensures Whole(Run(y, steps)) && Run(y, steps).r.quirk == y.r.quirk
    decreases |steps|
  {
    if steps != [] {
      StepKeepsChained(y, steps[0]);
      StepKeepsInv(y, steps[0]);
      StepKeepsQuirk(y, steps[0]);
      RunKeepsChained(Apply(y, steps[0]), steps[1..]);
    }
  }

  lemma InitialIsWhole(y: Sys)
    requires Initial(y)
    ensures Whole(y)
  {
    InitialInv(y);
    LinkInSeg(y.r, 0, 0);
  }

  // ------------------------------------------------------------- what the controller sees

  lemma {:induction false} MetWalk(y: Sys, at: nat, c: bool, fuel: nat)
    requires Inv(y) && at < y.r.Size()
    requires Dist(y.hw, at, y.r.Size()) <= Dist(y.hw, y.First(), y.r.Size())
    requires c <==> (if at <= y.r.enq then y.r.pcs else !y.r.pcs)
    requires Dist(at, y.First(), y.r.Size()) < fuel
    ensures Met(y.r.trbs, at, c, fuel) == Walked(y.r.trbs, at, y.First())
    decreases fuel
  {
    var n := y.r.Size();
    if at == y.First() {
      assert y.r.trbs[at].cycle != c;
    } else {
      assert at != y.r.enq;
      assert y.r.trbs[at].cycle == c;
      var c' := if IsLink(y.r.trbs[at]) && y.r.trbs[at].body.kind.toggle then !c else c;
      LastIsLink(y.r);
      MetWalk(y, Next(at, n), c', fuel - 1);
    }
  }

  /** All TRBs met when walking from `a` up to `b`. */
  function Walked(trbs: seq<Trb>, a: nat, b: nat): seq<Body>
    requires a < |trbs| && b < |trbs|
    decreases Dist(a, b, |trbs|)
  {
    if a == b then [] else [trbs[a].body] + Walked(trbs, Next(a, |trbs|), b)
  }

  /** Where every link is right, the links make no difference to the TDs. */
  lemma {:induction false} SameTds(trbs: seq<Trb>, a: nat, b: nat, td: seq<Body>)
    requires a < |trbs| && b < |trbs| && LinksRight(false, trbs, a, b, td != [])
    ensures Ended(td, Walked(trbs, a, b)) == Ended(td, Window(trbs, a, b))
    ensures Unfinished(td, Walked(trbs, a, b)) == Unfinished(td, Window(trbs, a, b))
    decreases Dist(a, b, |trbs|)
  {
    if a != b {
      var body, next := trbs[a].body, Next(a, |trbs|);
      SameTds(trbs, next, b, Onto(td, body));
      TdsOneMore(td, body, Walked(trbs, next, b));
      if body.kind.Link? {
        assert Onto(td, body) == td && EndedBy(td, body) == [];
        assert Window(trbs, a, b) == Window(trbs, next, b);
      } else {
        TdsOneMore(td, body, Window(trbs, next, b));
      }
    }
  }

  /** The TDs the controller has finished and those it sees ahead, put together by its own
      rule from all it meets, are those of what was published. */
  lemma SeesWholeTds(y: Sys)
    requires Whole(y) && !y.r.quirk
    ensures var td, met := Unfinished([], y.consumed), Met(y.r.trbs, y.hw, y.ccs, y.r.Size());
            && Ended([], y.consumed) + Ended(td, met) == Ended([], y.published)
            && Unfinished(td, met) == Unfinished([], y.published)
  {
    var td := Unfinished([], y.consumed);
    MetWalk(y, y.hw, y.ccs, y.r.Size());
    LinksShorter(false, y.r.trbs, y.hw, y.First(), y.r.enq, Inside(y));
    SameTds(y.r.trbs, y.hw, y.First(), td);
    TdsAppend([], y.consumed, Window(y.r.trbs, y.hw, y.First()));
  }

  /** Over every run from a fresh ring where links carry the chain bit over: the controller
      puts together exactly the TDs that were given, one by one and whole, however many links
      lie in them and wherever they were crossed. */
  lemma TdsOverRuns(y: Sys, steps: seq<Step>)
    requires Initial(y) && !y.r.quirk && CanRun(y, steps)
    ensures var z := Run(y, steps);
            && Inv(z)
            && var td, met, given := Unfinished([], z.consumed), Met(z.r.trbs, z.hw, z.ccs, z.r.Size()), Recorded(Ledger([], []), steps).given;
               && Ended([], z.consumed) + Ended(td, met) == Ended([], given)
               && Unfinished(td, met) == Unfinished([], given)
  {
    InitialIsWhole(y);
    RunKeepsChained(y, steps);
    SeesWholeTds(Run(y, steps));
    RunRecorded(y, steps, Ledger([], []));
  }

  // ------------------------------------------------------------------ link by link

  /** The link at `p` lies behind the controller's position and was handed over. */
  predicate HandedOver(y: Sys, p: nat) {
    && p < |y.r.trbs| && y.hw < |y.r.trbs| && y.r.enq < |y.r.trbs| && IsLink(y.r.trbs[p]) && p != y.hw
    && Dist(y.hw, p, |y.r.trbs|) < Dist(y.hw, y.r.enq, |y.r.trbs|)
  }

  /** In any run a link that was handed over is chained exactly if the TRB before it is; where
      links are to be chained, it is chained if the TRB before it is not. */
  lemma LinksOverRuns(y: Sys, steps: seq<Step>, p: nat)
    requires Initial(y) && CanRun(y, steps) && AllOrderly(y.r.quirk, steps) && HandedOver(Run(y, steps), p)
    ensures var z := Run(y, steps);
            && 0 < p && z.r.quirk == y.r.quirk
            && (!z.r.quirk ==> (z.r.trbs[p].body.chain <==> z.r.trbs[p - 1].body.chain))
            && (z.r.quirk ==> z.r.trbs[p - 1].body.chain || z.r.trbs[p].body.chain)
  {
    InitialIsWhole(y);
    RunKeepsChained(y, steps);
    LinkIsRight(Run(y, steps), p, Inside(Run(y, steps)), true);
  }

  lemma LinkIsRight(y: Sys, p: nat, before: bool, some: bool)
    requires Inv(y) && ChainedFrom(y, before, some) && HandedOver(y, p)
    ensures 0 < p && Right(y.r.quirk, y.r.trbs[p - 1].body.chain, y.r.trbs[p].body.chain)
  {
    TrbBeforeLink(y.r, p);
    LinksShorter(y.r.quirk, y.r.trbs, y.hw, Next(p, y.r.Size()), y.r.enq, before);
    LinksAppend(y.r.quirk, y.r.trbs, y.hw, p, before);
    LinksAppend(y.r.quirk, y.r.trbs, y.hw, p - 1, before);
  }

  lemma TrbBeforeLink(r: RingState, p: nat)
    requires r.Geometry() && p < r.Size() && IsLink(r.trbs[p])
    ensures 0 < p && !IsLink(r.trbs[p - 1])
  {
    var s := SegmentOf(r, p, r.segs);
    LinkInSeg(r, s, p);
    LinkInSeg(r, s, p - 1);
  }

  lemma TrbAfterLink(r: RingState, p: nat)
    requires r.Geometry() && p < r.Size() && IsLink(r.trbs[p])
    ensures !IsLink(r.trbs[Next(p, r.Size())])
  {
    var s := SegmentOf(r, p, r.segs);
    NextOfLink(r, s, p);
    LinkInSeg(r, r.NextSeg(s), Next(p, r.Size()));
  }

  lemma {:induction false} SegmentOf(r: RingState, p: nat, segs: nat) returns (s: nat)
    requires r.Geometry() && segs <= r.segs && p < Times(segs, r.t)
    ensures s < segs && r.InSeg(s, p)
    decreases segs
  {
    if p < Times(segs - 1, r.t) { s := SegmentOf(r, p, segs - 1); } else { s := segs - 1; }
  }

  /** Where links are to be chained, writing TRBs leaves the chain bits of links as they are. */
  lemma WriteLeavesLinks(y: Sys, body: Body, more: bool, p: nat)
    requires Inv(y) && y.r.quirk && y.r.enq + 1 < |y.r.trbs| && p < |y.r.trbs| && IsLink(y.r.trbs[p]) && p != y.r.enq
    ensures p < |Written(y, body, more).r.trbs| && Written(y, body, more).r.trbs[p].body == y.r.trbs[p].body
  {
  }

  /** Preparing steps off a link that is then chained if links are to be, and else is not. */
  lemma PrepareChainsLink(y: Sys, n: nat)
    requires Inv(y) && (0 < ExpansionNeeded(y.r, n) ==> !LinkAhead(y)) && IsLink(y.r.trbs[y.r.enq])
    ensures var z := Prepared(y, n).r.trbs; y.r.enq < |z| && IsLink(z[y.r.enq]) && (z[y.r.enq].body.chain <==> y.r.quirk)
  {
    SplicedAt(y.r, ExpansionNeeded(y.r, n), y.r.enq);
    SegEnd(y.r);
    LinkInSeg(y.r, y.r.enqSeg, y.r.enq);
  }
}
