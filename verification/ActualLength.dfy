/** How many bytes a bulk transfer has moved when the controller stops at one of its
    TRBs. */
module ActualLength {
  import opened RingModel
  import opened RingExpansion
  import opened RingFifo

  /** The lengths of the TRBs met when walking from `a` up to `b`, leaving out no-ops
      and links (sum_trb_lengths). */
  function WalkLen(trbs: seq<Trb>, a: nat, b: nat): nat
    requires a < |trbs| && b < |trbs|
    decreases Dist(a, b, |trbs|)
  {
    if a == b then 0 else LenOf(trbs[a]) + WalkLen(trbs, Next(a, |trbs|), b)
  }

  function LenOf(trb: Trb): nat {
    if trb.body.kind.Noop? || IsLink(trb) then 0 else trb.body.len
  }

  function TotalLen(bodies: seq<Body>): nat {
    if bodies == [] then 0 else bodies[0].len + TotalLen(bodies[1..])
  }

  lemma {:induction false} TotalAppend(s: seq<Body>, t: seq<Body>)
    ensures TotalLen(s + t) == TotalLen(s) + TotalLen(t)
    decreases |s|
  {
    if s == [] {
      assert s + t == t;
    } else {
      assert (s + t)[1..] == s[1..] + t;
      TotalAppend(s[1..], t);
    }
  }

  /** Only no-ops and links lie between dequeue and the first TRB of the TD. */
  predicate OnlySkipped(trbs: seq<Trb>, a: nat, b: nat)
    requires a < |trbs| && b < |trbs|
    decreases Dist(a, b, |trbs|)
  {
    a == b || ((trbs[a].body.kind.Noop? || IsLink(trbs[a])) && OnlySkipped(trbs, Next(a, |trbs|), b))
  }

  lemma {:induction false} SkippedCountNothing(trbs: seq<Trb>, a: nat, f: nat, x: nat)
    requires a < |trbs| && f < |trbs| && x < |trbs|
    requires OnlySkipped(trbs, a, f) && Dist(a, f, |trbs|) <= Dist(a, x, |trbs|)
    ensures WalkLen(trbs, a, x) == WalkLen(trbs, f, x)
    decreases Dist(a, f, |trbs|)
  {
    if a != f { SkippedCountNothing(trbs, Next(a, |trbs|), f, x); }
  }

  /** None of the TD's own TRBs has been turned into a no-op. */
  predicate Live(bodies: seq<Body>) {
    forall i :: 0 <= i < |bodies| ==> !bodies[i].kind.Noop?
  }

  lemma {:induction false} WalkIsTotal(trbs: seq<Trb>, f: nat, x: nat)
    requires f < |trbs| && x < |trbs| && Live(Window(trbs, f, x))
    ensures WalkLen(trbs, f, x) == TotalLen(Window(trbs, f, x))
    decreases Dist(f, x, |trbs|)
  {
    if f != x {
      var rest := Window(trbs, Next(f, |trbs|), x);
      var head := if IsLink(trbs[f]) then [] else [trbs[f].body];
      assert Window(trbs, f, x) == head + rest;
      assert forall i :: 0 <= i < |rest| ==> rest[i] == (head + rest)[|head| + i];
      if !IsLink(trbs[f]) { assert (head + rest)[0] == trbs[f].body; }
      WalkIsTotal(trbs, Next(f, |trbs|), x);
      TotalAppend(head, rest);
    }
  }

  datatype Code = StoppedShortPacket | StoppedLengthInvalid | Other

  /** What process_bulk_intr_td reports for an event at TRB `x` of a transfer of
      `requested` bytes whose last TRB is `last`; `remaining` comes with the event. */
  function BulkLength(trbs: seq<Trb>, deq: nat, x: nat, last: nat, requested: nat, code: Code, remaining: nat): int
    requires deq < |trbs| && x < |trbs|
  {
    if remaining > requested then 0
    else match code
      case StoppedShortPacket => remaining
      case StoppedLengthInvalid => WalkLen(trbs, deq, x)
      case Other =>
        if x == last then requested - remaining
        else WalkLen(trbs, deq, x) + trbs[x].body.len - remaining
  }

  /** The TD at positions `f` to `last` carries the data TRBs `bodies`, `requested`
      bytes in all. */
  ghost predicate Carries(trbs: seq<Trb>, deq: nat, f: nat, last: nat, bodies: seq<Body>, requested: nat) {
    && deq < |trbs| && f < |trbs| && last < |trbs| && Next(last, |trbs|) != f
    && Dist(deq, f, |trbs|) <= Dist(deq, last, |trbs|)
    && OnlySkipped(trbs, deq, f)
    && !IsLink(trbs[last])
    && bodies == Window(trbs, f, last) + [trbs[last].body] && Live(bodies)
    && TotalLen(bodies) == requested
  }

  /** At every TRB of the TD the length reported is that of all TRBs before it plus what
      this one has moved, whichever of the two formulas was used; a stop on a short packet
      comes with that sum itself, which is taken over. */
  lemma BulkLengthIsProgress(trbs: seq<Trb>, deq: nat, f: nat, last: nat, bodies: seq<Body>, requested: nat,
                             x: nat, remaining: nat)
    requires Carries(trbs, deq, f, last, bodies, requested)
    requires x < |trbs| && !IsLink(trbs[x]) && Dist(f, x, |trbs|) <= Dist(f, last, |trbs|)
    requires remaining <= trbs[x].body.len
    ensures Dist(f, x, |trbs|) <= Dist(f, last, |trbs|) && |Window(trbs, f, x)| < |bodies|
    ensures bodies[|Window(trbs, f, x)|] == trbs[x].body
    ensures bodies[..|Window(trbs, f, x)|] == Window(trbs, f, x)
    ensures BulkLength(trbs, deq, x, last, requested, Other, remaining)
            == TotalLen(bodies[..|Window(trbs, f, x)|]) + (trbs[x].body.len - remaining)
    ensures BulkLength(trbs, deq, x, last, requested, StoppedLengthInvalid, remaining)
            == TotalLen(bodies[..|Window(trbs, f, x)|])
    ensures var moved := TotalLen(bodies[..|Window(trbs, f, x)|]) + (trbs[x].body.len - remaining);
            BulkLength(trbs, deq, x, last, requested, StoppedShortPacket, moved) == moved
  {
    var before := Window(trbs, f, x);
    var rest := TrbsBehind(trbs, f, last, bodies, x);
    ThroughTd(deq, f, x, last, |trbs|);
    SkippedCountNothing(trbs, deq, f, x);
    assert forall i :: 0 <= i < |before| ==> before[i] == bodies[i];
    WalkIsTotal(trbs, f, x);
    TotalInThree(before, trbs[x].body, rest);
  }

  /** No event makes the report exceed what was requested, and one whose residue does makes it
      nothing. */
  lemma BulkLengthIsBounded(trbs: seq<Trb>, deq: nat, f: nat, last: nat, bodies: seq<Body>, requested: nat,
                            x: nat, code: Code, remaining: nat)
    requires Carries(trbs, deq, f, last, bodies, requested)
    requires x < |trbs| && !IsLink(trbs[x]) && Dist(f, x, |trbs|) <= Dist(f, last, |trbs|)
    ensures BulkLength(trbs, deq, x, last, requested, code, remaining) <= requested
    ensures remaining <= trbs[x].body.len ==> 0 <= BulkLength(trbs, deq, x, last, requested, code, remaining)
    ensures remaining > requested ==> BulkLength(trbs, deq, x, last, requested, code, remaining) == 0
  {
    BulkLengthIsProgress(trbs, deq, f, last, bodies, requested, x, 0);
    var k := |Window(trbs, f, x)|;
    assert bodies == bodies[..k] + ([trbs[x].body] + bodies[k + 1..]);
    TotalInThree(bodies[..k], trbs[x].body, bodies[k + 1..]);
  }

  /** The TD's TRBs before the one at `x`, that one, and those behind it. */
  lemma TrbsBehind(trbs: seq<Trb>, f: nat, last: nat, bodies: seq<Body>, x: nat) returns (rest: seq<Body>)
    requires f < |trbs| && last < |trbs| && !IsLink(trbs[last]) && bodies == Window(trbs, f, last) + [trbs[last].body]
    requires x < |trbs| && !IsLink(trbs[x]) && Dist(f, x, |trbs|) <= Dist(f, last, |trbs|)
    ensures bodies == Window(trbs, f, x) + ([trbs[x].body] + rest) && (x == last ==> rest == [])
  {
    WindowSplit(trbs, f, x, last);
    if x == last {
      assert Window(trbs, x, last) == [];
      rest := [];
    } else {
      rest := Window(trbs, Next(x, |trbs|), last) + [trbs[last].body];
      assert Window(trbs, x, last) == [trbs[x].body] + Window(trbs, Next(x, |trbs|), last);
    }
  }

  lemma TotalInThree(before: seq<Body>, body: Body, rest: seq<Body>)
    ensures TotalLen(before + ([body] + rest)) == TotalLen(before) + body.len + TotalLen(rest)
    ensures (before + ([body] + rest))[..|before|] == before
  {
    TotalAppend(before, [body] + rest);
    assert ([body] + rest)[1..] == rest;
  }

  lemma ThroughTd(deq: nat, f: nat, x: nat, last: nat, n: nat)
    requires deq < n && f < n && x < n && last < n
    requires Dist(deq, f, n) <= Dist(deq, last, n) && Dist(f, x, n) <= Dist(f, last, n)
    ensures Dist(deq, f, n) <= Dist(deq, x, n)
  {
  }
}
