/** Runs given state by state: what leads from each state to the next leads from the first to the last. */
module RingChains {
  import opened RingModel
  import opened RingExpansion
  import opened RingFifo

  /** The steps from the k-th to before the n-th. */
  ghost function Listed(g: nat -> Step, k: nat, n: nat): seq<Step>
    requires k <= n
    decreases n - k
  {
    if k == n then [] else [g(k)] + Listed(g, k + 1, n)
  }

  /** A step leads from one state to another. */
  ghost predicate Onward(y: Sys, step: Step, z: Sys) {
    Inv(y) && Enabled(y, step) && Apply(y, step) == z
  }

  /** The same as a value, so that the bookkeeping over a whole run need not look inside. */
  type Relation = (Sys, Step, Sys) -> bool

  ghost function Leading(): Relation {
    (y: Sys, step: Step, z: Sys) => Onward(y, step, z)
  }

  ghost predicate Faithful(rel: Relation) {
    forall y: Sys, step: Step, z: Sys :: rel(y, step, z) ==> Onward(y, step, z)
  }

  lemma LeadingIsFaithful()
    ensures Faithful(Leading())
  {
  }

  ghost predicate LeadsBy(rel: Relation, f: nat -> Sys, g: nat -> Step, j: nat) {
    rel(f(j), g(j), f(j + 1))
  }

  type Journey = (Sys, seq<Step>, Sys) -> bool

  ghost predicate Runs(y: Sys, steps: seq<Step>, z: Sys) {
    CanRun(y, steps) && Run(y, steps) == z
  }

  ghost function Running(): Journey {
    (y: Sys, steps: seq<Step>, z: Sys) => Runs(y, steps, z)
  }

  /** A step in front of a journey makes a longer one. */
  ghost predicate Extends(rel: Relation, goes: Journey) {
    && (forall y: Sys :: goes(y, [], y))
    && (forall y: Sys, step: Step, z: Sys, rest: seq<Step>, w: Sys ::
          rel(y, step, z) && goes(z, rest, w) ==> goes(y, [step] + rest, w))
  }

  lemma {:induction false} ChainGoes(rel: Relation, goes: Journey, f: nat -> Sys, g: nat -> Step, k: nat, n: nat)
    requires Extends(rel, goes) && k <= n && forall j: nat :: k <= j < n ==> LeadsBy(rel, f, g, j)
    ensures goes(f(k), Listed(g, k, n), f(n))
    decreases n - k
  {
    if k < n {
      ChainGoes(rel, goes, f, g, k + 1, n);
      assert LeadsBy(rel, f, g, k);
    }
  }

  lemma OneMoreStep(y: Sys, step: Step, z: Sys, rest: seq<Step>, w: Sys)
    requires Onward(y, step, z) && Runs(z, rest, w)
    ensures Runs(y, [step] + rest, w)
  {
    assert ([step] + rest)[1..] == rest;
  }

  lemma RunsExtend(rel: Relation)
    requires Faithful(rel)
    ensures Extends(rel, Running())
  {
    forall y: Sys, step: Step, z: Sys, rest: seq<Step>, w: Sys | rel(y, step, z) && Running()(z, rest, w)
      ensures Running()(y, [step] + rest, w)
    {
      OneMoreStep(y, step, z, rest, w);
    }
  }

  /** Steps that each lead on make up a run. */
  lemma ChainRuns(rel: Relation, f: nat -> Sys, g: nat -> Step, k: nat, n: nat)
    requires Faithful(rel) && k <= n && forall j: nat :: k <= j < n ==> LeadsBy(rel, f, g, j)
    ensures CanRun(f(k), Listed(g, k, n)) && Run(f(k), Listed(g, k, n)) == f(n)
  {
    RunsExtend(rel);
    ChainGoes(rel, Running(), f, g, k, n);
  }

  ghost predicate Reached(y: Sys, z: Sys) {
    exists steps :: CanRun(y, steps) && Run(y, steps) == z
  }

  lemma ChainReaches(rel: Relation, f: nat -> Sys, g: nat -> Step, n: nat)
    requires Faithful(rel) && forall j: nat :: j < n ==> LeadsBy(rel, f, g, j)
    ensures Reached(f(0), f(n))
  {
    ChainRuns(rel, f, g, 0, n);
  }
}
