/** Finite runs of a step relation, and induction over them. */
module Runs {
  /** A step relation: a state, what was done, and the state after it. */
  type Relation<!S, !O> = (S, O, S) -> bool

  /** `ops[k]` leads from `trace[k]` to `trace[k + 1]`. */
  ghost predicate IsRun<S(!new), O(!new)>(init: S, step: Relation<S, O>, trace: seq<S>, ops: seq<O>) {
    && |trace| == |ops| + 1
    && trace[0] == init
    && forall k :: 0 <= k < |ops| ==> Linked(step, trace, ops, k)
  }

  ghost predicate Linked<S(!new), O(!new)>(step: Relation<S, O>, trace: seq<S>, ops: seq<O>, k: nat)
    requires k < |ops| && k + 1 < |trace|
  {
    step(trace[k], ops[k], trace[k + 1])
  }

  /** What every step keeps, every run keeps. */
  lemma {:induction false} Induction<S(!new), O(!new)>(p: S -> bool, init: S, step: Relation<S, O>, trace: seq<S>, ops: seq<O>, n: nat)
    requires IsRun(init, step, trace, ops) && n < |trace|
    requires p(init)
    requires forall s, op, s' :: p(s) && step(s, op, s') ==> p(s')
    ensures p(trace[n])
  {
    if n > 0 {
      Induction(p, init, step, trace, ops, n - 1);
      assert Linked(step, trace, ops, n - 1);
    }
  }

  /** What every step keeps, once true, stays true. */
  lemma {:induction false} Onwards<S(!new), O(!new)>(p: S -> bool, init: S, step: Relation<S, O>, trace: seq<S>, ops: seq<O>, m: nat, n: nat)
    requires IsRun(init, step, trace, ops) && m <= n < |trace|
    requires p(trace[m])
    requires forall s, op, s' :: p(s) && step(s, op, s') ==> p(s')
    ensures p(trace[n])
  {
    if n > m {
      Onwards(p, init, step, trace, ops, m, n - 1);
      assert Linked(step, trace, ops, n - 1);
    }
  }

  /** What any two steps of one operation keep between two states, two runs of the same operations keep. */
  lemma {:induction false} PairInduction<S(!new), O(!new)>(p: (S, S) -> bool, init: S, step: Relation<S, O>, trace: seq<S>, trace': seq<S>,
                                                         ops: seq<O>, n: nat)
    requires IsRun(init, step, trace, ops) && IsRun(init, step, trace', ops) && n < |trace|
    requires p(init, init)
    requires forall s, t, op, s', t' :: p(s, t) && step(s, op, s') && step(t, op, t') ==> p(s', t')
    ensures p(trace[n], trace'[n])
  {
    if n > 0 {
      PairInduction(p, init, step, trace, trace', ops, n - 1);
      assert Linked(step, trace, ops, n - 1) && Linked(step, trace', ops, n - 1);
    }
  }

  /** A run followed by one more step. */
  lemma Extend<S(!new), O(!new)>(init: S, step: Relation<S, O>, trace: seq<S>, ops: seq<O>, op: O, s: S)
    requires IsRun(init, step, trace, ops) && step(trace[|trace| - 1], op, s)
    ensures IsRun(init, step, trace + [s], ops + [op])
  {
    var trace', ops' := trace + [s], ops + [op];
    forall k | 0 <= k < |ops'|
      ensures Linked(step, trace', ops', k)
    {
      assert k < |ops| ==> Linked(step, trace, ops, k);
    }
  }
}
