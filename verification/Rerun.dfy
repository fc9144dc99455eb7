/** Why a money call that is run again does no harm: each kind of call commits at most once per
    intent, whatever happens in between. */
module Rerun {
  import opened StateMachine
  import opened Tables
  import opened Money
  import opened Lifecycle
  import Runs

  /** The rank an intent has reached once a call of this kind has committed on it. */
  function RankAfter(call: Call): nat {
    match call
    case Confirm(_) => Rank(Authorized)
    case Capture(_) => Rank(Captured)
    case Settle => Rank(Settled)
    case _ => Rank(Failed)
  }

  /** The same operation, whatever the bank answers or the amount is. */
  predicate SameKind(a: Call, b: Call) {
    match (a, b)
    case (Confirm(_), Confirm(_)) => true
    case (Capture(_), Capture(_)) => true
    case (Refund(_), Refund(_)) => true
    case (Release, Release) => true
    case (Settle, Settle) => true
    case (Expire, Expire) => true
    case _ => false
  }

  lemma TooLate(i: Id, pi: Intent, call: Call)
    requires pi.status != RequiresConfirmation && Rank(pi.status) >= RankAfter(call)
    ensures !Decide(i, pi, call).Write?
  {
  }

  lemma WritesReach(i: Id, pi: Intent, call: Call)
    requires Decide(i, pi, call).Write?
    ensures Rank(Decide(i, pi, call).next) >= RankAfter(call)
  {
  }

  ghost predicate Past(s: Tables, i: Id, rank: nat) {
    Inv(s) && i < |s.intents| && Rank(s.intents[i].status) >= rank
  }

  lemma StepClimbs(s: Tables, op: Op, s': Tables, i: Id, rank: nat)
    requires Past(s, i, rank) && Step(s, op, s')
    ensures Past(s', i, rank)
  {
    StepKeepsInv(s, op, s');
    if op.Run? && op.req.id == i {
      assert IntentTold(s, i);
      PlansAreSound(s, op.req);
      PersistedChangesAreWalks(s.intents[i].mode, s.intents[i].status, Serve(s, op.req).next);
    }
  }

  lemma CommitReaches(s: Tables, req: Request, now: Time, s': Tables)
    requires Inv(s) && Step(s, Run(req, now), s')
    ensures Past(s', req.id, RankAfter(req.call))
  {
    StepKeepsInv(s, Run(req, now), s');
    WritesReach(req.id, s.intents[req.id], req.call);
  }

  /** Once a call has committed on an intent, a later call of the same kind on it never writes again:
      it is refused (or, in a sweep, skipped). A handler that re-runs after its claim was lost can
      therefore not capture, refund, release, settle or confirm twice. */
  lemma CommitsAtMostOnce(trace: seq<Tables>, ops: seq<Op>, m: nat, n: nat, again: Request)
    requires SerialRun(trace, ops) && m < n < |trace|
    requires ops[m].Run? && ops[m].req.id == again.id && SameKind(ops[m].req.call, again.call)
    ensures !Serve(trace[n], again).Write?
  {
    var req := ops[m].req;
    assert Runs.Linked(Steps(), trace, ops, m);
    RunsKeepInv(trace, ops, m);
    CommitReaches(trace[m], req, ops[m].at, trace[m + 1]);
    var r := RankAfter(req.call);
    forall s, op, s' | Past(s, req.id, r) && Step(s, op, s')
      ensures Past(s', req.id, r)
    {
      StepClimbs(s, op, s', req.id, r);
    }
    Runs.Onwards(s => Past(s, req.id, r), EMPTY, Steps(), trace, ops, m + 1, n);
    assert IntentTold(trace[n], req.id);
    AllLedgers(trace[n].intents[req.id].mode, StatusesOf(trace[n].outbox, req.id));
    TooLate(req.id, trace[n].intents[req.id], again.call);
  }

  /** In the ledger: at most one capture and one settlement per intent, and at most one way out. */
  lemma OneOfEach(s: Tables, i: Id)
    requires Inv(s) && i < |s.intents|
    ensures var kinds := multiset(KindsSeen(s.txns, i));
      && kinds[CaptureTxn] <= 1 && kinds[SettleTxn] <= 1
      && kinds[RefundTxn] + kinds[ReleaseTxn] <= 1
  {
    assert IntentTold(s, i);
    AllLedgers(s.intents[i].mode, StatusesOf(s.outbox, i));
  }

  /** The exact reach of the expiry sweep's own re-check: under the lock it fails an intent if and
      only if nothing has been captured yet, so also one that was authorized after the listing. */
  lemma ExpiryReaches(s: Tables, i: Id)
    requires Inv(s) && i < |s.intents|
    ensures var pi := s.intents[i];
      Serve(s, Request(i, pi.merchant, Expire)) ==
        if pi.status == Created || pi.status == Authorized then Write([], Failed) else Skip
  {
    assert IntentTold(s, i);
    AllLedgers(s.intents[i].mode, StatusesOf(s.outbox, i));
  }
}
