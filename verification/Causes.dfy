/** Where each event and each ledger transaction comes from: a committed call that entitles to it. */
module Causes {
  import opened StateMachine
  import opened Tables
  import opened Money
  import Runs

  /** The calls that may announce a status; a refund is of the announced amount, or of part of it. */
  predicate Announces(call: Call, p: Payload) {
    match p.status
    case Created => false
    case RequiresConfirmation => false
    case Authorized => call == Confirm(Approved)
    case Failed => call == Confirm(Declined) || call == Expire
    case Captured => call == Capture(Approved)
    case Settled => call == Settle && p.mode == Direct
    case HeldInEscrow => call == Settle && p.mode == Escrow
    case Released => call == Release && p.mode == Escrow
    case Refunded => call == Refund(p.amount)
    case PartiallyRefunded => call.Refund? && 0 < call.amount < p.amount && p.mode == Direct
  }

  /** The calls that may post a transaction; its first entry debits the amount a refund names. */
  predicate Entitles(call: Call, t: Txn) {
    match t.kind
    case CaptureTxn => call == Capture(Approved)
    case SettleTxn => call == Settle
    case RefundTxn => |t.entries| == 2 && call == Refund(t.entries[0].debit)
    case ReleaseTxn => call == Release
  }

  /** The m-th operation of the log is a call on that intent, by its merchant. */
  predicate CallsOn(op: Op, id: Id, merchant: Id) {
    op.Run? && op.req.id == id && op.req.merchant == merchant
  }

  ghost predicate EventCaused(trace: seq<Tables>, ops: seq<Op>, e: Event, k: nat, m: nat)
    requires m < |ops| && m < |trace|
  {
    |trace[m].outbox| == k && CallsOn(ops[m], e.payload.id, e.merchant) && Announces(ops[m].req.call, e.payload)
  }

  ghost predicate TxnCaused(trace: seq<Tables>, ops: seq<Op>, t: Txn, k: nat, m: nat)
    requires m < |ops| && m < |trace|
  {
    |trace[m].txns| == k && CallsOn(ops[m], t.ref, t.merchant) && Entitles(ops[m].req.call, t)
  }

  lemma PlanAnnounces(i: Id, pi: Intent, call: Call)
    requires Decide(i, pi, call).Write? && (call.Refund? ==> call.amount > 0)
    ensures Announces(call, Payload(i, Decide(i, pi, call).next, pi.amount, pi.currency, pi.mode))
  {
  }

  /** The calls that may post what a status change posts. */
  predicate MayPost(call: Call, next: Status, legs: seq<Leg>) {
    && (KindsOf(next) == [CaptureTxn] ==> call == Capture(Approved))
    && (KindsOf(next) == [SettleTxn] ==> call == Settle)
    && (KindsOf(next) == [RefundTxn] ==> |legs| == 2 && call == Refund(legs[0].debit))
    && (KindsOf(next) == [ReleaseTxn] ==> call == Release)
  }

  lemma PlanEntitles(i: Id, pi: Intent, call: Call)
    requires Decide(i, pi, call).Write?
    ensures MayPost(call, Decide(i, pi, call).next, Decide(i, pi, call).legs)
  {
  }

  lemma StepCauses(s: Tables, req: Request, now: Time, s': Tables)
    requires Step(s, Run(req, now), s')
    ensures |s'.outbox| == |s.outbox| + 1 && s.outbox <= s'.outbox
    ensures var e := s'.outbox[|s.outbox|]; CallsOn(Run(req, now), e.payload.id, e.merchant) && Announces(req.call, e.payload)
  {
    PlanAnnounces(req.id, s.intents[req.id], req.call);
  }

  lemma StepEntitles(s: Tables, req: Request, now: Time, s': Tables)
    requires Step(s, Run(req, now), s')
    ensures s.txns <= s'.txns && |s'.txns| <= |s.txns| + 1
    ensures |s'.txns| == |s.txns| + 1 ==>
      var t := s'.txns[|s.txns|]; CallsOn(Run(req, now), t.ref, t.merchant) && Entitles(req.call, t)
  {
    PlanEntitles(req.id, s.intents[req.id], req.call);
    PostedEntitles(s, s', req.id, Serve(s, req).legs, Serve(s, req).next, req.call);
  }

  lemma PostedEntitles(s: Tables, s': Tables, i: Id, legs: seq<Leg>, next: Status, call: Call)
    requires i < |s.intents| && Posted(s, s', i, legs, next)
    requires MayPost(call, next, legs)
    ensures s.txns <= s'.txns && |s'.txns| <= |s.txns| + 1
    ensures |s'.txns| == |s.txns| + 1 ==>
      var t := s'.txns[|s.txns|]; t.ref == i && t.merchant == s.intents[i].merchant && Entitles(call, t)
  {
  }

  /** Each event was announced by the call that was committed when the outbox had just the events before
      it: an authorization by an approved confirmation, a failure by a declined one or an expiry, a capture
      by an approved capture, and so on. */
  lemma {:induction false} EventsHaveCauses(trace: seq<Tables>, ops: seq<Op>, n: nat, k: nat) returns (m: nat)
    requires SerialRun(trace, ops) && n < |trace| && k < |trace[n].outbox|
    ensures m < n && EventCaused(trace, ops, trace[n].outbox[k], k, m)
  {
    assert n > 0;
    var s, s' := trace[n - 1], trace[n];
    assert Runs.Linked(Steps(), trace, ops, n - 1);
    if ops[n - 1].Run? {
      StepCauses(s, ops[n - 1].req, ops[n - 1].at, s');
    }
    if k < |s.outbox| {
      assert s'.outbox[k] == s.outbox[k];
      m := EventsHaveCauses(trace, ops, n - 1, k);
    } else {
      m := n - 1;
    }
  }

  /** Each ledger transaction was posted by the call that entitles to it. */
  lemma {:induction false} TxnsHaveCauses(trace: seq<Tables>, ops: seq<Op>, n: nat, k: nat) returns (m: nat)
    requires SerialRun(trace, ops) && n < |trace| && k < |trace[n].txns|
    ensures m < n && TxnCaused(trace, ops, trace[n].txns[k], k, m)
  {
    assert n > 0;
    var s, s' := trace[n - 1], trace[n];
    assert Runs.Linked(Steps(), trace, ops, n - 1);
    if ops[n - 1].Run? {
      StepEntitles(s, ops[n - 1].req, ops[n - 1].at, s');
    }
    if k < |s.txns| {
      assert s'.txns[k] == s.txns[k];
      m := TxnsHaveCauses(trace, ops, n - 1, k);
    } else {
      m := n - 1;
    }
  }
}
