/** A log of committed operations fixes what the tables say: two serial runs of it differ at most in the
    ids that accounts and events were given. */
module Replay {
  import opened StateMachine
  import opened Tables
  import opened Money
  import opened ClosedForm
  import Runs

  // ---------------------------------------------------------------- the same but for ids

  /** Entries that book the same amounts on accounts of the same key. */
  ghost predicate AlikeEntry(s: Tables, t: Tables, a: Entry, b: Entry) {
    && a.account in s.accounts && b.account in t.accounts
    && s.accounts[a.account].key == t.accounts[b.account].key
    && a.debit == b.debit && a.credit == b.credit && a.currency == b.currency
  }

  ghost predicate AlikeTxn(s: Tables, t: Tables, k: nat)
    requires k < |s.txns| && k < |t.txns|
  {
    var a, b := s.txns[k], t.txns[k];
    && a.merchant == b.merchant && a.kind == b.kind && a.ref == b.ref && |a.entries| == |b.entries|
    && forall e :: 0 <= e < |a.entries| ==> AlikeEntry(s, t, a.entries[e], b.entries[e])
  }

  ghost predicate AlikeEvent(a: Event, b: Event) {
    a.merchant == b.merchant && a.eventType == b.eventType && a.payload == b.payload
  }

  ghost predicate AlikeTxns(s: Tables, t: Tables) {
    |s.txns| == |t.txns| && forall k :: 0 <= k < |s.txns| ==> AlikeTxn(s, t, k)
  }

  ghost predicate AlikeOutbox(s: Tables, t: Tables) {
    |s.outbox| == |t.outbox| && forall k :: 0 <= k < |s.outbox| ==> AlikeEvent(s.outbox[k], t.outbox[k])
  }

  ghost predicate Alike(s: Tables, t: Tables) {
    && s.intents == t.intents
    && (forall key :: HasKey(s.accounts, key) <==> HasKey(t.accounts, key))
    && AlikeTxns(s, t)
    && AlikeOutbox(s, t)
  }

  // ---------------------------------------------------------------- one step

  /** A write leaves accounts of exactly the keys there were and the keys of its legs. */
  lemma KeysAfter(s: Tables, i: Id, legs: seq<Leg>, next: Status, now: Time, s': Tables, key: AccountKey)
    requires i < |s.intents| && Wrote(s, s', i, legs, next, now)
    ensures HasKey(s'.accounts, key) <==> HasKey(s.accounts, key) || key in LegKeys(legs)
  {
    if HasKey(s.accounts, key) {
      var a :| a in s.accounts && s.accounts[a].key == key;
      assert a in s'.accounts && s'.accounts[a].key == key;
    }
    if key in LegKeys(legs) {
      var k :| 0 <= k < |legs| && legs[k].key == key;
      var e := s'.txns[|s.txns|].entries[k];
      assert e.account in s'.accounts && s'.accounts[e.account].key == key;
    }
  }

  lemma OldTxnsAlike(s: Tables, t: Tables, s': Tables, t': Tables, k: nat)
    requires AlikeTxns(s, t) && k < |s.txns| <= |s'.txns| && |t.txns| <= |t'.txns|
    requires s'.txns[k] == s.txns[k] && t'.txns[k] == t.txns[k]
    requires forall a :: a in s.accounts ==> a in s'.accounts && s'.accounts[a] == s.accounts[a]
    requires forall a :: a in t.accounts ==> a in t'.accounts && t'.accounts[a] == t.accounts[a]
    ensures AlikeTxn(s', t', k)
  {
    assert AlikeTxn(s, t, k);
    forall e | 0 <= e < |s.txns[k].entries|
      ensures AlikeEntry(s', t', s'.txns[k].entries[e], t'.txns[k].entries[e])
    {
      assert AlikeEntry(s, t, s.txns[k].entries[e], t.txns[k].entries[e]);
    }
  }

  /** Two writes of one plan on tables that are alike. */
  lemma WritesAlike(s: Tables, t: Tables, i: Id, legs: seq<Leg>, next: Status, now: Time, s': Tables, t': Tables)
    requires Alike(s, t) && i < |s.intents| && Wrote(s, s', i, legs, next, now) && Wrote(t, t', i, legs, next, now)
    ensures Alike(s', t')
  {
    forall key
      ensures HasKey(s'.accounts, key) <==> HasKey(t'.accounts, key)
    {
      KeysAfter(s, i, legs, next, now, s', key);
      KeysAfter(t, i, legs, next, now, t', key);
    }
    forall k | 0 <= k < |s'.txns|
      ensures k < |t'.txns| && AlikeTxn(s', t', k)
    {
      if k < |s.txns| {
        OldTxnsAlike(s, t, s', t', k);
      } else {
        NewTxnsAlike(s, t, i, legs, next, s', t');
      }
    }
    forall k | 0 <= k < |s'.outbox|
      ensures k < |t'.outbox| && AlikeEvent(s'.outbox[k], t'.outbox[k])
    {
      assert k < |s.outbox| ==> AlikeEvent(s.outbox[k], t.outbox[k]) && s'.outbox[k] == s.outbox[k] && t'.outbox[k] == t.outbox[k];
    }
  }

  lemma NewTxnsAlike(s: Tables, t: Tables, i: Id, legs: seq<Leg>, next: Status, s': Tables, t': Tables)
    requires |s.txns| == |t.txns| && s.intents == t.intents && i < |s.intents| && legs != []
    requires Posted(s, s', i, legs, next) && Posted(t, t', i, legs, next)
    ensures AlikeTxn(s', t', |s.txns|)
  {
    var a, b := s'.txns[|s.txns|], t'.txns[|t.txns|];
    assert [a.kind] == [b.kind] && [a.kind][0] == a.kind && [b.kind][0] == b.kind;
  }

  lemma StepsAlike(s: Tables, t: Tables, op: Op, s': Tables, t': Tables)
    requires Alike(s, t) && Step(s, op, s') && Step(t, op, t')
    ensures Alike(s', t')
  {
    match op
    case Open(_, _, _) =>
      forall k | 0 <= k < |s.txns|
        ensures AlikeTxn(s', t', k)
      {
        OldTxnsAlike(s, t, s', t', k);
      }
    case Run(req, now) =>
      assert Serve(s, req) == Serve(t, req);
      WritesAlike(s, t, req.id, Serve(s, req).legs, Serve(s, req).next, now, s', t');
  }

  // ---------------------------------------------------------------- whole runs

  /** Two serial runs of one log are alike throughout. */
  lemma LogFixesTables(trace: seq<Tables>, trace': seq<Tables>, ops: seq<Op>, n: nat)
    requires SerialRun(trace, ops) && SerialRun(trace', ops) && n < |trace|
    ensures Alike(trace[n], trace'[n])
  {
    forall s, t, op, s', t' | Alike(s, t) && Step(s, op, s') && Step(t, op, t')
      ensures Alike(s', t')
    {
      StepsAlike(s, t, op, s', t');
    }
    Runs.PairInduction((s, t) => Alike(s, t), EMPTY, Steps(), trace, trace', ops, n);
  }

  lemma {:induction false} EntriesSumAlike(s: Tables, t: Tables, a: seq<Entry>, b: seq<Entry>, sel: Selection)
    requires |a| == |b| && forall e :: 0 <= e < |a| ==> AlikeEntry(s, t, a[e], b[e])
    ensures EntrySum(s.accounts, a, sel) == EntrySum(t.accounts, b, sel)
  {
    if a != [] {
      EntriesSumAlike(s, t, a[..|a| - 1], b[..|b| - 1], sel);
      assert AlikeEntry(s, t, a[|a| - 1], b[|b| - 1]);
    }
  }

  lemma {:induction false} BalancesUpToAlike(s: Tables, t: Tables, n: nat, sel: Selection)
    requires AlikeTxns(s, t) && n <= |s.txns|
    ensures BalanceIn(s.accounts, s.txns[..n], sel) == BalanceIn(t.accounts, t.txns[..n], sel)
  {
    if n > 0 {
      BalancesUpToAlike(s, t, n - 1, sel);
      assert AlikeTxn(s, t, n - 1);
      EntriesSumAlike(s, t, s.txns[n - 1].entries, t.txns[n - 1].entries, sel);
      assert s.txns[..n][..n - 1] == s.txns[..n - 1] && t.txns[..n][..n - 1] == t.txns[..n - 1];
    }
  }

  /** Tables that are alike have the same balances. */
  lemma BalancesAlike(s: Tables, t: Tables, sel: Selection)
    requires Alike(s, t)
    ensures Balance(s, sel) == Balance(t, sel)
  {
    BalancesUpToAlike(s, t, |s.txns|, sel);
    assert s.txns[..|s.txns|] == s.txns && t.txns[..|t.txns|] == t.txns;
  }
}
