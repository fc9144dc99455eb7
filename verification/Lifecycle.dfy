/** What every serial run keeps about each intent: its history of status changes, as its outbox rows
    tell it, and the ledger transactions that history dictates. */
module Lifecycle {
  import opened StateMachine
  import opened Tables
  import opened Posting
  import opened Money
  import Runs

  // ---------------------------------------------------------------- observations

  /** The statuses an intent's outbox rows announce, oldest first. */
  ghost function StatusesOf(outbox: seq<Event>, i: Id): seq<Status> {
    if outbox == [] then []
    else
      var e := outbox[|outbox| - 1];
      StatusesOf(outbox[..|outbox| - 1], i) + (if e.payload.id == i then [e.payload.status] else [])
  }

  /** The kinds of an intent's ledger transactions, oldest first. */
  ghost function KindsSeen(txns: seq<Txn>, i: Id): seq<TxnKind> {
    if txns == [] then []
    else
      var t := txns[|txns| - 1];
      KindsSeen(txns[..|txns| - 1], i) + (if t.ref == i then [t.kind] else [])
  }

  /** How much the refund transactions of an intent moved. */
  ghost function RefundTotal(txns: seq<Txn>, i: Id): int {
    if txns == [] then 0
    else
      var t := txns[|txns| - 1];
      RefundTotal(txns[..|txns| - 1], i) + (if t.ref == i && t.kind == RefundTxn then Debits(t.entries) else 0)
  }

  lemma Appended(s: Tables, t: Txn, e: Event, i: Id)
    ensures StatusesOf(s.outbox + [e], i) == StatusesOf(s.outbox, i) + (if e.payload.id == i then [e.payload.status] else [])
    ensures KindsSeen(s.txns + [t], i) == KindsSeen(s.txns, i) + (if t.ref == i then [t.kind] else [])
    ensures RefundTotal(s.txns + [t], i)
         == RefundTotal(s.txns, i) + (if t.ref == i && t.kind == RefundTxn then Debits(t.entries) else 0)
  {
    assert (s.outbox + [e])[..|s.outbox|] == s.outbox;
    assert (s.txns + [t])[..|s.txns|] == s.txns;
  }

  // ---------------------------------------------------------------- histories

  /** The status changes the service persists. Confirm's created-to-authorized write is the only one
      that is two edges of the graph; a partial refund is never written before settlement. */
  predicate Persists(mode: Mode, from: Status, to: Status) {
    match from
    case Created => to == Authorized || to == Failed
    case Authorized => to == Captured || to == Failed
    case Captured => if mode.Direct? then to == Settled || to == Refunded else to == HeldInEscrow
    case Settled => mode.Direct? && (to == Refunded || to == PartiallyRefunded)
    case HeldInEscrow => mode.Escrow? && (to == Released || to == Refunded)
    case _ => false
  }

  function LastOf(history: seq<Status>): Status {
    if history == [] then Created else history[|history| - 1]
  }

  ghost predicate History(mode: Mode, history: seq<Status>) {
    history == [] ||
    var front := history[..|history| - 1];
    History(mode, front) && Persists(mode, LastOf(front), history[|history| - 1])
  }

  /** The ledger transactions a history dictates. */
  ghost function PostedFor(history: seq<Status>): seq<TxnKind> {
    if history == [] then [] else PostedFor(history[..|history| - 1]) + KindsOf(history[|history| - 1])
  }

  lemma Extended(mode: Mode, history: seq<Status>, next: Status)
    requires History(mode, history) && Persists(mode, LastOf(history), next)
    ensures History(mode, history + [next]) && LastOf(history + [next]) == next
    ensures PostedFor(history + [next]) == PostedFor(history) + KindsOf(next)
  {
    assert (history + [next])[..|history|] == history;
  }

  /** Every persisted change is an edge of the mode's graph, or a path of two edges through
      requires_confirmation. */
  lemma PersistedChangesAreWalks(mode: Mode, from: Status, to: Status)
    requires Persists(mode, from, to)
    ensures CanTransition(mode, from, to)
         || (from == Created && to == Authorized
             && CanTransition(mode, from, RequiresConfirmation) && CanTransition(mode, RequiresConfirmation, to))
    ensures Rank(from) < Rank(to)
  {
  }

  /** The histories that can end in a status: at most four changes, nothing after a terminal one. */
  predicate HistoryShape(mode: Mode, status: Status, h: seq<Status>) {
    match status
    case Created => h == []
    case RequiresConfirmation => false
    case Authorized => h == [Authorized]
    case Failed => h == [Failed] || h == [Authorized, Failed]
    case Captured => h == [Authorized, Captured]
    case Settled => mode.Direct? && h == [Authorized, Captured, Settled]
    case HeldInEscrow => mode.Escrow? && h == [Authorized, Captured, HeldInEscrow]
    case Released => mode.Escrow? && h == [Authorized, Captured, HeldInEscrow, Released]
    case PartiallyRefunded => mode.Direct? && h == [Authorized, Captured, Settled, PartiallyRefunded]
    case Refunded =>
      if mode.Direct? then h == [Authorized, Captured, Refunded] || h == [Authorized, Captured, Settled, Refunded]
      else h == [Authorized, Captured, HeldInEscrow, Refunded]
  }

  lemma ShapeGrows(mode: Mode, h: seq<Status>, x: Status)
    requires HistoryShape(mode, LastOf(h), h) && Persists(mode, LastOf(h), x)
    ensures HistoryShape(mode, x, h + [x])
  {
    assert [] + [x] == [x] && [Authorized] + [x] == [Authorized, x];
    assert [Authorized, Captured] + [x] == [Authorized, Captured, x];
    assert [Authorized, Captured, Settled] + [x] == [Authorized, Captured, Settled, x];
    assert [Authorized, Captured, HeldInEscrow] + [x] == [Authorized, Captured, HeldInEscrow, x];
  }

  lemma {:induction false} AllHistories(mode: Mode, h: seq<Status>)
    requires History(mode, h)
    ensures HistoryShape(mode, LastOf(h), h)
  {
    if h != [] {
      var front, x := h[..|h| - 1], h[|h| - 1];
      AllHistories(mode, front);
      ShapeGrows(mode, front, x);
      assert h == front + [x];
    }
  }

  /** The ledgers a status can stand on. Only a refunded direct intent has two: refunded before the
      settlement, necessarily in full, or after it. */
  predicate LedgerShape(mode: Mode, status: Status, kinds: seq<TxnKind>) {
    match status
    case Created => kinds == []
    case RequiresConfirmation => false
    case Authorized => kinds == []
    case Failed => kinds == []
    case Captured => kinds == [CaptureTxn]
    case Settled => mode.Direct? && kinds == [CaptureTxn, SettleTxn]
    case HeldInEscrow => mode.Escrow? && kinds == [CaptureTxn, SettleTxn]
    case Released => mode.Escrow? && kinds == [CaptureTxn, SettleTxn, ReleaseTxn]
    case PartiallyRefunded => mode.Direct? && kinds == [CaptureTxn, SettleTxn, RefundTxn]
    case Refunded =>
      kinds == [CaptureTxn, SettleTxn, RefundTxn] || (mode.Direct? && kinds == [CaptureTxn, RefundTxn])
  }

  /** A history dictates a ledger of the shape its last status stands on. */
  lemma {:induction false} AllLedgers(mode: Mode, h: seq<Status>)
    requires History(mode, h)
    ensures LedgerShape(mode, LastOf(h), PostedFor(h))
  {
    if h != [] {
      AllLedgers(mode, h[..|h| - 1]);
      var k := KindsOf(h[|h| - 1]);
      assert k != [] ==> [] + k == [k[0]] && [CaptureTxn] + k == [CaptureTxn, k[0]];
      assert k != [] ==> [CaptureTxn, SettleTxn] + k == [CaptureTxn, SettleTxn, k[0]];
    }
  }

  // ---------------------------------------------------------------- the invariant

  /** What Create's validation promises about a row for the rest of its life. */
  predicate IntentOk(pi: Intent) {
    && pi.amount > 0
    && (pi.mode.Direct? ==> pi.payee.None? && pi.fee.None?)
    && (pi.mode.Escrow? ==> pi.payee.Some? && pi.fee.Some? && 0 <= pi.fee.value <= pi.amount)
  }

  /** How much a status says has been refunded. */
  predicate RefundMatches(pi: Intent, refunded: int) {
    match pi.status
    case Refunded => refunded == pi.amount
    case PartiallyRefunded => 0 < refunded < pi.amount
    case _ => refunded == 0
  }

  /** An intent's outbox rows are its history; its ledger transactions are those of that history. */
  ghost predicate Told(pi: Intent, history: seq<Status>, kinds: seq<TxnKind>, refunded: int) {
    && IntentOk(pi)
    && History(pi.mode, history)
    && LastOf(history) == pi.status
    && kinds == PostedFor(history)
    && RefundMatches(pi, refunded)
  }

  ghost predicate IntentTold(s: Tables, i: Id)
    requires i < |s.intents|
  {
    Told(s.intents[i], StatusesOf(s.outbox, i), KindsSeen(s.txns, i), RefundTotal(s.txns, i))
  }

  /** A transaction balances, and books only accounts of its own merchant and currency. */
  ghost predicate TxnOk(s: Tables, k: nat)
    requires k < |s.txns|
  {
    var t := s.txns[k];
    && t.ref < |s.intents|
    && t.merchant == s.intents[t.ref].merchant
    && WellFormed(t.entries)
    && Debits(t.entries) == Credits(t.entries)
    && forall e :: 0 <= e < |t.entries| ==> EntryOk(s, t, t.entries[e])
  }

  ghost predicate EntryOk(s: Tables, t: Txn, e: Entry)
    requires t.ref < |s.intents|
  {
    && e.account in s.accounts
    && s.accounts[e.account].key.merchant == t.merchant
    && s.accounts[e.account].key.currency == e.currency == s.intents[t.ref].currency
  }

  ghost predicate EventOk(s: Tables, k: nat)
    requires k < |s.outbox|
  {
    var e := s.outbox[k];
    && e.payload.id < |s.intents|
    && var pi := s.intents[e.payload.id];
    && e.merchant == pi.merchant
    && e.eventType == EventTypeFor(e.payload.status)
    && e.payload.amount == pi.amount && e.payload.currency == pi.currency && e.payload.mode == pi.mode
  }

  ghost predicate AccountsOk(accounts: map<Id, Account>) {
    && UniqueKeys(accounts)
    && forall a :: a in accounts ==> accounts[a].typ == TypeOf(accounts[a].key.kind)
  }

  ghost predicate DistinctEvents(outbox: seq<Event>) {
    forall k :: 0 <= k < |outbox| ==> FreshEvent(outbox[..k], outbox[k].eventId)
  }

  ghost predicate Inv(s: Tables) {
    && AccountsOk(s.accounts)
    && (forall k :: 0 <= k < |s.txns| ==> TxnOk(s, k))
    && (forall k :: 0 <= k < |s.outbox| ==> EventOk(s, k))
    && DistinctEvents(s.outbox)
    && (forall i :: 0 <= i < |s.intents| ==> IntentTold(s, i))
  }

  // ---------------------------------------------------------------- its preservation

  lemma {:induction false} NothingYet(txns: seq<Txn>, outbox: seq<Event>, i: Id)
    requires forall k :: 0 <= k < |txns| ==> txns[k].ref != i
    requires forall k :: 0 <= k < |outbox| ==> outbox[k].payload.id != i
    ensures StatusesOf(outbox, i) == [] && KindsSeen(txns, i) == [] && RefundTotal(txns, i) == 0
    decreases |txns| + |outbox|
  {
    if outbox != [] {
      NothingYet(txns, outbox[..|outbox| - 1], i);
    } else if txns != [] {
      NothingYet(txns[..|txns| - 1], outbox, i);
    }
  }

  /** Legs that are balanced, one-sided, of one merchant and currency, and small enough
      for the wrapping check to be exact. */
  ghost predicate LegsOk(pi: Intent, legs: seq<Leg>) {
    && (forall k :: 0 <= k < |legs| ==>
          && legs[k].key.merchant == pi.merchant && legs[k].key.currency == pi.currency
          && legs[k].debit >= 0 && legs[k].credit >= 0 && (legs[k].debit == 0) != (legs[k].credit == 0))
    && LegDebits(legs) == LegCredits(legs) <= 2 * pi.amount
  }

  ghost function LegDebits(legs: seq<Leg>): int {
    if legs == [] then 0 else LegDebits(legs[..|legs| - 1]) + legs[|legs| - 1].debit
  }

  ghost function LegCredits(legs: seq<Leg>): int {
    if legs == [] then 0 else LegCredits(legs[..|legs| - 1]) + legs[|legs| - 1].credit
  }

  /** The sums over lists as short as the service posts, written out. */
  lemma ShortLegs(legs: seq<Leg>)
    requires |legs| <= 5
    ensures |legs| == 2 ==> (
      && LegDebits(legs) == legs[0].debit + legs[1].debit
      && LegCredits(legs) == legs[0].credit + legs[1].credit)
    ensures |legs| == 4 ==> (
      && LegDebits(legs) == legs[0].debit + legs[1].debit + legs[2].debit + legs[3].debit
      && LegCredits(legs) == legs[0].credit + legs[1].credit + legs[2].credit + legs[3].credit)
    ensures |legs| == 5 ==> (
      && LegDebits(legs) == legs[0].debit + legs[1].debit + legs[2].debit + legs[3].debit + legs[4].debit
      && LegCredits(legs) == legs[0].credit + legs[1].credit + legs[2].credit + legs[3].credit + legs[4].credit)
  {
    assert legs[..|legs|] == legs;
    if |legs| >= 2 {
      assert legs[..2][..1] == legs[..1];
      assert LegDebits(legs[..1]) == legs[0].debit && LegCredits(legs[..1]) == legs[0].credit;
    }
    if |legs| >= 4 {
      assert legs[..4][..3] == legs[..3] && legs[..3][..2] == legs[..2];
    }
  }

  /** Entries made from legs have the legs' sums. */
  lemma {:induction false} EntrySums(accounts: map<Id, Account>, entries: seq<Entry>, legs: seq<Leg>, currency: Currency)
    requires EntriesFor(accounts, entries, legs, currency)
    ensures Debits(entries) == LegDebits(legs) && Credits(entries) == LegCredits(legs)
  {
    if legs != [] {
      EntrySums(accounts, entries[..|legs| - 1], legs[..|legs| - 1], currency);
    }
  }

  /** PostTransaction accepts every list the service builds for a valid intent: none of the ledger
      errors can surface from a money call. */
  lemma PostingNeverRejects(accounts: map<Id, Account>, entries: seq<Entry>, pi: Intent, legs: seq<Leg>)
    requires LegsOk(pi, legs) && legs != [] && EntriesFor(accounts, entries, legs, pi.currency)
    ensures Verdict(entries).None? && WellFormed(entries) && Debits(entries) == Credits(entries)
  {
    EntrySums(accounts, entries, legs, pi.currency);
    AcceptsIffBalanced(entries);
  }

  lemma OpenKeepsRows(s: Tables, pi: Intent)
    requires Inv(s)
    ensures var s' := s.(intents := s.intents + [pi]);
      && (forall k :: 0 <= k < |s.txns| ==> s.txns[k].ref != |s.intents| && TxnOk(s', k))
      && (forall k :: 0 <= k < |s.outbox| ==> s.outbox[k].payload.id != |s.intents| && EventOk(s', k))
  {
    forall k | 0 <= k < |s.txns|
      ensures s.txns[k].ref != |s.intents| && TxnOk(s.(intents := s.intents + [pi]), k)
    {
      assert TxnOk(s, k);
    }
    forall k | 0 <= k < |s.outbox|
      ensures s.outbox[k].payload.id != |s.intents| && EventOk(s.(intents := s.intents + [pi]), k)
    {
      assert EventOk(s, k);
    }
  }

  lemma OpenKeepsInv(s: Tables, pi: Intent)
    requires Inv(s) && IntentOk(pi) && pi.status == Created
    ensures Inv(s.(intents := s.intents + [pi]))
  {
    OpenKeepsRows(s, pi);
    forall i | 0 <= i < |s.intents| + 1
      ensures IntentTold(s.(intents := s.intents + [pi]), i)
    {
      if i < |s.intents| {
        assert IntentTold(s, i);
      } else {
        NothingYet(s.txns, s.outbox, i);
      }
    }
  }

  /** A step adds exactly its own rows to what is told about each intent. */
  lemma RunAppends(s: Tables, i: Id, legs: seq<Leg>, next: Status, now: Time, s': Tables, j: Id)
    requires i < |s.intents| && Wrote(s, s', i, legs, next, now)
    requires legs == [] <==> KindsOf(next) == []
    ensures StatusesOf(s'.outbox, j) == StatusesOf(s.outbox, j) + (if j == i then [next] else [])
    ensures KindsSeen(s'.txns, j) == KindsSeen(s.txns, j) + (if j == i then KindsOf(next) else [])
    ensures RefundTotal(s'.txns, j) ==
            RefundTotal(s.txns, j) + (if j == i && KindsOf(next) == [RefundTxn] then LegDebits(legs) else 0)
  {
    var e := s'.outbox[|s.outbox|];
    if legs != [] {
      var t := s'.txns[|s.txns|];
      Appended(s, t, e, j);
      EntrySums(s'.accounts, t.entries, legs, s.intents[i].currency);
    } else {
      Appended(s, Txn(0, CaptureTxn, 0, []), e, j);
    }
  }

  /** Facts about a plan that the steps below rely on, without the plan's own text. */
  ghost predicate Sound(pi: Intent, legs: seq<Leg>, next: Status) {
    && Persists(pi.mode, pi.status, next)
    && (legs == [] <==> KindsOf(next) == [])
    && LegsOk(pi, legs)
    && (next == Refunded ==> LegDebits(legs) == pi.amount)
    && (next == PartiallyRefunded ==> 0 < LegDebits(legs) < pi.amount)
  }

  lemma MovesAreSound(i: Id, pi: Intent, call: Call)
    requires IntentOk(pi) && OfMode(pi.mode, pi.status) && pi.status != RequiresConfirmation
    requires !call.Release? && (call.Refund? ==> call.amount > 0)
    ensures var plan := Decide(i, pi, call); plan.Write? ==> Sound(pi, plan.legs, plan.next)
  {
    var plan := Decide(i, pi, call);
    if plan.Write? {
      ShortLegs(plan.legs);
    }
  }

  lemma ReleasesAreSound(i: Id, pi: Intent)
    requires IntentOk(pi)
    ensures var plan := DecideRelease(i, pi); plan.Write? ==> Sound(pi, plan.legs, plan.next)
  {
    var plan := DecideRelease(i, pi);
    if plan.Write? {
      assert 4 <= |plan.legs| <= 5;
      ShortLegs(plan.legs);
    }
  }

  /** Every plan for an intent that is told by its history is sound. */
  lemma PlansAreSound(s: Tables, req: Request)
    requires req.id < |s.intents| && IntentTold(s, req.id) && Serve(s, req).Write?
    ensures Sound(s.intents[req.id], Serve(s, req).legs, Serve(s, req).next)
  {
    AllLedgers(s.intents[req.id].mode, StatusesOf(s.outbox, req.id));
    if req.call.Release? {
      ReleasesAreSound(req.id, s.intents[req.id]);
    } else {
      MovesAreSound(req.id, s.intents[req.id], req.call);
    }
  }

  lemma ToldOnce(pi: Intent, h: seq<Status>, kinds: seq<TxnKind>, refunded: int, legs: seq<Leg>, next: Status, now: Time)
    requires Told(pi, h, kinds, refunded) && Sound(pi, legs, next)
    ensures Told(pi.(status := next, updatedAt := now), h + [next], kinds + KindsOf(next),
                 refunded + (if KindsOf(next) == [RefundTxn] then LegDebits(legs) else 0))
  {
    Extended(pi.mode, h, next);
    assert RefundMatches(pi.(status := next, updatedAt := now),
                         refunded + (if KindsOf(next) == [RefundTxn] then LegDebits(legs) else 0));
  }

  lemma WroteKeepsTold(s: Tables, i: Id, legs: seq<Leg>, next: Status, now: Time, s': Tables, j: Id)
    requires i < |s.intents| && j < |s.intents| && IntentTold(s, i) && IntentTold(s, j)
    requires Wrote(s, s', i, legs, next, now) && Sound(s.intents[i], legs, next)
    ensures IntentTold(s', j)
  {
    RunAppends(s, i, legs, next, now, s', j);
    if j == i {
      ToldOnce(s.intents[i], StatusesOf(s.outbox, i), KindsSeen(s.txns, i), RefundTotal(s.txns, i), legs, next, now);
    } else {
      assert StatusesOf(s'.outbox, j) == StatusesOf(s.outbox, j) + [] == StatusesOf(s.outbox, j);
      assert KindsSeen(s'.txns, j) == KindsSeen(s.txns, j) + [] == KindsSeen(s.txns, j);
    }
  }

  lemma WroteKeepsTxns(s: Tables, i: Id, legs: seq<Leg>, next: Status, now: Time, s': Tables)
    requires i < |s.intents| && LegsOk(s.intents[i], legs) && Wrote(s, s', i, legs, next, now)
    requires AccountsOk(s.accounts) && forall k :: 0 <= k < |s.txns| ==> TxnOk(s, k)
    ensures AccountsOk(s'.accounts) && forall k :: 0 <= k < |s'.txns| ==> TxnOk(s', k)
  {
    forall k | 0 <= k < |s'.txns|
      ensures TxnOk(s', k)
    {
      if k < |s.txns| {
        assert TxnOk(s, k) && s'.txns[k] == s.txns[k];
      } else {
        PostingNeverRejects(s'.accounts, s'.txns[k].entries, s.intents[i], legs);
      }
    }
  }

  lemma WroteKeepsEvents(s: Tables, i: Id, legs: seq<Leg>, next: Status, now: Time, s': Tables)
    requires i < |s.intents| && Wrote(s, s', i, legs, next, now)
    requires forall k :: 0 <= k < |s.outbox| ==> EventOk(s, k)
    ensures forall k :: 0 <= k < |s'.outbox| ==> EventOk(s', k)
  {
    forall k | 0 <= k < |s'.outbox|
      ensures EventOk(s', k)
    {
      if k < |s.outbox| {
        assert EventOk(s, k) && s'.outbox[k] == s.outbox[k];
      }
    }
  }

  lemma FreshKeepsDistinct(outbox: seq<Event>, e: Event)
    requires DistinctEvents(outbox) && FreshEvent(outbox, e.eventId)
    ensures DistinctEvents(outbox + [e])
  {
    forall k | 0 <= k < |outbox + [e]|
      ensures FreshEvent((outbox + [e])[..k], (outbox + [e])[k].eventId)
    {
      assert k < |outbox| ==> FreshEvent(outbox[..k], outbox[k].eventId);
      assert (outbox + [e])[..k] == outbox[..k];
    }
  }

  lemma StepKeepsInv(s: Tables, op: Op, s': Tables)
    requires Inv(s) && Step(s, op, s')
    ensures Inv(s')
  {
    match op
    case Open(merchant, input, now) =>
      OpenKeepsInv(s, Validated(merchant, input, now).value);
    case Run(req, now) =>
      assert IntentTold(s, req.id);
      PlansAreSound(s, req);
      WroteKeepsTxns(s, req.id, Serve(s, req).legs, Serve(s, req).next, now, s');
      WroteKeepsEvents(s, req.id, Serve(s, req).legs, Serve(s, req).next, now, s');
      FreshKeepsDistinct(s.outbox, s'.outbox[|s.outbox|]);
      forall j | 0 <= j < |s'.intents|
        ensures IntentTold(s', j)
      {
        assert IntentTold(s, j);
        WroteKeepsTold(s, req.id, Serve(s, req).legs, Serve(s, req).next, now, s', j);
      }
  }

  lemma NothingKept()
    ensures Inv(EMPTY)
  {
  }

  /** The invariant holds after any serial run. */
  lemma RunsKeepInv(trace: seq<Tables>, ops: seq<Op>, n: nat)
    requires SerialRun(trace, ops) && n < |trace|
    ensures Inv(trace[n])
  {
    NothingKept();
    forall s, op, s' | Inv(s) && Step(s, op, s')
      ensures Inv(s')
    {
      StepKeepsInv(s, op, s');
    }
    Runs.Induction(s => Inv(s), EMPTY, Steps(), trace, ops, n);
  }

  /** What an intent's own rows look like in the tables: its outbox tells a history that its status can
      end, its ledger transactions are those its status can stand on. */
  ghost predicate Shaped(s: Tables, i: Id)
    requires i < |s.intents|
  {
    var pi := s.intents[i];
    && HistoryShape(pi.mode, pi.status, StatusesOf(s.outbox, i))
    && LedgerShape(pi.mode, pi.status, KindsSeen(s.txns, i))
  }

  lemma InvShapes(s: Tables, i: Id)
    requires Inv(s) && i < |s.intents|
    ensures Shaped(s, i)
  {
    assert IntentTold(s, i);
    AllHistories(s.intents[i].mode, StatusesOf(s.outbox, i));
    AllLedgers(s.intents[i].mode, StatusesOf(s.outbox, i));
  }

  /** After any serial run, every intent's outbox rows and ledger transactions have the shapes that its
      mode and status dictate. */
  lemma RunsKeepShapes(trace: seq<Tables>, ops: seq<Op>, n: nat, i: Id)
    requires SerialRun(trace, ops) && n < |trace| && i < |trace[n].intents|
    ensures Shaped(trace[n], i)
  {
    RunsKeepInv(trace, ops, n);
    InvShapes(trace[n], i);
  }
}
