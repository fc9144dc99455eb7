/** What the closed form says about the reports: balances by kind (accounts.sql), the trial balance,
    solvency, single accounts, and the escrow reconciliation (ledger/reconcile.go). */
module Reports {
  import opened Wrappers
  import opened StateMachine
  import opened Tables
  import opened Money
  import opened Lifecycle
  import opened ClosedForm
  import Runs
  import opened Numeric

  /** The books of a state are in order: its invariant holds and every balance is its closed form. */
  ghost predicate Books(s: Tables) {
    Inv(s) && forall sel :: Balance(s, sel) == Tally(s, ShareBy(sel))
  }

  lemma RunsKeepBooks(trace: seq<Tables>, ops: seq<Op>, n: nat)
    requires SerialRun(trace, ops) && n < |trace|
    ensures Books(trace[n])
  {
    RunsKeepInv(trace, ops, n);
    forall sel: Selection
      ensures Balance(trace[n], sel) == Tally(trace[n], ShareBy(sel))
    {
      LedgerIsClosedForm(trace, ops, n, sel);
    }
  }

  lemma StepKeepsBooks(s: Tables, op: Op, s': Tables)
    requires Books(s) && Step(s, op, s')
    ensures Books(s')
  {
    StepKeepsInv(s, op, s');
    forall sel: Selection
      ensures Balance(s', sel) == Tally(s', ShareBy(sel))
    {
      StepKeepsClosedForm(s, op, s', sel);
    }
  }

  /** Books in order stay so over any further run of committed calls, a sweep's for instance. */
  lemma FurtherRunsKeepBooks(init: Tables, trace: seq<Tables>, ops: seq<Op>, n: nat)
    requires Books(init) && Runs.IsRun(init, Steps(), trace, ops) && n < |trace|
    ensures Books(trace[n])
  {
    forall s, op, s' | Books(s) && Step(s, op, s')
      ensures Books(s')
    {
      StepKeepsBooks(s, op, s');
    }
    Runs.Induction(s => Books(s), init, Steps(), trace, ops, n);
  }

  // ---------------------------------------------------------------- tallies

  lemma TallyAgrees(s: Tables, g: Measure, h: Measure)
    requires forall i :: 0 <= i < |s.intents| ==>
               g(i, s.intents[i], RefundTotal(s.txns, i)) == h(i, s.intents[i], RefundTotal(s.txns, i))
    ensures Tally(s, g) == Tally(s, h)
  {
    SumAgrees(|s.intents|, Per(s, g), Per(s, h));
  }

  lemma {:induction false} SumSign(n: nat, f: nat -> int)
    requires forall i: nat :: i < n ==> f(i) >= 0
    ensures SumTo(n, f) >= 0
    ensures SumTo(n, f) == 0 <==> forall i: nat :: i < n ==> f(i) == 0
  {
    if n > 0 {
      SumSign(n - 1, f);
    }
  }

  lemma {:induction false} SumAdds(n: nat, f: nat -> int, g: nat -> int, h: nat -> int)
    requires forall i: nat :: i < n ==> h(i) == f(i) + g(i)
    ensures SumTo(n, h) == SumTo(n, f) + SumTo(n, g)
  {
    if n > 0 {
      SumAdds(n - 1, f, g, h);
    }
  }

  // ---------------------------------------------------------------- balances by kind

  ghost function OfKind(merchant: Id, kind: AccountKind, currency: Currency): Selection {
    (k: AccountKey) => k.merchant == merchant && k.kind == kind && k.currency == currency
  }

  ghost function OfMerchant(merchant: Id, currency: Currency): Selection {
    (k: AccountKey) => k.merchant == merchant && k.currency == currency
  }

  ghost function OfKey(key: AccountKey): Selection {
    (k: AccountKey) => k == key
  }

  /** What an intent should add to its merchant's balance of a kind, told from its row alone (and,
      after a partial refund, from how much was refunded). */
  ghost function Expected(kind: AccountKind, pi: Intent, refunded: int): int {
    var amount: int := pi.amount;
    match kind
    case AcquirerReceivable => if pi.status == Captured then amount else 0
    case SegregatedCash => if pi.status == HeldInEscrow then amount else 0
    case PlatformCash =>
      if pi.status == Settled || pi.status == Released then amount
      else if pi.status == PartiallyRefunded then amount - refunded
      else 0
    case MerchantPayable =>
      if pi.mode.Direct? && (pi.status == Captured || pi.status == Settled) then -amount
      else if pi.status == PartiallyRefunded then refunded - amount
      else 0
    case EscrowLiability =>
      if pi.mode.Escrow? && (pi.status == Captured || pi.status == HeldInEscrow) then -amount else 0
    case PayableToPayee => if pi.status == Released then FeeOf(pi) - amount else 0
    case PlatformRevenue => if pi.status == Released then -FeeOf(pi) else 0
  }

  ghost function ExpectedBy(merchant: Id, kind: AccountKind, currency: Currency): Measure {
    (i: Id, pi: Intent, refunded: int) =>
      if pi.merchant == merchant && pi.currency == currency then Expected(kind, pi, refunded) else 0
  }

  /** Every line of the merchant's balance report is the sum of what its intents' rows say. */
  lemma KindBalances(s: Tables, merchant: Id, kind: AccountKind, currency: Currency)
    requires Books(s)
    ensures Balance(s, OfKind(merchant, kind, currency)) == Tally(s, ExpectedBy(merchant, kind, currency))
  {
    var sel, g := OfKind(merchant, kind, currency), ExpectedBy(merchant, kind, currency);
    forall i | 0 <= i < |s.intents|
      ensures ShareBy(sel)(i, s.intents[i], RefundTotal(s.txns, i)) == g(i, s.intents[i], RefundTotal(s.txns, i))
    {
      StandsInMode(s, i);
      ShareOfKind(i, s.intents[i], RefundTotal(s.txns, i), merchant, kind, currency);
    }
    TallyAgrees(s, ShareBy(sel), g);
  }

  lemma StandsInMode(s: Tables, i: Id)
    requires Inv(s) && i < |s.intents|
    ensures OfMode(s.intents[i].mode, s.intents[i].status)
  {
    InvShapes(s, i);
  }

  lemma ShareOfKind(i: Id, pi: Intent, refunded: int, merchant: Id, kind: AccountKind, currency: Currency)
    requires OfMode(pi.mode, pi.status)
    ensures Share(i, pi, refunded, OfKind(merchant, kind, currency))
         == if pi.merchant == merchant && pi.currency == currency then Expected(kind, pi, refunded) else 0
  {
  }

  /** The lines of a merchant's balance report: one per kind and currency it has an account of. */
  ghost function Lines(s: Tables, merchant: Id): set<(AccountKind, Currency)> {
    set a | a in s.accounts && s.accounts[a].key.merchant == merchant :: (s.accounts[a].key.kind, s.accounts[a].key.currency)
  }

  /** BalancesForMerchant: the cast to bigint fails the whole query if any line does not fit. */
  ghost function BalancesForMerchant(s: Tables, merchant: Id): Result<map<(AccountKind, Currency), int64>, NarrowError> {
    if forall l :: l in Lines(s, merchant) ==> Fitted(Balance(s, OfKind(merchant, l.0, l.1))).Success?
    then Success(map l | l in Lines(s, merchant) :: Fitted(Balance(s, OfKind(merchant, l.0, l.1))).value)
    else Failure(Overflow)
  }

  lemma {:induction false} NoAccountsNoEntries(accounts: map<Id, Account>, entries: seq<Entry>, sel: Selection)
    requires forall a :: a in accounts ==> !sel(accounts[a].key)
    ensures EntrySum(accounts, entries, sel) == 0
  {
    if entries != [] {
      NoAccountsNoEntries(accounts, entries[..|entries| - 1], sel);
    }
  }

  lemma {:induction false} NoAccountsNoBalance(accounts: map<Id, Account>, txns: seq<Txn>, sel: Selection)
    requires forall a :: a in accounts ==> !sel(accounts[a].key)
    ensures BalanceIn(accounts, txns, sel) == 0
  {
    if txns != [] {
      NoAccountsNoBalance(accounts, txns[..|txns| - 1], sel);
      NoAccountsNoEntries(accounts, txns[|txns| - 1].entries, sel);
    }
  }

  /** The report fails exactly when some line, told from the intents' rows, is no int64; else every line
      is what those rows say, and a kind without a line is one they say is zero. */
  lemma ReportIsClosedForm(s: Tables, merchant: Id)
    requires Books(s)
    ensures var r := BalancesForMerchant(s, merchant);
      if r.Success? then
        && r.value.Keys == Lines(s, merchant)
        && forall l :: l in r.value ==> r.value[l] == Tally(s, ExpectedBy(merchant, l.0, l.1))
      else
        exists l :: l in Lines(s, merchant) && Fitted(Tally(s, ExpectedBy(merchant, l.0, l.1))).Failure?
    ensures forall kind, currency :: (kind, currency) !in Lines(s, merchant) ==> Tally(s, ExpectedBy(merchant, kind, currency)) == 0
  {
    forall l: (AccountKind, Currency)
      ensures Balance(s, OfKind(merchant, l.0, l.1)) == Tally(s, ExpectedBy(merchant, l.0, l.1))
    {
      KindBalances(s, merchant, l.0, l.1);
    }
    forall kind, currency | (kind, currency) !in Lines(s, merchant)
      ensures Tally(s, ExpectedBy(merchant, kind, currency)) == 0
    {
      MissingLineIsZero(s, merchant, kind, currency);
    }
  }

  lemma MissingLineIsZero(s: Tables, merchant: Id, kind: AccountKind, currency: Currency)
    requires Books(s) && (kind, currency) !in Lines(s, merchant)
    ensures Tally(s, ExpectedBy(merchant, kind, currency)) == 0
  {
    KindBalances(s, merchant, kind, currency);
    forall a | a in s.accounts
      ensures !OfKind(merchant, kind, currency)(s.accounts[a].key)
    {
      var k := s.accounts[a].key;
      assert k.merchant == merchant ==> (k.kind, k.currency) in Lines(s, merchant);
    }
    NoAccountsNoBalance(s.accounts, s.txns, OfKind(merchant, kind, currency));
  }

  /** The escrow liability account of one intent holds exactly its amount from capture to discharge. */
  lemma EscrowLiabilityOf(s: Tables, i: Id)
    requires Books(s) && i < |s.intents|
    ensures var pi := s.intents[i];
      Balance(s, OfKey(AccountKey(pi.merchant, EscrowLiability, pi.currency, Some(i))))
        == if pi.mode.Escrow? && (pi.status == Captured || pi.status == HeldInEscrow) then -(pi.amount as int) else 0
  {
    var pi := s.intents[i];
    var sel := OfKey(AccountKey(pi.merchant, EscrowLiability, pi.currency, Some(i)));
    var own := if pi.mode.Escrow? && (pi.status == Captured || pi.status == HeldInEscrow) then -(pi.amount as int) else 0;
    var alone: Measure := (j: Id, p: Intent, r: int) => if j == i then own else 0;
    assert IntentTold(s, i);
    AllLedgers(pi.mode, StatusesOf(s.outbox, i));
    forall j | 0 <= j < |s.intents|
      ensures ShareBy(sel)(j, s.intents[j], RefundTotal(s.txns, j)) == alone(j, s.intents[j], RefundTotal(s.txns, j))
    {
    }
    TallyAgrees(s, ShareBy(sel), alone);
    var zero: nat -> int := (j: nat) => 0;
    SumChangesAt(|s.intents|, zero, Per(s, alone), i);
    SumSign(|s.intents|, zero);
  }

  /** What a payee is owed in a merchant's books: the released amounts less the fees. */
  lemma PayableTo(s: Tables, merchant: Id, currency: Currency, payee: Id)
    requires Books(s)
    ensures Balance(s, OfKey(AccountKey(merchant, PayableToPayee, currency, Some(payee))))
         == Tally(s, (i: Id, pi: Intent, r: int) =>
              if pi.merchant == merchant && pi.currency == currency && pi.status == Released && pi.payee == Some(payee)
              then FeeOf(pi) - pi.amount else 0)
  {
    var sel := OfKey(AccountKey(merchant, PayableToPayee, currency, Some(payee)));
    var g: Measure := (i: Id, pi: Intent, r: int) =>
      if pi.merchant == merchant && pi.currency == currency && pi.status == Released && pi.payee == Some(payee)
      then FeeOf(pi) - pi.amount else 0;
    TallyAgrees(s, ShareBy(sel), g);
  }

  // ---------------------------------------------------------------- trial balance and solvency

  /** One intent's standing is balanced, and all of it in its own merchant's books and currency. */
  lemma ShareIsBalanced(i: Id, pi: Intent, refunded: int, merchant: Id, currency: Currency)
    ensures Share(i, pi, refunded, OfMerchant(merchant, currency)) == 0
  {
    var st, sel := StandingOf(i, pi, refunded), OfMerchant(merchant, currency);
    assert st.held.amount + st.owed.amount + st.earned.amount == 0;
    assert sel(st.held.key) == sel(st.owed.key) == sel(st.earned.key);
  }

  /** A merchant's balance report sums to zero in each currency. */
  lemma TrialBalance(s: Tables, merchant: Id, currency: Currency)
    requires Books(s)
    ensures Balance(s, OfMerchant(merchant, currency)) == 0
  {
    var f := Per(s, ShareBy(OfMerchant(merchant, currency)));
    forall i: nat | i < |s.intents|
      ensures f(i) == 0
    {
      ShareIsBalanced(i, s.intents[i], RefundTotal(s.txns, i), merchant, currency);
    }
    SumSign(|s.intents|, f);
  }

  ghost predicate Only(sel: Selection, asset: bool) {
    forall k :: sel(k) ==> TypeOf(k.kind).Asset? == asset
  }

  /** What one intent holds is held in assets, what it owes and earned is not. */
  lemma ShareSign(s: Tables, i: Id, sel: Selection)
    requires Inv(s) && i < |s.intents|
    ensures Only(sel, true) ==> Share(i, s.intents[i], RefundTotal(s.txns, i), sel) >= 0
    ensures Only(sel, false) ==> Share(i, s.intents[i], RefundTotal(s.txns, i), sel) <= 0
  {
    assert IntentTold(s, i);
    var st := StandingOf(i, s.intents[i], RefundTotal(s.txns, i));
    assert st.held.amount >= 0 && (st.held.amount > 0 ==> TypeOf(st.held.key.kind).Asset?);
    assert st.owed.amount <= 0 && (st.owed.amount < 0 ==> !TypeOf(st.owed.key.kind).Asset?);
    assert st.earned.amount <= 0 && (st.earned.amount < 0 ==> !TypeOf(st.earned.key.kind).Asset?);
  }

  lemma SumSignBelow(n: nat, f: nat -> int)
    requires forall i: nat :: i < n ==> f(i) <= 0
    ensures SumTo(n, f) <= 0
  {
    var minus: nat -> int := (i: nat) => -f(i);
    var zero: nat -> int := (i: nat) => 0;
    SumSign(n, minus);
    SumSign(n, zero);
    SumAdds(n, f, minus, zero);
  }

  /** However asset accounts are grouped, their balance is not negative; liability and revenue
      accounts are never positive. */
  lemma Solvent(s: Tables, sel: Selection)
    requires Books(s)
    ensures Only(sel, true) ==> Balance(s, sel) >= 0
    ensures Only(sel, false) ==> Balance(s, sel) <= 0
  {
    var f := Per(s, ShareBy(sel));
    forall i: nat | i < |s.intents|
      ensures Only(sel, true) ==> f(i) >= 0
      ensures Only(sel, false) ==> f(i) <= 0
    {
      ShareSign(s, i, sel);
    }
    if Only(sel, true) {
      SumSign(|s.intents|, f);
    }
    if Only(sel, false) {
      SumSignBelow(|s.intents|, f);
    }
  }

  // ---------------------------------------------------------------- one account

  /** SELECT SUM(debit) - SUM(credit) ... WHERE account_id = id, over one transaction's entries. */
  ghost function RowEntries(entries: seq<Entry>, id: Id): int {
    if entries == [] then 0
    else
      var e := entries[|entries| - 1];
      RowEntries(entries[..|entries| - 1], id) + (if e.account == id then e.debit - e.credit else 0)
  }

  ghost function RowBalance(txns: seq<Txn>, id: Id): int {
    if txns == [] then 0
    else RowBalance(txns[..|txns| - 1], id) + RowEntries(txns[|txns| - 1].entries, id)
  }

  lemma {:induction false} RowEntriesByKey(accounts: map<Id, Account>, entries: seq<Entry>, id: Id)
    requires UniqueKeys(accounts) && id in accounts
    ensures RowEntries(entries, id) == EntrySum(accounts, entries, OfKey(accounts[id].key))
  {
    if entries != [] {
      RowEntriesByKey(accounts, entries[..|entries| - 1], id);
    }
  }

  /** The unique indexes make an account row and its key the same thing: the balance queried by
      account id is the balance of the key. */
  lemma {:induction false} AccountBalance(accounts: map<Id, Account>, txns: seq<Txn>, id: Id)
    requires UniqueKeys(accounts) && id in accounts
    ensures RowBalance(txns, id) == BalanceIn(accounts, txns, OfKey(accounts[id].key))
  {
    if txns != [] {
      AccountBalance(accounts, txns[..|txns| - 1], id);
      RowEntriesByKey(accounts, txns[|txns| - 1].entries, id);
    }
  }

  /** What a query for a sum of `v` answers, in any spelling, or nothing if it fails. */
  ghost predicate Answers(answer: Option<Decimal>, v: int) {
    answer.Some? ==> Denotes(answer.value, v)
  }

  /** The query answered with an int64, spelled in a way that narrowing can read. */
  predicate Readable(answer: Option<Decimal>, v: int) {
    answer.Some? && Fitted(v).Success? && (answer.value.exp != MIN32 || v == 0)
  }

  function Scanned(answer: Option<Decimal>): Result<int64, NarrowError> {
    if answer.None? then Failure(QueryFailed) else Narrowed(answer.value)
  }

  /** A readable sum is answered exactly, and no other is answered at all. */
  lemma ScannedIsExact(answer: Option<Decimal>, v: int)
    requires Answers(answer, v)
    ensures Scanned(answer) ==
      if answer.None? then Failure(QueryFailed) else if Readable(answer, v) then Success(v) else Failure(Overflow)
  {
    if answer.Some? {
      NarrowedIff(answer.value, v);
    }
  }

  lemma {:induction false} AbsentRowIsZero(s: Tables, n: nat, id: Id)
    requires Inv(s) && n <= |s.txns| && id !in s.accounts
    ensures RowBalance(s.txns[..n], id) == 0
  {
    if n > 0 {
      AbsentRowIsZero(s, n - 1, id);
      assert TxnOk(s, n - 1) && s.txns[..n][..n - 1] == s.txns[..n - 1];
      AbsentFromEntries(s, s.txns[n - 1], |s.txns[n - 1].entries|, id);
      assert s.txns[n - 1].entries[..|s.txns[n - 1].entries|] == s.txns[n - 1].entries;
    }
  }

  lemma {:induction false} AbsentFromEntries(s: Tables, t: Txn, n: nat, id: Id)
    requires n <= |t.entries| && id !in s.accounts && forall e :: 0 <= e < n ==> t.entries[e].account in s.accounts
    ensures RowEntries(t.entries[..n], id) == 0
  {
    if n > 0 {
      AbsentFromEntries(s, t, n - 1, id);
      assert t.entries[..n][..n - 1] == t.entries[..n - 1];
    }
  }

  /** What Balance should answer: for an account of the books, the closed form of its key; for an unknown
      one, zero. */
  ghost function DueBalance(s: Tables, id: Id): int {
    if id in s.accounts then Tally(s, ShareBy(OfKey(s.accounts[id].key))) else 0
  }

  /** Balance answers just that, or an error exactly when the query fails or the sum cannot be read. */
  method BalanceOf(ghost s: Tables, ghost id: Id, answer: Option<Decimal>) returns (r: Result<int64, NarrowError>)
    requires Books(s) && Answers(answer, RowBalance(s.txns, id))
    ensures r ==
      if answer.None? then Failure(QueryFailed)
      else if Readable(answer, DueBalance(s, id)) then Success(DueBalance(s, id))
      else Failure(Overflow)
  {
    if id in s.accounts {
      AccountBalance(s.accounts, s.txns, id);
    } else {
      AbsentRowIsZero(s, |s.txns|, id);
      assert s.txns[..|s.txns|] == s.txns;
    }
    ScannedIsExact(answer, DueBalance(s, id));
    if answer == None {
      return Failure(QueryFailed);
    }
    r := NumericToInt64(answer.value);
  }

  // ---------------------------------------------------------------- escrow reconciliation

  datatype Segregation = Segregation(segregated: int64, liability: int64, ok: bool)

  /** The two sums by kind as they are scanned, added in int64 and compared with zero. */
  function EscrowSegregationHolds(cash: Option<Decimal>, liabilities: Option<Decimal>): Result<Segregation, NarrowError> {
    var segregated :- Scanned(cash);
    var liability :- Scanned(liabilities);
    Success(Segregation(segregated, liability, Wrap64(segregated + liability) == 0))
  }

  /** An escrow intent between its capture and its settlement: liable, but not yet segregated. */
  ghost predicate InTransit(pi: Intent, merchant: Id, currency: Currency) {
    pi.merchant == merchant && pi.currency == currency && pi.mode.Escrow? && pi.status == Captured
  }

  ghost function TransitBy(merchant: Id, currency: Currency): Measure {
    (i: Id, pi: Intent, r: int) => if InTransit(pi, merchant, currency) then pi.amount else 0
  }

  /** Segregated cash falls short of the escrow liabilities by exactly the money in transit. */
  lemma SegregationGap(s: Tables, merchant: Id, currency: Currency)
    requires Books(s)
    ensures Balance(s, OfKind(merchant, SegregatedCash, currency)) + Balance(s, OfKind(merchant, EscrowLiability, currency))
         == -Tally(s, TransitBy(merchant, currency))
  {
    KindBalances(s, merchant, SegregatedCash, currency);
    KindBalances(s, merchant, EscrowLiability, currency);
    var f, g := Per(s, ExpectedBy(merchant, SegregatedCash, currency)), Per(s, ExpectedBy(merchant, EscrowLiability, currency));
    var h := Per(s, TransitBy(merchant, currency));
    var fg: nat -> int := (i: nat) => f(i) + g(i);
    var zero: nat -> int := (i: nat) => 0;
    forall i: nat | i < |s.intents|
      ensures f(i) + g(i) + h(i) == 0
    {
      assert IntentTold(s, i);
      AllLedgers(s.intents[i].mode, StatusesOf(s.outbox, i));
    }
    SumAdds(|s.intents|, f, g, fg);
    SumAdds(|s.intents|, fg, h, zero);
    SumSign(|s.intents|, zero);
  }

  /** The check, when it answers, says ok exactly when nothing of that merchant and currency is in
      transit, however the sums are spelled: its wrapping addition never meets a false zero. It answers
      unless a query fails or a sum cannot be read. */
  lemma SegregationHoldsIff(s: Tables, merchant: Id, currency: Currency, cash: Option<Decimal>, liabilities: Option<Decimal>)
    requires Books(s)
    requires Answers(cash, Balance(s, OfKind(merchant, SegregatedCash, currency)))
    requires Answers(liabilities, Balance(s, OfKind(merchant, EscrowLiability, currency)))
    ensures var r := EscrowSegregationHolds(cash, liabilities);
      r.Success? ==>
        && r.value.segregated + r.value.liability == -Tally(s, TransitBy(merchant, currency))
        && (r.value.ok <==> forall i :: 0 <= i < |s.intents| ==> !InTransit(s.intents[i], merchant, currency))
    ensures EscrowSegregationHolds(cash, liabilities).Success? <==>
      && Readable(cash, Balance(s, OfKind(merchant, SegregatedCash, currency)))
      && Readable(liabilities, Balance(s, OfKind(merchant, EscrowLiability, currency)))
  {
    ScannedIsExact(cash, Balance(s, OfKind(merchant, SegregatedCash, currency)));
    ScannedIsExact(liabilities, Balance(s, OfKind(merchant, EscrowLiability, currency)));
    SegregationGap(s, merchant, currency);
    Solvent(s, OfKind(merchant, SegregatedCash, currency));
    Solvent(s, OfKind(merchant, EscrowLiability, currency));
    forall i | 0 <= i < |s.intents|
      ensures TransitBy(merchant, currency)(i, s.intents[i], RefundTotal(s.txns, i)) >= 0
      ensures TransitBy(merchant, currency)(i, s.intents[i], RefundTotal(s.txns, i)) == 0 <==> !InTransit(s.intents[i], merchant, currency)
    {
      assert IntentTold(s, i);
    }
    TallySign(s, TransitBy(merchant, currency));
  }

  lemma TallySign(s: Tables, g: Measure)
    requires forall i :: 0 <= i < |s.intents| ==> g(i, s.intents[i], RefundTotal(s.txns, i)) >= 0
    ensures Tally(s, g) >= 0
    ensures Tally(s, g) == 0 <==> forall i :: 0 <= i < |s.intents| ==> g(i, s.intents[i], RefundTotal(s.txns, i)) == 0
  {
    var f := Per(s, g);
    assert forall i: nat :: i < |s.intents| ==> f(i) == g(i, s.intents[i], RefundTotal(s.txns, i));
    SumSign(|s.intents|, f);
  }

  // ---------------------------------------------------------------- the two sums, taken apart

  /** What an intent is about never changes, and no intent goes away. */
  ghost predicate SameDeals(s: Tables, s': Tables) {
    && |s.intents| <= |s'.intents|
    && forall i :: 0 <= i < |s.intents| ==>
         && s'.intents[i].merchant == s.intents[i].merchant && s'.intents[i].currency == s.intents[i].currency
         && s'.intents[i].amount == s.intents[i].amount && s'.intents[i].mode == s.intents[i].mode
  }

  ghost predicate Held(s: Tables, i: Id, merchant: Id, currency: Currency) {
    && i < |s.intents| && s.intents[i].merchant == merchant && s.intents[i].currency == currency
    && s.intents[i].status == HeldInEscrow
  }

  /** Held when the cash was summed, and released or refunded when the liabilities were. */
  ghost predicate Left(s: Tables, s': Tables, i: Id, merchant: Id, currency: Currency) {
    Held(s, i, merchant, currency) && !Held(s', i, merchant, currency)
  }

  /** Liable when the liabilities were summed, and not segregated when the cash was. */
  ghost predicate Outstanding(s: Tables, s': Tables, i: Id, merchant: Id, currency: Currency) {
    && i < |s'.intents|
    && (InTransit(s'.intents[i], merchant, currency) || (Held(s', i, merchant, currency) && !Held(s, i, merchant, currency)))
  }

  ghost function HeldBy(s: Tables, merchant: Id, currency: Currency): Measure {
    (i: Id, pi: Intent, r: int) => if Held(s, i, merchant, currency) then pi.amount else 0
  }

  ghost function LeftBy(s: Tables, s': Tables, merchant: Id, currency: Currency): Measure {
    (i: Id, pi: Intent, r: int) => if Left(s, s', i, merchant, currency) then pi.amount else 0
  }

  ghost function OutstandingBy(s: Tables, s': Tables, merchant: Id, currency: Currency): Measure {
    (i: Id, pi: Intent, r: int) => if Outstanding(s, s', i, merchant, currency) then pi.amount else 0
  }

  lemma {:induction false} SumExtends(n: nat, m: nat, f: nat -> int, g: nat -> int)
    requires n <= m && (forall i: nat :: i < n ==> f(i) == g(i)) && forall i: nat :: n <= i < m ==> g(i) == 0
    ensures SumTo(m, g) == SumTo(n, f)
  {
    if m == n {
      SumAgrees(n, f, g);
    } else {
      SumExtends(n, m - 1, f, g);
    }
  }

  /** The cash summed earlier, told from the later rows. */
  lemma EarlierCash(s: Tables, s': Tables, merchant: Id, currency: Currency)
    requires Books(s) && SameDeals(s, s')
    ensures Balance(s, OfKind(merchant, SegregatedCash, currency)) == Tally(s', HeldBy(s, merchant, currency))
  {
    KindBalances(s, merchant, SegregatedCash, currency);
    var f, g := Per(s, ExpectedBy(merchant, SegregatedCash, currency)), Per(s', HeldBy(s, merchant, currency));
    assert forall i: nat :: i < |s.intents| ==> f(i) == g(i);
    assert forall i: nat :: |s.intents| <= i < |s'.intents| ==> !Held(s, i, merchant, currency) && g(i) == 0;
    SumExtends(|s.intents|, |s'.intents|, f, g);
  }

  /** With the cash summed at one moment and the liabilities at a later one, what is missing is what left
      escrow in between less what is outstanding. */
  lemma GapAcross(s: Tables, s': Tables, merchant: Id, currency: Currency)
    requires Books(s) && Books(s') && SameDeals(s, s')
    ensures Balance(s, OfKind(merchant, SegregatedCash, currency)) + Balance(s', OfKind(merchant, EscrowLiability, currency))
         == Tally(s', LeftBy(s, s', merchant, currency)) - Tally(s', OutstandingBy(s, s', merchant, currency))
  {
    EarlierCash(s, s', merchant, currency);
    KindBalances(s', merchant, EscrowLiability, currency);
    var n := |s'.intents|;
    var f, g := Per(s', HeldBy(s, merchant, currency)), Per(s', ExpectedBy(merchant, EscrowLiability, currency));
    var h, k := Per(s', LeftBy(s, s', merchant, currency)), Per(s', OutstandingBy(s, s', merchant, currency));
    var fg: nat -> int := (i: nat) => f(i) + g(i);
    forall i: nat | i < n
      ensures fg(i) + k(i) == h(i)
    {
      StandsInMode(s', i);
    }
    SumAdds(n, f, g, fg);
    SumAdds(n, fg, k, h);
  }

  /** Exactly what the check says of two moments: ok if and only if what left escrow in between makes up
      for what is outstanding. With nothing gone it is the truth about what is outstanding; with nothing
      outstanding it is ok only if nothing has gone. */
  lemma SegregationAcross(s: Tables, s': Tables, merchant: Id, currency: Currency, cash: Option<Decimal>, liabilities: Option<Decimal>)
    requires Books(s) && Books(s') && SameDeals(s, s')
    requires Answers(cash, Balance(s, OfKind(merchant, SegregatedCash, currency)))
    requires Answers(liabilities, Balance(s', OfKind(merchant, EscrowLiability, currency)))
    ensures SaysOf(s, s', merchant, currency, EscrowSegregationHolds(cash, liabilities))
  {
    ScannedIsExact(cash, Balance(s, OfKind(merchant, SegregatedCash, currency)));
    ScannedIsExact(liabilities, Balance(s', OfKind(merchant, EscrowLiability, currency)));
    GapAcross(s, s', merchant, currency);
    Solvent(s, OfKind(merchant, SegregatedCash, currency));
    Solvent(s', OfKind(merchant, EscrowLiability, currency));
    AmountsCount(s, s', merchant, currency);
  }

  ghost predicate SaysOf(s: Tables, s': Tables, merchant: Id, currency: Currency, r: Result<Segregation, NarrowError>) {
    r.Success? ==>
      var left, outstanding := Tally(s', LeftBy(s, s', merchant, currency)), Tally(s', OutstandingBy(s, s', merchant, currency));
      && r.value.segregated + r.value.liability == left - outstanding
      && (r.value.ok <==> left == outstanding)
      && ((forall i: Id :: !Left(s, s', i, merchant, currency)) ==> (r.value.ok <==> forall i: Id :: !Outstanding(s, s', i, merchant, currency)))
      && ((forall i: Id :: !Outstanding(s, s', i, merchant, currency)) ==> (r.value.ok <==> forall i: Id :: !Left(s, s', i, merchant, currency)))
  }

  /** Amounts are positive, so a sum is zero only over no intents. */
  lemma AmountsCount(s: Tables, s': Tables, merchant: Id, currency: Currency)
    requires Inv(s') && SameDeals(s, s')
    ensures Tally(s', LeftBy(s, s', merchant, currency)) == 0 <==> forall i: Id :: !Left(s, s', i, merchant, currency)
    ensures Tally(s', OutstandingBy(s, s', merchant, currency)) == 0 <==> forall i: Id :: !Outstanding(s, s', i, merchant, currency)
  {
    var g, h := LeftBy(s, s', merchant, currency), OutstandingBy(s, s', merchant, currency);
    forall i | 0 <= i < |s'.intents|
      ensures g(i, s'.intents[i], RefundTotal(s'.txns, i)) >= 0 && h(i, s'.intents[i], RefundTotal(s'.txns, i)) >= 0
      ensures g(i, s'.intents[i], RefundTotal(s'.txns, i)) == 0 <==> !Left(s, s', i, merchant, currency)
      ensures h(i, s'.intents[i], RefundTotal(s'.txns, i)) == 0 <==> !Outstanding(s, s', i, merchant, currency)
    {
      assert IntentTold(s', i);
    }
    TallySign(s', g);
    TallySign(s', h);
    assert forall i: Id :: Left(s, s', i, merchant, currency) ==> i < |s'.intents|;
  }
}
