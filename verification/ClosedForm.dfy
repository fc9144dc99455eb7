/** The deep fact about the ledger: every balance summed over the append-only entries is a closed
    form over the intents table, for any selection of accounts. */
module ClosedForm {
  import opened Wrappers
  import opened StateMachine
  import opened Tables
  import opened Money
  import Runs
  import opened Lifecycle

  type Selection = AccountKey -> bool

  // ---------------------------------------------------------------- derived balances

  /** SUM(debit) - SUM(credit) over the entries whose account is selected. */
  ghost function EntrySum(accounts: map<Id, Account>, entries: seq<Entry>, sel: Selection): int {
    if entries == [] then 0
    else
      var e := entries[|entries| - 1];
      EntrySum(accounts, entries[..|entries| - 1], sel)
      + (if e.account in accounts && sel(accounts[e.account].key) then e.debit - e.credit else 0)
  }

  ghost function BalanceIn(accounts: map<Id, Account>, txns: seq<Txn>, sel: Selection): int {
    if txns == [] then 0
    else BalanceIn(accounts, txns[..|txns| - 1], sel) + EntrySum(accounts, txns[|txns| - 1].entries, sel)
  }

  ghost function Balance(s: Tables, sel: Selection): int {
    BalanceIn(s.accounts, s.txns, sel)
  }

  // ---------------------------------------------------------------- the closed form

  datatype Holding = Holding(key: AccountKey, amount: int)

  /** Everything one intent contributes to the ledger: what is held, to whom it is owed, what was
      earned. */
  datatype Standing = Standing(held: Holding, owed: Holding, earned: Holding)

  function At(pi: Intent, kind: AccountKind, ref: Option<Id>, amount: int): Holding {
    Holding(AccountKey(pi.merchant, kind, pi.currency, ref), amount)
  }

  /** What an intent owes for the money it captured: to the merchant, or held for the payee. */
  function OwedAtCapture(i: Id, pi: Intent): Holding {
    if pi.mode.Escrow? then At(pi, EscrowLiability, Some(i), -(pi.amount as int))
    else At(pi, MerchantPayable, None, -(pi.amount as int))
  }

  function FeeOf(pi: Intent): int {
    if pi.fee.Some? then pi.fee.value else 0
  }

  function StandingOf(i: Id, pi: Intent, refunded: int): Standing {
    var nothing := At(pi, PlatformRevenue, None, 0);
    match pi.status
    case Captured => Standing(At(pi, AcquirerReceivable, None, pi.amount), OwedAtCapture(i, pi), nothing)
    case Settled => Standing(At(pi, PlatformCash, None, pi.amount), OwedAtCapture(i, pi), nothing)
    case HeldInEscrow => Standing(At(pi, SegregatedCash, None, pi.amount), OwedAtCapture(i, pi), nothing)
    case PartiallyRefunded =>
      Standing(At(pi, PlatformCash, None, pi.amount - refunded),
               At(pi, MerchantPayable, None, refunded - pi.amount), nothing)
    case Released =>
      Standing(At(pi, PlatformCash, None, pi.amount),
               At(pi, PayableToPayee, pi.payee, FeeOf(pi) - pi.amount),
               At(pi, PlatformRevenue, None, -FeeOf(pi)))
    case _ => Standing(nothing, nothing, nothing)
  }

  ghost function Counted(h: Holding, sel: Selection): int {
    if sel(h.key) then h.amount else 0
  }

  ghost function Share(i: Id, pi: Intent, refunded: int, sel: Selection): int {
    var st := StandingOf(i, pi, refunded);
    Counted(st.held, sel) + Counted(st.owed, sel) + Counted(st.earned, sel)
  }

  /** A number read off one intent: its id, its row and how much of it was refunded. */
  type Measure = (Id, Intent, int) -> int

  ghost function ShareBy(sel: Selection): Measure {
    (i: Id, pi: Intent, refunded: int) => Share(i, pi, refunded, sel)
  }

  ghost function Per(s: Tables, g: Measure): nat -> int {
    (i: nat) => if i < |s.intents| then g(i, s.intents[i], RefundTotal(s.txns, i)) else 0
  }

  /** The measure summed over the intents table. */
  ghost function Tally(s: Tables, g: Measure): int {
    SumTo(|s.intents|, Per(s, g))
  }

  ghost function SumTo(n: nat, f: nat -> int): int {
    if n == 0 then 0 else SumTo(n - 1, f) + f(n - 1)
  }

  lemma {:induction false} SumAgrees(n: nat, f: nat -> int, g: nat -> int)
    requires forall i: nat :: i < n ==> f(i) == g(i)
    ensures SumTo(n, f) == SumTo(n, g)
  {
    if n > 0 {
      SumAgrees(n - 1, f, g);
    }
  }

  lemma {:induction false} SumChangesAt(n: nat, f: nat -> int, g: nat -> int, i: nat)
    requires i < n && forall j: nat :: j < n && j != i ==> f(j) == g(j)
    ensures SumTo(n, g) == SumTo(n, f) + g(i) - f(i)
  {
    if i == n - 1 {
      SumAgrees(n - 1, f, g);
    } else {
      SumChangesAt(n - 1, f, g, i);
    }
  }

  /** Opening an intent adds its own measure to every tally. */
  lemma OpenAddsMeasure(s: Tables, pi: Intent, g: Measure)
    ensures var s' := s.(intents := s.intents + [pi]);
      Tally(s', g) == Tally(s, g) + g(|s.intents|, pi, RefundTotal(s.txns, |s.intents|))
  {
    var s' := s.(intents := s.intents + [pi]);
    SumAgrees(|s.intents|, Per(s, g), Per(s', g));
  }

  // ---------------------------------------------------------------- one posting

  ghost function LegSum(legs: seq<Leg>, sel: Selection): int {
    if legs == [] then 0 else LegSum(legs[..|legs| - 1], sel) + Moved(legs[|legs| - 1], sel)
  }

  ghost function Moved(leg: Leg, sel: Selection): int {
    if sel(leg.key) then leg.debit - leg.credit else 0
  }

  lemma ShortMoves(legs: seq<Leg>, sel: Selection)
    requires |legs| <= 5
    ensures |legs| == 2 ==> LegSum(legs, sel) == Moved(legs[0], sel) + Moved(legs[1], sel)
    ensures |legs| >= 3 ==> (
      LegSum(legs, sel) == Moved(legs[0], sel) + Moved(legs[1], sel) + Moved(legs[2], sel)
        + (if |legs| > 3 then Moved(legs[3], sel) else 0) + (if |legs| > 4 then Moved(legs[4], sel) else 0))
  {
    assert legs[..|legs|] == legs;
    if |legs| >= 2 {
      assert legs[..2][..1] == legs[..1];
      assert LegSum(legs[..1], sel) == Moved(legs[0], sel);
    }
    if |legs| >= 4 {
      assert legs[..4][..3] == legs[..3];
    }
    if |legs| >= 3 {
      assert legs[..3][..2] == legs[..2];
      assert LegSum(legs[..3], sel) == LegSum(legs[..2], sel) + Moved(legs[2], sel);
    }
  }

  /** A move takes the intent's standing from one place to another, on a selection of accounts. */
  ghost predicate Moves(i: Id, pi: Intent, refunded: int, legs: seq<Leg>, pi': Intent, refunded': int, sel: Selection) {
    LegSum(legs, sel) == Share(i, pi', refunded', sel) - Share(i, pi, refunded, sel)
  }

  function Advanced(pi: Intent, next: Status, now: Time): Intent {
    pi.(status := next, updatedAt := now)
  }

  lemma CaptureMoves(i: Id, pi: Intent, bank: BankReply, now: Time, sel: Selection)
    requires DecideCapture(i, pi, bank).Write?
    ensures Moves(i, pi, 0, DecideCapture(i, pi, bank).legs, Advanced(pi, Captured, now), 0, sel)
  {
    ShortMoves(DecideCapture(i, pi, bank).legs, sel);
  }

  lemma SettleMoves(i: Id, pi: Intent, now: Time, sel: Selection)
    requires DecideSettle(pi).Write?
    ensures Moves(i, pi, 0, DecideSettle(pi).legs, Advanced(pi, DecideSettle(pi).next, now), 0, sel)
  {
    ShortMoves(DecideSettle(pi).legs, sel);
  }

  lemma RefundMoves(i: Id, pi: Intent, amount: int64, now: Time, sel: Selection)
    requires DecideRefund(i, pi, amount).Write?
    ensures Moves(i, pi, 0, DecideRefund(i, pi, amount).legs,
                  Advanced(pi, DecideRefund(i, pi, amount).next, now), amount, sel)
    ensures LegDebits(DecideRefund(i, pi, amount).legs) == amount
  {
    ShortMoves(DecideRefund(i, pi, amount).legs, sel);
    ShortLegs(DecideRefund(i, pi, amount).legs);
  }

  /** The omitted zero legs of a release would have moved nothing. */
  lemma ReleaseSums(i: Id, pi: Intent, sel: Selection)
    requires IntentOk(pi) && DecideRelease(i, pi).Write?
    ensures LegSum(DecideRelease(i, pi).legs, sel)
         == Moved(Debit(pi, EscrowLiability, Some(i), pi.amount), sel)
            + Moved(Debit(pi, PlatformCash, None, pi.amount), sel)
            + Moved(Credit(pi, SegregatedCash, None, pi.amount), sel)
            + Counted(At(pi, PayableToPayee, pi.payee, FeeOf(pi) - pi.amount), sel)
            + Counted(At(pi, PlatformRevenue, None, -FeeOf(pi)), sel)
  {
    var legs := DecideRelease(i, pi).legs;
    ShortMoves(legs, sel);
    if FeeOf(pi) == 0 {
      assert legs[3..] == [Credit(pi, PayableToPayee, pi.payee, pi.amount)];
    } else if FeeOf(pi) == pi.amount {
      assert legs[3..] == [Credit(pi, PlatformRevenue, None, pi.amount)];
    } else {
      assert legs[3..] == [Credit(pi, PayableToPayee, pi.payee, pi.amount - FeeOf(pi)),
                           Credit(pi, PlatformRevenue, None, FeeOf(pi))];
    }
  }

  lemma ReleaseMoves(i: Id, pi: Intent, now: Time, sel: Selection)
    requires IntentOk(pi) && DecideRelease(i, pi).Write?
    ensures Moves(i, pi, 0, DecideRelease(i, pi).legs, Advanced(pi, Released, now), 0, sel)
  {
    ReleaseSums(i, pi, sel);
  }

  /** A status that can still change stands for no refund yet: refunds are final. */
  lemma NothingRefundedYet(pi: Intent, refunded: int, next: Status)
    requires RefundMatches(pi, refunded) && Persists(pi.mode, pi.status, next)
    ensures refunded == 0
  {
  }

  lemma NothingMoves(i: Id, pi: Intent, call: Call, now: Time, sel: Selection)
    requires (call.Confirm? || call.Expire?) && Decide(i, pi, call).Write?
    requires pi.status == Created || pi.status == Authorized
    ensures var plan := Decide(i, pi, call);
      Moves(i, pi, 0, plan.legs, Advanced(pi, plan.next, now), 0, sel) && KindsOf(plan.next) == []
  {
  }

  /** Each plan moves exactly the intent's standing: from where its status put it to where the next
      status puts it, on every selection of accounts. */
  lemma PlanMovesStanding(i: Id, pi: Intent, call: Call, refunded: int, now: Time, sel: Selection)
    requires IntentOk(pi) && RefundMatches(pi, refunded) && Decide(i, pi, call).Write?
    requires Persists(pi.mode, pi.status, Decide(i, pi, call).next)
    ensures var plan := Decide(i, pi, call);
      Moves(i, pi, refunded, plan.legs, Advanced(pi, plan.next, now),
            refunded + (if KindsOf(plan.next) == [RefundTxn] then LegDebits(plan.legs) else 0), sel)
  {
    NothingRefundedYet(pi, refunded, Decide(i, pi, call).next);
    match call
    case Confirm(_) => NothingMoves(i, pi, call, now, sel);
    case Expire => NothingMoves(i, pi, call, now, sel);
    case Capture(bank) => CaptureMoves(i, pi, bank, now, sel);
    case Settle => SettleMoves(i, pi, now, sel);
    case Refund(amount) => RefundMoves(i, pi, amount, now, sel);
    case Release => ReleaseMoves(i, pi, now, sel);
  }

  lemma {:induction false} EntriesMove(accounts: map<Id, Account>, entries: seq<Entry>, legs: seq<Leg>, currency: Currency, sel: Selection)
    requires EntriesFor(accounts, entries, legs, currency)
    ensures EntrySum(accounts, entries, sel) == LegSum(legs, sel)
  {
    if legs != [] {
      EntriesMove(accounts, entries[..|legs| - 1], legs[..|legs| - 1], currency, sel);
    }
  }

  /** New account rows do not disturb the sums over old entries. */
  lemma {:induction false} EntriesStay(before: map<Id, Account>, after: map<Id, Account>, entries: seq<Entry>, sel: Selection)
    requires forall a :: a in before ==> a in after && after[a] == before[a]
    requires forall k :: 0 <= k < |entries| ==> entries[k].account in before
    ensures EntrySum(after, entries, sel) == EntrySum(before, entries, sel)
  {
    if entries != [] {
      EntriesStay(before, after, entries[..|entries| - 1], sel);
    }
  }

  lemma {:induction false} BalanceStays(before: map<Id, Account>, after: map<Id, Account>, txns: seq<Txn>, sel: Selection)
    requires forall a :: a in before ==> a in after && after[a] == before[a]
    requires forall t :: 0 <= t < |txns| ==> forall k :: 0 <= k < |txns[t].entries| ==> txns[t].entries[k].account in before
    ensures BalanceIn(after, txns, sel) == BalanceIn(before, txns, sel)
  {
    if txns != [] {
      BalanceStays(before, after, txns[..|txns| - 1], sel);
      EntriesStay(before, after, txns[|txns| - 1].entries, sel);
    }
  }

  lemma WriteMovesBalance(s: Tables, i: Id, legs: seq<Leg>, next: Status, now: Time, s': Tables, sel: Selection)
    requires i < |s.intents| && Wrote(s, s', i, legs, next, now)
    requires forall t :: 0 <= t < |s.txns| ==> TxnOk(s, t)
    ensures Balance(s', sel) == Balance(s, sel) + LegSum(legs, sel)
  {
    forall t | 0 <= t < |s.txns|
      ensures forall k :: 0 <= k < |s.txns[t].entries| ==> s.txns[t].entries[k].account in s.accounts
    {
      assert TxnOk(s, t);
    }
    BalanceStays(s.accounts, s'.accounts, s.txns, sel);
    if legs != [] {
      assert s'.txns[..|s.txns|] == s.txns;
      EntriesMove(s'.accounts, s'.txns[|s.txns|].entries, legs, s.intents[i].currency, sel);
    }
  }

  // ---------------------------------------------------------------- every run

  ghost function RefundAfter(s: Tables, i: Id, legs: seq<Leg>, next: Status): int {
    RefundTotal(s.txns, i) + (if KindsOf(next) == [RefundTxn] then LegDebits(legs) else 0)
  }

  lemma OneMoves(s: Tables, s': Tables, i: Id, pi': Intent, refunded: int, g: Measure, j: Id)
    requires i < |s.intents| && j < |s.intents| && s'.intents == s.intents[i := pi']
    requires RefundTotal(s'.txns, j) == if j == i then refunded else RefundTotal(s.txns, j)
    ensures Per(s', g)(j) == if j == i then g(i, pi', refunded) else Per(s, g)(j)
  {
  }

  /** A step changes every tally by the change of its own intent's measure. */
  lemma WriteMovesTally(s: Tables, i: Id, legs: seq<Leg>, next: Status, now: Time, s': Tables, g: Measure)
    requires i < |s.intents| == |s'.intents| && Wrote(s, s', i, legs, next, now)
    requires legs == [] <==> KindsOf(next) == []
    ensures Tally(s', g) == Tally(s, g)
                            + g(i, Advanced(s.intents[i], next, now), RefundAfter(s, i, legs, next))
                            - g(i, s.intents[i], RefundTotal(s.txns, i))
  {
    var f, f' := Per(s, g), Per(s', g);
    var pi', refunded := Advanced(s.intents[i], next, now), RefundAfter(s, i, legs, next);
    forall j: nat | j < |s.intents|
      ensures f'(j) == if j == i then g(i, pi', refunded) else f(j)
    {
      RunAppends(s, i, legs, next, now, s', j);
      OneMoves(s, s', i, pi', refunded, g, j);
    }
    SumChangesAt(|s.intents|, f, f', i);
  }

  ghost predicate Reconciled(s: Tables, sel: Selection) {
    Inv(s) && Balance(s, sel) == Tally(s, ShareBy(sel))
  }

  /** Any write that moves its intent's standing keeps balance and closed form together. */
  lemma WriteKeepsClosedForm(s: Tables, i: Id, legs: seq<Leg>, next: Status, now: Time, s': Tables, sel: Selection)
    requires Reconciled(s, sel) && i < |s.intents| && Wrote(s, s', i, legs, next, now)
    requires legs == [] <==> KindsOf(next) == []
    requires Moves(i, s.intents[i], RefundTotal(s.txns, i), legs, Advanced(s.intents[i], next, now), RefundAfter(s, i, legs, next), sel)
    ensures Balance(s', sel) == Tally(s', ShareBy(sel))
  {
    WriteMovesBalance(s, i, legs, next, now, s', sel);
    WriteMovesTally(s, i, legs, next, now, s', ShareBy(sel));
  }

  lemma RunKeepsClosedForm(s: Tables, req: Request, now: Time, s': Tables, sel: Selection)
    requires Reconciled(s, sel) && Step(s, Run(req, now), s')
    ensures Balance(s', sel) == Tally(s', ShareBy(sel))
  {
    var i, plan := req.id, Serve(s, req);
    assert IntentTold(s, i);
    PlansAreSound(s, req);
    PlanMovesStanding(i, s.intents[i], req.call, RefundTotal(s.txns, i), now, sel);
    WriteKeepsClosedForm(s, i, plan.legs, plan.next, now, s', sel);
  }

  lemma OpenKeepsClosedForm(s: Tables, pi: Intent, sel: Selection)
    requires Reconciled(s, sel) && pi.status == Created
    requires RefundTotal(s.txns, |s.intents|) == 0
    ensures var s' := s.(intents := s.intents + [pi]); Balance(s', sel) == Tally(s', ShareBy(sel))
  {
    OpenAddsMeasure(s, pi, ShareBy(sel));
  }

  lemma StepKeepsClosedForm(s: Tables, op: Op, s': Tables, sel: Selection)
    requires Reconciled(s, sel) && Step(s, op, s')
    ensures Reconciled(s', sel)
  {
    StepKeepsInv(s, op, s');
    match op
    case Open(merchant, input, now) =>
      OpenKeepsRows(s, Validated(merchant, input, now).value);
      NothingYet(s.txns, s.outbox, |s.intents|);
      OpenKeepsClosedForm(s, Validated(merchant, input, now).value, sel);
    case Run(req, now) =>
      RunKeepsClosedForm(s, req, now, s', sel);
  }

  lemma NothingReconciles(s: Tables, sel: Selection)
    requires s == EMPTY
    ensures Reconciled(s, sel)
  {
  }

  lemma RunsReconcile(trace: seq<Tables>, ops: seq<Op>, n: nat, sel: Selection)
    requires SerialRun(trace, ops) && n < |trace|
    ensures Reconciled(trace[n], sel)
  {
    NothingReconciles(EMPTY, sel);
    forall s, op, s' | Reconciled(s, sel) && Step(s, op, s')
      ensures Reconciled(s', sel)
    {
      StepKeepsClosedForm(s, op, s', sel);
    }
    Runs.Induction(s => Reconciled(s, sel), EMPTY, Steps(), trace, ops, n);
  }

  /** In every state of every serial run, for every selection of accounts, the balance derived from
      the entry log equals the closed form over the intents. */
  lemma LedgerIsClosedForm(trace: seq<Tables>, ops: seq<Op>, n: nat, sel: Selection)
    requires SerialRun(trace, ops) && n < |trace|
    ensures Balance(trace[n], sel) == Tally(trace[n], ShareBy(sel))
  {
    RunsReconcile(trace, ops, n, sel);
  }
}
