/** What each money call decides once it holds the intent's row (service/money.go), and the serial
    steps of the committed tables that follow from it. */
module Money {
  import opened Wrappers
  import opened StateMachine
  import opened Tables
  import Posting
  import Runs

  /** An answer of the bank; `Unreachable` is every timeout and transport error. */
  datatype BankReply = Approved | Declined | Unreachable

  datatype Call =
    | Confirm(authorize: BankReply)
    | Capture(capture: BankReply)
    | Refund(amount: int64)
    | Release
    | Settle
    | Expire

  datatype Request = Request(id: Id, merchant: Id, call: Call)

  datatype MoneyError =
    | InvalidAmount
    | InvalidCurrency
    | PayeeRequired
    | InvalidFee
    | IntentNotFound
    | InvalidState
    | BankUnavailable
    | BankDeclined
    | RefundExceedsCapture
    | PartialRefundBeforeSettle
    | PartialEscrowRefund
    | LedgerRejects(why: Posting.LedgerError)
    | DatabaseFailed

  /** One side of a posting, still by account key rather than by account row. */
  datatype Leg = Leg(key: AccountKey, debit: int64, credit: int64)

  datatype Plan =
    | Reject(error: MoneyError)
    | Skip
    | Write(legs: seq<Leg>, next: Status)

  function Debit(pi: Intent, kind: AccountKind, ref: Option<Id>, amount: int64): Leg {
    Leg(AccountKey(pi.merchant, kind, pi.currency, ref), amount, 0)
  }

  function Credit(pi: Intent, kind: AccountKind, ref: Option<Id>, amount: int64): Leg {
    Leg(AccountKey(pi.merchant, kind, pi.currency, ref), 0, amount)
  }

  function DecideConfirm(pi: Intent, bank: BankReply): Plan {
    if pi.status == Created && !CanTransition(pi.mode, Created, RequiresConfirmation) then Reject(InvalidState)
    else if pi.status != Created && pi.status != RequiresConfirmation then Reject(InvalidState)
    else if bank.Unreachable? then Reject(BankUnavailable)
    else
      var next := if bank.Declined? then Failed else Authorized;
      if CanTransition(pi.mode, RequiresConfirmation, next) then Write([], next) else Reject(InvalidState)
  }

  function DecideCapture(i: Id, pi: Intent, bank: BankReply): Plan {
    if !CanTransition(pi.mode, pi.status, Captured) then Reject(InvalidState)
    else if bank.Unreachable? then Reject(BankUnavailable)
    else if !bank.Approved? then Reject(BankDeclined)
    else
      var payable := if pi.mode.Escrow? then Credit(pi, EscrowLiability, Some(i), pi.amount)
                     else Credit(pi, MerchantPayable, None, pi.amount);
      Write([Debit(pi, AcquirerReceivable, None, pi.amount), payable], Captured)
  }

  function DecideRefund(i: Id, pi: Intent, amount: int64): Plan {
    if pi.mode.Escrow? then
      if amount != pi.amount then Reject(PartialEscrowRefund)
      else if !CanTransition(pi.mode, pi.status, Refunded) then Reject(InvalidState)
      else Write([Debit(pi, EscrowLiability, Some(i), amount), Credit(pi, SegregatedCash, None, amount)], Refunded)
    else if amount > pi.amount then Reject(RefundExceedsCapture)
    else if pi.status == Captured && amount < pi.amount then Reject(PartialRefundBeforeSettle)
    else
      var next := if amount == pi.amount then Refunded else PartiallyRefunded;
      if !CanTransition(pi.mode, pi.status, next) then Reject(InvalidState)
      else
        var from := if pi.status == Settled then PlatformCash else AcquirerReceivable;
        Write([Debit(pi, MerchantPayable, None, amount), Credit(pi, from, None, amount)], next)
  }

  /** All cash leaves segregation, whoever gets it. */
  function UnheldLegs(i: Id, pi: Intent): seq<Leg> {
    [Debit(pi, EscrowLiability, Some(i), pi.amount),
     Debit(pi, PlatformCash, None, pi.amount),
     Credit(pi, SegregatedCash, None, pi.amount)]
  }

  /** A leg that would be zero is omitted. */
  function PayeeLegs(i: Id, pi: Intent, payeeAmount: int64): seq<Leg> {
    UnheldLegs(i, pi) + (if payeeAmount > 0 then [Credit(pi, PayableToPayee, pi.payee, payeeAmount)] else [])
  }

  function ReleaseLegs(i: Id, pi: Intent, fee: int64, payeeAmount: int64): seq<Leg> {
    PayeeLegs(i, pi, payeeAmount) + (if fee > 0 then [Credit(pi, PlatformRevenue, None, fee)] else [])
  }

  function DecideRelease(i: Id, pi: Intent): Plan {
    if !CanTransition(pi.mode, pi.status, Released) || pi.payee.None? then Reject(InvalidState)
    else
      var fee: int64 := if pi.fee.Some? then pi.fee.value else 0;
      Write(ReleaseLegs(i, pi, fee, Wrap64(pi.amount - fee)), Released)
  }

  function DecideSettle(pi: Intent): Plan {
    if pi.status != Captured then Skip
    else
      var target := if pi.mode.Escrow? then HeldInEscrow else Settled;
      var cash := if pi.mode.Escrow? then SegregatedCash else PlatformCash;
      if !CanTransition(pi.mode, pi.status, target) then Reject(InvalidState)
      else Write([Debit(pi, cash, None, pi.amount), Credit(pi, AcquirerReceivable, None, pi.amount)], target)
  }

  function DecideExpire(pi: Intent): Plan {
    if CanTransition(pi.mode, pi.status, Failed) then Write([], Failed) else Skip
  }

  function Decide(i: Id, pi: Intent, call: Call): Plan {
    match call
    case Confirm(bank) => DecideConfirm(pi, bank)
    case Capture(bank) => DecideCapture(i, pi, bank)
    case Refund(amount) => DecideRefund(i, pi, amount)
    case Release => DecideRelease(i, pi)
    case Settle => DecideSettle(pi)
    case Expire => DecideExpire(pi)
  }

  /** Whatever a call writes, it moves its intent on. */
  lemma WritesClimb(i: Id, pi: Intent, call: Call)
    requires Decide(i, pi, call).Write?
    ensures Rank(Decide(i, pi, call).next) > Rank(pi.status)
  {
  }

  /** A refund's amount is checked before the row is looked up; the row is scoped to its merchant. */
  function Serve(s: Tables, req: Request): Plan {
    if req.call.Refund? && req.call.amount <= 0 then Reject(InvalidAmount)
    else if req.id >= |s.intents| || s.intents[req.id].merchant != req.merchant then Reject(IntentNotFound)
    else Decide(req.id, s.intents[req.id], req.call)
  }

  /** The ledger transaction that a status change posts, if any. */
  function KindsOf(next: Status): seq<TxnKind> {
    match next
    case Captured => [CaptureTxn]
    case Settled => [SettleTxn]
    case HeldInEscrow => [SettleTxn]
    case Released => [ReleaseTxn]
    case Refunded => [RefundTxn]
    case PartiallyRefunded => [RefundTxn]
    case _ => []
  }

  /** The status as the payment_intents column spells it. */
  function StatusText(status: Status): string {
    match status
    case Created => "created"
    case RequiresConfirmation => "requires_confirmation"
    case Authorized => "authorized"
    case Captured => "captured"
    case Settled => "settled"
    case HeldInEscrow => "held_in_escrow"
    case Released => "released"
    case Failed => "failed"
    case Refunded => "refunded"
    case PartiallyRefunded => "partially_refunded"
  }

  function EventTypeFor(status: Status): string {
    match status
    case Released => "escrow.released"
    case _ => "payment_intent." + StatusText(status)
  }

  lemma PrefixCancels(p: string, a: string, b: string)
    ensures p + a == p + b ==> a == b
  {
    if p + a == p + b {
      assert a == (p + a)[|p|..] == (p + b)[|p|..] == b;
    }
  }

  /** A subscriber can tell every status apart by the event type alone. */
  lemma EventTypesAreDistinct(a: Status, b: Status)
    ensures EventTypeFor(a) == EventTypeFor(b) <==> a == b
  {
    var prefix := "payment_intent.";
    if a != Released && b != Released {
      PrefixCancels(prefix, StatusText(a), StatusText(b));
      if StatusText(a) == StatusText(b) {
        TextsAreDistinct(a, b);
      }
    } else {
      assert a != Released ==> EventTypeFor(a)[0] == 'p';
      assert b != Released ==> EventTypeFor(b)[0] == 'p';
    }
  }

  lemma TextsAreDistinct(a: Status, b: Status)
    requires StatusText(a) == StatusText(b)
    ensures a == b
  {
    var x, y := StatusText(a), StatusText(b);
    assert |x| == |y| && x[0] == y[0] && x[2] == y[2];
  }

  /** The status that a text of the column stands for; the CHECK on it allows no other text. */
  function StatusNamed(text: string): Option<Status> {
    if text == "created" then Some(Created)
    else if text == "requires_confirmation" then Some(RequiresConfirmation)
    else if text == "authorized" then Some(Authorized)
    else if text == "captured" then Some(Captured)
    else if text == "settled" then Some(Settled)
    else if text == "held_in_escrow" then Some(HeldInEscrow)
    else if text == "released" then Some(Released)
    else if text == "failed" then Some(Failed)
    else if text == "refunded" then Some(Refunded)
    else if text == "partially_refunded" then Some(PartiallyRefunded)
    else None
  }

  /** What is written to the column reads back as it was, and every text it may hold is written for the
      status it stands for. */
  lemma StatusesReadBack(status: Status, text: string)
    ensures StatusNamed(StatusText(status)) == Some(status)
    ensures StatusNamed(text) == Some(status) <==> text == StatusText(status)
  {
    if StatusNamed(text) == Some(status) {
      assert text == StatusText(status);
    }
    assert |StatusText(status)| > 4;
  }

  /** A subscriber reads the new status off the event type: after the common prefix, or, for a release, from
      the one type outside it. */
  lemma EventTypesTellStatus(status: Status)
    ensures status == Released ==> EventTypeFor(status) == "escrow.released"
    ensures status != Released ==>
      var prefix := "payment_intent.";
      var text := EventTypeFor(status);
      |text| >= |prefix| && text[..|prefix|] == prefix && StatusNamed(text[|prefix|..]) == Some(status)
  {
    var prefix := "payment_intent.";
    assert EventTypeFor(status) == (if status == Released then "escrow.released" else prefix + StatusText(status));
    assert status != Released ==> EventTypeFor(status)[|prefix|..] == StatusText(status);
    StatusesReadBack(status, StatusText(status));
  }

  function EventFor(eventId: Id, i: Id, pi: Intent): Event {
    Event(eventId, pi.merchant, EventTypeFor(pi.status), Payload(i, pi.status, pi.amount, pi.currency, pi.mode))
  }

  ghost function LegKeys(legs: seq<Leg>): set<AccountKey> {
    set k | 0 <= k < |legs| :: legs[k].key
  }

  /** The entries are the legs with each key replaced by its account row. */
  ghost predicate EntriesFor(accounts: map<Id, Account>, entries: seq<Entry>, legs: seq<Leg>, currency: Currency) {
    && |entries| == |legs|
    && forall k :: 0 <= k < |legs| ==>
         && entries[k].account in accounts
         && accounts[entries[k].account].key == legs[k].key
         && entries[k].debit == legs[k].debit
         && entries[k].credit == legs[k].credit
         && entries[k].currency == currency
  }

  /** The committed effect of one money call: its posting, its status change and its one event. */
  ghost predicate Wrote(s: Tables, s': Tables, i: Id, legs: seq<Leg>, next: Status, now: Time)
    requires i < |s.intents|
  {
    var pi := s.intents[i].(status := next, updatedAt := now);
    && s'.intents == s.intents[i := pi]
    && Grown(s.accounts, s'.accounts, LegKeys(legs))
    && Posted(s, s', i, legs, next)
    && |s'.outbox| == |s.outbox| + 1
    && s'.outbox == s.outbox + [s'.outbox[|s.outbox|]]
    && s'.outbox[|s.outbox|] == EventFor(s'.outbox[|s.outbox|].eventId, i, pi)
    && FreshEvent(s.outbox, s'.outbox[|s.outbox|].eventId)
  }

  ghost predicate Posted(s: Tables, s': Tables, i: Id, legs: seq<Leg>, next: Status)
    requires i < |s.intents|
  {
    if legs == [] then s'.txns == s.txns
    else
      && |s'.txns| == |s.txns| + 1
      && s'.txns == s.txns + [s'.txns[|s.txns|]]
      && var t := s'.txns[|s.txns|];
      && t.merchant == s.intents[i].merchant
      && t.ref == i
      && [t.kind] == KindsOf(next)
      && EntriesFor(s'.accounts, t.entries, legs, s.intents[i].currency)
      && Posting.Verdict(t.entries).None?
  }

  datatype CreateInput = CreateInput(
    amount: int64,
    currency: string,
    escrow: bool,
    payee: Option<Id>,
    fee: Option<int64>)

  /** The all-zero uuid. */
  const NIL: Id := 0

  predicate Letter(c: char) {
    'a' <= c <= 'z' || 'A' <= c <= 'Z'
  }

  function Upper(c: char): char {
    if 'a' <= c <= 'z' then c - ('a' - 'A') else c
  }

  /** Three letters, upper-cased. */
  function Normalized(cur: string): Option<Currency> {
    if |cur| == 3 && Letter(cur[0]) && Letter(cur[1]) && Letter(cur[2])
    then Some([Upper(cur[0]), Upper(cur[1]), Upper(cur[2])])
    else None
  }

  /** Create's validation, and the row it inserts. */
  function Validated(merchant: Id, input: CreateInput, now: Time): Result<Intent, MoneyError> {
    if input.amount <= 0 then Failure(InvalidAmount)
    else if Normalized(input.currency).None? then Failure(InvalidCurrency)
    else
      var cur := Normalized(input.currency).value;
      if !input.escrow then Success(Intent(merchant, input.amount, cur, Created, Direct, None, None, now))
      else if input.payee.None? || input.payee.value == NIL then Failure(PayeeRequired)
      else if input.fee.None? || input.fee.value < 0 || input.fee.value > input.amount then Failure(InvalidFee)
      else Success(Intent(merchant, input.amount, cur, Created, Escrow, input.payee, input.fee, now))
  }

  /** The operations that can change the committed tables. */
  datatype Op =
    | Open(merchant: Id, input: CreateInput, at: Time)
    | Run(req: Request, at: Time)

  /** One committed operation, alone. */
  ghost predicate Step(s: Tables, op: Op, s': Tables) {
    match op
    case Open(merchant, input, now) =>
      var row := Validated(merchant, input, now);
      row.Success? && s' == s.(intents := s.intents + [row.value])
    case Run(req, now) =>
      var plan := Serve(s, req);
      plan.Write? && Wrote(s, s', req.id, plan.legs, plan.next, now)
  }

  ghost function Steps(): Runs.Relation<Tables, Op> {
    (s, op, s') => Step(s, op, s')
  }

  /** A serial run from the empty database. */
  ghost predicate SerialRun(trace: seq<Tables>, ops: seq<Op>) {
    Runs.IsRun(EMPTY, Steps(), trace, ops)
  }
}
