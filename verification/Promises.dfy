/** What each call promises its caller, told from the stored row, the input and the bank's answer alone:
    when it is granted, what row it answers, and which error every other case gets. The database may fail
    at any query, so that error is always open once a call has turned to it. */
module Promises {
  import opened Wrappers
  import opened StateMachine
  import opened Tables
  import opened Money

  predicate Found(s: Tables, id: Id, merchant: Id) {
    id < |s.intents| && s.intents[id].merchant == merchant
  }

  function Moved(pi: Intent, status: Status, now: Time): Intent {
    pi.(status := status, updatedAt := now)
  }

  type Answer = Result<Intent, MoneyError>

  // ---------------------------------------------------------------- what is promised

  /** The bank decides: approved authorizes, declined fails, no answer changes nothing. */
  predicate ConfirmAnswer(s: Tables, id: Id, merchant: Id, bank: BankReply, now: Time, r: Answer) {
    r == Failure(DatabaseFailed) ||
    if !Found(s, id, merchant) then r == Failure(IntentNotFound)
    else
      var row := s.intents[id];
      if row.status == Created || row.status == RequiresConfirmation then
        match bank
        case Approved => r == Success(Moved(row, Authorized, now))
        case Declined => r == Success(Moved(row, Failed, now))
        case Unreachable => r == Failure(BankUnavailable)
      else r == Failure(InvalidState)
  }

  /** Only an authorized intent is captured, and only with the bank's approval. */
  predicate CaptureAnswer(s: Tables, id: Id, merchant: Id, bank: BankReply, now: Time, r: Answer) {
    r == Failure(DatabaseFailed) ||
    if !Found(s, id, merchant) then r == Failure(IntentNotFound)
    else
      var row := s.intents[id];
      if row.status == Authorized then
        match bank
        case Approved => r == Success(Moved(row, Captured, now))
        case Declined => r == Failure(BankDeclined)
        case Unreachable => r == Failure(BankUnavailable)
      else r == Failure(InvalidState)
  }

  /** Exactly the refunds that are granted: in full before settlement, in full or in part after it, in
      full from escrow. */
  predicate Refundable(pi: Intent, amount: int) {
    && 0 < amount
    && match (pi.mode, pi.status)
       case (Direct, Captured) => amount == pi.amount
       case (Direct, Settled) => amount <= pi.amount
       case (Escrow, HeldInEscrow) => amount == pi.amount
       case _ => false
  }

  /** Why a refund of a positive amount is not granted. */
  predicate RefundFault(pi: Intent, amount: int, e: MoneyError) {
    match e
    case PartialEscrowRefund => pi.mode == Escrow && amount != pi.amount
    case RefundExceedsCapture => pi.mode == Direct && amount > pi.amount
    case PartialRefundBeforeSettle => pi.mode == Direct && pi.status == Captured && amount < pi.amount
    case InvalidState =>
      if pi.mode == Escrow then amount == pi.amount && pi.status != HeldInEscrow
      else amount <= pi.amount && pi.status != Captured && pi.status != Settled
    case _ => false
  }

  predicate RefundAnswer(s: Tables, id: Id, merchant: Id, amount: int64, now: Time, r: Answer) {
    if amount <= 0 then r == Failure(InvalidAmount)
    else
      r == Failure(DatabaseFailed) ||
      if !Found(s, id, merchant) then r == Failure(IntentNotFound)
      else
        var row := s.intents[id];
        if Refundable(row, amount) then
          r == Success(Moved(row, if amount == row.amount then Refunded else PartiallyRefunded, now))
        else r.Failure? && RefundFault(row, amount, r.error)
  }

  predicate ReleaseAnswer(s: Tables, id: Id, merchant: Id, now: Time, r: Answer) {
    r == Failure(DatabaseFailed) ||
    if !Found(s, id, merchant) then r == Failure(IntentNotFound)
    else
      var row := s.intents[id];
      if row.mode == Escrow && row.status == HeldInEscrow && row.payee.Some? then r == Success(Moved(row, Released, now))
      else r == Failure(InvalidState)
  }

  /** A captured intent is settled, any other is left as it is. */
  predicate SettleAnswer(s: Tables, id: Id, merchant: Id, now: Time, r: Result<(), MoneyError>, s': Tables) {
    if r == Failure(DatabaseFailed) then s' == s
    else if !Found(s, id, merchant) then r == Failure(IntentNotFound) && s' == s
    else
      var row := s.intents[id];
      && r.Success?
      && if row.status == Captured
         then s'.intents == s.intents[id := Moved(row, if row.mode == Escrow then HeldInEscrow else Settled, now)]
         else s' == s
  }

  /** An intent that has not been captured fails, any other is left as it is. */
  predicate ExpireAnswer(s: Tables, id: Id, merchant: Id, now: Time, r: Result<(), MoneyError>, s': Tables) {
    if r == Failure(DatabaseFailed) then s' == s
    else if !Found(s, id, merchant) then r == Failure(IntentNotFound) && s' == s
    else
      var row := s.intents[id];
      && r.Success?
      && if row.status == Created || row.status == RequiresConfirmation || row.status == Authorized
         then s'.intents == s.intents[id := Moved(row, Failed, now)]
         else s' == s
  }

  predicate AsciiLetter(c: char) {
    'A' <= c <= 'Z' || 'a' <= c <= 'z'
  }

  /** In ASCII a letter's two cases are 32 apart. */
  predicate UpperCaseOf(upper: char, c: char) {
    'A' <= upper <= 'Z' && (c == upper || c as int == upper as int + 32)
  }

  /** The currency code a caller may give, and the one that is kept. */
  predicate IsCode(cur: string) {
    |cur| == 3 && forall k :: 0 <= k < 3 ==> AsciiLetter(cur[k])
  }

  predicate CodeOf(kept: string, given: string) {
    |kept| == |given| == 3 && forall k :: 0 <= k < 3 ==> UpperCaseOf(kept[k], given[k])
  }

  /** The row carries what was asked for. */
  predicate CarriesOut(merchant: Id, input: CreateInput, now: Time, pi: Intent) {
    && pi.merchant == merchant && pi.amount == input.amount && CodeOf(pi.currency, input.currency)
    && pi.status == Created && pi.updatedAt == now
    && if input.escrow then pi.mode == Escrow && pi.payee == input.payee && pi.fee == input.fee
       else pi.mode == Direct && pi.payee == None && pi.fee == None
  }

  predicate CreateAnswer(merchant: Id, input: CreateInput, now: Time, r: Answer) {
    if input.amount <= 0 then r == Failure(InvalidAmount)
    else if !IsCode(input.currency) then r == Failure(InvalidCurrency)
    else if input.escrow && (input.payee == None || input.payee == Some(NIL)) then r == Failure(PayeeRequired)
    else if input.escrow && !(input.fee.Some? && 0 <= input.fee.value <= input.amount) then r == Failure(InvalidFee)
    else r == Failure(DatabaseFailed) || (r.Success? && CarriesOut(merchant, input, now, r.value))
  }

  // ---------------------------------------------------------------- and kept

  /** What a plan answers once it is carried out. */
  function AnswerOf(s: Tables, req: Request, now: Time): Answer {
    match Serve(s, req)
    case Reject(e) => Failure(e)
    case Skip => Failure(InvalidState)
    case Write(_, next) => Success(Moved(s.intents[req.id], next, now))
  }

  lemma ConfirmIsKept(s: Tables, id: Id, merchant: Id, bank: BankReply, now: Time)
    ensures ConfirmAnswer(s, id, merchant, bank, now, AnswerOf(s, Request(id, merchant, Confirm(bank)), now))
  {
  }

  lemma CaptureIsKept(s: Tables, id: Id, merchant: Id, bank: BankReply, now: Time)
    ensures CaptureAnswer(s, id, merchant, bank, now, AnswerOf(s, Request(id, merchant, Capture(bank)), now))
  {
    assert forall mode, from :: CanTransition(mode, from, Captured) <==> from == Authorized;
  }

  lemma RefundIsKept(s: Tables, id: Id, merchant: Id, amount: int64, now: Time)
    ensures RefundAnswer(s, id, merchant, amount, now, AnswerOf(s, Request(id, merchant, Refund(amount)), now))
  {
    assert forall from :: CanTransition(Escrow, from, Refunded) <==> from == HeldInEscrow;
    assert forall from :: CanTransition(Direct, from, Refunded) <==> from == Captured || from == Settled;
    assert forall from :: CanTransition(Direct, from, PartiallyRefunded) <==> from == Captured || from == Settled;
  }

  lemma ReleaseIsKept(s: Tables, id: Id, merchant: Id, now: Time)
    ensures ReleaseAnswer(s, id, merchant, now, AnswerOf(s, Request(id, merchant, Release), now))
  {
    assert forall mode, from :: CanTransition(mode, from, Released) <==> mode == Escrow && from == HeldInEscrow;
  }

  /** A refund is granted, or the database fails, exactly when it is refundable. */
  lemma RefundGrantedIff(s: Tables, id: Id, merchant: Id, amount: int64, now: Time, r: Answer)
    requires RefundAnswer(s, id, merchant, amount, now, r) && r != Failure(DatabaseFailed)
    ensures r.Success? <==> Found(s, id, merchant) && Refundable(s.intents[id], amount)
  {
  }

  /** No two complaints fit one refund, and one fits whenever it is not granted. */
  lemma OneFaultFits(pi: Intent, amount: int)
    requires 0 < amount
    ensures !Refundable(pi, amount) <==> exists e :: RefundFault(pi, amount, e)
    ensures forall e, e' :: RefundFault(pi, amount, e) && RefundFault(pi, amount, e') ==> e == e'
  {
    var e := if pi.mode == Escrow then (if amount != pi.amount then PartialEscrowRefund else InvalidState)
             else if amount > pi.amount then RefundExceedsCapture
             else if pi.status == Captured then PartialRefundBeforeSettle
             else InvalidState;
    assert !Refundable(pi, amount) ==> RefundFault(pi, amount, e);
  }

  lemma CodesAreKept(cur: string)
    ensures Normalized(cur).Some? <==> IsCode(cur)
    ensures Normalized(cur).Some? ==> CodeOf(Normalized(cur).value, cur)
  {
  }

  lemma CreateIsKept(merchant: Id, input: CreateInput, now: Time)
    ensures CreateAnswer(merchant, input, now, Validated(merchant, input, now))
  {
    CodesAreKept(input.currency);
  }
}
