/** The money service (service/money.go, service/payment_intent.go): each call is one transaction on
    the database handle, and does to the committed tables exactly what its plan says, or nothing. */
module Service {
  import opened Wrappers
  import opened StateMachine
  import opened Tables
  import Posting
  import opened Money
  import opened Lifecycle
  import opened Store
  import opened Promises
  import Runs

  // ---------------------------------------------------------------- contracts

  /** What a money call may do: commit one step of its request and return the row it wrote, or leave
      the committed tables alone and say why: the database failed, or the request is refused. */
  ghost predicate Served(before: Tables, req: Request, now: Time, r: Result<Intent, MoneyError>, after: Tables) {
    match r
    case Success(pi) =>
      Step(before, Run(req, now), after) && req.id < |after.intents| && pi == after.intents[req.id]
    case Failure(e) =>
      after == before && (e == DatabaseFailed || Serve(before, req) == Reject(e))
  }

  /** The same for a sweep's call, which may also find nothing to do. */
  ghost predicate Swept(before: Tables, req: Request, now: Time, r: Result<(), MoneyError>, after: Tables) {
    match r
    case Success(_) =>
      Step(before, Run(req, now), after) || (Serve(before, req) == Skip && after == before)
    case Failure(e) =>
      after == before && (e == DatabaseFailed || Serve(before, req) == Reject(e))
  }

  lemma SettleIsKept(before: Tables, id: Id, merchant: Id, now: Time, r: Result<(), MoneyError>, after: Tables)
    requires Swept(before, Request(id, merchant, Settle), now, r, after)
    ensures SettleAnswer(before, id, merchant, now, r, after)
  {
    assert CanTransition(Direct, Captured, Settled) && CanTransition(Escrow, Captured, HeldInEscrow);
  }

  lemma ExpireIsKept(before: Tables, id: Id, merchant: Id, now: Time, r: Result<(), MoneyError>, after: Tables)
    requires Swept(before, Request(id, merchant, Expire), now, r, after)
    ensures ExpireAnswer(before, id, merchant, now, r, after)
  {
    assert forall pi: Intent :: CanTransition(pi.mode, pi.status, Failed) <==>
        pi.status == Created || pi.status == RequiresConfirmation || pi.status == Authorized;
  }

  /** Nobody blames the database unless a query failed: then it was the last one asked. */
  ghost predicate Excused<T>(db: Database, since: nat, r: Result<T, MoneyError>)
    reads db
  {
    since <= db.asked && (r.Failure? && r.error == DatabaseFailed ==> db.Down(since))
  }

  /** The entry that books a leg on an account row. */
  function EntryOf(leg: Leg, account: Id): Entry {
    Entry(account, leg.debit, leg.credit, leg.key.currency)
  }

  /** Entries booked so far, on account rows upserted so far, for the first legs of a plan. */
  ghost predicate Booked(before: map<Id, Account>, now: map<Id, Account>, entries: seq<Entry>, legs: seq<Leg>) {
    && Grown(before, now, LegKeys(legs))
    && |entries| == |legs|
    && forall k :: 0 <= k < |legs| ==>
         && entries[k].account in now
         && now[entries[k].account].key == legs[k].key
         && entries[k] == EntryOf(legs[k], entries[k].account)
  }

  lemma GrownTwice(a: map<Id, Account>, b: map<Id, Account>, c: map<Id, Account>, first: set<AccountKey>, second: set<AccountKey>)
    requires Grown(a, b, first) && Grown(b, c, second)
    ensures Grown(a, c, first + second)
  {
  }

  /** Upserting one more leg's account and appending its entry. */
  lemma BookOne(before: map<Id, Account>, mid: map<Id, Account>, now: map<Id, Account>, entries: seq<Entry>,
                legs: seq<Leg>, leg: Leg, account: Id)
    requires Booked(before, mid, entries, legs) && Grown(mid, now, {leg.key})
    requires account in now && now[account].key == leg.key
    ensures Booked(before, now, entries + [EntryOf(leg, account)], legs + [leg])
  {
    GrownTwice(before, mid, now, LegKeys(legs), {leg.key});
    assert leg == (legs + [leg])[|legs|];
    assert forall k :: 0 <= k < |legs| ==> legs[k] == (legs + [leg])[k];
    assert LegKeys(legs + [leg]) == LegKeys(legs) + {leg.key};
  }

  lemma BookTwo(before: map<Id, Account>, mid: map<Id, Account>, now: map<Id, Account>, first: Leg, a: Id, second: Leg, b: Id)
    requires Grown(before, mid, {first.key}) && a in mid && mid[a].key == first.key
    requires Grown(mid, now, {second.key}) && b in now && now[b].key == second.key
    ensures Booked(before, now, [EntryOf(first, a), EntryOf(second, b)], [first, second])
  {
    BookOne(before, before, mid, [], [], first, a);
    BookOne(before, mid, now, [] + [EntryOf(first, a)], [] + [first], second, b);
    assert [] + [EntryOf(first, a)] + [EntryOf(second, b)] == [EntryOf(first, a), EntryOf(second, b)];
    assert [] + [first] + [second] == [first, second];
  }

  lemma BookedEntries(before: map<Id, Account>, now: map<Id, Account>, entries: seq<Entry>, legs: seq<Leg>, currency: Currency)
    requires Booked(before, now, entries, legs)
    requires forall k :: 0 <= k < |legs| ==> legs[k].key.currency == currency
    ensures EntriesFor(now, entries, legs, currency)
  {
  }

  lemma Acceptable(s: Tables, req: Request, accounts: map<Id, Account>, entries: seq<Entry>)
    requires Inv(s) && Serve(s, req).Write? && Serve(s, req).legs != []
    requires Booked(s.accounts, accounts, entries, Serve(s, req).legs)
    ensures EntriesFor(accounts, entries, Serve(s, req).legs, s.intents[req.id].currency)
    ensures Posting.Verdict(entries).None?
  {
    var pi, legs := s.intents[req.id], Serve(s, req).legs;
    assert IntentTold(s, req.id);
    PlansAreSound(s, req);
    BookedEntries(s.accounts, accounts, entries, legs, pi.currency);
    PostingNeverRejects(accounts, entries, pi, legs);
  }

  // ---------------------------------------------------------------- the end of every transaction

  /** emit: the event of an intent's new state, in the caller's transaction. */
  method Emit(db: Database, id: Id, pi: Intent) returns (r: Result<(), MoneyError>)
    requires db.Valid()
    modifies db`outbox, db`issued, db`asked
    ensures db.Valid()
    ensures r.Success? ==> |db.outbox| == |old(db.outbox)| + 1
    ensures r.Success? ==> db.outbox == old(db.outbox) + [EventFor(db.outbox[|old(db.outbox)|].eventId, id, pi)]
    ensures r.Success? ==> FreshEvent(old(db.outbox), db.outbox[|old(db.outbox)|].eventId)
    ensures r.Failure? ==> r.error == DatabaseFailed
    ensures Excused(db, old(db.asked), r)
  {
    r := db.InsertOutbox(pi.merchant, EventTypeFor(pi.status), Payload(id, pi.status, pi.amount, pi.currency, pi.mode));
  }

  /** What is written once the accounts are upserted, the entries posted, the status set and its event
      emitted. */
  ghost function Written(s: Tables, accounts: map<Id, Account>, txns: seq<Txn>, i: Id, next: Status, now: Time, e: Event): Tables
    requires i < |s.intents|
  {
    Tables(s.intents[i := s.intents[i].(status := next, updatedAt := now)], accounts, txns, s.outbox + [e])
  }

  /** It is one serial step. */
  lemma WritesAreSteps(s: Tables, req: Request, accounts: map<Id, Account>, txns: seq<Txn>, legs: seq<Leg>, next: Status, now: Time, e: Event)
    requires Inv(s) && Serve(s, req) == Write(legs, next) && Grown(s.accounts, accounts, LegKeys(legs))
    requires req.id < |s.intents| && Posted(s, Tables(s.intents, accounts, txns, s.outbox), req.id, legs, next)
    requires FreshEvent(s.outbox, e.eventId)
    requires e == EventFor(e.eventId, req.id, s.intents[req.id].(status := next, updatedAt := now))
    ensures var s' := Written(s, accounts, txns, req.id, next, now, e); Step(s, Run(req, now), s') && Inv(s')
  {
    var s' := Written(s, accounts, txns, req.id, next, now, e);
    assert Wrote(s, s', req.id, legs, next, now);
    StepKeepsInv(s, Run(req, now), s');
  }

  /** Persist the status and emit its event, both still private. */
  method Announce(db: Database, id: Id, next: Status, now: Time) returns (r: Result<Intent, MoneyError>)
    requires db.Valid() && id < |db.intents|
    modifies db`intents, db`outbox, db`issued, db`asked
    ensures db.Valid()
    ensures r.Success? ==> r.value == old(db.intents)[id].(status := next, updatedAt := now)
    ensures r.Success? ==> db.intents == old(db.intents)[id := r.value]
    ensures r.Success? ==> |db.outbox| == |old(db.outbox)| + 1
    ensures r.Success? ==> db.outbox == old(db.outbox) + [EventFor(db.outbox[|old(db.outbox)|].eventId, id, r.value)]
    ensures r.Success? ==> FreshEvent(old(db.outbox), db.outbox[|old(db.outbox)|].eventId)
    ensures r.Failure? ==> r.error == DatabaseFailed
    ensures Excused(db, old(db.asked), r)
  {
    var updated :- db.UpdateIntentStatus(id, next, now);
    var _ :- Emit(db, id, updated);
    return Success(updated);
  }

  /** Persist the status, emit its event and commit. */
  method Advance(db: Database, ghost req: Request, ghost legs: seq<Leg>, id: Id, next: Status, now: Time)
    returns (r: Result<Intent, MoneyError>)
    requires db.Valid() && Inv(db.saved) && id == req.id < |db.saved.intents|
    requires Serve(db.saved, req) == Write(legs, next)
    requires db.intents == db.saved.intents && db.outbox == db.saved.outbox
    requires Grown(db.saved.accounts, db.accounts, LegKeys(legs))
    requires Posted(db.saved, db.View(), id, legs, next)
    modifies db
    ensures db.Valid() && Inv(db.saved)
    ensures Served(old(db.saved), req, now, r, db.saved)
    ensures Excused(db, old(db.asked), r)
    ensures r.Success? ==> db.View() == db.saved
  {
    ghost var before := db.saved;
    var updated :- Announce(db, id, next, now);
    ghost var e := db.outbox[|before.outbox|];
    WritesAreSteps(before, req, db.accounts, db.txns, legs, next, now, e);
    assert db.View() == Written(before, db.accounts, db.txns, id, next, now, e);
    var _ :- db.Commit();
    return Success(updated);
  }

  /** Post the entries of a plan, then advance. */
  method Book(db: Database, ghost req: Request, ghost legs: seq<Leg>, id: Id, merchant: Id, kind: TxnKind,
              entries: seq<Entry>, next: Status, now: Time)
    returns (r: Result<Intent, MoneyError>)
    requires db.Valid() && Inv(db.saved) && id == req.id < |db.saved.intents| && merchant == db.saved.intents[id].merchant
    requires Serve(db.saved, req) == Write(legs, next) && legs != [] && KindsOf(next) == [kind]
    requires db.intents == db.saved.intents && db.outbox == db.saved.outbox && db.txns == db.saved.txns
    requires Booked(db.saved.accounts, db.accounts, entries, legs)
    modifies db
    ensures db.Valid() && Inv(db.saved)
    ensures Served(old(db.saved), req, now, r, db.saved)
    ensures Excused(db, old(db.asked), r)
    ensures r.Success? ==> db.View() == db.saved
  {
    Acceptable(db.saved, req, db.accounts, entries);
    var _ :- PostTransaction(db, merchant, kind, id, entries);
    r := Advance(db, req, legs, id, next, now);
  }

  /** account and perRefAccount: the row that has the key, or a new one. */
  method AccountFor(db: Database, key: AccountKey) returns (r: Result<Id, MoneyError>)
    requires db.Valid()
    modifies db`accounts, db`issued, db`asked
    ensures db.Valid()
    ensures Grown(old(db.accounts), db.accounts, {key})
    ensures r.Success? ==> r.value in db.accounts && db.accounts[r.value].key == key
    ensures r.Failure? ==> r.error == DatabaseFailed
    ensures Excused(db, old(db.asked), r)
  {
    if key.ref == None {
      r := db.GetOrCreateSingletonAccount(key.merchant, TypeOf(key.kind), key.kind, key.currency);
    } else {
      r := db.GetOrCreatePerRefAccount(key.merchant, TypeOf(key.kind), key.kind, key.currency, key.ref.value);
    }
  }

  /** The shape capture, settlement and refund share: the debited account, the credited account, one
      posting of two entries, then the status. */
  method BookPair(db: Database, ghost req: Request, id: Id, merchant: Id, kind: TxnKind,
                  first: Leg, second: Leg, next: Status, now: Time)
    returns (r: Result<Intent, MoneyError>)
    requires db.Valid() && Inv(db.saved) && db.View() == db.saved
    requires id == req.id < |db.saved.intents| && merchant == db.saved.intents[id].merchant
    requires Serve(db.saved, req) == Write([first, second], next) && KindsOf(next) == [kind]
    modifies db
    ensures db.Valid() && Inv(db.saved)
    ensures Served(old(db.saved), req, now, r, db.saved)
    ensures Excused(db, old(db.asked), r)
    ensures r.Success? ==> db.View() == db.saved
  {
    var a :- AccountFor(db, first.key);
    ghost var mid := db.accounts;
    var b :- AccountFor(db, second.key);
    BookTwo(db.saved.accounts, mid, db.accounts, first, a, second, b);
    r := Book(db, req, [first, second], id, merchant, kind, [EntryOf(first, a), EntryOf(second, b)], next, now);
  }

  // ---------------------------------------------------------------- confirm

  method ConfirmTx(db: Database, id: Id, merchant: Id, bank: BankReply, now: Time) returns (r: Result<Intent, MoneyError>)
    requires db.Valid() && Inv(db.saved)
    modifies db
    ensures db.Valid() && Inv(db.saved)
    ensures Served(old(db.saved), Request(id, merchant, Confirm(bank)), now, r, db.saved)
    ensures Excused(db, old(db.asked), r)
    ensures ConfirmAnswer(old(db.saved), id, merchant, bank, now, r)
    ensures r.Success? ==> db.View() == db.saved
  {
    ConfirmIsKept(old(db.saved), id, merchant, bank, now);
    var _ :- db.Begin();
    var pi :- db.LockIntentForUpdate(id, merchant);
    var from := pi.status;
    if from == Created {
      if !CanTransition(pi.mode, from, RequiresConfirmation) {
        return Failure(InvalidState);
      }
      from := RequiresConfirmation;
    }
    if from != RequiresConfirmation {
      return Failure(InvalidState);
    }
    if bank == Unreachable {
      return Failure(BankUnavailable);
    }
    var next := Authorized;
    if bank == Declined {
      next := Failed;
    }
    if !CanTransition(pi.mode, RequiresConfirmation, next) {
      return Failure(InvalidState);
    }
    r := Advance(db, Request(id, merchant, Confirm(bank)), [], id, next, now);
  }

  method ConfirmIntent(db: Database, id: Id, merchant: Id, bank: BankReply, now: Time) returns (r: Result<Intent, MoneyError>)
    requires db.Valid() && Inv(db.saved)
    modifies db
    ensures db.Valid() && Inv(db.saved) && db.View() == db.saved
    ensures Served(old(db.saved), Request(id, merchant, Confirm(bank)), now, r, db.saved)
    ensures Excused(db, old(db.asked), r)
    ensures ConfirmAnswer(old(db.saved), id, merchant, bank, now, r)
  {
    r := ConfirmTx(db, id, merchant, bank, now);
    if r.Failure? {
      db.Rollback();
    }
  }

  // ---------------------------------------------------------------- capture

  method CaptureTx(db: Database, id: Id, merchant: Id, bank: BankReply, now: Time) returns (r: Result<Intent, MoneyError>)
    requires db.Valid() && Inv(db.saved)
    modifies db
    ensures db.Valid() && Inv(db.saved)
    ensures Served(old(db.saved), Request(id, merchant, Capture(bank)), now, r, db.saved)
    ensures Excused(db, old(db.asked), r)
    ensures CaptureAnswer(old(db.saved), id, merchant, bank, now, r)
    ensures r.Success? ==> db.View() == db.saved
  {
    CaptureIsKept(old(db.saved), id, merchant, bank, now);
    var _ :- db.Begin();
    var pi :- db.LockIntentForUpdate(id, merchant);
    if !CanTransition(pi.mode, pi.status, Captured) {
      return Failure(InvalidState);
    }
    if bank == Unreachable {
      return Failure(BankUnavailable);
    }
    if bank != Approved {
      return Failure(BankDeclined);
    }
    var payable := Credit(pi, MerchantPayable, None, pi.amount);
    if pi.mode == Escrow {
      payable := Credit(pi, EscrowLiability, Some(id), pi.amount);
    }
    r := BookPair(db, Request(id, merchant, Capture(bank)), id, merchant, CaptureTxn,
                  Debit(pi, AcquirerReceivable, None, pi.amount), payable, Captured, now);
  }

  method CaptureIntent(db: Database, id: Id, merchant: Id, bank: BankReply, now: Time) returns (r: Result<Intent, MoneyError>)
    requires db.Valid() && Inv(db.saved)
    modifies db
    ensures db.Valid() && Inv(db.saved) && db.View() == db.saved
    ensures Served(old(db.saved), Request(id, merchant, Capture(bank)), now, r, db.saved)
    ensures Excused(db, old(db.asked), r)
    ensures CaptureAnswer(old(db.saved), id, merchant, bank, now, r)
  {
    r := CaptureTx(db, id, merchant, bank, now);
    if r.Failure? {
      db.Rollback();
    }
  }

  // ---------------------------------------------------------------- refund

  method RefundEscrow(db: Database, id: Id, merchant: Id, amount: int64, pi: Intent, now: Time)
    returns (r: Result<Intent, MoneyError>)
    requires db.Valid() && Inv(db.saved) && db.View() == db.saved && amount > 0
    requires id < |db.intents| && pi == db.intents[id] && pi.merchant == merchant && pi.mode == Escrow
    modifies db
    ensures db.Valid() && Inv(db.saved)
    ensures Served(old(db.saved), Request(id, merchant, Refund(amount)), now, r, db.saved)
    ensures Excused(db, old(db.asked), r)
    ensures r.Success? ==> db.View() == db.saved
  {
    if amount != pi.amount {
      return Failure(PartialEscrowRefund);
    }
    if !CanTransition(pi.mode, pi.status, Refunded) {
      return Failure(InvalidState);
    }
    r := BookPair(db, Request(id, merchant, Refund(amount)), id, merchant, RefundTxn,
                  Debit(pi, EscrowLiability, Some(id), amount), Credit(pi, SegregatedCash, None, amount), Refunded, now);
  }

  method RefundDirect(db: Database, id: Id, merchant: Id, amount: int64, pi: Intent, now: Time)
    returns (r: Result<Intent, MoneyError>)
    requires db.Valid() && Inv(db.saved) && db.View() == db.saved && amount > 0
    requires id < |db.intents| && pi == db.intents[id] && pi.merchant == merchant && pi.mode == Direct
    modifies db
    ensures db.Valid() && Inv(db.saved)
    ensures Served(old(db.saved), Request(id, merchant, Refund(amount)), now, r, db.saved)
    ensures Excused(db, old(db.asked), r)
    ensures r.Success? ==> db.View() == db.saved
  {
    if amount > pi.amount {
      return Failure(RefundExceedsCapture);
    }
    if pi.status == Captured && amount < pi.amount {
      return Failure(PartialRefundBeforeSettle);
    }
    var next := PartiallyRefunded;
    if amount == pi.amount {
      next := Refunded;
    }
    if !CanTransition(pi.mode, pi.status, next) {
      return Failure(InvalidState);
    }
    var creditKind := AcquirerReceivable;
    if pi.status == Settled {
      creditKind := PlatformCash;
    }
    r := BookPair(db, Request(id, merchant, Refund(amount)), id, merchant, RefundTxn,
                  Debit(pi, MerchantPayable, None, amount), Credit(pi, creditKind, None, amount), next, now);
  }

  method RefundTx(db: Database, id: Id, merchant: Id, amount: int64, now: Time) returns (r: Result<Intent, MoneyError>)
    requires db.Valid() && Inv(db.saved)
    modifies db
    ensures db.Valid() && Inv(db.saved)
    ensures Served(old(db.saved), Request(id, merchant, Refund(amount)), now, r, db.saved)
    ensures Excused(db, old(db.asked), r)
    ensures RefundAnswer(old(db.saved), id, merchant, amount, now, r)
    ensures r.Success? ==> db.View() == db.saved
  {
    RefundIsKept(old(db.saved), id, merchant, amount, now);
    if amount <= 0 {
      return Failure(InvalidAmount);
    }
    var _ :- db.Begin();
    var pi :- db.LockIntentForUpdate(id, merchant);
    if pi.mode == Escrow {
      r := RefundEscrow(db, id, merchant, amount, pi, now);
    } else {
      r := RefundDirect(db, id, merchant, amount, pi, now);
    }
  }

  method RefundIntent(db: Database, id: Id, merchant: Id, amount: int64, now: Time) returns (r: Result<Intent, MoneyError>)
    requires db.Valid() && Inv(db.saved)
    modifies db
    ensures db.Valid() && Inv(db.saved) && db.View() == db.saved
    ensures Served(old(db.saved), Request(id, merchant, Refund(amount)), now, r, db.saved)
    ensures Excused(db, old(db.asked), r)
    ensures RefundAnswer(old(db.saved), id, merchant, amount, now, r)
  {
    r := RefundTx(db, id, merchant, amount, now);
    if r.Failure? {
      db.Rollback();
    }
  }

  // ---------------------------------------------------------------- release

  /** The three legs every release has; their accounts are upserted in another order. */
  lemma BookThree(a0: map<Id, Account>, a1: map<Id, Account>, a2: map<Id, Account>, a3: map<Id, Account>,
                  l0: Leg, x0: Id, l1: Leg, x1: Id, l2: Leg, x2: Id)
    requires Grown(a0, a1, {l0.key}) && x0 in a1 && a1[x0].key == l0.key
    requires Grown(a1, a2, {l2.key}) && x2 in a2 && a2[x2].key == l2.key
    requires Grown(a2, a3, {l1.key}) && x1 in a3 && a3[x1].key == l1.key
    ensures Booked(a0, a3, [EntryOf(l0, x0), EntryOf(l1, x1), EntryOf(l2, x2)], [l0, l1, l2])
  {
    var legs := [l0, l1, l2];
    GrownTwice(a0, a1, a2, {l0.key}, {l2.key});
    GrownTwice(a0, a2, a3, {l0.key} + {l2.key}, {l1.key});
    assert legs[0].key in LegKeys(legs) && legs[1].key in LegKeys(legs) && legs[2].key in LegKeys(legs);
    assert {l0.key} + {l2.key} + {l1.key} <= LegKeys(legs);
  }

  method ReleaseCore(db: Database, id: Id, pi: Intent) returns (r: Result<seq<Entry>, MoneyError>)
    requires db.Valid()
    modifies db`accounts, db`issued, db`asked
    ensures db.Valid()
    ensures r.Success? ==> Booked(old(db.accounts), db.accounts, r.value, UnheldLegs(id, pi))
    ensures r.Failure? ==> r.error == DatabaseFailed
    ensures Excused(db, old(db.asked), r)
  {
    ghost var a0 := db.accounts;
    var l0 := Debit(pi, EscrowLiability, Some(id), pi.amount);
    var l1 := Debit(pi, PlatformCash, None, pi.amount);
    var l2 := Credit(pi, SegregatedCash, None, pi.amount);
    var escrowLiab :- AccountFor(db, l0.key);
    ghost var a1 := db.accounts;
    var segCash :- AccountFor(db, l2.key);
    ghost var a2 := db.accounts;
    var platformCash :- AccountFor(db, l1.key);
    BookThree(a0, a1, a2, db.accounts, l0, escrowLiab, l1, platformCash, l2, segCash);
    return Success([EntryOf(l0, escrowLiab), EntryOf(l1, platformCash), EntryOf(l2, segCash)]);
  }

  /** Append one more leg to what is booked. */
  method BookMore(db: Database, ghost before: map<Id, Account>, entries: seq<Entry>, ghost legs: seq<Leg>, leg: Leg)
    returns (r: Result<seq<Entry>, MoneyError>)
    requires db.Valid() && Booked(before, db.accounts, entries, legs)
    modifies db`accounts, db`issued, db`asked
    ensures db.Valid()
    ensures r.Success? ==> Booked(before, db.accounts, r.value, legs + [leg])
    ensures r.Failure? ==> r.error == DatabaseFailed
    ensures Excused(db, old(db.asked), r)
  {
    ghost var mid := db.accounts;
    var account :- AccountFor(db, leg.key);
    BookOne(before, mid, db.accounts, entries, legs, leg, account);
    return Success(entries + [EntryOf(leg, account)]);
  }

  method ReleasePayee(db: Database, id: Id, pi: Intent, payeeAmount: int64) returns (r: Result<seq<Entry>, MoneyError>)
    requires db.Valid()
    modifies db`accounts, db`issued, db`asked
    ensures db.Valid()
    ensures r.Success? ==> Booked(old(db.accounts), db.accounts, r.value, PayeeLegs(id, pi, payeeAmount))
    ensures r.Failure? ==> r.error == DatabaseFailed
    ensures Excused(db, old(db.asked), r)
  {
    ghost var before := db.accounts;
    r := ReleaseCore(db, id, pi);
    assert payeeAmount <= 0 ==> PayeeLegs(id, pi, payeeAmount) == UnheldLegs(id, pi);
    if r.Success? && payeeAmount > 0 {
      r := BookMore(db, before, r.value, UnheldLegs(id, pi), Credit(pi, PayableToPayee, pi.payee, payeeAmount));
    }
  }

  /** The accounts and entries of a release; zero legs are left out. */
  method ReleaseEntries(db: Database, id: Id, pi: Intent, fee: int64, payeeAmount: int64)
    returns (r: Result<seq<Entry>, MoneyError>)
    requires db.Valid()
    modifies db`accounts, db`issued, db`asked
    ensures db.Valid()
    ensures r.Success? ==> Booked(old(db.accounts), db.accounts, r.value, ReleaseLegs(id, pi, fee, payeeAmount))
    ensures r.Failure? ==> r.error == DatabaseFailed
    ensures Excused(db, old(db.asked), r)
  {
    ghost var before := db.accounts;
    r := ReleasePayee(db, id, pi, payeeAmount);
    assert fee <= 0 ==> ReleaseLegs(id, pi, fee, payeeAmount) == PayeeLegs(id, pi, payeeAmount);
    if r.Success? && fee > 0 {
      r := BookMore(db, before, r.value, PayeeLegs(id, pi, payeeAmount), Credit(pi, PlatformRevenue, None, fee));
    }
  }

  method ReleaseLocked(db: Database, id: Id, merchant: Id, pi: Intent, now: Time) returns (r: Result<Intent, MoneyError>)
    requires db.Valid() && Inv(db.saved) && db.View() == db.saved
    requires id < |db.intents| && pi == db.intents[id] && pi.merchant == merchant
    modifies db
    ensures db.Valid() && Inv(db.saved)
    ensures Served(old(db.saved), Request(id, merchant, Release), now, r, db.saved)
    ensures Excused(db, old(db.asked), r)
    ensures r.Success? ==> db.View() == db.saved
  {
    if !CanTransition(pi.mode, pi.status, Released) || pi.payee == None {
      return Failure(InvalidState);
    }
    var fee: int64 := 0;
    if pi.fee != None {
      fee := pi.fee.value;
    }
    var payeeAmount := Wrap64(pi.amount - fee);
    ghost var legs := ReleaseLegs(id, pi, fee, payeeAmount);
    assert DecideRelease(id, pi) == Write(legs, Released);
    var entries :- ReleaseEntries(db, id, pi, fee, payeeAmount);
    r := Book(db, Request(id, merchant, Release), legs, id, merchant, ReleaseTxn, entries, Released, now);
  }

  method ReleaseTx(db: Database, id: Id, merchant: Id, now: Time) returns (r: Result<Intent, MoneyError>)
    requires db.Valid() && Inv(db.saved)
    modifies db
    ensures db.Valid() && Inv(db.saved)
    ensures Served(old(db.saved), Request(id, merchant, Release), now, r, db.saved)
    ensures Excused(db, old(db.asked), r)
    ensures ReleaseAnswer(old(db.saved), id, merchant, now, r)
    ensures r.Success? ==> db.View() == db.saved
  {
    ReleaseIsKept(old(db.saved), id, merchant, now);
    var _ :- db.Begin();
    var pi :- db.LockIntentForUpdate(id, merchant);
    r := ReleaseLocked(db, id, merchant, pi, now);
  }

  method ReleaseIntent(db: Database, id: Id, merchant: Id, now: Time) returns (r: Result<Intent, MoneyError>)
    requires db.Valid() && Inv(db.saved)
    modifies db
    ensures db.Valid() && Inv(db.saved) && db.View() == db.saved
    ensures Served(old(db.saved), Request(id, merchant, Release), now, r, db.saved)
    ensures Excused(db, old(db.asked), r)
    ensures ReleaseAnswer(old(db.saved), id, merchant, now, r)
  {
    r := ReleaseTx(db, id, merchant, now);
    if r.Failure? {
      db.Rollback();
    }
  }

  // ---------------------------------------------------------------- sweeps

  method SettleTx(db: Database, id: Id, merchant: Id, now: Time) returns (r: Result<(), MoneyError>)
    requires db.Valid() && Inv(db.saved)
    modifies db
    ensures db.Valid() && Inv(db.saved)
    ensures Swept(old(db.saved), Request(id, merchant, Settle), now, r, db.saved)
    ensures Excused(db, old(db.asked), r)
    ensures r.Success? ==> db.View() == db.saved
  {
    var _ :- db.Begin();
    var pi :- db.LockIntentForUpdate(id, merchant);
    if pi.status != Captured {
      return Success(());
    }
    var target, cashKind := Settled, PlatformCash;
    if pi.mode == Escrow {
      target, cashKind := HeldInEscrow, SegregatedCash;
    }
    if !CanTransition(pi.mode, pi.status, target) {
      return Failure(InvalidState);
    }
    var _ :- BookPair(db, Request(id, merchant, Settle), id, merchant, SettleTxn,
                      Debit(pi, cashKind, None, pi.amount), Credit(pi, AcquirerReceivable, None, pi.amount), target, now);
    return Success(());
  }

  method SettleOne(db: Database, id: Id, merchant: Id, now: Time) returns (r: Result<(), MoneyError>)
    requires db.Valid() && Inv(db.saved)
    modifies db
    ensures db.Valid() && Inv(db.saved) && db.View() == db.saved
    ensures Swept(old(db.saved), Request(id, merchant, Settle), now, r, db.saved)
    ensures Excused(db, old(db.asked), r)
    ensures SettleAnswer(old(db.saved), id, merchant, now, r, db.saved)
  {
    r := SettleTx(db, id, merchant, now);
    SettleIsKept(old(db.saved), id, merchant, now, r, db.saved);
    if r.Failure? {
      db.Rollback();
    }
  }

  method ExpireTx(db: Database, id: Id, merchant: Id, now: Time) returns (r: Result<(), MoneyError>)
    requires db.Valid() && Inv(db.saved)
    modifies db
    ensures db.Valid() && Inv(db.saved)
    ensures Swept(old(db.saved), Request(id, merchant, Expire), now, r, db.saved)
    ensures Excused(db, old(db.asked), r)
    ensures r.Success? ==> db.View() == db.saved
  {
    var _ :- db.Begin();
    var pi :- db.LockIntentForUpdate(id, merchant);
    if !CanTransition(pi.mode, pi.status, Failed) {
      return Success(());
    }
    var _ :- Advance(db, Request(id, merchant, Expire), [], id, Failed, now);
    return Success(());
  }

  method ExpireOne(db: Database, id: Id, merchant: Id, now: Time) returns (r: Result<(), MoneyError>)
    requires db.Valid() && Inv(db.saved)
    modifies db
    ensures db.Valid() && Inv(db.saved) && db.View() == db.saved
    ensures Swept(old(db.saved), Request(id, merchant, Expire), now, r, db.saved)
    ensures Excused(db, old(db.asked), r)
    ensures ExpireAnswer(old(db.saved), id, merchant, now, r, db.saved)
  {
    r := ExpireTx(db, id, merchant, now);
    ExpireIsKept(old(db.saved), id, merchant, now, r, db.saved);
    if r.Failure? {
      db.Rollback();
    }
  }

  /** A row of a sweep's listing. The listing is read outside the transactions, so it may be stale. */
  datatype Due = Due(id: Id, merchant: Id)

  /** What settling does to a row that is still captured. */
  function SettledRow(pi: Intent, now: Time): Intent {
    if pi.status != Captured then pi
    else pi.(status := if pi.mode.Escrow? then HeldInEscrow else Settled, updatedAt := now)
  }

  /** What expiring does to a row that has not been captured: it fails, authorized rows too. */
  function ExpiredRow(pi: Intent, now: Time): Intent {
    if pi.status == Created || pi.status == RequiresConfirmation || pi.status == Authorized
    then pi.(status := Failed, updatedAt := now)
    else pi
  }

  /** A sweep touched exactly the rows it got to. */
  ghost predicate SweptRows(before: seq<Intent>, after: seq<Intent>, due: seq<Due>, change: Intent -> Intent) {
    && |after| == |before|
    && forall i :: 0 <= i < |before| ==>
         after[i] == if Due(i, before[i].merchant) in due then change(before[i]) else before[i]
  }

  lemma SettleRow(s: Tables, due: Due, now: Time, r: Result<(), MoneyError>, s': Tables)
    requires Swept(s, Request(due.id, due.merchant, Settle), now, r, s') && r.Success?
    ensures SweptRows(s.intents, s'.intents, [due], Settling(now))
  {
  }

  lemma ExpireRow(s: Tables, due: Due, now: Time, r: Result<(), MoneyError>, s': Tables)
    requires Swept(s, Request(due.id, due.merchant, Expire), now, r, s') && r.Success?
    ensures SweptRows(s.intents, s'.intents, [due], Expiring(now))
  {
    assert forall pi: Intent :: CanTransition(pi.mode, pi.status, Failed) <==>
        pi.status == Created || pi.status == RequiresConfirmation || pi.status == Authorized;
  }

  function Settling(now: Time): Intent -> Intent {
    pi => SettledRow(pi, now)
  }

  function Expiring(now: Time): Intent -> Intent {
    pi => ExpiredRow(pi, now)
  }

  /** Sweeping a list and then one more row is sweeping the longer list, when a second sweep of the
      same row does nothing more. */
  lemma RowsOneMore(a: seq<Intent>, b: seq<Intent>, c: seq<Intent>, due: seq<Due>, n: nat, change: Intent -> Intent)
    requires n < |due| && SweptRows(a, b, due[..n], change) && SweptRows(b, c, [due[n]], change)
    requires forall pi :: change(change(pi)) == change(pi) && change(pi).merchant == pi.merchant
    ensures SweptRows(a, c, due[..n + 1], change)
  {
    assert due[..n + 1] == due[..n] + [due[n]];
  }

  /** Committed calls, one after the other, lead from some tables to others. */
  ghost predicate Leads(before: Tables, trace: seq<Tables>, ops: seq<Op>, after: Tables) {
    Runs.IsRun(before, Steps(), trace, ops) && trace[|ops|] == after
  }

  /** Every operation is the sweep's own call on a listed row. */
  ghost predicate OfListing(ops: seq<Op>, due: seq<Due>, call: Call, now: Time) {
    forall k :: 0 <= k < |ops| ==>
      ops[k].Run? && ops[k].at == now && ops[k].req.call == call && Due(ops[k].req.id, ops[k].req.merchant) in due
  }

  /** A listed row that the sweep changes, if it is the first of its kind in the listing. */
  predicate Changes(rows: seq<Intent>, due: Due, change: Intent -> Intent) {
    due.id < |rows| && rows[due.id].merchant == due.merchant && change(rows[due.id]) != rows[due.id]
  }

  /** How many rows of a listing the sweep changes. */
  function Effects(rows: seq<Intent>, done: seq<Due>, change: Intent -> Intent): nat {
    if done == [] then 0
    else
      var front, last := done[..|done| - 1], done[|done| - 1];
      Effects(rows, front, change) + if last !in front && Changes(rows, last, change) then 1 else 0
  }

  /** Each of them counts, if and only if each is listed once and changes. */
  lemma {:induction false} AllHaveEffectIff(rows: seq<Intent>, due: seq<Due>, n: nat, change: Intent -> Intent)
    requires n <= |due|
    ensures Effects(rows, due[..n], change) <= n
    ensures Effects(rows, due[..n], change) == n <==> forall j :: 0 <= j < n ==> due[j] !in due[..j] && Changes(rows, due[j], change)
  {
    if n > 0 {
      AllHaveEffectIff(rows, due, n - 1, change);
      assert due[..n][..n - 1] == due[..n - 1];
    }
  }

  predicate IsCaptured(rows: seq<Intent>, due: Due) {
    due.id < |rows| && rows[due.id].merchant == due.merchant && rows[due.id].status == Captured
  }

  predicate IsUncaptured(rows: seq<Intent>, due: Due) {
    && due.id < |rows| && rows[due.id].merchant == due.merchant
    && (rows[due.id].status == Created || rows[due.id].status == RequiresConfirmation || rows[due.id].status == Authorized)
  }

  /** Every listed row is captured, and none is listed twice. */
  ghost predicate EachCapturedOnce(rows: seq<Intent>, due: seq<Due>) {
    forall j :: 0 <= j < |due| ==> due[j] !in due[..j] && IsCaptured(rows, due[j])
  }

  ghost predicate EachUncapturedOnce(rows: seq<Intent>, due: seq<Due>) {
    forall j :: 0 <= j < |due| ==> due[j] !in due[..j] && IsUncaptured(rows, due[j])
  }

  lemma SettlingAllIff(rows: seq<Intent>, due: seq<Due>, now: Time)
    ensures Effects(rows, due, Settling(now)) <= |due|
    ensures Effects(rows, due, Settling(now)) == |due| <==> EachCapturedOnce(rows, due)
  {
    AllHaveEffectIff(rows, due, |due|, Settling(now));
    assert due[..|due|] == due;
    assert forall d :: Changes(rows, d, Settling(now)) <==> IsCaptured(rows, d);
  }

  lemma ExpiringAllIff(rows: seq<Intent>, due: seq<Due>, now: Time)
    ensures Effects(rows, due, Expiring(now)) <= |due|
    ensures Effects(rows, due, Expiring(now)) == |due| <==> EachUncapturedOnce(rows, due)
  {
    AllHaveEffectIff(rows, due, |due|, Expiring(now));
    assert due[..|due|] == due;
    assert forall d :: Changes(rows, d, Expiring(now)) <==> IsUncaptured(rows, d);
  }

  /** Two listings that a settle sweep counts in full although it settles one intent less: of a row that
      another worker has settled since, and of a row that is listed twice. */
  lemma CountedThoughSettled(pi: Intent, now: Time)
    requires pi.status == Captured
    ensures var due := Due(0, pi.merchant);
      && Effects([SettledRow(pi, now)], [due], Settling(now)) == 0
      && Effects([pi], [due, due], Settling(now)) == 1
  {
    var due := Due(0, pi.merchant);
    assert [due][..0] == [] && [due, due][..1] == [due];
    assert Effects([pi], [due], Settling(now)) == 1;
  }

  /** What a sweep has done once it has got through the rows `done`: exactly those rows have changed, by a
      run of its own calls on them, one for each row that a call had an effect on. */
  ghost predicate SweptSoFar(init: Tables, s: Tables, trace: seq<Tables>, ops: seq<Op>, done: seq<Due>, call: Call, now: Time,
                             change: Intent -> Intent) {
    && SweptRows(init.intents, s.intents, done, change) && Leads(init, trace, ops, s) && OfListing(ops, done, call, now)
    && |ops| == Effects(init.intents, done, change)
  }

  /** A sweep's call commits a step exactly if the row is one that changes and has not been met before. */
  lemma StepIffChanges(init: seq<Intent>, s: Tables, s': Tables, done: seq<Due>, due: Due, call: Call, now: Time,
                       r: Result<(), MoneyError>, change: Intent -> Intent)
    requires SweptRows(init, s.intents, done, change) && SweptRows(s.intents, s'.intents, [due], change)
    requires Swept(s, Request(due.id, due.merchant, call), now, r, s') && r.Success?
    requires forall pi :: change(change(pi)) == change(pi) && change(pi).merchant == pi.merchant
    ensures Step(s, Run(Request(due.id, due.merchant, call), now), s') <==> due !in done && Changes(init, due, change)
  {
    var req := Request(due.id, due.merchant, call);
    assert Serve(s, req) == Decide(due.id, s.intents[due.id], call);
    if Step(s, Run(req, now), s') {
      WritesClimb(due.id, s.intents[due.id], call);
      assert s'.intents[due.id].status == Serve(s, req).next;
    }
    assert s'.intents[due.id] == change(s.intents[due.id]);
  }

  lemma ListOneMore(ops: seq<Op>, due: seq<Due>, n: nat, call: Call, now: Time)
    requires n < |due| && OfListing(ops, due[..n], call, now)
    ensures OfListing(ops, due[..n + 1], call, now)
    ensures OfListing(ops + [Run(Request(due[n].id, due[n].merchant, call), now)], due[..n + 1], call, now)
  {
    assert due[..n + 1] == due[..n] + [due[n]];
    assert due[n] == Due(due[n].id, due[n].merchant);
  }

  lemma LeadOneMore(init: Tables, trace: seq<Tables>, ops: seq<Op>, s: Tables, op: Op, s': Tables)
    returns (trace': seq<Tables>, ops': seq<Op>)
    requires Leads(init, trace, ops, s) && (Step(s, op, s') || s' == s)
    ensures Leads(init, trace', ops', s') && ops' == if Step(s, op, s') then ops + [op] else ops
  {
    if Step(s, op, s') {
      Runs.Extend(init, Steps(), trace, ops, op, s');
      trace', ops' := trace + [s'], ops + [op];
    } else {
      trace', ops' := trace, ops;
    }
  }

  lemma SweepOneMore(init: Tables, s: Tables, s': Tables, trace: seq<Tables>, ops: seq<Op>, due: seq<Due>, n: nat, call: Call,
                     now: Time, r: Result<(), MoneyError>, change: Intent -> Intent)
    returns (trace': seq<Tables>, ops': seq<Op>)
    requires n < |due| && SweptSoFar(init, s, trace, ops, due[..n], call, now, change)
    requires Swept(s, Request(due[n].id, due[n].merchant, call), now, r, s') && r.Success?
    requires SweptRows(s.intents, s'.intents, [due[n]], change)
    requires forall pi :: change(change(pi)) == change(pi) && change(pi).merchant == pi.merchant
    ensures SweptSoFar(init, s', trace', ops', due[..n + 1], call, now, change)
  {
    RowsOneMore(init.intents, s.intents, s'.intents, due, n, change);
    StepIffChanges(init.intents, s, s', due[..n], due[n], call, now, r, change);
    ListOneMore(ops, due, n, call, now);
    trace', ops' := LeadOneMore(init, trace, ops, s, Run(Request(due[n].id, due[n].merchant, call), now), s');
    assert due[..n + 1][..n] == due[..n];
  }

  lemma SettleOneMore(init: Tables, s: Tables, s': Tables, trace: seq<Tables>, ops: seq<Op>, due: seq<Due>, n: nat, now: Time,
                      r: Result<(), MoneyError>)
    returns (trace': seq<Tables>, ops': seq<Op>)
    requires n < |due| && SweptSoFar(init, s, trace, ops, due[..n], Settle, now, Settling(now))
    requires Swept(s, Request(due[n].id, due[n].merchant, Settle), now, r, s') && r.Success?
    ensures SweptSoFar(init, s', trace', ops', due[..n + 1], Settle, now, Settling(now))
  {
    SettleRow(s, due[n], now, r, s');
    trace', ops' := SweepOneMore(init, s, s', trace, ops, due, n, Settle, now, r, Settling(now));
  }

  lemma ExpireOneMore(init: Tables, s: Tables, s': Tables, trace: seq<Tables>, ops: seq<Op>, due: seq<Due>, n: nat, now: Time,
                      r: Result<(), MoneyError>)
    returns (trace': seq<Tables>, ops': seq<Op>)
    requires n < |due| && SweptSoFar(init, s, trace, ops, due[..n], Expire, now, Expiring(now))
    requires Swept(s, Request(due[n].id, due[n].merchant, Expire), now, r, s') && r.Success?
    ensures SweptSoFar(init, s', trace', ops', due[..n + 1], Expire, now, Expiring(now))
  {
    ExpireRow(s, due[n], now, r, s');
    trace', ops' := SweepOneMore(init, s, s', trace, ops, due, n, Expire, now, r, Expiring(now));
  }

  /** Settle every listed intent, one transaction each, up to the first failure. What is committed, postings
      and events included, is a run of settle calls on listed rows. The count includes listed rows that
      turned out to be settled already: it is the number settled exactly if each was captured and listed
      once. */
  method SettleDueIntents(db: Database, due: seq<Due>, now: Time)
    returns (n: nat, failed: bool, ghost trace: seq<Tables>, ghost ops: seq<Op>)
    requires db.Valid() && Inv(db.saved)
    modifies db
    ensures db.Valid() && Inv(db.saved)
    ensures n <= |due| && (!failed ==> n == |due|)
    ensures failed ==> n < |due| && (db.Down(old(db.asked)) || Serve(db.saved, Request(due[n].id, due[n].merchant, Settle)).Reject?)
    ensures SweptSoFar(old(db.saved), db.saved, trace, ops, due[..n], Settle, now, Settling(now))
    ensures |ops| <= n && (|ops| == n <==> EachCapturedOnce(old(db.saved).intents, due[..n]))
  {
    n, failed, trace, ops := 0, false, [db.saved], [];
    while n < |due|
      invariant n <= |due| && db.Valid() && Inv(db.saved) && old(db.asked) <= db.asked
      invariant SweptSoFar(old(db.saved), db.saved, trace, ops, due[..n], Settle, now, Settling(now))
    {
      ghost var before := db.saved;
      var r := SettleOne(db, due[n].id, due[n].merchant, now);
      if r.Failure? {
        failed := true;
        break;
      }
      trace, ops := SettleOneMore(old(db.saved), before, db.saved, trace, ops, due, n, now, r);
      n := n + 1;
    }
    SettlingAllIff(old(db.saved).intents, due[..n], now);
  }

  /** Fail every listed intent that has not been captured, up to the first failure. What is committed is a
      run of expire calls on listed rows, and the count is their number exactly if none was captured or
      terminal and each is listed once. */
  method ExpireStaleIntents(db: Database, due: seq<Due>, now: Time)
    returns (n: nat, failed: bool, ghost trace: seq<Tables>, ghost ops: seq<Op>)
    requires db.Valid() && Inv(db.saved)
    modifies db
    ensures db.Valid() && Inv(db.saved)
    ensures n <= |due| && (!failed ==> n == |due|)
    ensures failed ==> n < |due| && (db.Down(old(db.asked)) || Serve(db.saved, Request(due[n].id, due[n].merchant, Expire)).Reject?)
    ensures SweptSoFar(old(db.saved), db.saved, trace, ops, due[..n], Expire, now, Expiring(now))
    ensures |ops| <= n && (|ops| == n <==> EachUncapturedOnce(old(db.saved).intents, due[..n]))
  {
    n, failed, trace, ops := 0, false, [db.saved], [];
    while n < |due|
      invariant n <= |due| && db.Valid() && Inv(db.saved) && old(db.asked) <= db.asked
      invariant SweptSoFar(old(db.saved), db.saved, trace, ops, due[..n], Expire, now, Expiring(now))
    {
      ghost var before := db.saved;
      var r := ExpireOne(db, due[n].id, due[n].merchant, now);
      if r.Failure? {
        failed := true;
        break;
      }
      trace, ops := ExpireOneMore(old(db.saved), before, db.saved, trace, ops, due, n, now, r);
      n := n + 1;
    }
    ExpiringAllIff(old(db.saved).intents, due[..n], now);
  }

  // ---------------------------------------------------------------- create

  /** Upper-case a three-letter code in place, or refuse it. */
  method NormalizeCurrency(cur: string) returns (r: Option<Currency>)
    ensures r == Normalized(cur)
    ensures r.Some? <==> IsCode(cur)
    ensures r.Some? ==> CodeOf(r.value, cur)
  {
    CodesAreKept(cur);
    if |cur| != 3 {
      return None;
    }
    var out := new char[3](i requires 0 <= i < 3 => cur[i]);
    for i := 0 to 3
      invariant forall k :: 0 <= k < 3 ==> out[k] == if k < i then Upper(cur[k]) else cur[k]
      invariant forall k :: 0 <= k < i ==> Letter(cur[k])
    {
      var b := out[i];
      if 'a' <= b <= 'z' {
        out[i] := b - ('a' - 'A');
      } else if !('A' <= b <= 'Z') {
        return None;
      }
    }
    assert out[..] == [out[0], out[1], out[2]];
    return Some(out[..]);
  }

  method CreatePaymentIntent(db: Database, merchant: Id, input: CreateInput, now: Time) returns (r: Result<Intent, MoneyError>)
    requires db.Valid() && Inv(db.saved)
    modifies db
    ensures db.Valid() && Inv(db.saved)
    ensures r.Success? ==> Step(old(db.saved), Open(merchant, input, now), db.saved)
    ensures r.Success? ==> r.value == db.saved.intents[|old(db.saved).intents|]
    ensures r.Failure? ==> db.saved == old(db.saved)
    ensures Excused(db, old(db.asked), r)
    ensures r.Failure? ==> r.error == DatabaseFailed || Validated(merchant, input, now) == Failure(r.error)
    ensures CreateAnswer(merchant, input, now, r)
  {
    CreateIsKept(merchant, input, now);
    if input.amount <= 0 {
      return Failure(InvalidAmount);
    }
    var currency := NormalizeCurrency(input.currency);
    if currency == None {
      return Failure(InvalidCurrency);
    }
    var mode, payee, fee := Direct, None, None;
    if input.escrow {
      mode := Escrow;
      if input.payee == None || input.payee.value == NIL {
        return Failure(PayeeRequired);
      }
      if input.fee == None || input.fee.value < 0 || input.fee.value > input.amount {
        return Failure(InvalidFee);
      }
      payee, fee := input.payee, input.fee;
    }
    ghost var before := db.saved;
    r := db.CreateIntent(Intent(merchant, input.amount, currency.value, Created, mode, payee, fee, now));
    if r.Success? {
      StepKeepsInv(before, Open(merchant, input, now), db.saved);
    }
  }
}
