/** The database handle of one transaction (repository/db): the queries the service calls, over the
    tables as the open transaction sees them, next to the committed tables. */
module Store {
  import opened Wrappers
  import opened StateMachine
  import opened Tables
  import opened Posting
  import opened Money

  /** No account changes; the only new one, if any, is `row`, and only where its key was not taken. */
  ghost predicate GrownAs(before: map<Id, Account>, after: map<Id, Account>, row: Account) {
    && (forall a :: a in before ==> a in after && after[a] == before[a])
    && (forall a :: a in after && a !in before ==> after[a] == row)
    && (forall a :: a in before && before[a].key == row.key ==> after == before)
  }

  class Database {
    // the tables as the open transaction sees them
    var intents: seq<Intent>
    var accounts: map<Id, Account>
    var txns: seq<Txn>
    var outbox: seq<Event>
    // what is committed
    var saved: Tables
    // the uuid generator, which no rollback rewinds
    var issued: Id
    // which queries come back, by the order they are asked in; nobody knows beforehand
    const answers: nat -> bool
    var asked: nat

    constructor (answers: nat -> bool)
      ensures Valid() && saved == View() == EMPTY && this.answers == answers && asked == 0
    {
      intents, accounts, txns, outbox := [], map[], [], [];
      saved := EMPTY;
      issued := 0;
      this.answers := answers;
      asked := 0;
    }

    ghost function View(): Tables
      reads this
    {
      Tables(intents, accounts, txns, outbox)
    }

    /** Every account and event id in use has been issued. */
    ghost predicate Issued(t: Tables)
      reads this
    {
      && (forall a :: a in t.accounts ==> a < issued)
      && (forall k :: 0 <= k < |t.outbox| ==> t.outbox[k].eventId < issued)
    }

    ghost predicate Valid()
      reads this
    {
      Issued(View()) && Issued(saved) && UniqueKeys(saved.accounts) && UniqueKeys(accounts)
    }

    /** Since then a query failed, and nothing was asked after it. */
    ghost predicate Down(since: nat)
      reads this
    {
      since < asked && !answers(asked - 1)
    }

    /** Whether the next query reaches the database and comes back: any may fail. */
    method Answers() returns (ok: bool)
      modifies `asked
      ensures asked == old(asked) + 1 && ok == answers(old(asked))
    {
      ok := answers(asked);
      asked := asked + 1;
    }

    method Begin() returns (r: Result<(), MoneyError>)
      requires Valid()
      modifies `intents, `accounts, `txns, `outbox, `asked
      ensures old(asked) <= asked
      ensures Valid()
      ensures r.Success? ==> View() == saved
      ensures r.Failure? ==> r.error == DatabaseFailed && Down(old(asked))
    {
      var ok := Answers();
      if !ok {
        return Failure(DatabaseFailed);
      }
      intents, accounts, txns, outbox := saved.intents, saved.accounts, saved.txns, saved.outbox;
      return Success(());
    }

    method Rollback()
      requires Valid()
      modifies `intents, `accounts, `txns, `outbox
      ensures Valid() && View() == saved
    {
      intents, accounts, txns, outbox := saved.intents, saved.accounts, saved.txns, saved.outbox;
    }

    method Commit() returns (r: Result<(), MoneyError>)
      requires Valid()
      modifies `saved, `asked
      ensures old(asked) <= asked
      ensures Valid()
      ensures r.Success? ==> saved == View()
      ensures r.Failure? ==> saved == old(saved) && r.error == DatabaseFailed && Down(old(asked))
    {
      var ok := Answers();
      if !ok {
        return Failure(DatabaseFailed);
      }
      saved := Tables(intents, accounts, txns, outbox);
      return Success(());
    }

    /** SELECT ... WHERE id AND merchant_id FOR UPDATE. */
    method LockIntentForUpdate(id: Id, merchant: Id) returns (r: Result<Intent, MoneyError>)
      modifies `asked
      ensures old(asked) <= asked
      ensures r.Success? ==> id < |intents| && r.value == intents[id] && r.value.merchant == merchant
      ensures r == Failure(IntentNotFound) ==> id >= |intents| || intents[id].merchant != merchant
      ensures r.Failure? ==> r.error == IntentNotFound || (r.error == DatabaseFailed && Down(old(asked)))
    {
      var ok := Answers();
      if !ok {
        return Failure(DatabaseFailed);
      }
      if id < |intents| && intents[id].merchant == merchant {
        return Success(intents[id]);
      }
      return Failure(IntentNotFound);
    }

    method UpdateIntentStatus(id: Id, status: Status, now: Time) returns (r: Result<Intent, MoneyError>)
      requires id < |intents|
      modifies `intents, `asked
      ensures old(asked) <= asked
      ensures r.Success? ==> r.value == old(intents)[id].(status := status, updatedAt := now)
      ensures r.Success? ==> intents == old(intents)[id := r.value]
      ensures r.Failure? ==> r.error == DatabaseFailed && Down(old(asked))
    {
      var ok := Answers();
      if !ok {
        return Failure(DatabaseFailed);
      }
      var row := intents[id].(status := status, updatedAt := now);
      intents := intents[id := row];
      return Success(row);
    }

    method CreateIntent(row: Intent) returns (r: Result<Intent, MoneyError>)
      requires Valid()
      modifies `intents, `saved, `asked
      ensures old(asked) <= asked
      ensures Valid()
      ensures r.Success? ==> r.value == row && saved == old(saved).(intents := old(saved).intents + [row])
      ensures r.Failure? ==> r.error == DatabaseFailed && Down(old(asked)) && saved == old(saved)
    {
      var ok := Answers();
      if !ok {
        return Failure(DatabaseFailed);
      }
      intents := intents + [row];
      saved := saved.(intents := saved.intents + [row]);
      return Success(row);
    }

    /** INSERT ... ON CONFLICT on the key's unique index DO UPDATE ... RETURNING: the row that has the
        key, or a new one. */
    method Upsert(key: AccountKey, typ: AccountType) returns (r: Result<Id, MoneyError>)
      requires Valid()
      modifies `accounts, `issued, `asked
      ensures old(asked) <= asked
      ensures Valid()
      ensures GrownAs(old(accounts), accounts, Account(key, typ))
      ensures typ == TypeOf(key.kind) ==> Grown(old(accounts), accounts, {key})
      ensures r.Success? ==> r.value in accounts && accounts[r.value].key == key
      ensures r.Failure? ==> r.error == DatabaseFailed && Down(old(asked))
    {
      var ok := Answers();
      if !ok {
        return Failure(DatabaseFailed);
      }
      if id :| id in accounts && accounts[id].key == key {
        return Success(id);
      } else {
        var id := issued;
        issued := issued + 1;
        accounts := accounts[id := Account(key, typ)];
        return Success(id);
      }
    }

    method GetOrCreateSingletonAccount(merchant: Id, typ: AccountType, kind: AccountKind, currency: Currency)
      returns (r: Result<Id, MoneyError>)
      requires Valid()
      modifies `accounts, `issued, `asked
      ensures old(asked) <= asked
      ensures Valid()
      ensures GrownAs(old(accounts), accounts, Account(AccountKey(merchant, kind, currency, None), typ))
      ensures typ == TypeOf(kind) ==> Grown(old(accounts), accounts, {AccountKey(merchant, kind, currency, None)})
      ensures r.Success? ==> r.value in accounts && accounts[r.value].key == AccountKey(merchant, kind, currency, None)
      ensures r.Failure? ==> r.error == DatabaseFailed && Down(old(asked))
    {
      r := Upsert(AccountKey(merchant, kind, currency, None), typ);
    }

    method GetOrCreatePerRefAccount(merchant: Id, typ: AccountType, kind: AccountKind, currency: Currency, ref: Id)
      returns (r: Result<Id, MoneyError>)
      requires Valid()
      modifies `accounts, `issued, `asked
      ensures old(asked) <= asked
      ensures Valid()
      ensures GrownAs(old(accounts), accounts, Account(AccountKey(merchant, kind, currency, Some(ref)), typ))
      ensures typ == TypeOf(kind) ==> Grown(old(accounts), accounts, {AccountKey(merchant, kind, currency, Some(ref))})
      ensures r.Success? ==> r.value in accounts && accounts[r.value].key == AccountKey(merchant, kind, currency, Some(ref))
      ensures r.Failure? ==> r.error == DatabaseFailed && Down(old(asked))
    {
      r := Upsert(AccountKey(merchant, kind, currency, Some(ref)), typ);
    }

    method InsertTransaction(merchant: Id, kind: TxnKind, ref: Id) returns (r: Result<Id, MoneyError>)
      modifies `txns, `asked
      ensures old(asked) <= asked
      ensures r.Success? ==> r.value == |old(txns)| && txns == old(txns) + [Txn(merchant, kind, ref, [])]
      ensures r.Failure? ==> r.error == DatabaseFailed && Down(old(asked))
    {
      var ok := Answers();
      if !ok {
        return Failure(DatabaseFailed);
      }
      txns := txns + [Txn(merchant, kind, ref, [])];
      return Success(|txns| - 1);
    }

    method InsertEntry(txn: Id, entry: Entry) returns (r: Result<(), MoneyError>)
      requires txn < |txns|
      modifies `txns, `asked
      ensures old(asked) <= asked
      ensures r.Success? ==> txns == old(txns)[txn := old(txns)[txn].(entries := old(txns)[txn].entries + [entry])]
      ensures r.Failure? ==> r.error == DatabaseFailed && Down(old(asked))
    {
      var ok := Answers();
      if !ok {
        return Failure(DatabaseFailed);
      }
      txns := txns[txn := txns[txn].(entries := txns[txn].entries + [entry])];
      return Success(());
    }

    method InsertOutbox(merchant: Id, eventType: string, payload: Payload) returns (r: Result<(), MoneyError>)
      requires Valid()
      modifies `outbox, `issued, `asked
      ensures old(asked) <= asked
      ensures Valid()
      ensures r.Success? ==> |outbox| == |old(outbox)| + 1
      ensures r.Success? ==> outbox == old(outbox) + [Event(outbox[|old(outbox)|].eventId, merchant, eventType, payload)]
      ensures r.Success? ==> FreshEvent(old(outbox), outbox[|old(outbox)|].eventId)
      ensures r.Failure? ==> r.error == DatabaseFailed && Down(old(asked))
    {
      var ok := Answers();
      if !ok {
        return Failure(DatabaseFailed);
      }
      outbox := outbox + [Event(issued, merchant, eventType, payload)];
      issued := issued + 1;
      return Success(());
    }
  }

  /** The validation loop: the first fault, or the comparison of the wrapping sums. */
  method Validate(entries: seq<Entry>) returns (r: Option<LedgerError>)
    ensures r == Verdict(entries)
  {
    if |entries| == 0 {
      return Some(Empty);
    }
    var currency := entries[0].currency;
    var sumDebit: int64, sumCredit: int64 := 0, 0;
    for k := 0 to |entries|
      invariant FirstFault(entries[..k], currency).None?
      invariant sumDebit == Wrap64(Debits(entries[..k])) && sumCredit == Wrap64(Credits(entries[..k]))
    {
      var e := entries[k];
      assert entries[..k + 1][..k] == entries[..k];
      if !OneSided(e) {
        FaultsLast(entries, k + 1, currency);
        return Some(BadEntry);
      }
      if e.currency != currency {
        FaultsLast(entries, k + 1, currency);
        return Some(MixedCurrency);
      }
      WrapAdds(Debits(entries[..k]), e.debit);
      WrapAdds(Credits(entries[..k]), e.credit);
      sumDebit, sumCredit := Wrap64(sumDebit + e.debit), Wrap64(sumCredit + e.credit);
    }
    assert entries[..|entries|] == entries;
    if sumDebit != sumCredit {
      return Some(Unbalanced);
    }
    return None;
  }

  /** PostTransaction: validate the whole list, then write it; an unacceptable list writes nothing. */
  method PostTransaction(db: Database, merchant: Id, kind: TxnKind, ref: Id, entries: seq<Entry>)
    returns (r: Result<Id, MoneyError>)
    modifies db`txns, db`asked
    ensures old(db.asked) <= db.asked
    ensures r.Failure? && r.error.LedgerRejects? ==> Deserves(entries, Some(r.error.why))
    ensures Verdict(entries).Some? ==> r == Failure(LedgerRejects(Verdict(entries).value)) && db.txns == old(db.txns)
    ensures r.Success? ==> db.txns == old(db.txns) + [Txn(merchant, kind, ref, entries)]
    ensures Verdict(entries).None? && r.Failure? ==> r.error == DatabaseFailed && db.Down(old(db.asked))
  {
    var fault := Validate(entries);
    if fault.Some? {
      VerdictIsDeserved(entries);
      return Failure(LedgerRejects(fault.value));
    }
    var txn :- db.InsertTransaction(merchant, kind, ref);
    assert entries[..0] == [];
    for k := 0 to |entries|
      invariant old(db.asked) <= db.asked
      invariant db.txns == old(db.txns) + [Txn(merchant, kind, ref, entries[..k])]
    {
      var _ :- db.InsertEntry(txn, entries[k]);
      assert entries[..k + 1] == entries[..k] + [entries[k]];
    }
    assert entries[..|entries|] == entries;
    return Success(txn);
  }

  /** The first fault of a prefix is the first fault of the whole. */
  lemma {:induction false} FaultsLast(entries: seq<Entry>, n: nat, currency: Currency)
    requires n <= |entries| && FirstFault(entries[..n], currency).Some?
    ensures FirstFault(entries, currency) == FirstFault(entries[..n], currency)
    decreases |entries| - n
  {
    if n == |entries| {
      assert entries[..n] == entries;
    } else {
      assert entries[..n + 1][..n] == entries[..n];
      FaultsLast(entries, n + 1, currency);
    }
  }
}
