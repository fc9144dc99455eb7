/** Any number of money calls at once: their transactions interleave statement by statement, under row
    locks on intents, locks on account keys (the unique indexes) and uncommitted private writes. Every
    interleaving commits what a serial run in commit order would. */
module Concurrency {
  import opened Wrappers
  import opened Tables
  import Posting
  import opened Money
  import opened Lifecycle
  import Runs
  import opened Reports
  import ClosedForm
  import Numeric
  import Replay
  import Causes

  type TxId = nat

  /** How far a transaction has come: nothing done; intent locked and read, accounts being upserted;
      entries posted; status written; event written. */
  datatype Stage = Begun | Holding | Entered | Updated | Announced

  /** An open transaction and everything only it can see. */
  datatype Tx = Tx(
    req: Request,
    at: Time,
    stage: Stage,
    row: Option<Intent>,
    bound: map<AccountKey, Id>,
    added: map<Id, Account>,
    posted: seq<Txn>,
    event: Option<Event>)

  datatype Config = Config(
    db: Tables,
    txs: map<TxId, Tx>,
    rowLocks: map<Id, TxId>,
    keyLocks: map<AccountKey, TxId>,
    issuedTo: map<Id, TxId>,      // every uuid handed out, and to whom
    history: seq<Tables>,         // the committed tables after each commit
    log: seq<Op>)                 // the operations, in commit order

  const INIT := Config(EMPTY, map[], map[], map[], map[], [EMPTY], [])

  datatype Action =
    | Begin(t: TxId, req: Request, at: Time)
    | Lock(t: TxId)
    | Refuse(t: TxId, answer: Plan)
    | Bind(t: TxId, key: AccountKey, id: Id)
    | Post(t: TxId)
    | Update(t: TxId)
    | Announce(t: TxId, id: Id)
    | Commit(t: TxId)
    | Abort(t: TxId)
    | Insert(merchant: Id, input: CreateInput, at: Time)

  // ---------------------------------------------------------------- steps

  function PlanOf(x: Tx): Plan {
    if x.req.call.Refund? && x.req.call.amount <= 0 then Reject(InvalidAmount)
    else if x.row.Some? then Decide(x.req.id, x.row.value, x.req.call)
    else Skip
  }

  ghost function Without<K, V>(m: map<K, V>, v: V): map<K, V> {
    map k | k in m && m[k] != v :: m[k]
  }

  /** The transaction is over, one way or another: its private writes and its locks are gone. */
  ghost function Ended(c: Config, t: TxId): Config {
    c.(txs := c.txs - {t}, rowLocks := Without(c.rowLocks, t), keyLocks := Without(c.keyLocks, t))
  }

  ghost predicate Visible(db: Tables, req: Request) {
    req.id < |db.intents| && db.intents[req.id].merchant == req.merchant
  }

  function EntriesBound(legs: seq<Leg>, bound: map<AccountKey, Id>, currency: Currency): (r: seq<Entry>)
    requires forall k :: 0 <= k < |legs| ==> legs[k].key in bound
  {
    seq(|legs|, k requires 0 <= k < |legs| => Entry(bound[legs[k].key], legs[k].debit, legs[k].credit, currency))
  }

  ghost predicate AllBound(legs: seq<Leg>, bound: map<AccountKey, Id>) {
    forall k :: 0 <= k < |legs| ==> legs[k].key in bound
  }

  /** What a transaction posts, once every account is bound. */
  ghost function PostingOf(x: Tx): seq<Txn>
    requires PlanOf(x).Write? && x.row.Some? && AllBound(PlanOf(x).legs, x.bound)
  {
    var plan := PlanOf(x);
    if plan.legs == [] || KindsOf(plan.next) == [] then []
    else [Txn(x.req.merchant, KindsOf(plan.next)[0], x.req.id, EntriesBound(plan.legs, x.bound, x.row.value.currency))]
  }

  ghost function RowAfter(x: Tx): Intent
    requires PlanOf(x).Write? && x.row.Some?
  {
    x.row.value.(status := PlanOf(x).next, updatedAt := x.at)
  }

  /** The tables with a transaction's private writes made public. */
  ghost function Applied(db: Tables, x: Tx): Tables
    requires PlanOf(x).Write? && x.row.Some? && x.req.id < |db.intents| && x.event.Some?
  {
    Tables(db.intents[x.req.id := RowAfter(x)], db.accounts + x.added, db.txns + x.posted, db.outbox + [x.event.value])
  }

  ghost predicate Next(c: Config, action: Action, c': Config) {
    match action
    case Begin(t, req, at) =>
      t !in c.txs
      && c' == c.(txs := c.txs[t := Tx(req, at, Begun, None, map[], map[], [], None)])
    case Lock(t) =>
      t in c.txs && var x := c.txs[t];
      x.stage == Begun && Visible(c.db, x.req) && x.req.id !in c.rowLocks && !PlanOf(x).Reject?
      && c' == c.(txs := c.txs[t := x.(stage := Holding, row := Some(c.db.intents[x.req.id]))],
                  rowLocks := c.rowLocks[x.req.id := t])
    case Refuse(t, answer) =>
      t in c.txs && var x := c.txs[t];
      answer == (if x.stage == Begun && !PlanOf(x).Reject? then Reject(IntentNotFound) else PlanOf(x))
      && (x.stage == Begun ==> PlanOf(x).Reject? || !Visible(c.db, x.req))
      && (x.stage != Begun ==> x.stage == Holding && !answer.Write?)
      && c' == Ended(c, t)
    case Bind(t, key, id) =>
      t in c.txs && var x := c.txs[t];
      x.stage == Holding && PlanOf(x).Write? && key in LegKeys(PlanOf(x).legs) && key !in x.bound
      && (key in c.keyLocks ==> c.keyLocks[key] == t)
      && (if HasKey(c.db.accounts, key) then
            id in c.db.accounts && c.db.accounts[id].key == key
            && c' == c.(txs := c.txs[t := x.(bound := x.bound[key := id])], keyLocks := c.keyLocks[key := t])
          else
            id !in c.issuedTo
            && c' == c.(txs := c.txs[t := x.(bound := x.bound[key := id], added := x.added[id := Account(key, TypeOf(key.kind))])],
                        keyLocks := c.keyLocks[key := t], issuedTo := c.issuedTo[id := t]))
    case Post(t) =>
      t in c.txs && var x := c.txs[t];
      x.stage == Holding && PlanOf(x).Write? && x.row.Some? && AllBound(PlanOf(x).legs, x.bound)
      && (forall k :: 0 <= k < |PostingOf(x)| ==> Posting.Verdict(PostingOf(x)[k].entries).None?)
      && c' == c.(txs := c.txs[t := x.(stage := Entered, posted := PostingOf(x))])
    case Update(t) =>
      t in c.txs && var x := c.txs[t];
      x.stage == Entered && c' == c.(txs := c.txs[t := x.(stage := Updated)])
    case Announce(t, id) =>
      t in c.txs && var x := c.txs[t];
      x.stage == Updated && PlanOf(x).Write? && x.row.Some? && id !in c.issuedTo
      && c' == c.(txs := c.txs[t := x.(stage := Announced, event := Some(EventFor(id, x.req.id, RowAfter(x))))],
                  issuedTo := c.issuedTo[id := t])
    case Commit(t) =>
      t in c.txs && var x := c.txs[t];
      x.stage == Announced && PlanOf(x).Write? && x.row.Some? && x.req.id < |c.db.intents| && x.event.Some?
      && var db' := Applied(c.db, x);
      c' == Ended(c, t).(db := db', history := c.history + [db'], log := c.log + [Run(x.req, x.at)])
    case Abort(t) =>
      t in c.txs && c' == Ended(c, t)
    case Insert(merchant, input, at) =>
      var row := Validated(merchant, input, at);
      row.Success?
      && var db' := c.db.(intents := c.db.intents + [row.value]);
      c' == c.(db := db', history := c.history + [db'], log := c.log + [Open(merchant, input, at)])
  }

  // ---------------------------------------------------------------- what an open transaction knows

  /** The row it read under the lock is still the committed row. */
  ghost predicate HoldsRow(c: Config, t: TxId, x: Tx) {
    && x.row.Some?
    && Visible(c.db, x.req)
    && c.db.intents[x.req.id] == x.row.value
    && x.req.id in c.rowLocks && c.rowLocks[x.req.id] == t
  }

  /** A bound key is locked, and names either the committed account or one only this transaction has. */
  ghost predicate BoundOk(c: Config, t: TxId, x: Tx, key: AccountKey)
    requires key in x.bound
  {
    var id := x.bound[key];
    && key in c.keyLocks && c.keyLocks[key] == t
    && (if id in x.added then x.added[id] == Account(key, TypeOf(key.kind)) && !HasKey(c.db.accounts, key)
        else id in c.db.accounts && c.db.accounts[id].key == key)
  }

  ghost predicate AddedOk(c: Config, t: TxId, x: Tx, id: Id)
    requires id in x.added
  {
    && id in c.issuedTo && c.issuedTo[id] == t
    && id !in c.db.accounts
    && x.added[id].key in x.bound && x.bound[x.added[id].key] == id
  }

  ghost predicate EventPending(c: Config, t: TxId, x: Tx) {
    && x.event.Some? && x.row.Some? && PlanOf(x).Write?
    && x.event.value == EventFor(x.event.value.eventId, x.req.id, RowAfter(x))
    && x.event.value.eventId in c.issuedTo && c.issuedTo[x.event.value.eventId] == t
    && FreshEvent(c.db.outbox, x.event.value.eventId)
  }

  ghost predicate TxOk(c: Config, t: TxId, x: Tx) {
    && (x.stage == Begun ==> x.bound == map[] && x.added == map[] && x.row.None?)
    && (x.stage != Begun ==> HoldsRow(c, t, x) && !(x.req.call.Refund? && x.req.call.amount <= 0))
    && (forall key :: key in x.bound ==> BoundOk(c, t, x, key))
    && (forall key :: key in x.bound ==> PlanOf(x).Write? && key in LegKeys(PlanOf(x).legs))
    && (forall id :: id in x.added ==> AddedOk(c, t, x, id))
    && (x.stage in {Entered, Updated, Announced} ==>
          && PlanOf(x).Write? && x.row.Some? && AllBound(PlanOf(x).legs, x.bound) && x.posted == PostingOf(x)
          && forall k :: 0 <= k < |x.posted| ==> Posting.Verdict(x.posted[k].entries).None?)
    && (x.stage == Announced ==> EventPending(c, t, x))
  }

  ghost predicate IdsIssued(c: Config) {
    && (forall a :: a in c.db.accounts ==> a in c.issuedTo)
    && (forall k :: 0 <= k < |c.db.outbox| ==> c.db.outbox[k].eventId in c.issuedTo)
  }

  ghost predicate Serial(c: Config) {
    SerialRun(c.history, c.log) && c.history[|c.history| - 1] == c.db
  }

  ghost predicate Safe(c: Config) {
    && Serial(c)
    && Inv(c.db)
    && IdsIssued(c)
    && forall t :: t in c.txs ==> TxOk(c, t, c.txs[t])
  }

  // ---------------------------------------------------------------- steps that commit nothing

  ghost predicate KeepsLocks<K>(before: map<K, TxId>, after: map<K, TxId>, t: TxId) {
    forall k :: k in before && before[k] == t ==> k in after && after[k] == t
  }

  /** A step of another transaction that commits nothing disturbs nothing this one knows. */
  lemma OthersUndisturbed(c: Config, c': Config, t: TxId, x: Tx)
    requires TxOk(c, t, x) && c'.db == c.db
    requires KeepsLocks(c.rowLocks, c'.rowLocks, t) && KeepsLocks(c.keyLocks, c'.keyLocks, t)
    requires forall id :: id in c.issuedTo ==> id in c'.issuedTo && c'.issuedTo[id] == c.issuedTo[id]
    ensures TxOk(c', t, x)
  {
    forall key | key in x.bound
      ensures BoundOk(c', t, x, key)
    {
      assert BoundOk(c, t, x, key);
    }
    forall id | id in x.added
      ensures AddedOk(c', t, x, id)
    {
      assert AddedOk(c, t, x, id);
    }
  }

  lemma EndKeepsSafe(c: Config, t: TxId)
    requires Safe(c)
    ensures Safe(Ended(c, t))
  {
    forall u | u in c.txs && u != t
      ensures TxOk(Ended(c, t), u, c.txs[u])
    {
      OthersUndisturbed(c, Ended(c, t), u, c.txs[u]);
    }
  }

  /** A step that only advances one transaction's private state. */
  lemma AdvanceKeepsSafe(c: Config, c': Config, t: TxId, x': Tx)
    requires Safe(c) && c' == c.(txs := c.txs[t := x'], rowLocks := c'.rowLocks, keyLocks := c'.keyLocks, issuedTo := c'.issuedTo)
    requires TxOk(c', t, x')
    requires forall u :: u != t ==> KeepsLocks(c.rowLocks, c'.rowLocks, u) && KeepsLocks(c.keyLocks, c'.keyLocks, u)
    requires forall id :: id in c.issuedTo ==> id in c'.issuedTo && c'.issuedTo[id] == c.issuedTo[id]
    ensures Safe(c')
  {
    forall u | u in c'.txs
      ensures TxOk(c', u, c'.txs[u])
    {
      if u != t {
        OthersUndisturbed(c, c', u, c.txs[u]);
      }
    }
  }

  lemma BeginKeepsSafe(c: Config, action: Action, c': Config)
    requires Safe(c) && action.Begin? && Next(c, action, c')
    ensures Safe(c')
  {
    AdvanceKeepsSafe(c, c', action.t, c'.txs[action.t]);
  }

  lemma LockKeepsSafe(c: Config, action: Action, c': Config)
    requires Safe(c) && action.Lock? && Next(c, action, c')
    ensures Safe(c')
  {
    assert TxOk(c, action.t, c.txs[action.t]);
    AdvanceKeepsSafe(c, c', action.t, c'.txs[action.t]);
  }

  lemma BindKeepsBound(c: Config, action: Action, c': Config)
    requires IdsIssued(c) && action.Bind? && Next(c, action, c') && TxOk(c, action.t, c.txs[action.t])
    ensures var x' := c'.txs[action.t];
      && (forall k :: k in x'.bound ==> BoundOk(c', action.t, x', k))
      && (forall a :: a in x'.added ==> AddedOk(c', action.t, x', a))
  {
    var t, key, id := action.t, action.key, action.id;
    var x, x' := c.txs[t], c'.txs[t];
    forall k | k in x'.bound
      ensures BoundOk(c', t, x', k)
    {
      assert k != key ==> BoundOk(c, t, x, k);
      assert id in x.added ==> AddedOk(c, t, x, id);
    }
    forall a | a in x'.added
      ensures AddedOk(c', t, x', a)
    {
      assert a in x.added ==> AddedOk(c, t, x, a);
    }
  }

  lemma BindKeepsTx(c: Config, action: Action, c': Config)
    requires Safe(c) && action.Bind? && Next(c, action, c')
    ensures TxOk(c', action.t, c'.txs[action.t])
  {
    assert TxOk(c, action.t, c.txs[action.t]);
    assert PlanOf(c'.txs[action.t]) == PlanOf(c.txs[action.t]);
    BindKeepsBound(c, action, c');
  }

  lemma BindIsPrivate(c: Config, action: Action, c': Config)
    requires action.Bind? && Next(c, action, c')
    ensures c' == c.(txs := c.txs[action.t := c'.txs[action.t]], keyLocks := c'.keyLocks, issuedTo := c'.issuedTo)
    ensures forall u :: u != action.t ==> KeepsLocks(c.keyLocks, c'.keyLocks, u)
    ensures forall id :: id in c.issuedTo ==> id in c'.issuedTo && c'.issuedTo[id] == c.issuedTo[id]
  {
  }

  lemma BindKeepsSafe(c: Config, action: Action, c': Config)
    requires Safe(c) && action.Bind? && Next(c, action, c')
    ensures Safe(c')
  {
    BindIsPrivate(c, action, c');
    BindKeepsTx(c, action, c');
    AdvanceKeepsSafe(c, c', action.t, c'.txs[action.t]);
  }

  /** Posting and updating change the stage only; what was bound stays bound. */
  lemma StageKeepsBound(c: Config, c': Config, t: TxId, x: Tx, x': Tx)
    requires TxOk(c, t, x) && c'.db == c.db && c'.rowLocks == c.rowLocks && c'.keyLocks == c.keyLocks
    requires forall id :: id in c.issuedTo ==> id in c'.issuedTo && c'.issuedTo[id] == c.issuedTo[id]
    requires x' == x.(stage := x'.stage, posted := x'.posted, event := x'.event) && x.stage != Begun
    ensures HoldsRow(c', t, x')
    ensures forall key :: key in x'.bound ==> BoundOk(c', t, x', key)
    ensures forall id :: id in x'.added ==> AddedOk(c', t, x', id)
  {
    forall key | key in x.bound
      ensures BoundOk(c', t, x', key)
    {
      assert BoundOk(c, t, x, key);
    }
    forall id | id in x.added
      ensures AddedOk(c', t, x', id)
    {
      assert AddedOk(c, t, x, id);
    }
  }

  lemma PostKeepsSafe(c: Config, action: Action, c': Config)
    requires Safe(c) && action.Post? && Next(c, action, c')
    ensures Safe(c')
  {
    var t := action.t;
    assert TxOk(c, t, c.txs[t]);
    assert PlanOf(c'.txs[t]) == PlanOf(c.txs[t]);
    StageKeepsBound(c, c', t, c.txs[t], c'.txs[t]);
    AdvanceKeepsSafe(c, c', t, c'.txs[t]);
  }

  lemma UpdateKeepsSafe(c: Config, action: Action, c': Config)
    requires Safe(c) && action.Update? && Next(c, action, c')
    ensures Safe(c')
  {
    var t := action.t;
    assert TxOk(c, t, c.txs[t]);
    assert PlanOf(c'.txs[t]) == PlanOf(c.txs[t]);
    StageKeepsBound(c, c', t, c.txs[t], c'.txs[t]);
    AdvanceKeepsSafe(c, c', t, c'.txs[t]);
  }

  lemma AnnounceKeepsSafe(c: Config, action: Action, c': Config)
    requires Safe(c) && action.Announce? && Next(c, action, c')
    ensures Safe(c')
  {
    var t := action.t;
    assert TxOk(c, t, c.txs[t]);
    assert PlanOf(c'.txs[t]) == PlanOf(c.txs[t]);
    StageKeepsBound(c, c', t, c.txs[t], c'.txs[t]);
    AdvanceKeepsSafe(c, c', t, c'.txs[t]);
  }

  // ---------------------------------------------------------------- steps that commit

  lemma InsertKeepsSafe(c: Config, action: Action, c': Config)
    requires Safe(c) && action.Insert? && Next(c, action, c')
    ensures Safe(c')
  {
    var op := Open(action.merchant, action.input, action.at);
    StepKeepsInv(c.db, op, c'.db);
    Runs.Extend(EMPTY, Steps(), c.history, c.log, op, c'.db);
    forall u | u in c.txs
      ensures TxOk(c', u, c.txs[u])
    {
      var x := c.txs[u];
      assert TxOk(c, u, x);
      forall key | key in x.bound
        ensures BoundOk(c', u, x, key)
      {
        assert BoundOk(c, u, x, key);
      }
      forall id | id in x.added
        ensures AddedOk(c', u, x, id)
      {
        assert AddedOk(c, u, x, id);
      }
    }
  }

  /** Making a transaction's private accounts public grows the table by its own keys. */
  lemma AppliedGrows(c: Config, t: TxId, x: Tx)
    requires UniqueKeys(c.db.accounts) && TxOk(c, t, x) && PlanOf(x).Write?
    ensures Grown(c.db.accounts, c.db.accounts + x.added, LegKeys(PlanOf(x).legs))
  {
    var after := c.db.accounts + x.added;
    forall a | a in x.added
      ensures a !in c.db.accounts && x.added[a].key in x.bound && x.bound[x.added[a].key] == a
      ensures x.added[a].typ == TypeOf(x.added[a].key.kind) && !HasKey(c.db.accounts, x.added[a].key)
    {
      assert AddedOk(c, t, x, a);
      assert BoundOk(c, t, x, x.added[a].key);
    }
    forall a, b | a in after && b in after && after[a].key == after[b].key
      ensures a == b
    {
      if a !in x.added && b in x.added {
        assert HasKey(c.db.accounts, after[a].key);
      }
      if b !in x.added && a in x.added {
        assert HasKey(c.db.accounts, after[b].key);
      }
    }
  }

  lemma AppliedPosts(c: Config, t: TxId, x: Tx)
    requires TxOk(c, t, x) && x.stage == Announced && Inv(c.db)
    requires PlanOf(x).legs == [] <==> KindsOf(PlanOf(x).next) == []
    ensures Posted(c.db, Applied(c.db, x), x.req.id, PlanOf(x).legs, PlanOf(x).next)
  {
    var legs := PlanOf(x).legs;
    if legs != [] {
      var txn := PostingOf(x)[0];
      var after := Applied(c.db, x).accounts;
      assert Posting.Verdict(x.posted[0].entries).None?;
      forall k | 0 <= k < |legs|
        ensures txn.entries[k].account in after && after[txn.entries[k].account].key == legs[k].key
      {
        assert BoundOk(c, t, x, legs[k].key);
        if x.bound[legs[k].key] !in x.added {
          assert after[x.bound[legs[k].key]] == c.db.accounts[x.bound[legs[k].key]];
        }
      }
    }
  }

  /** A commit is one serial step: at that moment the call, run alone, does the same. */
  lemma CommitIsSerial(c: Config, t: TxId)
    requires Safe(c) && t in c.txs && c.txs[t].stage == Announced
    ensures PlanOf(c.txs[t]).Write?
    ensures Step(c.db, Run(c.txs[t].req, c.txs[t].at), Applied(c.db, c.txs[t]))
  {
    var x := c.txs[t];
    assert TxOk(c, t, x);
    assert PlanOf(x) == Serve(c.db, x.req);
    assert IntentTold(c.db, x.req.id);
    PlansAreSound(c.db, x.req);
    AppliedGrows(c, t, x);
    AppliedPosts(c, t, x);
  }

  /** The accounts one transaction adds are under keys the other cannot have bound, and new ids. */
  lemma AddedApart(c: Config, t: TxId, x: Tx, u: TxId, y: Tx)
    requires t != u && TxOk(c, t, x) && TxOk(c, u, y)
    ensures forall a :: a in x.added ==> x.added[a].key !in y.bound && a !in c.db.accounts && a !in y.added
  {
    forall a | a in x.added
      ensures x.added[a].key !in y.bound && a !in c.db.accounts && a !in y.added
    {
      var key := x.added[a].key;
      assert AddedOk(c, t, x, a) && BoundOk(c, t, x, key);
      assert key in y.bound ==> BoundOk(c, u, y, key);
      assert a in y.added ==> AddedOk(c, u, y, a);
    }
  }

  lemma BoundSurvivesCommit(c: Config, t: TxId, x: Tx, c': Config, u: TxId, y: Tx, key: AccountKey)
    requires t != u && TxOk(c, t, x) && TxOk(c, u, y) && x.stage == Announced && key in y.bound
    requires PlanOf(x).Write? && x.req.id < |c.db.intents|
    requires c' == Ended(c, t).(db := Applied(c.db, x), history := c'.history, log := c'.log)
    ensures BoundOk(c', u, y, key)
  {
    AddedApart(c, t, x, u, y);
    assert BoundOk(c, u, y, key);
    assert HasKey(c'.db.accounts, key) ==> HasKey(c.db.accounts, key);
  }

  /** Another transaction's commit cannot touch what this one knows: the row it locked, the keys it
      locked, the ids only it was issued. */
  lemma OthersSurviveCommit(c: Config, t: TxId, x: Tx, c': Config, u: TxId, y: Tx)
    requires t != u && TxOk(c, t, x) && TxOk(c, u, y) && x.stage == Announced
    requires PlanOf(x).Write? && x.req.id < |c.db.intents|
    requires c' == Ended(c, t).(db := Applied(c.db, x), history := c'.history, log := c'.log)
    ensures TxOk(c', u, y)
  {
    AddedApart(c, t, x, u, y);
    forall key | key in y.bound
      ensures BoundOk(c', u, y, key)
    {
      BoundSurvivesCommit(c, t, x, c', u, y, key);
    }
    forall id | id in y.added
      ensures AddedOk(c', u, y, id)
    {
      assert AddedOk(c, u, y, id);
    }
  }

  lemma CommitKeepsSafe(c: Config, action: Action, c': Config)
    requires Safe(c) && action.Commit? && Next(c, action, c')
    ensures Safe(c')
  {
    var t := action.t;
    var x := c.txs[t];
    var op := Run(x.req, x.at);
    assert TxOk(c, t, x);
    CommitIsSerial(c, t);
    StepKeepsInv(c.db, op, c'.db);
    Runs.Extend(EMPTY, Steps(), c.history, c.log, op, c'.db);
    CommitKeepsIssued(c, t, x, c');
    forall u | u in c'.txs
      ensures TxOk(c', u, c'.txs[u])
    {
      OthersSurviveCommit(c, t, x, c', u, c.txs[u]);
    }
  }

  lemma CommitKeepsIssued(c: Config, t: TxId, x: Tx, c': Config)
    requires IdsIssued(c) && TxOk(c, t, x) && x.stage == Announced
    requires PlanOf(x).Write? && x.req.id < |c.db.intents| && c'.db == Applied(c.db, x) && c'.issuedTo == c.issuedTo
    ensures IdsIssued(c')
  {
    forall a | a in x.added
      ensures a in c.issuedTo
    {
      assert AddedOk(c, t, x, a);
    }
  }

  // ---------------------------------------------------------------- every interleaving

  lemma NextKeepsSafe(c: Config, action: Action, c': Config)
    requires Safe(c) && Next(c, action, c')
    ensures Safe(c')
  {
    match action
    case Begin(_, _, _) => BeginKeepsSafe(c, action, c');
    case Lock(_) => LockKeepsSafe(c, action, c');
    case Refuse(t, _) => EndKeepsSafe(c, t);
    case Bind(_, _, _) => BindKeepsSafe(c, action, c');
    case Post(_) => PostKeepsSafe(c, action, c');
    case Update(_) => UpdateKeepsSafe(c, action, c');
    case Announce(_, _) => AnnounceKeepsSafe(c, action, c');
    case Commit(_) => CommitKeepsSafe(c, action, c');
    case Abort(t) => EndKeepsSafe(c, t);
    case Insert(_, _, _) => InsertKeepsSafe(c, action, c');
  }

  ghost function Nexts(): Runs.Relation<Config, Action> {
    (c, action, c') => Next(c, action, c')
  }

  /** An interleaved execution from the empty database. */
  ghost predicate Execution(trace: seq<Config>, actions: seq<Action>) {
    Runs.IsRun(INIT, Nexts(), trace, actions)
  }

  lemma NothingIsSafe()
    ensures Safe(INIT)
  {
    NothingKept();
  }

  lemma ExecutionsAreSafe(trace: seq<Config>, actions: seq<Action>, n: nat)
    requires Execution(trace, actions) && n < |trace|
    ensures Safe(trace[n])
  {
    NothingIsSafe();
    forall c, action, c' | Safe(c) && Next(c, action, c')
      ensures Safe(c')
    {
      NextKeepsSafe(c, action, c');
    }
    Runs.Induction(c => Safe(c), INIT, Nexts(), trace, actions, n);
  }

  /** Serializability: whatever the interleaving, the committed tables are those of running the
      committed operations one at a time, in the order they committed. */
  lemma CommitsAreSerializable(trace: seq<Config>, actions: seq<Action>, n: nat)
    requires Execution(trace, actions) && n < |trace|
    ensures SerialRun(trace[n].history, trace[n].log)
    ensures trace[n].history[|trace[n].log|] == trace[n].db
  {
    ExecutionsAreSafe(trace, actions, n);
  }

  /** Hence the books are in order in every state any interleaving reaches. */
  lemma BooksAlways(trace: seq<Config>, actions: seq<Action>, n: nat)
    requires Execution(trace, actions) && n < |trace|
    ensures Books(trace[n].db)
  {
    var c := trace[n];
    CommitsAreSerializable(trace, actions, n);
    RunsKeepBooks(c.history, c.log, |c.log|);
  }

  /** Two executions that committed the same operations in the same order, however each interleaved them,
      have the same intents, postings, events and balances, up to the ids of accounts and events. */
  lemma SameLogSameBooks(trace: seq<Config>, actions: seq<Action>, m: nat, trace': seq<Config>, actions': seq<Action>, n: nat)
    requires Execution(trace, actions) && m < |trace| && Execution(trace', actions') && n < |trace'|
    requires trace[m].log == trace'[n].log
    ensures Replay.Alike(trace[m].db, trace'[n].db)
    ensures forall sel: ClosedForm.Selection :: ClosedForm.Balance(trace[m].db, sel) == ClosedForm.Balance(trace'[n].db, sel)
  {
    var c, c' := trace[m], trace'[n];
    CommitsAreSerializable(trace, actions, m);
    CommitsAreSerializable(trace', actions', n);
    Replay.LogFixesTables(c.history, c'.history, c.log, |c.log|);
    forall sel: ClosedForm.Selection
      ensures ClosedForm.Balance(c.db, sel) == ClosedForm.Balance(c'.db, sel)
    {
      Replay.BalancesAlike(c.db, c'.db, sel);
    }
  }

  lemma AppliedKeepsDeals(db: Tables, x: Tx)
    requires PlanOf(x).Write? && x.row.Some? && x.req.id < |db.intents| && x.event.Some?
    requires db.intents[x.req.id] == x.row.value
    ensures SameDeals(db, Applied(db, x))
  {
  }

  lemma NextKeepsDeals(c: Config, action: Action, c': Config)
    requires Safe(c) && Next(c, action, c')
    ensures SameDeals(c.db, c'.db)
  {
    if action.Commit? {
      assert TxOk(c, action.t, c.txs[action.t]);
      AppliedKeepsDeals(c.db, c.txs[action.t]);
    } else if !action.Insert? {
      assert c'.db == c.db;
    }
  }

  /** What an intent is about stays, from any moment to any later one. */
  lemma DealsStay(trace: seq<Config>, actions: seq<Action>, m: nat, n: nat)
    requires Execution(trace, actions) && m <= n < |trace|
    ensures SameDeals(trace[m].db, trace[n].db)
  {
    var db := trace[m].db;
    ExecutionsAreSafe(trace, actions, m);
    forall c, action, c' | Safe(c) && SameDeals(db, c.db) && Next(c, action, c')
      ensures Safe(c') && SameDeals(db, c'.db)
    {
      NextKeepsSafe(c, action, c');
      NextKeepsDeals(c, action, c');
    }
    Runs.Onwards(c => Safe(c) && SameDeals(db, c.db), INIT, Nexts(), trace, actions, m, n);
  }

  /** The escrow check takes its two sums in two queries, and calls may commit in between: it says ok
      exactly when what left escrow in between makes up for what is outstanding. */
  lemma SegregationBetween(trace: seq<Config>, actions: seq<Action>, m: nat, n: nat, merchant: Id, currency: Currency,
                           cash: Option<Numeric.Decimal>, liabilities: Option<Numeric.Decimal>)
    requires Execution(trace, actions) && m <= n < |trace|
    requires Answers(cash, ClosedForm.Balance(trace[m].db, OfKind(merchant, SegregatedCash, currency)))
    requires Answers(liabilities, ClosedForm.Balance(trace[n].db, OfKind(merchant, EscrowLiability, currency)))
    ensures SaysOf(trace[m].db, trace[n].db, merchant, currency, EscrowSegregationHolds(cash, liabilities))
  {
    BooksAlways(trace, actions, m);
    BooksAlways(trace, actions, n);
    DealsStay(trace, actions, m, n);
    SegregationAcross(trace[m].db, trace[n].db, merchant, currency, cash, liabilities);
  }

  /** Every event, in any state any interleaving reaches, was announced by a committed call that may
      announce it: an authorization only by a confirmation the bank approved, a capture only by a capture
      the bank approved. */
  lemma EventsAlwaysCaused(trace: seq<Config>, actions: seq<Action>, n: nat, k: nat) returns (m: nat)
    requires Execution(trace, actions) && n < |trace| && k < |trace[n].db.outbox|
    ensures m < |trace[n].log|
    ensures var e := trace[n].db.outbox[k];
      Causes.CallsOn(trace[n].log[m], e.payload.id, e.merchant) && Causes.Announces(trace[n].log[m].req.call, e.payload)
  {
    var c := trace[n];
    CommitsAreSerializable(trace, actions, n);
    m := Causes.EventsHaveCauses(c.history, c.log, |c.log|, k);
  }

  /** And every ledger transaction was posted by a committed call that entitles to it. */
  lemma TxnsAlwaysCaused(trace: seq<Config>, actions: seq<Action>, n: nat, k: nat) returns (m: nat)
    requires Execution(trace, actions) && n < |trace| && k < |trace[n].db.txns|
    ensures m < |trace[n].log|
    ensures var t := trace[n].db.txns[k];
      Causes.CallsOn(trace[n].log[m], t.ref, t.merchant) && Causes.Entitles(trace[n].log[m].req.call, t)
  {
    var c := trace[n];
    CommitsAreSerializable(trace, actions, n);
    m := Causes.TxnsHaveCauses(c.history, c.log, |c.log|, k);
  }

  /** And every intent's outbox rows and ledger transactions are those its mode and status dictate. */
  lemma ShapesAlways(trace: seq<Config>, actions: seq<Action>, n: nat, i: Id)
    requires Execution(trace, actions) && n < |trace| && i < |trace[n].db.intents|
    ensures Shaped(trace[n].db, i)
  {
    ExecutionsAreSafe(trace, actions, n);
    InvShapes(trace[n].db, i);
  }

  /** Until it ends, a transaction past its lock works on a row nobody else can change: what it
      decided is what the call, run alone on the tables as they are now, would decide. */
  lemma DecisionStaysCurrent(trace: seq<Config>, actions: seq<Action>, n: nat, t: TxId)
    requires Execution(trace, actions) && n < |trace| && t in trace[n].txs && trace[n].txs[t].stage != Begun
    ensures PlanOf(trace[n].txs[t]) == Serve(trace[n].db, trace[n].txs[t].req)
  {
    ExecutionsAreSafe(trace, actions, n);
    assert TxOk(trace[n], t, trace[n].txs[t]);
  }

  /** The answer of a call that commits nothing is the one the call, run alone on the tables as they are
      at that moment, would give: the same error, or the same nothing to do. It changes nothing. */
  lemma RefusalsAreCurrent(trace: seq<Config>, actions: seq<Action>, n: nat)
    requires Execution(trace, actions) && n < |actions| && actions[n].Refuse?
    ensures trace[n + 1].db == trace[n].db && trace[n + 1].log == trace[n].log
    ensures actions[n].t in trace[n].txs
    ensures actions[n].answer == Serve(trace[n].db, trace[n].txs[actions[n].t].req) && !actions[n].answer.Write?
  {
    assert Runs.Linked(Nexts(), trace, actions, n);
    var t := actions[n].t;
    if trace[n].txs[t].stage != Begun {
      DecisionStaysCurrent(trace, actions, n, t);
    } else {
      ExecutionsAreSafe(trace, actions, n);
      assert TxOk(trace[n], t, trace[n].txs[t]);
    }
  }

  /** The ledger's validation never stands in the way: with its accounts bound, a transaction can post. */
  lemma PostingIsEnabled(trace: seq<Config>, actions: seq<Action>, n: nat, t: TxId)
    requires Execution(trace, actions) && n < |trace| && t in trace[n].txs
    requires var x := trace[n].txs[t]; x.stage == Holding && PlanOf(x).Write? && AllBound(PlanOf(x).legs, x.bound)
    ensures exists c' :: Next(trace[n], Post(t), c')
  {
    var c := trace[n];
    var x := c.txs[t];
    ExecutionsAreSafe(trace, actions, n);
    assert TxOk(c, t, x);
    assert PlanOf(x) == Serve(c.db, x.req);
    assert IntentTold(c.db, x.req.id);
    PlansAreSound(c.db, x.req);
    if PlanOf(x).legs != [] {
      var entries := PostingOf(x)[0].entries;
      PlanPosts(c, t, x);
    }
    assert Next(c, Post(t), c.(txs := c.txs[t := x.(stage := Entered, posted := PostingOf(x))]));
  }

  lemma PlanPosts(c: Config, t: TxId, x: Tx)
    requires TxOk(c, t, x) && x.row.Some? && PlanOf(x).Write? && AllBound(PlanOf(x).legs, x.bound)
    requires PlanOf(x).legs != [] && LegsOk(x.row.value, PlanOf(x).legs)
    ensures Posting.Verdict(EntriesBound(PlanOf(x).legs, x.bound, x.row.value.currency)).None?
  {
    var legs := PlanOf(x).legs;
    var entries := EntriesBound(legs, x.bound, x.row.value.currency);
    var accounts := c.db.accounts + x.added;
    forall k | 0 <= k < |legs|
      ensures entries[k].account in accounts && accounts[entries[k].account].key == legs[k].key
    {
      assert BoundOk(c, t, x, legs[k].key);
    }
    PostingNeverRejects(accounts, entries, x.row.value, legs);
  }
}
