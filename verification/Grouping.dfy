/** The portal's ledger view (httpapi/portal_reads.go): flat rows grouped into transactions through an
    index map. */
module Grouping {
  import opened Tables
  import Posting
  import opened Money
  import opened Lifecycle

  /** What the view shows of an entry. */
  datatype Line = Line(accountType: AccountType, accountKind: AccountKind, debit: int64, credit: int64, currency: Currency)

  /** One row of the join of transactions, entries and accounts. */
  datatype Row = Row(transaction: Id, kind: TxnKind, line: Line)

  datatype Group = Group(id: Id, kind: TxnKind, entries: seq<Line>)

  // ---------------------------------------------------------------- what grouping means

  /** The transactions of the rows, each where it first appears. */
  function Ids(rows: seq<Row>): seq<Id> {
    if rows == [] then []
    else
      var ids, id := Ids(rows[..|rows| - 1]), rows[|rows| - 1].transaction;
      if id in ids then ids else ids + [id]
  }

  function LinesOf(rows: seq<Row>, id: Id): seq<Line> {
    if rows == [] then []
    else
      var lines, r := LinesOf(rows[..|rows| - 1], id), rows[|rows| - 1];
      if r.transaction == id then lines + [r.line] else lines
  }

  /** The kind on the first row of a transaction. */
  function KindOf(rows: seq<Row>, id: Id): TxnKind
    requires id in Ids(rows)
  {
    var front := rows[..|rows| - 1];
    if id in Ids(front) then KindOf(front, id) else rows[|rows| - 1].kind
  }

  function GroupOf(rows: seq<Row>, id: Id): Group
    requires id in Ids(rows)
  {
    Group(id, KindOf(rows, id), LinesOf(rows, id))
  }

  ghost predicate Distinct(ids: seq<Id>) {
    forall j, k :: 0 <= j < k < |ids| ==> ids[j] != ids[k]
  }

  lemma {:induction false} IdsAreDistinct(rows: seq<Row>)
    ensures Distinct(Ids(rows))
  {
    if rows != [] {
      IdsAreDistinct(rows[..|rows| - 1]);
    }
  }

  lemma RowAppended(rows: seq<Row>, r: Row)
    ensures Ids(rows + [r]) == Ids(rows) + (if r.transaction in Ids(rows) then [] else [r.transaction])
    ensures forall id :: LinesOf(rows + [r], id) == LinesOf(rows, id) + (if r.transaction == id then [r.line] else [])
    ensures forall id :: id in Ids(rows) ==> KindOf(rows + [r], id) == KindOf(rows, id)
    ensures r.transaction !in Ids(rows) ==> KindOf(rows + [r], r.transaction) == r.kind
  {
    assert (rows + [r])[..|rows|] == rows;
  }

  lemma {:induction false} NoLinesElsewhere(rows: seq<Row>, id: Id)
    ensures id in Ids(rows) <==> LinesOf(rows, id) != []
  {
    if rows != [] {
      NoLinesElsewhere(rows[..|rows| - 1], id);
    }
  }

  /** One more row adds its line to its own group, which may be new, and to no other. */
  lemma GroupsGrow(rows: seq<Row>, r: Row)
    ensures Ids(rows + [r]) == Ids(rows) + (if r.transaction in Ids(rows) then [] else [r.transaction])
    ensures forall id :: id in Ids(rows) ==>
              GroupOf(rows + [r], id) ==
              if id == r.transaction then GroupOf(rows, id).(entries := GroupOf(rows, id).entries + [r.line]) else GroupOf(rows, id)
    ensures r.transaction !in Ids(rows) ==> GroupOf(rows + [r], r.transaction) == Group(r.transaction, r.kind, [r.line])
  {
    RowAppended(rows, r);
    NoLinesElsewhere(rows, r.transaction);
    assert forall id :: LinesOf(rows, id) + [] == LinesOf(rows, id);
  }

  ghost predicate Grouped(rows: seq<Row>, txns: seq<Group>) {
    |txns| == |Ids(rows)| && forall g :: 0 <= g < |txns| ==> txns[g] == GroupOf(rows, Ids(rows)[g])
  }

  /** The map finds every transaction seen so far. */
  ghost predicate Indexed(rows: seq<Row>, byId: map<Id, nat>) {
    && (forall id :: id in byId <==> id in Ids(rows))
    && (forall id :: id in byId ==> byId[id] < |Ids(rows)| && Ids(rows)[byId[id]] == id)
  }

  /** A row of a known transaction. */
  lemma KnownGrows(rows: seq<Row>, r: Row, txns: seq<Group>, byId: map<Id, nat>)
    requires Grouped(rows, txns) && Indexed(rows, byId) && r.transaction in byId
    ensures var i := byId[r.transaction];
      i < |txns| && Grouped(rows + [r], txns[i := txns[i].(entries := txns[i].entries + [r.line])]) && Indexed(rows + [r], byId)
  {
    GroupsGrow(rows, r);
    IdsAreDistinct(rows);
  }

  /** A row of a new transaction. */
  lemma NewGrows(rows: seq<Row>, r: Row, txns: seq<Group>, byId: map<Id, nat>)
    requires Grouped(rows, txns) && Indexed(rows, byId) && r.transaction !in byId
    ensures var fresh' := txns + [Group(r.transaction, r.kind, [])];
      Grouped(rows + [r], fresh'[|txns| := fresh'[|txns|].(entries := fresh'[|txns|].entries + [r.line])])
    ensures Indexed(rows + [r], byId[r.transaction := |txns|])
  {
    GroupsGrow(rows, r);
    assert [] + [r.line] == [r.line];
  }

  lemma NothingGrouped()
    ensures Grouped([], []) && Indexed([], map[])
  {
  }

  /** The loop. */
  method Transactions(rows: seq<Row>) returns (txns: seq<Group>)
    ensures Grouped(rows, txns)
  {
    txns := [];
    var byId: map<Id, nat> := map[];
    var n := 0;
    ghost var done: seq<Row> := [];
    NothingGrouped();
    while n < |rows|
      invariant n <= |rows| && done == rows[..n]
      invariant Grouped(done, txns) && Indexed(done, byId)
    {
      var r := rows[n];
      if r.transaction in byId {
        KnownGrows(done, r, txns, byId);
      } else {
        NewGrows(done, r, txns, byId);
        txns := txns + [Group(r.transaction, r.kind, [])];
        byId := byId[r.transaction := |txns| - 1];
      }
      var i := byId[r.transaction];
      txns := txns[i := txns[i].(entries := txns[i].entries + [r.line])];
      done := done + [r];
      n := n + 1;
    }
    assert done == rows;
  }

  // ---------------------------------------------------------------- nothing is lost

  /** How many rows the transactions `ids` hold together. */
  ghost function Held(rows: seq<Row>, ids: seq<Id>): nat {
    if ids == [] then 0 else Held(rows, ids[..|ids| - 1]) + |LinesOf(rows, ids[|ids| - 1])|
  }

  lemma {:induction false} HeldGrows(rows: seq<Row>, r: Row, ids: seq<Id>)
    requires Distinct(ids)
    ensures Held(rows + [r], ids) == Held(rows, ids) + if r.transaction in ids then 1 else 0
  {
    if ids != [] {
      HeldGrows(rows, r, ids[..|ids| - 1]);
      RowAppended(rows, r);
    }
  }

  lemma {:induction false} HeldIsAll(rows: seq<Row>)
    ensures Held(rows, Ids(rows)) == |rows|
  {
    if rows != [] {
      var front, r := rows[..|rows| - 1], rows[|rows| - 1];
      var ids := Ids(front);
      assert rows == front + [r];
      HeldIsAll(front);
      IdsAreDistinct(front);
      HeldGrows(front, r, ids);
      RowAppended(front, r);
      NoLinesElsewhere(front, r.transaction);
      assert Ids(rows)[..|ids|] == ids;
    }
  }

  /** Every row's line is in its own group, behind the lines of that transaction's earlier rows and no
      others. */
  lemma {:induction false} LinesKeepRowOrder(rows: seq<Row>, i: nat)
    requires i < |rows|
    ensures var id := rows[i].transaction;
      var lines, before := LinesOf(rows, id), LinesOf(rows[..i], id);
      |before| < |lines| && before == lines[..|before|] && lines[|before|] == rows[i].line
  {
    var last := |rows| - 1;
    if i < last {
      LinesKeepRowOrder(rows[..last], i);
      assert rows[..last][..i] == rows[..i];
    }
  }

  /** Where a transaction first appears. */
  ghost predicate FirstAt(rows: seq<Row>, id: Id, k: nat) {
    k < |rows| && rows[k].transaction == id && forall j :: 0 <= j < k ==> rows[j].transaction != id
  }

  /** A group has the kind of its first row. */
  lemma {:induction false} KindIsOfFirstRow(rows: seq<Row>, id: Id, k: nat)
    requires FirstAt(rows, id, k)
    ensures id in Ids(rows) && KindOf(rows, id) == rows[k].kind
  {
    var front := rows[..|rows| - 1];
    if k < |front| {
      assert FirstAt(front, id, k);
      KindIsOfFirstRow(front, id, k);
    } else if id in Ids(front) {
      var j := FirstAppearance(front, id);
      assert false;
    }
  }

  /** Transactions come in the order of their first rows. */
  lemma {:induction false} IdsAppearInOrder(rows: seq<Row>, g: nat, h: nat) returns (j: nat, k: nat)
    requires g < h < |Ids(rows)|
    ensures FirstAt(rows, Ids(rows)[g], j) && FirstAt(rows, Ids(rows)[h], k) && j < k
  {
    var front := rows[..|rows| - 1];
    if h < |Ids(front)| {
      j, k := IdsAppearInOrder(front, g, h);
    } else {
      j := FirstAppearance(front, Ids(front)[g]);
      k := |rows| - 1;
      assert rows[k].transaction !in Ids(front);
      if i :| 0 <= i < k && rows[i].transaction == rows[k].transaction {
        AppearsIn(front, i);
      }
    }
  }

  lemma {:induction false} AppearsIn(rows: seq<Row>, i: nat)
    requires i < |rows|
    ensures rows[i].transaction in Ids(rows)
  {
    if i < |rows| - 1 {
      AppearsIn(rows[..|rows| - 1], i);
    }
  }

  lemma {:induction false} FirstAppearance(rows: seq<Row>, id: Id) returns (k: nat)
    requires id in Ids(rows)
    ensures FirstAt(rows, id, k)
  {
    var front := rows[..|rows| - 1];
    if id in Ids(front) {
      k := FirstAppearance(front, id);
    } else {
      k := |rows| - 1;
      if i :| 0 <= i < k && rows[i].transaction == id {
        AppearsIn(front, i);
      }
    }
  }

  /** No transaction appears twice, every row's transaction is there, and together they hold as many rows
      as there are: none is lost or repeated. */
  lemma GroupsPartitionTheRows(rows: seq<Row>)
    ensures Distinct(Ids(rows)) && Held(rows, Ids(rows)) == |rows|
    ensures forall i :: 0 <= i < |rows| ==> rows[i].transaction in Ids(rows)
  {
    IdsAreDistinct(rows);
    HeldIsAll(rows);
    forall i | 0 <= i < |rows|
      ensures rows[i].transaction in Ids(rows)
    {
      AppearsIn(rows, i);
    }
  }

  // ---------------------------------------------------------------- on a reachable ledger

  function LineOf(accounts: map<Id, Account>, e: Entry): Line
    requires e.account in accounts
  {
    var a := accounts[e.account];
    Line(a.typ, a.key.kind, e.debit, e.credit, e.currency)
  }

  ghost function SumDebits(lines: seq<Line>): int {
    if lines == [] then 0 else SumDebits(lines[..|lines| - 1]) + lines[|lines| - 1].debit
  }

  ghost function SumCredits(lines: seq<Line>): int {
    if lines == [] then 0 else SumCredits(lines[..|lines| - 1]) + lines[|lines| - 1].credit
  }

  ghost function LinesFor(accounts: map<Id, Account>, entries: seq<Entry>): (lines: seq<Line>)
    requires forall e :: 0 <= e < |entries| ==> entries[e].account in accounts
    ensures |lines| == |entries| && forall e :: 0 <= e < |entries| ==> lines[e] == LineOf(accounts, entries[e])
  {
    if entries == [] then []
    else LinesFor(accounts, entries[..|entries| - 1]) + [LineOf(accounts, entries[|entries| - 1])]
  }

  /** The lines of one transaction, whatever order the query returns rows of one instant in. */
  ghost predicate ShowsTxn(s: Tables, t: Txn, lines: seq<Line>) {
    && (forall e :: 0 <= e < |t.entries| ==> t.entries[e].account in s.accounts)
    && multiset(lines) == multiset(LinesFor(s.accounts, t.entries))
  }

  /** Rows the ledger query can return for an intent of a merchant. */
  ghost predicate Lists(s: Tables, merchant: Id, i: Id, rows: seq<Row>) {
    forall k: nat :: LinesOf(rows, k) != [] || (k < |s.txns| && s.txns[k].ref == i && s.txns[k].merchant == merchant) ==>
      && k < |s.txns| && s.txns[k].ref == i && s.txns[k].merchant == merchant
      && ShowsTxn(s, s.txns[k], LinesOf(rows, k))
  }

  lemma {:induction false} SumsSplit(a: seq<Line>, k: nat)
    requires k < |a|
    ensures SumDebits(a) == SumDebits(a[..k] + a[k + 1..]) + a[k].debit
    ensures SumCredits(a) == SumCredits(a[..k] + a[k + 1..]) + a[k].credit
  {
    var last := |a| - 1;
    if k == last {
      assert a[..k] + a[k + 1..] == a[..last];
    } else {
      SumsSplit(a[..last], k);
      assert a[..last][..k] + a[..last][k + 1..] == (a[..k] + a[k + 1..])[..last - 1];
    }
  }

  lemma TakeOut(b: seq<Line>, k: nat)
    requires k < |b|
    ensures multiset(b[..k] + b[k + 1..]) == multiset(b) - multiset{b[k]}
  {
    assert b == b[..k] + [b[k]] + b[k + 1..];
  }

  lemma RestPermutes(a: seq<Line>, b: seq<Line>, k: nat)
    requires a != [] && multiset(a) == multiset(b) && k < |b| && b[k] == a[|a| - 1]
    ensures multiset(a[..|a| - 1]) == multiset(b[..k] + b[k + 1..])
  {
    TakeOut(a, |a| - 1);
    TakeOut(b, k);
    assert a[..|a| - 1] + a[|a|..] == a[..|a| - 1];
  }

  /** Sums do not depend on the order of the lines. */
  lemma {:induction false} SumsPermute(a: seq<Line>, b: seq<Line>)
    requires multiset(a) == multiset(b)
    ensures SumDebits(a) == SumDebits(b) && SumCredits(a) == SumCredits(b)
    decreases |a|
  {
    assert |multiset(a)| == |a| && |multiset(b)| == |b|;
    if a != [] {
      var last := |a| - 1;
      assert a[last] in multiset(b);
      var k :| 0 <= k < |b| && b[k] == a[last];
      RestPermutes(a, b, k);
      SumsPermute(a[..last], b[..k] + b[k + 1..]);
      SumsSplit(b, k);
    }
  }

  lemma {:induction false} LinesSum(accounts: map<Id, Account>, entries: seq<Entry>, lines: seq<Line>)
    requires |lines| == |entries|
    requires forall e :: 0 <= e < |entries| ==> entries[e].account in accounts && lines[e] == LineOf(accounts, entries[e])
    ensures SumDebits(lines) == Posting.Debits(entries) && SumCredits(lines) == Posting.Credits(entries)
  {
    if entries != [] {
      LinesSum(accounts, entries[..|entries| - 1], lines[..|lines| - 1]);
    }
  }

  lemma ShownTxnBalances(s: Tables, t: Txn, lines: seq<Line>)
    requires ShowsTxn(s, t, lines) && Posting.Debits(t.entries) == Posting.Credits(t.entries)
    ensures SumDebits(lines) == SumCredits(lines) == Posting.Debits(t.entries)
  {
    var shown := LinesFor(s.accounts, t.entries);
    LinesSum(s.accounts, t.entries, shown);
    SumsPermute(lines, shown);
  }

  /** On any reachable ledger the view shows exactly the intent's transactions, and every one balances. */
  lemma ViewBalances(trace: seq<Tables>, ops: seq<Op>, n: nat, merchant: Id, i: Id, rows: seq<Row>)
    requires SerialRun(trace, ops) && n < |trace| && Lists(trace[n], merchant, i, rows)
    ensures forall id: Id :: id in Ids(rows) ==> SumDebits(LinesOf(rows, id)) == SumCredits(LinesOf(rows, id))
    ensures forall id: Id :: id in Ids(rows) <==>
              id < |trace[n].txns| && trace[n].txns[id].ref == i && trace[n].txns[id].merchant == merchant
  {
    var s := trace[n];
    RunsKeepInv(trace, ops, n);
    forall id: Id
      ensures id in Ids(rows) <==> id < |s.txns| && s.txns[id].ref == i && s.txns[id].merchant == merchant
      ensures id in Ids(rows) ==> SumDebits(LinesOf(rows, id)) == SumCredits(LinesOf(rows, id))
    {
      NoLinesElsewhere(rows, id);
      if id < |s.txns| && s.txns[id].ref == i && s.txns[id].merchant == merchant {
        assert TxnOk(s, id);
        ShownTxnBalances(s, s.txns[id], LinesOf(rows, id));
      }
    }
  }
}
