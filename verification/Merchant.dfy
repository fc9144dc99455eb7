/** The merchant's webhook consumer (Nem_luxury/app/services/nem_pay/webhook_handler.rb,
    Nem_luxury/app/models/order.rb): insert-first deduplication and a guarded transition to paid. */
module Merchant {
  import opened Wrappers
  import opened Tables
  import Runs

  datatype OrderStatus = PendingPayment | Paid | Fulfilled | Cancelled

  datatype Order = Order(status: OrderStatus, amount: int, currency: string, intentId: Option<Id>)

  /** The verified JSON body; a missing object or status reads as the empty string. */
  datatype Body = Body(objectName: string, id: Option<Id>, status: string, amount: Option<int>, currency: Option<string>)

  /** A webhook request: two headers and the signed body. */
  datatype Message = Message(eventId: Id, eventType: string, body: Body)

  datatype Processed = Processed(eventType: string, order: Option<nat>)

  /** An order's id is its row number; processed events are unique by event id. */
  datatype Shop = Shop(orders: seq<Order>, processed: map<Id, Processed>)

  datatype Outcome = Handled | Duplicate | UnknownIntent

  /** The order as the handler read it, before its transaction began. */
  datatype Copy = Copy(row: nat, order: Order)

  // ---------------------------------------------------------------- what the handler does

  predicate IsCapture(b: Body) {
    b.objectName == "payment_intent" && b.status == "captured"
  }

  predicate AmountsMatch(b: Body, o: Order) {
    b.amount == Some(o.amount) && b.currency == Some(o.currency)
  }

  /** The first order of an intent. */
  function FindBy(orders: seq<Order>, id: Option<Id>): (r: Option<nat>)
    ensures r.Some? ==> (
      && r.value < |orders| && orders[r.value].intentId == id
      && forall j :: 0 <= j < r.value ==> orders[j].intentId != id)
    ensures r.None? ==> forall j :: 0 <= j < |orders| ==> orders[j].intentId != id
  {
    if orders == [] then None
    else
      var r := FindBy(orders[..|orders| - 1], id);
      if r.Some? then r
      else if orders[|orders| - 1].intentId == id then Some(|orders| - 1)
      else None
  }

  function Read(orders: seq<Order>, id: Option<Id>): (copy: Option<Copy>)
    ensures copy.Some? ==> copy.value.row < |orders| && copy.value.order == orders[copy.value.row]
  {
    var r := FindBy(orders, id);
    if r.None? then None else Some(Copy(r.value, orders[r.value]))
  }

  /** Whether the copy the handler holds makes it write the order's status. */
  predicate Writes(b: Body, copy: Option<Copy>) {
    && IsCapture(b)
    && copy.Some?
    && AmountsMatch(b, copy.value.order)
    && copy.value.order.status == PendingPayment
  }

  /** The transaction, with the copy read before it: the unique index turns a known event away. */
  function Transact(s: Shop, m: Message, copy: Option<Copy>): (Shop, Outcome)
    requires copy.Some? ==> copy.value.row < |s.orders|
  {
    if m.eventId in s.processed then (s, Duplicate)
    else
      var orders := if Writes(m.body, copy) then s.orders[copy.value.row := s.orders[copy.value.row].(status := Paid)]
                    else s.orders;
      var row := if copy.Some? then Some(copy.value.row) else None;
      (Shop(orders, s.processed[m.eventId := Processed(m.eventType, row)]),
       if IsCapture(m.body) && copy.None? then UnknownIntent else Handled)
  }

  function Handle(s: Shop, m: Message): (Shop, Outcome) {
    Transact(s, m, Read(s.orders, m.body.id))
  }

  /** What a webhook says when it announces a captured payment. */
  predicate SaysCaptured(b: Body) {
    b.objectName == "payment_intent" && b.status == "captured"
  }

  /** What the handler reports, and which order it pays: none for an event it knows; for a new one, the
      order it read, if the event announces a capture of exactly the order's amount and currency and the
      order was pending. It reports an unknown intent exactly for a capture without an order. */
  ghost predicate Reports(s: Shop, m: Message, copy: Option<Copy>, s': Shop, outcome: Outcome) {
    if m.eventId in s.processed then outcome == Duplicate && s' == s
    else
      && (outcome == UnknownIntent <==> SaysCaptured(m.body) && copy == None)
      && (outcome == Handled <==> !(SaysCaptured(m.body) && copy == None))
      && s'.processed.Keys == s.processed.Keys + {m.eventId}
      && |s'.orders| == |s.orders|
      && forall i :: 0 <= i < |s.orders| ==>
           s'.orders[i] ==
             if copy.Some? && copy.value.row == i && SaysCaptured(m.body) && copy.value.order.status == PendingPayment
                && m.body.amount == Some(copy.value.order.amount) && m.body.currency == Some(copy.value.order.currency)
             then s.orders[i].(status := Paid) else s.orders[i]
  }

  lemma TransactReports(s: Shop, m: Message, copy: Option<Copy>)
    requires copy.Some? ==> copy.value.row < |s.orders|
    ensures Reports(s, m, copy, Transact(s, m, copy).0, Transact(s, m, copy).1)
  {
  }

  // ---------------------------------------------------------------- what any deliveries amount to

  /** An event that pays an order, whatever the order's status. */
  predicate Earns(orders: seq<Order>, b: Body, i: nat)
    requires i < |orders|
  {
    IsCapture(b) && FindBy(orders, b.id) == Some(i) && AmountsMatch(b, orders[i])
  }

  /** The k-th delivery is the first one of an event the shop did not know. */
  ghost predicate Counts(s: Shop, ms: seq<Message>, k: nat)
    requires k < |ms|
  {
    ms[k].eventId !in s.processed && forall j :: 0 <= j < k ==> ms[j].eventId != ms[k].eventId
  }

  ghost predicate Earned(s: Shop, ms: seq<Message>, i: nat)
    requires i < |s.orders|
  {
    exists k :: 0 <= k < |ms| && Counts(s, ms, k) && Earns(s.orders, ms[k].body, i)
  }

  /** `s'` is what the deliveries `ms` make of `s`: the pending orders they earn are paid and nothing else
      about any order changes; each new event is recorded once, as it first came. */
  ghost predicate Final(s: Shop, ms: seq<Message>, s': Shop) {
    && OrdersFinal(s, ms, s'.orders)
    && ProcessedFinal(s, ms, s'.processed)
  }

  ghost predicate OrdersFinal(s: Shop, ms: seq<Message>, orders: seq<Order>) {
    && |orders| == |s.orders|
    && forall i :: 0 <= i < |s.orders| ==>
         orders[i] == if s.orders[i].status == PendingPayment && Earned(s, ms, i) then s.orders[i].(status := Paid)
                      else s.orders[i]
  }

  ghost predicate ProcessedFinal(s: Shop, ms: seq<Message>, processed: map<Id, Processed>) {
    && (forall id :: id in s.processed ==> id in processed && processed[id] == s.processed[id])
    && (forall id :: id in processed ==> id in s.processed || Delivered(ms, id))
    && (forall k :: 0 <= k < |ms| ==> ms[k].eventId in processed)
    && (forall k :: 0 <= k < |ms| && Counts(s, ms, k) ==>
          processed[ms[k].eventId] == Processed(ms[k].eventType, FindBy(s.orders, ms[k].body.id)))
  }

  ghost predicate Delivered(ms: seq<Message>, id: Id) {
    exists k :: 0 <= k < |ms| && ms[k].eventId == id
  }

  lemma {:induction false} FindAgrees(a: seq<Order>, b: seq<Order>, id: Option<Id>)
    requires |a| == |b| && forall i :: 0 <= i < |a| ==> a[i].intentId == b[i].intentId
    ensures FindBy(a, id) == FindBy(b, id)
  {
    if a != [] {
      FindAgrees(a[..|a| - 1], b[..|b| - 1], id);
    }
  }

  /** What counts among the deliveries so far still counts after one more. */
  lemma CountsExtend(s: Shop, ms: seq<Message>, m: Message, k: nat)
    requires k <= |ms|
    ensures k < |ms| ==> (Counts(s, ms + [m], k) <==> Counts(s, ms, k))
    ensures k == |ms| ==> (Counts(s, ms + [m], k) <==> m.eventId !in s.processed && !Delivered(ms, m.eventId))
  {
    var ms' := ms + [m];
    assert forall j :: 0 <= j < |ms| ==> ms'[j] == ms[j];
  }

  lemma EarnedExtends(s: Shop, ms: seq<Message>, m: Message, i: nat)
    requires i < |s.orders|
    ensures Earned(s, ms + [m], i) <==>
            Earned(s, ms, i) || (m.eventId !in s.processed && !Delivered(ms, m.eventId) && Earns(s.orders, m.body, i))
  {
    var ms' := ms + [m];
    forall k | 0 <= k <= |ms|
      ensures k < |ms| ==> (Counts(s, ms', k) <==> Counts(s, ms, k)) && ms'[k] == ms[k]
      ensures k == |ms| ==> (Counts(s, ms', k) <==> m.eventId !in s.processed && !Delivered(ms, m.eventId)) && ms'[k] == m
    {
      CountsExtend(s, ms, m, k);
    }
    if Earned(s, ms, i) {
      var k :| 0 <= k < |ms| && Counts(s, ms, k) && Earns(s.orders, ms[k].body, i);
      assert Counts(s, ms', k) && Earns(s.orders, ms'[k].body, i);
    }
    if m.eventId !in s.processed && !Delivered(ms, m.eventId) && Earns(s.orders, m.body, i) {
      assert Counts(s, ms', |ms|) && Earns(s.orders, ms'[|ms|].body, i);
    }
  }

  /** A copy read at some earlier point of the run: the right row, and no older than its status. */
  ghost predicate CopyOk(s0: Shop, s: Shop, m: Message, copy: Option<Copy>) {
    if copy.None? then FindBy(s0.orders, m.body.id).None?
    else
      var c := copy.value;
      && FindBy(s0.orders, m.body.id) == Some(c.row)
      && c.row < |s0.orders| == |s.orders|
      && (c.order == s.orders[c.row] || (c.order.status == PendingPayment && s.orders[c.row] == c.order.(status := Paid)))
  }

  lemma TransactKeepsOrders(s0: Shop, ms: seq<Message>, s: Shop, m: Message, copy: Option<Copy>)
    requires Final(s0, ms, s) && CopyOk(s0, s, m, copy)
    ensures OrdersFinal(s0, ms + [m], Transact(s, m, copy).0.orders)
  {
    var s' := Transact(s, m, copy).0;
    assert Delivered(ms, m.eventId) ==> m.eventId in s.processed;
    forall i | 0 <= i < |s0.orders|
      ensures s'.orders[i] ==
        if s0.orders[i].status == PendingPayment && Earned(s0, ms + [m], i) then s0.orders[i].(status := Paid) else s0.orders[i]
    {
      EarnedExtends(s0, ms, m, i);
    }
  }

  lemma TransactKeepsProcessed(s0: Shop, ms: seq<Message>, s: Shop, m: Message, copy: Option<Copy>)
    requires Final(s0, ms, s) && CopyOk(s0, s, m, copy)
    ensures ProcessedFinal(s0, ms + [m], Transact(s, m, copy).0.processed)
  {
    var ms', p := ms + [m], Transact(s, m, copy).0.processed;
    assert Delivered(ms, m.eventId) ==> m.eventId in s.processed;
    forall k | 0 <= k < |ms'|
      ensures ms'[k].eventId in p
      ensures Counts(s0, ms', k) ==> p[ms'[k].eventId] == Processed(ms'[k].eventType, FindBy(s0.orders, ms'[k].body.id))
    {
      CountsExtend(s0, ms, m, k);
      assert k < |ms| ==> ms'[k] == ms[k];
    }
    forall id | id in p && id !in s0.processed
      ensures Delivered(ms', id)
    {
      if id in s.processed {
        var k :| 0 <= k < |ms| && ms[k].eventId == id;
        assert ms'[k].eventId == id;
      } else {
        assert ms'[|ms|].eventId == id;
      }
    }
  }

  /** One more transaction extends the account by one delivery, even with a stale copy. */
  lemma TransactKeepsFinal(s0: Shop, ms: seq<Message>, s: Shop, m: Message, copy: Option<Copy>)
    requires Final(s0, ms, s) && CopyOk(s0, s, m, copy)
    ensures Final(s0, ms + [m], Transact(s, m, copy).0)
  {
    TransactKeepsOrders(s0, ms, s, m, copy);
    TransactKeepsProcessed(s0, ms, s, m, copy);
  }

  /** The account fixes the outcome. */
  lemma FinalIsUnique(s: Shop, ms: seq<Message>, a: Shop, b: Shop)
    requires Final(s, ms, a) && Final(s, ms, b)
    ensures a == b
  {
    forall id | id in a.processed || id in b.processed
      ensures id in a.processed && id in b.processed && a.processed[id] == b.processed[id]
    {
      if id !in s.processed {
        var k := FirstOf(ms, id);
        assert Counts(s, ms, k);
      }
    }
  }

  lemma {:induction false} FirstOf(ms: seq<Message>, id: Id) returns (k: nat)
    requires Delivered(ms, id)
    ensures k < |ms| && ms[k].eventId == id && forall j :: 0 <= j < k ==> ms[j].eventId != id
  {
    var front := ms[..|ms| - 1];
    if Delivered(front, id) {
      k := FirstOf(front, id);
    } else {
      k := |ms| - 1;
      assert forall j :: 0 <= j < |front| ==> front[j] == ms[j];
    }
  }

  // ---------------------------------------------------------------- concurrent handlers

  datatype Flight = Flight(m: Message, copy: Option<Copy>)

  /** The shop, the handlers at work, and the messages whose transactions committed, in that order. */
  datatype Desk = Desk(shop: Shop, flights: map<Id, Flight>, finished: seq<Message>)

  datatype Action =
    | Arrive(handler: Id, m: Message)
    | Finish(handler: Id)
    | Drop(handler: Id)

  predicate Next(d: Desk, action: Action, d': Desk) {
    match action
    case Arrive(h, m) =>
      h !in d.flights && d' == d.(flights := d.flights[h := Flight(m, Read(d.shop.orders, m.body.id))])
    case Finish(h) =>
      && h in d.flights
      && var f := d.flights[h];
      && (f.copy.Some? ==> f.copy.value.row < |d.shop.orders|)
      && d' == Desk(Transact(d.shop, f.m, f.copy).0, d.flights - {h}, d.finished + [f.m])
    case Drop(h) =>
      h in d.flights && d' == d.(flights := d.flights - {h})
  }

  ghost function Nexts(): Runs.Relation<Desk, Action> {
    (d, a, d') => Next(d, a, d')
  }

  ghost predicate DeskOk(s0: Shop, d: Desk) {
    && Final(s0, d.finished, d.shop)
    && forall h :: h in d.flights ==> CopyOk(s0, d.shop, d.flights[h].m, d.flights[h].copy)
  }

  lemma ArriveKeepsDesk(s0: Shop, d: Desk, m: Message)
    requires DeskOk(s0, d)
    ensures CopyOk(s0, d.shop, m, Read(d.shop.orders, m.body.id))
  {
    FindAgrees(s0.orders, d.shop.orders, m.body.id);
  }

  lemma FinishKeepsCopies(s0: Shop, d: Desk, f: Flight, g: Flight)
    requires Final(s0, d.finished, d.shop) && CopyOk(s0, d.shop, f.m, f.copy) && CopyOk(s0, d.shop, g.m, g.copy)
    ensures CopyOk(s0, Transact(d.shop, f.m, f.copy).0, g.m, g.copy)
  {
  }

  lemma NextKeepsDesk(s0: Shop, d: Desk, action: Action, d': Desk)
    requires DeskOk(s0, d) && Next(d, action, d')
    ensures DeskOk(s0, d')
  {
    match action
    case Arrive(h, m) =>
      ArriveKeepsDesk(s0, d, m);
    case Finish(h) =>
      var f := d.flights[h];
      TransactKeepsFinal(s0, d.finished, d.shop, f.m, f.copy);
      forall g | g in d'.flights
        ensures CopyOk(s0, d'.shop, d'.flights[g].m, d'.flights[g].copy)
      {
        FinishKeepsCopies(s0, d, f, d.flights[g]);
      }
    case Drop(h) =>
  }

  /** Whatever handlers run at once, crash or are repeated: the shop is what the committed deliveries make
      of it, taken in any grouping. */
  lemma DeliveriesAmountTo(s0: Shop, trace: seq<Desk>, actions: seq<Action>, n: nat)
    requires Runs.IsRun(Desk(s0, map[], []), Nexts(), trace, actions) && n < |trace|
    ensures Final(s0, trace[n].finished, trace[n].shop)
  {
    forall d, a, d' | DeskOk(s0, d) && Next(d, a, d')
      ensures DeskOk(s0, d')
    {
      NextKeepsDesk(s0, d, a, d');
    }
    Runs.Induction(d => DeskOk(s0, d), Desk(s0, map[], []), Nexts(), trace, actions, n);
  }

  /** Messages of one event are copies of each other, as when one gateway sends them all. */
  ghost predicate Coherent(ms: seq<Message>) {
    forall j, k :: 0 <= j < |ms| && 0 <= k < |ms| && ms[j].eventId == ms[k].eventId ==> ms[j] == ms[k]
  }

  ghost predicate Covers(ms: seq<Message>, ns: seq<Message>) {
    forall k :: 0 <= k < |ns| ==> ns[k] in ms
  }

  lemma EarnedByContent(s: Shop, ms: seq<Message>, ns: seq<Message>, i: nat)
    requires Coherent(ms) && Covers(ms, ns) && i < |s.orders| && Earned(s, ns, i)
    ensures Earned(s, ms, i)
  {
    var k :| 0 <= k < |ns| && Counts(s, ns, k) && Earns(s.orders, ns[k].body, i);
    var j :| 0 <= j < |ms| && ms[j] == ns[k];
    var first := FirstOf(ms, ms[j].eventId);
    assert ms[first] == ms[j];
    assert Counts(s, ms, first) && Earns(s.orders, ms[first].body, i);
  }

  /** Reordering and repeating deliveries changes nothing: only which messages came matters. In
      particular each distinct event could have been delivered once. */
  lemma OrderAndRepetitionDoNotMatter(s: Shop, ms: seq<Message>, ns: seq<Message>, a: Shop, b: Shop)
    requires Coherent(ms) && Coherent(ns) && Covers(ms, ns) && Covers(ns, ms)
    requires Final(s, ms, a) && Final(s, ns, b)
    ensures a == b
  {
    forall i | 0 <= i < |s.orders|
      ensures a.orders[i] == b.orders[i]
    {
      if Earned(s, ms, i) {
        EarnedByContent(s, ns, ms, i);
      }
      if Earned(s, ns, i) {
        EarnedByContent(s, ms, ns, i);
      }
    }
    ProcessedByContent(s, ms, ns, a, b);
  }

  lemma DeliveredByContent(ms: seq<Message>, ns: seq<Message>, id: Id)
    requires Covers(ms, ns) && Covers(ns, ms)
    ensures Delivered(ms, id) <==> Delivered(ns, id)
  {
    assert forall k :: 0 <= k < |ms| ==> ms[k] in ns;
    assert forall k :: 0 <= k < |ns| ==> ns[k] in ms;
  }

  lemma ProcessedByContent(s: Shop, ms: seq<Message>, ns: seq<Message>, a: Shop, b: Shop)
    requires Coherent(ms) && Coherent(ns) && Covers(ms, ns) && Covers(ns, ms)
    requires Final(s, ms, a) && Final(s, ns, b)
    ensures a.processed == b.processed
  {
    forall id | id in a.processed || id in b.processed
      ensures id in a.processed && id in b.processed && a.processed[id] == b.processed[id]
    {
      if id !in s.processed {
        assert Delivered(ms, id) || Delivered(ns, id);
        DeliveredByContent(ms, ns, id);
        var j := FirstOf(ms, id);
        var k := FirstOf(ns, id);
        assert ms[j] in ns && Counts(s, ms, j) && Counts(s, ns, k);
      }
    }
  }

  function RowOf(copy: Option<Copy>): Option<nat> {
    if copy.None? then None else Some(copy.value.row)
  }

  /** Exactly when a transaction that read earlier, whatever it found or missed then, ends as one that
      reads now: the event is known, or both reads found the same row, or none, and agree on whether to
      write it, or it is paid already. */
  lemma StaleReadHarmlessIff(s: Shop, m: Message, copy: Option<Copy>)
    requires copy.Some? ==> copy.value.row < |s.orders|
    ensures
      var now := Read(s.orders, m.body.id);
      Transact(s, m, copy) == Handle(s, m) <==>
        || m.eventId in s.processed
        || (RowOf(copy) == RowOf(now)
            && (Writes(m.body, copy) == Writes(m.body, now) || (now.Some? && now.value.order.status == Paid)))
  {
    var now := Read(s.orders, m.body.id);
    assert m.eventId !in s.processed ==>
        Transact(s, m, copy).0.processed[m.eventId].order == RowOf(copy) && Handle(s, m).0.processed[m.eventId].order == RowOf(now);
    if now.Some? && RowOf(copy) == RowOf(now) {
      var row := now.value.row;
      var paid := s.orders[row := s.orders[row].(status := Paid)];
      assert paid[row].status == Paid;
      assert s.orders[row].status == Paid ==> paid == s.orders;
    }
  }

  /** Of reads that found the row: a read of pending overwrites a cancellation or fulfilment since, and a
      read of anything else misses that the order is pending now. */
  lemma StaleStatusHarmlessIff(s: Shop, m: Message, was: OrderStatus)
    requires Read(s.orders, m.body.id).Some?
    ensures
      var now := Read(s.orders, m.body.id).value;
      Transact(s, m, Some(Copy(now.row, now.order.(status := was)))) == Handle(s, m) <==>
        || m.eventId in s.processed
        || !IsCapture(m.body)
        || !AmountsMatch(m.body, now.order)
        || now.order.status == Paid
        || (was == PendingPayment <==> now.order.status == PendingPayment)
  {
    var now := Read(s.orders, m.body.id).value;
    StaleReadHarmlessIff(s, m, Some(Copy(now.row, now.order.(status := was))));
  }

  /** A read that found no order is harmless only if there is still none. */
  lemma MissedReadHarmlessIff(s: Shop, m: Message)
    ensures Transact(s, m, None) == Handle(s, m) <==> m.eventId in s.processed || Read(s.orders, m.body.id).None?
  {
    StaleReadHarmlessIff(s, m, None);
  }

  /** An order that is given its intent id between the handler's read and its transaction stays pending,
      and the redelivery is a duplicate. */
  lemma AttachedTooLate() returns (before: Shop, after: Shop, m: Message)
    ensures before.processed == after.processed == map[] && |before.orders| == |after.orders| == 1
    ensures after.orders == [before.orders[0].(intentId := m.body.id)]
    ensures IsCapture(m.body) && AmountsMatch(m.body, after.orders[0]) && after.orders[0].status == PendingPayment
    ensures Handle(after, m).0.orders[0].status == Paid
    ensures var missed := Transact(after, m, Read(before.orders, m.body.id)).0;
      missed.orders == after.orders && Handle(missed, m) == (missed, Duplicate)
  {
    var order := Order(PendingPayment, 100, "USD", None);
    m := Message(1, "payment_intent.captured", Body("payment_intent", Some(7), "captured", Some(100), Some("USD")));
    before := Shop([order], map[]);
    after := Shop([order.(intentId := Some(7))], map[]);
    assert before.orders[0].intentId != m.body.id && after.orders[0].intentId == m.body.id;
  }

  // ---------------------------------------------------------------- the handler itself

  class WebhookHandler {
    var orders: seq<Order>
    var processed: map<Id, Processed>

    constructor (s: Shop)
      ensures Contents() == s
    {
      orders, processed := s.orders, s.processed;
    }

    function Contents(): Shop
      reads this
    {
      Shop(orders, processed)
    }

    /** Only a pending order becomes paid; a paid one is left alone; any other is refused. */
    method MarkPaid(copy: Copy) returns (ok: bool)
      requires copy.row < |orders|
      modifies this`orders
      ensures ok <==> copy.order.status == PendingPayment || copy.order.status == Paid
      ensures orders == if copy.order.status == PendingPayment
                        then old(orders)[copy.row := old(orders)[copy.row].(status := Paid)] else old(orders)
    {
      if copy.order.status == Paid {
        return true;
      }
      if copy.order.status != PendingPayment {
        return false;
      }
      orders := orders[copy.row := orders[copy.row].(status := Paid)];
      ok := true;
    }

    /** A refused transition is logged, not raised: the event stays recorded and is not redelivered. */
    method Apply(b: Body, copy: Option<Copy>)
      requires copy.Some? ==> copy.value.row < |orders|
      modifies this`orders
      ensures orders == if Writes(b, copy) then old(orders)[copy.value.row := old(orders)[copy.value.row].(status := Paid)]
                        else old(orders)
    {
      if !IsCapture(b) || copy.None? || !AmountsMatch(b, copy.value.order) {
        return;
      }
      var _ := MarkPaid(copy.value);
    }

    /** One transaction; one that fails to commit leaves nothing behind and is redelivered. */
    method Commit(m: Message, copy: Option<Copy>, commits: bool) returns (outcome: Option<Outcome>)
      requires copy.Some? ==> copy.value.row < |orders|
      modifies this
      ensures commits || m.eventId in old(processed) ==>
        && Contents() == Transact(old(Contents()), m, copy).0
        && outcome == Some(Transact(old(Contents()), m, copy).1)
        && Reports(old(Contents()), m, copy, Contents(), outcome.value)
      ensures !commits && m.eventId !in old(processed) ==> Contents() == old(Contents()) && outcome == None
    {
      TransactReports(Contents(), m, copy);
      if m.eventId in processed {
        return Some(Duplicate);
      }
      var orders0, processed0 := orders, processed;
      processed := processed[m.eventId := Processed(m.eventType, if copy.Some? then Some(copy.value.row) else None)];
      Apply(m.body, copy);
      if !commits {
        orders, processed := orders0, processed0;
        return None;
      }
      outcome := Some(if IsCapture(m.body) && copy.None? then UnknownIntent else Handled);
    }

    /** The handler alone: read, then the transaction. */
    method Call(m: Message, commits: bool) returns (outcome: Option<Outcome>)
      modifies this
      ensures commits || m.eventId in old(processed) ==>
        && Contents() == Handle(old(Contents()), m).0
        && outcome == Some(Handle(old(Contents()), m).1)
        && Reports(old(Contents()), m, Read(old(orders), m.body.id), Contents(), outcome.value)
      ensures !commits && m.eventId !in old(processed) ==> Contents() == old(Contents()) && outcome == None
    {
      var copy := Read(orders, m.body.id);
      outcome := Commit(m, copy, commits);
    }
  }
}
