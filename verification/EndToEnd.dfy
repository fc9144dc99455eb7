/** The gateway and the merchant together: what a paid order proves about the gateway's ledger. */
module EndToEnd {
  import opened Wrappers
  import opened StateMachine
  import opened Tables
  import opened Money
  import Runs
  import M = Merchant

  // ---------------------------------------------------------------- captures stand behind their events

  /** The k-th ledger transaction is the capture of exactly `amount` for intent `i`. */
  ghost predicate CaptureOf(s: Tables, k: nat, i: Id, amount: int, currency: Currency)
    requires k < |s.txns|
  {
    var t := s.txns[k];
    && t.kind == CaptureTxn && t.ref == i && |t.entries| == 2
    && IsSide(s.accounts, t.entries[0], {AcquirerReceivable}, currency) && t.entries[0].debit == amount
    && IsSide(s.accounts, t.entries[1], {MerchantPayable, EscrowLiability}, currency) && t.entries[1].credit == amount
  }

  ghost predicate IsSide(accounts: map<Id, Account>, e: Entry, kinds: set<AccountKind>, currency: Currency) {
    && e.account in accounts
    && accounts[e.account].key.kind in kinds
    && accounts[e.account].key.currency == currency == e.currency
  }

  ghost predicate Backed(s: Tables, i: Id, amount: int, currency: Currency) {
    exists k :: 0 <= k < |s.txns| && CaptureOf(s, k, i, amount, currency)
  }

  ghost predicate EventsBacked(s: Tables) {
    forall k :: 0 <= k < |s.outbox| ==> EventBacked(s, k)
  }

  ghost predicate EventBacked(s: Tables, k: nat)
    requires k < |s.outbox|
  {
    var p := s.outbox[k].payload;
    p.status == Captured ==> Backed(s, p.id, p.amount, p.currency)
  }

  /** The ledger only grows, so a capture once posted stays. */
  lemma BackingStays(s: Tables, op: Op, s': Tables, i: Id, amount: int, currency: Currency)
    requires Step(s, op, s') && Backed(s, i, amount, currency)
    ensures Backed(s', i, amount, currency)
  {
    var k :| 0 <= k < |s.txns| && CaptureOf(s, k, i, amount, currency);
    assert k < |s'.txns| && s'.txns[k] == s.txns[k];
    assert CaptureOf(s', k, i, amount, currency);
  }

  /** Only a capture announces the status captured, and only with its posting beside it. */
  lemma CapturesAreBacked(s: Tables, req: Request, now: Time, s': Tables)
    requires Step(s, Run(req, now), s') && Serve(s, req).next == Captured
    ensures Backed(s', req.id, s.intents[req.id].amount, s.intents[req.id].currency)
  {
    assert req.call.Capture?;
    assert CaptureOf(s', |s.txns|, req.id, s.intents[req.id].amount, s.intents[req.id].currency);
  }

  lemma StepKeepsBacking(s: Tables, op: Op, s': Tables)
    requires EventsBacked(s) && Step(s, op, s')
    ensures EventsBacked(s')
  {
    forall k | 0 <= k < |s'.outbox|
      ensures EventBacked(s', k)
    {
      var p := s'.outbox[k].payload;
      if k < |s.outbox| {
        assert EventBacked(s, k) && s'.outbox[k] == s.outbox[k];
        if p.status == Captured {
          BackingStays(s, op, s', p.id, p.amount, p.currency);
        }
      } else if p.status == Captured {
        CapturesAreBacked(s, op.req, op.at, s');
      }
    }
  }

  /** The k-th event is of an intent that has come at least as far since, and had not before. */
  ghost predicate EventClimbs(s: Tables, k: nat)
    requires k < |s.outbox|
  {
    var p := s.outbox[k].payload;
    && p.id < |s.intents| && Rank(p.status) <= Rank(s.intents[p.id].status)
    && forall j :: 0 <= j < k && s.outbox[j].payload.id == p.id ==> Rank(s.outbox[j].payload.status) < Rank(p.status)
  }

  ghost predicate EventsClimb(s: Tables) {
    forall k :: 0 <= k < |s.outbox| ==> EventClimbs(s, k)
  }

  lemma StepKeepsClimb(s: Tables, op: Op, s': Tables)
    requires EventsClimb(s) && Step(s, op, s')
    ensures EventsClimb(s')
  {
    if op.Run? {
      WritesClimb(op.req.id, s.intents[op.req.id], op.req.call);
    }
    forall k | 0 <= k < |s'.outbox|
      ensures EventClimbs(s', k)
    {
      assert forall j :: 0 <= j < |s.outbox| ==> EventClimbs(s, j) && s'.outbox[j] == s.outbox[j];
    }
  }

  // ---------------------------------------------------------------- both services

  /** The gateway's committed tables, the shop, and its handlers at work. */
  datatype World = World(gateway: Tables, shop: M.Shop, flights: map<Id, M.Flight>)

  const START := World(EMPTY, M.Shop([], map[]), map[])

  /** What the signed webhook of an event says; the event id and type travel in headers. */
  function Rendered(e: Event): M.Message {
    var p := e.payload;
    M.Message(e.eventId, e.eventType,
              M.Body("payment_intent", Some(p.id), StatusText(p.status), Some(p.amount), Some(p.currency)))
  }

  /** Everything either side does. Deliveries may repeat, reorder, overlap and be lost; an order may be
      given any intent id, once, and be cancelled or fulfilled at any moment. */
  datatype Action =
    | Gateway(op: Op)
    | Order(amount: int, currency: string)
    | Attach(row: nat, intent: Id)
    | Change(row: nat, status: M.OrderStatus)
    | Arrive(handler: Id, event: nat)
    | Finish(handler: Id)
    | Drop(handler: Id)

  ghost predicate Next(w: World, action: Action, w': World) {
    match action
    case Gateway(op) => Step(w.gateway, op, w'.gateway) && w' == w.(gateway := w'.gateway)
    case Order(amount, currency) =>
      w' == w.(shop := w.shop.(orders := w.shop.orders + [M.Order(M.PendingPayment, amount, currency, None)]))
    case Attach(row, intent) =>
      && row < |w.shop.orders| && w.shop.orders[row].intentId.None?
      && w.shop.orders[row].status == M.PendingPayment
      && w' == w.(shop := w.shop.(orders := w.shop.orders[row := w.shop.orders[row].(intentId := Some(intent))]))
    case Change(row, status) =>
      && row < |w.shop.orders| && status != M.Paid
      && w' == w.(shop := w.shop.(orders := w.shop.orders[row := w.shop.orders[row].(status := status)]))
    case Arrive(h, k) =>
      && k < |w.gateway.outbox| && h !in w.flights
      && var m := Rendered(w.gateway.outbox[k]);
      && w' == w.(flights := w.flights[h := M.Flight(m, M.Read(w.shop.orders, m.body.id))])
    case Finish(h) =>
      && h in w.flights
      && var f := w.flights[h];
      && (f.copy.Some? ==> f.copy.value.row < |w.shop.orders|)
      && w' == World(w.gateway, M.Transact(w.shop, f.m, f.copy).0, w.flights - {h})
    case Drop(h) =>
      h in w.flights && w' == w.(flights := w.flights - {h})
  }

  ghost function Nexts(): Runs.Relation<World, Action> {
    (w, a, w') => Next(w, a, w')
  }

  // ---------------------------------------------------------------- what every run keeps

  /** The k-th event is the capture that paid the i-th order: it is of the order's intent, amount and
      currency, and the shop has recorded it against this very order. */
  ghost predicate PaidBy(w: World, i: nat, k: nat)
    requires i < |w.shop.orders| && k < |w.gateway.outbox|
  {
    var o, e := w.shop.orders[i], w.gateway.outbox[k];
    && e.payload.status == Captured
    && o.intentId == Some(e.payload.id) && o.amount == e.payload.amount && o.currency == e.payload.currency
    && e.eventId in w.shop.processed && w.shop.processed[e.eventId].order == Some(i)
  }

  ghost predicate OrderOk(w: World, i: nat)
    requires i < |w.shop.orders|
  {
    w.shop.orders[i].status == M.Paid ==> exists k :: 0 <= k < |w.gateway.outbox| && PaidBy(w, i, k)
  }

  predicate SameDeal(a: M.Order, b: M.Order) {
    a.amount == b.amount && a.currency == b.currency && a.intentId == b.intentId
  }

  /** A handler holds a webhook the gateway emitted, and a copy that agrees with the order in all but its
      status. */
  ghost predicate FlightOk(w: World, f: M.Flight) {
    && (exists k :: 0 <= k < |w.gateway.outbox| && f.m == Rendered(w.gateway.outbox[k]))
    && (f.copy.Some? ==>
          && f.copy.value.row < |w.shop.orders|
          && f.copy.value.order.intentId == f.m.body.id
          && SameDeal(f.copy.value.order, w.shop.orders[f.copy.value.row]))
  }

  ghost predicate Inv(w: World) {
    && EventsBacked(w.gateway) && EventsClimb(w.gateway)
    && (forall i :: 0 <= i < |w.shop.orders| ==> OrderOk(w, i))
    && (forall h :: h in w.flights ==> FlightOk(w, w.flights[h]))
  }

  /** What the invariant says of orders and handlers survives whatever only adds events and records and
      keeps the deals that orders with an intent are about. */
  ghost predicate Kept(w: World, w': World) {
    && w.gateway.outbox <= w'.gateway.outbox
    && |w.shop.orders| <= |w'.shop.orders|
    && (forall i :: 0 <= i < |w.shop.orders| && w.shop.orders[i].intentId.Some? ==> SameDeal(w.shop.orders[i], w'.shop.orders[i]))
    && (forall id :: id in w.shop.processed ==> id in w'.shop.processed && w'.shop.processed[id] == w.shop.processed[id])
  }

  lemma FlightsKeep(w: World, w': World, f: M.Flight)
    requires FlightOk(w, f) && Kept(w, w')
    ensures FlightOk(w', f)
  {
    var k :| 0 <= k < |w.gateway.outbox| && f.m == Rendered(w.gateway.outbox[k]);
    assert w'.gateway.outbox[k] == w.gateway.outbox[k];
    assert f.copy.Some? ==> w.shop.orders[f.copy.value.row].intentId.Some?;
  }

  lemma OrdersKeep(w: World, w': World, i: nat)
    requires i < |w.shop.orders| && OrderOk(w, i) && Kept(w, w')
    requires w'.shop.orders[i].status == M.Paid ==> w.shop.orders[i].status == M.Paid
    ensures OrderOk(w', i)
  {
    if w'.shop.orders[i].status == M.Paid {
      var k :| 0 <= k < |w.gateway.outbox| && PaidBy(w, i, k);
      assert w'.gateway.outbox[k] == w.gateway.outbox[k];
      assert PaidBy(w', i, k);
    }
  }

  lemma FinishPays(w: World, f: M.Flight, w': World)
    requires FlightOk(w, f) && f.m.eventId !in w.shop.processed && M.Writes(f.m.body, f.copy)
    requires w' == World(w.gateway, M.Transact(w.shop, f.m, f.copy).0, w'.flights)
    ensures OrderOk(w', f.copy.value.row)
  {
    var k :| 0 <= k < |w.gateway.outbox| && f.m == Rendered(w.gateway.outbox[k]);
    TextsAreDistinct(w.gateway.outbox[k].payload.status, Captured);
    assert PaidBy(w', f.copy.value.row, k);
  }

  lemma FinishKeepsInv(w: World, h: Id, w': World)
    requires Inv(w) && Next(w, Finish(h), w')
    ensures Kept(w, w') && forall i :: 0 <= i < |w'.shop.orders| ==> OrderOk(w', i)
  {
    var f := w.flights[h];
    assert FlightOk(w, f);
    forall i | 0 <= i < |w'.shop.orders|
      ensures OrderOk(w', i)
    {
      if f.m.eventId !in w.shop.processed && M.Writes(f.m.body, f.copy) && f.copy.value.row == i {
        FinishPays(w, f, w');
      } else {
        OrdersKeep(w, w', i);
      }
    }
  }

  lemma OutsideKeepsOrders(w: World, action: Action, w': World)
    requires Inv(w) && Next(w, action, w') && !action.Finish?
    ensures Kept(w, w') && forall i :: 0 <= i < |w'.shop.orders| ==> OrderOk(w', i)
  {
    assert Kept(w, w');
    forall i | 0 <= i < |w'.shop.orders|
      ensures OrderOk(w', i)
    {
      if i < |w.shop.orders| {
        OrdersKeep(w, w', i);
      }
    }
  }

  lemma NextKeepsInv(w: World, action: Action, w': World)
    requires Inv(w) && Next(w, action, w')
    ensures Inv(w')
  {
    if action.Gateway? {
      StepKeepsBacking(w.gateway, action.op, w'.gateway);
      StepKeepsClimb(w.gateway, action.op, w'.gateway);
    }
    if action.Finish? {
      FinishKeepsInv(w, action.handler, w');
    } else {
      OutsideKeepsOrders(w, action, w');
    }
    forall h | h in w'.flights
      ensures FlightOk(w', w'.flights[h])
    {
      if h in w.flights {
        FlightsKeep(w, w', w.flights[h]);
      }
    }
  }

  lemma RunsKeepInv(trace: seq<World>, actions: seq<Action>, n: nat)
    requires Runs.IsRun(START, Nexts(), trace, actions) && n < |trace|
    ensures Inv(trace[n])
  {
    forall w, a, w' | Inv(w) && Next(w, a, w')
      ensures Inv(w')
    {
      NextKeepsInv(w, a, w');
    }
    Runs.Induction(w => Inv(w), START, Nexts(), trace, actions, n);
  }

  /** An order is paid only if the gateway's ledger holds a capture of its intent for exactly the order's
      amount and currency: after any run of both services, with any deliveries. */
  lemma PaidMeansCaptured(trace: seq<World>, actions: seq<Action>, n: nat, i: nat)
    requires Runs.IsRun(START, Nexts(), trace, actions) && n < |trace|
    requires i < |trace[n].shop.orders| && trace[n].shop.orders[i].status == M.Paid
    ensures var o := trace[n].shop.orders[i]; o.intentId.Some? && Backed(trace[n].gateway, o.intentId.value, o.amount, o.currency)
  {
    RunsKeepInv(trace, actions, n);
    var w := trace[n];
    assert OrderOk(w, i);
    var k :| 0 <= k < |w.gateway.outbox| && PaidBy(w, i, k);
    assert EventBacked(w.gateway, k);
  }

  /** And one capture never pays two orders, even where two orders carry the same intent id. */
  lemma OneCapturePaysOneOrder(trace: seq<World>, actions: seq<Action>, n: nat, i: nat, j: nat)
    requires Runs.IsRun(START, Nexts(), trace, actions) && n < |trace|
    requires i < |trace[n].shop.orders| && trace[n].shop.orders[i].status == M.Paid
    requires j < |trace[n].shop.orders| && trace[n].shop.orders[j].status == M.Paid
    requires trace[n].shop.orders[i].intentId == trace[n].shop.orders[j].intentId
    ensures i == j
  {
    RunsKeepInv(trace, actions, n);
    var w := trace[n];
    assert OrderOk(w, i) && OrderOk(w, j);
    var k :| 0 <= k < |w.gateway.outbox| && PaidBy(w, i, k);
    var l :| 0 <= l < |w.gateway.outbox| && PaidBy(w, j, l);
    assert EventClimbs(w.gateway, k) && EventClimbs(w.gateway, l);
  }

  // ---------------------------------------------------------------- which order a capture pays

  /** The k-th event announces the capture of intent `x`. */
  ghost predicate Announces(w: World, k: nat, x: Id) {
    k < |w.gateway.outbox| && w.gateway.outbox[k].payload.status == Captured && w.gateway.outbox[k].payload.id == x
  }

  ghost predicate Recorded(w: World, k: nat) {
    k < |w.gateway.outbox| && w.gateway.outbox[k].eventId in w.shop.processed
  }

  ghost predicate PaidFor(w: World, i: nat, x: Id) {
    i < |w.shop.orders| && w.shop.orders[i].status == M.Paid && w.shop.orders[i].intentId == Some(x)
  }

  /** An intent is announced captured once only. */
  lemma OneAnnouncement(w: World, k: nat, l: nat, x: Id)
    requires EventsClimb(w.gateway) && Announces(w, k, x) && Announces(w, l, x)
    ensures k == l
  {
    assert EventClimbs(w.gateway, k) && EventClimbs(w.gateway, l);
  }

  /** A paid order is the one its intent's captured event is recorded against. */
  lemma PaidIsRecorded(w: World, k: nat, x: Id, i: nat)
    requires Inv(w) && Announces(w, k, x) && PaidFor(w, i, x)
    ensures Recorded(w, k) && w.shop.processed[w.gateway.outbox[k].eventId].order == Some(i)
  {
    assert OrderOk(w, i);
    var l :| 0 <= l < |w.gateway.outbox| && PaidBy(w, i, l);
    OneAnnouncement(w, k, l, x);
  }

  /** Once the captured event is recorded, no further order of its intent becomes paid. */
  ghost predicate Missed(w: World, k: nat, e: Event, i: nat) {
    && Inv(w)
    && Recorded(w, k) && w.gateway.outbox[k] == e && e.payload.status == Captured
    && !PaidFor(w, i, e.payload.id)
  }

  lemma FinishKeepsMissed(w: World, k: nat, e: Event, i: nat, h: Id, w': World)
    requires Missed(w, k, e, i) && Next(w, Finish(h), w')
    ensures !PaidFor(w', i, e.payload.id)
  {
    var f := w.flights[h];
    assert FlightOk(w, f);
    var l :| 0 <= l < |w.gateway.outbox| && f.m == Rendered(w.gateway.outbox[l]);
    if PaidFor(w', i, e.payload.id) {
      assert M.Writes(f.m.body, f.copy) && f.copy.value.row == i;
      TextsAreDistinct(w.gateway.outbox[l].payload.status, Captured);
      OneAnnouncement(w, k, l, e.payload.id);
      assert false;
    }
  }

  lemma NextKeepsMissed(w: World, k: nat, e: Event, i: nat, action: Action, w': World)
    requires Missed(w, k, e, i) && Next(w, action, w')
    ensures Missed(w', k, e, i)
  {
    NextKeepsInv(w, action, w');
    if action.Finish? {
      FinishKeepsMissed(w, k, e, i, action.handler, w');
    }
  }

  /** An order that is not paid when its intent's captured event is recorded is never paid, by this event
      or any other: however often it is delivered, and whenever the order is given the intent's id. */
  lemma UnpaidAtRecordStaysUnpaid(trace: seq<World>, actions: seq<Action>, m: nat, n: nat, k: nat, x: Id, i: nat)
    requires Runs.IsRun(START, Nexts(), trace, actions) && m <= n < |trace|
    requires Announces(trace[m], k, x) && Recorded(trace[m], k) && !PaidFor(trace[m], i, x)
    ensures !PaidFor(trace[n], i, x)
  {
    RunsKeepInv(trace, actions, m);
    var e := trace[m].gateway.outbox[k];
    forall w, a, w' | Missed(w, k, e, i) && Next(w, a, w')
      ensures Missed(w', k, e, i)
    {
      NextKeepsMissed(w, k, e, i, a, w');
    }
    Runs.Onwards(w => Missed(w, k, e, i), START, Nexts(), trace, actions, m, n);
  }

  /** Whatever order the event is recorded against, no other of its intent is ever paid; none at all, if
      the handler found no order. */
  lemma LateIntentIdIsLost(trace: seq<World>, actions: seq<Action>, m: nat, n: nat, k: nat, x: Id, i: nat)
    requires Runs.IsRun(START, Nexts(), trace, actions) && m <= n < |trace|
    requires Announces(trace[m], k, x) && Recorded(trace[m], k)
    requires trace[m].shop.processed[trace[m].gateway.outbox[k].eventId].order != Some(i)
    ensures !PaidFor(trace[n], i, x)
  {
    RunsKeepInv(trace, actions, m);
    if PaidFor(trace[m], i, x) {
      PaidIsRecorded(trace[m], k, x, i);
    }
    UnpaidAtRecordStaysUnpaid(trace, actions, m, n, k, x, i);
  }

  lemma FlightKept(w: World, action: Action, w': World, h: Id)
    requires Next(w, action, w') && h in w.flights && action != Finish(h) && action != Drop(h)
    ensures h in w'.flights && w'.flights[h] == w.flights[h]
  {
  }

  lemma OutboxGrows(w: World, action: Action, w': World)
    requires Next(w, action, w')
    ensures w.gateway.outbox <= w'.gateway.outbox
  {
  }

  /** From its arrival on, a handler holds what it read then. */
  lemma {:induction false} FlightStays(trace: seq<World>, actions: seq<Action>, a: nat, n: nat, h: Id, k: nat)
    requires Runs.IsRun(START, Nexts(), trace, actions) && a < n < |trace| && actions[a] == Arrive(h, k)
    requires forall j :: a < j < n ==> actions[j] != Finish(h) && actions[j] != Drop(h)
    ensures k < |trace[a].gateway.outbox| && trace[a].gateway.outbox <= trace[n].gateway.outbox
    ensures var m := Rendered(trace[a].gateway.outbox[k]);
      h in trace[n].flights && trace[n].flights[h] == M.Flight(m, M.Read(trace[a].shop.orders, m.body.id))
    decreases n
  {
    if n == a + 1 {
      assert Runs.Linked(Nexts(), trace, actions, a);
    } else {
      FlightStays(trace, actions, a, n - 1, h, k);
      assert Runs.Linked(Nexts(), trace, actions, n - 1);
      OutboxGrows(trace[n - 1], actions[n - 1], trace[n]);
      FlightKept(trace[n - 1], actions[n - 1], trace[n], h);
    }
  }

  /** The order that a read finds for a capture event, pending and of the event's amount and currency. */
  predicate FoundPayable(shop: M.Shop, p: Payload, i: nat) {
    && M.FindBy(shop.orders, Some(p.id)) == Some(i)
    && shop.orders[i].status == M.PendingPayment && shop.orders[i].amount == p.amount && shop.orders[i].currency == p.currency
  }

  /** The first handler to commit a captured event pays an order of its intent if and only if, when that
      handler arrived, this was the order found, pending and of equal amount and currency. */
  lemma FirstCommitPaysIff(trace: seq<World>, actions: seq<Action>, a: nat, n: nat, h: Id, k: nat, i: nat)
    requires Runs.IsRun(START, Nexts(), trace, actions) && a < n < |actions|
    requires actions[a] == Arrive(h, k) && actions[n] == Finish(h)
    requires forall j :: a < j < n ==> actions[j] != Finish(h) && actions[j] != Drop(h)
    requires k < |trace[n].gateway.outbox| && trace[n].gateway.outbox[k].payload.status == Captured && !Recorded(trace[n], k)
    ensures Recorded(trace[n + 1], k)
    ensures PaidFor(trace[n + 1], i, trace[n].gateway.outbox[k].payload.id) <==>
            FoundPayable(trace[a].shop, trace[n].gateway.outbox[k].payload, i)
  {
    RunsKeepInv(trace, actions, n);
    FlightStays(trace, actions, a, n, h, k);
    assert Runs.Linked(Nexts(), trace, actions, n);
    var w, p := trace[n], trace[n].gateway.outbox[k].payload;
    if PaidFor(w, i, p.id) {
      PaidIsRecorded(w, k, p.id, i);
      assert false;
    }
    FinishWritesIff(w, trace[n + 1], h, trace[a].shop, k, i);
  }

  lemma FinishWritesIff(w: World, w': World, h: Id, was: M.Shop, k: nat, i: nat)
    requires Next(w, Finish(h), w') && FlightOk(w, w.flights[h])
    requires k < |w.gateway.outbox| && w.gateway.outbox[k].payload.status == Captured && !Recorded(w, k)
    requires var m := Rendered(w.gateway.outbox[k]); w.flights[h] == M.Flight(m, M.Read(was.orders, m.body.id))
    requires !PaidFor(w, i, w.gateway.outbox[k].payload.id)
    ensures Recorded(w', k)
    ensures PaidFor(w', i, w.gateway.outbox[k].payload.id) <==> FoundPayable(was, w.gateway.outbox[k].payload, i)
  {
    var f, p := w.flights[h], w.gateway.outbox[k].payload;
    assert M.Writes(f.m.body, f.copy) && f.copy.value.row == i <==> FoundPayable(was, p, i);
  }
}
