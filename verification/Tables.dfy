/** The rows the money core keeps (db/migrations/0001, 0004, 0005, 0006), as values. */
module Tables {
  import opened Wrappers
  import opened StateMachine

  const TWO63 := 0x8000_0000_0000_0000
  const TWO64 := 0x1_0000_0000_0000_0000
  const MIN64 := -TWO63
  const MAX64 := TWO63 - 1

  /** Go's int64 and Postgres' bigint. */
  type int64 = x: int | -0x8000_0000_0000_0000 <= x <= 0x7FFF_FFFF_FFFF_FFFF

  /** The int64 that two's-complement arithmetic keeps of an integer. */
  function Wrap64(x: int): (r: int64)
    ensures MIN64 <= x <= MAX64 ==> r == x
  {
    (x + TWO63) % TWO64 - TWO63
  }

  /** Identifiers are uuids: only their equality matters. */
  type Id = nat
  type Time = int
  type Currency = string

  datatype Intent = Intent(
    merchant: Id,
    amount: int64,
    currency: Currency,
    status: Status,
    mode: Mode,
    payee: Option<Id>,
    fee: Option<int64>,
    updatedAt: Time)

  datatype AccountType = Asset | Liability | Revenue

  datatype AccountKind =
    | PlatformCash
    | AcquirerReceivable
    | MerchantPayable
    | SegregatedCash
    | EscrowLiability
    | PayableToPayee
    | PlatformRevenue

  /** The columns of the two partial unique indexes; `ref` is NULL for a singleton account. */
  datatype AccountKey = AccountKey(merchant: Id, kind: AccountKind, currency: Currency, ref: Option<Id>)

  datatype Account = Account(key: AccountKey, typ: AccountType)

  datatype Entry = Entry(account: Id, debit: int64, credit: int64, currency: Currency)

  datatype TxnKind = CaptureTxn | SettleTxn | RefundTxn | ReleaseTxn

  /** A ledger transaction with its entries; `ref` is the intent it is about. */
  datatype Txn = Txn(merchant: Id, kind: TxnKind, ref: Id, entries: seq<Entry>)

  /** The signed webhook body; its object field is always "payment_intent". */
  datatype Payload = Payload(id: Id, status: Status, amount: int64, currency: Currency, mode: Mode)

  datatype Event = Event(eventId: Id, merchant: Id, eventType: string, payload: Payload)

  /** Committed tables. An intent's id is its row number; accounts are keyed by id. */
  datatype Tables = Tables(
    intents: seq<Intent>,
    accounts: map<Id, Account>,
    txns: seq<Txn>,
    outbox: seq<Event>)

  const EMPTY := Tables([], map[], [], [])

  ghost predicate UniqueKeys(accounts: map<Id, Account>) {
    forall a, b :: a in accounts && b in accounts && accounts[a].key == accounts[b].key ==> a == b
  }

  ghost predicate HasKey(accounts: map<Id, Account>, key: AccountKey) {
    exists a :: a in accounts && accounts[a].key == key
  }

  ghost predicate FreshEvent(outbox: seq<Event>, eventId: Id) {
    forall k :: 0 <= k < |outbox| ==> outbox[k].eventId != eventId
  }

  /** The accounting class each kind is opened with. */
  function TypeOf(kind: AccountKind): AccountType {
    match kind
    case PlatformCash => Asset
    case AcquirerReceivable => Asset
    case SegregatedCash => Asset
    case MerchantPayable => Liability
    case EscrowLiability => Liability
    case PayableToPayee => Liability
    case PlatformRevenue => Revenue
  }

  /** The kinds of asset are what is owed to the platform and what it holds; what it owes are liabilities;
      the rest is what it has earned. */
  lemma KindsAreClassed(kind: AccountKind)
    ensures TypeOf(kind) == Asset <==> kind in {AcquirerReceivable, PlatformCash, SegregatedCash}
    ensures TypeOf(kind) == Liability <==> kind in {MerchantPayable, EscrowLiability, PayableToPayee}
    ensures TypeOf(kind) == Revenue <==> kind == PlatformRevenue
  {
  }

  /** `after` is `before` plus at most new, correctly typed rows for `keys`. */
  ghost predicate Grown(before: map<Id, Account>, after: map<Id, Account>, keys: set<AccountKey>) {
    && (forall a :: a in before ==> a in after && after[a] == before[a])
    && (forall a :: a in after && a !in before ==> after[a].key in keys && after[a].typ == TypeOf(after[a].key.kind))
    && (UniqueKeys(before) ==> UniqueKeys(after))
  }
}
