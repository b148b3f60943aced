/** The tables of the store: one datatype per row, one value for the whole database. */
module Model {
  import opened Prelude

  type OrderId = string  // canonical UUID text
  type Time = nat        // milliseconds

  datatype OrderStatus =
    | OrderCreated | OrderPaid | OrderDelivering | OrderDelivered
    | OrderPaymentFailed | OrderOutOfStock | OrderDeliveryFailed
  {
    predicate IsFinal() {
      OrderDelivered? || OrderPaymentFailed?
    }

    predicate IsRecoverable() {
      OrderOutOfStock? || OrderDeliveryFailed?
    }

    /** The statuses from which a job may be claimed. */
    predicate IsClaimable() {
      OrderPaid? || IsRecoverable()
    }
  }

  datatype JobStatus = JobPending | JobProcessing | JobDelivered | JobOutOfStock | JobFailed {
    predicate IsQueued() {
      JobPending? || JobFailed? || JobOutOfStock?
    }

    predicate IsRecoverable() {
      JobFailed? || JobOutOfStock?
    }
  }

  datatype PaymentStatus = EventPaid | EventFailed
  datatype EntryKind = EntryPayment | EntryDelivery
  datatype Provider = ProviderA | ProviderB

  /** Stands for a random UUID: no order gets two attempt rows at one instant. */
  datatype DeliveryId = DeliveryId(orderId: OrderId, at: Time)

  datatype Product = Product(price: nat, currency: string, active: bool)

  datatype Order = Order(
    sku: string, amount: nat, currency: string, status: OrderStatus,
    paidAt: Option<Time>, deliveredAt: Option<Time>, createdAt: Time)

  datatype Event = Event(
    eventId: string, orderId: OrderId, status: PaymentStatus, amount: nat, currency: string)

  datatype EventRow = EventRow(event: Event, receivedAt: Time, processedAt: Option<Time>)

  datatype Attempt = Attempt(
    id: DeliveryId, requestId: string, provider: Option<Provider>, status: JobStatus,
    code: Option<string>, attempts: nat,
    nextAt: Option<Time>, lockedAt: Option<Time>, createdAt: Time)

  datatype LedgerEntry = LedgerEntry(orderId: OrderId, kind: EntryKind, amount: nat, currency: string)

  datatype Key = Key(
    provider: Provider, sku: string, code: string,
    issued: bool, requestId: Option<string>, orderId: Option<OrderId>)

  datatype Issue = Issue(sku: string, orderId: OrderId, code: string, createdAt: Time)

  /**
   * `attempts` is keyed by its UNIQUE column order_id, `issues` by its primary key;
   * `events`, `ledger` and `keys` list their rows in order of insertion.
   */
  datatype Db = Db(
    products: map<string, Product>,
    orders: map<OrderId, Order>,
    events: seq<EventRow>,
    attempts: map<OrderId, Attempt>,
    ledger: seq<LedgerEntry>,
    keys: seq<Key>,
    issues: map<(Provider, string), Issue>)

  const EMPTY_DB := Db(map[], map[], [], map[], [], [], map[])

  function RequestIdFor(o: OrderId): string {
    "req-" + o + "-1"
  }

  /** Two orders never share a request id, so a request id names its order. */
  lemma RequestIdInjective(o: OrderId, x: OrderId)
    requires RequestIdFor(o) == RequestIdFor(x)
    ensures o == x
  {
    assert RequestIdFor(o)[4..|o| + 4] == o;
    assert RequestIdFor(x)[4..|x| + 4] == x;
  }

  function NewAttempt(o: OrderId, now: Time): Attempt {
    Attempt(DeliveryId(o, now), RequestIdFor(o), None, JobPending, None, 0, Some(now), None, now)
  }

  /** How many entries of one kind an order has in the ledger. */
  function Count(ledger: seq<LedgerEntry>, o: OrderId, kind: EntryKind): nat {
    if ledger == [] then 0
    else
      var e := ledger[|ledger| - 1];
      Count(ledger[..|ledger| - 1], o, kind) + if e.orderId == o && e.kind == kind then 1 else 0
  }

  /** `INSERT ... ON CONFLICT DO NOTHING` under the unique index on (order_id, entry_type). */
  function InsertEntry(ledger: seq<LedgerEntry>, e: LedgerEntry): seq<LedgerEntry> {
    if Count(ledger, e.orderId, e.kind) > 0 then ledger else ledger + [e]
  }

  lemma CountInsert(ledger: seq<LedgerEntry>, e: LedgerEntry, o: OrderId, kind: EntryKind)
    ensures Count(InsertEntry(ledger, e), o, kind) ==
            if e.orderId == o && e.kind == kind && Count(ledger, o, kind) == 0 then 1
            else Count(ledger, o, kind)
  {
    assert (ledger + [e])[..|ledger|] == ledger;
  }
}
