/** The job queue: claiming, marking, and taking back jobs whose lease ran out. */
module Queue {
  import opened Prelude
  import opened Model

  const STALE_AFTER: Time := 120_000

  datatype Job = Job(deliveryId: DeliveryId, orderId: OrderId, requestId: string, sku: string, attempts: nat)

  datatype MarkResult = Marked | AlreadyDone | NoSuchRow | NotProcessing | OrderNotDelivering

  predicate Due(a: Attempt, now: Time) {
    a.nextAt.None? || a.nextAt.value <= now
  }

  predicate Claimable(db: Db, now: Time, o: OrderId) {
    && o in db.attempts && db.attempts[o].status.IsQueued() && Due(db.attempts[o], now)
    && o in db.orders && db.orders[o].status.IsClaimable()
  }

  /** `ORDER BY next_attempt_at NULLS FIRST, created_at`, strictly. */
  predicate Before(a: Attempt, b: Attempt) {
    match (a.nextAt, b.nextAt)
    case (None, Some(_)) => true
    case (Some(_), None) => false
    case (None, None) => a.createdAt < b.createdAt
    case (Some(x), Some(y)) => x < y || (x == y && a.createdAt < b.createdAt)
  }

  /** `o` may come first in the query; rows equal in both columns come in any order. */
  predicate IsNext(db: Db, now: Time, o: OrderId) {
    && Claimable(db, now, o)
    && forall x :: x in db.attempts && Claimable(db, now, x) ==> !Before(db.attempts[x], db.attempts[o])
  }

  function JobOf(db: Db, o: OrderId): Job
    requires o in db.attempts && o in db.orders
  {
    var a := db.attempts[o];
    Job(a.id, o, a.requestId, db.orders[o].sku, a.attempts + 1)
  }

  function Claim(db: Db, now: Time, o: OrderId): Db
    requires Claimable(db, now, o)
  {
    var a := db.attempts[o];
    db.(
      attempts := db.attempts[o := a.(status := JobProcessing, attempts := a.attempts + 1, lockedAt := Some(now))],
      orders := db.orders[o := db.orders[o].(status := OrderDelivering)])
  }

  /** `WHERE id = $1` finds a row. */
  predicate HasRow(db: Db, job: Job) {
    job.orderId in db.attempts && db.attempts[job.orderId].id == job.deliveryId
  }

  function MarkDelivered(db: Db, now: Time, job: Job, p: Provider, code: string): (Db, MarkResult) {
    var o := job.orderId;
    if !HasRow(db, job) then (db, NoSuchRow)
    else if db.attempts[o].status.JobDelivered? then (db, AlreadyDone)
    else if !db.attempts[o].status.JobProcessing? then (db, NotProcessing)
    else if o !in db.orders || !db.orders[o].status.OrderDelivering? then (db, OrderNotDelivering)
    else
      var ord := db.orders[o];
      var done := db.(
        attempts := db.attempts[o := db.attempts[o].(
          provider := Some(p), status := JobDelivered, code := Some(code), nextAt := None, lockedAt := None)],
        orders := db.orders[o := ord.(
          status := OrderDelivered,
          deliveredAt := if ord.deliveredAt.Some? then ord.deliveredAt else Some(now))],
        ledger := InsertEntry(db.ledger, LedgerEntry(o, EntryDelivery, 0, ord.currency)));
      (done, Marked)
  }

  function MarkFailure(db: Db, now: Time, job: Job, outOfStock: bool, delay: Time): (Db, MarkResult) {
    var o := job.orderId;
    if !HasRow(db, job) || !db.attempts[o].status.JobProcessing? then (db, NotProcessing)
    else
      var done := db.(
        attempts := db.attempts[o := db.attempts[o].(
          status := if outOfStock then JobOutOfStock else JobFailed,
          nextAt := Some(now + delay), lockedAt := None)],
        orders := if o in db.orders && db.orders[o].status.OrderDelivering?
                  then db.orders[o := db.orders[o].(
                    status := if outOfStock then OrderOutOfStock else OrderDeliveryFailed)]
                  else db.orders);
      (done, Marked)
  }

  /** `WHERE status = 'processing' AND locked_at < $1`. */
  predicate Stale(a: Attempt, now: Time) {
    a.status.JobProcessing? && a.lockedAt.Some? && a.lockedAt.value + STALE_AFTER < now
  }

  function Release(a: Attempt, now: Time): Attempt {
    if Stale(a, now) then a.(status := JobFailed, nextAt := Some(now), lockedAt := None) else a
  }

  predicate Recovered(db: Db, now: Time, o: OrderId) {
    o in db.orders && db.orders[o].status.OrderDelivering? && o in db.attempts && Stale(db.attempts[o], now)
  }

  function Recover(db: Db, now: Time): Db {
    db.(
      attempts := map o | o in db.attempts :: Release(db.attempts[o], now),
      orders := map o | o in db.orders ::
        if Recovered(db, now, o) then db.orders[o].(status := OrderDeliveryFailed) else db.orders[o])
  }
}
