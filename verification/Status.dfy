/** Orders, jobs and ledger agree in every state: what each transaction keeps, one by one. */
module Status {
  import opened Prelude
  import opened Model
  import opened Queue
  import Payments
  import Reconcile

  /** The one status the job of an order has, if the order has a job at all. */
  function JobFor(s: OrderStatus): Option<JobStatus> {
    match s
    case OrderCreated => None
    case OrderPaymentFailed => None
    case OrderPaid => Some(JobPending)
    case OrderDelivering => Some(JobProcessing)
    case OrderDelivered => Some(JobDelivered)
    case OrderDeliveryFailed => Some(JobFailed)
    case OrderOutOfStock => Some(JobOutOfStock)
  }

  ghost predicate JobOk(o: OrderId, a: Attempt) {
    && a.id.orderId == o
    && a.requestId == RequestIdFor(o)
    && (a.lockedAt.Some? <==> a.status.JobProcessing?)
    && (a.code.Some? <==> a.status.JobDelivered?)
    && (a.provider.Some? <==> a.status.JobDelivered?)
    && (a.nextAt.None? <==> a.status.JobDelivered?)
  }

  /** An order with its job and the number of its payment and delivery entries. */
  ghost predicate RowOk(o: OrderId, ord: Order, job: Option<Attempt>, payments: nat, deliveries: nat) {
    && (job.None? <==> JobFor(ord.status).None?)
    && (job.Some? ==> JobFor(ord.status) == Some(job.value.status) && JobOk(o, job.value))
    && (ord.paidAt.Some? <==> job.Some?)
    && (ord.deliveredAt.Some? <==> ord.status.OrderDelivered?)
    && payments == (if ord.paidAt.Some? then 1 else 0)
    && deliveries == (if ord.status.OrderDelivered? then 1 else 0)
  }

  ghost predicate OrderOk(db: Db, o: OrderId)
    requires o in db.orders
  {
    RowOk(o, db.orders[o], Find(db.attempts, o), Count(db.ledger, o, EntryPayment), Count(db.ledger, o, EntryDelivery))
  }

  ghost predicate EntryOk(orders: map<OrderId, Order>, e: LedgerEntry) {
    && e.orderId in orders
    && e.currency == orders[e.orderId].currency
    && e.amount == (if e.kind.EntryPayment? then orders[e.orderId].amount else 0)
  }

  /** Status correspondence, over the whole database. */
  ghost predicate Consistent(db: Db) {
    && db.attempts.Keys <= db.orders.Keys
    && (forall o :: o in db.orders ==> OrderOk(db, o))
    && (forall i :: 0 <= i < |db.ledger| ==> EntryOk(db.orders, db.ledger[i]))
  }

  /** Nothing that concerns order `x` differs. */
  ghost predicate SameRow(db: Db, db': Db, x: OrderId) {
    && Find(db.orders, x) == Find(db'.orders, x)
    && Find(db.attempts, x) == Find(db'.attempts, x)
    && Count(db.ledger, x, EntryPayment) == Count(db'.ledger, x, EntryPayment)
    && Count(db.ledger, x, EntryDelivery) == Count(db'.ledger, x, EntryDelivery)
  }

  lemma SameRowOk(db: Db, db': Db, x: OrderId)
    requires SameRow(db, db', x)
    ensures x in db.orders <==> x in db'.orders
    ensures x in db.attempts <==> x in db'.attempts
    ensures x in db.orders && OrderOk(db, x) ==> OrderOk(db', x)
  {
  }

  /** A transaction that leaves all orders but one alone only has to answer for that one. */
  lemma OneRowConsistent(db: Db, db': Db, o: OrderId)
    requires Consistent(db)
    requires o in db'.orders && OrderOk(db', o)
    requires forall x :: x != o ==> SameRow(db, db', x)
    requires forall i :: 0 <= i < |db'.ledger| ==> EntryOk(db'.orders, db'.ledger[i])
    ensures Consistent(db')
  {
    forall x | x in db'.orders
      ensures OrderOk(db', x)
    {
      if x != o {
        SameRowOk(db, db', x);
      }
    }
    forall x | x in db'.attempts
      ensures x in db'.orders
    {
      if x != o {
        SameRowOk(db, db', x);
      }
    }
  }

  /** The ledger gains at most one entry, and only counts of that entry's order and kind change. */
  lemma InsertRows(db: Db, db': Db, e: LedgerEntry)
    requires db'.ledger == InsertEntry(db.ledger, e)
    ensures forall x, kind :: Count(db'.ledger, x, kind) ==
              if e.orderId == x && e.kind == kind && Count(db.ledger, x, kind) == 0 then 1
              else Count(db.ledger, x, kind)
  {
    forall x, kind {
      CountInsert(db.ledger, e, x, kind);
    }
  }

  /** Entries stay right when a right one is added and no order changes its amount or currency. */
  lemma InsertEntriesOk(
    ledger: seq<LedgerEntry>, e: LedgerEntry, orders: map<OrderId, Order>, orders': map<OrderId, Order>)
    requires forall i :: 0 <= i < |ledger| ==> EntryOk(orders, ledger[i])
    requires EntryOk(orders', e)
    requires forall x :: x in orders ==>
               x in orders' && orders'[x].amount == orders[x].amount && orders'[x].currency == orders[x].currency
    ensures forall i :: 0 <= i < |InsertEntry(ledger, e)| ==> EntryOk(orders', InsertEntry(ledger, e)[i])
  {
  }

  lemma ApplyPaidRow(db: Db, now: Time, o: OrderId)
    requires o in db.orders && OrderOk(db, o) && !db.orders[o].status.IsFinal()
    ensures OrderOk(Payments.ApplyPaid(db, now, o), o)
  {
    var ord := db.orders[o];
    InsertRows(db, Payments.ApplyPaid(db, now, o), LedgerEntry(o, EntryPayment, ord.amount, ord.currency));
  }

  lemma ApplyPaidElsewhere(db: Db, now: Time, o: OrderId, x: OrderId)
    requires o in db.orders && x != o
    ensures SameRow(db, Payments.ApplyPaid(db, now, o), x)
  {
    var ord := db.orders[o];
    CountInsert(db.ledger, LedgerEntry(o, EntryPayment, ord.amount, ord.currency), x, EntryPayment);
    CountInsert(db.ledger, LedgerEntry(o, EntryPayment, ord.amount, ord.currency), x, EntryDelivery);
  }

  lemma ApplyPaidConsistent(db: Db, now: Time, o: OrderId)
    requires Consistent(db) && o in db.orders
    ensures Consistent(Payments.ApplyPaid(db, now, o))
  {
    var ord := db.orders[o];
    var db' := Payments.ApplyPaid(db, now, o);
    if !ord.status.IsFinal() {
      ApplyPaidRow(db, now, o);
      forall x | x != o
        ensures SameRow(db, db', x)
      {
        ApplyPaidElsewhere(db, now, o, x);
      }
      InsertEntriesOk(db.ledger, LedgerEntry(o, EntryPayment, ord.amount, ord.currency), db.orders, db'.orders);
      OneRowConsistent(db, db', o);
    }
  }

  lemma ApplyFailedConsistent(db: Db, o: OrderId)
    requires Consistent(db) && o in db.orders
    ensures Consistent(Payments.ApplyFailed(db, o))
  {
    assert OrderOk(db, o);
    OneRowConsistent(db, Payments.ApplyFailed(db, o), o);
  }

  /** The events play no part. */
  lemma OtherTablesConsistent(db: Db, db': Db)
    requires Consistent(db)
    requires db'.orders == db.orders && db'.attempts == db.attempts && db'.ledger == db.ledger
    ensures Consistent(db')
  {
    forall o | o in db'.orders
      ensures OrderOk(db', o)
    {
      assert OrderOk(db, o);
    }
  }

  lemma ApplyPaymentConsistent(db: Db, now: Time, o: OrderId, e: Event)
    requires Consistent(db) && o in db.orders
    ensures Consistent(Payments.ApplyPayment(db, now, o, e))
  {
    ApplyPaidConsistent(db, now, o);
    ApplyFailedConsistent(db, o);
    OtherTablesConsistent(Payments.Applied(db, now, o, e), Payments.ApplyPayment(db, now, o, e));
  }

  lemma {:induction false} ApplyAllConsistent(db: Db, now: Time, o: OrderId, es: seq<Event>)
    requires Consistent(db) && o in db.orders
    ensures Consistent(Payments.ApplyAll(db, now, o, es))
  {
    if es != [] {
      ApplyAllConsistent(db, now, o, es[..|es| - 1]);
      ApplyPaymentConsistent(Payments.ApplyAll(db, now, o, es[..|es| - 1]), now, o, es[|es| - 1]);
    }
  }

  lemma ProcessPaymentConsistent(db: Db, now: Time, e: Event)
    requires Consistent(db)
    ensures Consistent(Payments.ProcessPayment(db, now, e))
  {
    if !Payments.Seen(db.events, e.eventId) {
      var stored := db.(events := db.events + [EventRow(e, now, None)]);
      OtherTablesConsistent(db, stored);
      if e.orderId in db.orders {
        ApplyPaymentConsistent(stored, now, e.orderId, e);
      }
    }
  }

  /** An order that does not exist has no entries in the ledger. */
  lemma {:induction false} NoEntries(ledger: seq<LedgerEntry>, orders: map<OrderId, Order>, o: OrderId, kind: EntryKind)
    requires o !in orders
    requires forall i :: 0 <= i < |ledger| ==> EntryOk(orders, ledger[i])
    ensures Count(ledger, o, kind) == 0
  {
    if ledger != [] {
      NoEntries(ledger[..|ledger| - 1], orders, o, kind);
    }
  }

  lemma CreateConsistent(db: Db, now: Time, o: OrderId, sku: string)
    requires Consistent(db)
    ensures Consistent(Payments.Create(db, now, o, sku).0)
  {
    if o !in db.orders && sku in db.products && db.products[sku].active {
      var inserted := Payments.InsertOrder(db, now, o, sku);
      NoEntries(db.ledger, db.orders, o, EntryPayment);
      NoEntries(db.ledger, db.orders, o, EntryDelivery);
      OneRowConsistent(db, inserted, o);
      ApplyAllConsistent(inserted, now, o, Payments.Pending(db.events, o));
    }
  }

  lemma ClaimConsistent(db: Db, now: Time, o: OrderId)
    requires Consistent(db) && Claimable(db, now, o)
    ensures Consistent(Claim(db, now, o))
  {
    var db' := Claim(db, now, o);
    assert OrderOk(db, o);
    assert OrderOk(db', o);
    forall x | x != o
      ensures SameRow(db, db', x)
    {
    }
    OneRowConsistent(db, db', o);
  }

  lemma MarkDeliveredRow(db: Db, now: Time, job: Job, p: Provider, code: string)
    requires Consistent(db) && MarkDelivered(db, now, job, p, code).1 == Marked
    ensures OrderOk(MarkDelivered(db, now, job, p, code).0, job.orderId)
  {
    var o := job.orderId;
    var e := LedgerEntry(o, EntryDelivery, 0, db.orders[o].currency);
    CountInsert(db.ledger, e, o, EntryPayment);
    CountInsert(db.ledger, e, o, EntryDelivery);
    assert OrderOk(db, o);
  }

  lemma MarkDeliveredElsewhere(db: Db, now: Time, job: Job, p: Provider, code: string, x: OrderId)
    requires MarkDelivered(db, now, job, p, code).1 == Marked && x != job.orderId
    ensures SameRow(db, MarkDelivered(db, now, job, p, code).0, x)
  {
    var e := LedgerEntry(job.orderId, EntryDelivery, 0, db.orders[job.orderId].currency);
    CountInsert(db.ledger, e, x, EntryPayment);
    CountInsert(db.ledger, e, x, EntryDelivery);
  }

  lemma MarkDeliveredConsistent(db: Db, now: Time, job: Job, p: Provider, code: string)
    requires Consistent(db)
    ensures Consistent(MarkDelivered(db, now, job, p, code).0)
  {
    var (db', result) := MarkDelivered(db, now, job, p, code);
    var o := job.orderId;
    if result == Marked {
      MarkDeliveredRow(db, now, job, p, code);
      forall x | x != o
        ensures SameRow(db, db', x)
      {
        MarkDeliveredElsewhere(db, now, job, p, code, x);
      }
      InsertEntriesOk(db.ledger, LedgerEntry(o, EntryDelivery, 0, db.orders[o].currency), db.orders, db'.orders);
      OneRowConsistent(db, db', o);
    }
  }

  lemma MarkFailureConsistent(db: Db, now: Time, job: Job, outOfStock: bool, delay: Time)
    requires Consistent(db)
    ensures Consistent(MarkFailure(db, now, job, outOfStock, delay).0)
  {
    var (db', result) := MarkFailure(db, now, job, outOfStock, delay);
    var o := job.orderId;
    if result == Marked {
      assert OrderOk(db, o);
      OneRowConsistent(db, db', o);
    }
  }

  lemma RecoverConsistent(db: Db, now: Time)
    requires Consistent(db)
    ensures Consistent(Recover(db, now))
  {
    var db' := Recover(db, now);
    forall o | o in db'.orders
      ensures OrderOk(db', o)
    {
      assert OrderOk(db, o);
    }
  }

  lemma RetryConsistent(db: Db, now: Time, o: OrderId)
    requires Consistent(db)
    ensures Consistent(Reconcile.RetryDelivery(db, now, o).0)
  {
    if o in db.orders {
      assert OrderOk(db, o);
      OneRowConsistent(db, Reconcile.RetryDelivery(db, now, o).0, o);
    }
  }

  /** In a consistent database no order lacks a job, and no job lacks its time: nothing to repair. */
  lemma RepairConsistent(db: Db, now: Time)
    requires Consistent(db)
    ensures Reconcile.Repair(db, now) == db
    ensures Reconcile.RepairCounts(db, now) == (0, 0)
  {
    forall o | o in db.orders
      ensures !Reconcile.LacksJob(db, o) && !Reconcile.LacksTime(db, o)
    {
      assert OrderOk(db, o);
    }
    Reconcile.NothingToRepair(db, now);
  }
}
