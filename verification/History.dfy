/** What a transaction may change, and what it may never change again. */
module History {
  import opened Prelude
  import opened Model
  import opened Queue
  import opened Status
  import opened Stock
  import Providers
  import Payments
  import Outcome
  import Reconcile

  /** The edges of the order life cycle. */
  predicate Edge(a: OrderStatus, b: OrderStatus) {
    match a
    case OrderCreated => b.OrderPaid? || b.OrderPaymentFailed?
    case OrderPaid => b.OrderDelivering?
    case OrderDelivering => b.OrderDelivered? || b.OrderDeliveryFailed? || b.OrderOutOfStock?
    case OrderDeliveryFailed => b.OrderPaid? || b.OrderDelivering?
    case OrderOutOfStock => b.OrderPaid? || b.OrderDelivering?
    case OrderDelivered => false
    case OrderPaymentFailed => false
  }

  predicate KeptOnce<T(==)>(a: Option<T>, b: Option<T>) {
    a.Some? ==> b == a
  }

  /** Price and SKU never change, times are written once, an outcome stands, final is final. */
  predicate OrderLater(a: Order, b: Order) {
    && b.sku == a.sku && b.amount == a.amount && b.currency == a.currency && b.createdAt == a.createdAt
    && KeptOnce(a.paidAt, b.paidAt) && KeptOnce(a.deliveredAt, b.deliveredAt)
    && KeptOnce(Payments.OutcomeOf(a.status), Payments.OutcomeOf(b.status))
    && (a.status.IsFinal() ==> b.status == a.status)
  }

  /** A job keeps its identity and its request, and once delivered it keeps everything. */
  predicate JobLater(a: Attempt, b: Attempt) {
    && b.id == a.id && b.requestId == a.requestId && b.createdAt == a.createdAt
    && (a.status.JobDelivered? ==> b == a)
  }

  ghost predicate EventsLater(a: seq<EventRow>, b: seq<EventRow>) {
    && |a| <= |b|
    && forall i :: 0 <= i < |a| ==>
         && b[i].event == a[i].event && b[i].receivedAt == a[i].receivedAt
         && (a[i].processedAt.Some? ==> b[i].processedAt.Some?)
  }

  ghost predicate OrdersLater(a: map<OrderId, Order>, b: map<OrderId, Order>) {
    forall o :: o in a ==> o in b && OrderLater(a[o], b[o])
  }

  ghost predicate JobsLater(a: map<OrderId, Attempt>, b: map<OrderId, Attempt>) {
    forall o :: o in a ==> o in b && JobLater(a[o], b[o])
  }

  /** `b` may be the database some steps after `a`. */
  ghost predicate Later(a: Db, b: Db) {
    && OrdersLater(a.orders, b.orders)
    && JobsLater(a.attempts, b.attempts)
    && EventsLater(a.events, b.events)
    && a.ledger <= b.ledger
    && KeysLater(a.keys, b.keys)
    && IssuesLater(a.issues, b.issues)
  }

  ghost predicate EdgesOnly(a: map<OrderId, Order>, b: map<OrderId, Order>) {
    forall o :: o in a && o in b && b[o].status != a[o].status ==> Edge(a[o].status, b[o].status)
  }

  lemma KeysLaterTransitive(a: seq<Key>, b: seq<Key>, c: seq<Key>)
    requires KeysLater(a, b) && KeysLater(b, c)
    ensures KeysLater(a, c)
  {
  }

  lemma LaterTransitive(a: Db, b: Db, c: Db)
    requires Later(a, b) && Later(b, c)
    ensures Later(a, c)
  {
    KeysLaterTransitive(a.keys, b.keys, c.keys);
    forall o | o in a.orders
      ensures o in c.orders && OrderLater(a.orders[o], c.orders[o])
    {
      assert OrderLater(a.orders[o], b.orders[o]);
    }
    forall o | o in a.attempts
      ensures o in c.attempts && JobLater(a.attempts[o], c.attempts[o])
    {
      assert JobLater(a.attempts[o], b.attempts[o]);
    }
  }

  lemma OrderUpdateLater(orders: map<OrderId, Order>, o: OrderId, b: Order)
    requires o in orders && OrderLater(orders[o], b)
    requires b.status != orders[o].status ==> Edge(orders[o].status, b.status)
    ensures OrdersLater(orders, orders[o := b]) && EdgesOnly(orders, orders[o := b])
  {
  }

  lemma JobUpdateLater(attempts: map<OrderId, Attempt>, o: OrderId, b: Attempt)
    requires o in attempts ==> JobLater(attempts[o], b)
    ensures JobsLater(attempts, attempts[o := b])
  {
  }

  lemma UpsertLater(attempts: map<OrderId, Attempt>, now: Time, o: OrderId)
    ensures JobsLater(attempts, Payments.UpsertAttempt(attempts, now, o))
  {
  }

  lemma ApplyPaidLater(db: Db, now: Time, o: OrderId)
    requires o in db.orders
    ensures Later(db, Payments.ApplyPaid(db, now, o))
    ensures EdgesOnly(db.orders, Payments.ApplyPaid(db, now, o).orders)
  {
    var ord := db.orders[o];
    UpsertLater(db.attempts, now, o);
    if ord.status.OrderCreated? || ord.status.IsRecoverable() {
      OrderUpdateLater(db.orders, o, Payments.MarkPaid(ord, now));
    }
  }

  lemma MarkEventLater(db: Db, now: Time, id: string)
    ensures Later(db, db.(events := Payments.MarkProcessed(db.events, id, now)))
  {
  }

  lemma ApplyFailedLater(db: Db, o: OrderId)
    requires o in db.orders
    ensures Later(db, Payments.ApplyFailed(db, o))
    ensures EdgesOnly(db.orders, Payments.ApplyFailed(db, o).orders)
  {
    if db.orders[o].status.OrderCreated? {
      OrderUpdateLater(db.orders, o, db.orders[o].(status := OrderPaymentFailed));
    }
  }

  lemma AppliedLater(db: Db, now: Time, o: OrderId, e: Event)
    requires o in db.orders
    ensures Later(db, Payments.Applied(db, now, o, e))
    ensures EdgesOnly(db.orders, Payments.Applied(db, now, o, e).orders)
  {
    if Payments.Matches(e, db.orders[o].amount, db.orders[o].currency) {
      if e.status.EventPaid? {
        ApplyPaidLater(db, now, o);
      } else {
        ApplyFailedLater(db, o);
      }
    }
  }

  lemma ApplyPaymentLater(db: Db, now: Time, o: OrderId, e: Event)
    requires o in db.orders
    ensures Later(db, Payments.ApplyPayment(db, now, o, e))
    ensures EdgesOnly(db.orders, Payments.ApplyPayment(db, now, o, e).orders)
  {
    var applied := Payments.Applied(db, now, o, e);
    AppliedLater(db, now, o, e);
    MarkEventLater(applied, now, e.eventId);
    LaterTransitive(db, applied, Payments.ApplyPayment(db, now, o, e));
  }

  lemma {:induction false} ApplyAllLater(db: Db, now: Time, o: OrderId, es: seq<Event>)
    requires o in db.orders
    ensures Later(db, Payments.ApplyAll(db, now, o, es))
  {
    if es != [] {
      var front := Payments.ApplyAll(db, now, o, es[..|es| - 1]);
      ApplyAllLater(db, now, o, es[..|es| - 1]);
      ApplyPaymentLater(front, now, o, es[|es| - 1]);
      LaterTransitive(db, front, Payments.ApplyAll(db, now, o, es));
    }
  }

  lemma ProcessPaymentLater(db: Db, now: Time, e: Event)
    ensures Later(db, Payments.ProcessPayment(db, now, e))
    ensures EdgesOnly(db.orders, Payments.ProcessPayment(db, now, e).orders)
  {
    if !Payments.Seen(db.events, e.eventId) {
      var stored := db.(events := db.events + [EventRow(e, now, None)]);
      assert Later(db, stored);
      if e.orderId in db.orders {
        ApplyPaymentLater(stored, now, e.orderId, e);
        LaterTransitive(db, stored, Payments.ProcessPayment(db, now, e));
      }
    }
  }

  lemma CreateLater(db: Db, now: Time, o: OrderId, sku: string)
    ensures Later(db, Payments.Create(db, now, o, sku).0)
    ensures EdgesOnly(db.orders, Payments.Create(db, now, o, sku).0.orders)
  {
    if o !in db.orders && sku in db.products && db.products[sku].active {
      var inserted := Payments.InsertOrder(db, now, o, sku);
      var es := Payments.Pending(db.events, o);
      assert Later(db, inserted);
      ApplyAllLater(inserted, now, o, es);
      LaterTransitive(db, inserted, Payments.ApplyAll(inserted, now, o, es));
      Outcome.ApplyAllDecides(inserted, now, o, es);
    }
  }

  lemma ClaimLater(db: Db, now: Time, o: OrderId)
    requires Claimable(db, now, o)
    ensures Later(db, Claim(db, now, o))
    ensures EdgesOnly(db.orders, Claim(db, now, o).orders)
  {
  }

  lemma MarkDeliveredLater(db: Db, now: Time, job: Job, p: Provider, code: string)
    ensures Later(db, MarkDelivered(db, now, job, p, code).0)
    ensures EdgesOnly(db.orders, MarkDelivered(db, now, job, p, code).0.orders)
  {
    var (db', result) := MarkDelivered(db, now, job, p, code);
    if result == Marked {
      OrderUpdateLater(db.orders, job.orderId, db'.orders[job.orderId]);
      JobUpdateLater(db.attempts, job.orderId, db'.attempts[job.orderId]);
    }
  }

  lemma MarkFailureLater(db: Db, now: Time, job: Job, outOfStock: bool, delay: Time)
    ensures Later(db, MarkFailure(db, now, job, outOfStock, delay).0)
    ensures EdgesOnly(db.orders, MarkFailure(db, now, job, outOfStock, delay).0.orders)
  {
  }

  lemma RecoverLater(db: Db, now: Time)
    ensures Later(db, Recover(db, now))
    ensures EdgesOnly(db.orders, Recover(db, now).orders)
  {
  }

  lemma RetryLater(db: Db, now: Time, o: OrderId)
    requires Consistent(db)
    ensures Later(db, Reconcile.RetryDelivery(db, now, o).0)
    ensures EdgesOnly(db.orders, Reconcile.RetryDelivery(db, now, o).0.orders)
  {
    var db' := Reconcile.RetryDelivery(db, now, o).0;
    if db' != db {
      assert OrderOk(db, o);
      OrderUpdateLater(db.orders, o, db'.orders[o]);
      JobUpdateLater(db.attempts, o, db'.attempts[o]);
      assert db'.orders == db.orders[o := db'.orders[o]];
      assert db'.attempts == db.attempts[o := db'.attempts[o]];
    }
  }

  lemma CallLater(db: Db, now: Time, p: Provider, r: Providers.Request, tr: Providers.Transit)
    ensures Later(db, Providers.Call(db, now, p, r, tr).0)
    ensures Providers.Call(db, now, p, r, tr).0.orders == db.orders
  {
    if Providers.Arrives(tr) {
      IssueConserves(db, now, p, r, tr.refuse);
    }
  }
}
