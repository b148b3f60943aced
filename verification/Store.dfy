/**
 * The store itself: the tables are fields, and each transaction updates them statement by
 * statement. Every method is tied to the function that describes its transaction as a whole.
 */
module Transactions {
  import opened Prelude
  import opened Model
  import opened Payments
  import opened Queue
  import opened Providers
  import opened Retry
  import Reconcile

  lemma MissingCreated(db: Db, now: Time, attempts: map<OrderId, Attempt>)
    requires forall o :: o in attempts <==> o in db.attempts || (o in db.orders && Reconcile.LacksJob(db, o))
    requires forall o :: o in attempts ==>
      attempts[o] == if o in db.attempts then db.attempts[o] else NewAttempt(o, now)
    ensures db.(attempts := attempts) == Reconcile.CreateMissing(db, now)
  {
    assert attempts == Reconcile.CreateMissing(db, now).attempts;
  }

  lemma RecoverableQueued(db: Db, now: Time, attempts: map<OrderId, Attempt>)
    requires attempts.Keys == db.attempts.Keys
    requires forall o :: o in attempts ==>
      attempts[o] == if o in db.orders && Reconcile.LacksTime(db, o)
                     then db.attempts[o].(nextAt := Some(now)) else db.attempts[o]
    ensures db.(attempts := attempts) == Reconcile.QueueRecoverable(db, now)
  {
    assert attempts == Reconcile.QueueRecoverable(db, now).attempts;
  }

  class Store {
    var products: map<string, Product>
    var orders: map<OrderId, Order>
    var events: seq<EventRow>
    var attempts: map<OrderId, Attempt>
    var ledger: seq<LedgerEntry>
    var keys: seq<Key>
    var issues: map<(Provider, string), Issue>
    var clock: Time  // now() of the transaction that runs next

    ghost function Tables(): Db
      reads this
    {
      Db(products, orders, events, attempts, ledger, keys, issues)
    }

    constructor ()
      ensures Tables() == EMPTY_DB && clock == 0
    {
      products, orders, events, attempts, ledger, keys, issues := map[], map[], [], map[], [], [], map[];
      clock := 0;
    }

    // ----- orders and payments -----

    method Create(orderId: OrderId, sku: string) returns (result: CreateResult)
      modifies this
      ensures (Tables(), result) == Payments.Create(old(Tables()), clock, orderId, sku)
      ensures clock == old(clock)
    {
      if sku !in products || !products[sku].active {
        return ProductNotFound;
      }
      var p := products[sku];
      if orderId in orders {
        return DuplicateOrder;  // the primary key; the transaction is rolled back
      }
      orders := orders[orderId := Order(sku, p.price, p.currency, OrderCreated, None, None, clock)];
      ApplyPendingPayments(orderId, p.price, p.currency);
      result := Created(orders[orderId]);
    }

    method ProcessPayment(event: Event)
      modifies this
      ensures Tables() == Payments.ProcessPayment(old(Tables()), clock, event)
      ensures clock == old(clock)
    {
      if Seen(events, event.eventId) {
        return;
      }
      events := events + [EventRow(event, clock, None)];
      if event.orderId !in orders {
        return;
      }
      var ord := orders[event.orderId];
      ApplyPaymentToOrder(event.orderId, ord.status, ord.amount, ord.currency, event);
    }

    /** The status is read again before each event, since the event before may have changed it. */
    method ApplyPendingPayments(orderId: OrderId, amount: nat, currency: string)
      requires orderId in orders && orders[orderId].amount == amount && orders[orderId].currency == currency
      modifies this
      ensures Tables() == ApplyAll(old(Tables()), clock, orderId, Pending(old(events), orderId))
      ensures clock == old(clock) && orderId in orders
    {
      var pending := Pending(events, orderId);
      ghost var start := Tables();
      for i := 0 to |pending|
        invariant clock == old(clock) && orderId in orders
        invariant Tables() == ApplyAll(start, clock, orderId, pending[..i])
        invariant orders[orderId].amount == amount && orders[orderId].currency == currency
      {
        var currentStatus := orders[orderId].status;
        ApplyPaymentToOrder(orderId, currentStatus, amount, currency, pending[i]);
        assert pending[..i + 1][..i] == pending[..i];
      }
      assert pending[..|pending|] == pending;
    }

    method ApplyPaymentToOrder(
      orderId: OrderId, currentStatus: OrderStatus, amount: nat, currency: string, event: Event)
      requires orderId in orders && orders[orderId].status == currentStatus
      requires orders[orderId].amount == amount && orders[orderId].currency == currency
      modifies this
      ensures Tables() == ApplyPayment(old(Tables()), clock, orderId, event)
      ensures clock == old(clock) && orderId in orders
      ensures orders[orderId].amount == amount && orders[orderId].currency == currency
    {
      if event.amount != amount || event.currency != currency {
        MarkPaymentProcessed(event.eventId);
        return;
      }
      match event.status
      case EventPaid => ApplyPaidEvent(orderId, currentStatus, amount, currency, event.eventId);
      case EventFailed => ApplyFailedEvent(orderId, currentStatus, event.eventId);
    }

    method ApplyPaidEvent(orderId: OrderId, currentStatus: OrderStatus, amount: nat, currency: string, eventId: string)
      requires orderId in orders && orders[orderId].status == currentStatus
      requires orders[orderId].amount == amount && orders[orderId].currency == currency
      modifies this
      ensures var paid := ApplyPaid(old(Tables()), clock, orderId);
        Tables() == paid.(events := Payments.MarkProcessed(paid.events, eventId, clock))
      ensures clock == old(clock) && orderId in orders
      ensures orders[orderId].amount == amount && orders[orderId].currency == currency
    {
      if currentStatus.OrderDelivered? || currentStatus.OrderPaymentFailed? {
        MarkPaymentProcessed(eventId);
        return;
      }
      if currentStatus.OrderCreated? {
        orders := orders[orderId := MarkPaid(orders[orderId], clock)];
      } else if currentStatus.OrderOutOfStock? || currentStatus.OrderDeliveryFailed? {
        orders := orders[orderId := MarkPaid(orders[orderId], clock)];
      }
      CreateOrRestoreAttempt(orderId);
      if Count(ledger, orderId, EntryPayment) == 0 {
        ledger := ledger + [LedgerEntry(orderId, EntryPayment, amount, currency)];
      }
      MarkPaymentProcessed(eventId);
    }

    method CreateOrRestoreAttempt(orderId: OrderId)
      modifies this`attempts
      ensures attempts == UpsertAttempt(old(attempts), clock, orderId)
    {
      if orderId in attempts {
        var a := attempts[orderId];
        if a.status.JobOutOfStock? || a.status.JobFailed? {
          attempts := attempts[orderId := a.(status := JobPending, nextAt := Some(clock))];
        }
      } else {
        attempts := attempts[orderId := NewAttempt(orderId, clock)];
      }
    }

    method ApplyFailedEvent(orderId: OrderId, currentStatus: OrderStatus, eventId: string)
      requires orderId in orders && orders[orderId].status == currentStatus
      modifies this
      ensures var failed := ApplyFailed(old(Tables()), orderId);
        Tables() == failed.(events := Payments.MarkProcessed(failed.events, eventId, clock))
      ensures clock == old(clock) && orderId in orders
      ensures orders[orderId].amount == old(orders[orderId].amount)
      ensures orders[orderId].currency == old(orders[orderId].currency)
    {
      if currentStatus.OrderCreated? {
        orders := orders[orderId := orders[orderId].(status := OrderPaymentFailed)];
      }
      MarkPaymentProcessed(eventId);
    }

    /** `UPDATE payment_events SET processed_at = now() WHERE event_id = $1`, row by row. */
    method MarkPaymentProcessed(eventId: string)
      modifies this`events
      ensures events == Payments.MarkProcessed(old(events), eventId, clock)
    {
      for i := 0 to |events|
        invariant |events| == |old(events)|
        invariant forall j :: 0 <= j < i ==> events[j] == Payments.MarkProcessed(old(events), eventId, clock)[j]
        invariant forall j :: i <= j < |events| ==> events[j] == old(events)[j]
      {
        if events[i].event.eventId == eventId {
          events := events[i := events[i].(processedAt := Some(clock))];
        }
      }
    }

    // ----- the job queue -----

    /**
     * `NULLS FIRST` on next_attempt_at, then created_at: no claimable job comes before job `o`. Rows
     * equal in both columns come in any order.
     */
    ghost predicate ComesFirst(o: OrderId)
      requires o in attempts
      reads this
    {
      forall x :: x in attempts && Claimable(Tables(), clock, x) ==>
        var a, b := attempts[o], attempts[x];
        || (a.nextAt.None? && b.nextAt.Some?)
        || (a.nextAt.Some? && b.nextAt.Some? && a.nextAt.value < b.nextAt.value)
        || (a.nextAt == b.nextAt && a.createdAt <= b.createdAt)
    }

    /** Looks through all jobs for one that is claimable and has none before it. */
    method FindNextJob() returns (found: Option<OrderId>)
      ensures found.Some? ==> IsNext(Tables(), clock, found.value) && ComesFirst(found.value)
      ensures found.None? ==> forall o :: !Claimable(Tables(), clock, o)
    {
      found := None;
      var rest := attempts.Keys;
      while rest != {}
        invariant rest <= attempts.Keys
        invariant found.Some? ==> Claimable(Tables(), clock, found.value)
        invariant forall o :: o in attempts && o !in rest && Claimable(Tables(), clock, o) ==>
          found.Some? && !Before(attempts[o], attempts[found.value])
        decreases rest
      {
        var o :| o in rest;
        rest := rest - {o};
        if attempts[o].status.IsQueued() && Due(attempts[o], clock) && o in orders && orders[o].status.IsClaimable() {
          if found.None? || Before(attempts[o], attempts[found.value]) {
            found := Some(o);
          }
        }
      }
    }

    method ClaimNextJob() returns (job: Option<Job>)
      modifies this
      ensures job.None? ==> Tables() == old(Tables()) && forall o :: !Claimable(old(Tables()), clock, o)
      ensures job.Some? ==>
        var o := job.value.orderId;
        && o in old(attempts) && old(ComesFirst(o)) && IsNext(old(Tables()), clock, o)
        && job.value == JobOf(old(Tables()), o)
        && Tables() == Claim(old(Tables()), clock, o)
        && job.value.attempts == attempts[o].attempts == old(attempts)[o].attempts + 1
      ensures clock == old(clock)
    {
      var found := FindNextJob();
      if found.None? {
        return None;
      }
      var o := found.value;
      var a := attempts[o];
      job := Some(Job(a.id, o, a.requestId, orders[o].sku, a.attempts));
      attempts := attempts[o := a.(status := JobProcessing, attempts := a.attempts + 1, lockedAt := Some(clock))];
      if orders[o].status.IsClaimable() {
        orders := orders[o := orders[o].(status := OrderDelivering)];
      }
      job := Some(job.value.(attempts := job.value.attempts + 1));
    }

    method MarkDelivered(job: Job, provider: Provider, code: string) returns (result: MarkResult)
      modifies this
      ensures (Tables(), result) == Queue.MarkDelivered(old(Tables()), clock, job, provider, code)
      ensures clock == old(clock)
    {
      var o := job.orderId;
      if o !in attempts || attempts[o].id != job.deliveryId {
        return NoSuchRow;
      }
      if attempts[o].status.JobDelivered? {
        return AlreadyDone;
      }
      if !attempts[o].status.JobProcessing? {
        return NotProcessing;
      }
      if o !in orders || !orders[o].status.OrderDelivering? {
        return OrderNotDelivering;  // rolls back the update of the job
      }
      attempts := attempts[o := attempts[o].(
        provider := Some(provider), status := JobDelivered, code := Some(code), nextAt := None, lockedAt := None)];
      var ord := orders[o];
      orders := orders[o := ord.(
        status := OrderDelivered, deliveredAt := if ord.deliveredAt.Some? then ord.deliveredAt else Some(clock))];
      if Count(ledger, o, EntryDelivery) == 0 {
        ledger := ledger + [LedgerEntry(o, EntryDelivery, 0, ord.currency)];
      }
      result := Marked;
    }

    method MarkRecoverableFailure(job: Job, jobStatus: JobStatus, orderStatus: OrderStatus, delay: Time)
      returns (result: MarkResult)
      requires (jobStatus == JobFailed && orderStatus == OrderDeliveryFailed) ||
               (jobStatus == JobOutOfStock && orderStatus == OrderOutOfStock)
      modifies this
      ensures (Tables(), result) == MarkFailure(old(Tables()), clock, job, jobStatus == JobOutOfStock, delay)
      ensures clock == old(clock)
    {
      var o := job.orderId;
      if o !in attempts || attempts[o].id != job.deliveryId || !attempts[o].status.JobProcessing? {
        return NotProcessing;
      }
      attempts := attempts[o := attempts[o].(status := jobStatus, nextAt := Some(clock + delay), lockedAt := None)];
      if o in orders && orders[o].status.OrderDelivering? {
        orders := orders[o := orders[o].(status := orderStatus)];
      }
      result := Marked;
    }

    /** First the stale jobs, then the orders of those jobs. Returns how many orders were taken back. */
    method RecoverStaleJobs() returns (count: nat)
      modifies this
      ensures Tables() == Recover(old(Tables()), clock)
      ensures count == |set o | o in old(orders) && Recovered(old(Tables()), clock, o)|
      ensures clock == old(clock)
    {
      ghost var before := Tables();
      var recovered := ReleaseJobs();
      assert attempts == Recover(before, clock).attempts;
      count := ReleaseOrders(recovered);
      assert Released(recovered, before.orders) == set o | o in before.orders && Recovered(before, clock, o);
      assert orders == Recover(before, clock).orders;
    }

    method ReleaseJobs() returns (recovered: set<OrderId>)
      modifies this`attempts
      ensures attempts.Keys == old(attempts).Keys
      ensures forall o :: o in attempts ==> attempts[o] == Release(old(attempts)[o], clock)
      ensures recovered == set o | o in old(attempts) && Stale(old(attempts)[o], clock)
    {
      ghost var stale := set o | o in attempts && Stale(attempts[o], clock);
      recovered := {};
      var rest := attempts.Keys;
      while rest != {}
        invariant rest <= attempts.Keys == old(attempts).Keys
        invariant forall o :: o in attempts ==>
          attempts[o] == if o in rest then old(attempts)[o] else Release(old(attempts)[o], clock)
        invariant recovered == stale - rest
        decreases rest
      {
        var o :| o in rest;
        rest := rest - {o};
        if Stale(attempts[o], clock) {
          recovered := recovered + {o};
          attempts := attempts[o := attempts[o].(status := JobFailed, nextAt := Some(clock), lockedAt := None)];
        }
      }
    }

    ghost function Released(recovered: set<OrderId>, m: map<OrderId, Order>): set<OrderId> {
      set o | o in recovered && o in m && m[o].status.OrderDelivering?
    }

    method ReleaseOrders(recovered: set<OrderId>) returns (count: nat)
      modifies this`orders
      ensures orders.Keys == old(orders).Keys
      ensures forall o :: o in orders ==>
        orders[o] == if o in Released(recovered, old(orders))
                     then old(orders)[o].(status := OrderDeliveryFailed) else old(orders)[o]
      ensures count == |Released(recovered, old(orders))|
    {
      var rest := recovered;
      ghost var all, done := Released(recovered, orders), {};
      count := 0;
      while rest != {}
        invariant rest <= recovered && orders.Keys == old(orders).Keys
        invariant (forall x :: x in done <==> x in all && x !in rest) && count == |done|
        invariant forall o :: o in orders ==>
          orders[o] == if o in done then old(orders)[o].(status := OrderDeliveryFailed) else old(orders)[o]
        decreases rest
      {
        var o :| o in rest;
        rest := rest - {o};
        if o in orders && orders[o].status.OrderDelivering? {
          orders := orders[o := orders[o].(status := OrderDeliveryFailed)];
          count := count + 1;
          done := done + {o};
        }
      }
      assert done == all;
    }

    /**
     * One run over a claimed job, given what each call would return. Each chain of calls goes on after
     * a timeout, a refusal or a broken reply only; B is asked exactly if the last answer of A is a
     * refusal or out of stock; and the last answers decide the one mark.
     */
    method Process(job: Job, n: nat, delay: Time, repliesA: seq<IssueResult>, repliesB: seq<IssueResult>)
      returns (callsA: nat, callsB: nat, result: MarkResult)
      requires 1 <= n <= |repliesA| && n <= |repliesB|
      modifies this
      ensures 1 <= callsA <= n && callsB <= n
      ensures forall i :: 0 <= i < callsA - 1 ==>
                repliesA[i] == Err(Timeout) || repliesA[i] == Err(Unavailable) || repliesA[i] == Err(Other)
      ensures callsA < n ==>
                var a := repliesA[callsA - 1]; a.Got? || a == Err(OutOfStock) || a == Err(Invalid)
      ensures callsB > 0 <==>
                repliesA[callsA - 1] == Err(Unavailable) || repliesA[callsA - 1] == Err(OutOfStock)
      ensures forall i :: 0 <= i < callsB - 1 ==>
                repliesB[i] == Err(Timeout) || repliesB[i] == Err(Unavailable) || repliesB[i] == Err(Other)
      ensures 0 < callsB < n ==>
                var b := repliesB[callsB - 1]; b.Got? || b == Err(OutOfStock) || b == Err(Invalid)
      ensures (Tables(), result) ==
        if repliesA[callsA - 1].Got? then
          Queue.MarkDelivered(old(Tables()), clock, job, ProviderA, repliesA[callsA - 1].code)
        else if callsB == 0 then
          MarkFailure(old(Tables()), clock, job, false, delay)
        else if repliesB[callsB - 1].Got? then
          Queue.MarkDelivered(old(Tables()), clock, job, ProviderB, repliesB[callsB - 1].code)
        else
          var nowhere := repliesA[callsA - 1] == Err(OutOfStock) && repliesB[callsB - 1] == Err(OutOfStock);
          MarkFailure(old(Tables()), clock, job, nowhere, delay)
      ensures clock == old(clock)
    {
      callsB := 0;
      var a;
      a, callsA := IssueWithRetry(n, repliesA);
      if a.Got? {
        result := MarkDelivered(job, ProviderA, a.code);
        return;
      }
      // a timeout is no refusal: A may have issued
      if a.error.Timeout? {
        result := MarkRecoverableFailure(job, JobFailed, OrderDeliveryFailed, delay);
        return;
      }
      if !a.error.Unavailable? && !a.error.OutOfStock? {
        result := MarkRecoverableFailure(job, JobFailed, OrderDeliveryFailed, delay);
        return;
      }
      var b;
      b, callsB := IssueWithRetry(n, repliesB);
      if b.Got? {
        result := MarkDelivered(job, ProviderB, b.code);
        return;
      }
      if b.error.OutOfStock? && a.error.OutOfStock? {
        result := MarkRecoverableFailure(job, JobOutOfStock, OrderOutOfStock, delay);
        return;
      }
      result := MarkRecoverableFailure(job, JobFailed, OrderDeliveryFailed, delay);
    }

    // ----- the administrator -----

    method RetryDelivery(orderId: OrderId) returns (result: Reconcile.RetryResult)
      modifies this
      ensures (Tables(), result) == Reconcile.RetryDelivery(old(Tables()), clock, orderId)
      ensures clock == old(clock)
    {
      if orderId !in orders {
        return Reconcile.OrderNotFound;
      }
      var status := orders[orderId].status;
      if status.OrderDelivered? {
        return Reconcile.AlreadyDelivered;
      }
      if orders[orderId].paidAt.None? || status.OrderCreated? || status.OrderPaymentFailed? {
        return Reconcile.OrderNotPaid;
      }
      if orderId !in attempts {
        attempts := attempts[orderId := NewAttempt(orderId, clock)];
        orders := orders[orderId := orders[orderId].(status := OrderPaid)];
        return Reconcile.Queued(true);
      }
      match attempts[orderId].status {
        case JobDelivered => return Reconcile.AlreadyDelivered;
        case JobProcessing => return Reconcile.DeliveryRunning;
        case JobPending =>
          attempts := attempts[orderId := attempts[orderId].(nextAt := Some(clock))];
        case _ =>
          attempts := attempts[orderId := attempts[orderId].(
            status := JobPending, nextAt := Some(clock), lockedAt := None)];
      }
      if orders[orderId].status.IsClaimable() {
        orders := orders[orderId := orders[orderId].(status := OrderPaid)];
      }
      result := Reconcile.Queued(false);
    }

    /** Two statements: jobs for paid orders without one, then times for recoverable jobs without one. */
    method Repair() returns (created: nat, queued: nat)
      modifies this
      ensures Tables() == Reconcile.Repair(old(Tables()), clock)
      ensures (created, queued) == Reconcile.RepairCounts(old(Tables()), clock)
      ensures clock == old(clock)
    {
      ghost var before := Tables();
      created := CreateMissingJobs();
      MissingCreated(before, clock, attempts);
      ghost var middle := Tables();
      queued := QueueRecoverableJobs();
      RecoverableQueued(middle, clock, attempts);
    }

    ghost function LackingJob(): set<OrderId>
      reads this
    {
      set o | o in orders && Reconcile.LacksJob(Tables(), o)
    }

    ghost function LackingTime(): set<OrderId>
      reads this
    {
      set o | o in orders && Reconcile.LacksTime(Tables(), o)
    }

    method CreateMissingJobs() returns (created: nat)
      modifies this`attempts
      ensures forall o :: o in attempts <==> o in old(attempts) || o in old(LackingJob())
      ensures forall o :: o in attempts ==>
        attempts[o] == if o in old(attempts) then old(attempts)[o] else NewAttempt(o, clock)
      ensures created == |old(LackingJob())|
    {
      var rest := orders.Keys;
      ghost var all, done := LackingJob(), {};
      created := 0;
      while rest != {}
        invariant rest <= orders.Keys && created == |done|
        invariant forall x :: x in done <==> x in all && x !in rest
        invariant forall x :: x in attempts <==> x in old(attempts) || x in done
        invariant forall o :: o in attempts ==>
          attempts[o] == if o in old(attempts) then old(attempts)[o] else NewAttempt(o, clock)
        decreases rest
      {
        var o :| o in rest;
        rest := rest - {o};
        if orders[o].paidAt.Some? && orders[o].status.IsClaimable() && o !in attempts {
          attempts := attempts[o := NewAttempt(o, clock)];
          created := created + 1;
          done := done + {o};
        }
      }
      assert done == all;
    }

    method QueueRecoverableJobs() returns (queued: nat)
      modifies this`attempts
      ensures attempts.Keys == old(attempts).Keys
      ensures forall o :: o in attempts ==>
        attempts[o] == if o in old(LackingTime()) then old(attempts)[o].(nextAt := Some(clock)) else old(attempts)[o]
      ensures queued == |old(LackingTime())|
    {
      var rest := orders.Keys;
      ghost var all, done := LackingTime(), {};
      queued := 0;
      while rest != {}
        invariant rest <= orders.Keys && queued == |done|
        invariant forall x :: x in done <==> x in all && x !in rest
        invariant attempts.Keys == old(attempts).Keys
        invariant forall o :: o in attempts ==>
          attempts[o] == if o in done then old(attempts)[o].(nextAt := Some(clock)) else old(attempts)[o]
        decreases rest
      {
        var o :| o in rest;
        rest := rest - {o};
        if o in attempts && orders[o].paidAt.Some? && orders[o].status.IsRecoverable()
           && attempts[o].status.IsRecoverable() && attempts[o].nextAt.None? {
          attempts := attempts[o := attempts[o].(nextAt := Some(clock))];
          queued := queued + 1;
          done := done + {o};
        }
      }
      assert done == all;
    }

    // ----- the provider's own tables -----

    method FindFreeKey(p: Provider, sku: string) returns (found: Option<nat>)
      ensures found.Some? <==> HasFree(keys, p, sku)
      ensures found.Some? ==> found.value == FirstFree(keys, p, sku)
    {
      for i := 0 to |keys|
        invariant forall j :: 0 <= j < i ==> !IsFree(keys[j], p, sku)
      {
        if keys[i].provider == p && keys[i].sku == sku && !keys[i].issued {
          assert IsFree(keys[i], p, sku);
          return Some(i);
        }
      }
      return None;
    }

    method IssueCode(p: Provider, r: Request, refuse: bool) returns (result: ServerResult)
      modifies this
      ensures (Tables(), result) == Providers.IssueCode(old(Tables()), clock, p, r, refuse)
      ensures clock == old(clock)
    {
      if r.requestId == "" || r.sku == "" || r.orderId == "" {
        return BadRequest;
      }
      if (p, r.requestId) in issues {
        return Issued(issues[(p, r.requestId)].code);
      }
      if refuse {
        return Refused;
      }
      var found := FindFreeKey(p, r.sku);
      if found.None? {
        return NoStock;
      }
      var k := keys[found.value];
      keys := keys[found.value := k.(issued := true, requestId := Some(r.requestId), orderId := Some(r.orderId))];
      issues := issues[(p, r.requestId) := Issue(r.sku, r.orderId, k.code, clock)];
      result := Issued(k.code);
    }
  }
}
