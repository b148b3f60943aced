/**
 * What the transactions do, in columns and values: nothing here is stated through the conditions that
 * the transactions themselves are built from, and much of it holds of damaged tables, too.
 */
module Columns {
  import opened Prelude
  import opened Model
  import opened Queue
  import opened Providers
  import opened Status
  import opened Stock
  import opened World
  import opened Safety
  import Payments
  import Reconcile

  // ----- the queue -----

  /** On any tables: a job is claimable only if both its own status and its order's allow it, and it is due. */
  lemma ClaimableExactly(db: Db, t: Time, o: OrderId)
    ensures Claimable(db, t, o) <==>
            && o in db.attempts && o in db.orders
            && (db.attempts[o].status == JobPending || db.attempts[o].status == JobFailed
                || db.attempts[o].status == JobOutOfStock)
            && (db.orders[o].status == OrderPaid || db.orders[o].status == OrderDeliveryFailed
                || db.orders[o].status == OrderOutOfStock)
            && (db.attempts[o].nextAt == None || db.attempts[o].nextAt.value <= t)
  {
  }

  /** On reachable states the order alone says whether its job can be claimed, and its job says when. */
  lemma ClaimableByStatus(cfg: Config, w: World, t: Time, o: OrderId)
    requires Reachable(cfg, w) && o in w.db.orders
    ensures Claimable(w.db, t, o) <==>
            && o in w.db.attempts && w.db.attempts[o].nextAt.Some? && w.db.attempts[o].nextAt.value <= t
            && var s := w.db.orders[o].status; s == OrderPaid || s == OrderDeliveryFailed || s == OrderOutOfStock
  {
    assert OrderOk(w.db, o) by { ReachableSafe(cfg, w); }
  }

  /** A job is claimed only if no claimable job has an earlier time, or the same time and an earlier creation. */
  lemma ClaimOrder(w: World, i: nat, o: OrderId, x: OrderId)
    requires Enabled(w, w.now + 1, i, ClaimJob(o)) && Claimable(w.db, w.now + 1, x)
    ensures var a, b := w.db.attempts[o], w.db.attempts[x];
      || (a.nextAt.None? && b.nextAt.Some?)
      || (a.nextAt.Some? && b.nextAt.Some? && a.nextAt.value < b.nextAt.value)
      || (a.nextAt == b.nextAt && a.createdAt <= b.createdAt)
  {
  }

  /** The recovery takes exactly the jobs that were locked more than two minutes ago, and their orders. */
  lemma RecoveryExactly(cfg: Config, w: World, o: OrderId)
    requires Reachable(cfg, w) && o in w.db.attempts
    ensures o in w.db.orders
    ensures var a, ord, t := w.db.attempts[o], w.db.orders[o], w.now + 1;
      var db' := Next(cfg, w, Upkeep(RecoverStale)).db;
      && o in db'.attempts && o in db'.orders
      && if a.status == JobProcessing && a.lockedAt.Some? && a.lockedAt.value + 120_000 < t
         then db'.attempts[o] == a.(status := JobFailed, nextAt := Some(t), lockedAt := None)
              && db'.orders[o] == ord.(status := OrderDeliveryFailed)
         else db'.attempts[o] == a && db'.orders[o] == ord
  {
    assert OrderOk(w.db, o) by { ReachableSafe(cfg, w); }
    NextUpkeep(cfg, w, RecoverStale);
  }

  /** On any tables: an order follows its job if it is delivering, and only then. */
  lemma RecoveryOfOrders(db: Db, t: Time, o: OrderId)
    requires o in db.orders
    ensures var db' := Recover(db, t);
      && db'.orders.Keys == db.orders.Keys && db'.attempts.Keys == db.attempts.Keys
      && db'.orders[o] ==
         if o in db.attempts && db.attempts[o].status == JobProcessing && db.attempts[o].lockedAt.Some?
            && db.attempts[o].lockedAt.value + 120_000 < t && db.orders[o].status == OrderDelivering
         then db.orders[o].(status := OrderDeliveryFailed) else db.orders[o]
  {
  }

  ghost predicate StaleNow(w: World, o: OrderId) {
    o in w.db.attempts && w.db.attempts[o].status == JobProcessing
    && w.db.attempts[o].lockedAt.Some? && w.db.attempts[o].lockedAt.value + 120_000 < w.now + 1
  }

  /** Of the jobs released by one recovery none is claimed while an older one of them waits. */
  lemma OldestReleasedFirst(cfg: Config, w: World, acts: seq<Action>, x: OrderId, y: OrderId, i: nat)
    requires Reachable(cfg, w) && StaleNow(w, x) && StaleNow(w, y)
    requires w.db.attempts[y].createdAt < w.db.attempts[x].createdAt
    requires var w1 := Next(cfg, w, Upkeep(RecoverStale));
      var db := Run(cfg, w1, acts).db;
      Find(db.attempts, x) == Find(w1.db.attempts, x) && Find(db.attempts, y) == Find(w1.db.attempts, y)
    ensures var w2 := Run(cfg, Next(cfg, w, Upkeep(RecoverStale)), acts);
      !Enabled(w2, w2.now + 1, i, ClaimJob(x))
  {
    var w1 := Next(cfg, w, Upkeep(RecoverStale));
    ReleasedRow(cfg, w, x);
    ReleasedRow(cfg, w, y);
    TimeGoesOn(cfg, w1, acts);
    assert Consistent(Run(cfg, w1, acts).db) by { RecoveredRun(cfg, w, acts); }
    OlderIsFirst(Run(cfg, w1, acts), x, y, i);
  }

  lemma RecoveredRun(cfg: Config, w: World, acts: seq<Action>)
    requires Reachable(cfg, w)
    ensures Consistent(Run(cfg, Next(cfg, w, Upkeep(RecoverStale)), acts).db)
  {
    ReachableSafe(cfg, w);
    NextSafe(cfg, w, Upkeep(RecoverStale));
    RunSafe(cfg, Next(cfg, w, Upkeep(RecoverStale)), acts);
  }

  lemma ReleasedRow(cfg: Config, w: World, o: OrderId)
    requires Reachable(cfg, w) && StaleNow(w, o)
    ensures var w1 := Next(cfg, w, Upkeep(RecoverStale));
      && w1.now == w.now + 1
      && Find(w1.db.attempts, o) ==
         Some(w.db.attempts[o].(status := JobFailed, nextAt := Some(w.now + 1), lockedAt := None))
  {
    RecoveryExactly(cfg, w, o);
    NextUpkeep(cfg, w, RecoverStale);
  }

  lemma OlderIsFirst(w: World, x: OrderId, y: OrderId, i: nat)
    requires Consistent(w.db) && x in w.db.attempts && y in w.db.attempts
    requires w.db.attempts[x].status == JobFailed && w.db.attempts[y].status == JobFailed
    requires w.db.attempts[x].nextAt == w.db.attempts[y].nextAt && w.db.attempts[y].nextAt.Some?
    requires w.db.attempts[y].nextAt.value <= w.now && w.db.attempts[y].createdAt < w.db.attempts[x].createdAt
    ensures !Enabled(w, w.now + 1, i, ClaimJob(x))
  {
    assert OrderOk(w.db, y);
    assert Claimable(w.db, w.now + 1, y);
    if Enabled(w, w.now + 1, i, ClaimJob(x)) {
      ClaimOrder(w, i, x, y);
      assert false;
    }
  }

  lemma {:induction false} TimeGoesOn(cfg: Config, w: World, acts: seq<Action>)
    ensures Run(cfg, w, acts).now >= w.now
    decreases acts
  {
    if acts != [] {
      TimeGoesOn(cfg, Next(cfg, w, acts[0]), acts[1..]);
    }
  }

  // ----- marks, on any tables -----

  /** A delivery mark is made exactly of a job in processing whose order is delivering; else nothing changes. */
  lemma DeliveryMarkExactly(db: Db, t: Time, job: Job, p: Provider, code: string)
    ensures var (db', result) := MarkDelivered(db, t, job, p, code);
      var o := job.orderId;
      && (result == Marked <==>
            && o in db.attempts && db.attempts[o].id == job.deliveryId && db.attempts[o].status == JobProcessing
            && o in db.orders && db.orders[o].status == OrderDelivering)
      && (result == AlreadyDone <==>
            o in db.attempts && db.attempts[o].id == job.deliveryId && db.attempts[o].status == JobDelivered)
      && (result != Marked ==> db' == db)
  {
  }

  /** A failure mark is made exactly of a job in processing; its order follows if it is delivering. */
  lemma FailureMarkExactly(db: Db, t: Time, job: Job, outOfStock: bool, delay: Time)
    ensures var (db', result) := MarkFailure(db, t, job, outOfStock, delay);
      var o := job.orderId;
      && (result == Marked <==>
            o in db.attempts && db.attempts[o].id == job.deliveryId && db.attempts[o].status == JobProcessing)
      && (result != Marked ==> db' == db)
      && (result == Marked && o in db.orders ==>
            o in db'.orders &&
            if db.orders[o].status != OrderDelivering then db'.orders[o] == db.orders[o]
            else db'.orders[o] ==
                 db.orders[o].(status := if outOfStock then OrderOutOfStock else OrderDeliveryFailed))
  {
  }

  // ----- payments -----

  ghost predicate NewEvent(db: Db, e: Event) {
    forall r :: r in db.events ==> r.event.eventId != e.eventId
  }

  /** Another amount or another currency: no order, job or entry changes, on any tables. */
  lemma MismatchChangesNothing(db: Db, t: Time, e: Event)
    requires e.orderId in db.orders
    requires e.amount != db.orders[e.orderId].amount || e.currency != db.orders[e.orderId].currency
    ensures var db' := Payments.ProcessPayment(db, t, e);
      db'.orders == db.orders && db'.attempts == db.attempts && db'.ledger == db.ledger
  {
  }

  /** A report of failure after the first outcome changes no order, job or entry, on any tables. */
  lemma LateFailureChangesNothing(db: Db, t: Time, e: Event)
    requires e.orderId in db.orders && e.status == EventFailed && db.orders[e.orderId].status != OrderCreated
    ensures var db' := Payments.ProcessPayment(db, t, e);
      db'.orders == db.orders && db'.attempts == db.attempts && db'.ledger == db.ledger
  {
  }

  /** The first event with the order's amount and currency pays the order, or ends it. */
  lemma FirstEventDecides(cfg: Config, w: World, t: Time, e: Event)
    requires Reachable(cfg, w) && NewEvent(w.db, e) && e.orderId in w.db.orders
    requires w.db.orders[e.orderId].status == OrderCreated
    requires e.amount == w.db.orders[e.orderId].amount && e.currency == w.db.orders[e.orderId].currency
    ensures var db', o := Payments.ProcessPayment(w.db, t, e), e.orderId;
      var ord := w.db.orders[o];
      if e.status == EventPaid then
        && db'.orders == w.db.orders[o := ord.(status := OrderPaid, paidAt := Some(t))]
        && db'.attempts.Keys == w.db.attempts.Keys + {o}
        && db'.attempts[o].status == JobPending && db'.attempts[o].nextAt == Some(t) && db'.attempts[o].attempts == 0
        && db'.attempts[o].requestId == "req-" + o + "-1" && db'.attempts[o].createdAt == t
        && db'.ledger == w.db.ledger + [LedgerEntry(o, EntryPayment, ord.amount, ord.currency)]
      else
        && db'.orders == w.db.orders[o := ord.(status := OrderPaymentFailed)]
        && db'.attempts == w.db.attempts && db'.ledger == w.db.ledger
  {
    assert OrderOk(w.db, e.orderId) by { ReachableSafe(cfg, w); }
    assert forall i :: 0 <= i < |w.db.events| ==> w.db.events[i] in w.db.events;
  }

  /**
   * On any tables: what a new payment with the order's amount and currency does, by the status of the
   * order, its job, and its entries. A job that is missing is made, an entry that is missing is added.
   */
  lemma PaymentExactly(db: Db, t: Time, e: Event)
    requires NewEvent(db, e) && e.orderId in db.orders && e.status == EventPaid
    requires e.amount == db.orders[e.orderId].amount && e.currency == db.orders[e.orderId].currency
    ensures var db', o := Payments.ProcessPayment(db, t, e), e.orderId;
      var ord := db.orders[o];
      var s := ord.status;
      if s == OrderDelivered || s == OrderPaymentFailed then
        db'.orders == db.orders && db'.attempts == db.attempts && db'.ledger == db.ledger
      else
        && db'.orders ==
           db.orders[o := if s == OrderPaid || s == OrderDelivering then ord
                          else ord.(status := OrderPaid, paidAt := if ord.paidAt == None then Some(t) else ord.paidAt)]
        && db'.attempts ==
           db.attempts[o := if o !in db.attempts then NewAttempt(o, t)
                            else if Recoverable(db.attempts[o].status)
                            then db.attempts[o].(status := JobPending, nextAt := Some(t)) else db.attempts[o]]
        && db'.ledger == (if Count(db.ledger, o, EntryPayment) > 0 then db.ledger
                          else db.ledger + [LedgerEntry(o, EntryPayment, ord.amount, ord.currency)])
  {
    assert forall i :: 0 <= i < |db.events| ==> db.events[i] in db.events;
  }

  /** An event for an order that does not exist is stored, unprocessed, and changes nothing else. */
  lemma EarlyEventWaits(db: Db, t: Time, e: Event)
    requires e.orderId !in db.orders && NewEvent(db, e)
    ensures Payments.ProcessPayment(db, t, e) == db.(events := db.events + [EventRow(e, t, None)])
  {
  }

  // ----- the providers -----

  /** What a provider answers, for every request and any tables. */
  lemma AnswersExactly(db: Db, t: Time, p: Provider, r: Request, refuse: bool)
    ensures var result := IssueCode(db, t, p, r, refuse).1;
      var wellFormed := r.requestId != "" && r.sku != "" && r.orderId != "";
      var issued := (p, r.requestId) in db.issues;
      var free := exists k :: k in db.keys && k.provider == p && k.sku == r.sku && !k.issued;
      && (result == BadRequest <==> !wellFormed)
      && (result == Refused <==> wellFormed && !issued && refuse)
      && (result == NoStock <==> wellFormed && !issued && !refuse && !free)
      && (result.Issued? <==> wellFormed && (issued || (!refuse && free)))
  {
    if HasFree(db.keys, p, r.sku) {
      assert db.keys[FirstFree(db.keys, p, r.sku)] in db.keys;
    }
  }

  // ----- the administrator, on any tables -----

  /** Whatever the tables hold, a retry touches no delivered order and no job that is delivered or in processing. */
  lemma RetrySparesRunning(db: Db, t: Time, o: OrderId)
    ensures var (db', result) := Reconcile.RetryDelivery(db, t, o);
      && (!result.Queued? ==> db' == db)
      && (o in db.orders && db.orders[o].status == OrderDelivered ==> result == Reconcile.AlreadyDelivered)
      && (result.Queued? && o in db.attempts ==>
            db.attempts[o].status != JobDelivered && db.attempts[o].status != JobProcessing)
      && (result.Queued? ==> o in db.orders && db.orders[o].paidAt.Some? && (result.created <==> o !in db.attempts))
      && forall x :: x != o ==>
           Find(db'.orders, x) == Find(db.orders, x) && Find(db'.attempts, x) == Find(db.attempts, x)
  {
  }

  /** And what it does to the order that it queues: a job is made or due at once, and the order is paid again. */
  lemma RetryQueues(db: Db, t: Time, o: OrderId)
    requires Reconcile.RetryDelivery(db, t, o).1.Queued?
    ensures var db' := Reconcile.RetryDelivery(db, t, o).0;
      && o in db.orders && o in db'.orders && o in db'.attempts
      && if o !in db.attempts then
           db'.attempts[o] == NewAttempt(o, t) && db'.orders[o] == db.orders[o].(status := OrderPaid)
         else
           var a, s := db.attempts[o], db.orders[o].status;
           && db'.attempts[o] ==
              (if a.status == JobPending then a.(nextAt := Some(t))
               else a.(status := JobPending, nextAt := Some(t), lockedAt := None))
           && db'.orders[o] ==
              (if s == OrderPaid || s == OrderDeliveryFailed || s == OrderOutOfStock
               then db.orders[o].(status := OrderPaid) else db.orders[o])
  {
  }

  // ----- the repair -----

  predicate Recoverable(s: JobStatus) {
    s == JobFailed || s == JobOutOfStock
  }

  /** On any tables: which jobs the repair makes, and which it gives a time. */
  lemma RepairExactly(db: Db, t: Time, o: OrderId)
    requires o in db.orders
    ensures var db', ord := Reconcile.Repair(db, t), db.orders[o];
      && db'.orders == db.orders
      && if o in db.attempts then
           && o in db'.attempts
           && db'.attempts[o] ==
              if ord.paidAt.Some? && (ord.status == OrderOutOfStock || ord.status == OrderDeliveryFailed)
                 && Recoverable(db.attempts[o].status) && db.attempts[o].nextAt == None
              then db.attempts[o].(nextAt := Some(t)) else db.attempts[o]
         else
           Find(db'.attempts, o) ==
           if ord.paidAt.Some? && (ord.status == OrderPaid || ord.status == OrderOutOfStock
                                   || ord.status == OrderDeliveryFailed)
           then Some(NewAttempt(o, t)) else None
  {
  }

  /** The jobs of `lost` have lost the time of their next attempt. */
  function LoseTimes(db: Db, lost: set<OrderId>): Db {
    db.(attempts := map o | o in db.attempts ::
          if o in lost then db.attempts[o].(nextAt := None) else db.attempts[o])
  }

  /** The repair gives exactly the failed jobs among them a time again, and counts them. */
  lemma LostTimesAreRestored(cfg: Config, w: World, lost: set<OrderId>, t: Time)
    requires Reachable(cfg, w)
    ensures var db' := Reconcile.Repair(LoseTimes(w.db, lost), t);
      && db'.orders == w.db.orders && db'.attempts.Keys == w.db.attempts.Keys
      && forall o :: o in w.db.attempts ==>
           db'.attempts[o] ==
           if o !in lost then w.db.attempts[o]
           else w.db.attempts[o].(nextAt := if Recoverable(w.db.attempts[o].status) then Some(t) else None)
    ensures Reconcile.RepairCounts(LoseTimes(w.db, lost), t) ==
            (0, |set o | o in lost && o in w.db.attempts && Recoverable(w.db.attempts[o].status)|)
  {
    assert Consistent(w.db) by { ReachableSafe(cfg, w); }
    LostTimes(w.db, lost, t);
  }

  lemma LostTimes(db: Db, lost: set<OrderId>, t: Time)
    requires Consistent(db)
    ensures var db' := Reconcile.Repair(LoseTimes(db, lost), t);
      && db'.orders == db.orders && db'.attempts.Keys == db.attempts.Keys
      && forall o :: o in db.attempts ==>
           db'.attempts[o] ==
           if o !in lost then db.attempts[o]
           else db.attempts[o].(nextAt := if Recoverable(db.attempts[o].status) then Some(t) else None)
    ensures Reconcile.RepairCounts(LoseTimes(db, lost), t) ==
            (0, |set o | o in lost && o in db.attempts && Recoverable(db.attempts[o].status)|)
  {
    var damaged := LoseTimes(db, lost);
    LackingTimes(db, lost);
    assert Reconcile.CreateMissing(damaged, t).attempts == damaged.attempts;
    assert (set o | o in db.orders && Reconcile.LacksJob(damaged, o)) == {};
    assert (set o | o in db.orders && Reconcile.LacksTime(damaged, o)) ==
           (set o | o in lost && o in db.attempts && Recoverable(db.attempts[o].status));
  }

  lemma LackingTimes(db: Db, lost: set<OrderId>)
    requires Consistent(db)
    ensures var damaged := LoseTimes(db, lost);
      forall o :: o in db.orders ==>
        && !Reconcile.LacksJob(damaged, o)
        && (Reconcile.LacksTime(damaged, o) <==> o in lost && o in db.attempts && Recoverable(db.attempts[o].status))
  {
    var damaged := LoseTimes(db, lost);
    forall o | o in db.orders
      ensures !Reconcile.LacksJob(damaged, o)
      ensures Reconcile.LacksTime(damaged, o) <==>
              o in lost && o in db.attempts && Recoverable(db.attempts[o].status)
    {
      assert OrderOk(db, o);
    }
  }

  /** The jobs that a repair makes after a loss of jobs are those of paid orders that can be claimed. */
  lemma LostJobsAreCounted(cfg: Config, w: World, lost: set<OrderId>, t: Time)
    requires Reachable(cfg, w)
    ensures Reconcile.RepairCounts(w.db.(attempts := w.db.attempts - lost), t) ==
            (|set o | o in lost && o in w.db.orders &&
                (w.db.orders[o].status == OrderPaid || w.db.orders[o].status == OrderDeliveryFailed
                 || w.db.orders[o].status == OrderOutOfStock)|, 0)
  {
    assert Consistent(w.db) by { ReachableSafe(cfg, w); }
    LostJobs(w.db, lost, t);
  }

  lemma LostJobs(db: Db, lost: set<OrderId>, t: Time)
    requires Consistent(db)
    ensures Reconcile.RepairCounts(db.(attempts := db.attempts - lost), t) ==
            (|set o | o in lost && o in db.orders &&
                (db.orders[o].status == OrderPaid || db.orders[o].status == OrderDeliveryFailed
                 || db.orders[o].status == OrderOutOfStock)|, 0)
  {
    var damaged := db.(attempts := db.attempts - lost);
    var made := Reconcile.CreateMissing(damaged, t);
    forall o | o in db.orders
      ensures Reconcile.LacksJob(damaged, o) <==>
              o in lost && (db.orders[o].status == OrderPaid || db.orders[o].status == OrderDeliveryFailed
                            || db.orders[o].status == OrderOutOfStock)
      ensures !Reconcile.LacksTime(made, o)
    {
      assert OrderOk(db, o);
    }
    assert (set o | o in db.orders && Reconcile.LacksJob(damaged, o)) ==
           (set o | o in lost && o in db.orders &&
              (db.orders[o].status == OrderPaid || db.orders[o].status == OrderDeliveryFailed
               || db.orders[o].status == OrderOutOfStock));
    assert (set o | o in made.orders && Reconcile.LacksTime(made, o)) == {};
  }
}
