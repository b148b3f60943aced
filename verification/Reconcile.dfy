/** The administrator's transactions: retrying one order, and repairing the queue. */
module Reconcile {
  import opened Prelude
  import opened Model

  datatype RetryResult = Queued(created: bool) | AlreadyDelivered | OrderNotFound | OrderNotPaid | DeliveryRunning

  function RetryDelivery(db: Db, now: Time, o: OrderId): (Db, RetryResult) {
    if o !in db.orders then (db, OrderNotFound)
    else
      var ord := db.orders[o];
      if ord.status.OrderDelivered? then (db, AlreadyDelivered)
      else if ord.paidAt.None? || ord.status.OrderCreated? || ord.status.OrderPaymentFailed? then (db, OrderNotPaid)
      else if o !in db.attempts then
        var done := db.(
          attempts := db.attempts[o := NewAttempt(o, now)],
          orders := db.orders[o := ord.(status := OrderPaid)]);
        (done, Queued(true))
      else
        var a := db.attempts[o];
        if a.status.JobDelivered? then (db, AlreadyDelivered)
        else if a.status.JobProcessing? then (db, DeliveryRunning)
        else
          var a' := if a.status.JobPending? then a.(nextAt := Some(now))
                    else a.(status := JobPending, nextAt := Some(now), lockedAt := None);
          var done := db.(
            attempts := db.attempts[o := a'],
            orders := if ord.status.IsClaimable() then db.orders[o := ord.(status := OrderPaid)] else db.orders);
          (done, Queued(false))
  }

  /** A paid order without a job that the repair gives one. */
  predicate LacksJob(db: Db, o: OrderId) {
    o in db.orders && db.orders[o].paidAt.Some? && db.orders[o].status.IsClaimable() && o !in db.attempts
  }

  /** A recoverable job that has no time for its next attempt. */
  predicate LacksTime(db: Db, o: OrderId) {
    && o in db.orders && db.orders[o].paidAt.Some? && db.orders[o].status.IsRecoverable()
    && o in db.attempts && db.attempts[o].status.IsRecoverable() && db.attempts[o].nextAt.None?
  }

  function CreateMissing(db: Db, now: Time): Db {
    db.(attempts := map o | o in db.attempts.Keys + db.orders.Keys && (o in db.attempts || LacksJob(db, o)) ::
          if o in db.attempts then db.attempts[o] else NewAttempt(o, now))
  }

  function QueueRecoverable(db: Db, now: Time): Db {
    db.(attempts := map o | o in db.attempts ::
          if LacksTime(db, o) then db.attempts[o].(nextAt := Some(now)) else db.attempts[o])
  }

  function Repair(db: Db, now: Time): Db {
    QueueRecoverable(CreateMissing(db, now), now)
  }

  /** How many rows the two statements of a repair affect. */
  function RepairCounts(db: Db, now: Time): (nat, nat) {
    var created := CreateMissing(db, now);
    (|set o | o in db.orders && LacksJob(db, o)|, |set o | o in created.orders && LacksTime(created, o)|)
  }

  /** Whatever the tables hold, a second repair finds nothing to do. */
  lemma RepairIdempotent(db: Db, t1: Time, t2: Time)
    ensures Repair(Repair(db, t1), t2) == Repair(db, t1)
    ensures RepairCounts(Repair(db, t1), t2) == (0, 0)
  {
    var once := Repair(db, t1);
    NothingToRepair(once, t2);
  }

  /** A repair leaves the tables alone exactly when no order lacks a job or a time for it. */
  lemma NothingToRepair(db: Db, now: Time)
    ensures (Repair(db, now) == db) <==> (forall o :: o in db.orders ==> !LacksJob(db, o) && !LacksTime(db, o))
    ensures Repair(db, now) == db ==> RepairCounts(db, now) == (0, 0)
  {
    var made := CreateMissing(db, now);
    if forall o :: o in db.orders ==> !LacksJob(db, o) && !LacksTime(db, o) {
      assert made.attempts == db.attempts;
      assert Repair(db, now).attempts == db.attempts;
      assert (set o | o in db.orders && LacksJob(db, o)) == {};
      assert (set o | o in made.orders && LacksTime(made, o)) == {};
    } else {
      var o :| o in db.orders && (LacksJob(db, o) || LacksTime(db, o));
      if LacksJob(db, o) {
        assert o in Repair(db, now).attempts;
      } else {
        assert made.attempts[o] == db.attempts[o];
        assert Repair(db, now).attempts[o].nextAt.Some?;
      }
    }
  }
}
