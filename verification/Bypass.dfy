/** Fairness of the queue: how many other jobs can be claimed before a due job is. */
module Bypass {
  import opened Prelude
  import opened Model
  import opened Queue
  import opened Providers
  import opened Status
  import opened Stock
  import opened World
  import opened Safety
  import Payments

  /** Job `j` is queued and due. */
  ghost predicate Waiting(w: World, j: OrderId) {
    && j in w.db.attempts && w.db.attempts[j].status.IsQueued()
    && w.db.attempts[j].nextAt.Some? && w.db.attempts[j].nextAt.value <= w.now
  }

  /** The queued jobs that are not behind job `j` in (next_attempt_at, created_at). */
  ghost function AheadOf(db: Db, j: OrderId): set<OrderId>
    requires j in db.attempts
  {
    set o | o in db.attempts && o != j && db.attempts[o].status.IsQueued() && !Before(db.attempts[j], db.attempts[o])
  }

  // ----- a job that is queued anew goes behind -----

  /** Every job is as it was, or out of the queue, or queued for `t` or later. */
  ghost predicate OnlyQueuedLater(db: Db, db': Db, t: Time) {
    forall o :: o in db'.attempts ==>
      || (o in db.attempts && db'.attempts[o] == db.attempts[o])
      || !db'.attempts[o].status.IsQueued()
      || (db'.attempts[o].nextAt.Some? && db'.attempts[o].nextAt.value >= t)
  }

  lemma {:induction false} ApplyAllQueuesLater(db: Db, t: Time, o: OrderId, es: seq<Event>)
    requires o in db.orders
    ensures OnlyQueuedLater(db, Payments.ApplyAll(db, t, o, es), t)
    ensures forall x :: x != o ==> Find(Payments.ApplyAll(db, t, o, es).attempts, x) == Find(db.attempts, x)
  {
    if es != [] {
      var front := Payments.ApplyAll(db, t, o, es[..|es| - 1]);
      ApplyAllQueuesLater(db, t, o, es[..|es| - 1]);
      AppliedQueuesLater(front, t, o, es[|es| - 1]);
    }
  }

  lemma AppliedQueuesLater(db: Db, t: Time, o: OrderId, e: Event)
    requires o in db.orders
    ensures OnlyQueuedLater(db, Payments.Applied(db, t, o, e), t)
    ensures forall x :: x != o ==> Find(Payments.Applied(db, t, o, e).attempts, x) == Find(db.attempts, x)
    ensures !e.status.EventPaid? ==> Payments.Applied(db, t, o, e).attempts == db.attempts
  {
  }

  lemma ShopQueuesLater(db: Db, t: Time, s: ShopAction)
    ensures OnlyQueuedLater(db, ShopDb(db, t, s), t)
  {
    match s
    case CreateOrder(o, sku) =>
      if o !in db.orders && sku in db.products {
        ApplyAllQueuesLater(Payments.InsertOrder(db, t, o, sku), t, o, Payments.Pending(db.events, o));
      }
    case Webhook(e) =>
      if e.orderId in db.orders {
        AppliedQueuesLater(db.(events := db.events + [EventRow(e, t, None)]), t, e.orderId, e);
      }
    case _ =>
  }

  lemma UpkeepQueuesLater(db: Db, t: Time, u: UpkeepAction)
    requires Consistent(db)
    ensures OnlyQueuedLater(db, UpkeepDb(db, t, u), t)
  {
    match u
    case RecoverStale =>
    case RetryOrder(o) =>
    case RepairQueue => RepairConsistent(db, t);
  }

  lemma ActQueuesLater(cfg: Config, w: World, t: Time, i: nat, act: WorkerAction)
    requires Enabled(w, t, i, act)
    ensures OnlyQueuedLater(w.db, ActDb(cfg, w, t, i, act), t)
  {
    match act
    case ClaimJob(o) =>
    case CallProvider(tr) =>
      if Arrives(tr) {
        IssueConserves(w.db, t, ProviderOf(w.workers[i].phase), RequestOf(w.workers[i].job), tr.refuse);
      }
    case MarkJob =>
    case Crash =>
  }

  // ----- what leaves the waiting job alone -----

  /** A new payment that matches its order and finds the order's job failed or out of stock. */
  predicate Requeues(db: Db, e: Event) {
    var o := e.orderId;
    && e.status.EventPaid? && !Payments.Seen(db.events, e.eventId)
    && o in db.orders && Payments.Matches(e, db.orders[o].amount, db.orders[o].currency)
    && o in db.attempts && db.attempts[o].status.IsRecoverable()
  }

  /** The administrator, or such a payment, puts job `j` at the end of the queue. */
  predicate PutsBack(db: Db, a: Action, j: OrderId) {
    a == Upkeep(RetryOrder(j)) ||
    (a.Shop? && a.shop.Webhook? && a.shop.event.orderId == j && Requeues(db, a.shop.event))
  }

  predicate Claims(w: World, a: Action) {
    a.Act? && a.act.ClaimJob? && Enabled(w, w.now + 1, a.worker, a.act)
  }

  lemma ShopSpares(db: Db, t: Time, s: ShopAction, j: OrderId)
    requires j in db.attempts && j in db.orders && !PutsBack(db, Shop(s), j)
    ensures j in ShopDb(db, t, s).attempts && ShopDb(db, t, s).attempts[j] == db.attempts[j]
  {
    match s
    case CreateOrder(o, sku) =>
      if o !in db.orders && sku in db.products {
        ApplyAllQueuesLater(Payments.InsertOrder(db, t, o, sku), t, o, Payments.Pending(db.events, o));
        assert Find(ShopDb(db, t, s).attempts, j) == Find(db.attempts, j);
      }
    case Webhook(e) =>
      if e.orderId in db.orders {
        AppliedQueuesLater(db.(events := db.events + [EventRow(e, t, None)]), t, e.orderId, e);
      }
    case _ =>
  }

  lemma UpkeepSpares(db: Db, t: Time, u: UpkeepAction, j: OrderId)
    requires Consistent(db) && j in db.attempts && db.attempts[j].status.IsQueued() && u != RetryOrder(j)
    ensures j in UpkeepDb(db, t, u).attempts && UpkeepDb(db, t, u).attempts[j] == db.attempts[j]
  {
    match u
    case RecoverStale =>
    case RetryOrder(o) =>
    case RepairQueue => RepairConsistent(db, t);
  }

  lemma ActSpares(cfg: Config, w: World, t: Time, i: nat, act: WorkerAction, j: OrderId)
    requires Enabled(w, t, i, act) && act != ClaimJob(j)
    requires j in w.db.attempts && w.db.attempts[j].status.IsQueued()
    ensures j in ActDb(cfg, w, t, i, act).attempts && ActDb(cfg, w, t, i, act).attempts[j] == w.db.attempts[j]
  {
    match act
    case ClaimJob(o) =>
    case CallProvider(tr) =>
      if Arrives(tr) {
        IssueConserves(w.db, t, ProviderOf(w.workers[i].phase), RequestOf(w.workers[i].job), tr.refuse);
      }
    case MarkJob =>
    case Crash =>
  }

  /** Job `j` stays as it is, and nothing comes in front of it. */
  ghost predicate PlaceKept(db: Db, db': Db, t: Time, j: OrderId)
    requires j in db.attempts
  {
    j in db'.attempts && db'.attempts[j] == db.attempts[j] && OnlyQueuedLater(db, db', t)
  }

  lemma ActKeepsPlace(cfg: Config, w: World, i: nat, act: WorkerAction, j: OrderId)
    requires Waiting(w, j) && Enabled(w, w.now + 1, i, act) && act != ClaimJob(j)
    ensures PlaceKept(w.db, Next(cfg, w, Act(i, act)).db, w.now + 1, j)
  {
    NextAct(cfg, w, i, act);
    ActSpares(cfg, w, w.now + 1, i, act, j);
    ActQueuesLater(cfg, w, w.now + 1, i, act);
  }

  lemma ShopKeepsPlace(db: Db, t: Time, s: ShopAction, j: OrderId)
    requires Consistent(db) && j in db.attempts && !PutsBack(db, Shop(s), j)
    ensures PlaceKept(db, ShopDb(db, t, s), t, j)
  {
    ShopSpares(db, t, s, j);
    ShopQueuesLater(db, t, s);
  }

  lemma UpkeepKeepsPlace(db: Db, t: Time, u: UpkeepAction, j: OrderId)
    requires Consistent(db) && j in db.attempts && db.attempts[j].status.IsQueued() && u != RetryOrder(j)
    ensures PlaceKept(db, UpkeepDb(db, t, u), t, j)
  {
    UpkeepSpares(db, t, u, j);
    UpkeepQueuesLater(db, t, u);
  }

  /** A step that is not its own claim leaves a waiting job in its place. */
  lemma StepKeepsPlace(cfg: Config, w: World, a: Action, j: OrderId)
    requires Consistent(w.db) && Waiting(w, j) && !PutsBack(w.db, a, j)
    requires !(Claims(w, a) && a.act.orderId == j)
    ensures PlaceKept(w.db, Next(cfg, w, a).db, w.now + 1, j)
  {
    if a.Shop? {
      NextShop(cfg, w, a.shop);
      ShopKeepsPlace(w.db, w.now + 1, a.shop, j);
    } else if a.Upkeep? {
      NextUpkeep(cfg, w, a.upkeep);
      UpkeepKeepsPlace(w.db, w.now + 1, a.upkeep, j);
    } else if a.Act? && Enabled(w, w.now + 1, a.worker, a.act) {
      ActKeepsPlace(cfg, w, a.worker, a.act, j);
    }
  }

  /** A step changes the row of a waiting job exactly if it claims the job or puts it back. */
  lemma PlaceChangesExactly(cfg: Config, w: World, a: Action, j: OrderId)
    requires Consistent(w.db) && Waiting(w, j)
    ensures Find(Next(cfg, w, a).db.attempts, j) == Some(w.db.attempts[j])
            <==> !PutsBack(w.db, a, j) && !(Claims(w, a) && a.act.orderId == j)
  {
    assert OrderOk(w.db, j);
    if Claims(w, a) && a.act.orderId == j {
      NextAct(cfg, w, a.worker, a.act);
    } else if a == Upkeep(RetryOrder(j)) {
      NextUpkeep(cfg, w, a.upkeep);
    } else if PutsBack(w.db, a, j) {
      NextShop(cfg, w, a.shop);
    } else {
      StepKeepsPlace(cfg, w, a, j);
    }
  }

  lemma AheadShrinks(db: Db, db': Db, t: Time, j: OrderId)
    requires OnlyQueuedLater(db, db', t)
    requires j in db.attempts && j in db'.attempts && db'.attempts[j] == db.attempts[j]
    requires db.attempts[j].nextAt.Some? && db.attempts[j].nextAt.value < t
    ensures AheadOf(db', j) <= AheadOf(db, j)
  {
  }

  /** A waiting job can itself be claimed, so whoever is claimed instead was ahead of it. */
  lemma OtherWasAhead(cfg: Config, w: World, a: Action, j: OrderId)
    requires Safe(cfg, w) && Waiting(w, j) && Claims(w, a) && a.act.orderId != j
    ensures a.act.orderId in AheadOf(w.db, j)
    ensures j in Next(cfg, w, a).db.attempts ==> a.act.orderId !in AheadOf(Next(cfg, w, a).db, j)
  {
    assert OrderOk(w.db, j);
    assert Claimable(w.db, w.now + 1, j);
    NextAct(cfg, w, a.worker, a.act);
  }

  /** The number of jobs ahead never grows, and every claim of another job takes one away. */
  lemma StepCountsDown(cfg: Config, w: World, a: Action, j: OrderId)
    requires Safe(cfg, w) && Waiting(w, j) && !PutsBack(w.db, a, j)
    requires !(Claims(w, a) && a.act.orderId == j)
    ensures Waiting(Next(cfg, w, a), j)
    ensures AheadOf(Next(cfg, w, a).db, j) <= AheadOf(w.db, j)
    ensures |AheadOf(Next(cfg, w, a).db, j)| + (if Claims(w, a) then 1 else 0) <= |AheadOf(w.db, j)|
  {
    StepKeepsPlace(cfg, w, a, j);
    AheadShrinks(w.db, Next(cfg, w, a).db, w.now + 1, j);
    if Claims(w, a) {
      OtherWasAhead(cfg, w, a, j);
      SubsetSize(AheadOf(Next(cfg, w, a).db, j), AheadOf(w.db, j) - {a.act.orderId});
    } else {
      SubsetSize(AheadOf(Next(cfg, w, a).db, j), AheadOf(w.db, j));
    }
  }

  /** How many other jobs are claimed in a run before job `j` is. */
  function ClaimsBefore(cfg: Config, w: World, acts: seq<Action>, j: OrderId): nat
    decreases acts
  {
    if acts == [] || (Claims(w, acts[0]) && acts[0].act.orderId == j) then 0
    else ClaimsBefore(cfg, Next(cfg, w, acts[0]), acts[1..], j) + if Claims(w, acts[0]) then 1 else 0
  }

  /** Up to its claim, if it is claimed, job `j` is not put back. */
  predicate NotPutBack(cfg: Config, w: World, acts: seq<Action>, j: OrderId)
    decreases acts
  {
    acts == [] || (Claims(w, acts[0]) && acts[0].act.orderId == j) ||
    (!PutsBack(w.db, acts[0], j) && NotPutBack(cfg, Next(cfg, w, acts[0]), acts[1..], j))
  }

  lemma {:induction false} BypassFrom(cfg: Config, w: World, acts: seq<Action>, j: OrderId)
    requires Safe(cfg, w) && Waiting(w, j) && NotPutBack(cfg, w, acts, j)
    ensures ClaimsBefore(cfg, w, acts, j) <= |AheadOf(w.db, j)|
    decreases acts
  {
    if acts != [] && !(Claims(w, acts[0]) && acts[0].act.orderId == j) {
      NextSafe(cfg, w, acts[0]);
      StepCountsDown(cfg, w, acts[0], j);
      BypassFrom(cfg, Next(cfg, w, acts[0]), acts[1..], j);
    }
  }

  /**
   * A due job that is not put back is bypassed at most as often as there were jobs ahead of it,
   * whatever happens to the others.
   */
  lemma BoundedBypass(cfg: Config, w: World, acts: seq<Action>, j: OrderId)
    requires Reachable(cfg, w) && Waiting(w, j) && NotPutBack(cfg, w, acts, j)
    ensures ClaimsBefore(cfg, w, acts, j) <= |AheadOf(w.db, j)|
  {
    ReachableSafe(cfg, w);
    BypassFrom(cfg, w, acts, j);
  }
}
