/** The promises of the store, as statements about every reachable state and every run. */
module Guarantees {
  import opened Prelude
  import opened Model
  import opened Queue
  import opened Status
  import opened Stock
  import opened History
  import opened World
  import opened Safety
  import opened Books
  import Payments
  import Providers
  import Outcome
  import Reconcile

  // ----- codes -----

  /** `k` is the key that was sold to order `o`. */
  ghost predicate SoldTo(db: Db, k: Key, o: OrderId)
    requires o in db.orders
  {
    k.issued && k.orderId == Some(o) && k.requestId == Some(RequestIdFor(o)) && k.sku == db.orders[o].sku
  }

  /**
   * A delivered order has a code; it is the code of its own issue at its own provider, and of
   * exactly one key, which is bound to this order and has this order's SKU.
   */
  lemma Provenance(cfg: Config, w: World, o: OrderId)
    requires Reachable(cfg, w) && o in w.db.orders && w.db.orders[o].status.OrderDelivered?
    ensures o in w.db.attempts && w.db.attempts[o].code.Some? && w.db.attempts[o].provider.Some?
    ensures Sourced(w.db, w.db.attempts[o].provider.value, RequestIdFor(o), w.db.attempts[o].code.value)
    ensures exists i ::
      && 0 <= i < |w.db.keys| && SoldTo(w.db, w.db.keys[i], o)
      && w.db.keys[i].code == w.db.attempts[o].code.value
      && w.db.keys[i].provider == w.db.attempts[o].provider.value
      && (forall j :: 0 <= j < |w.db.keys| && w.db.keys[j].code == w.db.keys[i].code ==> j == i)
  {
    ReachableSafe(cfg, w);
    assert OrderOk(w.db, o);
    var a := w.db.attempts[o];
    IssueBelongs(w.db, a.provider.value, o);
    OneKeyPerIssue(w.db.keys, w.db.issues, a.provider.value, a.requestId);
    var row := w.db.issues[(a.provider.value, a.requestId)];
    var i :| 0 <= i < |w.db.keys| && Backs(w.db.keys[i], a.provider.value, a.requestId, row);
    assert SoldTo(w.db, w.db.keys[i], o);
  }

  /** The issue under the request id of an order was made for that order. */
  lemma IssueBelongs(db: Db, p: Provider, o: OrderId)
    requires IssuesOk(db) && (p, RequestIdFor(o)) in db.issues
    ensures db.issues[(p, RequestIdFor(o))].orderId == o && o in db.orders
    ensures db.issues[(p, RequestIdFor(o))].sku == db.orders[o].sku
  {
    assert IssueOk(db.orders, RequestIdFor(o), db.issues[(p, RequestIdFor(o))]);
    RequestIdInjective(o, db.issues[(p, RequestIdFor(o))].orderId);
  }

  /** No key is ever issued for an order that is not paid, or for another product than the order's. */
  lemma NoKeyForUnpaid(cfg: Config, w: World, i: nat)
    requires Reachable(cfg, w) && i < |w.db.keys| && w.db.keys[i].issued
    ensures w.db.keys[i].orderId.Some? && w.db.keys[i].orderId.value in w.db.orders
    ensures w.db.orders[w.db.keys[i].orderId.value].paidAt.Some?
    ensures w.db.orders[w.db.keys[i].orderId.value].sku == w.db.keys[i].sku
  {
    ReachableSafe(cfg, w);
    assert KeyOk(w.db.keys[i], w.db.issues);
    var k := w.db.keys[i];
    assert IssueOk(w.db.orders, k.requestId.value, w.db.issues[(k.provider, k.requestId.value)]);
  }

  /** Whatever happens after an issue, a repeat of its request gets the same code and changes nothing. */
  lemma SameCodeForever(
    cfg: Config, w: World, acts: seq<Action>, t: Time, p: Provider, r: Providers.Request, refuse: bool)
    requires Reachable(cfg, w) && Providers.WellFormed(r) && (p, r.requestId) in w.db.issues
    ensures var db := Run(cfg, w, acts).db;
      Providers.IssueCode(db, t, p, r, refuse) == (db, Providers.Issued(w.db.issues[(p, r.requestId)].code))
  {
    ReachableSafe(cfg, w);
    RunSafe(cfg, w, acts);
  }

  /** No two orders ever hold the same code. */
  lemma NoSharedCode(cfg: Config, w: World, o: OrderId, x: OrderId)
    requires Reachable(cfg, w)
    requires o in w.db.attempts && w.db.attempts[o].code.Some?
    requires x in w.db.attempts && w.db.attempts[x].code == w.db.attempts[o].code
    ensures x == o
  {
    CodeIsSold(cfg, w, o);
    CodeIsSold(cfg, w, x);
  }

  /** The key with the code of a job is sold to the job's order. */
  lemma CodeIsSold(cfg: Config, w: World, o: OrderId)
    requires Reachable(cfg, w) && o in w.db.attempts && w.db.attempts[o].code.Some?
    ensures o in w.db.orders
    ensures exists i :: 0 <= i < |w.db.keys| && w.db.keys[i].code == w.db.attempts[o].code.value
    ensures forall i :: 0 <= i < |w.db.keys| && w.db.keys[i].code == w.db.attempts[o].code.value ==>
              w.db.keys[i].orderId == Some(o)
  {
    assert o in w.db.orders && w.db.orders[o].status.OrderDelivered? by {
      ReachableSafe(cfg, w);
      assert OrderOk(w.db, o);
    }
    Provenance(cfg, w, o);
  }

  /** An order uses at most one key of each provider, and issue rows match issued keys one to one. */
  lemma KeyConservation(cfg: Config, w: World)
    requires Reachable(cfg, w)
    ensures |IssuedKeys(w.db.keys)| == |w.db.issues|
    ensures forall i, j ::
      0 <= i < |w.db.keys| && 0 <= j < |w.db.keys| && w.db.keys[i].issued && w.db.keys[j].issued
      && w.db.keys[i].provider == w.db.keys[j].provider && w.db.keys[i].orderId == w.db.keys[j].orderId
      ==> i == j
    ensures forall p, r :: (p, r) in w.db.issues ==> HasKey(w.db.keys, p, r, w.db.issues[(p, r)])
  {
    ReachableSafe(cfg, w);
    IssuedKeysMatchIssues(w.db.keys, w.db.issues);
    forall i, j | 0 <= i < |w.db.keys| && 0 <= j < |w.db.keys| && w.db.keys[i].issued && w.db.keys[j].issued
      && w.db.keys[i].provider == w.db.keys[j].provider && w.db.keys[i].orderId == w.db.keys[j].orderId
      ensures i == j
    {
      OneKeyPerProvider(w.db, i, j);
    }
  }

  // ----- statuses -----

  /** Orders and jobs correspond in every reachable state, whatever zombies have marked. */
  lemma StatusCorrespondence(cfg: Config, w: World, o: OrderId)
    requires Reachable(cfg, w) && o in w.db.orders
    ensures JobFor(w.db.orders[o].status) ==
            if o in w.db.attempts then Some(w.db.attempts[o].status) else None
    ensures o in w.db.attempts ==> (w.db.attempts[o].lockedAt.Some? <==> w.db.attempts[o].status.JobProcessing?)
    ensures w.db.orders[o].paidAt.Some? <==> o in w.db.attempts
    ensures w.db.orders[o].deliveredAt.Some? <==> w.db.orders[o].status.OrderDelivered?
  {
    ReachableSafe(cfg, w);
    assert OrderOk(w.db, o);
  }

  /** The statuses with which an order can be born. */
  predicate BirthStatus(s: OrderStatus) {
    s.OrderCreated? || s.OrderPaid? || s.OrderPaymentFailed?
  }

  lemma {:induction false} ApplyAllBirth(db: Db, now: Time, o: OrderId, es: seq<Event>)
    requires o in db.orders && BirthStatus(db.orders[o].status)
    ensures BirthStatus(Payments.ApplyAll(db, now, o, es).orders[o].status)
    ensures Payments.ApplyAll(db, now, o, es).orders.Keys == db.orders.Keys
  {
    if es != [] {
      ApplyAllBirth(db, now, o, es[..|es| - 1]);
    }
  }

  lemma ShopBirth(db: Db, t: Time, s: ShopAction, o: OrderId)
    requires o !in db.orders && o in ShopDb(db, t, s).orders
    ensures BirthStatus(ShopDb(db, t, s).orders[o].status)
  {
    if s.CreateOrder? && s.sku in db.products {
      var inserted := Payments.InsertOrder(db, t, s.orderId, s.sku);
      ApplyAllBirth(inserted, t, s.orderId, Payments.Pending(db.events, s.orderId));
    }
  }

  /** The status of an order after a run, if the order exists by then. */
  function StatusAfter(cfg: Config, w: World, acts: seq<Action>, o: OrderId): Option<OrderStatus> {
    var db := Run(cfg, w, acts).db;
    if o in db.orders then Some(db.orders[o].status) else None
  }

  /** One move in the life of an order: it stays, it is born, or it follows an edge. */
  predicate Move(a: Option<OrderStatus>, b: Option<OrderStatus>) {
    b == a || (b.Some? && if a.None? then BirthStatus(b.value) else Edge(a.value, b.value))
  }

  lemma NextMove(cfg: Config, w: World, a: Action, o: OrderId)
    requires Safe(cfg, w)
    ensures Move(StatusAfter(cfg, w, [], o), StatusAfter(cfg, w, [a], o))
  {
    RunOne(cfg, w, a);
    NextLater(cfg, w, a);
    if o in w.db.orders {
      assert OrderLater(w.db.orders[o], Next(cfg, w, a).db.orders[o]);
    } else {
      NextBirth(cfg, w, a, o);
    }
  }

  lemma NextBirth(cfg: Config, w: World, a: Action, o: OrderId)
    requires Safe(cfg, w) && o !in w.db.orders
    ensures o in Next(cfg, w, a).db.orders ==> BirthStatus(Next(cfg, w, a).db.orders[o].status)
  {
    match a
    case Wait(_) =>
    case Shop(s) =>
      NextShop(cfg, w, s);
      if o in ShopDb(w.db, w.now + 1, s).orders {
        ShopBirth(w.db, w.now + 1, s, o);
      }
    case Upkeep(u) =>
      NextUpkeep(cfg, w, u);
      UpkeepOutcomes(w.db, w.now + 1, u);
    case Act(i, act) =>
      if Enabled(w, w.now + 1, i, act) {
        NextAct(cfg, w, i, act);
        ActOutcomes(cfg, w, w.now + 1, i, act);
      }
  }

  /** The history of every order is a path in the life cycle. */
  lemma HistoryIsPath(cfg: Config, acts: seq<Action>, k: nat, o: OrderId)
    requires k < |acts|
    ensures Move(StatusAfter(cfg, START, acts[..k], o), StatusAfter(cfg, START, acts[..k + 1], o))
  {
    var w := Run(cfg, START, acts[..k]);
    SafeStart(cfg);
    RunSafe(cfg, START, acts[..k]);
    assert acts[..k + 1] == acts[..k] + [acts[k]];
    RunAppend(cfg, START, acts[..k], [acts[k]]);
    NextMove(cfg, w, acts[k], o);
  }

  /**
   * Between any two points of a run: final statuses are absorbing; the time of payment, the time of
   * delivery, the code and the provider never change once set; no ledger entry, key or issue is lost.
   */
  lemma NothingIsRevoked(cfg: Config, acts: seq<Action>, j: nat, k: nat)
    requires j <= k <= |acts|
    ensures Later(Run(cfg, START, acts[..j]).db, Run(cfg, START, acts[..k]).db)
  {
    SafeStart(cfg);
    RunSafe(cfg, START, acts[..j]);
    assert acts[..k] == acts[..j] + acts[j..k];
    RunAppend(cfg, START, acts[..j], acts[j..k]);
    RunSafe(cfg, Run(cfg, START, acts[..j]), acts[j..k]);
  }

  // ----- payments -----

  /** The first event that matches an order's price decides its payment, whenever the order was created. */
  lemma FirstMatchDecides(cfg: Config, w: World, o: OrderId)
    requires Reachable(cfg, w) && o in w.db.orders
    ensures var ord := w.db.orders[o];
      var first := Payments.FirstMatch(Payments.EventsOf(w.db.events, o), ord.amount, ord.currency);
      && (first.None? <==> ord.status.OrderCreated?)
      && (first == Some(EventFailed) <==> ord.status.OrderPaymentFailed?)
      && (first == Some(EventPaid) <==> ord.paidAt.Some?)
  {
    ReachableSafe(cfg, w);
    assert OrderOk(w.db, o);
    assert Payments.Decided(w.db.orders[o], Payments.EventsOf(w.db.events, o));
  }

  /**
   * Every event id is stored once, and an event is processed exactly when its order exists, whether
   * it came before its order or after it, and whether or not it matched.
   */
  lemma NoEventIsForgotten(cfg: Config, w: World, i: nat, j: nat)
    requires Reachable(cfg, w) && i < |w.db.events| && j < |w.db.events|
    ensures w.db.events[i].processedAt.Some? <==> w.db.events[i].event.orderId in w.db.orders
    ensures w.db.events[i].event.eventId == w.db.events[j].event.eventId ==> i == j
    ensures i < j ==> w.db.events[i].receivedAt < w.db.events[j].receivedAt
  {
    ReachableSafe(cfg, w);
  }

  /** Behind every paid order stands a processed paid event for its amount and currency. */
  lemma PaidIsBacked(cfg: Config, w: World, o: OrderId)
    requires Reachable(cfg, w) && o in w.db.orders && w.db.orders[o].paidAt.Some?
    ensures exists i ::
      && 0 <= i < |w.db.events| && w.db.events[i].processedAt.Some?
      && w.db.events[i].event.orderId == o && w.db.events[i].event.status.EventPaid?
      && w.db.events[i].event.amount == w.db.orders[o].amount
      && w.db.events[i].event.currency == w.db.orders[o].currency
  {
    ReachableSafe(cfg, w);
    FirstMatchDecides(cfg, w, o);
    var es := Payments.EventsOf(w.db.events, o);
    Outcome.FirstMatchWitness(es, w.db.orders[o].amount, w.db.orders[o].currency);
    var e :| e in es && Payments.Matches(e, w.db.orders[o].amount, w.db.orders[o].currency) && e.status.EventPaid?;
    Outcome.EventsOfOrigin(w.db.events, o, e);
  }

  /** A webhook whose event id has been seen changes nothing, even if its other fields differ. */
  lemma ReplayChangesNothing(db: Db, t1: Time, t2: Time, e: Event, e': Event)
    requires e'.eventId == e.eventId
    ensures Payments.ProcessPayment(Payments.ProcessPayment(db, t1, e), t2, e') == Payments.ProcessPayment(db, t1, e)
  {
    var once := Payments.ProcessPayment(db, t1, e);
    if !Payments.Seen(db.events, e.eventId) {
      var stored := db.(events := db.events + [EventRow(e, t1, None)]);
      assert stored.events[|db.events|].event == e;
      if e.orderId in db.orders {
        Outcome.ApplyDecides(stored, t1, e.orderId, e);
        assert once.events[|db.events|].event == e;
      }
    }
  }

  // ----- the ledger -----

  /** In every reachable state the books balance. */
  lemma LedgerConservation(cfg: Config, w: World)
    requires Reachable(cfg, w)
    ensures Amounts(w.db.ledger, EntryPayment) == SumOver(PaidOrders(w.db), AmountsOf(w.db.orders))
    ensures Entries(w.db.ledger, EntryPayment) == |PaidOrders(w.db)|
    ensures Entries(w.db.ledger, EntryDelivery) == |DeliveredOrders(w.db)|
    ensures forall o :: Count(w.db.ledger, o, EntryPayment) == if o in PaidOrders(w.db) then 1 else 0
    ensures forall o :: Count(w.db.ledger, o, EntryDelivery) == if o in DeliveredOrders(w.db) then 1 else 0
  {
    ReachableSafe(cfg, w);
    BooksBalance(w.db);
  }

  // ----- the repair -----

  /** On a reachable state the repair changes nothing and reports nothing. */
  lemma RepairFindsNothing(cfg: Config, w: World, now: Time)
    requires Reachable(cfg, w)
    ensures Reconcile.Repair(w.db, now) == w.db
    ensures Reconcile.RepairCounts(w.db, now) == (0, 0)
  {
    ReachableSafe(cfg, w);
    RepairConsistent(w.db, now);
  }

  lemma RepairRestores(db: Db, lost: set<OrderId>, now: Time, o: OrderId)
    requires Consistent(db)
    requires o in lost && o in db.orders && db.orders[o].paidAt.Some? && !db.orders[o].status.OrderDelivered?
    ensures var repaired := Reconcile.Repair(db.(attempts := db.attempts - lost), now);
      && (o in repaired.attempts <==> !db.orders[o].status.OrderDelivering?)
      && (o in repaired.attempts ==>
            Claimable(repaired, now, o) && repaired.attempts[o].requestId == RequestIdFor(o))
  {
    assert OrderOk(db, o);
    var damaged := db.(attempts := db.attempts - lost);
    assert o !in damaged.attempts;
    var made := Reconcile.CreateMissing(damaged, now);
    assert o in made.attempts <==> Reconcile.LacksJob(damaged, o);
  }

  /** Jobs that were not lost stay as they were. */
  lemma RepairSpares(db: Db, lost: set<OrderId>, now: Time)
    requires Consistent(db)
    ensures forall x :: x !in lost ==>
      Find(Reconcile.Repair(db.(attempts := db.attempts - lost), now).attempts, x) == Find(db.attempts, x)
  {
    var damaged := db.(attempts := db.attempts - lost);
    var made := Reconcile.CreateMissing(damaged, now);
    forall x | x !in lost
      ensures Find(Reconcile.Repair(damaged, now).attempts, x) == Find(db.attempts, x)
    {
      assert x in db.orders ==> OrderOk(db, x);
      assert Find(made.attempts, x) == Find(db.attempts, x);
    }
  }

  lemma RetryRestores(db: Db, lost: set<OrderId>, now: Time, o: OrderId)
    requires Consistent(db)
    requires o in lost && o in db.orders && db.orders[o].paidAt.Some? && !db.orders[o].status.OrderDelivered?
    ensures var (retried, result) := Reconcile.RetryDelivery(db.(attempts := db.attempts - lost), now, o);
      && result == Reconcile.Queued(true)
      && Claimable(retried, now, o) && retried.attempts[o].requestId == RequestIdFor(o)
  {
    assert OrderOk(db, o);
  }

  /**
   * After any loss of job rows, the repair gives a paid, undelivered order a claimable job with the
   * same request id exactly when the order is not in `delivering`; the retry of the administrator
   * does so for those too.
   */
  lemma LostJobsAreRestored(cfg: Config, w: World, lost: set<OrderId>, now: Time, o: OrderId)
    requires Reachable(cfg, w)
    requires o in lost && o in w.db.orders && w.db.orders[o].paidAt.Some? && !w.db.orders[o].status.OrderDelivered?
    ensures var repaired := Reconcile.Repair(w.db.(attempts := w.db.attempts - lost), now);
      && (o in repaired.attempts <==> !w.db.orders[o].status.OrderDelivering?)
      && (o in repaired.attempts ==>
            Claimable(repaired, now, o) && repaired.attempts[o].requestId == RequestIdFor(o))
    ensures forall x :: x !in lost ==>
      Find(Reconcile.Repair(w.db.(attempts := w.db.attempts - lost), now).attempts, x) == Find(w.db.attempts, x)
    ensures var (retried, result) := Reconcile.RetryDelivery(w.db.(attempts := w.db.attempts - lost), now, o);
      && result == Reconcile.Queued(true)
      && Claimable(retried, now, o) && retried.attempts[o].requestId == RequestIdFor(o)
  {
    ReachableSafe(cfg, w);
    RepairRestores(w.db, lost, now, o);
    RepairSpares(w.db, lost, now);
    RetryRestores(w.db, lost, now, o);
  }

  // ----- single transactions -----

  /**
   * An order is created exactly when the product is on sale and the id is new. It takes the terms of
   * the product at that moment; otherwise nothing changes.
   */
  lemma CreateTerms(db: Db, now: Time, o: OrderId, sku: string)
    ensures var (db', result) := Payments.Create(db, now, o, sku);
      && (result.Created? <==> sku in db.products && db.products[sku].active && o !in db.orders)
      && (result.Created? ==>
            && o in db'.orders && db'.orders[o] == result.order && db'.orders.Keys == db.orders.Keys + {o}
            && result.order.sku == sku && result.order.createdAt == now
            && result.order.amount == db.products[sku].price && result.order.currency == db.products[sku].currency)
      && (!result.Created? ==> db' == db)
      && (result.ProductNotFound? <==> !(sku in db.products && db.products[sku].active))
  {
    if sku in db.products && db.products[sku].active && o !in db.orders {
      var inserted := Payments.InsertOrder(db, now, o, sku);
      var es := Payments.Pending(db.events, o);
      ApplyAllLater(inserted, now, o, es);
      Outcome.ApplyAllDecides(inserted, now, o, es);
      assert OrderLater(inserted.orders[o], Payments.ApplyAll(inserted, now, o, es).orders[o]);
    }
  }

  /** Once an order is paid, nothing that follows changes its time of payment, its job row or its one payment entry. */
  lemma PaidOnce(cfg: Config, w: World, acts: seq<Action>, o: OrderId)
    requires Reachable(cfg, w) && o in w.db.orders && w.db.orders[o].paidAt.Some?
    ensures var db := Run(cfg, w, acts).db;
      && o in db.orders && db.orders[o].paidAt == w.db.orders[o].paidAt
      && o in db.attempts && o in w.db.attempts && db.attempts[o].id == w.db.attempts[o].id
      && db.attempts[o].requestId == RequestIdFor(o)
      && Count(db.ledger, o, EntryPayment) == 1
  {
    ReachableSafe(cfg, w);
    RunSafe(cfg, w, acts);
    var db := Run(cfg, w, acts).db;
    assert OrderOk(w.db, o);
    assert OrderLater(w.db.orders[o], db.orders[o]);
    assert JobLater(w.db.attempts[o], db.attempts[o]);
    assert OrderOk(db, o);
  }

  /**
   * A further payment of a paid order adds nothing to the ledger. It puts a failed job back into the
   * queue, due at once and with its request id, and leaves every other job and order as it was.
   */
  lemma FurtherPaymentRequeues(cfg: Config, w: World, t: Time, e: Event)
    requires Reachable(cfg, w) && !Payments.Seen(w.db.events, e.eventId)
    requires e.orderId in w.db.orders && w.db.orders[e.orderId].paidAt.Some?
    requires e.status.EventPaid? && Payments.Matches(e, w.db.orders[e.orderId].amount, w.db.orders[e.orderId].currency)
    ensures var db' := Payments.ProcessPayment(w.db, t, e);
      var o := e.orderId;
      && db'.ledger == w.db.ledger
      && o in w.db.attempts && o in db'.attempts
      && (w.db.orders[o].status.IsRecoverable() ==>
            && Claimable(db', t, o)
            && db'.orders == w.db.orders[o := w.db.orders[o].(status := OrderPaid)]
            && db'.attempts == w.db.attempts[o := w.db.attempts[o].(status := JobPending, nextAt := Some(t))])
      && (!w.db.orders[o].status.IsRecoverable() ==> db'.orders == w.db.orders && db'.attempts == w.db.attempts)
  {
    assert OrderOk(w.db, e.orderId) by { ReachableSafe(cfg, w); }
  }

  /** Once an order is delivered, nothing that follows changes its row, its job or its ledger entries. */
  lemma DeliveryStands(cfg: Config, w: World, acts: seq<Action>, o: OrderId)
    requires Reachable(cfg, w) && o in w.db.orders && w.db.orders[o].status.OrderDelivered?
    ensures var db := Run(cfg, w, acts).db;
      && Find(db.orders, o) == Some(w.db.orders[o]) && Find(db.attempts, o) == Find(w.db.attempts, o)
      && Count(db.ledger, o, EntryPayment) == Count(w.db.ledger, o, EntryPayment) == 1
      && Count(db.ledger, o, EntryDelivery) == Count(w.db.ledger, o, EntryDelivery) == 1
  {
    assert Safe(cfg, w) by { ReachableSafe(cfg, w); }
    RunSafe(cfg, w, acts);
    DeliveredRow(w.db, Run(cfg, w, acts).db, o);
  }

  lemma DeliveredRow(a: Db, b: Db, o: OrderId)
    requires Consistent(a) && Consistent(b) && Later(a, b) && o in a.orders && a.orders[o].status.OrderDelivered?
    ensures Find(b.orders, o) == Some(a.orders[o]) && Find(b.attempts, o) == Find(a.attempts, o)
    ensures Count(b.ledger, o, EntryPayment) == Count(a.ledger, o, EntryPayment) == 1
    ensures Count(b.ledger, o, EntryDelivery) == Count(a.ledger, o, EntryDelivery) == 1
  {
    assert OrderOk(a, o);
    assert OrderLater(a.orders[o], b.orders[o]);
    assert JobLater(a.attempts[o], b.attempts[o]);
    assert OrderOk(b, o);
  }

  /** A failed job can be claimed again exactly from the end of its delay on. */
  lemma DelayIsHeld(db: Db, now: Time, job: Job, outOfStock: bool, delay: Time, t: Time)
    requires Consistent(db) && MarkFailure(db, now, job, outOfStock, delay).1 == Marked
    ensures Claimable(MarkFailure(db, now, job, outOfStock, delay).0, t, job.orderId) <==> t >= now + delay
    ensures MarkFailure(db, now, job, outOfStock, delay).0.orders[job.orderId].status ==
            if outOfStock then OrderOutOfStock else OrderDeliveryFailed
  {
    assert OrderOk(db, job.orderId);
  }

  /** What the administrator's retry answers depends on the status alone; a queued job is due at once. */
  lemma RetryByStatus(cfg: Config, w: World, now: Time, o: OrderId)
    requires Reachable(cfg, w)
    ensures var (db', result) := Reconcile.RetryDelivery(w.db, now, o);
      && (result == Reconcile.OrderNotFound <==> o !in w.db.orders)
      && (o in w.db.orders ==>
            var s := w.db.orders[o].status;
            && (result == Reconcile.AlreadyDelivered <==> s.OrderDelivered?)
            && (result == Reconcile.OrderNotPaid <==> s.OrderCreated? || s.OrderPaymentFailed?)
            && (result == Reconcile.DeliveryRunning <==> s.OrderDelivering?)
            && (result == Reconcile.Queued(false) <==> s.IsClaimable())
            && (s.IsClaimable() ==> Claimable(db', now, o))
            && (!s.IsClaimable() ==> db' == w.db))
  {
    if o in w.db.orders {
      assert OrderOk(w.db, o) by { ReachableSafe(cfg, w); }
    }
  }
}
