/** Times are the times of the steps that set them, and a job counts its claims. */
module Stamps {
  import opened Prelude
  import opened Model
  import opened Providers
  import opened Status
  import opened Stock
  import opened World
  import opened Safety
  import opened Bypass
  import Payments

  /** A time was set before and stays, or it is set now, or it is not set. */
  predicate Stamped(before: Option<Time>, after: Option<Time>, t: Time) {
    after == before || (before.None? && after == Some(t))
  }

  function PaidAt(db: Db, o: OrderId): Option<Time> {
    if o in db.orders then db.orders[o].paidAt else None
  }

  function DeliveredAt(db: Db, o: OrderId): Option<Time> {
    if o in db.orders then db.orders[o].deliveredAt else None
  }

  ghost predicate StampsOk(db: Db, db': Db, t: Time) {
    forall o :: Stamped(PaidAt(db, o), PaidAt(db', o), t) && Stamped(DeliveredAt(db, o), DeliveredAt(db', o), t)
  }

  lemma {:induction false} ApplyAllStamps(db: Db, t: Time, o: OrderId, es: seq<Event>)
    requires o in db.orders
    ensures StampsOk(db, Payments.ApplyAll(db, t, o, es), t)
    decreases es
  {
    if es != [] {
      var front := Payments.ApplyAll(db, t, o, es[..|es| - 1]);
      ApplyAllStamps(db, t, o, es[..|es| - 1]);
      ApplyStamps(front, t, o, es[|es| - 1]);
    }
  }

  lemma ApplyStamps(db: Db, t: Time, o: OrderId, e: Event)
    requires o in db.orders
    ensures StampsOk(db, Payments.ApplyPayment(db, t, o, e), t)
  {
  }

  lemma ShopStamps(db: Db, t: Time, s: ShopAction)
    ensures StampsOk(db, ShopDb(db, t, s), t)
  {
    match s
    case CreateOrder(o, sku) =>
      if o !in db.orders && sku in db.products {
        ApplyAllStamps(Payments.InsertOrder(db, t, o, sku), t, o, Payments.Pending(db.events, o));
      }
    case Webhook(e) =>
      if e.orderId in db.orders {
        ApplyStamps(db.(events := db.events + [EventRow(e, t, None)]), t, e.orderId, e);
      }
    case _ =>
  }

  lemma UpkeepStamps(db: Db, t: Time, u: UpkeepAction)
    ensures StampsOk(db, UpkeepDb(db, t, u), t)
  {
  }

  lemma ActStamps(cfg: Config, w: World, t: Time, i: nat, act: WorkerAction)
    requires Enabled(w, t, i, act)
    ensures StampsOk(w.db, ActDb(cfg, w, t, i, act), t)
  {
    if act.CallProvider? && Arrives(act.transit) {
      IssueConserves(w.db, t, ProviderOf(w.workers[i].phase), RequestOf(w.workers[i].job), act.transit.refuse);
    }
  }

  /** The time of payment and the time of delivery are those of the step that set them. */
  lemma TimesAreOfTheirSteps(cfg: Config, w: World, a: Action)
    ensures StampsOk(w.db, Next(cfg, w, a).db, Next(cfg, w, a).now)
  {
    if a.Shop? {
      NextShop(cfg, w, a.shop);
      ShopStamps(w.db, w.now + 1, a.shop);
    } else if a.Upkeep? {
      NextUpkeep(cfg, w, a.upkeep);
      UpkeepStamps(w.db, w.now + 1, a.upkeep);
    } else if a.Act? && Enabled(w, w.now + 1, a.worker, a.act) {
      NextAct(cfg, w, a.worker, a.act);
      ActStamps(cfg, w, w.now + 1, a.worker, a.act);
    }
  }

  /** Events are received, and processed, at the times of the steps that do it. */
  lemma EventTimes(cfg: Config, w: World, a: Action, i: nat)
    requires i < |Next(cfg, w, a).db.events|
    ensures var w' := Next(cfg, w, a);
      if i < |w.db.events| then
        && w'.db.events[i].receivedAt == w.db.events[i].receivedAt
        && (w'.db.events[i].processedAt == w.db.events[i].processedAt || w'.db.events[i].processedAt == Some(w'.now))
      else
        && w'.db.events[i].receivedAt == w'.now
        && (w'.db.events[i].processedAt == None || w'.db.events[i].processedAt == Some(w'.now))
  {
    match a
    case Wait(_) =>
    case Shop(s) =>
      NextShop(cfg, w, s);
      ShopEventTimes(w.db, w.now + 1, s, i);
    case Upkeep(u) => NextUpkeep(cfg, w, u);
    case Act(j, act) =>
      if Enabled(w, w.now + 1, j, act) {
        NextAct(cfg, w, j, act);
        assert ActDb(cfg, w, w.now + 1, j, act).events == w.db.events by { ActOutcomes(cfg, w, w.now + 1, j, act); }
      }
  }

  lemma {:induction false} ApplyAllEventTimes(db: Db, t: Time, o: OrderId, es: seq<Event>)
    requires o in db.orders
    ensures var events := Payments.ApplyAll(db, t, o, es).events;
      && |events| == |db.events|
      && forall i :: 0 <= i < |events| ==>
           && events[i].receivedAt == db.events[i].receivedAt
           && (events[i].processedAt == db.events[i].processedAt || events[i].processedAt == Some(t))
    decreases es
  {
    if es != [] {
      ApplyAllEventTimes(db, t, o, es[..|es| - 1]);
    }
  }

  lemma ShopEventTimes(db: Db, t: Time, s: ShopAction, i: nat)
    requires i < |ShopDb(db, t, s).events|
    ensures var db' := ShopDb(db, t, s);
      if i < |db.events| then
        && db'.events[i].receivedAt == db.events[i].receivedAt
        && (db'.events[i].processedAt == db.events[i].processedAt || db'.events[i].processedAt == Some(t))
      else
        db'.events[i].receivedAt == t && (db'.events[i].processedAt == None || db'.events[i].processedAt == Some(t))
  {
    if s.CreateOrder? && s.orderId !in db.orders && s.sku in db.products && db.products[s.sku].active {
      var inserted := Payments.InsertOrder(db, t, s.orderId, s.sku);
      ApplyAllEventTimes(inserted, t, s.orderId, Payments.Pending(db.events, s.orderId));
    }
  }

  // ----- claims -----

  function ClaimCount(db: Db, o: OrderId): nat {
    if o in db.attempts then db.attempts[o].attempts else 0
  }

  ghost predicate CountsKept(db: Db, db': Db) {
    forall o :: ClaimCount(db', o) == ClaimCount(db, o)
  }

  lemma {:induction false} ApplyAllCounts(db: Db, t: Time, o: OrderId, es: seq<Event>)
    requires o in db.orders
    ensures CountsKept(db, Payments.ApplyAll(db, t, o, es))
    decreases es
  {
    if es != [] {
      ApplyAllCounts(db, t, o, es[..|es| - 1]);
    }
  }

  lemma ShopCounts(db: Db, t: Time, s: ShopAction)
    ensures CountsKept(db, ShopDb(db, t, s))
  {
    if s.CreateOrder? && s.orderId !in db.orders && s.sku in db.products {
      var inserted := Payments.InsertOrder(db, t, s.orderId, s.sku);
      ApplyAllCounts(inserted, t, s.orderId, Payments.Pending(db.events, s.orderId));
    }
  }

  lemma UpkeepCounts(db: Db, t: Time, u: UpkeepAction)
    requires Consistent(db)
    ensures CountsKept(db, UpkeepDb(db, t, u))
  {
    match u
    case RecoverStale =>
    case RetryOrder(o) =>
    case RepairQueue => RepairConsistent(db, t);
  }

  lemma ActCounts(cfg: Config, w: World, t: Time, i: nat, act: WorkerAction, o: OrderId)
    requires Enabled(w, t, i, act)
    ensures ClaimCount(ActDb(cfg, w, t, i, act), o) == ClaimCount(w.db, o) + if act == ClaimJob(o) then 1 else 0
  {
    if act.CallProvider? && Arrives(act.transit) {
      IssueConserves(w.db, t, ProviderOf(w.workers[i].phase), RequestOf(w.workers[i].job), act.transit.refuse);
    }
  }

  /** How often the job of an order is claimed in a run. */
  function ClaimsOf(cfg: Config, w: World, acts: seq<Action>, o: OrderId): nat
    decreases acts
  {
    if acts == [] then 0
    else ClaimsOf(cfg, Next(cfg, w, acts[0]), acts[1..], o)
         + if Claims(w, acts[0]) && acts[0].act.orderId == o then 1 else 0
  }

  lemma WorkerStepCounts(cfg: Config, w: World, i: nat, act: WorkerAction, o: OrderId)
    requires Enabled(w, w.now + 1, i, act)
    ensures ClaimCount(Next(cfg, w, Act(i, act)).db, o) == ClaimCount(w.db, o) + if act == ClaimJob(o) then 1 else 0
  {
    NextAct(cfg, w, i, act);
    ActCounts(cfg, w, w.now + 1, i, act, o);
  }

  lemma OtherStepCounts(cfg: Config, w: World, a: Action)
    requires Consistent(w.db) && !a.Act?
    ensures CountsKept(w.db, Next(cfg, w, a).db)
  {
    match a
    case Wait(_) =>
    case Shop(s) =>
      NextShop(cfg, w, s);
      ShopCounts(w.db, w.now + 1, s);
    case Upkeep(u) =>
      NextUpkeep(cfg, w, u);
      UpkeepCounts(w.db, w.now + 1, u);
  }

  lemma NextCounts(cfg: Config, w: World, a: Action, o: OrderId)
    requires Consistent(w.db)
    ensures ClaimCount(Next(cfg, w, a).db, o) ==
            ClaimCount(w.db, o) + if Claims(w, a) && a.act.orderId == o then 1 else 0
  {
    if !a.Act? {
      OtherStepCounts(cfg, w, a);
    } else if Enabled(w, w.now + 1, a.worker, a.act) {
      WorkerStepCounts(cfg, w, a.worker, a.act, o);
    } else {
      assert Next(cfg, w, a) == w.(now := w.now + 1);
    }
  }

  /** The attempts column is the number of claims, over every run. */
  lemma {:induction false} AttemptsCountClaims(cfg: Config, w: World, acts: seq<Action>, o: OrderId)
    requires Safe(cfg, w)
    ensures ClaimCount(Run(cfg, w, acts).db, o) == ClaimCount(w.db, o) + ClaimsOf(cfg, w, acts, o)
    decreases acts
  {
    if acts != [] {
      NextSafe(cfg, w, acts[0]);
      NextCounts(cfg, w, acts[0], o);
      AttemptsCountClaims(cfg, Next(cfg, w, acts[0]), acts[1..], o);
    }
  }
}
