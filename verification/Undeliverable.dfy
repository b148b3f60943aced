/** The other side of progress: an order for which there is no key is not delivered, whatever is tried. */
module Undeliverable {
  import opened Model
  import opened Providers
  import opened Status
  import opened Stock
  import opened History
  import opened World
  import opened Safety
  import opened Progress

  /** No provider has issued for the order, and none could. */
  ghost predicate Keyless(db: Db, j: OrderId) {
    && j in db.orders
    && forall p ::
         && (p, RequestIdFor(j)) !in db.issues
         && (j == "" || db.orders[j].sku == "" || !HasFree(db.keys, p, db.orders[j].sku))
  }

  lemma NoFreeLater(a: seq<Key>, b: seq<Key>, p: Provider, sku: string)
    requires KeysLater(a, b) && |b| == |a| && HasFree(b, p, sku)
    ensures HasFree(a, p, sku)
  {
    var i :| 0 <= i < |b| && IsFree(b[i], p, sku);
    assert IsFree(a[i], p, sku);
  }

  lemma CallKeepsKeyless(db: Db, t: Time, wk: Worker, tr: Transit, j: OrderId)
    requires Keyless(db, j) && JobKnown(db, wk.job)
    ensures Keyless(DoCall(db, t, wk, tr).0, j)
  {
    if Arrives(tr) {
      var p, r := ProviderOf(wk.phase), RequestOf(wk.job);
      IssueConserves(db, t, p, r, tr.refuse);
      IssueAllocates(db, t, p, r, tr.refuse);
      if r.requestId == RequestIdFor(j) {
        RequestIdInjective(wk.job.orderId, j);
        assert (p, RequestIdFor(j)) !in db.issues;
      }
      forall q | HasFree(DoCall(db, t, wk, tr).0.keys, q, db.orders[j].sku)
        ensures HasFree(db.keys, q, db.orders[j].sku)
      {
        NoFreeLater(db.keys, DoCall(db, t, wk, tr).0.keys, q, db.orders[j].sku);
      }
    }
  }

  predicate AddsKey(a: Action) {
    a.Shop? && a.shop.AddKey?
  }

  lemma SameStockKeyless(db: Db, db': Db, j: OrderId)
    requires Keyless(db, j) && Later(db, db') && db'.keys == db.keys && db'.issues == db.issues
    ensures Keyless(db', j)
  {
    assert OrderLater(db.orders[j], db'.orders[j]);
  }

  lemma QuietAct(cfg: Config, w: World, i: nat, act: WorkerAction)
    requires !act.CallProvider?
    ensures Next(cfg, w, Act(i, act)).db.keys == w.db.keys && Next(cfg, w, Act(i, act)).db.issues == w.db.issues
  {
    if Enabled(w, w.now + 1, i, act) {
      NextAct(cfg, w, i, act);
    }
  }

  /** Only calls and new keys touch the providers' tables. */
  lemma QuietStep(cfg: Config, w: World, a: Action)
    requires !AddsKey(a) && !(a.Act? && a.act.CallProvider?)
    ensures Next(cfg, w, a).db.keys == w.db.keys && Next(cfg, w, a).db.issues == w.db.issues
  {
    match a
    case Wait(_) =>
    case Shop(s) =>
      NextShop(cfg, w, s);
      ShopIssues(w.db, w.now + 1, s);
    case Upkeep(u) =>
      NextUpkeep(cfg, w, u);
      UpkeepStock(w.db, w.now + 1, u);
    case Act(i, act) => QuietAct(cfg, w, i, act);
  }

  lemma CallStepKeepsKeyless(cfg: Config, w: World, i: nat, tr: Transit, j: OrderId)
    requires Safe(cfg, w) && Keyless(w.db, j)
    ensures Keyless(Next(cfg, w, Act(i, CallProvider(tr))).db, j)
  {
    if Enabled(w, w.now + 1, i, CallProvider(tr)) {
      NextAct(cfg, w, i, CallProvider(tr));
      assert JobKnown(w.db, w.workers[i].job);
      CallKeepsKeyless(w.db, w.now + 1, w.workers[i], tr, j);
    }
  }

  lemma StepKeepsKeyless(cfg: Config, w: World, a: Action, j: OrderId)
    requires Safe(cfg, w) && Keyless(w.db, j) && !AddsKey(a)
    ensures Keyless(Next(cfg, w, a).db, j)
  {
    if a.Act? && a.act.CallProvider? {
      CallStepKeepsKeyless(cfg, w, a.worker, a.act.transit, j);
    } else {
      QuietStep(cfg, w, a);
      NextLater(cfg, w, a);
      SameStockKeyless(w.db, Next(cfg, w, a).db, j);
    }
  }

  lemma {:induction false} RunKeepsKeyless(cfg: Config, w: World, acts: seq<Action>, j: OrderId)
    requires Safe(cfg, w) && Keyless(w.db, j) && forall a :: a in acts ==> !AddsKey(a)
    ensures Safe(cfg, Run(cfg, w, acts)) && Keyless(Run(cfg, w, acts).db, j)
    decreases acts
  {
    if acts != [] {
      NextSafe(cfg, w, acts[0]);
      StepKeepsKeyless(cfg, w, acts[0], j);
      RunKeepsKeyless(cfg, Next(cfg, w, acts[0]), acts[1..], j);
    }
  }

  /** Whatever happens, as long as no key is added: an order for which there is no key is not delivered. */
  lemma NoKeyNoDelivery(cfg: Config, w: World, acts: seq<Action>, j: OrderId)
    requires Reachable(cfg, w) && Keyless(w.db, j) && forall a :: a in acts ==> !AddsKey(a)
    ensures var db := Run(cfg, w, acts).db; j in db.orders && !db.orders[j].status.OrderDelivered?
  {
    assert Safe(cfg, w) by { ReachableSafe(cfg, w); }
    RunKeepsKeyless(cfg, w, acts, j);
    KeylessIsOwed(Run(cfg, w, acts).db, j);
  }

  lemma KeylessIsOwed(db: Db, j: OrderId)
    requires Consistent(db) && DeliveredOk(db) && Keyless(db, j)
    ensures !db.orders[j].status.OrderDelivered?
  {
    assert OrderOk(db, j);
  }

  // ----- deliverable, exactly -----

  ghost predicate NoBlankCode(db: Db) {
    forall i :: 0 <= i < |db.keys| ==> db.keys[i].code != ""
  }

  lemma NotDeliverableIsKeyless(db: Db, j: OrderId)
    requires StockOk(db.keys, db.issues) && IssuesOk(db) && NoBlankCode(db)
    requires j in db.orders && !Deliverable(db, j)
    ensures Keyless(db, j)
  {
    forall p: Provider
      ensures (p, RequestIdFor(j)) !in db.issues
      ensures j == "" || db.orders[j].sku == "" || !HasFree(db.keys, p, db.orders[j].sku)
    {
      UsableExactly(db, p, j);
      if (p, RequestIdFor(j)) in db.issues {
        var row := db.issues[(p, RequestIdFor(j))];
        assert IssueOk(db.orders, RequestIdFor(j), row) && HasKey(db.keys, p, RequestIdFor(j), row);
        RequestIdInjective(row.orderId, j);
        assert false;
      }
    }
  }

  ghost predicate CanBeDelivered(cfg: Config, w: World, i: nat, j: OrderId) {
    exists acts :: Schedule(acts, i) && DeliveredBy(Run(cfg, w, acts), j, Run(cfg, w, acts).now)
  }

  /**
   * Where no key has a blank code: a free worker can deliver a paid order by claims, calls and marks,
   * with the help of time and of the recovery, if and only if some provider has a usable code for it.
   */
  lemma DeliverableExactly(cfg: Config, w: World, i: nat, j: OrderId)
    requires Reachable(cfg, w) && i !in w.workers && NoBlankCode(w.db)
    requires j in w.db.orders && w.db.orders[j].paidAt.Some? && !w.db.orders[j].status.OrderDelivered?
    ensures CanBeDelivered(cfg, w, i, j) <==> Deliverable(w.db, j)
  {
    if Deliverable(w.db, j) {
      NoJobIsLost(cfg, w, i, j);
    } else if CanBeDelivered(cfg, w, i, j) {
      var acts :| Schedule(acts, i) && DeliveredBy(Run(cfg, w, acts), j, Run(cfg, w, acts).now);
      assert Keyless(w.db, j) by {
        ReachableSafe(cfg, w);
        NotDeliverableIsKeyless(w.db, j);
      }
      NoKeyNoDelivery(cfg, w, acts, j);
      assert false;
    }
  }
}
