/** What holds in every reachable state, with any number of workers, crashes, zombies and lost replies. */
module Safety {
  import opened Prelude
  import opened Model
  import opened Queue
  import opened Providers
  import opened Retry
  import opened Status
  import opened Stock
  import opened History
  import opened World
  import Payments
  import Outcome
  import Reconcile

  /** A code and the issue that it comes from. */
  predicate Sourced(db: Db, p: Provider, requestId: string, code: string) {
    code != "" && (p, requestId) in db.issues && db.issues[(p, requestId)].code == code
  }

  ghost predicate DeliveredOk(db: Db) {
    forall o :: o in db.attempts && db.attempts[o].status.JobDelivered? ==>
      var a := db.attempts[o];
      a.provider.Some? && a.code.Some? && Sourced(db, a.provider.value, a.requestId, a.code.value)
  }

  /** What a worker knows about its job stays true, however long it sleeps. */
  ghost predicate JobKnown(db: Db, job: Job) {
    var o := job.orderId;
    && o in db.orders && o in db.attempts
    && job.requestId == RequestIdFor(o)
    && job.sku == db.orders[o].sku
    && db.attempts[o].id == job.deliveryId && db.attempts[o].requestId == job.requestId
    && Payments.OutcomeOf(db.orders[o].status) == Some(EventPaid)
  }

  ghost predicate PhaseOk(n: nat, db: Db, wk: Worker) {
    match wk.phase
    case CallA(k) => 1 <= k <= n
    case CallB(k, errorA) => 1 <= k <= n && FallsBack(Err(errorA))
    case Marking(Deliver(p, code)) => Sourced(db, p, wk.job.requestId, code)
    case Marking(GiveUp(_)) => true
  }

  ghost predicate WorkersOk(n: nat, db: Db, workers: map<nat, Worker>) {
    forall i :: i in workers ==> JobKnown(db, workers[i].job) && PhaseOk(n, db, workers[i])
  }

  ghost predicate SafeState(n: nat, db: Db, now: Time, workers: map<nat, Worker>) {
    && Consistent(db)
    && Outcome.EventsOk(db, now)
    && StockOk(db.keys, db.issues)
    && IssuesOk(db)
    && DeliveredOk(db)
    && WorkersOk(n, db, workers)
  }

  ghost predicate Safe(cfg: Config, w: World) {
    SafeState(Attempts(cfg.retries), w.db, w.now, w.workers)
  }

  lemma SafeStart(cfg: Config)
    ensures Safe(cfg, START)
  {
  }

  // ----- one step: nothing is lost -----

  lemma ShopLater(db: Db, t: Time, s: ShopAction)
    ensures Later(db, ShopDb(db, t, s)) && EdgesOnly(db.orders, ShopDb(db, t, s).orders)
  {
    match s
    case CreateOrder(o, sku) => CreateLater(db, t, o, sku);
    case Webhook(e) => ProcessPaymentLater(db, t, e);
    case _ =>
  }

  lemma UpkeepLater(db: Db, t: Time, u: UpkeepAction)
    requires Consistent(db)
    ensures Later(db, UpkeepDb(db, t, u)) && EdgesOnly(db.orders, UpkeepDb(db, t, u).orders)
  {
    match u
    case RecoverStale => RecoverLater(db, t);
    case RetryOrder(o) => RetryLater(db, t, o);
    case RepairQueue => RepairConsistent(db, t);
  }

  lemma DoMarkLater(cfg: Config, db: Db, t: Time, wk: Worker)
    requires wk.phase.Marking?
    ensures Later(db, DoMark(cfg, db, t, wk)) && EdgesOnly(db.orders, DoMark(cfg, db, t, wk).orders)
  {
    match wk.phase.decision
    case Deliver(p, code) => MarkDeliveredLater(db, t, wk.job, p, code);
    case GiveUp(outOfStock) => MarkFailureLater(db, t, wk.job, outOfStock, cfg.retryDelay);
  }

  lemma ActLater(cfg: Config, w: World, t: Time, i: nat, act: WorkerAction)
    requires Enabled(w, t, i, act)
    ensures Later(w.db, ActDb(cfg, w, t, i, act)) && EdgesOnly(w.db.orders, ActDb(cfg, w, t, i, act).orders)
  {
    match act
    case ClaimJob(o) => ClaimLater(w.db, t, o);
    case CallProvider(tr) => CallLater(w.db, t, ProviderOf(w.workers[i].phase), RequestOf(w.workers[i].job), tr);
    case MarkJob => DoMarkLater(cfg, w.db, t, w.workers[i]);
    case Crash =>
  }

  // ----- one step: orders, jobs and ledger -----

  lemma ShopConsistent(db: Db, t: Time, s: ShopAction)
    requires Consistent(db)
    ensures Consistent(ShopDb(db, t, s))
  {
    match s
    case CreateOrder(o, sku) => CreateConsistent(db, t, o, sku);
    case Webhook(e) => ProcessPaymentConsistent(db, t, e);
    case _ => OtherTablesConsistent(db, ShopDb(db, t, s));
  }

  lemma UpkeepConsistent(db: Db, t: Time, u: UpkeepAction)
    requires Consistent(db)
    ensures Consistent(UpkeepDb(db, t, u))
  {
    match u
    case RecoverStale => RecoverConsistent(db, t);
    case RetryOrder(o) => RetryConsistent(db, t, o);
    case RepairQueue => RepairConsistent(db, t);
  }

  lemma ActConsistent(cfg: Config, w: World, t: Time, i: nat, act: WorkerAction)
    requires Consistent(w.db) && Enabled(w, t, i, act)
    ensures Consistent(ActDb(cfg, w, t, i, act))
  {
    match act
    case ClaimJob(o) => ClaimConsistent(w.db, t, o);
    case CallProvider(tr) => OtherTablesConsistent(w.db, ActDb(cfg, w, t, i, act));
    case MarkJob =>
      match w.workers[i].phase.decision {
        case Deliver(p, code) => MarkDeliveredConsistent(w.db, t, w.workers[i].job, p, code);
        case GiveUp(outOfStock) => MarkFailureConsistent(w.db, t, w.workers[i].job, outOfStock, cfg.retryDelay);
      }
    case Crash =>
  }

  // ----- one step: payments -----

  /** No order appears and no outcome changes. */
  ghost predicate SameOutcomes(db: Db, db': Db) {
    && db'.events == db.events && db'.orders.Keys == db.orders.Keys
    && forall o :: o in db.orders ==>
         Payments.OutcomeOf(db'.orders[o].status) == Payments.OutcomeOf(db.orders[o].status)
  }

  lemma OutcomesFrame(db: Db, db': Db, now: Time, now': Time)
    requires Outcome.EventsOk(db, now) && now <= now' && Later(db, db') && SameOutcomes(db, db')
    ensures Outcome.EventsOk(db', now')
  {
    Outcome.EventsFrame(db, db', now, now');
  }

  lemma ShopEvents(db: Db, now: Time, t: Time, s: ShopAction)
    requires Outcome.EventsOk(db, now) && now < t
    ensures Outcome.EventsOk(ShopDb(db, t, s), t)
  {
    match s
    case CreateOrder(o, sku) => Outcome.CreateDecides(db, now, t, o, sku);
    case Webhook(e) => Outcome.ProcessPaymentDecides(db, now, t, e);
    case _ => Outcome.EventsFrame(db, ShopDb(db, t, s), now, t);
  }

  lemma RetryOutcomes(db: Db, t: Time, o: OrderId)
    requires Consistent(db)
    ensures SameOutcomes(db, Reconcile.RetryDelivery(db, t, o).0)
  {
    if o in db.orders {
      assert OrderOk(db, o);
    }
  }

  lemma UpkeepOutcomes(db: Db, t: Time, u: UpkeepAction)
    requires Consistent(db)
    ensures SameOutcomes(db, UpkeepDb(db, t, u))
  {
    match u
    case RecoverStale =>
    case RetryOrder(o) => RetryOutcomes(db, t, o);
    case RepairQueue => RepairConsistent(db, t);
  }

  lemma ActOutcomes(cfg: Config, w: World, t: Time, i: nat, act: WorkerAction)
    requires Enabled(w, t, i, act)
    ensures SameOutcomes(w.db, ActDb(cfg, w, t, i, act))
  {
    if act.CallProvider? && Arrives(act.transit) {
      IssueConserves(w.db, t, ProviderOf(w.workers[i].phase), RequestOf(w.workers[i].job), act.transit.refuse);
    }
  }

  // ----- one step: keys and issues -----

  lemma {:induction false} ApplyAllStock(db: Db, now: Time, o: OrderId, es: seq<Event>)
    requires o in db.orders
    ensures var db' := Payments.ApplyAll(db, now, o, es); db'.keys == db.keys && db'.issues == db.issues
  {
    if es != [] {
      ApplyAllStock(db, now, o, es[..|es| - 1]);
    }
  }

  lemma ShopIssues(db: Db, t: Time, s: ShopAction)
    ensures ShopDb(db, t, s).issues == db.issues
    ensures !s.AddKey? ==> ShopDb(db, t, s).keys == db.keys
  {
    if s.CreateOrder? && s.orderId !in db.orders && s.sku in db.products {
      var inserted := Payments.InsertOrder(db, t, s.orderId, s.sku);
      ApplyAllStock(inserted, t, s.orderId, Payments.Pending(db.events, s.orderId));
    }
  }

  lemma ShopStock(db: Db, t: Time, s: ShopAction)
    requires StockOk(db.keys, db.issues)
    ensures StockOk(ShopDb(db, t, s).keys, ShopDb(db, t, s).issues)
  {
    ShopIssues(db, t, s);
    if s.AddKey? && ShopDb(db, t, s) != db {
      AddKeyStock(db.keys, db.issues, Key(s.provider, s.sku, s.code, false, None, None));
    }
  }

  lemma CallStock(db: Db, now: Time, p: Provider, r: Request, tr: Transit)
    requires StockOk(db.keys, db.issues)
    ensures StockOk(Call(db, now, p, r, tr).0.keys, Call(db, now, p, r, tr).0.issues)
  {
    if Arrives(tr) {
      IssueStock(db, now, p, r, tr.refuse);
    }
  }

  lemma ActStock(cfg: Config, w: World, t: Time, i: nat, act: WorkerAction)
    requires Enabled(w, t, i, act) && StockOk(w.db.keys, w.db.issues)
    ensures StockOk(ActDb(cfg, w, t, i, act).keys, ActDb(cfg, w, t, i, act).issues)
  {
    if act.CallProvider? {
      CallStock(w.db, t, ProviderOf(w.workers[i].phase), RequestOf(w.workers[i].job), act.transit);
    }
  }

  /** A call adds at most the row of its own request, for the order and SKU of that request. */
  lemma CallIssues(db: Db, now: Time, p: Provider, r: Request, tr: Transit)
    ensures var db' := Call(db, now, p, r, tr).0;
      forall q, s :: (q, s) in db'.issues && (q, s) !in db.issues ==>
        && q == p && s == r.requestId
        && db'.issues[(q, s)].orderId == r.orderId && db'.issues[(q, s)].sku == r.sku && WellFormed(r)
        && db'.issues[(q, s)].createdAt == now
  {
    if Call(db, now, p, r, tr).0 != db {
      IssueSpendsOneKey(db, now, p, r, tr.refuse);
    }
  }

  lemma IssuesStay(db: Db, db': Db)
    requires IssuesOk(db) && Later(db, db')
    ensures forall p, r :: (p, r) in db.issues ==> (p, r) in db'.issues && IssueOk(db'.orders, r, db'.issues[(p, r)])
  {
    forall p, r | (p, r) in db.issues
      ensures (p, r) in db'.issues && IssueOk(db'.orders, r, db'.issues[(p, r)])
    {
      var row := db.issues[(p, r)];
      assert IssueOk(db.orders, r, row);
      assert OrderLater(db.orders[row.orderId], db'.orders[row.orderId]);
    }
  }

  lemma CallIssuesOk(db: Db, t: Time, wk: Worker, tr: Transit)
    requires IssuesOk(db) && JobKnown(db, wk.job) && Consistent(db)
    ensures IssuesOk(DoCall(db, t, wk, tr).0)
  {
    assert OrderOk(db, wk.job.orderId);
    CallLater(db, t, ProviderOf(wk.phase), RequestOf(wk.job), tr);
    CallIssues(db, t, ProviderOf(wk.phase), RequestOf(wk.job), tr);
    IssuesStay(db, DoCall(db, t, wk, tr).0);
  }

  lemma ActIssues(cfg: Config, w: World, t: Time, i: nat, act: WorkerAction)
    requires Safe(cfg, w) && Enabled(w, t, i, act)
    ensures IssuesOk(ActDb(cfg, w, t, i, act))
  {
    if act.CallProvider? {
      assert JobKnown(w.db, w.workers[i].job);
      CallIssuesOk(w.db, t, w.workers[i], act.transit);
    } else {
      ActKeepsIssues(cfg, w, t, i, act);
    }
  }

  lemma ActKeepsIssues(cfg: Config, w: World, t: Time, i: nat, act: WorkerAction)
    requires IssuesOk(w.db) && Enabled(w, t, i, act) && !act.CallProvider?
    ensures IssuesOk(ActDb(cfg, w, t, i, act))
  {
    ActLater(cfg, w, t, i, act);
    IssuesStay(w.db, ActDb(cfg, w, t, i, act));
    assert ActDb(cfg, w, t, i, act).issues == w.db.issues;
  }

  // ----- one step: workers -----

  /** Facts about jobs and codes survive in any later database. */
  lemma KnownLater(n: nat, db: Db, db': Db, wk: Worker)
    requires Later(db, db') && JobKnown(db, wk.job) && PhaseOk(n, db, wk)
    ensures JobKnown(db', wk.job) && PhaseOk(n, db', wk)
  {
    assert OrderLater(db.orders[wk.job.orderId], db'.orders[wk.job.orderId]);
    assert JobLater(db.attempts[wk.job.orderId], db'.attempts[wk.job.orderId]);
  }

  lemma WorkersLater(n: nat, db: Db, db': Db, workers: map<nat, Worker>)
    requires Later(db, db') && WorkersOk(n, db, workers)
    ensures WorkersOk(n, db', workers)
  {
    forall i | i in workers
      ensures JobKnown(db', workers[i].job) && PhaseOk(n, db', workers[i])
    {
      KnownLater(n, db, db', workers[i]);
    }
  }

  /** A code that the client accepts is the code of the issue on record. */
  lemma AcceptedIsSourced(db: Db, now: Time, p: Provider, r: Request, tr: Transit)
    requires Call(db, now, p, r, tr).1.Got?
    ensures Sourced(Call(db, now, p, r, tr).0, p, r.requestId, Call(db, now, p, r, tr).1.code)
  {
    var result := IssueCode(db, now, p, r, tr.refuse).1;
    RoundTrip(r, result);
    IssueIsRecorded(db, now, p, r, tr.refuse);
  }

  lemma CallPhaseOk(n: nat, db: Db, now: Time, wk: Worker, tr: Transit)
    requires PhaseOk(n, db, wk) && !wk.phase.Marking? && n >= 1
    ensures var (db', r) := DoCall(db, now, wk, tr);
      PhaseOk(n, db', wk.(phase := AfterResult(n, wk.phase, r), since := now))
  {
    if DoCall(db, now, wk, tr).1.Got? {
      AcceptedIsSourced(db, now, ProviderOf(wk.phase), RequestOf(wk.job), tr);
    }
  }

  lemma ClaimKnown(db: Db, now: Time, o: OrderId)
    requires Consistent(db) && Claimable(db, now, o)
    ensures JobKnown(Claim(db, now, o), JobOf(db, o))
  {
    assert OrderOk(db, o);
  }

  lemma PutWorker(n: nat, db: Db, workers: map<nat, Worker>, i: nat, wk: Worker)
    requires WorkersOk(n, db, workers) && JobKnown(db, wk.job) && PhaseOk(n, db, wk)
    ensures WorkersOk(n, db, workers[i := wk])
  {
  }

  lemma ActWorkersOk(cfg: Config, w: World, t: Time, i: nat, act: WorkerAction)
    requires Safe(cfg, w) && Enabled(w, t, i, act)
    ensures WorkersOk(Attempts(cfg.retries), ActDb(cfg, w, t, i, act), ActWorkers(cfg, w, t, i, act))
  {
    var n := Attempts(cfg.retries);
    var db' := ActDb(cfg, w, t, i, act);
    var workers' := ActWorkers(cfg, w, t, i, act);
    assert WorkersOk(n, db', w.workers) by {
      ActLater(cfg, w, t, i, act);
      WorkersLater(n, w.db, db', w.workers);
    }
    if act.ClaimJob? {
      ClaimKnown(w.db, t, act.orderId);
      PutWorker(n, db', w.workers, i, workers'[i]);
    } else if act.CallProvider? {
      assert JobKnown(w.db, w.workers[i].job) && PhaseOk(n, w.db, w.workers[i]);
      CallPhaseOk(n, w.db, t, w.workers[i], act.transit);
      PutWorker(n, db', w.workers, i, workers'[i]);
    }
  }

  // ----- one step: delivered codes -----

  /** No job is delivered that was not delivered before. */
  ghost predicate DeliversNothing(db: Db, db': Db) {
    forall o :: o in db'.attempts && db'.attempts[o].status.JobDelivered? ==>
      o in db.attempts && db.attempts[o].status.JobDelivered?
  }

  lemma DeliveredStays(db: Db, db': Db)
    requires DeliveredOk(db) && Later(db, db') && DeliversNothing(db, db')
    ensures DeliveredOk(db')
  {
    forall o | o in db'.attempts && db'.attempts[o].status.JobDelivered?
      ensures var b := db'.attempts[o];
        b.provider.Some? && b.code.Some? && Sourced(db', b.provider.value, b.requestId, b.code.value)
    {
      assert JobLater(db.attempts[o], db'.attempts[o]);
    }
  }

  lemma {:induction false} ApplyAllDeliversNothing(db: Db, now: Time, x: OrderId, es: seq<Event>)
    requires x in db.orders
    ensures DeliversNothing(db, Payments.ApplyAll(db, now, x, es))
  {
    if es != [] {
      ApplyAllDeliversNothing(db, now, x, es[..|es| - 1]);
    }
  }

  lemma ShopDeliversNothing(db: Db, t: Time, s: ShopAction)
    ensures DeliversNothing(db, ShopDb(db, t, s))
  {
    match s
    case CreateOrder(o, sku) =>
      if o !in db.orders && sku in db.products {
        ApplyAllDeliversNothing(Payments.InsertOrder(db, t, o, sku), t, o, Payments.Pending(db.events, o));
      }
    case _ =>
  }

  lemma UpkeepDeliversNothing(db: Db, t: Time, u: UpkeepAction)
    requires Consistent(db)
    ensures DeliversNothing(db, UpkeepDb(db, t, u))
  {
    match u
    case RecoverStale =>
    case RetryOrder(o) =>
    case RepairQueue => RepairConsistent(db, t);
  }

  lemma MarkDelivers(db: Db, now: Time, job: Job, p: Provider, code: string)
    requires DeliveredOk(db) && JobKnown(db, job) && Sourced(db, p, job.requestId, code)
    ensures DeliveredOk(MarkDelivered(db, now, job, p, code).0)
  {
  }

  lemma DoMarkDelivered(cfg: Config, db: Db, t: Time, wk: Worker)
    requires DeliveredOk(db) && JobKnown(db, wk.job) && wk.phase.Marking? && PhaseOk(Attempts(cfg.retries), db, wk)
    ensures DeliveredOk(DoMark(cfg, db, t, wk))
  {
    match wk.phase.decision
    case Deliver(p, code) => MarkDelivers(db, t, wk.job, p, code);
    case GiveUp(outOfStock) =>
      MarkFailureLater(db, t, wk.job, outOfStock, cfg.retryDelay);
      DeliveredStays(db, DoMark(cfg, db, t, wk));
  }

  lemma CallDelivered(db: Db, t: Time, wk: Worker, tr: Transit)
    requires DeliveredOk(db)
    ensures DeliveredOk(DoCall(db, t, wk, tr).0)
  {
    CallLater(db, t, ProviderOf(wk.phase), RequestOf(wk.job), tr);
    if Arrives(tr) {
      IssueConserves(db, t, ProviderOf(wk.phase), RequestOf(wk.job), tr.refuse);
    }
    DeliveredStays(db, DoCall(db, t, wk, tr).0);
  }

  lemma ActDelivered(cfg: Config, w: World, t: Time, i: nat, act: WorkerAction)
    requires Safe(cfg, w) && Enabled(w, t, i, act)
    ensures DeliveredOk(ActDb(cfg, w, t, i, act))
  {
    match act
    case ClaimJob(o) =>
      ClaimLater(w.db, t, o);
      DeliveredStays(w.db, ActDb(cfg, w, t, i, act));
    case CallProvider(tr) => CallDelivered(w.db, t, w.workers[i], tr);
    case MarkJob => DoMarkDelivered(cfg, w.db, t, w.workers[i]);
    case Crash =>
  }

  // ----- one step: everything -----

  lemma ShopSafe(n: nat, db: Db, now: Time, workers: map<nat, Worker>, s: ShopAction)
    requires SafeState(n, db, now, workers)
    ensures SafeState(n, ShopDb(db, now + 1, s), now + 1, workers)
  {
    var t := now + 1;
    var db' := ShopDb(db, t, s);
    assert Later(db, db') by { ShopLater(db, t, s); }
    assert Consistent(db') by { ShopConsistent(db, t, s); }
    assert Outcome.EventsOk(db', t) by { ShopEvents(db, now, t, s); }
    assert StockOk(db'.keys, db'.issues) by { ShopStock(db, t, s); }
    assert IssuesOk(db') by { ShopIssues(db, t, s); IssuesStay(db, db'); }
    assert DeliveredOk(db') by { ShopDeliversNothing(db, t, s); DeliveredStays(db, db'); }
    assert WorkersOk(n, db', workers) by { WorkersLater(n, db, db', workers); }
  }

  lemma UpkeepSafe(n: nat, db: Db, now: Time, workers: map<nat, Worker>, u: UpkeepAction)
    requires SafeState(n, db, now, workers)
    ensures SafeState(n, UpkeepDb(db, now + 1, u), now + 1, workers)
  {
    var t := now + 1;
    var db' := UpkeepDb(db, t, u);
    assert Later(db, db') by { UpkeepLater(db, t, u); }
    assert Consistent(db') by { UpkeepConsistent(db, t, u); }
    assert Outcome.EventsOk(db', t) by { UpkeepOutcomes(db, t, u); OutcomesFrame(db, db', now, t); }
    assert db'.keys == db.keys && db'.issues == db.issues by { UpkeepStock(db, t, u); }
    assert IssuesOk(db') by { IssuesStay(db, db'); }
    assert DeliveredOk(db') by { UpkeepDeliversNothing(db, t, u); DeliveredStays(db, db'); }
    assert WorkersOk(n, db', workers) by { WorkersLater(n, db, db', workers); }
  }

  lemma UpkeepStock(db: Db, t: Time, u: UpkeepAction)
    ensures UpkeepDb(db, t, u).keys == db.keys && UpkeepDb(db, t, u).issues == db.issues
  {
  }

  lemma ActSafe(cfg: Config, w: World, i: nat, act: WorkerAction)
    requires Safe(cfg, w) && Enabled(w, w.now + 1, i, act)
    ensures SafeState(Attempts(cfg.retries),
              ActDb(cfg, w, w.now + 1, i, act), w.now + 1, ActWorkers(cfg, w, w.now + 1, i, act))
  {
    var t := w.now + 1;
    var db' := ActDb(cfg, w, t, i, act);
    assert Consistent(db') by { ActConsistent(cfg, w, t, i, act); }
    assert Outcome.EventsOk(db', t) by {
      ActLater(cfg, w, t, i, act);
      ActOutcomes(cfg, w, t, i, act);
      OutcomesFrame(w.db, db', w.now, t);
    }
    assert StockOk(db'.keys, db'.issues) by { ActStock(cfg, w, t, i, act); }
    assert IssuesOk(db') by { ActIssues(cfg, w, t, i, act); }
    assert DeliveredOk(db') by { ActDelivered(cfg, w, t, i, act); }
    assert WorkersOk(Attempts(cfg.retries), db', ActWorkers(cfg, w, t, i, act)) by { ActWorkersOk(cfg, w, t, i, act); }
  }

  /** No step loses or revokes anything, and orders move along edges only. */
  lemma NextLater(cfg: Config, w: World, a: Action)
    requires Consistent(w.db)
    ensures Later(w.db, Next(cfg, w, a).db)
    ensures EdgesOnly(w.db.orders, Next(cfg, w, a).db.orders)
  {
    var t := Instant(w, a);
    match a
    case Wait(_) =>
    case Shop(s) => ShopLater(w.db, t, s);
    case Upkeep(u) => UpkeepLater(w.db, t, u);
    case Act(i, act) =>
      if Enabled(w, t, i, act) {
        ActLater(cfg, w, t, i, act);
      }
  }

  lemma WaitSafe(n: nat, db: Db, now: Time, now': Time, workers: map<nat, Worker>)
    requires SafeState(n, db, now, workers) && now <= now'
    ensures SafeState(n, db, now', workers)
  {
  }

  lemma ActStepSafe(cfg: Config, w: World, i: nat, act: WorkerAction)
    requires Safe(cfg, w)
    ensures Safe(cfg, Next(cfg, w, Act(i, act)))
  {
    if Enabled(w, w.now + 1, i, act) {
      NextAct(cfg, w, i, act);
      ActSafe(cfg, w, i, act);
    } else {
      WaitSafe(Attempts(cfg.retries), w.db, w.now, w.now + 1, w.workers);
    }
  }

  lemma ShopStepSafe(cfg: Config, w: World, s: ShopAction)
    requires Safe(cfg, w)
    ensures Safe(cfg, Next(cfg, w, Shop(s)))
  {
    NextShop(cfg, w, s);
    ShopSafe(Attempts(cfg.retries), w.db, w.now, w.workers, s);
  }

  lemma UpkeepStepSafe(cfg: Config, w: World, u: UpkeepAction)
    requires Safe(cfg, w)
    ensures Safe(cfg, Next(cfg, w, Upkeep(u)))
  {
    NextUpkeep(cfg, w, u);
    UpkeepSafe(Attempts(cfg.retries), w.db, w.now, w.workers, u);
  }

  lemma WaitStepSafe(cfg: Config, w: World, d: Time)
    requires Safe(cfg, w)
    ensures Safe(cfg, Next(cfg, w, Wait(d)))
  {
    WaitSafe(Attempts(cfg.retries), w.db, w.now, w.now + d, w.workers);
  }

  /** Every step keeps the invariant. */
  lemma NextSafe(cfg: Config, w: World, a: Action)
    requires Safe(cfg, w)
    ensures Safe(cfg, Next(cfg, w, a))
  {
    match a
    case Wait(d) => WaitStepSafe(cfg, w, d);
    case Shop(s) => ShopStepSafe(cfg, w, s);
    case Upkeep(u) => UpkeepStepSafe(cfg, w, u);
    case Act(i, act) => ActStepSafe(cfg, w, i, act);
  }

  // ----- every run -----

  lemma {:induction false} RunSafe(cfg: Config, w: World, acts: seq<Action>)
    requires Safe(cfg, w)
    ensures Safe(cfg, Run(cfg, w, acts))
    ensures Later(w.db, Run(cfg, w, acts).db)
    decreases acts
  {
    if acts != [] {
      var w' := Next(cfg, w, acts[0]);
      NextSafe(cfg, w, acts[0]);
      NextLater(cfg, w, acts[0]);
      RunSafe(cfg, w', acts[1..]);
      LaterTransitive(w.db, w'.db, Run(cfg, w, acts).db);
    }
  }

  /** The reachable states. */
  ghost predicate Reachable(cfg: Config, w: World) {
    exists acts :: Run(cfg, START, acts) == w
  }

  lemma ReachableSafe(cfg: Config, w: World)
    requires Reachable(cfg, w)
    ensures Safe(cfg, w)
  {
    var acts :| Run(cfg, START, acts) == w;
    SafeStart(cfg);
    RunSafe(cfg, START, acts);
  }
}
