/**
 * The whole system as one state machine. Every committed transaction and every provider call is
 * one atomic step; any number of workers run between them, and any of them may stop for good.
 */
module World {
  import opened Prelude
  import opened Model
  import opened Queue
  import opened Providers
  import opened Retry
  import Payments
  import Reconcile

  /** How the workers are set up: attempts per provider, and the delay after a failed run. */
  datatype Config = Config(retries: nat, retryDelay: Time)

  /** Where a run is: about to make its k-th call to a provider, or about to mark the job. */
  datatype Phase =
    | CallA(k: nat)
    | CallB(k: nat, errorA: IssueError)
    | Marking(decision: Decision)

  /** A worker holding a job; `since` is when it entered its phase. */
  datatype Worker = Worker(job: Job, phase: Phase, claimedAt: Time, since: Time)

  datatype World = World(db: Db, now: Time, workers: map<nat, Worker>)

  const START := World(EMPTY_DB, 0, map[])

  /** Customers, the payment service, and those who stock the catalog and the providers. */
  datatype ShopAction =
    | PutProduct(sku: string, product: Product)
    | AddKey(provider: Provider, sku: string, code: string)
    | CreateOrder(orderId: OrderId, sku: string)
    | Webhook(event: Event)

  /** The periodic recovery of stale jobs, and the administrator. */
  datatype UpkeepAction = RecoverStale | RetryOrder(orderId: OrderId) | RepairQueue

  /** What one worker does; after `Crash` it never acts on its job again. */
  datatype WorkerAction = ClaimJob(orderId: OrderId) | CallProvider(transit: Transit) | MarkJob | Crash

  datatype Action =
    | Wait(d: Time)
    | Shop(shop: ShopAction)
    | Upkeep(upkeep: UpkeepAction)
    | Act(worker: nat, act: WorkerAction)

  /** The run of a worker after a result from the provider it has just called. */
  function AfterResult(n: nat, phase: Phase, r: IssueResult): Phase {
    match phase
    case CallA(k) =>
      if r.Got? then Marking(Deliver(ProviderA, r.code))
      else if !Conclusive(r) && k < n then CallA(k + 1)
      else if FallsBack(r) then CallB(1, r.error)
      else Marking(GiveUp(false))
    case CallB(k, errorA) =>
      if r.Got? then Marking(Deliver(ProviderB, r.code))
      else if !Conclusive(r) && k < n then CallB(k + 1, errorA)
      else Marking(GiveUp(r.error.OutOfStock? && errorA.OutOfStock?))
    case Marking(_) => phase
  }

  function ProviderOf(phase: Phase): Provider {
    if phase.CallB? then ProviderB else ProviderA
  }

  function RequestOf(job: Job): Request {
    Request(job.requestId, job.sku, job.orderId)
  }

  /** The time at which a step takes place. No two transactions share an instant. */
  function Instant(w: World, a: Action): Time {
    if a.Wait? then w.now + a.d else w.now + 1
  }

  function DoAddKey(db: Db, p: Provider, sku: string, code: string): Db {
    if exists i :: 0 <= i < |db.keys| && db.keys[i].code == code then db
    else db.(keys := db.keys + [Key(p, sku, code, false, None, None)])
  }

  function DoMark(cfg: Config, db: Db, now: Time, wk: Worker): Db
    requires wk.phase.Marking?
  {
    match wk.phase.decision
    case Deliver(p, code) => MarkDelivered(db, now, wk.job, p, code).0
    case GiveUp(outOfStock) => MarkFailure(db, now, wk.job, outOfStock, cfg.retryDelay).0
  }

  function ShopDb(db: Db, t: Time, s: ShopAction): Db {
    match s
    case PutProduct(sku, product) => db.(products := db.products[sku := product])
    case AddKey(p, sku, code) => DoAddKey(db, p, sku, code)
    case CreateOrder(o, sku) => Payments.Create(db, t, o, sku).0
    case Webhook(e) => Payments.ProcessPayment(db, t, e)
  }

  function UpkeepDb(db: Db, t: Time, u: UpkeepAction): Db {
    match u
    case RecoverStale => Recover(db, t)
    case RetryOrder(o) => Reconcile.RetryDelivery(db, t, o).0
    case RepairQueue => Reconcile.Repair(db, t)
  }

  /** A worker claims when it holds no job, calls before it marks, and marks once. */
  predicate Enabled(w: World, t: Time, i: nat, act: WorkerAction) {
    match act
    case ClaimJob(o) => i !in w.workers && IsNext(w.db, t, o)
    case CallProvider(_) => i in w.workers && !w.workers[i].phase.Marking?
    case MarkJob => i in w.workers && w.workers[i].phase.Marking?
    case Crash => i in w.workers
  }

  function DoCall(db: Db, t: Time, wk: Worker, tr: Transit): (Db, IssueResult) {
    Call(db, t, ProviderOf(wk.phase), RequestOf(wk.job), tr)
  }

  function ActDb(cfg: Config, w: World, t: Time, i: nat, act: WorkerAction): Db
    requires Enabled(w, t, i, act)
  {
    match act
    case ClaimJob(o) => Claim(w.db, t, o)
    case CallProvider(tr) => DoCall(w.db, t, w.workers[i], tr).0
    case MarkJob => DoMark(cfg, w.db, t, w.workers[i])
    case Crash => w.db
  }

  function ActWorkers(cfg: Config, w: World, t: Time, i: nat, act: WorkerAction): map<nat, Worker>
    requires Enabled(w, t, i, act)
  {
    match act
    case ClaimJob(o) => w.workers[i := Worker(JobOf(w.db, o), CallA(1), t, t)]
    case CallProvider(tr) =>
      var wk := w.workers[i];
      w.workers[i := wk.(
        phase := AfterResult(Attempts(cfg.retries), wk.phase, DoCall(w.db, t, wk, tr).1), since := t)]
    case MarkJob => w.workers - {i}
    case Crash => w.workers - {i}
  }

  /** One step; a step that cannot be taken only lets time pass. */
  function Next(cfg: Config, w: World, a: Action): World {
    var t := Instant(w, a);
    match a
    case Wait(_) => w.(now := t)
    case Shop(s) => w.(now := t, db := ShopDb(w.db, t, s))
    case Upkeep(u) => w.(now := t, db := UpkeepDb(w.db, t, u))
    case Act(i, act) =>
      if Enabled(w, t, i, act) then World(ActDb(cfg, w, t, i, act), t, ActWorkers(cfg, w, t, i, act))
      else w.(now := t)
  }

  lemma NextShop(cfg: Config, w: World, s: ShopAction)
    ensures Next(cfg, w, Shop(s)) == World(ShopDb(w.db, w.now + 1, s), w.now + 1, w.workers)
  {
  }

  lemma NextUpkeep(cfg: Config, w: World, u: UpkeepAction)
    ensures Next(cfg, w, Upkeep(u)) == World(UpkeepDb(w.db, w.now + 1, u), w.now + 1, w.workers)
  {
  }

  /** A worker's step changes what that worker may change. */
  lemma NextAct(cfg: Config, w: World, i: nat, act: WorkerAction)
    requires Enabled(w, w.now + 1, i, act)
    ensures Next(cfg, w, Act(i, act)) ==
            World(ActDb(cfg, w, w.now + 1, i, act), w.now + 1, ActWorkers(cfg, w, w.now + 1, i, act))
  {
  }

  function Run(cfg: Config, w: World, acts: seq<Action>): World
    decreases acts
  {
    if acts == [] then w else Run(cfg, Next(cfg, w, acts[0]), acts[1..])
  }

  lemma RunCons(cfg: Config, w: World, a: Action, xs: seq<Action>)
    ensures Run(cfg, w, [a] + xs) == Run(cfg, Next(cfg, w, a), xs)
  {
    assert ([a] + xs)[1..] == xs;
  }

  lemma RunOne(cfg: Config, w: World, a: Action)
    ensures Run(cfg, w, [a]) == Next(cfg, w, a)
  {
    RunCons(cfg, w, a, []);
    assert [a] + [] == [a];
  }

  lemma RunTwo(cfg: Config, w: World, a: Action, b: Action)
    ensures Run(cfg, w, [a, b]) == Next(cfg, Next(cfg, w, a), b)
  {
    RunCons(cfg, w, a, [b]);
    RunCons(cfg, Next(cfg, w, a), b, []);
    assert [a] + [b] == [a, b] && [b] + [] == [b];
  }

  lemma {:induction false} RunAppend(cfg: Config, w: World, xs: seq<Action>, ys: seq<Action>)
    ensures Run(cfg, w, xs + ys) == Run(cfg, Run(cfg, w, xs), ys)
    decreases xs
  {
    if xs == [] {
      assert xs + ys == ys;
    } else {
      assert (xs + ys)[1..] == xs[1..] + ys;
      RunAppend(cfg, Next(cfg, w, xs[0]), xs[1..], ys);
    }
  }
}
