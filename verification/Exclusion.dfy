/**
 * One live worker per job, and what it buys: provider B is asked only while provider A holds no
 * issue for the request.
 */
module Exclusion {
  import opened Prelude
  import opened Model
  import opened Queue
  import opened Providers
  import opened Status
  import opened Stock
  import opened World
  import Payments

  /** The job row a worker claimed is still in the state in which it claimed it. */
  ghost predicate Holds(db: Db, wk: Worker) {
    var o := wk.job.orderId;
    o in db.attempts && db.attempts[o].status.JobProcessing? && db.attempts[o].lockedAt == Some(wk.claimedAt)
  }

  ghost predicate AllHold(db: Db, workers: map<nat, Worker>) {
    forall i :: i in workers ==> Holds(db, workers[i])
  }

  ghost predicate DistinctJobs(workers: map<nat, Worker>) {
    forall i, j :: i in workers && j in workers && i != j ==> workers[i].job.orderId != workers[j].job.orderId
  }

  /** Every live worker holds its job, and no two hold the same. */
  ghost predicate Solo(w: World) {
    AllHold(w.db, w.workers) && DistinctJobs(w.workers)
  }

  /** The recovery does not take a job from a live worker. */
  ghost predicate Fenced(w: World, a: Action) {
    a == Upkeep(RecoverStale) ==>
      forall i :: i in w.workers ==>
        var o := w.workers[i].job.orderId; o in w.db.attempts ==> !Stale(w.db.attempts[o], Instant(w, a))
  }

  // ----- who may disturb a job in processing -----

  /** Jobs in processing stay exactly as they are. */
  ghost predicate ProcessingKept(db: Db, db': Db) {
    forall o :: o in db.attempts && db.attempts[o].status.JobProcessing? ==>
      o in db'.attempts && db'.attempts[o] == db.attempts[o]
  }

  lemma KeptHold(db: Db, db': Db, workers: map<nat, Worker>)
    requires AllHold(db, workers) && ProcessingKept(db, db')
    ensures AllHold(db', workers)
  {
    forall i | i in workers
      ensures Holds(db', workers[i])
    {
      assert Holds(db, workers[i]);
    }
  }

  lemma {:induction false} ApplyAllKeepsProcessing(db: Db, now: Time, x: OrderId, es: seq<Event>)
    requires x in db.orders
    ensures ProcessingKept(db, Payments.ApplyAll(db, now, x, es))
  {
    if es != [] {
      ApplyAllKeepsProcessing(db, now, x, es[..|es| - 1]);
    }
  }

  lemma ShopKeepsProcessing(db: Db, t: Time, s: ShopAction)
    ensures ProcessingKept(db, ShopDb(db, t, s))
  {
    match s
    case CreateOrder(o, sku) =>
      if o !in db.orders && sku in db.products {
        ApplyAllKeepsProcessing(Payments.InsertOrder(db, t, o, sku), t, o, Payments.Pending(db.events, o));
      }
    case _ =>
  }

  lemma UpkeepKeepsProcessing(db: Db, t: Time, u: UpkeepAction)
    requires Consistent(db) && !u.RecoverStale?
    ensures ProcessingKept(db, UpkeepDb(db, t, u))
  {
    match u
    case RetryOrder(o) =>
    case RepairQueue => RepairConsistent(db, t);
  }

  lemma RecoverHolds(db: Db, t: Time, workers: map<nat, Worker>)
    requires AllHold(db, workers)
    requires forall i :: i in workers && workers[i].job.orderId in db.attempts ==>
               !Stale(db.attempts[workers[i].job.orderId], t)
    ensures AllHold(Recover(db, t), workers)
  {
    forall i | i in workers
      ensures Holds(Recover(db, t), workers[i])
    {
      assert Holds(db, workers[i]);
    }
  }

  lemma CallKeepsJobs(db: Db, t: Time, wk: Worker, tr: Transit)
    ensures DoCall(db, t, wk, tr).0.attempts == db.attempts
  {
    if Arrives(tr) {
      IssueConserves(db, t, ProviderOf(wk.phase), RequestOf(wk.job), tr.refuse);
    }
  }

  /** A mark touches the job of its own worker only. */
  lemma MarkKeepsOthers(cfg: Config, db: Db, t: Time, wk: Worker, o: OrderId)
    requires wk.phase.Marking? && o != wk.job.orderId
    ensures Find(DoMark(cfg, db, t, wk).attempts, o) == Find(db.attempts, o)
  {
  }

  lemma ClaimSolo(cfg: Config, w: World, t: Time, i: nat, o: OrderId)
    requires Solo(w) && Enabled(w, t, i, ClaimJob(o))
    ensures AllHold(ActDb(cfg, w, t, i, ClaimJob(o)), ActWorkers(cfg, w, t, i, ClaimJob(o)))
    ensures DistinctJobs(ActWorkers(cfg, w, t, i, ClaimJob(o)))
  {
    var db' := Claim(w.db, t, o);
    forall j | j in w.workers
      ensures Holds(db', w.workers[j]) && w.workers[j].job.orderId != o
    {
      assert Holds(w.db, w.workers[j]);
    }
  }

  lemma CallSolo(cfg: Config, w: World, t: Time, i: nat, tr: Transit)
    requires Solo(w) && Enabled(w, t, i, CallProvider(tr))
    ensures AllHold(ActDb(cfg, w, t, i, CallProvider(tr)), ActWorkers(cfg, w, t, i, CallProvider(tr)))
    ensures DistinctJobs(ActWorkers(cfg, w, t, i, CallProvider(tr)))
  {
    CallKeepsJobs(w.db, t, w.workers[i], tr);
    var workers' := ActWorkers(cfg, w, t, i, CallProvider(tr));
    assert forall j :: j in workers' ==>
      j in w.workers && workers'[j].job == w.workers[j].job && workers'[j].claimedAt == w.workers[j].claimedAt;
    forall j | j in workers'
      ensures Holds(ActDb(cfg, w, t, i, CallProvider(tr)), workers'[j])
    {
      assert Holds(w.db, w.workers[j]);
    }
  }

  lemma MarkSolo(cfg: Config, w: World, t: Time, i: nat)
    requires Solo(w) && Enabled(w, t, i, MarkJob)
    ensures AllHold(ActDb(cfg, w, t, i, MarkJob), ActWorkers(cfg, w, t, i, MarkJob))
    ensures DistinctJobs(ActWorkers(cfg, w, t, i, MarkJob))
  {
    forall j | j in w.workers - {i}
      ensures Holds(DoMark(cfg, w.db, t, w.workers[i]), w.workers[j])
    {
      assert Holds(w.db, w.workers[j]);
      MarkKeepsOthers(cfg, w.db, t, w.workers[i], w.workers[j].job.orderId);
    }
  }

  lemma ActSolo(cfg: Config, w: World, i: nat, act: WorkerAction)
    requires Solo(w)
    ensures Solo(Next(cfg, w, Act(i, act)))
  {
    var t := w.now + 1;
    if Enabled(w, t, i, act) {
      NextAct(cfg, w, i, act);
      match act
      case ClaimJob(o) => ClaimSolo(cfg, w, t, i, o);
      case CallProvider(tr) => CallSolo(cfg, w, t, i, tr);
      case MarkJob => MarkSolo(cfg, w, t, i);
      case Crash =>
    }
  }

  lemma ShopSolo(cfg: Config, w: World, s: ShopAction)
    requires Solo(w)
    ensures Solo(Next(cfg, w, Shop(s)))
  {
    NextShop(cfg, w, s);
    ShopKeepsProcessing(w.db, w.now + 1, s);
    KeptHold(w.db, ShopDb(w.db, w.now + 1, s), w.workers);
  }

  lemma UpkeepSolo(cfg: Config, w: World, u: UpkeepAction)
    requires Consistent(w.db) && Solo(w) && Fenced(w, Upkeep(u))
    ensures Solo(Next(cfg, w, Upkeep(u)))
  {
    NextUpkeep(cfg, w, u);
    if u.RecoverStale? {
      RecoverHolds(w.db, w.now + 1, w.workers);
    } else {
      UpkeepKeepsProcessing(w.db, w.now + 1, u);
      KeptHold(w.db, UpkeepDb(w.db, w.now + 1, u), w.workers);
    }
  }

  /** As long as the recovery is fenced, workers stay alone with their jobs. */
  lemma NextSolo(cfg: Config, w: World, a: Action)
    requires Consistent(w.db) && Solo(w) && Fenced(w, a)
    ensures Solo(Next(cfg, w, a))
  {
    match a
    case Wait(d) => assert Next(cfg, w, a) == w.(now := w.now + d);
    case Shop(s) => ShopSolo(cfg, w, s);
    case Upkeep(u) => UpkeepSolo(cfg, w, u);
    case Act(i, act) => ActSolo(cfg, w, i, act);
  }
}
