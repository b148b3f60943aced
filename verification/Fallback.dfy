/** A timeout is not a refusal: when provider B may be asked, and what that means for keys. */
module Fallback {
  import opened Prelude
  import opened Model
  import opened Queue
  import opened Providers
  import opened Retry
  import opened Status
  import opened Stock
  import opened History
  import opened World
  import opened Safety
  import opened Exclusion

  /** A worker that asks provider B, or is about to record a code of provider B. */
  predicate OnB(phase: Phase) {
    phase.CallB? || (phase.Marking? && phase.decision.Deliver? && phase.decision.provider.ProviderB?)
  }

  /**
   * The last attempt at A is reported unavailable without an answer, although A has issued for the
   * request: before, or by this very call, which spent a key before its connection was cut.
   */
  predicate LateCall(n: nat, db: Db, wk: Worker, tr: Transit) {
    && wk.phase.CallA? && wk.phase.k >= n && Unanswered(tr)
    && ((ProviderA, wk.job.requestId) in db.issues ||
        (tr.Cut? && Allocates(db, ProviderA, RequestOf(wk.job), tr.refuse)))
  }

  predicate LateFallback(cfg: Config, w: World, a: Action) {
    && a.Act? && a.act.CallProvider? && a.worker in w.workers
    && LateCall(Attempts(cfg.retries), w.db, w.workers[a.worker], a.act.transit)
  }

  /** No worker is on B while A holds an issue. */
  ghost predicate BAlone(db: Db, workers: map<nat, Worker>) {
    forall i :: i in workers && OnB(workers[i].phase) ==> (ProviderA, workers[i].job.requestId) !in db.issues
  }

  /** A job delivered by B has no issue at A. */
  ghost predicate DeliveredByBAlone(db: Db) {
    forall o :: o in db.attempts && db.attempts[o].provider == Some(ProviderB) ==>
      (ProviderA, db.attempts[o].requestId) !in db.issues
  }

  /** Where both providers issued, B issued first. */
  ghost predicate BFirst(db: Db, now: Time) {
    && (forall p, r :: (p, r) in db.issues ==> db.issues[(p, r)].createdAt <= now)
    && (forall r :: (ProviderA, r) in db.issues && (ProviderB, r) in db.issues ==>
          db.issues[(ProviderB, r)].createdAt < db.issues[(ProviderA, r)].createdAt)
  }

  ghost predicate FallbackOk(w: World) {
    BAlone(w.db, w.workers) && DeliveredByBAlone(w.db) && BFirst(w.db, w.now)
  }

  // ----- one call -----

  /** A worker leaves A for B only if A holds no issue for the request. */
  lemma FallbackMeansNoIssue(n: nat, db: Db, t: Time, wk: Worker, tr: Transit)
    requires wk.phase.CallA? && !LateCall(n, db, wk, tr)
    requires AfterResult(n, wk.phase, DoCall(db, t, wk, tr).1).CallB?
    ensures (ProviderA, wk.job.requestId) !in DoCall(db, t, wk, tr).0.issues
  {
    if tr.Replied? {
      RoundTrip(RequestOf(wk.job), IssueCode(db, t, ProviderA, RequestOf(wk.job), tr.refuse).1);
      IssueIsRecorded(db, t, ProviderA, RequestOf(wk.job), tr.refuse);
    }
  }

  /** A call makes a run go on to provider B although A holds an issue exactly if it is such a call. */
  lemma LateFallbackExactly(n: nat, db: Db, t: Time, wk: Worker, tr: Transit)
    requires wk.phase.CallA? && 1 <= wk.phase.k <= n
    ensures var (db', r) := DoCall(db, t, wk, tr);
      (AfterResult(n, wk.phase, r).CallB? && (ProviderA, wk.job.requestId) in db'.issues)
      <==> LateCall(n, db, wk, tr)
  {
    if tr.Cut? {
      IssueConserves(db, t, ProviderA, RequestOf(wk.job), tr.refuse);
    }
    if !LateCall(n, db, wk, tr) && AfterResult(n, wk.phase, DoCall(db, t, wk, tr).1).CallB? {
      FallbackMeansNoIssue(n, db, t, wk, tr);
    }
  }

  /** A call adds no issue of the other provider and none for another request. */
  lemma CallSparesOthers(db: Db, t: Time, wk: Worker, tr: Transit, p: Provider, r: string)
    requires p != ProviderOf(wk.phase) || r != wk.job.requestId
    ensures (p, r) in DoCall(db, t, wk, tr).0.issues <==> (p, r) in db.issues
    ensures (p, r) in db.issues ==> DoCall(db, t, wk, tr).0.issues[(p, r)] == db.issues[(p, r)]
  {
    CallIssues(db, t, ProviderOf(wk.phase), RequestOf(wk.job), tr);
    CallLater(db, t, ProviderOf(wk.phase), RequestOf(wk.job), tr);
  }

  lemma CallKeepsBAlone(cfg: Config, w: World, t: Time, i: nat, tr: Transit)
    requires Safe(cfg, w) && Solo(w) && BAlone(w.db, w.workers) && Enabled(w, t, i, CallProvider(tr))
    requires !LateCall(Attempts(cfg.retries), w.db, w.workers[i], tr)
    ensures BAlone(ActDb(cfg, w, t, i, CallProvider(tr)), ActWorkers(cfg, w, t, i, CallProvider(tr)))
  {
    var n := Attempts(cfg.retries);
    var wk := w.workers[i];
    var workers' := ActWorkers(cfg, w, t, i, CallProvider(tr));
    assert JobKnown(w.db, wk.job) && PhaseOk(n, w.db, wk);
    forall j | j in workers' && OnB(workers'[j].phase)
      ensures (ProviderA, workers'[j].job.requestId) !in DoCall(w.db, t, wk, tr).0.issues
    {
      if j == i {
        if wk.phase.CallA? {
          FallbackMeansNoIssue(n, w.db, t, wk, tr);
        } else {
          CallSparesOthers(w.db, t, wk, tr, ProviderA, wk.job.requestId);
        }
      } else {
        assert JobKnown(w.db, w.workers[j].job);
        if w.workers[j].job.requestId == wk.job.requestId {
          RequestIdInjective(w.workers[j].job.orderId, wk.job.orderId);
        }
        CallSparesOthers(w.db, t, wk, tr, ProviderA, w.workers[j].job.requestId);
      }
    }
  }

  /** A job that is not the worker's own is not touched by its call. */
  lemma CallKeepsDelivered(cfg: Config, w: World, t: Time, i: nat, tr: Transit)
    requires Safe(cfg, w) && Solo(w) && DeliveredByBAlone(w.db) && Enabled(w, t, i, CallProvider(tr))
    ensures DeliveredByBAlone(ActDb(cfg, w, t, i, CallProvider(tr)))
  {
    var wk := w.workers[i];
    CallKeepsJobs(w.db, t, wk, tr);
    assert JobKnown(w.db, wk.job) && Holds(w.db, wk);
    forall o | o in w.db.attempts && w.db.attempts[o].provider == Some(ProviderB)
      ensures (ProviderA, w.db.attempts[o].requestId) !in DoCall(w.db, t, wk, tr).0.issues
    {
      assert OrderOk(w.db, o);
      if w.db.attempts[o].requestId == wk.job.requestId {
        RequestIdInjective(o, wk.job.orderId);
      }
      CallSparesOthers(w.db, t, wk, tr, ProviderA, w.db.attempts[o].requestId);
    }
  }

  lemma CallKeepsBFirst(db: Db, now: Time, t: Time, wk: Worker, tr: Transit)
    requires BFirst(db, now) && now < t
    requires wk.phase.CallB? ==> (ProviderA, wk.job.requestId) !in db.issues
    ensures BFirst(DoCall(db, t, wk, tr).0, t)
  {
    CallIssues(db, t, ProviderOf(wk.phase), RequestOf(wk.job), tr);
    CallLater(db, t, ProviderOf(wk.phase), RequestOf(wk.job), tr);
  }

  // ----- the other steps -----

  /** Steps that issue nothing and deliver nothing. */
  lemma StepKeepsB(db: Db, db': Db, now: Time, now': Time)
    requires DeliveredByBAlone(db) && BFirst(db, now) && now <= now'
    requires Later(db, db') && db'.issues == db.issues && DeliversNothing(db, db') && Consistent(db) && Consistent(db')
    ensures DeliveredByBAlone(db') && BFirst(db', now')
  {
    forall o | o in db'.attempts && db'.attempts[o].provider == Some(ProviderB)
      ensures (ProviderA, db'.attempts[o].requestId) !in db'.issues
    {
      assert OrderOk(db', o);
      assert JobLater(db.attempts[o], db'.attempts[o]);
    }
  }

  lemma MarkKeepsDelivered(cfg: Config, w: World, t: Time, i: nat)
    requires Safe(cfg, w) && BAlone(w.db, w.workers) && DeliveredByBAlone(w.db) && Enabled(w, t, i, MarkJob)
    ensures DeliveredByBAlone(ActDb(cfg, w, t, i, MarkJob))
  {
    var wk, db' := w.workers[i], ActDb(cfg, w, t, i, MarkJob);
    assert JobKnown(w.db, wk.job);
    forall o | o in db'.attempts && db'.attempts[o].provider == Some(ProviderB)
      ensures (ProviderA, db'.attempts[o].requestId) !in db'.issues
    {
      MarkProvider(cfg, w.db, t, wk, o);
    }
  }

  /** A mark sets no provider but the one it delivers for, and only in its own job. */
  lemma MarkProvider(cfg: Config, db: Db, t: Time, wk: Worker, o: OrderId)
    requires wk.phase.Marking? && o in DoMark(cfg, db, t, wk).attempts
    ensures DoMark(cfg, db, t, wk).issues == db.issues
    ensures o in db.attempts && DoMark(cfg, db, t, wk).attempts[o].requestId == db.attempts[o].requestId
    ensures DoMark(cfg, db, t, wk).attempts[o].provider == db.attempts[o].provider ||
            (o == wk.job.orderId && wk.phase.decision.Deliver?
             && DoMark(cfg, db, t, wk).attempts[o].provider == Some(wk.phase.decision.provider))
  {
  }

  lemma ShopQuiet(db: Db, now: Time, t: Time, s: ShopAction)
    requires Consistent(db) && DeliveredByBAlone(db) && BFirst(db, now) && now <= t
    ensures DeliveredByBAlone(ShopDb(db, t, s)) && BFirst(ShopDb(db, t, s), t)
    ensures ShopDb(db, t, s).issues == db.issues
  {
    var db' := ShopDb(db, t, s);
    assert db'.issues == db.issues by { ShopIssues(db, t, s); }
    assert Later(db, db') by { ShopLater(db, t, s); }
    assert Consistent(db') by { ShopConsistent(db, t, s); }
    assert DeliversNothing(db, db') by { ShopDeliversNothing(db, t, s); }
    StepKeepsB(db, db', now, t);
  }

  lemma UpkeepQuiet(db: Db, now: Time, t: Time, u: UpkeepAction)
    requires Consistent(db) && DeliveredByBAlone(db) && BFirst(db, now) && now <= t
    ensures DeliveredByBAlone(UpkeepDb(db, t, u)) && BFirst(UpkeepDb(db, t, u), t)
    ensures UpkeepDb(db, t, u).issues == db.issues
  {
    var db' := UpkeepDb(db, t, u);
    assert db'.issues == db.issues by { UpkeepStock(db, t, u); }
    assert Later(db, db') by { UpkeepLater(db, t, u); }
    assert Consistent(db') by { UpkeepConsistent(db, t, u); }
    assert DeliversNothing(db, db') by { UpkeepDeliversNothing(db, t, u); }
    StepKeepsB(db, db', now, t);
  }

  lemma ClaimQuiet(db: Db, now: Time, t: Time, o: OrderId)
    requires Consistent(db) && DeliveredByBAlone(db) && BFirst(db, now) && now <= t && Claimable(db, t, o)
    ensures DeliveredByBAlone(Claim(db, t, o)) && BFirst(Claim(db, t, o), t)
  {
    ClaimLater(db, t, o);
    ClaimConsistent(db, t, o);
    StepKeepsB(db, Claim(db, t, o), now, t);
  }

  lemma MarkQuiet(cfg: Config, w: World, t: Time, i: nat)
    requires BFirst(w.db, w.now) && w.now <= t && Enabled(w, t, i, MarkJob) && BAlone(w.db, w.workers)
    ensures BFirst(ActDb(cfg, w, t, i, MarkJob), t)
    ensures BAlone(ActDb(cfg, w, t, i, MarkJob), ActWorkers(cfg, w, t, i, MarkJob))
  {
    assert DoMark(cfg, w.db, t, w.workers[i]).issues == w.db.issues;
  }

  lemma CallQuiet(cfg: Config, w: World, i: nat, tr: Transit)
    requires Safe(cfg, w) && Solo(w) && FallbackOk(w)
    requires Enabled(w, w.now + 1, i, CallProvider(tr)) && !LateCall(Attempts(cfg.retries), w.db, w.workers[i], tr)
    ensures var act := CallProvider(tr); var t := w.now + 1;
      && BAlone(ActDb(cfg, w, t, i, act), ActWorkers(cfg, w, t, i, act))
      && DeliveredByBAlone(ActDb(cfg, w, t, i, act)) && BFirst(ActDb(cfg, w, t, i, act), t)
  {
    var t := w.now + 1;
    CallKeepsBAlone(cfg, w, t, i, tr);
    CallKeepsDelivered(cfg, w, t, i, tr);
    CallKeepsBFirst(w.db, w.now, t, w.workers[i], tr);
  }

  lemma ActQuiet(cfg: Config, w: World, i: nat, act: WorkerAction)
    requires Safe(cfg, w) && Solo(w) && FallbackOk(w) && !LateFallback(cfg, w, Act(i, act))
    requires Enabled(w, w.now + 1, i, act)
    ensures BAlone(ActDb(cfg, w, w.now + 1, i, act), ActWorkers(cfg, w, w.now + 1, i, act))
    ensures DeliveredByBAlone(ActDb(cfg, w, w.now + 1, i, act))
    ensures BFirst(ActDb(cfg, w, w.now + 1, i, act), w.now + 1)
  {
    var t := w.now + 1;
    match act
    case ClaimJob(o) => ClaimQuiet(w.db, w.now, t, o);
    case CallProvider(tr) => CallQuiet(cfg, w, i, tr);
    case MarkJob =>
      MarkKeepsDelivered(cfg, w, t, i);
      MarkQuiet(cfg, w, t, i);
    case Crash =>
  }

  lemma ActStepQuiet(cfg: Config, w: World, i: nat, act: WorkerAction)
    requires Safe(cfg, w) && Solo(w) && FallbackOk(w) && !LateFallback(cfg, w, Act(i, act))
    ensures FallbackOk(Next(cfg, w, Act(i, act)))
  {
    if Enabled(w, w.now + 1, i, act) {
      NextAct(cfg, w, i, act);
      ActQuiet(cfg, w, i, act);
    } else {
      assert Next(cfg, w, Act(i, act)) == w.(now := w.now + 1);
    }
  }

  lemma NextFallbackOk(cfg: Config, w: World, a: Action)
    requires Safe(cfg, w) && Solo(w) && FallbackOk(w) && !LateFallback(cfg, w, a)
    ensures FallbackOk(Next(cfg, w, a))
  {
    match a
    case Wait(d) => assert Next(cfg, w, a) == w.(now := w.now + d);
    case Shop(s) => ShopStepQuiet(cfg, w, s);
    case Upkeep(u) => UpkeepStepQuiet(cfg, w, u);
    case Act(i, act) => ActStepQuiet(cfg, w, i, act);
  }

  lemma ShopStepQuiet(cfg: Config, w: World, s: ShopAction)
    requires Consistent(w.db) && FallbackOk(w)
    ensures FallbackOk(Next(cfg, w, Shop(s)))
  {
    NextShop(cfg, w, s);
    ShopQuiet(w.db, w.now, w.now + 1, s);
  }

  lemma UpkeepStepQuiet(cfg: Config, w: World, u: UpkeepAction)
    requires Consistent(w.db) && FallbackOk(w)
    ensures FallbackOk(Next(cfg, w, Upkeep(u)))
  {
    UpkeepQuiet(w.db, w.now, w.now + 1, u);
    assert Next(cfg, w, Upkeep(u)) == World(UpkeepDb(w.db, w.now + 1, u), w.now + 1, w.workers) by {
      NextUpkeep(cfg, w, u);
    }
  }

  // ----- every run -----

  /** A run in which the recovery takes no job from a live worker. */
  ghost predicate FencedRun(cfg: Config, w: World, acts: seq<Action>)
    decreases acts
  {
    acts == [] || (Fenced(w, acts[0]) && FencedRun(cfg, Next(cfg, w, acts[0]), acts[1..]))
  }

  /** A run without a late fallback. */
  predicate NeverLate(cfg: Config, w: World, acts: seq<Action>)
    decreases acts
  {
    acts == [] || (!LateFallback(cfg, w, acts[0]) && NeverLate(cfg, Next(cfg, w, acts[0]), acts[1..]))
  }

  ghost predicate Orderly(cfg: Config, w: World, acts: seq<Action>) {
    FencedRun(cfg, w, acts) && NeverLate(cfg, w, acts)
  }

  lemma {:induction false} OrderlyRun(cfg: Config, w: World, acts: seq<Action>)
    requires Safe(cfg, w) && Solo(w) && FallbackOk(w) && Orderly(cfg, w, acts)
    ensures Safe(cfg, Run(cfg, w, acts)) && Solo(Run(cfg, w, acts)) && FallbackOk(Run(cfg, w, acts))
    decreases acts
  {
    if acts != [] {
      NextSafe(cfg, w, acts[0]);
      NextSolo(cfg, w, acts[0]);
      NextFallbackOk(cfg, w, acts[0]);
      OrderlyRun(cfg, Next(cfg, w, acts[0]), acts[1..]);
    }
  }

  /** At no point of the run is a worker on B while A holds an issue for its request. */
  ghost predicate AlwaysBAlone(cfg: Config, w: World, acts: seq<Action>)
    decreases acts
  {
    BAlone(w.db, w.workers) && (acts == [] || AlwaysBAlone(cfg, Next(cfg, w, acts[0]), acts[1..]))
  }

  lemma LateIsNotAlone(cfg: Config, w: World, a: Action)
    requires Safe(cfg, w) && LateFallback(cfg, w, a)
    ensures !BAlone(Next(cfg, w, a).db, Next(cfg, w, a).workers)
  {
    var wk := w.workers[a.worker];
    NextAct(cfg, w, a.worker, a.act);
    assert PhaseOk(Attempts(cfg.retries), w.db, wk);
    LateFallbackExactly(Attempts(cfg.retries), w.db, w.now + 1, wk, a.act.transit);
    assert OnB(Next(cfg, w, a).workers[a.worker].phase);
  }

  lemma {:induction false} AlwaysBAloneExactly(cfg: Config, w: World, acts: seq<Action>)
    requires Safe(cfg, w) && Solo(w) && FallbackOk(w) && FencedRun(cfg, w, acts)
    ensures AlwaysBAlone(cfg, w, acts) <==> NeverLate(cfg, w, acts)
    decreases acts
  {
    if acts != [] {
      NextSafe(cfg, w, acts[0]);
      NextSolo(cfg, w, acts[0]);
      if LateFallback(cfg, w, acts[0]) {
        LateIsNotAlone(cfg, w, acts[0]);
      } else {
        NextFallbackOk(cfg, w, acts[0]);
        AlwaysBAloneExactly(cfg, Next(cfg, w, acts[0]), acts[1..]);
      }
    }
  }

  /**
   * In any run in which the recovery takes no job from a live worker: no worker is ever on B while A
   * holds an issue for its request, if and only if there is no late fallback.
   */
  lemma FallbackIsSafeExactly(cfg: Config, acts: seq<Action>)
    requires FencedRun(cfg, START, acts)
    ensures AlwaysBAlone(cfg, START, acts) <==> NeverLate(cfg, START, acts)
  {
    SafeStart(cfg);
    AlwaysBAloneExactly(cfg, START, acts);
  }

  // ----- every run, fenced or not -----

  /** A call spends a key at A for a request for which another worker is on B. */
  predicate Undercut(w: World, a: Action) {
    && a.Act? && a.act.CallProvider? && a.worker in w.workers
    && var wk, tr := w.workers[a.worker], a.act.transit;
       && wk.phase.CallA? && Arrives(tr) && Allocates(w.db, ProviderA, RequestOf(wk.job), tr.refuse)
       && exists j :: j in w.workers && OnB(w.workers[j].phase) && w.workers[j].job.requestId == wk.job.requestId
  }

  lemma OtherWorkerStep(cfg: Config, w: World, i: nat, act: WorkerAction)
    requires BAlone(w.db, w.workers) && !(act.CallProvider? && Enabled(w, w.now + 1, i, act))
    ensures BAlone(Next(cfg, w, Act(i, act)).db, Next(cfg, w, Act(i, act)).workers)
  {
    if Enabled(w, w.now + 1, i, act) {
      NextAct(cfg, w, i, act);
      assert ActDb(cfg, w, w.now + 1, i, act).issues == w.db.issues;
    }
  }

  /** The requests for which A has issued after a call. */
  lemma CallIssuesOfA(db: Db, t: Time, wk: Worker, tr: Transit, r: string)
    ensures (ProviderA, r) in DoCall(db, t, wk, tr).0.issues <==>
            || (ProviderA, r) in db.issues
            || (ProviderOf(wk.phase).ProviderA? && r == wk.job.requestId && Arrives(tr)
                && Allocates(db, ProviderA, RequestOf(wk.job), tr.refuse))
  {
    if Arrives(tr) {
      IssueAllocates(db, t, ProviderOf(wk.phase), RequestOf(wk.job), tr.refuse);
    }
  }

  /** What a call on B leaves: A has issued for no more requests, and the worker was on B before. */
  lemma CallOnBKeeps(cfg: Config, w: World, i: nat, tr: Transit)
    requires BAlone(w.db, w.workers) && Enabled(w, w.now + 1, i, CallProvider(tr)) && w.workers[i].phase.CallB?
    ensures BAlone(ActDb(cfg, w, w.now + 1, i, CallProvider(tr)), ActWorkers(cfg, w, w.now + 1, i, CallProvider(tr)))
  {
    var workers' := ActWorkers(cfg, w, w.now + 1, i, CallProvider(tr));
    forall j | j in workers' && OnB(workers'[j].phase)
      ensures (ProviderA, workers'[j].job.requestId) !in DoCall(w.db, w.now + 1, w.workers[i], tr).0.issues
    {
      CallIssuesOfA(w.db, w.now + 1, w.workers[i], tr, workers'[j].job.requestId);
    }
  }

  /** Worker `j`, after a call of worker `i` on A. */
  lemma CallOnALeaves(cfg: Config, w: World, i: nat, tr: Transit, j: nat)
    requires Safe(cfg, w) && BAlone(w.db, w.workers) && Enabled(w, w.now + 1, i, CallProvider(tr))
    requires w.workers[i].phase.CallA? && j in w.workers
    ensures var wk := ActWorkers(cfg, w, w.now + 1, i, CallProvider(tr))[j];
      (OnB(wk.phase) && (ProviderA, wk.job.requestId) in DoCall(w.db, w.now + 1, w.workers[i], tr).0.issues) <==>
      if j == i then LateFallback(cfg, w, Act(i, CallProvider(tr)))
      else OnB(w.workers[j].phase) && w.workers[j].job.requestId == w.workers[i].job.requestId
           && Arrives(tr) && Allocates(w.db, ProviderA, RequestOf(w.workers[i].job), tr.refuse)
  {
    if j == i {
      assert PhaseOk(Attempts(cfg.retries), w.db, w.workers[i]);
      LateFallbackExactly(Attempts(cfg.retries), w.db, w.now + 1, w.workers[i], tr);
    } else {
      CallIssuesOfA(w.db, w.now + 1, w.workers[i], tr, w.workers[j].job.requestId);
    }
  }

  lemma CallBAlone(cfg: Config, w: World, i: nat, tr: Transit)
    requires Safe(cfg, w) && BAlone(w.db, w.workers) && Enabled(w, w.now + 1, i, CallProvider(tr))
    ensures BAlone(ActDb(cfg, w, w.now + 1, i, CallProvider(tr)), ActWorkers(cfg, w, w.now + 1, i, CallProvider(tr)))
            <==> !LateFallback(cfg, w, Act(i, CallProvider(tr))) && !Undercut(w, Act(i, CallProvider(tr)))
  {
    if w.workers[i].phase.CallA? {
      assert ActWorkers(cfg, w, w.now + 1, i, CallProvider(tr)).Keys == w.workers.Keys;
      forall j | j in w.workers {
        CallOnALeaves(cfg, w, i, tr, j);
      }
    } else {
      CallOnBKeeps(cfg, w, i, tr);
    }
  }

  /** Whatever the step: no worker is on B while A holds an issue, exactly if the step is of neither kind. */
  lemma StepBAlone(cfg: Config, w: World, a: Action)
    requires Safe(cfg, w) && BAlone(w.db, w.workers)
    ensures BAlone(Next(cfg, w, a).db, Next(cfg, w, a).workers) <==> !LateFallback(cfg, w, a) && !Undercut(w, a)
  {
    match a
    case Wait(_) =>
    case Shop(s) =>
      NextShop(cfg, w, s);
      ShopIssues(w.db, w.now + 1, s);
    case Upkeep(u) =>
      NextUpkeep(cfg, w, u);
      UpkeepStock(w.db, w.now + 1, u);
    case Act(i, act) =>
      if act.CallProvider? && Enabled(w, w.now + 1, i, act) {
        NextAct(cfg, w, i, act);
        CallBAlone(cfg, w, i, act.transit);
      } else {
        OtherWorkerStep(cfg, w, i, act);
      }
  }

  predicate NeverUndercut(cfg: Config, w: World, acts: seq<Action>)
    decreases acts
  {
    acts == [] || (!Undercut(w, acts[0]) && NeverUndercut(cfg, Next(cfg, w, acts[0]), acts[1..]))
  }

  /**
   * In any run, with any number of workers on one job: no worker is ever on B while A holds an issue
   * for its request, if and only if there is no late fallback and no worker spends a key at A while
   * another is on B for the same request.
   */
  lemma {:induction false} BAloneExactly(cfg: Config, w: World, acts: seq<Action>)
    requires Safe(cfg, w) && BAlone(w.db, w.workers)
    ensures AlwaysBAlone(cfg, w, acts) <==> NeverLate(cfg, w, acts) && NeverUndercut(cfg, w, acts)
    decreases acts
  {
    if acts != [] {
      var w' := Next(cfg, w, acts[0]);
      NextSafe(cfg, w, acts[0]);
      StepBAlone(cfg, w, acts[0]);
      if BAlone(w'.db, w'.workers) {
        BAloneExactly(cfg, w', acts[1..]);
      } else {
        assert !AlwaysBAlone(cfg, w', acts[1..]);
      }
    }
  }

  // ----- what it is good for -----

  /**
   * In every orderly run: while B is asked for a request, A holds no issue for it; a job delivered
   * by B has no issue at A; and where both providers issued for one order, B issued first and its
   * issue never was recorded.
   */
  lemma NoFallbackAfterIssue(cfg: Config, acts: seq<Action>)
    requires Orderly(cfg, START, acts)
    ensures var w := Run(cfg, START, acts);
      && (forall i :: i in w.workers && w.workers[i].phase.CallB? ==>
            (ProviderA, w.workers[i].job.requestId) !in w.db.issues)
      && (forall o :: o in w.db.attempts && TwiceIssued(w.db, w.db.attempts[o].requestId) ==>
            && w.db.attempts[o].provider != Some(ProviderB)
            && w.db.issues[(ProviderB, w.db.attempts[o].requestId)].createdAt <
               w.db.issues[(ProviderA, w.db.attempts[o].requestId)].createdAt)
  {
    SafeStart(cfg);
    OrderlyRun(cfg, START, acts);
  }
}
