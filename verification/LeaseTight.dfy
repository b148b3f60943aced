/**
 * The bound on the lease is exact: a longer run can lose its job while it is still alive, and if it is
 * longer by more than an instant, another worker can hold the same job beside it.
 */
module LeaseTight {
  import opened Model
  import opened Queue
  import opened Providers
  import opened Retry
  import opened World
  import opened Safety
  import opened Exclusion
  import opened Lease
  import opened FirstSteps
  import opened Runs

  const CLAIMED: seq<Action> := PAID + [Act(0, ClaimJob(ORDER))]

  /** Worker 0 is alone, has used up all the time it had so far, and nothing has been issued. */
  ghost predicate Slow(cfg: Config, tm: Timing, w: World, phase: Phase, c: Time) {
    && w.workers.Keys == {0} && w.db.issues == map[]
    && var wk := w.workers[0];
       && wk.phase == phase && wk.claimedAt == c && wk.since == w.now
       && wk.job.orderId == ORDER && wk.job.sku == SKU && wk.job.requestId == RequestIdFor(ORDER)
       && Holds(w.db, wk) && w.db.attempts.Keys == {ORDER}
       && ORDER in w.db.orders && w.db.orders[ORDER].status.OrderDelivering?
       && (phase.Marking? || 1 <= phase.k <= Attempts(cfg.retries))
       && w.now + Budget(tm, phase) == c + Elapsed(tm, Attempts(cfg.retries), phase)
  }

  lemma {:induction false} TimelyAppend(cfg: Config, tm: Timing, w: World, xs: seq<Action>, ys: seq<Action>)
    requires TimelyRun(cfg, tm, w, xs) && TimelyRun(cfg, tm, Run(cfg, w, xs), ys)
    ensures TimelyRun(cfg, tm, w, xs + ys)
    decreases xs
  {
    if xs == [] {
      assert xs + ys == ys;
    } else {
      assert (xs + ys)[1..] == xs[1..] + ys;
      TimelyAppend(cfg, tm, Next(cfg, w, xs[0]), xs[1..], ys);
    }
  }

  /** A call that takes all the time it may, and ends in a timeout or a refusal. */
  lemma SlowCall(cfg: Config, tm: Timing, w: World, phase: Phase, c: Time, refuse: bool) returns (acts: seq<Action>)
    requires Slow(cfg, tm, w, phase, c) && !phase.Marking? && tm.timeout >= 1
    requires refuse <==> phase.CallA? && phase.k == Attempts(cfg.retries)
    ensures TimelyRun(cfg, tm, w, acts)
    ensures Slow(cfg, tm, Run(cfg, w, acts),
              AfterResult(Attempts(cfg.retries), phase, Err(if refuse then Unavailable else Timeout)), c)
  {
    var n := Attempts(cfg.retries);
    var call := Act(0, CallProvider(if refuse then Replied(true) else NotSent));
    var wait := Wait(Budget(tm, phase) - 1);
    acts := [wait, call];
    var w1 := Next(cfg, w, wait);
    assert w1 == w.(now := w.now + Budget(tm, phase) - 1);
    assert Timely(tm, w, wait) && Timely(tm, w1, call);
    assert acts[1..] == [call] && [call][1..] == [];
    assert TimelyRun(cfg, tm, Next(cfg, w1, call), []);
    assert TimelyRun(cfg, tm, w1, [call]);
    assert TimelyRun(cfg, tm, w, acts);
    RunTwo(cfg, w, wait, call);
    NextAct(cfg, w1, 0, call.act);
    var wk := w.workers[0];
    assert DoCall(w.db, w1.now + 1, wk, call.act.transit) == (w.db, Err(if refuse then Unavailable else Timeout));
    ChainTimeStep(tm, phase.k);
    assert ChainTime(tm, 1) == tm.timeout;
  }

  /** Slow calls one after the other, up to the mark (`left` = 0) or to some call before it. */
  lemma {:induction false} SlowChain(cfg: Config, tm: Timing, w: World, phase: Phase, c: Time, left: nat)
    returns (acts: seq<Action>)
    requires Slow(cfg, tm, w, phase, c) && tm.timeout >= 1 && left <= CallsLeft(Attempts(cfg.retries), phase)
    ensures TimelyRun(cfg, tm, w, acts)
    ensures exists end :: Slow(cfg, tm, Run(cfg, w, acts), end, c) && CallsLeft(Attempts(cfg.retries), end) == left
    decreases CallsLeft(Attempts(cfg.retries), phase)
  {
    var n := Attempts(cfg.retries);
    if CallsLeft(n, phase) == left {
      acts := [];
      assert Slow(cfg, tm, Run(cfg, w, []), phase, c);
    } else {
      var refuse := phase.CallA? && phase.k == n;
      var first := SlowCall(cfg, tm, w, phase, c, refuse);
      var next := AfterResult(n, phase, Err(if refuse then Unavailable else Timeout));
      var rest := SlowChain(cfg, tm, Run(cfg, w, first), next, c, left);
      acts := first + rest;
      TimelyAppend(cfg, tm, w, first, rest);
      RunAppend(cfg, w, first, rest);
    }
  }

  // ----- the claim -----

  lemma ClaimedWorld(cfg: Config, tm: Timing)
    ensures Slow(cfg, tm, Run(cfg, START, CLAIMED), CallA(1), 4)
  {
    var w3 := World(Paid(), 3, map[]);
    PaidWorld(cfg);
    RunAppend(cfg, START, PAID, [Act(0, ClaimJob(ORDER))]);
    RunCons(cfg, w3, Act(0, ClaimJob(ORDER)), []);
    assert [Act(0, ClaimJob(ORDER))] + [] == [Act(0, ClaimJob(ORDER))];
    assert IsNext(Paid(), 4, ORDER);
    NextAct(cfg, w3, 0, ClaimJob(ORDER));
    assert ChainTime(tm, 1) == tm.timeout;
  }

  lemma {:induction false} NobodyIsLate(cfg: Config, tm: Timing, w: World, acts: seq<Action>)
    requires w.workers == map[] && forall i :: 0 <= i < |acts| ==> acts[i].Shop?
    ensures TimelyRun(cfg, tm, w, acts)
    decreases acts
  {
    if acts != [] {
      NobodyIsLate(cfg, tm, Next(cfg, w, acts[0]), acts[1..]);
    }
  }

  lemma ClaimedIsTimely(cfg: Config, tm: Timing)
    ensures TimelyRun(cfg, tm, START, CLAIMED)
  {
    PaidWorld(cfg);
    NobodyIsLate(cfg, tm, START, PAID);
    var w3 := World(Paid(), 3, map[]);
    assert [Act(0, ClaimJob(ORDER))][1..] == [];
    assert TimelyRun(cfg, tm, Next(cfg, w3, Act(0, ClaimJob(ORDER))), []);
    assert TimelyRun(cfg, tm, w3, [Act(0, ClaimJob(ORDER))]);
    TimelyAppend(cfg, tm, START, PAID, [Act(0, ClaimJob(ORDER))]);
  }

  /** A run from the start to the mark of a slow worker, or to its last call. */
  lemma SlowRun(cfg: Config, tm: Timing, left: nat) returns (acts: seq<Action>, end: Phase)
    requires tm.timeout >= 1 && left <= 1
    ensures TimelyRun(cfg, tm, START, acts) && Slow(cfg, tm, Run(cfg, START, acts), end, 4)
    ensures CallsLeft(Attempts(cfg.retries), end) == left
  {
    ClaimedWorld(cfg, tm);
    ClaimedIsTimely(cfg, tm);
    var w4 := Run(cfg, START, CLAIMED);
    var calls := SlowChain(cfg, tm, w4, CallA(1), 4, left);
    end :| Slow(cfg, tm, Run(cfg, w4, calls), end, 4) && CallsLeft(Attempts(cfg.retries), end) == left;
    acts := CLAIMED + calls;
    TimelyAppend(cfg, tm, START, CLAIMED, calls);
    RunAppend(cfg, START, CLAIMED, calls);
  }

  // ----- the bound is exact -----

  /** Some timely run lets the recovery take a job from a worker that is still within its budget. */
  ghost predicate CanLoseJob(cfg: Config, tm: Timing) {
    exists acts :: TimelyRun(cfg, tm, START, acts)
      && Timely(tm, Run(cfg, START, acts), Upkeep(RecoverStale))
      && !Fenced(Run(cfg, START, acts), Upkeep(RecoverStale))
  }

  /** At its last instant a slow worker can lose its job. */
  lemma LoseAtEnd(cfg: Config, tm: Timing, w: World, phase: Phase, c: Time) returns (acts: seq<Action>)
    requires Slow(cfg, tm, w, phase, c) && Budget(tm, phase) >= 1
    requires Elapsed(tm, Attempts(cfg.retries), phase) > STALE_AFTER
    ensures TimelyRun(cfg, tm, w, acts) && Timely(tm, Run(cfg, w, acts), Upkeep(RecoverStale))
    ensures !Fenced(Run(cfg, w, acts), Upkeep(RecoverStale))
  {
    var wait := Wait(Budget(tm, phase) - 1);
    var w1 := w.(now := w.now + Budget(tm, phase) - 1);
    acts := [wait];
    RunOne(cfg, w, wait);
    assert Next(cfg, w, wait) == w1;
    assert TimelyRun(cfg, tm, w1, []) && acts[1..] == [];
    assert 0 in w1.workers && Stale(w1.db.attempts[ORDER], w1.now + 1);
  }

  lemma LongRunLosesJob(cfg: Config, tm: Timing)
    requires LeaseBudget(tm, Attempts(cfg.retries)) > STALE_AFTER && tm.timeout >= 1
    ensures CanLoseJob(cfg, tm)
  {
    var calls, end := SlowRun(cfg, tm, if tm.markSlack >= 1 then 0 else 1);
    var last := LoseAtEnd(cfg, tm, Run(cfg, START, calls), end, 4);
    TimelyAppend(cfg, tm, START, calls, last);
    RunAppend(cfg, START, calls, last);
  }

  /** The lease protects every live worker exactly when the longest run fits into it. */
  lemma LeaseIsExact(cfg: Config, tm: Timing)
    requires tm.timeout >= 1
    ensures CanLoseJob(cfg, tm) <==> LeaseBudget(tm, Attempts(cfg.retries)) > 120_000
  {
    if LeaseBudget(tm, Attempts(cfg.retries)) > STALE_AFTER {
      LongRunLosesJob(cfg, tm);
    } else if CanLoseJob(cfg, tm) {
      var acts :| TimelyRun(cfg, tm, START, acts)
        && Timely(tm, Run(cfg, START, acts), Upkeep(RecoverStale))
        && !Fenced(Run(cfg, START, acts), Upkeep(RecoverStale));
      LeaseBudgetClosedForm(tm, Attempts(cfg.retries));
      LeaseExclusion(cfg, tm, acts, Upkeep(RecoverStale));
      assert false;
    }
  }

  // ----- two live workers on one job -----

  /**
   * A worker at its last instant allows no further step, so a recovery at that instant comes too
   * late for a second claim. If a mark may take but one instant, the step that leads to it is in the
   * way of the recovery, too.
   */
  function Harmless(tm: Timing): Time {
    STALE_AFTER + 1 + if tm.markSlack == 1 then 1 else 0
  }

  /** In some timely run two live workers hold the same job. */
  ghost predicate CanShareJob(cfg: Config, tm: Timing) {
    exists acts :: TimelyRun(cfg, tm, START, acts) && !DistinctJobs(Run(cfg, START, acts).workers)
  }

  /** Some live worker is at its last instant. */
  ghost predicate Ended(tm: Timing, w: World) {
    exists i :: i in w.workers && w.workers[i].since + Budget(tm, w.workers[i].phase) <= w.now
  }

  /** No two live workers hold the same job, and as long as time can go on, all hold theirs. */
  ghost predicate Apart(cfg: Config, tm: Timing, w: World) {
    && Safe(cfg, w) && OnTime(tm, Attempts(cfg.retries), w.workers)
    && (forall i :: i in w.workers ==> w.workers[i].since <= w.now)
    && DistinctJobs(w.workers) && (AllHold(w.db, w.workers) || Ended(tm, w))
  }

  /** Within the harmless budget a worker whose job is taken away is at its last instant. */
  lemma TakenIsEnded(cfg: Config, tm: Timing, w: World, i: nat)
    requires Apart(cfg, tm, w) && Solo(w) && LeaseBudget(tm, Attempts(cfg.retries)) <= Harmless(tm)
    requires i in w.workers && Stale(w.db.attempts[w.workers[i].job.orderId], w.now + 1)
    ensures w.workers[i].since + Budget(tm, w.workers[i].phase) <= w.now + 1
  {
    var n, wk := Attempts(cfg.retries), w.workers[i];
    assert Holds(w.db, wk);
    if !wk.phase.Marking? {
      ChainTimeGrows(tm, wk.phase.k, n);
    }
  }

  lemma RecoverApart(cfg: Config, tm: Timing, w: World)
    requires Apart(cfg, tm, w) && Solo(w) && LeaseBudget(tm, Attempts(cfg.retries)) <= Harmless(tm)
    requires !Fenced(w, Upkeep(RecoverStale))
    ensures Ended(tm, Next(cfg, w, Upkeep(RecoverStale)))
  {
    NextUpkeep(cfg, w, RecoverStale);
    var i :| i in w.workers && w.workers[i].job.orderId in w.db.attempts
      && Stale(w.db.attempts[w.workers[i].job.orderId], w.now + 1);
    TakenIsEnded(cfg, tm, w, i);
    assert i in Next(cfg, w, Upkeep(RecoverStale)).workers;
  }

  lemma NextEntered(cfg: Config, w: World, a: Action)
    requires forall i :: i in w.workers ==> w.workers[i].since <= w.now
    ensures forall i :: i in Next(cfg, w, a).workers ==> Next(cfg, w, a).workers[i].since <= Next(cfg, w, a).now
  {
    if a.Act? && Enabled(w, w.now + 1, a.worker, a.act) {
      NextAct(cfg, w, a.worker, a.act);
    }
  }

  lemma NextApart(cfg: Config, tm: Timing, w: World, a: Action)
    requires Apart(cfg, tm, w) && Timely(tm, w, a) && LeaseBudget(tm, Attempts(cfg.retries)) <= Harmless(tm)
    ensures Apart(cfg, tm, Next(cfg, w, a))
  {
    if Ended(tm, w) {
      assert a == Wait(0);
      assert Next(cfg, w, a) == w;
    } else {
      NextSafe(cfg, w, a);
      NextOnTime(cfg, tm, w, a);
      NextEntered(cfg, w, a);
      if Fenced(w, a) {
        NextSolo(cfg, w, a);
      } else {
        RecoverApart(cfg, tm, w);
        NextUpkeep(cfg, w, RecoverStale);
      }
    }
  }

  lemma {:induction false} RunApart(cfg: Config, tm: Timing, w: World, acts: seq<Action>)
    requires Apart(cfg, tm, w) && TimelyRun(cfg, tm, w, acts)
    requires LeaseBudget(tm, Attempts(cfg.retries)) <= Harmless(tm)
    ensures DistinctJobs(Run(cfg, w, acts).workers)
    decreases acts
  {
    if acts != [] {
      NextApart(cfg, tm, w, acts[0]);
      RunApart(cfg, tm, Next(cfg, w, acts[0]), acts[1..]);
    }
  }

  /** Within the harmless budget no timely run lets two live workers hold the same job. */
  lemma NoSharing(cfg: Config, tm: Timing, acts: seq<Action>)
    requires LeaseBudget(tm, Attempts(cfg.retries)) <= Harmless(tm) && TimelyRun(cfg, tm, START, acts)
    ensures DistinctJobs(Run(cfg, START, acts).workers)
  {
    SafeStart(cfg);
    RunApart(cfg, tm, START, acts);
  }

  /** One instant before its end a slow worker loses its job, and at its end another has claimed it. */
  lemma ShareAtEnd(cfg: Config, tm: Timing, w: World, phase: Phase, c: Time) returns (acts: seq<Action>)
    requires Slow(cfg, tm, w, phase, c) && Budget(tm, phase) >= 2
    requires Elapsed(tm, Attempts(cfg.retries), phase) >= STALE_AFTER + 2
    ensures TimelyRun(cfg, tm, w, acts) && !DistinctJobs(Run(cfg, w, acts).workers)
  {
    var wait, recover, claim := Wait(Budget(tm, phase) - 2), Upkeep(RecoverStale), Act(1, ClaimJob(ORDER));
    acts := [wait] + ([recover] + [claim]);
    var w1 := w.(now := w.now + Budget(tm, phase) - 2);
    var w2 := World(Recover(w.db, w1.now + 1), w1.now + 1, w.workers);
    assert Next(cfg, w, wait) == w1;
    NextUpkeep(cfg, w1, RecoverStale);
    assert IsNext(w2.db, w2.now + 1, ORDER);
    NextAct(cfg, w2, 1, claim.act);
    var w3 := Next(cfg, w2, claim);
    assert w3.workers[0].job.orderId == w3.workers[1].job.orderId;
    RunCons(cfg, w, wait, [recover] + [claim]);
    RunCons(cfg, w1, recover, [claim]);
    RunOne(cfg, w2, claim);
    assert TimelyRun(cfg, tm, w3, []) && [claim][1..] == [];
    assert TimelyRun(cfg, tm, w2, [claim]);
    assert ([recover] + [claim])[1..] == [claim];
    assert TimelyRun(cfg, tm, w1, [recover] + [claim]);
    assert acts[1..] == [recover] + [claim];
  }

  lemma LongRunSharesJob(cfg: Config, tm: Timing)
    requires LeaseBudget(tm, Attempts(cfg.retries)) > Harmless(tm)
    requires tm.timeout >= 1 && (tm.timeout >= 2 || tm.markSlack >= 2 || cfg.retries >= 2)
    ensures CanShareJob(cfg, tm)
  {
    var calls, end := SlowRun(cfg, tm, if tm.markSlack >= 2 then 0 else 1);
    var last := ShareAtEnd(cfg, tm, Run(cfg, START, calls), end, 4);
    TimelyAppend(cfg, tm, START, calls, last);
    RunAppend(cfg, START, calls, last);
  }

  /**
   * In timely runs no two live workers ever hold the same job, exactly when the longest run takes at
   * most one instant more than the lease (two, if a mark may take but one). The instants of a run
   * whose only call per provider and whose mark take one instant each are left aside.
   */
  lemma SharingIsExact(cfg: Config, tm: Timing)
    requires tm.timeout >= 1 && (tm.timeout >= 2 || tm.markSlack >= 2 || cfg.retries >= 2)
    ensures CanShareJob(cfg, tm) <==> LeaseBudget(tm, Attempts(cfg.retries)) > Harmless(tm)
  {
    if LeaseBudget(tm, Attempts(cfg.retries)) > Harmless(tm) {
      LongRunSharesJob(cfg, tm);
    } else if CanShareJob(cfg, tm) {
      var acts :| TimelyRun(cfg, tm, START, acts) && !DistinctJobs(Run(cfg, START, acts).workers);
      NoSharing(cfg, tm, acts);
      assert false;
    }
  }
}
