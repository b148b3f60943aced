/** The two-minute lease: how long a run can last, and when that keeps the recovery away from it. */
module Lease {
  import opened Model
  import opened Queue
  import opened Providers
  import opened Retry
  import opened World
  import opened Safety
  import opened Exclusion
  import opened Fallback

  /** The client's timeout per call, and what claim and mark may take beyond it (database, scheduling, clock skew). */
  datatype Timing = Timing(timeout: Time, claimSlack: Time, markSlack: Time)

  /** How long a worker may stay in a phase. The wait before a repeated call belongs to that call. */
  function Budget(tm: Timing, phase: Phase): Time {
    match phase
    case CallA(k) => if k <= 1 then tm.claimSlack + tm.timeout else Backoff(k - 1) + tm.timeout
    case CallB(k, _) => if k <= 1 then tm.timeout else Backoff(k - 1) + tm.timeout
    case Marking(_) => tm.markSlack
  }

  /** A chain of k calls with the waits between them. */
  function ChainTime(tm: Timing, k: nat): Time
    requires k >= 1
  {
    k * tm.timeout + TotalBackoff(k)
  }

  /** The longest run: two full chains, and the slack. */
  function LeaseBudget(tm: Timing, n: nat): Time
    requires n >= 1
  {
    tm.claimSlack + 2 * ChainTime(tm, n) + tm.markSlack
  }

  /** With n attempts the longest run takes 2(nT + B(n)) plus slack, where B(n) is 0, 100, 400 + 900(n - 3). */
  lemma LeaseBudgetClosedForm(tm: Timing, n: nat)
    requires n >= 1
    ensures LeaseBudget(tm, n) ==
      2 * (n * tm.timeout + if n == 1 then 0 else if n == 2 then 100 else 400 + 900 * (n - 3))
      + tm.claimSlack + tm.markSlack
  {
    TotalBackoffClosedForm(n);
  }

  /** From the claim to the end of a phase. */
  function Elapsed(tm: Timing, n: nat, phase: Phase): Time
    requires n >= 1 && (phase.CallA? || phase.CallB? ==> phase.k >= 1)
  {
    match phase
    case CallA(k) => tm.claimSlack + ChainTime(tm, k)
    case CallB(k, _) => tm.claimSlack + ChainTime(tm, n) + ChainTime(tm, k)
    case Marking(_) => LeaseBudget(tm, n)
  }

  lemma {:induction false} ChainTimeGrows(tm: Timing, j: nat, k: nat)
    requires 1 <= j <= k
    ensures ChainTime(tm, j) <= ChainTime(tm, k)
    decreases k
  {
    if j < k {
      ChainTimeStep(tm, k - 1);
      ChainTimeGrows(tm, j, k - 1);
    }
  }

  lemma ChainTimeStep(tm: Timing, k: nat)
    requires k >= 1
    ensures ChainTime(tm, k + 1) == ChainTime(tm, k) + Backoff(k) + tm.timeout
  {
    assert (k + 1) * tm.timeout == k * tm.timeout + tm.timeout;
  }

  /** The next phase ends within its own share of the longest run. */
  lemma PhaseTime(tm: Timing, n: nat, phase: Phase, r: IssueResult)
    requires n >= 1 && !phase.Marking? && 1 <= phase.k <= n
    ensures var next := AfterResult(n, phase, r);
      && (next.CallA? || next.CallB? ==> 1 <= next.k <= n)
      && Elapsed(tm, n, phase) + Budget(tm, next) <= Elapsed(tm, n, next)
  {
    ChainTimeStep(tm, phase.k);
    ChainTimeGrows(tm, phase.k, n);
    assert ChainTime(tm, 1) == tm.timeout;
  }

  lemma ElapsedBound(tm: Timing, n: nat, phase: Phase)
    requires n >= 1 && (phase.CallA? || phase.CallB? ==> 1 <= phase.k <= n)
    ensures Elapsed(tm, n, phase) <= LeaseBudget(tm, n)
  {
    if !phase.Marking? {
      ChainTimeGrows(tm, phase.k, n);
    }
  }

  /** No step is taken while a live worker has outstayed its phase. */
  ghost predicate Timely(tm: Timing, w: World, a: Action) {
    forall i :: i in w.workers ==> Instant(w, a) <= w.workers[i].since + Budget(tm, w.workers[i].phase)
  }

  /** Every live worker is within its share of the longest run. */
  ghost predicate OnTime(tm: Timing, n: nat, workers: map<nat, Worker>) {
    forall i :: i in workers ==>
      var wk := workers[i];
      && n >= 1
      && (wk.phase.CallA? || wk.phase.CallB? ==> 1 <= wk.phase.k <= n)
      && wk.since + Budget(tm, wk.phase) <= wk.claimedAt + Elapsed(tm, n, wk.phase)
  }

  lemma NextOnTime(cfg: Config, tm: Timing, w: World, a: Action)
    requires OnTime(tm, Attempts(cfg.retries), w.workers) && Timely(tm, w, a)
    ensures OnTime(tm, Attempts(cfg.retries), Next(cfg, w, a).workers)
  {
    var n := Attempts(cfg.retries);
    if a.Act? && Enabled(w, w.now + 1, a.worker, a.act) {
      NextAct(cfg, w, a.worker, a.act);
      assert ChainTime(tm, 1) == tm.timeout;
      if a.act.CallProvider? {
        var wk := w.workers[a.worker];
        PhaseTime(tm, n, wk.phase, DoCall(w.db, w.now + 1, wk, a.act.transit).1);
      }
    }
  }

  /** If the longest run fits into the lease, the recovery never finds a live worker's job stale. */
  lemma TimelyIsFenced(tm: Timing, n: nat, w: World, a: Action)
    requires n >= 1 && Solo(w) && OnTime(tm, n, w.workers) && Timely(tm, w, a)
    requires LeaseBudget(tm, n) <= STALE_AFTER
    ensures Fenced(w, a)
  {
    forall i | i in w.workers
      ensures var o := w.workers[i].job.orderId; o in w.db.attempts ==> !Stale(w.db.attempts[o], Instant(w, a))
    {
      assert Holds(w.db, w.workers[i]);
      ElapsedBound(tm, n, w.workers[i].phase);
    }
  }

  /** A run in which workers keep to their budgets. */
  ghost predicate TimelyRun(cfg: Config, tm: Timing, w: World, acts: seq<Action>)
    decreases acts
  {
    acts == [] || (Timely(tm, w, acts[0]) && TimelyRun(cfg, tm, Next(cfg, w, acts[0]), acts[1..]))
  }

  lemma {:induction false} TimelyRunSolo(cfg: Config, tm: Timing, w: World, acts: seq<Action>)
    requires LeaseBudget(tm, Attempts(cfg.retries)) <= STALE_AFTER
    requires Safe(cfg, w) && Solo(w) && OnTime(tm, Attempts(cfg.retries), w.workers) && TimelyRun(cfg, tm, w, acts)
    ensures Solo(Run(cfg, w, acts)) && OnTime(tm, Attempts(cfg.retries), Run(cfg, w, acts).workers)
    ensures FencedRun(cfg, w, acts)
    decreases acts
  {
    if acts != [] {
      TimelyIsFenced(tm, Attempts(cfg.retries), w, acts[0]);
      NextSafe(cfg, w, acts[0]);
      NextSolo(cfg, w, acts[0]);
      NextOnTime(cfg, tm, w, acts[0]);
      TimelyRunSolo(cfg, tm, Next(cfg, w, acts[0]), acts[1..]);
    }
  }

  /**
   * Mutual exclusion: if 2(nT + B(n)) + slack is at most two minutes, then in every timely run each
   * live worker holds its job, no two hold the same, and the recovery takes no job from any of them.
   */
  lemma LeaseExclusion(cfg: Config, tm: Timing, acts: seq<Action>, a: Action)
    requires var n := Attempts(cfg.retries);
      2 * (n * tm.timeout + if n == 1 then 0 else if n == 2 then 100 else 400 + 900 * (n - 3))
      + tm.claimSlack + tm.markSlack <= 120_000
    requires TimelyRun(cfg, tm, START, acts)
    ensures Solo(Run(cfg, START, acts))
    ensures Timely(tm, Run(cfg, START, acts), a) ==> Fenced(Run(cfg, START, acts), a)
  {
    LeaseBudgetClosedForm(tm, Attempts(cfg.retries));
    SafeStart(cfg);
    TimelyRunSolo(cfg, tm, START, acts);
    if Timely(tm, Run(cfg, START, acts), a) {
      TimelyIsFenced(tm, Attempts(cfg.retries), Run(cfg, START, acts), a);
    }
  }

  /** The lease is what makes the fallback safe: timely runs without a late fallback are orderly. */
  lemma LeaseMakesOrderly(cfg: Config, tm: Timing, acts: seq<Action>)
    requires LeaseBudget(tm, Attempts(cfg.retries)) <= STALE_AFTER
    requires TimelyRun(cfg, tm, START, acts) && NeverLate(cfg, START, acts)
    ensures Orderly(cfg, START, acts)
  {
    SafeStart(cfg);
    TimelyRunSolo(cfg, tm, START, acts);
  }
}
