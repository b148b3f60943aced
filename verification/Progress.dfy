/** No job is lost: every paid order can still be delivered, from every reachable state. */
module Progress {
  import opened Prelude
  import opened Model
  import opened Queue
  import opened Providers
  import opened Retry
  import opened Status
  import opened Stock
  import opened History
  import opened World
  import opened Safety
  import opened Bypass

  function RequestFor(db: Db, o: OrderId): Request
    requires o in db.orders
  {
    Request(RequestIdFor(o), db.orders[o].sku, o)
  }

  /** What a provider that does not refuse would answer now. */
  function WouldIssue(db: Db, p: Provider, o: OrderId): ServerResult
    requires o in db.orders
  {
    IssueCode(db, 0, p, RequestFor(db, o), false).1
  }

  predicate Usable(r: ServerResult) {
    r.Issued? && r.code != ""
  }

  /** A provider has a usable code if it has issued one for the order already, or if it would take one now. */
  lemma UsableExactly(db: Db, p: Provider, o: OrderId)
    requires o in db.orders
    ensures Usable(WouldIssue(db, p, o)) <==>
      && o != "" && db.orders[o].sku != ""
      && if (p, RequestIdFor(o)) in db.issues then db.issues[(p, RequestIdFor(o))].code != ""
         else HasFree(db.keys, p, db.orders[o].sku)
              && db.keys[FirstFree(db.keys, p, db.orders[o].sku)].code != ""
  {
  }

  /** Some provider has a usable code for the order. */
  predicate Deliverable(db: Db, o: OrderId)
    requires o in db.orders
  {
    Usable(WouldIssue(db, ProviderA, o)) || Usable(WouldIssue(db, ProviderB, o))
  }

  // ----- what a schedule may do -----

  /** Time passes, stale jobs are recovered, and worker `i` claims, calls and marks. */
  predicate Ordinary(a: Action, i: nat) {
    a.Wait? || a == Upkeep(RecoverStale) || (a.Act? && a.worker == i && !a.act.Crash?)
  }

  predicate Schedule(acts: seq<Action>, i: nat) {
    forall a :: a in acts ==> Ordinary(a, i)
  }

  ghost predicate DeliveredBy(w: World, o: OrderId, deadline: Time) {
    o in w.db.orders && w.db.orders[o].status.OrderDelivered? && w.now <= deadline
  }

  // ----- from the claim to the delivery -----

  /** Worker `i` holds the job of order `o`, and so does the table. */
  ghost predicate Holding(w: World, i: nat, o: OrderId) {
    && i in w.workers && w.workers[i].job.orderId == o && JobKnown(w.db, w.workers[i].job)
    && w.db.orders[o].status.OrderDelivering? && w.db.attempts[o].status.JobProcessing?
  }

  lemma MarkDone(cfg: Config, w: World, i: nat, o: OrderId, p: Provider, code: string)
    requires Holding(w, i, o) && w.workers[i].phase == Marking(Deliver(p, code))
    ensures DeliveredBy(Next(cfg, w, Act(i, MarkJob)), o, w.now + 1)
  {
    NextAct(cfg, w, i, MarkJob);
  }

  function CallAndMark(i: nat): seq<Action> {
    [Act(i, CallProvider(Replied(false))), Act(i, MarkJob)]
  }

  /** A provider is asked and does not refuse: the worker learns what the provider would issue. */
  lemma AskOnce(cfg: Config, w: World, i: nat, o: OrderId)
    requires Holding(w, i, o) && !w.workers[i].phase.Marking?
    ensures var w' := Next(cfg, w, Act(i, CallProvider(Replied(false))));
      var answer := WouldIssue(w.db, ProviderOf(w.workers[i].phase), o);
      && Holding(w', i, o) && w'.now == w.now + 1 && w'.db.orders == w.db.orders
      && w'.workers[i].phase ==
         AfterResult(Attempts(cfg.retries), w.workers[i].phase,
                     Classify(RequestFor(w.db, o), Encode(RequestFor(w.db, o), answer)))
      && (answer.NoStock? ==> w'.db == w.db)
  {
    var p := ProviderOf(w.workers[i].phase);
    NextAct(cfg, w, i, CallProvider(Replied(false)));
    assert RequestOf(w.workers[i].job) == RequestFor(w.db, o);
    IssueConserves(w.db, w.now + 1, p, RequestFor(w.db, o), false);
  }

  /** A provider that has a usable code is asked, does not refuse, and its code is recorded. */
  lemma FinishAt(cfg: Config, w: World, i: nat, o: OrderId)
    requires Holding(w, i, o) && !w.workers[i].phase.Marking?
    requires Usable(WouldIssue(w.db, ProviderOf(w.workers[i].phase), o))
    ensures DeliveredBy(Run(cfg, w, CallAndMark(i)), o, w.now + 2)
  {
    var call, answer := Act(i, CallProvider(Replied(false))), WouldIssue(w.db, ProviderOf(w.workers[i].phase), o);
    AskOnce(cfg, w, i, o);
    RoundTrip(RequestFor(w.db, o), answer);
    MarkDone(cfg, Next(cfg, w, call), i, o, ProviderOf(w.workers[i].phase), answer.code);
    RunTwo(cfg, w, call, Act(i, MarkJob));
  }

  /** Nothing but calls of worker `i` with the same outcome. */
  predicate OnlyCalls(acts: seq<Action>, i: nat, tr: Transit) {
    forall k :: 0 <= k < |acts| ==> acts[k] == Act(i, CallProvider(tr))
  }

  /** A does not answer, or refuses a request for which it has not issued. */
  predicate TurnsDown(db: Db, o: OrderId, tr: Transit)
    requires o in db.orders
  {
    tr == Faulted ||
    (tr == Replied(true) && WellFormed(RequestFor(db, o)) && (ProviderA, RequestIdFor(o)) !in db.issues)
  }

  /** If A turns down every attempt, the run goes on to B. */
  lemma {:induction false} GoOnToB(cfg: Config, w: World, i: nat, o: OrderId, k: nat, tr: Transit, acts: seq<Action>)
    requires Holding(w, i, o) && w.workers[i].phase == CallA(k) && 1 <= k <= Attempts(cfg.retries)
    requires TurnsDown(w.db, o, tr) && OnlyCalls(acts, i, tr) && |acts| == Attempts(cfg.retries) + 1 - k
    ensures var w' := Run(cfg, w, acts);
      && Holding(w', i, o) && w'.workers[i].phase == CallB(1, Unavailable)
      && w'.db == w.db && w'.now == w.now + |acts|
    decreases acts
  {
    assert acts[0] == Act(i, CallProvider(tr));
    NextAct(cfg, w, i, CallProvider(tr));
    assert RequestOf(w.workers[i].job) == RequestFor(w.db, o);
    assert DoCall(w.db, w.now + 1, w.workers[i], tr) == (w.db, Err(Unavailable));
    if k < Attempts(cfg.retries) {
      GoOnToB(cfg, Next(cfg, w, acts[0]), i, o, k + 1, tr, acts[1..]);
    }
  }

  lemma FinishRun(cfg: Config, w: World, i: nat, o: OrderId) returns (acts: seq<Action>)
    requires Holding(w, i, o) && w.workers[i].phase == CallA(1) && Deliverable(w.db, o)
    ensures Schedule(acts, i) && DeliveredBy(Run(cfg, w, acts), o, w.now + Attempts(cfg.retries) + 2)
  {
    if Usable(WouldIssue(w.db, ProviderA, o)) {
      acts := CallAndMark(i);
      FinishAt(cfg, w, i, o);
    } else {
      var faults := seq(Attempts(cfg.retries), _ => Act(i, CallProvider(Faulted)));
      acts := faults + CallAndMark(i);
      GoOnToB(cfg, w, i, o, 1, Faulted, faults);
      FinishAt(cfg, Run(cfg, w, faults), i, o);
      RunAppend(cfg, w, faults, CallAndMark(i));
    }
  }

  // ----- from the queue to the claim -----

  lemma BeforeTransitive(a: Attempt, b: Attempt, c: Attempt)
    requires Before(a, b) && Before(b, c)
    ensures Before(a, c)
  {
  }

  /** Some job of a non-empty set has none before it. */
  lemma {:induction false} FirstInQueue(db: Db, s: set<OrderId>) returns (o: OrderId)
    requires s != {} && s <= db.attempts.Keys
    ensures o in s && forall x :: x in s ==> !Before(db.attempts[x], db.attempts[o])
    decreases s
  {
    o :| o in s;
    if s != {o} {
      var first := FirstInQueue(db, s - {o});
      if !Before(db.attempts[o], db.attempts[first]) {
        o := first;
      } else {
        forall x | x in s
          ensures !Before(db.attempts[x], db.attempts[o])
        {
          if x != o && Before(db.attempts[x], db.attempts[o]) {
            BeforeTransitive(db.attempts[x], db.attempts[o], db.attempts[first]);
          }
        }
      }
    }
  }

  lemma NextExists(db: Db, now: Time, j: OrderId) returns (o: OrderId)
    requires Claimable(db, now, j)
    ensures IsNext(db, now, o)
  {
    var s := set x | x in db.attempts && Claimable(db, now, x);
    assert j in s;
    o := FirstInQueue(db, s);
  }

  /** What the schedule must not disturb: the providers, and the order itself. */
  predicate SameChances(db: Db, db': Db, j: OrderId)
    requires j in db.orders
  {
    db'.keys == db.keys && db'.issues == db.issues && j in db'.orders && db'.orders[j].sku == db.orders[j].sku
  }

  lemma ChancesKept(db: Db, db': Db, j: OrderId)
    requires j in db.orders && SameChances(db, db', j) && Deliverable(db, j)
    ensures Deliverable(db', j)
  {
  }

  /** Worker `i` claims the job of order `o` and goes on with it. */
  predicate TriesJob(acts: seq<Action>, i: nat, o: OrderId) {
    && acts != [] && acts[0] == Act(i, ClaimJob(o))
    && forall a :: a in acts[1..] ==> a.Act? && a.worker == i && (a.act.CallProvider? || a.act.MarkJob?)
  }

  lemma TryingIsOrdinary(acts: seq<Action>, i: nat, o: OrderId)
    requires TriesJob(acts, i, o)
    ensures Schedule(acts, i)
  {
    assert acts == [acts[0]] + acts[1..];
  }

  /**
   * A job is claimed, its call fails, and it goes back into the queue. After that the worker is free
   * again, and the providers are as they were.
   */
  lemma OtherReturned(cfg: Config, w: World, i: nat, o: OrderId) returns (acts: seq<Action>)
    requires i !in w.workers && IsNext(w.db, w.now + 1, o)
    ensures TriesJob(acts, i, o)
    ensures var w' := Run(cfg, w, acts);
      w'.workers == w.workers && w'.now == w.now + 3 && w'.db.keys == w.db.keys && w'.db.issues == w.db.issues
  {
    var claim, call, mark := Act(i, ClaimJob(o)), Act(i, CallProvider(Garbled(true))), Act(i, MarkJob);
    var w1 := Next(cfg, w, claim);
    var w2 := Next(cfg, w1, call);
    acts := [claim] + [call, mark];
    NextAct(cfg, w, i, claim.act);
    NextAct(cfg, w1, i, call.act);
    assert w2.workers == w1.workers[i := w1.workers[i].(phase := Marking(GiveUp(false)), since := w2.now)];
    NextAct(cfg, w2, i, mark.act);
    assert w2.workers - {i} == w.workers;
    RunTwo(cfg, w1, call, mark);
    RunCons(cfg, w, claim, [call, mark]);
  }

  /** Job `j` is due and deliverable, and worker `i` is free. */
  ghost predicate Ready(cfg: Config, w: World, i: nat, j: OrderId) {
    Safe(cfg, w) && i !in w.workers && Waiting(w, j) && j in w.db.orders && Deliverable(w.db, j)
  }

  /** At most `m` jobs are ahead of the waiting job `j`. */
  ghost predicate Behind(cfg: Config, w: World, j: OrderId, m: int) {
    Safe(cfg, w) && Waiting(w, j) && |AheadOf(w.db, j)| <= m
  }

  lemma StepBehind(cfg: Config, w: World, a: Action, j: OrderId, m: int)
    requires Behind(cfg, w, j, m) && a.Act? && a.act != ClaimJob(j)
    ensures Behind(cfg, Next(cfg, w, a), j, m) && (Claims(w, a) ==> Behind(cfg, Next(cfg, w, a), j, m - 1))
  {
    NextSafe(cfg, w, a);
    StepCountsDown(cfg, w, a, j);
  }

  lemma {:induction false} RunBehind(cfg: Config, w: World, acts: seq<Action>, j: OrderId, m: int)
    requires Behind(cfg, w, j, m) && forall a :: a in acts ==> a.Act? && a.act != ClaimJob(j)
    ensures Behind(cfg, Run(cfg, w, acts), j, m)
    decreases acts
  {
    if acts != [] {
      StepBehind(cfg, w, acts[0], j, m);
      RunBehind(cfg, Next(cfg, w, acts[0]), acts[1..], j, m);
    }
  }

  /** The waiting job moves at least one place forward. */
  lemma OtherClaimed(cfg: Config, w: World, i: nat, o: OrderId, acts: seq<Action>, j: OrderId, m: int)
    requires Behind(cfg, w, j, m) && i !in w.workers && IsNext(w.db, w.now + 1, o) && o != j
    requires TriesJob(acts, i, o)
    ensures Behind(cfg, Run(cfg, w, acts), j, m - 1)
  {
    assert Claims(w, acts[0]);
    StepBehind(cfg, w, acts[0], j, m);
    RunBehind(cfg, Next(cfg, w, acts[0]), acts[1..], j, m - 1);
  }

  /** If the worker is free again and the providers are as they were, nothing is lost by it. */
  lemma ReadyAgain(cfg: Config, w: World, i: nat, o: OrderId, acts: seq<Action>, j: OrderId)
    requires Ready(cfg, w, i, j) && IsNext(w.db, w.now + 1, o) && o != j && TriesJob(acts, i, o)
    requires var w' := Run(cfg, w, acts);
      w'.workers == w.workers && w'.db.keys == w.db.keys && w'.db.issues == w.db.issues
    ensures var w' := Run(cfg, w, acts);
      Ready(cfg, w', i, j) && |AheadOf(w'.db, j)| < |AheadOf(w.db, j)|
  {
    var w' := Run(cfg, w, acts);
    OtherClaimed(cfg, w, i, o, acts, j, |AheadOf(w.db, j)|);
    assert j in w'.db.orders && w'.db.orders[j].sku == w.db.orders[j].sku by {
      RunSafe(cfg, w, acts);
      assert OrderLater(w.db.orders[j], w'.db.orders[j]);
    }
    ChancesKept(w.db, w'.db, j);
  }

  lemma OtherTried(cfg: Config, w: World, i: nat, o: OrderId, j: OrderId) returns (acts: seq<Action>)
    requires Ready(cfg, w, i, j) && IsNext(w.db, w.now + 1, o) && o != j
    ensures Schedule(acts, i)
    ensures var w' := Run(cfg, w, acts);
      Ready(cfg, w', i, j) && w'.now == w.now + 3 && |AheadOf(w'.db, j)| < |AheadOf(w.db, j)|
  {
    acts := OtherReturned(cfg, w, i, o);
    TryingIsOrdinary(acts, i, o);
    ReadyAgain(cfg, w, i, o, acts, j);
  }

  lemma ClaimHolds(cfg: Config, w: World, i: nat, j: OrderId)
    requires Safe(cfg, w) && i !in w.workers && IsNext(w.db, w.now + 1, j)
    ensures var w' := Next(cfg, w, Act(i, ClaimJob(j)));
      && Holding(w', i, j) && w'.workers[i].phase == CallA(1) && w'.now == w.now + 1
      && w'.db.orders[j].sku == w.db.orders[j].sku && w'.db.keys == w.db.keys && w'.db.issues == w.db.issues
  {
    NextAct(cfg, w, i, ClaimJob(j));
    ClaimKnown(w.db, w.now + 1, j);
  }

  lemma ClaimOwn(cfg: Config, w: World, i: nat, j: OrderId)
    requires Ready(cfg, w, i, j) && IsNext(w.db, w.now + 1, j)
    ensures var w' := Next(cfg, w, Act(i, ClaimJob(j)));
      Holding(w', i, j) && w'.workers[i].phase == CallA(1) && w'.now == w.now + 1 && Deliverable(w'.db, j)
  {
    ClaimHolds(cfg, w, i, j);
    ChancesKept(w.db, Next(cfg, w, Act(i, ClaimJob(j))).db, j);
  }

  lemma DeliverFirst(cfg: Config, w: World, i: nat, j: OrderId) returns (acts: seq<Action>)
    requires Ready(cfg, w, i, j) && IsNext(w.db, w.now + 1, j)
    ensures Schedule(acts, i) && DeliveredBy(Run(cfg, w, acts), j, w.now + Attempts(cfg.retries) + 3)
  {
    var claim := Act(i, ClaimJob(j));
    ClaimOwn(cfg, w, i, j);
    var rest := FinishRun(cfg, Next(cfg, w, claim), i, j);
    acts := [claim] + rest;
    RunCons(cfg, w, claim, rest);
  }

  lemma FirstExists(cfg: Config, w: World, i: nat, j: OrderId) returns (o: OrderId)
    requires Ready(cfg, w, i, j)
    ensures IsNext(w.db, w.now + 1, o)
  {
    assert OrderOk(w.db, j);
    o := NextExists(w.db, w.now + 1, j);
  }

  /**
   * A waiting, deliverable order is delivered by one worker that is free now, within three steps per
   * job ahead of it and, with n attempts per provider, n + 3 more.
   */
  lemma {:induction false} DeliverWaiting(cfg: Config, w: World, i: nat, j: OrderId) returns (acts: seq<Action>)
    requires Ready(cfg, w, i, j)
    ensures Schedule(acts, i)
    ensures DeliveredBy(Run(cfg, w, acts), j, w.now + 3 * |AheadOf(w.db, j)| + Attempts(cfg.retries) + 3)
    decreases |AheadOf(w.db, j)|
  {
    var o := FirstExists(cfg, w, i, j);
    if o == j {
      acts := DeliverFirst(cfg, w, i, j);
    } else {
      var first := OtherTried(cfg, w, i, o, j);
      var rest := DeliverWaiting(cfg, Run(cfg, w, first), i, j);
      RunAppend(cfg, w, first, rest);
      acts := first + rest;
    }
  }

  // ----- from any state to the queue -----

  /** When the job of an order can be claimed: after its delay, or after the lease of its worker. */
  function ReadyAt(db: Db, j: OrderId): Time
    requires j in db.attempts
  {
    var a := db.attempts[j];
    if a.status.JobProcessing? then (if a.lockedAt.Some? then a.lockedAt.value + STALE_AFTER + 1 else 0)
    else if a.nextAt.Some? then a.nextAt.value else 0
  }

  lemma AheadIsSmall(db: Db, db': Db, j: OrderId)
    requires j in db.attempts && db'.attempts.Keys == db.attempts.Keys
    ensures |AheadOf(db', j)| < |db.attempts|
  {
    SubsetSize(AheadOf(db', j), db.attempts.Keys - {j});
    assert |db.attempts.Keys - {j}| == |db.attempts| - 1;
  }

  function Max(a: Time, b: Time): Time {
    if a < b then b else a
  }

  lemma AfterLease(cfg: Config, w: World, j: OrderId, d: Time)
    requires j in w.db.attempts && w.db.attempts[j].status.JobProcessing? && w.db.attempts[j].lockedAt.Some?
    requires w.now + d + 1 > w.db.attempts[j].lockedAt.value + STALE_AFTER
    ensures var w' := Run(cfg, w, [Wait(d), Upkeep(RecoverStale)]);
      w'.db == Recover(w.db, w.now + d + 1) && w'.now == w.now + d + 1 && w'.workers == w.workers && Waiting(w', j)
  {
    var w1 := w.(now := w.now + d);
    assert Next(cfg, w, Wait(d)) == w1;
    RunCons(cfg, w, Wait(d), [Upkeep(RecoverStale)]);
    RunOne(cfg, w1, Upkeep(RecoverStale));
    NextUpkeep(cfg, w1, RecoverStale);
    assert [Wait(d)] + [Upkeep(RecoverStale)] == [Wait(d), Upkeep(RecoverStale)];
  }

  lemma AfterDelay(cfg: Config, w: World, j: OrderId, d: Time)
    requires j in w.db.attempts && w.db.attempts[j].status.IsQueued() && w.db.attempts[j].nextAt.Some?
    requires w.now + d >= w.db.attempts[j].nextAt.value
    ensures Run(cfg, w, [Wait(d)]) == w.(now := w.now + d) && Waiting(w.(now := w.now + d), j)
  {
    RunOne(cfg, w, Wait(d));
  }

  /** Time passes, and then stale jobs may be recovered once. */
  predicate JustWaits(acts: seq<Action>) {
    acts != [] && acts[0].Wait? && (acts[1..] == [] || acts[1..] == [Upkeep(RecoverStale)])
  }

  lemma WaitingIsOrdinary(acts: seq<Action>, i: nat)
    requires JustWaits(acts)
    ensures Schedule(acts, i)
  {
    assert acts == [acts[0]] + acts[1..];
  }

  /** Time passes, and if some worker holds the job, it is recovered; the rest stays as it was. */
  lemma BecomesDue(cfg: Config, w: World, j: OrderId) returns (acts: seq<Action>)
    requires Consistent(w.db) && j in w.db.orders
    requires w.db.orders[j].paidAt.Some? && !w.db.orders[j].status.OrderDelivered?
    ensures JustWaits(acts) && j in w.db.attempts
    ensures var w' := Run(cfg, w, acts);
      && Waiting(w', j) && w'.now <= Max(w.now, ReadyAt(w.db, j)) + 1
      && w'.db.attempts.Keys == w.db.attempts.Keys && w'.workers == w.workers && SameChances(w.db, w'.db, j)
  {
    assert OrderOk(w.db, j);
    var d := Max(w.now, ReadyAt(w.db, j)) - w.now;
    if w.db.attempts[j].status.JobProcessing? {
      acts := [Wait(d), Upkeep(RecoverStale)];
      AfterLease(cfg, w, j, d);
    } else {
      acts := [Wait(d)];
      AfterDelay(cfg, w, j, d);
    }
  }

  /** Every paid, undelivered order becomes due: after its delay, or after the lease of its worker. */
  lemma GetWaiting(cfg: Config, w: World, i: nat, j: OrderId) returns (acts: seq<Action>)
    requires Safe(cfg, w) && i !in w.workers && j in w.db.orders && Deliverable(w.db, j)
    requires w.db.orders[j].paidAt.Some? && !w.db.orders[j].status.OrderDelivered?
    ensures JustWaits(acts) && Schedule(acts, i) && j in w.db.attempts
    ensures var w' := Run(cfg, w, acts);
      && Ready(cfg, w', i, j) && w'.now <= Max(w.now, ReadyAt(w.db, j)) + 1
      && w'.db.attempts.Keys == w.db.attempts.Keys
  {
    acts := BecomesDue(cfg, w, j);
    WaitingIsOrdinary(acts, i);
    RunSafe(cfg, w, acts);
    ChancesKept(w.db, Run(cfg, w, acts).db, j);
  }

  /** The end of the delay or of the lease, three steps per job in the queue, and n + 1 more. */
  function Latest(cfg: Config, w: World, j: OrderId): Time
    requires j in w.db.attempts
  {
    Max(w.now, ReadyAt(w.db, j)) + 3 * |w.db.attempts| + Attempts(cfg.retries) + 1
  }

  /** The schedule: wait, be recovered if need be, and be worked off. */
  lemma ScheduleFor(cfg: Config, w: World, i: nat, j: OrderId) returns (acts: seq<Action>)
    requires Safe(cfg, w) && i !in w.workers && j in w.db.orders && Deliverable(w.db, j)
    requires w.db.orders[j].paidAt.Some? && !w.db.orders[j].status.OrderDelivered?
    ensures Schedule(acts, i) && j in w.db.attempts
    ensures DeliveredBy(Run(cfg, w, acts), j, Latest(cfg, w, j))
  {
    var first := GetWaiting(cfg, w, i, j);
    var w' := Run(cfg, w, first);
    var rest := DeliverWaiting(cfg, w', i, j);
    AheadIsSmall(w.db, w'.db, j);
    RunAppend(cfg, w, first, rest);
    acts := first + rest;
  }

  /**
   * From every reachable state every paid, undelivered, deliverable order is delivered by a finite
   * schedule in which time passes, stale jobs are recovered, and one worker that is free now claims,
   * calls and marks: no key is added, no order is retried and no worker dies. Beyond the delay or
   * the lease of its job, that takes at most three steps per job in the queue and n + 1 more.
   */
  lemma NoJobIsLost(cfg: Config, w: World, i: nat, j: OrderId)
    requires Reachable(cfg, w) && i !in w.workers
    requires j in w.db.orders && w.db.orders[j].paidAt.Some? && !w.db.orders[j].status.OrderDelivered?
    requires Deliverable(w.db, j)
    ensures j in w.db.attempts
    ensures exists acts ::
      && Schedule(acts, i)
      && DeliveredBy(Run(cfg, w, acts), j, Latest(cfg, w, j))
  {
    ReachableSafe(cfg, w);
    var acts := ScheduleFor(cfg, w, i, j);
  }

  /** There is always a worker that is free. */
  lemma {:induction false} FreeWorker<T>(workers: map<nat, T>) returns (i: nat)
    ensures i !in workers && forall j :: j in workers ==> j < i
    decreases |workers|
  {
    if workers == map[] {
      i := 0;
    } else {
      var j :| j in workers;
      var rest := workers - {j};
      assert rest.Keys == workers.Keys - {j};
      assert |rest.Keys| == |rest| && |workers.Keys| == |workers|;
      var free := FreeWorker(rest);
      i := if free <= j then j + 1 else free;
      assert forall x :: x in workers ==> x == j || x in rest;
    }
  }

  /** Some worker is always free, so from every reachable state there is such a schedule. */
  lemma SomeWorkerDelivers(cfg: Config, w: World, j: OrderId)
    requires Reachable(cfg, w)
    requires j in w.db.orders && w.db.orders[j].paidAt.Some? && !w.db.orders[j].status.OrderDelivered?
    requires Deliverable(w.db, j)
    ensures j in w.db.attempts
    ensures exists i, acts ::
      && i !in w.workers && Schedule(acts, i)
      && DeliveredBy(Run(cfg, w, acts), j, Latest(cfg, w, j))
  {
    var i := FreeWorker(w.workers);
    NoJobIsLost(cfg, w, i, j);
  }
}
