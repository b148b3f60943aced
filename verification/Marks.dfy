/** What a mark leaves in the tables, and how a run gets there from what it has been told. */
module Marks {
  import opened Prelude
  import opened Model
  import opened Queue
  import opened Providers
  import opened Retry
  import opened Status
  import opened World
  import opened Safety
  import opened Runs
  import opened Answers
  import opened Progress

  /** The order was delivered at time `t` with a code of provider `p`. */
  ghost predicate Delivered(db: Db, o: OrderId, p: Provider, code: string, t: Time) {
    && o in db.orders && db.orders[o].status == OrderDelivered && db.orders[o].deliveredAt == Some(t)
    && o in db.attempts && db.attempts[o].status == JobDelivered
    && db.attempts[o].provider == Some(p) && db.attempts[o].code == Some(code)
    && Count(db.ledger, o, EntryDelivery) == 1
  }

  /** The run was given up, for want of stock or not, and the job can be claimed again from `due` on. */
  ghost predicate GivenUp(db: Db, o: OrderId, outOfStock: bool, due: Time) {
    && o in db.orders && db.orders[o].status == (if outOfStock then OrderOutOfStock else OrderDeliveryFailed)
    && o in db.attempts && db.attempts[o].status == (if outOfStock then JobOutOfStock else JobFailed)
    && forall t: Time :: Claimable(db, t, o) <==> t >= due
  }

  /** The decision `d` is what the tables record at time `t`. */
  ghost predicate Recorded(db: Db, o: OrderId, d: Decision, t: Time, delay: Time) {
    match d
    case Deliver(p, code) => Delivered(db, o, p, code, t)
    case GiveUp(outOfStock) => GivenUp(db, o, outOfStock, t + delay)
  }

  lemma MarkRecords(cfg: Config, w: World, i: nat, o: OrderId)
    requires Safe(cfg, w) && Holding(w, i, o) && w.workers[i].phase.Marking?
    ensures Recorded(Next(cfg, w, Act(i, MarkJob)).db, o, w.workers[i].phase.decision, w.now + 1, cfg.retryDelay)
  {
    NextAct(cfg, w, i, MarkJob);
    DecisionRecorded(cfg, w.db, w.now + 1, w.workers[i], o);
  }

  /** The mark of a worker that holds its job records exactly the decision of its run. */
  lemma DecisionRecorded(cfg: Config, db: Db, t: Time, wk: Worker, o: OrderId)
    requires Consistent(db) && wk.phase.Marking? && wk.job.orderId == o && JobKnown(db, wk.job)
    requires db.orders[o].status.OrderDelivering? && db.attempts[o].status.JobProcessing?
    ensures Recorded(DoMark(cfg, db, t, wk), o, wk.phase.decision, t, cfg.retryDelay)
  {
    assert OrderOk(db, o);
    match wk.phase.decision
    case Deliver(p, code) => MarkDeliveredRow(db, t, wk.job, p, code);
    case GiveUp(outOfStock) =>
  }

  /** A mark has an effect exactly if the job is in processing, for whichever worker. */
  lemma MarkTakesEffectExactly(cfg: Config, w: World, i: nat)
    requires Safe(cfg, w) && i in w.workers && w.workers[i].phase.Marking?
    ensures w.workers[i].job.orderId in w.db.attempts
    ensures Next(cfg, w, Act(i, MarkJob)).db != w.db <==>
            w.db.attempts[w.workers[i].job.orderId].status == JobProcessing
  {
    var o := w.workers[i].job.orderId;
    assert JobKnown(w.db, w.workers[i].job);
    NextAct(cfg, w, i, MarkJob);
    if w.db.attempts[o].status == JobProcessing {
      assert OrderOk(w.db, o);
      MarkRecords(cfg, w, i, o);
    }
  }

  /** What the answers of A and of B, if it was asked, leave in the tables. */
  ghost predicate AnswersRecorded(
    db: Db, o: OrderId, a: seq<IssueResult>, b: seq<IssueResult>, t: Time, delay: Time)
  {
    a != [] &&
    match Last(a)
    case Got(code) => b == [] && Delivered(db, o, ProviderA, code, t)
    case Err(Timeout) => b == [] && GivenUp(db, o, false, t + delay)
    case Err(Invalid) => b == [] && GivenUp(db, o, false, t + delay)
    case Err(Other) => b == [] && GivenUp(db, o, false, t + delay)
    case Err(Unavailable) =>
      b != [] && (if Last(b).Got? then Delivered(db, o, ProviderB, Last(b).code, t)
                  else GivenUp(db, o, false, t + delay))
    case Err(OutOfStock) =>
      b != [] && (if Last(b).Got? then Delivered(db, o, ProviderB, Last(b).code, t)
                  else GivenUp(db, o, Last(b) == Err(OutOfStock), t + delay))
  }

  lemma VerdictRecorded(
    n: nat, db: Db, o: OrderId, a: seq<IssueResult>, b: seq<IssueResult>, d: Decision, t: Time, delay: Time)
    requires Decides(n, CallA(1), a, b, d) && Recorded(db, o, d, t, delay)
    ensures AnswersRecorded(db, o, a, b, t, delay)
  {
  }

  /**
   * In any run, among any other steps, from the claim to the mark: if A gave a code, it is recorded; if
   * A last refused or was out of stock, B was asked, and its last answer decides; if both were out of
   * stock, so is the order; and otherwise the delivery has failed. A failed job is due after the delay.
   */
  lemma AnswersBecomeMarks(cfg: Config, w: World, i: nat, acts: seq<Action>, o: OrderId)
    requires Safe(cfg, w) && i in w.workers && w.workers[i].phase == CallA(1) && Stays(cfg, w, i, acts)
    requires Holding(Run(cfg, w, acts), i, o) && Run(cfg, w, acts).workers[i].phase.Marking?
    ensures AnswersRecorded(
      Next(cfg, Run(cfg, w, acts), Act(i, MarkJob)).db, o, AnswersOf(cfg, w, i, acts, ProviderA),
      AnswersOf(cfg, w, i, acts, ProviderB), Run(cfg, w, acts).now + 1, cfg.retryDelay)
  {
    var end := Run(cfg, w, acts);
    var d := end.workers[i].phase.decision;
    var a, b := AnswersOf(cfg, w, i, acts, ProviderA), AnswersOf(cfg, w, i, acts, ProviderB);
    assert Decides(Attempts(cfg.retries), CallA(1), a, b, d) by { AnswersDecide(cfg, w, i, acts, d); }
    assert Recorded(Next(cfg, end, Act(i, MarkJob)).db, o, d, end.now + 1, cfg.retryDelay) by {
      RunSafe(cfg, w, acts);
      MarkRecords(cfg, end, i, o);
    }
    VerdictRecorded(Attempts(cfg.retries), Next(cfg, end, Act(i, MarkJob)).db, o, a, b, d, end.now + 1, cfg.retryDelay);
  }

  // ----- out of stock -----

  /** Provider `p` has not issued for the order, and has no free key of its SKU. */
  ghost predicate NoStockFor(db: Db, p: Provider, o: OrderId)
    requires o in db.orders
  {
    && (p, RequestIdFor(o)) !in db.issues
    && forall k :: k in db.keys ==> !(k.provider == p && k.sku == db.orders[o].sku && !k.issued)
  }

  lemma NoStockIsSaid(db: Db, p: Provider, o: OrderId)
    requires o in db.orders && o != "" && db.orders[o].sku != "" && NoStockFor(db, p, o)
    ensures WouldIssue(db, p, o) == NoStock
  {
  }

  lemma AskA(cfg: Config, w: World, i: nat, o: OrderId)
    requires Safe(cfg, w) && Holding(w, i, o) && w.workers[i].phase == CallA(1)
    requires o != "" && w.db.orders[o].sku != "" && NoStockFor(w.db, ProviderA, o)
    ensures var w' := Next(cfg, w, Act(i, CallProvider(Replied(false))));
      && Safe(cfg, w') && Holding(w', i, o) && w'.workers[i].phase == CallB(1, OutOfStock)
      && w'.now == w.now + 1 && w'.db == w.db
  {
    AskOnce(cfg, w, i, o);
    NoStockIsSaid(w.db, ProviderA, o);
    RoundTrip(RequestFor(w.db, o), NoStock);
    NextSafe(cfg, w, Act(i, CallProvider(Replied(false))));
  }

  function AskBoth(i: nat, o: OrderId): seq<Action> {
    [Act(i, ClaimJob(o))] + ([Act(i, CallProvider(Replied(false)))] +
    ([Act(i, CallProvider(Replied(false)))] + [Act(i, MarkJob)]))
  }

  lemma AskBothRuns(cfg: Config, w: World, i: nat, o: OrderId)
    ensures var call := Act(i, CallProvider(Replied(false)));
      Run(cfg, w, AskBoth(i, o)) ==
      Next(cfg, Next(cfg, Next(cfg, Next(cfg, w, Act(i, ClaimJob(o))), call), call), Act(i, MarkJob))
  {
    var claim, call, mark := Act(i, ClaimJob(o)), Act(i, CallProvider(Replied(false))), Act(i, MarkJob);
    RunCons(cfg, w, claim, [call] + ([call] + [mark]));
    var w1 := Next(cfg, w, claim);
    RunCons(cfg, w1, call, [call] + [mark]);
    RunCons(cfg, Next(cfg, w1, call), call, [mark]);
    RunOne(cfg, Next(cfg, Next(cfg, w1, call), call), mark);
  }

  /** What a run that has gone on to B decides after one call. */
  lemma AskB(cfg: Config, w: World, i: nat, o: OrderId)
    requires Safe(cfg, w) && Holding(w, i, o) && w.workers[i].phase.CallB? && w.workers[i].phase.k == 1
    requires o != "" && w.db.orders[o].sku != ""
    ensures var w1 := Next(cfg, w, Act(i, CallProvider(Replied(false))));
      && Safe(cfg, w1) && Holding(w1, i, o) && w1.now == w.now + 1
      && (Usable(WouldIssue(w.db, ProviderB, o)) ==>
            w1.workers[i].phase == Marking(Deliver(ProviderB, WouldIssue(w.db, ProviderB, o).code)))
      && (NoStockFor(w.db, ProviderB, o) ==>
            w1.workers[i].phase == Marking(GiveUp(w.workers[i].phase.errorA == OutOfStock)))
  {
    AskOnce(cfg, w, i, o);
    RoundTrip(RequestFor(w.db, o), WouldIssue(w.db, ProviderB, o));
    if NoStockFor(w.db, ProviderB, o) {
      NoStockIsSaid(w.db, ProviderB, o);
    }
    assert Safe(cfg, Next(cfg, w, Act(i, CallProvider(Replied(false))))) by {
      NextSafe(cfg, w, Act(i, CallProvider(Replied(false))));
    }
  }

  /** A run that has gone on to B delivers the code of B, if B has one. */
  lemma FinishAtB(cfg: Config, w: World, i: nat, o: OrderId)
    requires Safe(cfg, w) && Holding(w, i, o) && w.workers[i].phase.CallB? && w.workers[i].phase.k == 1
    requires o != "" && w.db.orders[o].sku != ""
    ensures var db' := Next(cfg, Next(cfg, w, Act(i, CallProvider(Replied(false)))), Act(i, MarkJob)).db;
      && (Usable(WouldIssue(w.db, ProviderB, o)) ==>
            Delivered(db', o, ProviderB, WouldIssue(w.db, ProviderB, o).code, w.now + 2))
      && (NoStockFor(w.db, ProviderB, o) ==>
            GivenUp(db', o, w.workers[i].phase.errorA == OutOfStock, w.now + 2 + cfg.retryDelay))
  {
    AskB(cfg, w, i, o);
    var w1 := Next(cfg, w, Act(i, CallProvider(Replied(false))));
    if w1.workers[i].phase.Marking? {
      MarkRecords(cfg, w1, i, o);
    }
  }

  /**
   * Out of stock at A is a reason to ask B: if A has neither an issue nor a free key, one claim, one
   * call at each provider and the mark deliver the code of B, or, if B has none either, leave the
   * order out of stock and its job due after the delay.
   */
  lemma NoStockAtA(cfg: Config, w: World, i: nat, o: OrderId)
    requires Reachable(cfg, w) && i !in w.workers && IsNext(w.db, w.now + 1, o)
    requires o != "" && w.db.orders[o].sku != "" && NoStockFor(w.db, ProviderA, o)
    ensures var db' := Run(cfg, w, AskBoth(i, o)).db;
      && (Usable(WouldIssue(w.db, ProviderB, o)) ==>
            Delivered(db', o, ProviderB, WouldIssue(w.db, ProviderB, o).code, w.now + 4))
      && (NoStockFor(w.db, ProviderB, o) ==> GivenUp(db', o, true, w.now + 4 + cfg.retryDelay))
  {
    ReachableSafe(cfg, w);
    ClaimHolds(cfg, w, i, o);
    AskBothRuns(cfg, w, i, o);
    var w1 := Next(cfg, w, Act(i, ClaimJob(o)));
    var w2 := Next(cfg, w1, Act(i, CallProvider(Replied(false))));
    assert Safe(cfg, w1) by { NextSafe(cfg, w, Act(i, ClaimJob(o))); }
    AskA(cfg, w1, i, o);
    FinishAtB(cfg, w2, i, o);
    ChancesAtB(w.db, w2.db, o);
  }

  lemma ChancesAtB(db: Db, db': Db, o: OrderId)
    requires o in db.orders && SameChances(db, db', o)
    ensures WouldIssue(db', ProviderB, o) == WouldIssue(db, ProviderB, o)
    ensures NoStockFor(db', ProviderB, o) <==> NoStockFor(db, ProviderB, o)
  {
  }

  /** So is a refusal: if A refuses every attempt, it has issued nothing, and the next call asks B. */
  lemma RefusalsLeadToB(cfg: Config, w: World, i: nat, o: OrderId, refusals: seq<Action>)
    requires Safe(cfg, w) && Holding(w, i, o) && w.workers[i].phase == CallA(1)
    requires o != "" && w.db.orders[o].sku != "" && (ProviderA, RequestIdFor(o)) !in w.db.issues
    requires OnlyCalls(refusals, i, Replied(true)) && |refusals| == Attempts(cfg.retries)
    ensures var w' := Run(cfg, w, refusals);
      && Safe(cfg, w') && Holding(w', i, o) && w'.workers[i].phase == CallB(1, Unavailable)
      && w'.db == w.db && w'.now == w.now + |refusals|
  {
    GoOnToB(cfg, w, i, o, 1, Replied(true), refusals);
    RunSafe(cfg, w, refusals);
  }
}
