/** Two runs in which one order costs two keys: what the guarantees do not promise, and why. */
module Scenarios {
  import opened Prelude
  import opened Model
  import opened Queue
  import opened Providers
  import opened Retry
  import opened World
  import opened Fallback
  import opened FirstSteps

  const REQUEST := RequestIdFor(ORDER)
  const ONCE := Config(1, 1000)
  const TWICE := Config(2, 1000)

  /** Both providers have one key, and worker 0 has claimed the paid order. */
  const SETUP: seq<Action> := [
    Shop(AddKey(ProviderA, SKU, "ka")), Shop(AddKey(ProviderB, SKU, "kb")), Act(0, ClaimJob(ORDER))]

  /** Worker 0 is in `phase` with the only order, and a provider's key is spent once it has issued. */
  ghost predicate At(w: World, phase: Phase) {
    && 0 in w.workers && w.workers[0].phase == phase
    && w.workers[0].job.orderId == ORDER && w.workers[0].job.requestId == REQUEST && w.workers[0].job.sku == SKU
    && w.db.attempts.Keys == {ORDER} && w.db.attempts[ORDER].requestId == REQUEST
    && HasRow(w.db, w.workers[0].job) && w.db.attempts[ORDER].status.JobProcessing?
    && ORDER in w.db.orders && w.db.orders[ORDER].sku == SKU && w.db.orders[ORDER].status.OrderDelivering?
    && |w.db.keys| == 2
    && w.db.keys[0].provider == ProviderA && w.db.keys[0].sku == SKU && w.db.keys[0].code == "ka"
    && w.db.keys[1].provider == ProviderB && w.db.keys[1].sku == SKU && w.db.keys[1].code == "kb"
    && (forall p :: (p, REQUEST) in w.db.issues <==> !Free(w.db, p))
    && (forall p :: (p, REQUEST) in w.db.issues ==> w.db.issues[(p, REQUEST)].createdAt <= w.now)
  }

  predicate Free(db: Db, p: Provider)
    requires |db.keys| == 2
  {
    if p.ProviderA? then !db.keys[0].issued else !db.keys[1].issued
  }

  lemma SetupDone(cfg: Config)
    ensures Run(cfg, START, PAID + SETUP).workers.Keys == {0}
    ensures At(Run(cfg, START, PAID + SETUP), CallA(1))
    ensures Free(Run(cfg, START, PAID + SETUP).db, ProviderA) && Free(Run(cfg, START, PAID + SETUP).db, ProviderB)
  {
    PaidWorld(cfg);
    var w3 := World(Paid(), 3, map[]);
    RunAppend(cfg, START, PAID, SETUP);
    var ka, kb := Key(ProviderA, SKU, "ka", false, None, None), Key(ProviderB, SKU, "kb", false, None, None);
    var w4 := w3.(now := 4, db := Paid().(keys := [ka]));
    var w5 := w3.(now := 5, db := Paid().(keys := [ka, kb]));
    assert Paid().keys + [ka] == [ka] && [ka] + [kb] == [ka, kb];
    var addA, addB := Shop(AddKey(ProviderA, SKU, "ka")), Shop(AddKey(ProviderB, SKU, "kb"));
    var claim := Act(0, ClaimJob(ORDER));
    NextShop(cfg, w3, addA.shop);
    NextShop(cfg, w4, addB.shop);
    assert IsNext(w5.db, 6, ORDER);
    NextAct(cfg, w5, 0, claim.act);
    RunOne(cfg, w5, claim);
    RunCons(cfg, w4, addB, [claim]);
    RunCons(cfg, w3, addA, [addB] + [claim]);
    assert SETUP == [addA] + ([addB] + [claim]);
  }

  function CodeOf(p: Provider): string {
    if p.ProviderA? then "ka" else "kb"
  }

  /** A call that spends the key of its provider; its reply arrives or is lost. */
  lemma Spend(cfg: Config, w: World, phase: Phase, tr: Transit)
    requires At(w, phase) && !phase.Marking? && Free(w.db, ProviderOf(phase))
    requires tr == Replied(false) || tr == ReplyLost(false)
    ensures var w' := Next(cfg, w, Act(0, CallProvider(tr)));
      var p := ProviderOf(phase);
      && At(w', AfterResult(Attempts(cfg.retries), phase, if tr.Replied? then Got(CodeOf(p)) else Err(Timeout)))
      && !Free(w'.db, p) && w'.now == w.now + 1
      && w'.db.issues == w.db.issues[(p, REQUEST) := Issue(SKU, ORDER, CodeOf(p), w.now + 1)]
      && (forall q :: q != p ==> (Free(w'.db, q) <==> Free(w.db, q)))
      && w'.db.attempts == w.db.attempts
  {
    NextAct(cfg, w, 0, CallProvider(tr));
    var p := ProviderOf(phase);
    var r := RequestOf(w.workers[0].job);
    assert IsFree(w.db.keys[if p.ProviderA? then 0 else 1], p, SKU);
    assert IssueCode(w.db, w.now + 1, p, r, false).1 == Issued(CodeOf(p));
  }

  /** A call that spends nothing and is reported unavailable. */
  lemma Refuse(cfg: Config, w: World, phase: Phase, tr: Transit)
    requires At(w, phase) && !phase.Marking?
    requires tr == Faulted || (tr == Replied(true) && Free(w.db, ProviderOf(phase)))
    ensures var w' := Next(cfg, w, Act(0, CallProvider(tr)));
      At(w', AfterResult(Attempts(cfg.retries), phase, Err(Unavailable))) && w'.db == w.db && w'.now == w.now + 1
  {
    NextAct(cfg, w, 0, CallProvider(tr));
  }

  /** The order is delivered by `p`, and both providers have spent a key on it, `first` before the other. */
  ghost predicate PaidTwice(w: World, p: Provider, first: Provider) {
    && ORDER in w.db.attempts && w.db.attempts[ORDER].status.JobDelivered? && w.db.attempts[ORDER].provider == Some(p)
    && (ProviderA, REQUEST) in w.db.issues && (ProviderB, REQUEST) in w.db.issues
    && var a, b := w.db.issues[(ProviderA, REQUEST)].createdAt, w.db.issues[(ProviderB, REQUEST)].createdAt;
       if first.ProviderA? then a < b else b < a
  }

  lemma MarkIt(cfg: Config, w: World, p: Provider, code: string)
    requires At(w, Marking(Deliver(p, code)))
    ensures var w' := Next(cfg, w, Act(0, MarkJob));
      && w'.db.issues == w.db.issues && ORDER in w'.db.attempts
      && w'.db.attempts[ORDER].status.JobDelivered? && w'.db.attempts[ORDER].provider == Some(p)
  {
    NextAct(cfg, w, 0, MarkJob);
  }

  function Calls(trs: seq<Transit>): seq<Action> {
    if trs == [] then [Act(0, MarkJob)] else [Act(0, CallProvider(trs[0]))] + Calls(trs[1..])
  }

  lemma CallsStep(cfg: Config, w: World, tr: Transit, trs: seq<Transit>)
    ensures Run(cfg, w, Calls([tr] + trs)) == Run(cfg, Next(cfg, w, Act(0, CallProvider(tr))), Calls(trs))
  {
    assert ([tr] + trs)[1..] == trs;
    RunCons(cfg, w, Act(0, CallProvider(tr)), Calls(trs));
  }

  const LOST_THEN_FAULT: seq<Transit> := [ReplyLost(false)] + ([Faulted] + ([Replied(false)] + []))

  /**
   * Without the assumption that a refusal means nothing was issued: A issues, its reply is lost, the
   * next attempt finds A unreachable, and the run goes on to B. B delivers, and A's key is lost.
   */
  lemma UnreachableAfterIssueCostsAKey()
    ensures PaidTwice(Run(TWICE, START, PAID + SETUP + Calls(LOST_THEN_FAULT)), ProviderB, ProviderA)
  {
    var w := Run(TWICE, START, PAID + SETUP);
    SetupDone(TWICE);
    RunAppend(TWICE, START, PAID + SETUP, Calls(LOST_THEN_FAULT));
    CallsStep(TWICE, w, ReplyLost(false), [Faulted] + ([Replied(false)] + []));
    Spend(TWICE, w, CallA(1), ReplyLost(false));
    var w1 := Next(TWICE, w, Act(0, CallProvider(ReplyLost(false))));
    CallsStep(TWICE, w1, Faulted, [Replied(false)] + []);
    Refuse(TWICE, w1, CallA(2), Faulted);
    var w2 := Next(TWICE, w1, Act(0, CallProvider(Faulted)));
    CallsStep(TWICE, w2, Replied(false), []);
    Spend(TWICE, w2, CallB(1, Unavailable), Replied(false));
    var w3 := Next(TWICE, w2, Act(0, CallProvider(Replied(false))));
    MarkIt(TWICE, w3, ProviderB, "kb");
    RunOne(TWICE, w3, Act(0, MarkJob));
  }

  // ----- an orderly run that costs two keys -----

  const AGAIN: seq<Action> := [Wait(1000), Act(0, ClaimJob(ORDER))]

  lemma GiveItUp(cfg: Config, w: World)
    requires At(w, Marking(GiveUp(false))) && w.workers.Keys == {0} && cfg.retryDelay == 1000
    ensures At(Run(cfg, w, [Act(0, MarkJob)] + AGAIN), CallA(1))
    ensures Run(cfg, w, [Act(0, MarkJob)] + AGAIN).db.issues == w.db.issues
    ensures Run(cfg, w, [Act(0, MarkJob)] + AGAIN).db.keys == w.db.keys
  {
    NextAct(cfg, w, 0, MarkJob);
    var w1 := Next(cfg, w, Act(0, MarkJob));
    var w2 := w1.(now := w1.now + 1000);
    RunCons(cfg, w, Act(0, MarkJob), AGAIN);
    assert Next(cfg, w1, Wait(1000)) == w2;
    assert AGAIN == [Wait(1000)] + [Act(0, ClaimJob(ORDER))];
    RunCons(cfg, w1, Wait(1000), [Act(0, ClaimJob(ORDER))]);
    RunOne(cfg, w2, Act(0, ClaimJob(ORDER)));
    assert IsNext(w2.db, w2.now + 1, ORDER);
    NextAct(cfg, w2, 0, ClaimJob(ORDER));
  }

  /** Nothing in the run recovers a job or goes unanswered as "unavailable", so it is orderly. */
  lemma {:induction false} PlainIsOrderly(cfg: Config, w: World, acts: seq<Action>)
    requires forall i :: 0 <= i < |acts| ==>
      acts[i] != Upkeep(RecoverStale) &&
      !(acts[i].Act? && acts[i].act.CallProvider? && Unanswered(acts[i].act.transit))
    ensures Orderly(cfg, w, acts)
    decreases acts
  {
    if acts != [] {
      PlainIsOrderly(cfg, Next(cfg, w, acts[0]), acts[1..]);
    }
  }

  function FirstRun(): seq<Action> {
    [Act(0, CallProvider(Replied(true)))] + ([Act(0, CallProvider(ReplyLost(false)))] + ([Act(0, MarkJob)] + AGAIN))
  }

  function SecondRun(): seq<Action> {
    [Act(0, CallProvider(Replied(false)))] + [Act(0, MarkJob)]
  }

  lemma FirstRunGivesUp(w: World)
    requires At(w, CallA(1)) && Free(w.db, ProviderA) && Free(w.db, ProviderB) && w.workers.Keys == {0}
    ensures var w' := Run(ONCE, w, FirstRun());
      At(w', CallA(1)) && Free(w'.db, ProviderA) && (ProviderB, REQUEST) in w'.db.issues
  {
    Refuse(ONCE, w, CallA(1), Replied(true));
    RunCons(ONCE, w, Act(0, CallProvider(Replied(true))),
            [Act(0, CallProvider(ReplyLost(false)))] + ([Act(0, MarkJob)] + AGAIN));
    var w1 := Next(ONCE, w, Act(0, CallProvider(Replied(true))));
    NextAct(ONCE, w, 0, CallProvider(Replied(true)));
    Spend(ONCE, w1, CallB(1, Unavailable), ReplyLost(false));
    RunCons(ONCE, w1, Act(0, CallProvider(ReplyLost(false))), [Act(0, MarkJob)] + AGAIN);
    var w2 := Next(ONCE, w1, Act(0, CallProvider(ReplyLost(false))));
    NextAct(ONCE, w1, 0, CallProvider(ReplyLost(false)));
    GiveItUp(ONCE, w2);
  }

  lemma SecondRunDelivers(w: World)
    requires At(w, CallA(1)) && Free(w.db, ProviderA) && (ProviderB, REQUEST) in w.db.issues
    ensures PaidTwice(Run(ONCE, w, SecondRun()), ProviderA, ProviderB)
  {
    Spend(ONCE, w, CallA(1), Replied(false));
    var w1 := Next(ONCE, w, Act(0, CallProvider(Replied(false))));
    RunCons(ONCE, w, Act(0, CallProvider(Replied(false))), [Act(0, MarkJob)]);
    MarkIt(ONCE, w1, ProviderA, "ka");
    RunOne(ONCE, w1, Act(0, MarkJob));
  }

  /**
   * Even an orderly run may cost two keys: A refuses, B issues and its reply is lost, and the next
   * run, which asks A first again, gets a second key from A.
   */
  lemma OrderlyRunMayCostTwoKeys()
    ensures Orderly(ONCE, START, PAID + SETUP + (FirstRun() + SecondRun()))
    ensures PaidTwice(Run(ONCE, START, PAID + SETUP + (FirstRun() + SecondRun())), ProviderA, ProviderB)
  {
    var w := Run(ONCE, START, PAID + SETUP);
    SetupDone(ONCE);
    PlainIsOrderly(ONCE, START, PAID + SETUP + (FirstRun() + SecondRun()));
    FirstRunGivesUp(w);
    SecondRunDelivers(Run(ONCE, w, FirstRun()));
    RunAppend(ONCE, w, FirstRun(), SecondRun());
    RunAppend(ONCE, START, PAID + SETUP, FirstRun() + SecondRun());
  }
}
