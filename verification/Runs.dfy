/** A run of a worker, step by step, decides what the two retry chains decide as a whole. */
module Runs {
  import opened Providers
  import opened Retry
  import opened World

  /** How many calls a run can still make. */
  function CallsLeft(n: nat, phase: Phase): nat
    requires phase.Marking? || 1 <= phase.k <= n
  {
    match phase
    case CallA(k) => 2 * n + 1 - k
    case CallB(k, _) => n + 1 - k
    case Marking(_) => 0
  }

  /** The phase after a sequence of results. */
  function Follow(n: nat, phase: Phase, results: seq<IssueResult>): Phase
    decreases results
  {
    if results == [] then phase else Follow(n, AfterResult(n, phase, results[0]), results[1..])
  }

  lemma {:induction false} FollowAppend(n: nat, phase: Phase, xs: seq<IssueResult>, ys: seq<IssueResult>)
    ensures Follow(n, phase, xs + ys) == Follow(n, Follow(n, phase, xs), ys)
    decreases xs
  {
    if xs == [] {
      assert xs + ys == ys;
    } else {
      assert (xs + ys)[1..] == xs[1..] + ys;
      FollowAppend(n, AfterResult(n, phase, xs[0]), xs[1..], ys);
    }
  }

  /** The attempt at which a chain stops: the first conclusive reply, or the last attempt. */
  function StopAt(n: nat, replies: seq<IssueResult>, k: nat): (m: nat)
    requires 1 <= k <= n <= |replies|
    ensures k <= m <= n
    ensures ChainFrom(n, replies, k) == replies[m - 1]
    ensures m < n ==> replies[m - 1].Got? || replies[m - 1] == Err(OutOfStock) || replies[m - 1] == Err(Invalid)
    ensures forall i :: k - 1 <= i < m - 1 ==>
              replies[i] == Err(Timeout) || replies[i] == Err(Unavailable) || replies[i] == Err(Other)
    decreases n - k
  {
    if Conclusive(replies[k - 1]) || k == n then k else StopAt(n, replies, k + 1)
  }

  lemma {:induction false} FollowA(n: nat, replies: seq<IssueResult>, k: nat)
    requires 1 <= k <= n <= |replies|
    ensures var m := StopAt(n, replies, k);
      Follow(n, CallA(k), replies[k - 1..m]) == AfterResult(n, CallA(m), replies[m - 1])
    decreases n - k
  {
    var m := StopAt(n, replies, k);
    assert replies[k - 1..m][1..] == replies[k..m];
    if m > k {
      FollowA(n, replies, k + 1);
    }
  }

  lemma {:induction false} FollowB(n: nat, errorA: IssueError, replies: seq<IssueResult>, k: nat)
    requires 1 <= k <= n <= |replies|
    ensures var m := StopAt(n, replies, k);
      Follow(n, CallB(k, errorA), replies[k - 1..m]) == AfterResult(n, CallB(m, errorA), replies[m - 1])
    decreases n - k
  {
    var m := StopAt(n, replies, k);
    assert replies[k - 1..m][1..] == replies[k..m];
    if m > k {
      FollowB(n, errorA, replies, k + 1);
    }
  }

  /** The replies a run consumes: one chain, and a second one only if the first falls back. */
  function Consumed(n: nat, a: seq<IssueResult>, b: seq<IssueResult>): seq<IssueResult>
    requires 1 <= n <= |a| && n <= |b|
  {
    a[..StopAt(n, a, 1)] + if FallsBack(Chain(n, a)) then b[..StopAt(n, b, 1)] else []
  }

  /** A run makes at most 2n calls and then marks exactly as the outcomes of the two chains say. */
  lemma RunDecides(n: nat, a: seq<IssueResult>, b: seq<IssueResult>)
    requires 1 <= n <= |a| && n <= |b|
    ensures Follow(n, CallA(1), Consumed(n, a, b)) == Marking(Decide(Chain(n, a), Chain(n, b)))
    ensures |Consumed(n, a, b)| <= 2 * n
    ensures !FallsBack(Chain(n, a)) ==> |Consumed(n, a, b)| <= n
  {
    var m := StopAt(n, a, 1);
    FollowA(n, a, 1);
    assert a[1 - 1..m] == a[..m];
    if FallsBack(Chain(n, a)) {
      var l := StopAt(n, b, 1);
      FollowB(n, Chain(n, a).error, b, 1);
      assert b[1 - 1..l] == b[..l];
      FollowAppend(n, CallA(1), a[..m], b[..l]);
    } else {
      assert a[..m] + [] == a[..m];
    }
  }

  // ----- and every run is of this kind -----

  /** Results that a run in `phase` can be told, one after the other: there is none after the decision. */
  predicate Path(n: nat, phase: Phase, results: seq<IssueResult>)
    decreases results
  {
    results == [] || (!phase.Marking? && Path(n, AfterResult(n, phase, results[0]), results[1..]))
  }

  lemma {:induction false} PathB(n: nat, errorA: IssueError, k: nat, results: seq<IssueResult>, b: seq<IssueResult>)
    requires 1 <= k <= n <= |b| && k - 1 <= |results| && results <= b
    requires Path(n, CallB(k, errorA), results[k - 1..]) && Follow(n, CallB(k, errorA), results[k - 1..]).Marking?
    ensures StopAt(n, b, k) == |results|
    decreases n - k
  {
    assert results[k - 1..][1..] == results[k..];
    if !Conclusive(results[k - 1]) && k < n {
      PathB(n, errorA, k + 1, results, b);
    }
  }

  lemma {:induction false} PathA(n: nat, k: nat, results: seq<IssueResult>, a: seq<IssueResult>)
    requires 1 <= k <= n <= |a| && k - 1 <= |results| && results <= a
    requires Path(n, CallA(k), results[k - 1..]) && Follow(n, CallA(k), results[k - 1..]).Marking?
    ensures var m := StopAt(n, a, k);
      m <= |results| && Path(n, AfterResult(n, CallA(m), a[m - 1]), results[m..])
      && Follow(n, AfterResult(n, CallA(m), a[m - 1]), results[m..]).Marking?
    decreases n - k
  {
    assert results[k - 1..][1..] == results[k..];
    if !Conclusive(results[k - 1]) && k < n {
      PathA(n, k + 1, results, a);
    }
  }

  /** The results up to the end of the first chain, and from there on those of the second, if there is one. */
  lemma ChainsMeet(n: nat, results: seq<IssueResult>, m: nat, a: seq<IssueResult>, b: seq<IssueResult>)
    requires 1 <= n <= |a| && n <= |b| && m <= |results| && m == StopAt(n, a, 1)
    requires results[..m] == a[..m] && |results| - m <= |b| && results[m..] == b[..|results| - m]
    requires |results| - m == if FallsBack(Chain(n, a)) then StopAt(n, b, 1) else 0
    ensures results == Consumed(n, a, b)
  {
    assert results == results[..m] + results[m..];
  }

  /** After the last call of the first chain a run goes on to B or has decided. */
  lemma SecondChain(n: nat, a: seq<IssueResult>, m: nat, rest: seq<IssueResult>, b: seq<IssueResult>)
    requires 1 <= n <= |a| && n <= |b| && rest <= b && m == StopAt(n, a, 1)
    requires var next := AfterResult(n, CallA(m), a[m - 1]); Path(n, next, rest) && Follow(n, next, rest).Marking?
    ensures |rest| == if FallsBack(Chain(n, a)) then StopAt(n, b, 1) else 0
  {
    assert Chain(n, a) == a[m - 1];
    if FallsBack(a[m - 1]) {
      assert rest[1 - 1..] == rest;
      PathB(n, a[m - 1].error, 1, rest, b);
    }
  }

  /** The results are what two chains of calls consume, and the phase is the mark they call for. */
  ghost predicate ToldAsChains(n: nat, results: seq<IssueResult>, phase: Phase)
    requires n >= 1
  {
    exists a, b ::
      && n <= |a| && n <= |b| && results == Consumed(n, a, b)
      && phase == Marking(Decide(Chain(n, a), Chain(n, b)))
  }

  lemma PathConsumed(n: nat, results: seq<IssueResult>, a: seq<IssueResult>, b: seq<IssueResult>)
    requires 1 <= n <= |a| && n <= |b| && results <= a
    requires Path(n, CallA(1), results) && Follow(n, CallA(1), results).Marking?
    requires StopAt(n, a, 1) <= |results| ==> results[StopAt(n, a, 1)..] <= b
    ensures results == Consumed(n, a, b)
  {
    assert results[1 - 1..] == results;
    PathA(n, 1, results, a);
    var m := StopAt(n, a, 1);
    SecondChain(n, a, m, results[m..], b);
    ChainsMeet(n, results, m, a, b);
  }

  /** Whatever a run is told up to its decision, it is what two chains consume, and it decides as they do. */
  lemma PathDecides(n: nat, results: seq<IssueResult>)
    requires n >= 1 && Path(n, CallA(1), results) && Follow(n, CallA(1), results).Marking?
    ensures ToldAsChains(n, results, Follow(n, CallA(1), results))
  {
    var unread := seq(n, _ => Err(Other));
    var a := results + unread;
    var m := StopAt(n, a, 1);
    var b := (if m <= |results| then results[m..] else []) + unread;
    PathConsumed(n, results, a, b);
    RunDecides(n, a, b);
  }

  // ----- in the world, among all other steps -----

  predicate Called(w: World, i: nat, a: Action) {
    && a.Act? && a.worker == i && a.act.CallProvider? && i in w.workers && !w.workers[i].phase.Marking?
  }

  /** What worker `i` is told in a run until it marks its job, dies, or the run ends. */
  function Told(cfg: Config, w: World, i: nat, acts: seq<Action>): seq<IssueResult>
    decreases acts
  {
    if acts == [] || i !in w.workers then []
    else
      (if Called(w, i, acts[0]) then [DoCall(w.db, w.now + 1, w.workers[i], acts[0].act.transit).1] else [])
      + Told(cfg, Next(cfg, w, acts[0]), i, acts[1..])
  }

  /** Worker `i` neither marks its job nor dies. */
  predicate Stays(cfg: Config, w: World, i: nat, acts: seq<Action>)
    decreases acts
  {
    i in w.workers && (acts == [] || Stays(cfg, Next(cfg, w, acts[0]), i, acts[1..]))
  }

  /** A step that worker `i` survives leaves its job alone, and changes its phase only by what it is told. */
  lemma WorkerMoves(cfg: Config, w: World, i: nat, a: Action)
    requires i in w.workers && i in Next(cfg, w, a).workers
    ensures Next(cfg, w, a).workers[i].job == w.workers[i].job
    ensures Next(cfg, w, a).workers[i].phase ==
            if Called(w, i, a)
            then AfterResult(Attempts(cfg.retries), w.workers[i].phase,
                             DoCall(w.db, w.now + 1, w.workers[i], a.act.transit).1)
            else w.workers[i].phase
  {
    if a.Act? && Enabled(w, w.now + 1, a.worker, a.act) {
      NextAct(cfg, w, a.worker, a.act);
    }
  }

  /** Whatever other steps come in between, the phase of a worker depends only on what it has been told. */
  lemma {:induction false} WorldFollows(cfg: Config, w: World, i: nat, acts: seq<Action>)
    requires Stays(cfg, w, i, acts)
    ensures i in Run(cfg, w, acts).workers && Run(cfg, w, acts).workers[i].job == w.workers[i].job
    ensures Run(cfg, w, acts).workers[i].phase ==
            Follow(Attempts(cfg.retries), w.workers[i].phase, Told(cfg, w, i, acts))
    ensures Path(Attempts(cfg.retries), w.workers[i].phase, Told(cfg, w, i, acts))
    decreases acts
  {
    if acts != [] {
      var w' := Next(cfg, w, acts[0]);
      WorkerMoves(cfg, w, i, acts[0]);
      WorldFollows(cfg, w', i, acts[1..]);
      if Called(w, i, acts[0]) {
        assert Told(cfg, w, i, acts)[1..] == Told(cfg, w', i, acts[1..]);
      } else {
        assert Told(cfg, w, i, acts) == Told(cfg, w', i, acts[1..]);
      }
    }
  }

  /** In any run whatever a worker makes no more calls than its phase allows. */
  lemma {:induction false} CallsAreBounded(cfg: Config, w: World, i: nat, acts: seq<Action>)
    requires i in w.workers && (w.workers[i].phase.Marking? || 1 <= w.workers[i].phase.k <= Attempts(cfg.retries))
    ensures |Told(cfg, w, i, acts)| <= CallsLeft(Attempts(cfg.retries), w.workers[i].phase)
    decreases acts
  {
    if acts != [] && i in Next(cfg, w, acts[0]).workers {
      WorkerMoves(cfg, w, i, acts[0]);
      CallsAreBounded(cfg, Next(cfg, w, acts[0]), i, acts[1..]);
    } else if acts != [] && Called(w, i, acts[0]) {
      NextAct(cfg, w, i, acts[0].act);
    }
  }

  /**
   * In any run, among any other steps: from its claim to its mark a worker makes at most 2n calls, and
   * when it is about to mark, what it has been told is what two chains of calls consume, and it marks
   * as they decide.
   */
  lemma MarkIsDecided(cfg: Config, w: World, i: nat, acts: seq<Action>)
    requires i in w.workers && w.workers[i].phase == CallA(1)
    ensures |Told(cfg, w, i, acts)| <= 2 * Attempts(cfg.retries)
    ensures Stays(cfg, w, i, acts) ==>
      var end := Run(cfg, w, acts);
      && i in end.workers
      && (end.workers[i].phase.Marking? ==>
            ToldAsChains(Attempts(cfg.retries), Told(cfg, w, i, acts), end.workers[i].phase))
  {
    CallsAreBounded(cfg, w, i, acts);
    if Stays(cfg, w, i, acts) {
      WorldFollows(cfg, w, i, acts);
      if Run(cfg, w, acts).workers[i].phase.Marking? {
        PathDecides(Attempts(cfg.retries), Told(cfg, w, i, acts));
      }
    }
  }
}
