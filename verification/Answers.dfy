/** What a worker is told by each provider, among any other steps, and the mark that follows from it. */
module Answers {
  import opened Model
  import opened Providers
  import opened Retry
  import opened World
  import opened Runs

  /** What one step makes provider `p` tell worker `i`. */
  function Answer(w: World, i: nat, a: Action, p: Provider): seq<IssueResult>
    requires i in w.workers
  {
    if Called(w, i, a) && (p.ProviderB? <==> w.workers[i].phase.CallB?)
    then [DoCall(w.db, w.now + 1, w.workers[i], a.act.transit).1] else []
  }

  /** What provider `p` tells worker `i` in a run, until the worker marks its job, dies, or the run ends. */
  function AnswersOf(cfg: Config, w: World, i: nat, acts: seq<Action>, p: Provider): seq<IssueResult>
    decreases acts
  {
    if acts == [] || i !in w.workers then []
    else Answer(w, i, acts[0], p) + AnswersOf(cfg, Next(cfg, w, acts[0]), i, acts[1..], p)
  }

  /** Every answer but the last is a timeout, a refusal or a broken reply. */
  ghost predicate SoftButLast(s: seq<IssueResult>) {
    forall k :: 0 <= k < |s| - 1 ==> s[k] == Err(Timeout) || s[k] == Err(Unavailable) || s[k] == Err(Other)
  }

  function Last(s: seq<IssueResult>): IssueResult
    requires s != []
  {
    s[|s| - 1]
  }

  /** How many attempts are left at a provider. */
  predicate InRange(n: nat, phase: Phase) {
    phase.Marking? || 1 <= phase.k <= n
  }

  /** What the answers of A and of B can be, for a run that starts in `phase`. */
  ghost predicate Lawful(n: nat, phase: Phase, a: seq<IssueResult>, b: seq<IssueResult>) {
    && SoftButLast(a) && SoftButLast(b)
    && match phase
       case CallA(k) =>
         && |a| <= n + 1 - k && |b| <= n
         && (b != [] ==>
               a != [] && (Last(a) == Err(OutOfStock) || (Last(a) == Err(Unavailable) && |a| == n + 1 - k)))
       case CallB(k, _) => a == [] && |b| <= n + 1 - k
       case Marking(_) => a == [] && b == []
  }

  lemma LawfulNext(n: nat, phase: Phase, r: IssueResult, a: seq<IssueResult>, b: seq<IssueResult>)
    requires InRange(n, phase) && !phase.Marking? && Lawful(n, AfterResult(n, phase, r), a, b)
    ensures Lawful(n, phase, (if phase.CallA? then [r] else []) + a, (if phase.CallB? then [r] else []) + b)
  {
  }

  lemma StepInRange(cfg: Config, w: World, i: nat, a: Action)
    requires i in w.workers && InRange(Attempts(cfg.retries), w.workers[i].phase) && i in Next(cfg, w, a).workers
    ensures InRange(Attempts(cfg.retries), Next(cfg, w, a).workers[i].phase)
  {
    WorkerMoves(cfg, w, i, a);
  }

  /** What one step adds in front of lawful answers is lawful. */
  lemma StepLawful(cfg: Config, w: World, i: nat, act: Action, a: seq<IssueResult>, b: seq<IssueResult>)
    requires i in w.workers && InRange(Attempts(cfg.retries), w.workers[i].phase) && i in Next(cfg, w, act).workers
    requires Lawful(Attempts(cfg.retries), Next(cfg, w, act).workers[i].phase, a, b)
    ensures Lawful(Attempts(cfg.retries), w.workers[i].phase,
                   Answer(w, i, act, ProviderA) + a, Answer(w, i, act, ProviderB) + b)
  {
    WorkerMoves(cfg, w, i, act);
    if Called(w, i, act) {
      LawfulNext(Attempts(cfg.retries), w.workers[i].phase,
                 DoCall(w.db, w.now + 1, w.workers[i], act.act.transit).1, a, b);
    } else {
      assert [] + a == a && [] + b == b;
    }
  }

  /** The answers of one provider end with the first that is conclusive; B is asked only after A has said no. */
  lemma {:induction false} AnswersAreLawful(cfg: Config, w: World, i: nat, acts: seq<Action>)
    requires i in w.workers && InRange(Attempts(cfg.retries), w.workers[i].phase)
    ensures Lawful(Attempts(cfg.retries), w.workers[i].phase,
                   AnswersOf(cfg, w, i, acts, ProviderA), AnswersOf(cfg, w, i, acts, ProviderB))
    decreases acts
  {
    if acts != [] {
      var w' := Next(cfg, w, acts[0]);
      if i in w'.workers {
        StepInRange(cfg, w, i, acts[0]);
        AnswersAreLawful(cfg, w', i, acts[1..]);
        StepLawful(cfg, w, i, acts[0], AnswersOf(cfg, w', i, acts[1..], ProviderA),
                   AnswersOf(cfg, w', i, acts[1..], ProviderB));
      } else {
        NoAnswerAtTheEnd(cfg, w, i, acts[0]);
      }
    }
  }

  /** With its last step a worker is told nothing. */
  lemma NoAnswerAtTheEnd(cfg: Config, w: World, i: nat, a: Action)
    requires i in w.workers && i !in Next(cfg, w, a).workers
    ensures !Called(w, i, a)
  {
    if Called(w, i, a) {
      NextAct(cfg, w, i, a.act);
    }
  }

  // ----- the decision -----

  /** The decision that the last answers call for. */
  function Verdict(a: seq<IssueResult>, b: seq<IssueResult>): Decision
    requires a != []
  {
    match Last(a)
    case Got(code) => Deliver(ProviderA, code)
    case Err(e) =>
      if b == [] then GiveUp(false)
      else match Last(b)
        case Got(code) => Deliver(ProviderB, code)
        case Err(f) => GiveUp(e == OutOfStock && f == OutOfStock)
  }

  /** The decision `d` of a run that starts in `phase`. */
  ghost predicate Decides(n: nat, phase: Phase, a: seq<IssueResult>, b: seq<IssueResult>, d: Decision) {
    match phase
    case CallA(k) =>
      && a != [] && d == Verdict(a, b)
      && (b == [] <==> !(Last(a) == Err(OutOfStock) || Last(a) == Err(Unavailable)))
    case CallB(k, e) => a == [] && b != [] && d == Verdict([Err(e)], b)
    case Marking(decision) => a == [] && b == [] && d == decision
  }

  lemma DecidesNext(n: nat, phase: Phase, r: IssueResult, a: seq<IssueResult>, b: seq<IssueResult>, d: Decision)
    requires InRange(n, phase) && !phase.Marking? && Decides(n, AfterResult(n, phase, r), a, b, d)
    ensures Decides(n, phase, (if phase.CallA? then [r] else []) + a, (if phase.CallB? then [r] else []) + b, d)
  {
  }

  lemma StepDecides(cfg: Config, w: World, i: nat, act: Action, a: seq<IssueResult>, b: seq<IssueResult>, d: Decision)
    requires i in w.workers && InRange(Attempts(cfg.retries), w.workers[i].phase) && i in Next(cfg, w, act).workers
    requires Decides(Attempts(cfg.retries), Next(cfg, w, act).workers[i].phase, a, b, d)
    ensures Decides(Attempts(cfg.retries), w.workers[i].phase,
                    Answer(w, i, act, ProviderA) + a, Answer(w, i, act, ProviderB) + b, d)
  {
    var n, phase, next := Attempts(cfg.retries), w.workers[i].phase, Next(cfg, w, act).workers[i].phase;
    if Called(w, i, act) {
      var r := DoCall(w.db, w.now + 1, w.workers[i], act.act.transit).1;
      assert next == AfterResult(n, phase, r) by { WorkerMoves(cfg, w, i, act); }
      assert Answer(w, i, act, ProviderA) == if phase.CallA? then [r] else [];
      assert Answer(w, i, act, ProviderB) == if phase.CallB? then [r] else [];
      DecidesNext(n, phase, r, a, b, d);
    } else {
      assert next == phase by { WorkerMoves(cfg, w, i, act); }
      assert [] + a == a && [] + b == b;
    }
  }

  lemma {:induction false} AnswersDecide(cfg: Config, w: World, i: nat, acts: seq<Action>, d: Decision)
    requires Stays(cfg, w, i, acts) && InRange(Attempts(cfg.retries), w.workers[i].phase)
    requires i in Run(cfg, w, acts).workers && Run(cfg, w, acts).workers[i].phase == Marking(d)
    ensures Decides(Attempts(cfg.retries), w.workers[i].phase,
                    AnswersOf(cfg, w, i, acts, ProviderA), AnswersOf(cfg, w, i, acts, ProviderB), d)
    decreases acts
  {
    if acts != [] {
      var w' := Next(cfg, w, acts[0]);
      StepInRange(cfg, w, i, acts[0]);
      AnswersDecide(cfg, w', i, acts[1..], d);
      StepDecides(cfg, w, i, acts[0], AnswersOf(cfg, w', i, acts[1..], ProviderA),
                  AnswersOf(cfg, w', i, acts[1..], ProviderB), d);
    }
  }
}
