/** Retrying one provider, falling back to the other, and deciding how to mark the job. */
module Retry {
  import opened Model
  import opened Providers

  datatype Decision = Deliver(provider: Provider, code: string) | GiveUp(outOfStock: bool)

  /** `NewService` never keeps fewer than one attempt. */
  function Attempts(retryCount: int): (n: nat)
    ensures n >= 1 && (retryCount >= 1 ==> n == retryCount) && (retryCount < 1 ==> n == 1)
  {
    if retryCount < 1 then 1 else retryCount
  }

  /** The wait after the k-th failed attempt, in milliseconds. */
  function Backoff(k: nat): Time {
    match k
    case 1 => 100
    case 2 => 300
    case _ => 900
  }

  /** All the waiting of a chain of n attempts. */
  function TotalBackoff(n: nat): Time
    requires n >= 1
  {
    if n == 1 then 0 else TotalBackoff(n - 1) + Backoff(n - 1)
  }

  lemma {:induction false} TotalBackoffClosedForm(n: nat)
    requires n >= 1
    ensures TotalBackoff(n) == if n == 1 then 0 else if n == 2 then 100 else 400 + 900 * (n - 3)
  {
    if n > 1 {
      TotalBackoffClosedForm(n - 1);
    }
  }

  /** A result after which the same provider is not asked again. */
  predicate Conclusive(r: IssueResult) {
    r.Got? || r.error.OutOfStock? || r.error.Invalid?
  }

  /**
   * `replies[i]` is what the (i+1)-th call would return. The result is the first reply among the first
   * n that is a code, out of stock or invalid, otherwise the n-th, after exactly as many calls.
   */
  method IssueWithRetry(n: nat, replies: seq<IssueResult>) returns (result: IssueResult, calls: nat)
    requires 1 <= n <= |replies|
    ensures 1 <= calls <= n
    ensures result == replies[calls - 1]
    ensures forall i :: 0 <= i < calls - 1 ==>
              replies[i] == Err(Timeout) || replies[i] == Err(Unavailable) || replies[i] == Err(Other)
    ensures calls < n ==> result.Got? || result == Err(OutOfStock) || result == Err(Invalid)
    ensures result == Chain(n, replies)
  {
    var lastErr := replies[0];
    var attempt := 1;
    while attempt <= n
      invariant 1 <= attempt <= n + 1
      invariant forall i :: 0 <= i < attempt - 1 ==> !Conclusive(replies[i])
      invariant attempt > 1 ==> lastErr == replies[attempt - 2]
      invariant Chain(n, replies) == if attempt > n then lastErr else ChainFrom(n, replies, attempt)
    {
      var r := replies[attempt - 1];
      if r.Got? {
        return r, attempt;
      }
      lastErr := r;
      if r.error.OutOfStock? {
        return r, attempt;
      }
      if r.error.Invalid? {
        return r, attempt;
      }
      attempt := attempt + 1;
    }
    return lastErr, n;
  }

  function ChainFrom(n: nat, replies: seq<IssueResult>, k: nat): IssueResult
    requires 1 <= k <= n <= |replies|
    decreases n - k
  {
    if Conclusive(replies[k - 1]) || k == n then replies[k - 1] else ChainFrom(n, replies, k + 1)
  }

  function Chain(n: nat, replies: seq<IssueResult>): IssueResult
    requires 1 <= n <= |replies|
  {
    ChainFrom(n, replies, 1)
  }

  /** After this result from provider A, and only then, provider B is asked. */
  predicate FallsBack(a: IssueResult) {
    a.Err? && (a.error.Unavailable? || a.error.OutOfStock?)
  }

  /** How a run ends when provider A has answered `a`, and provider B, if asked, `b`. */
  function Decide(a: IssueResult, b: IssueResult): Decision {
    if a.Got? then Deliver(ProviderA, a.code)
    else if !FallsBack(a) then GiveUp(false)
    else if b.Got? then Deliver(ProviderB, b.code)
    else GiveUp(b.error.OutOfStock? && a.error.OutOfStock?)
  }
}
