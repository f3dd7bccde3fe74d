/** Budget arithmetic along a run's attempt chain (src/service.ts, src/runtime/attempt.ts). */
module Budget {
  // The plans `retryPlan` and `resumePlan` derive, and the steering limits an attempt
  // rebuilds from the journal. Cost is a real number.

  import opened Contracts
  import opened Outcomes

  datatype Limits = Limits(
    runtimeMs: int, attemptTimeoutMs: int, tokens: Option<int>, cost: real,
    outputBytes: nat, workspaceWriteBytes: nat, retries: int, resumes: int)

  /** What one attempt used. */
  datatype Used = Used(runtimeMs: nat, tokens: nat, cost: real)

  datatype Derivation = ByRetry | ByResume | ByContinuing

  datatype BudgetError = CountExhausted | NotPermitted | BudgetExhausted

  /** The bounds of the limits schema, and what preflight adds. */
  predicate Valid(l: Limits) {
    && 1000 <= l.runtimeMs <= 3600000
    && 1000 <= l.attemptTimeoutMs <= l.runtimeMs
    && (l.tokens.Some? ==> 1 <= l.tokens.value <= 10000000)
    && l.cost >= 0.0
    && 1 <= l.outputBytes <= 16 * 1024 * 1024
    && 0 <= l.retries <= 10 && 0 <= l.resumes <= 10
  }

  predicate Permits(failure: Option<Failure>, d: Derivation) {
    match d
    case ByRetry => failure.Some? && (failure.value.retry.Manual? || failure.value.retry.Backoff?)
    case ByResume => failure.Some? && failure.value.retry.Resume?
    case ByContinuing => true
  }

  function Min(a: int, b: int): int { if a < b then a else b }

  function Derive(l: Limits, failure: Option<Failure>, used: Used, d: Derivation): Result<Limits, BudgetError> {
    var left := if d.ByRetry? then l.retries else l.resumes;
    if left < 1 then Err(CountExhausted)
    else if !Permits(failure, d) then Err(NotPermitted)
    else
      var runtime := l.runtimeMs - used.runtimeMs;
      var tokens := if l.tokens.Some? then Some(l.tokens.value - used.tokens) else None;
      var cost := l.cost - used.cost;
      if runtime < 1000 || (tokens.Some? && tokens.value < 1) || cost <= 0.0 then Err(BudgetExhausted)
      else Ok(l.(runtimeMs := runtime, attemptTimeoutMs := Min(l.attemptTimeoutMs, runtime), tokens := tokens, cost := cost,
                 retries := if d.ByRetry? then l.retries - 1 else l.retries,
                 resumes := if d.ByRetry? then l.resumes else l.resumes - 1))
  }

  // ----- a chain of attempts -----

  /** How one attempt led to the next, and what the service charged it with. */
  datatype Step = Step(charged: Used, failure: Option<Failure>, derivation: Derivation)

  /** `plans[i + 1]` was derived from `plans[i]` by `steps[i]`. */
  ghost predicate Chain(plans: seq<Limits>, steps: seq<Step>) {
    && |plans| == |steps| + 1 && Valid(plans[0])
    && forall i :: 0 <= i < |steps| ==>
         steps[i].charged.cost >= 0.0
             && Derive(plans[i], steps[i].failure, steps[i].charged, steps[i].derivation) == Ok(plans[i + 1])
  }

  function Charged(steps: seq<Step>, n: nat): Used
    requires n <= |steps|
  {
    if n == 0 then Used(0, 0, 0.0) else Plus(Charged(steps, n - 1), steps[n - 1].charged)
  }

  function Plus(a: Used, b: Used): Used {
    Used(a.runtimeMs + b.runtimeMs, a.tokens + b.tokens, a.cost + b.cost)
  }

  /** What is left and what was charged make up the root's limits, to the last unit. */
  lemma {:induction false} Conserved(plans: seq<Limits>, steps: seq<Step>, n: nat)
    requires Chain(plans, steps) && n <= |steps|
    ensures var root, plan, sum := plans[0], plans[n], Charged(steps, n);
            && plan.runtimeMs + sum.runtimeMs == root.runtimeMs
            && plan.tokens.Some? == root.tokens.Some?
            && (root.tokens.Some? ==> plan.tokens.value + sum.tokens == root.tokens.value)
            && plan.cost + sum.cost == root.cost
            && plan.outputBytes == root.outputBytes && plan.workspaceWriteBytes == root.workspaceWriteBytes
            && plan.retries + plan.resumes + n == root.retries + root.resumes
  {
    if n > 0 {
      Conserved(plans, steps, n - 1);
      assert Derive(plans[n - 1], steps[n - 1].failure, steps[n - 1].charged, steps[n - 1].derivation) == Ok(plans[n - 1 + 1]);
    }
  }

  /** Every derived plan still satisfies the schema, with the attempt timeout inside what is left. */
  lemma {:induction false} DerivedPlansValid(plans: seq<Limits>, steps: seq<Step>, n: nat)
    requires Chain(plans, steps) && n <= |steps|
    ensures Valid(plans[n])
    ensures n > 0 ==> plans[n].cost > 0.0
  {
    if n > 0 {
      DerivedPlansValid(plans, steps, n - 1);
      assert Derive(plans[n - 1], steps[n - 1].failure, steps[n - 1].charged, steps[n - 1].derivation) == Ok(plans[n - 1 + 1]);
    }
  }

  /** A run has at most 1 + retries + resumes attempts, so never more than 21. */
  lemma AttemptsBounded(plans: seq<Limits>, steps: seq<Step>)
    requires Chain(plans, steps)
    ensures |plans| <= 1 + plans[0].retries + plans[0].resumes <= 21
  {
    Conserved(plans, steps, |steps|);
    DerivedPlansValid(plans, steps, |steps|);
  }

  // ----- steering -----

  /** The limits an attempt steers by: its plan's plus the results found on the journal. */
  function SteeringLimits(plan: Limits, results: seq<Used>): (int, Option<int>, real) {
    var prior := Total(results, |results|);
    (plan.runtimeMs + prior.runtimeMs,
     if plan.tokens.Some? then Some(plan.tokens.value + prior.tokens) else None,
     plan.cost + prior.cost)
  }

  function Total(results: seq<Used>, n: nat): Used
    requires n <= |results|
  {
    if n == 0 then Used(0, 0, 0.0) else Plus(Total(results, n - 1), results[n - 1])
  }

  lemma {:induction false} TotalOfPrefix(results: seq<Used>, more: seq<Used>, n: nat)
    requires n <= |results| && results <= more
    ensures Total(more, n) == Total(results, n)
  {
    if n > 0 { TotalOfPrefix(results, more, n - 1); }
  }

  /** The same in each limited resource. */
  predicate SameUse(root: Limits, a: Used, b: Used) {
    a.runtimeMs == b.runtimeMs && (root.tokens.Some? ==> a.tokens == b.tokens) && a.cost == b.cost
  }

  /** The rebuilt steering limits are the root's exactly when the results on the journal add up to what was charged. */
  lemma SteeringLimitsAreRootExactly(plans: seq<Limits>, steps: seq<Step>, n: nat, results: seq<Used>)
    requires Chain(plans, steps) && n <= |steps|
    ensures SteeringLimits(plans[n], results) == (plans[0].runtimeMs, plans[0].tokens, plans[0].cost) <==>
              SameUse(plans[0], Total(results, |results|), Charged(steps, n))
  {
    Conserved(plans, steps, n);
  }

  predicate WithinUse(a: Used, b: Used) {
    a.runtimeMs <= b.runtimeMs && a.tokens <= b.tokens && a.cost <= b.cost
  }
}
