/**
  The gateway to language-model providers (internal/llm/gateway.go, policy.go, types.go):
  retries, fallbacks and one token budget over all attempts of a request. Providers,
  cancellation and sleeping are parameters; attempts are recorded in a trace.
 */
module LlmGateway {
  import opened Wrappers
  import Text

  datatype Usage = Usage(inputTokens: int, outputTokens: int, cachedInputTokens: int, totalTokens: int)

  datatype Message = Message(role: string, content: string)

  datatype Request = Request(model: string, messages: seq<Message>, maxOutputTokens: int, responseSchema: string)

  datatype Target = Target(provider: string, model: string)

  /** What the gateway adds to a response's metadata. */
  datatype Execution = Execution(finalTarget: Target, attempts: nat, fallbackUsed: bool, estimatedInput: int, estimatedSpent: int)

  datatype Response = Response(id: string, model: string, content: string, usage: Usage, execution: Option<Execution>)

  datatype ErrorCode = InvalidRequest | RateLimited | Timeout | Unavailable | Cancelled | BudgetExceeded | OtherCode(name: string)

  datatype ProviderError = ProviderError(provider: string, code: ErrorCode, retryable: bool)

  /** Zero leaves a bound unset; validate refuses negative ones. */
  datatype TokenBudget = TokenBudget(maxInputTokens: int, maxOutputTokens: int, maxTotalTokens: int)

  /** At least one attempt, or validate refuses it. */
  datatype Policy = Policy(maxAttempts: int, fallbacks: seq<Target>, budget: TokenBudget)

  const NO_USAGE := Usage(0, 0, 0, 0)

  // ----- usage -----

  function AtLeastZero(n: int): int {
    if n < 0 then 0 else n
  }

  function NormalizeUsage(u: Usage): Usage {
    Usage(AtLeastZero(u.inputTokens), AtLeastZero(u.outputTokens), AtLeastZero(u.cachedInputTokens),
          AtLeastZero(u.inputTokens) + AtLeastZero(u.outputTokens))
  }

  predicate HasUsage(u: Usage) {
    u.inputTokens != 0 || u.outputTokens != 0 || u.cachedInputTokens != 0 || u.totalTokens != 0
  }

  function AddUsage(a: Usage, b: Usage): Usage {
    NormalizeUsage(Usage(a.inputTokens + b.inputTokens, a.outputTokens + b.outputTokens,
                         a.cachedInputTokens + b.cachedInputTokens, 0))
  }

  function NormalizeResponse(request: Request, response: Response): Response {
    var model := Text.TrimSpace(response.model);
    response.(id := Text.TrimSpace(response.id), model := if model == "" then Text.TrimSpace(request.model) else model,
              usage := NormalizeUsage(response.usage))
  }

  /** Field by field, without normalizing. */
  function Plus(a: Usage, b: Usage): Usage {
    Usage(a.inputTokens + b.inputTokens, a.outputTokens + b.outputTokens,
          a.cachedInputTokens + b.cachedInputTokens, a.totalTokens + b.totalTokens)
  }

  /** Normalized usage adds up to normalized usage. */
  lemma NormalPlus(a: Usage, b: Usage)
    requires a == NormalizeUsage(a) && b == NormalizeUsage(b)
    ensures Plus(a, b) == AddUsage(a, b) == NormalizeUsage(Plus(a, b))
    ensures !HasUsage(b) ==> Plus(a, b) == a
  {
  }

  // ----- estimates -----

  function Characters(messages: seq<Message>): nat {
    if messages == [] then 0
    else Characters(messages[..|messages| - 1]) + |messages[|messages| - 1].content| + 24
  }

  /** One token for every four characters, rounded up. */
  function EstimateOf(request: Request): nat {
    (|request.responseSchema| + Characters(request.messages) + 3) / 4
  }

  method Estimate(request: Request) returns (estimate: nat)
    ensures estimate == EstimateOf(request)
  {
    var characters := |request.responseSchema|;
    for i := 0 to |request.messages|
      invariant characters == |request.responseSchema| + Characters(request.messages[..i])
    {
      assert request.messages[..i + 1][..i] == request.messages[..i];
      characters := characters + |request.messages[i].content| + 24;
    }
    assert request.messages[..|request.messages|] == request.messages;
    if characters == 0 {
      return 0;
    }
    return if characters % 4 == 0 then characters / 4 else characters / 4 + 1;
  }

  /** One more message costs its characters and the framing, within one token of rounding. */
  lemma MessageCost(request: Request, message: Message)
    ensures var longer := request.(messages := request.messages + [message]);
            EstimateOf(request) + (|message.content| + 24) / 4 <= EstimateOf(longer) <= EstimateOf(request) + (|message.content| + 27) / 4
  {
    assert (request.messages + [message])[..|request.messages|] == request.messages;
  }

  // ----- budget checks -----

  function BudgetError(provider: string): ProviderError {
    ProviderError(provider, BudgetExceeded, false)
  }

  /** The request with its output bounded by the budget, or a refusal. */
  function ApplyBudget(budget: TokenBudget, request: Request, estimated: int): Result<Request, ProviderError> {
    if budget.maxInputTokens > 0 && estimated > budget.maxInputTokens then Err(BudgetError("LLM"))
    else
      var output := if budget.maxOutputTokens > 0
                       && (request.maxOutputTokens <= 0 || request.maxOutputTokens > budget.maxOutputTokens)
                    then budget.maxOutputTokens else request.maxOutputTokens;
      if budget.maxTotalTokens <= 0 then Ok(request.(maxOutputTokens := output))
      else
        var remaining := budget.maxTotalTokens - estimated;
        if remaining <= 0 then Err(BudgetError("LLM"))
        else Ok(request.(maxOutputTokens := if output <= 0 || output > remaining then remaining else output))
  }

  /** checkRemainingBudget: the estimate and the allowed output still fit. */
  predicate Affordable(budget: TokenBudget, request: Request, estimated: int, spent: int, usage: Usage) {
    budget.maxTotalTokens == 0
    || estimated + AtLeastZero(request.maxOutputTokens) <= budget.maxTotalTokens - usage.totalTokens - spent
  }

  /** checkActualBudget: reported usage within every bound that is set. */
  predicate WithinBudget(budget: TokenBudget, usage: Usage) {
    && (budget.maxInputTokens > 0 ==> usage.inputTokens <= budget.maxInputTokens)
    && (budget.maxOutputTokens > 0 ==> usage.outputTokens <= budget.maxOutputTokens)
    && (budget.maxTotalTokens > 0 ==> usage.totalTokens <= budget.maxTotalTokens)
  }

  /** A budgeted request fits the budget, is never allowed more output than it asked for, and its first attempt is affordable. */
  lemma BudgetIsApplied(budget: TokenBudget, request: Request, estimated: nat)
    requires budget.maxInputTokens >= 0 && budget.maxOutputTokens >= 0 && budget.maxTotalTokens >= 0
    ensures ApplyBudget(budget, request, estimated).Err? <==>
              || (budget.maxInputTokens > 0 && estimated > budget.maxInputTokens)
              || (budget.maxTotalTokens > 0 && estimated >= budget.maxTotalTokens)
    ensures ApplyBudget(budget, request, estimated).Ok? ==>
              var out := ApplyBudget(budget, request, estimated).value.maxOutputTokens;
              && (budget.maxOutputTokens > 0 ==> 0 < out <= budget.maxOutputTokens)
              && (budget.maxTotalTokens > 0 ==> 0 < out <= budget.maxTotalTokens - estimated)
              && (request.maxOutputTokens > 0 ==> 0 < out <= request.maxOutputTokens)
              && Affordable(budget, ApplyBudget(budget, request, estimated).value, estimated, 0, NO_USAGE)
  {
  }

  /** The output a request may take is the least of what was asked and what each set bound leaves. */
  lemma OutputIsLeast(budget: TokenBudget, request: Request, estimated: nat)
    requires budget.maxInputTokens >= 0 && budget.maxOutputTokens >= 0 && budget.maxTotalTokens >= 0
    requires ApplyBudget(budget, request, estimated).Ok?
    ensures var out, rest := ApplyBudget(budget, request, estimated).value.maxOutputTokens, budget.maxTotalTokens - estimated;
            && ApplyBudget(budget, request, estimated).value == request.(maxOutputTokens := out)
            && (out == request.maxOutputTokens || (budget.maxOutputTokens > 0 && out == budget.maxOutputTokens)
                || (budget.maxTotalTokens > 0 && out == rest))
            && (budget.maxOutputTokens == 0 == budget.maxTotalTokens ==> out == request.maxOutputTokens)
  {
    hide EstimateOf;
  }

  predicate Retryable(e: ProviderError) {
    e.retryable && (e.code.RateLimited? || e.code.Timeout? || e.code.Unavailable?)
  }

  predicate ShouldFallback(e: ProviderError) {
    e.code.Timeout? || e.code.Unavailable?
  }

  // ----- attempts, as a trace -----

  /** One provider call: where it went, what was asked, the usage it reported, and its error. */
  datatype Attempt = Attempt(target: Target, request: Request, usage: Usage, failure: Option<ProviderError>)

  function TotalUsage(trace: seq<Attempt>): Usage {
    if trace == [] then NO_USAGE else Plus(TotalUsage(trace[..|trace| - 1]), trace[|trace| - 1].usage)
  }

  /** An estimate is charged for every failed call that reported nothing. */
  function Spent(trace: seq<Attempt>, estimated: nat): nat {
    if trace == [] then 0
    else
      var last := trace[|trace| - 1];
      Spent(trace[..|trace| - 1], estimated) + if last.failure.Some? && !HasUsage(last.usage) then estimated else 0
  }

  /** The target the next call goes to: one further for each timeout or outage, up to the last. */
  function TargetIndex(trace: seq<Attempt>, targets: nat): nat
    requires targets > 0
    ensures TargetIndex(trace, targets) < targets
  {
    if trace == [] then 0
    else
      var before, last := TargetIndex(trace[..|trace| - 1], targets), trace[|trace| - 1];
      if last.failure.Some? && ShouldFallback(last.failure.value) && before + 1 < targets then before + 1 else before
  }

  /** Every call of the trace was due: affordable, to the right target, and after a retryable error. */
  ghost predicate Proper(policy: Policy, request: Request, estimated: nat, targets: seq<Target>, trace: seq<Attempt>)
    requires targets != []
  {
    forall k :: 0 <= k < |trace| ==> ProperAttempt(policy, request, estimated, targets, trace, k)
  }

  ghost predicate ProperAttempt(policy: Policy, request: Request, estimated: nat, targets: seq<Target>, trace: seq<Attempt>, k: nat)
    requires targets != [] && k < |trace|
  {
    && trace[k].target == targets[TargetIndex(trace[..k], |targets|)]
    && trace[k].request == request.(model := trace[k].target.model)
    && trace[k].usage == NormalizeUsage(trace[k].usage)
    && Affordable(policy.budget, request, estimated, Spent(trace[..k], estimated), TotalUsage(trace[..k]))
    && (k > 0 ==> trace[k - 1].failure.Some? && Retryable(trace[k - 1].failure.value))
  }

  lemma ProperExtend(policy: Policy, request: Request, estimated: nat, targets: seq<Target>, trace: seq<Attempt>, a: Attempt)
    requires targets != [] && Proper(policy, request, estimated, targets, trace)
    requires a.target == targets[TargetIndex(trace, |targets|)] && a.request == request.(model := a.target.model)
    requires a.usage == NormalizeUsage(a.usage)
    requires Affordable(policy.budget, request, estimated, Spent(trace, estimated), TotalUsage(trace))
    requires trace != [] ==> trace[|trace| - 1].failure.Some? && Retryable(trace[|trace| - 1].failure.value)
    ensures Proper(policy, request, estimated, targets, trace + [a])
    ensures (trace + [a])[..|trace|] == trace
  {
    var longer := trace + [a];
    assert longer[..|trace|] == trace;
    forall k | 0 <= k < |longer|
      ensures ProperAttempt(policy, request, estimated, targets, longer, k)
    {
      if k < |trace| {
        assert ProperAttempt(policy, request, estimated, targets, trace, k);
        assert longer[..k] == trace[..k];
      }
    }
  }

  // ----- the trace in its own terms -----

  /** The call failed, and the provider may be asked again: the error says so and is one of three kinds. */
  predicate MayBeRetried(a: Attempt) {
    a.failure.Some? && a.failure.value.retryable
    && a.failure.value.code != InvalidRequest && a.failure.value.code != Cancelled && a.failure.value.code != BudgetExceeded
    && !a.failure.value.code.OtherCode?
  }

  /** The provider timed out or was down. */
  predicate IsOutage(a: Attempt) {
    a.failure.Some? && a.failure.value.code in {Timeout, Unavailable}
  }

  /** The call failed without reporting a single token. */
  predicate IsSilent(a: Attempt) {
    a.failure.Some? && a.usage == NO_USAGE
  }

  function InputOf(a: Attempt): int { a.usage.inputTokens }

  function OutputOf(a: Attempt): int { a.usage.outputTokens }

  function CachedOf(a: Attempt): int { a.usage.cachedInputTokens }

  function TotalOf(a: Attempt): int { a.usage.totalTokens }

  function CountOf(trace: seq<Attempt>, counted: Attempt -> bool): nat {
    if trace == [] then 0 else CountOf(trace[..|trace| - 1], counted) + if counted(trace[|trace| - 1]) then 1 else 0
  }

  function SumOf(trace: seq<Attempt>, amount: Attempt -> int): int {
    if trace == [] then 0 else SumOf(trace[..|trace| - 1], amount) + amount(trace[|trace| - 1])
  }

  /** The target moves on once for every outage, and stays at the last one. */
  lemma {:induction false} TargetCountsOutages(trace: seq<Attempt>, targets: nat)
    requires targets > 0
    ensures TargetIndex(trace, targets) ==
            if CountOf(trace, IsOutage) < targets then CountOf(trace, IsOutage) else targets - 1
  {
    if trace != [] {
      TargetCountsOutages(trace[..|trace| - 1], targets);
    }
  }

  /** One estimate for every failed call that reported no tokens at all. */
  lemma {:induction false} SpentCountsSilence(trace: seq<Attempt>, estimated: nat)
    ensures Spent(trace, estimated) == estimated * CountOf(trace, IsSilent)
  {
    if trace != [] {
      SpentCountsSilence(trace[..|trace| - 1], estimated);
      var n := CountOf(trace[..|trace| - 1], IsSilent);
      assert estimated * (n + 1) == estimated * n + estimated;
    }
  }

  /** Each column of the total is the sum of that column. */
  lemma {:induction false} TotalSumsUp(trace: seq<Attempt>)
    ensures TotalUsage(trace) == Usage(SumOf(trace, InputOf), SumOf(trace, OutputOf),
                                       SumOf(trace, CachedOf), SumOf(trace, TotalOf))
  {
    if trace != [] {
      TotalSumsUp(trace[..|trace| - 1]);
    }
  }

  /** What a provider reports counts from zero up, and its total is input and output. */
  lemma UsageCountsUp(u: Usage)
    ensures var n := NormalizeUsage(u);
            && n.totalTokens == n.inputTokens + n.outputTokens
            && (n.inputTokens == u.inputTokens || (u.inputTokens < 0 && n.inputTokens == 0)) && n.inputTokens >= 0
            && (n.outputTokens == u.outputTokens || (u.outputTokens < 0 && n.outputTokens == 0)) && n.outputTokens >= 0
            && (n.cachedInputTokens == u.cachedInputTokens || (u.cachedInputTokens < 0 && n.cachedInputTokens == 0))
            && n.cachedInputTokens >= 0
  {
  }

  /** The characters of a request: its schema's, its messages', and 24 for each message. */
  lemma {:induction false} CharactersAre(messages: seq<Message>)
    ensures messages == [] ==> Characters(messages) == 0
    ensures messages != [] ==>
              Characters(messages) == Characters(messages[1..]) + |messages[0].content| + 24
  {
    if |messages| > 1 {
      CharactersAre(messages[..|messages| - 1]);
      assert messages[..|messages| - 1][1..] == messages[1..][..|messages| - 2];
    }
  }

  /** One token for each four characters begun. */
  lemma EstimateIs(request: Request)
    ensures 4 * (EstimateOf(request) - 1) < |request.responseSchema| + Characters(request.messages) <= 4 * EstimateOf(request)
  {
  }

  /** Every attempt but the first followed one that may be retried, and went to the target the outages before it leave. */
  lemma AttemptsTell(policy: Policy, request: Request, estimated: nat, targets: seq<Target>, trace: seq<Attempt>, k: nat)
    requires targets != [] && Proper(policy, request, estimated, targets, trace) && k < |trace|
    ensures k > 0 ==> MayBeRetried(trace[k - 1])
    ensures var outages := CountOf(trace[..k], IsOutage);
            trace[k].target == if outages < |targets| then targets[outages] else targets[|targets| - 1]
    ensures trace[k].request == request.(model := trace[k].target.model)
    ensures policy.budget.maxTotalTokens > 0 ==>
              estimated + (if request.maxOutputTokens > 0 then request.maxOutputTokens else 0)
              + SumOf(trace[..k], TotalOf)
              + estimated * CountOf(trace[..k], IsSilent) <= policy.budget.maxTotalTokens
  {
    assert ProperAttempt(policy, request, estimated, targets, trace, k);
    TargetCountsOutages(trace[..k], |targets|);
    SpentCountsSilence(trace[..k], estimated);
    TotalSumsUp(trace[..k]);
    hide TotalUsage, Spent, TargetIndex, CountOf, SumOf;
  }

  /** The loop's running values after one more attempt. */
  lemma UsageNext(trace: seq<Attempt>, a: Attempt)
    ensures TotalUsage(trace + [a]) == Plus(TotalUsage(trace), a.usage)
  {
    hide Plus;
    assert (trace + [a])[..|trace|] == trace;
  }

  lemma SpentNext(trace: seq<Attempt>, a: Attempt, estimated: nat)
    ensures Spent(trace + [a], estimated) ==
            Spent(trace, estimated) + if a.failure.Some? && !HasUsage(a.usage) then estimated else 0
  {
    assert (trace + [a])[..|trace|] == trace;
  }

  lemma TargetNext(trace: seq<Attempt>, a: Attempt, targets: nat)
    requires targets > 0
    ensures TargetIndex(trace + [a], targets) ==
            if a.failure.Some? && ShouldFallback(a.failure.value) && TargetIndex(trace, targets) + 1 < targets
            then TargetIndex(trace, targets) + 1 else TargetIndex(trace, targets)
  {
    assert (trace + [a])[..|trace|] == trace;
  }

  lemma NothingTried(policy: Policy, request: Request, estimated: nat, targets: seq<Target>, turns: nat -> Turn)
    requires targets != []
    ensures Proper(policy, request, estimated, targets, []) && Reported(turns, [])
  {
  }

  lemma NothingUsed()
    ensures TotalUsage([]) == NO_USAGE
    ensures NormalizeUsage(NO_USAGE) == NO_USAGE
  {
  }

  lemma NothingSpent(estimated: nat, targets: nat)
    requires targets > 0
    ensures Spent([], estimated) == 0
    ensures TargetIndex([], targets) == 0
  {
  }

  lemma NormalizedTwice(u: Usage)
    ensures NormalizeUsage(NormalizeUsage(u)) == NormalizeUsage(u)
  {
  }

  /** What happens around the n-th call. */
  datatype Turn = Turn(
    interrupted: Option<ProviderError>, registered: bool, response: Response, failure: Option<ProviderError>,
    sleepFailure: Option<ProviderError>)

  /** The k-th attempt is what its provider answered, and nothing kept the request from making it. */
  predicate ReportedAt(turns: nat -> Turn, trace: seq<Attempt>, k: nat)
    requires k < |trace|
  {
    && trace[k].failure == turns(k).failure && trace[k].usage == NormalizeUsage(turns(k).response.usage)
    && turns(k).interrupted.None? && turns(k).registered
    && (k > 0 ==> turns(k - 1).sleepFailure.None?)
  }

  ghost predicate Reported(turns: nat -> Turn, trace: seq<Attempt>) {
    forall k :: 0 <= k < |trace| ==> ReportedAt(turns, trace, k)
  }

  lemma ReportedExtend(turns: nat -> Turn, trace: seq<Attempt>, a: Attempt)
    requires Reported(turns, trace) && ReportedAt(turns, trace + [a], |trace|)
    ensures Reported(turns, trace + [a])
  {
    hide NormalizeUsage;
    forall k | 0 <= k < |trace + [a]|
      ensures ReportedAt(turns, trace + [a], k)
    {
      assert k < |trace| ==> ReportedAt(turns, trace, k);
    }
  }

  /** After attempts of which the last one failed: the error that ends the request, or None if another attempt is due. */
  function ErrorBeforeNext(policy: Policy, request: Request, estimated: nat, targets: seq<Target>, turns: nat -> Turn,
                           trace: seq<Attempt>): Option<ProviderError>
    requires targets != [] && (trace != [] ==> trace[|trace| - 1].failure.Some?)
  {
    var n := |trace|;
    if n > 0 && (!Retryable(trace[n - 1].failure.value) || n >= policy.maxAttempts) then trace[n - 1].failure
    else if n > 0 && turns(n - 1).sleepFailure.Some? then turns(n - 1).sleepFailure
    else if turns(n).interrupted.Some? then turns(n).interrupted
    else if !Affordable(policy.budget, request, estimated, Spent(trace, estimated), TotalUsage(trace)) then Some(BudgetError("LLM"))
    else if !turns(n).registered then
      Some(ProviderError(targets[TargetIndex(trace, |targets|)].provider, Unavailable, false))
    else None
  }

  /** The response to a request whose last attempt succeeded, with the usage and the estimates of all of them. */
  function ResponseOf(estimated: nat, targets: nat, turns: nat -> Turn, trace: seq<Attempt>): Response
    requires targets > 0 && trace != []
  {
    var last := trace[|trace| - 1];
    NormalizeResponse(last.request, turns(|trace| - 1).response)
      .(usage := TotalUsage(trace),
        execution := Some(Execution(last.target, |trace|, TargetIndex(trace, targets) > 0, estimated, Spent(trace, estimated))))
  }

  /**
    What a request comes to: its attempts were due and are what the providers answered, and
    the result is a success within the budget, or the error that ends it after them.
   */
  ghost predicate Serves(policy: Policy, primary: string, request: Request, estimated: nat, turns: nat -> Turn,
                         r: Result<Response, ProviderError>, trace: seq<Attempt>)
  {
    var targets := [Target(primary, request.model)] + policy.fallbacks;
    && Proper(policy, request, estimated, targets, trace) && Reported(turns, trace) && |trace| <= policy.maxAttempts
    && if trace != [] && trace[|trace| - 1].failure.None?
       then r == if WithinBudget(policy.budget, TotalUsage(trace)) then Ok(ResponseOf(estimated, |targets|, turns, trace))
                 else Err(BudgetError(trace[|trace| - 1].target.provider))
       else r.Err? && ErrorBeforeNext(policy, request, estimated, targets, turns, trace) == Some(r.error)
  }

  /**
    Why a served request fails, on the last attempt itself: its error, if it may not be retried or
    was the last one allowed; a failed wait or an interruption; too little budget left for another
    attempt; an unknown provider; or an answer that took more tokens than any bound allows.
   */
  lemma FailuresTell(policy: Policy, primary: string, request: Request, estimated: nat, turns: nat -> Turn,
                     r: Result<Response, ProviderError>, trace: seq<Attempt>)
    requires Serves(policy, primary, request, estimated, turns, r, trace) && policy.maxAttempts >= 1
    ensures var n, b := |trace|, policy.budget;
            var used := TotalUsage(trace);
            var over := (b.maxInputTokens > 0 && used.inputTokens > b.maxInputTokens)
                        || (b.maxOutputTokens > 0 && used.outputTokens > b.maxOutputTokens)
                        || (b.maxTotalTokens > 0 && used.totalTokens > b.maxTotalTokens);
            && (r.Ok? <==> n > 0 && trace[n - 1].failure.None? && !over)
            && (n > 0 && trace[n - 1].failure.None? && over ==>
                  r == Err(ProviderError(trace[n - 1].target.provider, BudgetExceeded, false)))
            && (n > 0 && trace[n - 1].failure.Some? && (!MayBeRetried(trace[n - 1]) || n == policy.maxAttempts) ==>
                  r == Err(trace[n - 1].failure.value))
            && (0 < n < policy.maxAttempts && MayBeRetried(trace[n - 1]) && turns(n - 1).sleepFailure.Some? ==>
                  r == Err(turns(n - 1).sleepFailure.value))
            && (n < policy.maxAttempts && (n > 0 ==> MayBeRetried(trace[n - 1]) && turns(n - 1).sleepFailure.None?) ==>
                  && (turns(n).interrupted.Some? ==> r == Err(turns(n).interrupted.value))
                  && (turns(n).interrupted.None? ==> r.Err?))
  {
    hide Proper, Reported, TotalUsage, Spent, TargetIndex, NormalizeUsage, Affordable;
  }

  /**
    Where another attempt was due and not made: the budget does not cover it on top of the tokens
    reported and the estimates of the silent failures, or the provider it goes to is unknown.
   */
  lemma NextAttemptTells(policy: Policy, primary: string, request: Request, estimated: nat, turns: nat -> Turn,
                         r: Result<Response, ProviderError>, trace: seq<Attempt>)
    requires Serves(policy, primary, request, estimated, turns, r, trace) && |trace| < policy.maxAttempts
    requires turns(|trace|).interrupted.None?
    requires trace != [] ==> MayBeRetried(trace[|trace| - 1]) && turns(|trace| - 1).sleepFailure.None?
    ensures var outages, targets := CountOf(trace, IsOutage), [Target(primary, request.model)] + policy.fallbacks;
            var due := if outages < |targets| then targets[outages] else targets[|targets| - 1];
            var cost := estimated + (if request.maxOutputTokens > 0 then request.maxOutputTokens else 0);
            var spent := SumOf(trace, TotalOf) + estimated * CountOf(trace, IsSilent);
            if policy.budget.maxTotalTokens != 0 && spent + cost > policy.budget.maxTotalTokens
            then r == Err(ProviderError("LLM", BudgetExceeded, false))
            else !turns(|trace|).registered && r == Err(ProviderError(due.provider, Unavailable, false))
  {
    TargetCountsOutages(trace, |policy.fallbacks| + 1);
    SpentCountsSilence(trace, estimated);
    TotalSumsUp(trace);
    hide Proper, Reported, TotalUsage, Spent, TargetIndex, NormalizeUsage, CountOf, SumOf;
  }

  /** What a successful request returns of the last response: its text, its trimmed names, and all attempts' usage. */
  lemma SuccessTells(policy: Policy, primary: string, request: Request, estimated: nat, turns: nat -> Turn,
                     r: Result<Response, ProviderError>, trace: seq<Attempt>)
    requires Serves(policy, primary, request, estimated, turns, r, trace) && r.Ok?
    ensures trace != []
    ensures var n := |trace|;
            var last, given := trace[n - 1], turns(n - 1).response;
            var model := Text.TrimSpace(given.model);
            var outages := CountOf(trace, IsOutage);
            && r.value.content == given.content && r.value.id == Text.TrimSpace(given.id)
            && r.value.model == (if model == "" then Text.TrimSpace(last.target.model) else model)
            && r.value.usage == TotalUsage(trace)
            && r.value.execution == Some(Execution(last.target, n, outages > 0 && policy.fallbacks != [], estimated,
                 estimated * CountOf(trace, IsSilent)))
  {
    var targets := [Target(primary, request.model)] + policy.fallbacks;
    assert ProperAttempt(policy, request, estimated, targets, trace, |trace| - 1);
    TargetCountsOutages(trace, |targets|);
    SpentCountsSilence(trace, estimated);
    hide Proper, ProperAttempt, Reported, TotalUsage, Spent, TargetIndex, NormalizeUsage, Affordable, CountOf, Text.TrimSpace;
  }

  /** Complete, from the request with the budget applied. */
  method Serve(policy: Policy, primary: string, request: Request, estimated: nat, turns: nat -> Turn)
    returns (r: Result<Response, ProviderError>, trace: seq<Attempt>)
    requires policy.maxAttempts >= 1
    requires policy.budget.maxInputTokens >= 0 && policy.budget.maxOutputTokens >= 0 && policy.budget.maxTotalTokens >= 0
    ensures Serves(policy, primary, request, estimated, turns, r, trace)
    ensures r.Ok? ==>
              && trace != [] && trace[|trace| - 1].failure.None?
              && r.value.usage == TotalUsage(trace) && WithinBudget(policy.budget, r.value.usage)
              && r.value.content == turns(|trace| - 1).response.content
  {
    var targets := [Target(primary, request.model)] + policy.fallbacks;
    var aggregate, targetIndex, attempts, estimatedSpent, fallbackUsed := NO_USAGE, 0, 0, 0, false;
    trace := [];
    hide Plus, Proper, Reported, TotalUsage, Spent, TargetIndex, AddUsage, NormalizeUsage, HasUsage, Affordable, WithinBudget;
    NothingTried(policy, request, estimated, targets, turns);
    NothingUsed();
    NothingSpent(estimated, |targets|);
    while true
      invariant Proper(policy, request, estimated, targets, trace) && Reported(turns, trace)
      invariant attempts == |trace| < policy.maxAttempts
      invariant aggregate == TotalUsage(trace) == NormalizeUsage(aggregate)
      invariant estimatedSpent == Spent(trace, estimated)
      invariant targetIndex == TargetIndex(trace, |targets|) && fallbackUsed == (targetIndex > 0)
      invariant trace != [] ==> trace[|trace| - 1].failure.Some? && Retryable(trace[|trace| - 1].failure.value)
      invariant trace != [] ==> turns(|trace| - 1).sleepFailure.None?
      decreases policy.maxAttempts - attempts
    {
      var turn := turns(attempts);
      if turn.interrupted.Some? {
        return Err(turn.interrupted.value), trace;
      }
      if !Affordable(policy.budget, request, estimated, estimatedSpent, aggregate) {
        return Err(BudgetError("LLM")), trace;
      }
      var target := targets[targetIndex];
      if !turn.registered {
        return Err(ProviderError(target.provider, Unavailable, false)), trace;
      }
      attempts := attempts + 1;
      var attemptRequest := request.(model := target.model);
      var response := NormalizeResponse(attemptRequest, turn.response);
      ghost var attempt := Attempt(target, attemptRequest, response.usage, turn.failure);
      NormalizedTwice(turn.response.usage);
      ProperExtend(policy, request, estimated, targets, trace, attempt);
      ReportedExtend(turns, trace, attempt);
      UsageNext(trace, attempt);
      NormalPlus(aggregate, response.usage);
      SpentNext(trace, attempt, estimated);
      TargetNext(trace, attempt, |targets|);
      trace := trace + [Attempt(target, attemptRequest, response.usage, turn.failure)];
      if HasUsage(response.usage) {
        aggregate := AddUsage(aggregate, response.usage);
      } else if turn.failure.Some? {
        estimatedSpent := estimatedSpent + estimated;
      }
      if turn.failure.None? {
        if !WithinBudget(policy.budget, aggregate) {
          return Err(BudgetError(target.provider)), trace;
        }
        return Ok(response.(usage := aggregate,
                            execution := Some(Execution(target, attempts, fallbackUsed, estimated, estimatedSpent)))), trace;
      }
      var lastError := turn.failure.value;
      if !Retryable(lastError) || attempts >= policy.maxAttempts {
        return Err(lastError), trace;
      }
      if ShouldFallback(lastError) && targetIndex + 1 < |targets| {
        targetIndex := targetIndex + 1;
        fallbackUsed := true;
      }
      if turn.sleepFailure.Some? {
        return Err(turn.sleepFailure.value), trace;
      }
    }
  }

  /** A fallback must differ from the primary provider. */
  predicate NamesPrimary(fallbacks: seq<Target>, primary: string) {
    exists i :: 0 <= i < |fallbacks| && fallbacks[i].provider == primary
  }

  // ----- the requests that are served -----

  predicate ValidMessage(m: Message) {
    (m.role == "system" || m.role == "user" || m.role == "assistant") && Text.TrimSpace(m.content) != ""
  }

  /** validateRequest; `isJson` stands for the JSON parser. */
  predicate ValidRequest(request: Request, isJson: string -> bool) {
    && Text.TrimSpace(request.model) != "" && request.messages != []
    && (forall m :: m in request.messages ==> ValidMessage(m))
    && request.maxOutputTokens >= 0 && (request.responseSchema != "" ==> isJson(request.responseSchema))
  }

  method ValidateRequest(request: Request, isJson: string -> bool) returns (ok: bool)
    ensures ok <==> ValidRequest(request, isJson)
    ensures ok <==>
              && !Text.IsBlank(request.model) && |request.messages| > 0
              && (forall i :: 0 <= i < |request.messages| ==>
                    var m := request.messages[i]; m.role in {"system", "user", "assistant"} && !Text.IsBlank(m.content))
              && !(request.maxOutputTokens < 0) && (isJson(request.responseSchema) || request.responseSchema == "")
  {
    Text.TrimSpaceEmpty(request.model);
    if Text.TrimSpace(request.model) == "" || request.messages == [] {
      return false;
    }
    for i := 0 to |request.messages|
      invariant forall k :: 0 <= k < i ==> ValidMessage(request.messages[k]) && !Text.IsBlank(request.messages[k].content)
    {
      var message := request.messages[i];
      assert message in request.messages;
      Text.TrimSpaceEmpty(message.content);
      if message.role != "system" && message.role != "user" && message.role != "assistant" {
        return false;
      }
      if Text.TrimSpace(message.content) == "" {
        return false;
      }
    }
    return request.maxOutputTokens >= 0 && (request.responseSchema == "" || isJson(request.responseSchema));
  }

  /** The gateway's settings: its policy, the registered providers and the JSON parser. */
  datatype Gateway = Gateway(policy: Policy, providers: set<string>, isJson: string -> bool)

  /** The first refusal of a request, before any provider is called. */
  function Refusal(g: Gateway, primary: string, request: Request): Option<ProviderError> {
    if primary !in g.providers then Some(ProviderError(primary, Unavailable, false))
    else if !ValidRequest(request, g.isJson) || NamesPrimary(g.policy.fallbacks, primary) then
      Some(ProviderError(primary, InvalidRequest, false))
    else
      match ApplyBudget(g.policy.budget, request, EstimateOf(request))
      case Err(e) => Some(e)
      case Ok(_) => None
  }

  /** The refusals in their order: an unknown provider; a malformed request, or one that falls back on its own provider; too large an estimate. */
  lemma RefusalsAre(g: Gateway, primary: string, request: Request)
    requires g.policy.budget.maxInputTokens >= 0 && g.policy.budget.maxOutputTokens >= 0 && g.policy.budget.maxTotalTokens >= 0
    ensures var b, estimated := g.policy.budget, EstimateOf(request);
            var sound := ValidRequest(request, g.isJson) && forall t :: t in g.policy.fallbacks ==> t.provider != primary;
            var tooLarge := (b.maxInputTokens > 0 && estimated > b.maxInputTokens) || (b.maxTotalTokens > 0 && estimated >= b.maxTotalTokens);
            Refusal(g, primary, request) ==
              if primary !in g.providers then Some(ProviderError(primary, Unavailable, false))
              else if !sound then Some(ProviderError(primary, InvalidRequest, false))
              else if tooLarge then Some(ProviderError("LLM", BudgetExceeded, false)) else None
  {
    hide EstimateOf, ValidRequest;
  }

  /** What a caller's request comes to: its first refusal and no call at all, or what serving it under the budget comes to. */
  ghost predicate Answers(g: Gateway, primary: string, request: Request, turns: nat -> Turn,
                          r: Result<Response, ProviderError>, trace: seq<Attempt>)
  {
    var refusal := Refusal(g, primary, request);
    if refusal.Some? then r == Err(refusal.value) && trace == []
    else
      var applied := ApplyBudget(g.policy.budget, request, EstimateOf(request));
      applied.Ok? && Serves(g.policy, primary, applied.value, EstimateOf(request), turns, r, trace)
  }

  /** Complete: refusals before the first call, then the calls. */
  method Complete(g: Gateway, primary: string, request: Request, turns: nat -> Turn)
    returns (r: Result<Response, ProviderError>, trace: seq<Attempt>)
    requires g.policy.maxAttempts >= 1
    requires g.policy.budget.maxInputTokens >= 0 && g.policy.budget.maxOutputTokens >= 0 && g.policy.budget.maxTotalTokens >= 0
    ensures Answers(g, primary, request, turns, r, trace)
    ensures primary !in g.providers ==> r == Err(ProviderError(primary, Unavailable, false))
    ensures primary in g.providers
            && (!ValidRequest(request, g.isJson) || exists i :: 0 <= i < |g.policy.fallbacks| && g.policy.fallbacks[i].provider == primary) ==>
              r == Err(ProviderError(primary, InvalidRequest, false))
    ensures |trace| <= g.policy.maxAttempts
    ensures r.Ok? ==>
              && trace != [] && trace[|trace| - 1].failure.None?
              && r.value.usage == TotalUsage(trace) && WithinBudget(g.policy.budget, r.value.usage)
              && r.value.content == turns(|trace| - 1).response.content
  {
    hide ValidRequest, Serves;
    if primary !in g.providers {
      return Err(ProviderError(primary, Unavailable, false)), [];
    }
    var valid := ValidateRequest(request, g.isJson);
    if !valid || NamesPrimary(g.policy.fallbacks, primary) {
      return Err(ProviderError(primary, InvalidRequest, false)), [];
    }
    var estimated := Estimate(request);
    var applied := ApplyBudget(g.policy.budget, request, estimated);
    if applied.Err? {
      return Err(applied.error), [];
    }
    r, trace := Serve(g.policy, primary, applied.value, estimated, turns);
    ServesWithin(g.policy, primary, applied.value, estimated, turns, r, trace);
  }

  lemma ServesWithin(policy: Policy, primary: string, request: Request, estimated: nat, turns: nat -> Turn,
                     r: Result<Response, ProviderError>, trace: seq<Attempt>)
    requires Serves(policy, primary, request, estimated, turns, r, trace)
    ensures |trace| <= policy.maxAttempts
  {
  }

  // ----- the answers decide everything -----

  /** The same answer to the same call after the same attempts is the same attempt. */
  lemma {:induction false} SameAttempts(policy: Policy, request: Request, estimated: nat, targets: seq<Target>, turns: nat -> Turn,
                                        a: seq<Attempt>, b: seq<Attempt>, n: nat)
    requires targets != [] && n <= |a| && n <= |b|
    requires Proper(policy, request, estimated, targets, a) && Reported(turns, a)
    requires Proper(policy, request, estimated, targets, b) && Reported(turns, b)
    ensures a[..n] == b[..n]
  {
    hide NormalizeUsage, Affordable, TargetIndex, Spent, TotalUsage;
    if n > 0 {
      SameAttempts(policy, request, estimated, targets, turns, a, b, n - 1);
      assert ProperAttempt(policy, request, estimated, targets, a, n - 1) && ReportedAt(turns, a, n - 1);
      assert ProperAttempt(policy, request, estimated, targets, b, n - 1) && ReportedAt(turns, b, n - 1);
      assert a[..n] == a[..n - 1] + [a[n - 1]] && b[..n] == b[..n - 1] + [b[n - 1]];
    }
  }

  /** Where a trace is continued, nothing ended the request. */
  lemma ContinuedIsDue(policy: Policy, request: Request, estimated: nat, targets: seq<Target>, turns: nat -> Turn,
                       longer: seq<Attempt>, n: nat)
    requires targets != [] && Proper(policy, request, estimated, targets, longer) && Reported(turns, longer)
    requires n < |longer| <= policy.maxAttempts
    ensures n > 0 ==> longer[n - 1].failure.Some?
    ensures ErrorBeforeNext(policy, request, estimated, targets, turns, longer[..n]).None?
  {
    hide NormalizeUsage, Affordable, TargetIndex, Spent, TotalUsage;
    assert ProperAttempt(policy, request, estimated, targets, longer, n) && ReportedAt(turns, longer, n);
  }

  lemma NoShorterService(policy: Policy, primary: string, request: Request, estimated: nat, turns: nat -> Turn,
                         r: Result<Response, ProviderError>, trace: seq<Attempt>,
                         other: Result<Response, ProviderError>, longer: seq<Attempt>)
    requires Serves(policy, primary, request, estimated, turns, r, trace)
    requires Serves(policy, primary, request, estimated, turns, other, longer)
    ensures |longer| <= |trace|
  {
    var targets := [Target(primary, request.model)] + policy.fallbacks;
    hide Proper, Reported, ErrorBeforeNext, ResponseOf, WithinBudget;
    if |trace| < |longer| {
      SameAttempts(policy, request, estimated, targets, turns, trace, longer, |trace|);
      assert trace[..|trace|] == trace;
      ContinuedIsDue(policy, request, estimated, targets, turns, longer, |trace|);
    }
  }

  /** The providers' answers decide the attempts, the result and every count in it. */
  lemma ServiceIsDetermined(policy: Policy, primary: string, request: Request, estimated: nat, turns: nat -> Turn,
                            r: Result<Response, ProviderError>, trace: seq<Attempt>,
                            s: Result<Response, ProviderError>, other: seq<Attempt>)
    requires Serves(policy, primary, request, estimated, turns, r, trace)
    requires Serves(policy, primary, request, estimated, turns, s, other)
    ensures r == s && trace == other
  {
    var targets := [Target(primary, request.model)] + policy.fallbacks;
    NoShorterService(policy, primary, request, estimated, turns, r, trace, s, other);
    NoShorterService(policy, primary, request, estimated, turns, s, other, r, trace);
    hide Proper, Reported, ErrorBeforeNext, ResponseOf, WithinBudget;
    SameAttempts(policy, request, estimated, targets, turns, trace, other, |trace|);
    assert trace[..|trace|] == trace && other[..|trace|] == other;
  }

  lemma AnswerIsDetermined(g: Gateway, primary: string, request: Request, turns: nat -> Turn,
                           r: Result<Response, ProviderError>, trace: seq<Attempt>,
                           s: Result<Response, ProviderError>, other: seq<Attempt>)
    requires Answers(g, primary, request, turns, r, trace) && Answers(g, primary, request, turns, s, other)
    ensures r == s && trace == other
  {
    hide Serves, ValidRequest, NamesPrimary, EstimateOf;
    if Refusal(g, primary, request).None? {
      ServiceIsDetermined(g.policy, primary, ApplyBudget(g.policy.budget, request, EstimateOf(request)).value, EstimateOf(request),
                          turns, r, trace, s, other);
    }
  }

  // ----- the token budget over all attempts -----

  /** A provider that keeps to the estimate and to the output it was allowed. */
  predicate IsModest(a: Attempt, request: Request, estimated: nat) {
    a.usage.totalTokens <= estimated + AtLeastZero(request.maxOutputTokens)
  }

  /**
    With a total budget and providers that keep to what they were allowed, reported and
    estimated tokens together never pass the budget, through every retry and fallback.
   */
  lemma BudgetHolds(policy: Policy, request: Request, estimated: nat, targets: seq<Target>, trace: seq<Attempt>)
    requires targets != [] && Proper(policy, request, estimated, targets, trace)
    requires policy.budget.maxTotalTokens > 0
    requires forall k :: 0 <= k < |trace| ==> IsModest(trace[k], request, estimated)
    ensures TotalUsage(trace).totalTokens + Spent(trace, estimated) <= policy.budget.maxTotalTokens
  {
    if trace != [] {
      AttemptWasAffordable(policy, request, estimated, targets, trace, |trace| - 1);
      assert IsModest(trace[|trace| - 1], request, estimated);
      hide Proper, Affordable;
      LastAttempt(trace, estimated);
    }
  }

  lemma AttemptWasAffordable(policy: Policy, request: Request, estimated: nat, targets: seq<Target>, trace: seq<Attempt>, k: nat)
    requires targets != [] && Proper(policy, request, estimated, targets, trace) && k < |trace|
    requires policy.budget.maxTotalTokens > 0
    ensures TotalUsage(trace[..k]).totalTokens + Spent(trace[..k], estimated) + estimated + AtLeastZero(request.maxOutputTokens)
            <= policy.budget.maxTotalTokens
  {
    assert ProperAttempt(policy, request, estimated, targets, trace, k);
  }

  lemma LastAttempt(trace: seq<Attempt>, estimated: nat)
    requires trace != []
    ensures var before, last := trace[..|trace| - 1], trace[|trace| - 1];
            && TotalUsage(trace).totalTokens == TotalUsage(before).totalTokens + last.usage.totalTokens
            && Spent(trace, estimated) <= Spent(before, estimated) + (if last.usage.totalTokens == 0 then estimated else 0)
  {
  }
}
