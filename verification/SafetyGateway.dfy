/**
  The safety gateway (internal/llm/safety.go): a request is redacted, answered by the
  gateway, validated against its schema, and repaired a bounded number of times.
  Redaction and JSON decoding are parameters.
 */
module SafetyGateway {
  import opened Wrappers
  import opened LlmGateway
  import V = SchemaValidation
  import Text

  datatype SafetyPolicy = SafetyPolicy(maxRepairAttempts: nat, maxStructuredResponseBytes: int)

  /** A decoded response and the text it is re-encoded to. */
  datatype Decoded = Decoded(value: V.Json, canonical: string)

  /** The decoders: responses give a value or one issue; a blank schema checks nothing, others may be invalid. */
  datatype Decoders = Decoders(response: string -> Result<Decoded, V.Issue>, schema: string -> Result<Option<seq<V.Field>>, V.Issue>)

  const TOO_LARGE := "response_too_large"
  const OUTPUT_TOO_LARGE := OtherCode("STRUCTURED_OUTPUT_TOO_LARGE")
  const OUTPUT_INVALID := OtherCode("STRUCTURED_OUTPUT_INVALID")

  /** What validation says about a response under a schema. */
  function IssuesOf(policy: SafetyPolicy, decoders: Decoders, schema: string, content: string): seq<V.Issue> {
    if |content| > policy.maxStructuredResponseBytes then
      [V.Issue("$", TOO_LARGE, "structured response exceeds the configured size limit")]
    else
      match decoders.response(content)
      case Err(issue) => [issue]
      case Ok(decoded) =>
        match decoders.schema(schema)
        case Err(issue) => [issue]
        case Ok(None) => []
        case Ok(Some(fields)) => V.Capped(V.NodeIssues("$", decoded.value, fields))
  }

  method ValidateResponse(policy: SafetyPolicy, decoders: Decoders, schema: string, content: string)
    returns (canonical: string, issues: seq<V.Issue>)
    ensures issues == IssuesOf(policy, decoders, schema, content)
    ensures issues == [] ==> IsAcceptable(policy, decoders, schema, content, canonical)
  {
    if |content| > policy.maxStructuredResponseBytes {
      return "", [V.Issue("$", TOO_LARGE, "structured response exceeds the configured size limit")];
    }
    var decoded := decoders.response(content);
    if decoded.Err? {
      return "", [decoded.error];
    }
    var parsed := decoders.schema(schema);
    if parsed.Err? {
      return "", [parsed.error];
    }
    canonical, issues := decoded.value.canonical, [];
    if parsed.value.Some? {
      issues := V.Validate(decoded.value.value, parsed.value.value);
    }
  }

  /** A response that may be returned, as `canonical`: small enough, decodable, and conforming to the schema. */
  predicate IsAcceptable(policy: SafetyPolicy, decoders: Decoders, schema: string, content: string, canonical: string) {
    && |content| <= policy.maxStructuredResponseBytes
    && decoders.response(content).Ok? && decoders.response(content).value.canonical == canonical
    && decoders.schema(schema).Ok?
    && (decoders.schema(schema).value.Some? ==>
          V.Conforms(decoders.response(content).value.value, decoders.schema(schema).value.value))
  }

  /** The issues of a response: its size alone, its decoding alone, the schema's own, or what the schema finds. */
  lemma IssuesAre(policy: SafetyPolicy, decoders: Decoders, schema: string, content: string)
    ensures var issues, decoded, parsed := IssuesOf(policy, decoders, schema, content), decoders.response(content), decoders.schema(schema);
            && (|content| > policy.maxStructuredResponseBytes ==> |issues| == 1 && issues[0].code == "response_too_large" && issues[0].path == "$")
            && (|content| <= policy.maxStructuredResponseBytes && decoded.Err? ==> issues == [decoded.error])
            && (|content| <= policy.maxStructuredResponseBytes && decoded.Ok? && parsed.Err? ==> issues == [parsed.error])
            && (|content| <= policy.maxStructuredResponseBytes && decoded.Ok? && parsed.Ok? ==>
                  var found := if parsed.value.Some? then V.NodeIssues("$", decoded.value.value, parsed.value.value) else [];
                  issues == if |found| <= 20 then found else found[..20])
  {
    hide V.NodeIssues;
  }

  // ----- repair requests -----

  function IssueLines(issues: seq<V.Issue>): string {
    if issues == [] then ""
    else
      var last := issues[|issues| - 1];
      IssueLines(issues[..|issues| - 1]) + "- " + last.path + " [" + last.code + "]: " + last.message + "\n"
  }

  const REPAIR_PROMPT :=
    "T" + "he previous response failed structured output validation. Return a corrected JSON object matching the response schema exactly. Do not include Markdown or prose outside JSON.\nValidation issues:\n"

  /** The redacted original plus one message that lists the issues. */
  function RepairRequest(original: Request, responseModel: string, issues: seq<V.Issue>): Request {
    original.(model := if Text.TrimSpace(responseModel) == "" then original.model else Text.TrimSpace(responseModel),
              messages := original.messages + [Message("user", Text.TrimSpace(REPAIR_PROMPT + IssueLines(issues)))])
  }

  method BuildRepairRequest(original: Request, responseModel: string, issues: seq<V.Issue>) returns (repair: Request)
    ensures repair == RepairRequest(original, responseModel, issues)
  {
    var lines := "";
    for i := 0 to |issues|
      invariant lines == IssueLines(issues[..i])
    {
      assert issues[..i + 1][..i] == issues[..i];
      lines := lines + "- " + issues[i].path + " [" + issues[i].code + "]: " + issues[i].message + "\n";
    }
    assert issues[..|issues|] == issues;
    var model := Text.TrimSpace(responseModel);
    repair := original;
    if model != "" {
      repair := repair.(model := model);
    }
    repair := repair.(messages := original.messages + [Message("user", Text.TrimSpace(REPAIR_PROMPT + lines))]);
  }

  /** applyRepairBudget: like a first request's budget, with what was already used taken off the total. */
  function ApplyRepairBudget(budget: TokenBudget, request: Request, used: Usage): Result<Request, ProviderError> {
    var estimated := EstimateOf(request);
    if budget.maxInputTokens > 0 && estimated > budget.maxInputTokens then Err(BudgetError("LLM"))
    else
      var output := if budget.maxOutputTokens > 0
                       && (request.maxOutputTokens <= 0 || request.maxOutputTokens > budget.maxOutputTokens)
                    then budget.maxOutputTokens else request.maxOutputTokens;
      if budget.maxTotalTokens <= 0 then Ok(request.(maxOutputTokens := output))
      else
        var remaining := budget.maxTotalTokens - used.totalTokens - estimated;
        if remaining <= 0 then Err(BudgetError("LLM"))
        else Ok(request.(maxOutputTokens := if output <= 0 || output > remaining then remaining else output))
  }

  /** A repair's budget is a first request's, with what was used taken off the total; used up, it is refused. */
  lemma RepairBudgetIs(budget: TokenBudget, request: Request, used: Usage)
    requires budget.maxInputTokens >= 0 && budget.maxOutputTokens >= 0 && budget.maxTotalTokens >= 0
    ensures budget.maxTotalTokens == 0 ==> ApplyRepairBudget(budget, request, used) == ApplyBudget(budget, request, EstimateOf(request))
    ensures budget.maxTotalTokens > 0 && used.totalTokens < budget.maxTotalTokens ==>
              ApplyRepairBudget(budget, request, used) ==
              ApplyBudget(budget.(maxTotalTokens := budget.maxTotalTokens - used.totalTokens), request, EstimateOf(request))
    ensures budget.maxTotalTokens > 0 && used.totalTokens >= budget.maxTotalTokens ==>
              ApplyRepairBudget(budget, request, used) == Err(ProviderError("LLM", BudgetExceeded, false))
  {
    hide EstimateOf;
  }

  /** One line for each issue. */
  lemma LinesAre(issues: seq<V.Issue>, next: V.Issue)
    ensures IssueLines([]) == ""
    ensures IssueLines(issues + [next]) == IssueLines(issues) + "- " + next.path + " [" + next.code + "]: " + next.message + "\n"
  {
    assert (issues + [next])[..|issues|] == issues;
  }

  // ----- the loop, as a trace -----

  /** One answer of the inner gateway: the request, the response, and the provider calls behind it. */
  datatype Answer = Answer(request: Request, response: Response, calls: seq<Attempt>)

  function UsageOf(trace: seq<Answer>): Usage {
    if trace == [] then NO_USAGE else Plus(UsageOf(trace[..|trace| - 1]), trace[|trace| - 1].response.usage)
  }

  function IssueCount(policy: SafetyPolicy, decoders: Decoders, schema: string, trace: seq<Answer>): nat {
    if trace == [] then 0
    else
      IssueCount(policy, decoders, schema, trace[..|trace| - 1])
      + |IssuesOf(policy, decoders, schema, trace[|trace| - 1].response.content)|
  }

  /** A request that repairs the answer before it, within what `used` leaves of the budget. */
  predicate IsRepair(policy: SafetyPolicy, budget: TokenBudget, decoders: Decoders, original: Request,
                     before: Response, used: Usage, request: Request)
  {
    var issues := IssuesOf(policy, decoders, original.responseSchema, before.content);
    issues != [] && ApplyRepairBudget(budget, RepairRequest(original, before.model, issues), used) == Ok(request)
  }

  ghost predicate RepairAt(policy: SafetyPolicy, budget: TokenBudget, decoders: Decoders, original: Request,
                           trace: seq<Answer>, k: nat)
    requires 0 < k < |trace|
  {
    IsRepair(policy, budget, decoders, original, trace[k - 1].response, UsageOf(trace[..k]), trace[k].request)
  }

  ghost predicate Repairs(policy: SafetyPolicy, budget: TokenBudget, decoders: Decoders, original: Request, trace: seq<Answer>) {
    && (trace != [] ==> trace[0].request == original)
    && forall k :: 0 < k < |trace| ==> RepairAt(policy, budget, decoders, original, trace, k)
  }

  lemma RepairsExtend(policy: SafetyPolicy, budget: TokenBudget, decoders: Decoders, original: Request, trace: seq<Answer>, a: Answer)
    requires Repairs(policy, budget, decoders, original, trace)
    requires if trace == [] then a.request == original
             else IsRepair(policy, budget, decoders, original, trace[|trace| - 1].response, UsageOf(trace), a.request)
    ensures Repairs(policy, budget, decoders, original, trace + [a])
  {
    hide IsRepair, UsageOf;
    var longer := trace + [a];
    forall k | 0 < k < |longer|
      ensures RepairAt(policy, budget, decoders, original, longer, k)
    {
      assert longer[..k] == trace[..k];
      if k < |trace| {
        assert RepairAt(policy, budget, decoders, original, trace, k);
      } else {
        assert trace[..k] == trace;
      }
    }
  }

  lemma UsageExtends(trace: seq<Answer>, a: Answer)
    ensures UsageOf(trace + [a]) == Plus(UsageOf(trace), a.response.usage)
  {
    hide Plus;
    assert (trace + [a])[..|trace|] == trace;
  }

  predicate IsNormal(u: Usage) {
    u == NormalizeUsage(u)
  }

  /** Usage the gateway reports is normalized, and so are its sums. */
  lemma {:induction false} TotalIsNormal(trace: seq<Attempt>)
    requires forall k :: 0 <= k < |trace| ==> IsNormal(trace[k].usage)
    ensures IsNormal(TotalUsage(trace))
  {
    if trace != [] {
      TotalIsNormal(trace[..|trace| - 1]);
      NormalPlus(TotalUsage(trace[..|trace| - 1]), trace[|trace| - 1].usage);
    }
  }

  /** Each answer is what the gateway made of its request and its turns. */
  ghost predicate Answered(g: Gateway, primary: string, turns: nat -> nat -> Turn, trace: seq<Answer>) {
    forall k :: 0 <= k < |trace| ==> AnsweredAt(g, primary, turns, trace, k)
  }

  ghost predicate AnsweredAt(g: Gateway, primary: string, turns: nat -> nat -> Turn, trace: seq<Answer>, k: nat)
    requires k < |trace|
  {
    Answers(g, primary, trace[k].request, turns(k), Ok(trace[k].response), trace[k].calls)
  }

  lemma AnsweredExtend(g: Gateway, primary: string, turns: nat -> nat -> Turn, trace: seq<Answer>, a: Answer)
    requires Answered(g, primary, turns, trace) && Answers(g, primary, a.request, turns(|trace|), Ok(a.response), a.calls)
    ensures Answered(g, primary, turns, trace + [a])
  {
    hide Answers;
    forall k | 0 <= k < |trace + [a]|
      ensures AnsweredAt(g, primary, turns, trace + [a], k)
    {
      assert k < |trace| ==> AnsweredAt(g, primary, turns, trace, k);
    }
  }

  /** The request behind these answers: the original, or the repair of the last one within the budget. */
  function NextRequest(safety: SafetyPolicy, budget: TokenBudget, decoders: Decoders, original: Request, trace: seq<Answer>)
    : Result<Request, ProviderError>
  {
    if trace == [] then Ok(original)
    else
      var last := trace[|trace| - 1].response;
      ApplyRepairBudget(budget, RepairRequest(original, last.model, IssuesOf(safety, decoders, original.responseSchema, last.content)),
                        UsageOf(trace))
  }

  /** How a request ends: by the gateway's error, by an answer without issues, or by issues that are not repaired. */
  datatype Ending = GatewayError(calls: seq<Attempt>) | Accepted | Unrepaired

  /** Why a request ends after these answers, and with what. */
  ghost predicate EndsWith(safety: SafetyPolicy, g: Gateway, primary: string, original: Request, decoders: Decoders,
                           turns: nat -> nat -> Turn, trace: seq<Answer>, ending: Ending, r: Result<Response, ProviderError>)
  {
    match ending
    case GatewayError(calls) =>
      && |trace| <= safety.maxRepairAttempts && r.Err?
      && (trace != [] ==> IssuesOf(safety, decoders, original.responseSchema, trace[|trace| - 1].response.content) != [])
      && var next := NextRequest(safety, g.policy.budget, decoders, original, trace);
         next.Ok? && Answers(g, primary, next.value, turns(|trace|), r, calls)
    case Accepted =>
      && trace != [] && r.Ok?
      && var last := trace[|trace| - 1].response;
         && IssuesOf(safety, decoders, original.responseSchema, last.content) == []
         && IsAcceptable(safety, decoders, original.responseSchema, last.content, r.value.content)
         && r.value == last.(content := r.value.content, usage := UsageOf(trace))
    case Unrepaired =>
      && trace != [] && r.Err?
      && var issues := IssuesOf(safety, decoders, original.responseSchema, trace[|trace| - 1].response.content);
         && issues != []
         && if |trace| == safety.maxRepairAttempts + 1
            then r.error == ProviderError(primary, OtherCode(if issues[0].code == "response_too_large" then "STRUCTURED_OUTPUT_TOO_LARGE"
                                                             else "STRUCTURED_OUTPUT_INVALID"), false)
            else NextRequest(safety, g.policy.budget, decoders, original, trace) == Err(r.error)
  }

  /** Complete, from the redacted request; `turns` says what happens around the provider calls of each answer. */
  method Complete(safety: SafetyPolicy, g: Gateway, primary: string, original: Request, decoders: Decoders,
                  turns: nat -> nat -> Turn)
    returns (r: Result<Response, ProviderError>, trace: seq<Answer>, errors: nat, ending: Ending)
    requires g.policy.maxAttempts >= 1
    requires g.policy.budget.maxInputTokens >= 0 && g.policy.budget.maxOutputTokens >= 0 && g.policy.budget.maxTotalTokens >= 0
    ensures Repairs(safety, g.policy.budget, decoders, original, trace) && Answered(g, primary, turns, trace)
    ensures |trace| <= safety.maxRepairAttempts + 1
    ensures EndsWith(safety, g, primary, original, decoders, turns, trace, ending, r)
    ensures errors == IssueCount(safety, decoders, original.responseSchema, trace)
    ensures forall k :: 0 <= k < |trace| ==>
              |trace[k].calls| <= g.policy.maxAttempts && trace[k].response.usage == TotalUsage(trace[k].calls)
  {
    hide IssuesOf, ApplyRepairBudget, RepairRequest, Repairs, UsageOf, IsAcceptable, IssueCount, NormalizeUsage, Answers, Answered;
    var current := original;
    var aggregate := NO_USAGE;
    trace, errors := [], 0;
    NothingAnswered(safety, g, primary, decoders, original, turns);
    while true
      invariant Repairs(safety, g.policy.budget, decoders, original, trace) && |trace| <= safety.maxRepairAttempts
      invariant Answered(g, primary, turns, trace)
      invariant aggregate == UsageOf(trace) && IsNormal(aggregate)
      invariant errors == IssueCount(safety, decoders, original.responseSchema, trace)
      invariant current.responseSchema == original.responseSchema
      invariant forall k :: 0 <= k < |trace| ==>
                  |trace[k].calls| <= g.policy.maxAttempts && trace[k].response.usage == TotalUsage(trace[k].calls)
      invariant trace != [] ==> IssuesOf(safety, decoders, original.responseSchema, trace[|trace| - 1].response.content) != []
      invariant NextRequest(safety, g.policy.budget, decoders, original, trace) == Ok(current)
      decreases safety.maxRepairAttempts + 1 - |trace|
    {
      var answered, calls := LlmGateway.Complete(g, primary, current, turns(|trace|));
      if answered.Err? {
        r, ending := Err(answered.error), GatewayError(calls);
        return;
      }
      var response := answered.value;
      GatewayUsageIsNormal(g, primary, current, turns(|trace|), answered, calls);
      ghost var answer := Answer(current, response, calls);
      AnsweredExtend(g, primary, turns, trace, answer);
      RepairsExtend(safety, g.policy.budget, decoders, original, trace, answer);
      UsageExtends(trace, answer);
      NormalPlus(aggregate, response.usage);
      CountExtends(safety, decoders, original.responseSchema, trace, answer);
      trace := trace + [Answer(current, response, calls)];
      aggregate := AddUsage(aggregate, response.usage);
      var canonical, issues := ValidateResponse(safety, decoders, current.responseSchema, response.content);
      errors := errors + |issues|;
      if issues == [] {
        r, ending := Ok(response.(content := canonical, usage := aggregate)), Accepted;
        return;
      }
      ending := Unrepaired;
      if |trace| > safety.maxRepairAttempts {
        r := Err(ProviderError(primary, if issues[0].code == TOO_LARGE then OUTPUT_TOO_LARGE else OUTPUT_INVALID, false));
        return;
      }
      var repair := BuildRepairRequest(original, response.model, issues);
      var budgeted := ApplyRepairBudget(g.policy.budget, repair, aggregate);
      if budgeted.Err? {
        r := Err(budgeted.error);
        return;
      }
      RepairKeepsSchema(g.policy.budget, original, response.model, issues, aggregate);
      current := budgeted.value;
    }
  }

  lemma NothingAnswered(safety: SafetyPolicy, g: Gateway, primary: string, decoders: Decoders, original: Request,
                        turns: nat -> nat -> Turn)
    ensures Repairs(safety, g.policy.budget, decoders, original, []) && UsageOf([]) == NO_USAGE && IsNormal(NO_USAGE)
    ensures IssueCount(safety, decoders, original.responseSchema, []) == 0 && Answered(g, primary, turns, [])
  {
  }

  lemma GatewayUsageIsNormal(g: Gateway, primary: string, request: Request, turns: nat -> Turn,
                             r: Result<Response, ProviderError>, calls: seq<Attempt>)
    requires Answers(g, primary, request, turns, r, calls)
    ensures IsNormal(TotalUsage(calls))
  {
    hide ValidRequest, NamesPrimary, EstimateOf;
    forall k | 0 <= k < |calls|
      ensures IsNormal(calls[k].usage)
    {
      assert ReportedAt(turns, calls, k);
    }
    TotalIsNormal(calls);
  }

  lemma CountExtends(safety: SafetyPolicy, decoders: Decoders, schema: string, trace: seq<Answer>, a: Answer)
    ensures IssueCount(safety, decoders, schema, trace + [a]) ==
            IssueCount(safety, decoders, schema, trace) + |IssuesOf(safety, decoders, schema, a.response.content)|
  {
    hide IssuesOf;
    assert (trace + [a])[..|trace|] == trace;
  }

  lemma RepairKeepsSchema(budget: TokenBudget, original: Request, model: string, issues: seq<V.Issue>, used: Usage)
    requires ApplyRepairBudget(budget, RepairRequest(original, model, issues), used).Ok?
    ensures ApplyRepairBudget(budget, RepairRequest(original, model, issues), used).value.responseSchema == original.responseSchema
  {
  }

  // ----- the answers decide everything -----

  lemma {:induction false} SameAnswers(safety: SafetyPolicy, g: Gateway, primary: string, original: Request, decoders: Decoders,
                                       turns: nat -> nat -> Turn, a: seq<Answer>, b: seq<Answer>, n: nat)
    requires Repairs(safety, g.policy.budget, decoders, original, a) && Answered(g, primary, turns, a) && n <= |a|
    requires Repairs(safety, g.policy.budget, decoders, original, b) && Answered(g, primary, turns, b) && n <= |b|
    ensures a[..n] == b[..n]
  {
    hide Answers, IssuesOf, ApplyRepairBudget, RepairRequest, UsageOf;
    if n > 0 {
      SameAnswers(safety, g, primary, original, decoders, turns, a, b, n - 1);
      if n > 1 {
        assert RepairAt(safety, g.policy.budget, decoders, original, a, n - 1);
        assert RepairAt(safety, g.policy.budget, decoders, original, b, n - 1);
        assert a[..n - 1][n - 2] == b[..n - 1][n - 2];
      }
      assert AnsweredAt(g, primary, turns, a, n - 1) && AnsweredAt(g, primary, turns, b, n - 1);
      AnswerIsDetermined(g, primary, a[n - 1].request, turns(n - 1), Ok(a[n - 1].response), a[n - 1].calls,
                         Ok(b[n - 1].response), b[n - 1].calls);
      assert a[..n] == a[..n - 1] + [a[n - 1]] && b[..n] == b[..n - 1] + [b[n - 1]];
    }
  }

  /** Where the answers are continued, the last one had issues, its repair was affordable, and the gateway answered it. */
  lemma ContinuedIsRepaired(safety: SafetyPolicy, g: Gateway, primary: string, original: Request, decoders: Decoders,
                            turns: nat -> nat -> Turn, longer: seq<Answer>, n: nat)
    requires Repairs(safety, g.policy.budget, decoders, original, longer) && Answered(g, primary, turns, longer) && n < |longer|
    ensures n > 0 ==> IssuesOf(safety, decoders, original.responseSchema, longer[n - 1].response.content) != []
    ensures NextRequest(safety, g.policy.budget, decoders, original, longer[..n]) == Ok(longer[n].request)
    ensures Answers(g, primary, longer[n].request, turns(n), Ok(longer[n].response), longer[n].calls)
  {
    hide Answers, IssuesOf, ApplyRepairBudget, RepairRequest, UsageOf;
    assert AnsweredAt(g, primary, turns, longer, n);
    if n > 0 {
      assert RepairAt(safety, g.policy.budget, decoders, original, longer, n);
    }
  }

  lemma NoShorterExchange(safety: SafetyPolicy, g: Gateway, primary: string, original: Request, decoders: Decoders,
                          turns: nat -> nat -> Turn, trace: seq<Answer>, ending: Ending, r: Result<Response, ProviderError>,
                          longer: seq<Answer>)
    requires Repairs(safety, g.policy.budget, decoders, original, trace) && Answered(g, primary, turns, trace)
    requires Repairs(safety, g.policy.budget, decoders, original, longer) && Answered(g, primary, turns, longer)
    requires |longer| <= safety.maxRepairAttempts + 1
    requires EndsWith(safety, g, primary, original, decoders, turns, trace, ending, r)
    ensures |longer| <= |trace|
  {
    hide Answers, Answered, Repairs, IssuesOf, NextRequest, IsAcceptable, UsageOf;
    if |trace| < |longer| {
      SameAnswers(safety, g, primary, original, decoders, turns, trace, longer, |trace|);
      assert trace[..|trace|] == trace;
      ContinuedIsRepaired(safety, g, primary, original, decoders, turns, longer, |trace|);
      if ending.GatewayError? {
        AnswerIsDetermined(g, primary, longer[|trace|].request, turns(|trace|), r, ending.calls,
                           Ok(longer[|trace|].response), longer[|trace|].calls);
      }
    }
  }

  lemma AcceptedText(safety: SafetyPolicy, decoders: Decoders, schema: string, content: string, a: string, b: string)
    requires IsAcceptable(safety, decoders, schema, content, a) && IsAcceptable(safety, decoders, schema, content, b)
    ensures a == b
  {
  }

  lemma SameEnding(safety: SafetyPolicy, g: Gateway, primary: string, original: Request, decoders: Decoders,
                   turns: nat -> nat -> Turn, trace: seq<Answer>, ending: Ending, r: Result<Response, ProviderError>,
                   other: Ending, s: Result<Response, ProviderError>)
    requires EndsWith(safety, g, primary, original, decoders, turns, trace, ending, r)
    requires EndsWith(safety, g, primary, original, decoders, turns, trace, other, s)
    ensures ending == other && r == s
  {
    hide Answers, IssuesOf, NextRequest, UsageOf, IsAcceptable;
    match ending
    case GatewayError(calls) =>
      if other.GatewayError? {
        var next := NextRequest(safety, g.policy.budget, decoders, original, trace);
        AnswerIsDetermined(g, primary, next.value, turns(|trace|), r, calls, s, other.calls);
      }
    case Accepted =>
      if other.Accepted? {
        AcceptedText(safety, decoders, original.responseSchema, trace[|trace| - 1].response.content, r.value.content, s.value.content);
      }
    case Unrepaired =>
  }

  /** What the providers answer decides the repairs, the result and the error. */
  lemma ExchangeIsDetermined(safety: SafetyPolicy, g: Gateway, primary: string, original: Request, decoders: Decoders,
                             turns: nat -> nat -> Turn, trace: seq<Answer>, ending: Ending, r: Result<Response, ProviderError>,
                             other: seq<Answer>, otherEnding: Ending, s: Result<Response, ProviderError>)
    requires Repairs(safety, g.policy.budget, decoders, original, trace) && Answered(g, primary, turns, trace)
    requires Repairs(safety, g.policy.budget, decoders, original, other) && Answered(g, primary, turns, other)
    requires |trace| <= safety.maxRepairAttempts + 1 && |other| <= safety.maxRepairAttempts + 1
    requires EndsWith(safety, g, primary, original, decoders, turns, trace, ending, r)
    requires EndsWith(safety, g, primary, original, decoders, turns, other, otherEnding, s)
    ensures trace == other && ending == otherEnding && r == s
  {
    hide Answered, Repairs, EndsWith;
    NoShorterExchange(safety, g, primary, original, decoders, turns, trace, ending, r, other);
    NoShorterExchange(safety, g, primary, original, decoders, turns, other, otherEnding, s, trace);
    SameAnswers(safety, g, primary, original, decoders, turns, trace, other, |trace|);
    assert trace[..|trace|] == trace && other[..|trace|] == other;
    SameEnding(safety, g, primary, original, decoders, turns, trace, ending, r, otherEnding, s);
  }

  // ----- what every repair request is -----

  lemma PromptIsText(issues: seq<V.Issue>)
    ensures Text.TrimSpace(Text.TrimSpace(REPAIR_PROMPT + IssueLines(issues))) != ""
  {
    var prompt := REPAIR_PROMPT + IssueLines(issues);
    assert prompt[0] == 'T';
    hide IssueLines, Text.TrimSpace, REPAIR_PROMPT;
    Text.TrimSpaceKeepsText(prompt);
    Text.TrimSpaceEmpty(Text.TrimSpace(prompt));
  }

  lemma ValidRepair(original: Request, responseModel: string, issues: seq<V.Issue>, isJson: string -> bool)
    requires ValidRequest(original, isJson)
    ensures ValidRequest(RepairRequest(original, responseModel, issues), isJson)
  {
    PromptIsText(issues);
    hide IssueLines, Text.TrimSpace, REPAIR_PROMPT;
    Text.TrimSpaceKeepsText(responseModel);
    Text.TrimSpaceEmpty(responseModel);
    Text.TrimSpaceEmpty(Text.TrimSpace(responseModel));
  }

  lemma BudgetKeepsValid(budget: TokenBudget, request: Request, used: Usage, isJson: string -> bool)
    requires ValidRequest(request, isJson) && ApplyRepairBudget(budget, request, used).Ok?
    ensures ValidRequest(ApplyRepairBudget(budget, request, used).value, isJson)
  {
    hide Text.TrimSpace, EstimateOf;
  }

  /** A repair of a valid request is valid: the gateway never refuses one for its form. */
  lemma RepairIsValid(safety: SafetyPolicy, budget: TokenBudget, decoders: Decoders, original: Request, trace: seq<Answer>, k: nat,
                      isJson: string -> bool)
    requires Repairs(safety, budget, decoders, original, trace) && 0 < k < |trace| && ValidRequest(original, isJson)
    ensures ValidRequest(trace[k].request, isJson)
  {
    hide ValidRequest, IssuesOf, RepairRequest, ApplyRepairBudget, UsageOf;
    assert RepairAt(safety, budget, decoders, original, trace, k);
    var before := trace[k - 1].response;
    var issues := IssuesOf(safety, decoders, original.responseSchema, before.content);
    ValidRepair(original, before.model, issues, isJson);
    BudgetKeepsValid(budget, RepairRequest(original, before.model, issues), UsageOf(trace[..k]), isJson);
  }

  /**
    Every repair request is the redacted original plus exactly one message, under the same
    schema, so the estimate grows by that message alone and never from one repair to the
    next; with a total budget, estimate and output fit into what the answers before it have left.
   */
  lemma RepairRequestShape(safety: SafetyPolicy, budget: TokenBudget, decoders: Decoders, original: Request,
                           trace: seq<Answer>, k: nat)
    requires Repairs(safety, budget, decoders, original, trace) && 0 < k < |trace|
    ensures var request := trace[k].request;
            && |request.messages| == |original.messages| + 1
            && request.messages[..|original.messages|] == original.messages
            && (var before := trace[k - 1].response;
                var issues := IssuesOf(safety, decoders, original.responseSchema, before.content);
                && request.messages[|original.messages|] == Message("user", Text.TrimSpace(REPAIR_PROMPT + IssueLines(issues)))
                && request.model == if Text.TrimSpace(before.model) == "" then original.model else Text.TrimSpace(before.model))
            && request.responseSchema == original.responseSchema
            && (var added := |request.messages[|original.messages|].content| + 24;
                EstimateOf(original) + added / 4 <= EstimateOf(request) <= EstimateOf(original) + (added + 3) / 4)
            && (budget.maxTotalTokens > 0 ==>
                  && request.maxOutputTokens > 0
                  && UsageOf(trace[..k]).totalTokens + EstimateOf(request) + request.maxOutputTokens <= budget.maxTotalTokens)
            && (original.maxOutputTokens > 0 ==> request.maxOutputTokens <= original.maxOutputTokens)
  {
    assert RepairAt(safety, budget, decoders, original, trace, k);
    var issues := IssuesOf(safety, decoders, original.responseSchema, trace[k - 1].response.content);
    var repair := RepairRequest(original, trace[k - 1].response.model, issues);
    SameEstimate(repair, repair.model, trace[k].request.maxOutputTokens);
    SameEstimate(original.(messages := repair.messages), repair.model, trace[k].request.maxOutputTokens);
    MessageCost(original, repair.messages[|original.messages|]);
  }

  /** Neither the model nor the output bound is part of the estimate. */
  lemma SameEstimate(request: Request, model: string, output: int)
    ensures EstimateOf(request.(model := model, maxOutputTokens := output)) == EstimateOf(request)
  {
  }

  /** Every provider call of a request, in order, whichever answer it served. */
  function AllCalls(trace: seq<Answer>): seq<Attempt> {
    if trace == [] then [] else AllCalls(trace[..|trace| - 1]) + trace[|trace| - 1].calls
  }

  lemma {:induction false} UsageOfBoth(a: seq<Attempt>, b: seq<Attempt>)
    ensures TotalUsage(a + b) == Plus(TotalUsage(a), TotalUsage(b))
  {
    if b == [] {
      assert a + b == a;
    } else {
      var n := |b| - 1;
      UsageOfBoth(a, b[..n]);
      assert (a + b)[..|a + b| - 1] == a + b[..n];
    }
  }

  /** The usage a caller is told is that of all provider calls together, column by column. */
  lemma {:induction false} UsageCountsAllCalls(trace: seq<Answer>)
    requires forall k :: 0 <= k < |trace| ==> trace[k].response.usage == TotalUsage(trace[k].calls)
    ensures UsageOf(trace) == TotalUsage(AllCalls(trace)) && ProviderCalls(trace) == |AllCalls(trace)|
  {
    if trace != [] {
      UsageCountsAllCalls(trace[..|trace| - 1]);
      UsageOfBoth(AllCalls(trace[..|trace| - 1]), trace[|trace| - 1].calls);
    }
  }

  function ProviderCalls(trace: seq<Answer>): nat {
    if trace == [] then 0 else ProviderCalls(trace[..|trace| - 1]) + |trace[|trace| - 1].calls|
  }

  /** So a request never makes more than (repairs + 1) * attempts provider calls. */
  lemma {:induction false} ProviderCallsAreBounded(trace: seq<Answer>, attempts: nat, answers: nat)
    requires forall k :: 0 <= k < |trace| ==> |trace[k].calls| <= attempts
    requires |trace| <= answers
    ensures ProviderCalls(trace) <= answers * attempts
  {
    if trace != [] {
      ProviderCallsAreBounded(trace[..|trace| - 1], attempts, answers - 1);
      assert (answers - 1) * attempts + attempts == answers * attempts;
    }
  }
}
