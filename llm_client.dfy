/**
 * The generation client (`server/utils/llmClient.js`): the active provider
 * name, the provider clients that exist, prompt building, dispatch to the
 * active provider, the ordered model-fallback loops with their quota rules,
 * the wrapping of failures, and the offline mock document.
 *
 * Provider SDK calls are an oracle `Api` from a provider and a request to a
 * reply or a failure (with the HTTP status the SDK reports, if any). A ghost
 * log records which models were attempted.
 */
module LlmClient {
  import opened Common
  import opened JsString
  import opened Environment

  datatype Provider = OpenAI | Anthropic | Gemini

  /** The name of a provider as `LLM_PROVIDER` spells it. */
  function NameOf(p: Provider): string
  {
    match p
    case OpenAI => "openai"
    case Anthropic => "anthropic"
    case Gemini => "gemini"
  }

  /** One SDK request: model, the API key its client was built with, system message, user text, output bound. */
  datatype Request = Request(model: string, apiKey: string, system: Option<string>, user: string, maxTokens: nat)

  /** What one SDK call produces: the reply text, or an error with its status (if any) and message. */
  datatype CallOutcome = Replied(text: string) | Failed(status: Option<int>, message: string)

  /** The three providers' SDKs. */
  type Api = (Provider, Request) -> CallOutcome

  const SystemInstruction := "You are an expert technical writer and product manager. Generate well-structured, professional documentation."
  const MaxTokens := 3000
  const OpenAIModels := ["gpt-4o-mini", "gpt-4o", "gpt-3.5-turbo"]
  const GeminiModels := ["gemini-1.5-flash", "gemini-1.5-pro", "gemini-1.0-pro"]
  const AnthropicModel := "claude-3-sonnet-20240229"
  const OpenAIQuotaMessage := "OpenAI quota exceeded. Please check your billing or try again later."
  const GeminiQuotaMessage := "Gemini quota exceeded. Please check your usage or try again later."
  const GenerateFailurePrefix := "Failed to generate content: "
  const Placeholder := "{{context}}"

  // ---------------------------------------------------------------------------
  // Prompt building

  /** The full prompt: `prompt.replace('{{context}}', context)`. */
  function FullPrompt(prompt: string, context: string): string
  {
    ReplaceFirst(prompt, Placeholder, context)
  }

  /** A template without the placeholder is sent unchanged. */
  lemma FullPromptWithoutPlaceholder(prompt: string, context: string)
    requires !Includes(prompt, Placeholder)
    ensures FullPrompt(prompt, context) == prompt
  {
  }

  /**
   * Only the first placeholder is replaced: what precedes it holds no
   * placeholder, and everything after it, later placeholders included, is
   * kept verbatim. A context without `$` is inserted literally.
   */
  lemma FullPromptReplacesFirst(prompt: string, context: string, i: nat)
    requires MatchAt(prompt, Placeholder, i)
    requires forall j :: 0 <= j < i ==> !MatchAt(prompt, Placeholder, j)
    requires '$' !in context
    ensures FullPrompt(prompt, context) == prompt[..i] + context + prompt[i + |Placeholder|..]
  {
    IndexOfAt(prompt, Placeholder, i);
    SubstitutionLiteral(context, Placeholder, prompt[..i], prompt[i + |Placeholder|..]);
  }

  /** `$&` in the context stands for the matched placeholder, as `String.prototype.replace` defines. */
  lemma FullPromptDollarAmpersand(prompt: string, a: string, b: string, i: nat)
    requires MatchAt(prompt, Placeholder, i)
    requires forall j :: 0 <= j < i ==> !MatchAt(prompt, Placeholder, j)
    requires '$' !in a && '$' !in b
    ensures FullPrompt(prompt, a + "$&" + b) == prompt[..i] + a + Placeholder + b + prompt[i + |Placeholder|..]
  {
    IndexOfAt(prompt, Placeholder, i);
    SubstitutionMatched(a, b, Placeholder, prompt[..i], prompt[i + |Placeholder|..]);
  }

  // ---------------------------------------------------------------------------
  // The model-fallback loop shared by the OpenAI and Gemini paths

  /** How a provider path recognises quota exhaustion. */
  datatype QuotaRule =
    | Status429        // OpenAI: `error.status === 429`
    | QuotaInMessage   // Gemini: the message mentions `quota` or `429`

  predicate IsQuota(rule: QuotaRule, status: Option<int>, message: string)
  {
    match rule
    case Status429 => status == Some(429)
    case QuotaInMessage => Includes(message, "quota") || Includes(message, "429")
  }

  /**
   * The two quota rules: OpenAI looks at the status alone, Gemini at the
   * message alone, where `quota` or `429` must occur somewhere.
   */
  lemma QuotaRules(status: Option<int>, message: string)
    ensures IsQuota(Status429, status, message) <==> status == Some(429)
    ensures IsQuota(Status429, status, message) == IsQuota(Status429, status, "")
    ensures IsQuota(QuotaInMessage, status, message) <==>
      (exists j :: 0 <= j <= |message| && MatchAt(message, "quota", j)) ||
      (exists j :: 0 <= j <= |message| && MatchAt(message, "429", j))
    ensures IsQuota(QuotaInMessage, status, message) == IsQuota(QuotaInMessage, None, message)
  {
    IncludesIff(message, "quota");
    IncludesIff(message, "429");
  }

  /** A failure that the loop answers by moving on to the next model (unless it is the last). */
  predicate NonQuotaFailure(rule: QuotaRule, o: CallOutcome)
  {
    o.Failed? && !IsQuota(rule, o.status, o.message)
  }

  /** How the loop ends: a reply is returned, an error is thrown, or the list runs out (`undefined`). */
  datatype Attempt = Answered(text: string) | Raised(message: string) | FellThrough

  /** The loop's outcome together with the models it attempted, in order. */
  datatype Run = Run(outcome: Attempt, tried: seq<string>)

  /**
   * The loop from position `i` on: the first reply is returned; a quota failure
   * throws `quotaMessage`; a failure of the model that equals the list's last
   * entry rethrows that failure; any other failure moves on.
   */
  function Fallback(models: seq<string>, i: nat, call: string -> CallOutcome, rule: QuotaRule, quotaMessage: string): Run
    requires i <= |models|
    decreases |models| - i
  {
    if i == |models| then Run(FellThrough, [])
    else
      match call(models[i])
      case Replied(text) => Run(Answered(text), [models[i]])
      case Failed(status, message) =>
        if IsQuota(rule, status, message) then Run(Raised(quotaMessage), [models[i]])
        else if models[i] == models[|models| - 1] then Run(Raised(message), [models[i]])
        else
          var rest := Fallback(models, i + 1, call, rule, quotaMessage);
          Run(rest.outcome, [models[i]] + rest.tried)
  }

  /** The outcome the last attempted model's result decides. */
  predicate Decides(rule: QuotaRule, quotaMessage: string, o: CallOutcome, isLast: bool, outcome: Attempt)
  {
    match o
    case Replied(text) => outcome == Answered(text)
    case Failed(status, message) =>
      if IsQuota(rule, status, message) then outcome == Raised(quotaMessage)
      else isLast && outcome == Raised(message)
  }

  /**
   * The shape of every run over a non-empty list: at least one model is tried,
   * the tried models are a prefix of the remaining list in order, every model
   * but the last tried failed without quota and is not the list's last entry,
   * and the last tried model's result decides the outcome. So a reply, or a
   * quota failure, stops the loop: later models are never tried. The loop
   * never falls through.
   */
  lemma FallbackShape(models: seq<string>, i: nat, call: string -> CallOutcome, rule: QuotaRule, quotaMessage: string)
    requires i < |models|
    ensures var run := Fallback(models, i, call, rule, quotaMessage);
      && 1 <= |run.tried| <= |models| - i
      && run.tried == models[i..i + |run.tried|]
      && run.outcome != FellThrough
      && (forall j :: i <= j < i + |run.tried| - 1 ==>
            NonQuotaFailure(rule, call(models[j])) && models[j] != models[|models| - 1])
      && Decides(rule, quotaMessage, call(models[i + |run.tried| - 1]),
                 models[i + |run.tried| - 1] == models[|models| - 1], run.outcome)
  {
    FallbackTriedPrefix(models, i, call, rule, quotaMessage);
    FallbackPassesOver(models, i, call, rule, quotaMessage);
    FallbackLastDecides(models, i, call, rule, quotaMessage);
    var tried := Fallback(models, i, call, rule, quotaMessage).tried;
    assert tried == models[i..i + |tried|];
    forall j | i <= j < i + |tried| - 1
      ensures NonQuotaFailure(rule, call(models[j])) && models[j] != models[|models| - 1]
    {
      assert models[j] == tried[j - i];
    }
  }

  /** The tried models are a non-empty prefix of the remaining list. */
  lemma {:induction false} FallbackTriedPrefix(models: seq<string>, i: nat, call: string -> CallOutcome, rule: QuotaRule, quotaMessage: string)
    requires i < |models|
    ensures var run := Fallback(models, i, call, rule, quotaMessage);
      && 1 <= |run.tried| <= |models| - i
      && forall k :: 0 <= k < |run.tried| ==> run.tried[k] == models[i + k]
    decreases |models| - i
  {
    if NonQuotaFailure(rule, call(models[i])) && models[i] != models[|models| - 1] {
      FallbackMovesOn(models, i, call, rule, quotaMessage);
      FallbackTriedPrefix(models, i + 1, call, rule, quotaMessage);
      var tried := Fallback(models, i, call, rule, quotaMessage).tried;
      var rest := Fallback(models, i + 1, call, rule, quotaMessage).tried;
      forall k | 0 <= k < |tried|
        ensures tried[k] == models[i + k]
      {
        if k > 0 {
          assert tried[k] == rest[k - 1];
        }
      }
    } else {
      FallbackStopsHere(models, i, call, rule, quotaMessage);
    }
  }

  /** Every tried model but the last failed without quota and is not the list's last entry. */
  lemma {:induction false} FallbackPassesOver(models: seq<string>, i: nat, call: string -> CallOutcome, rule: QuotaRule, quotaMessage: string)
    requires i < |models|
    ensures var run := Fallback(models, i, call, rule, quotaMessage);
      forall k :: 0 <= k < |run.tried| - 1 ==>
        NonQuotaFailure(rule, call(run.tried[k])) && run.tried[k] != models[|models| - 1]
    decreases |models| - i
  {
    if NonQuotaFailure(rule, call(models[i])) && models[i] != models[|models| - 1] {
      FallbackMovesOn(models, i, call, rule, quotaMessage);
      FallbackPassesOver(models, i + 1, call, rule, quotaMessage);
      var tried := Fallback(models, i, call, rule, quotaMessage).tried;
      var rest := Fallback(models, i + 1, call, rule, quotaMessage).tried;
      forall k | 0 <= k < |tried| - 1
        ensures NonQuotaFailure(rule, call(tried[k])) && tried[k] != models[|models| - 1]
      {
        if k > 0 {
          assert tried[k] == rest[k - 1];
        }
      }
    } else {
      FallbackStopsHere(models, i, call, rule, quotaMessage);
    }
  }

  /** The last tried model's result decides the outcome, which is never a fall-through. */
  lemma {:induction false} FallbackLastDecides(models: seq<string>, i: nat, call: string -> CallOutcome, rule: QuotaRule, quotaMessage: string)
    requires i < |models|
    ensures var run := Fallback(models, i, call, rule, quotaMessage);
      && i + |run.tried| - 1 < |models|
      && run.outcome != FellThrough
      && Decides(rule, quotaMessage, call(models[i + |run.tried| - 1]),
                 models[i + |run.tried| - 1] == models[|models| - 1], run.outcome)
    decreases |models| - i
  {
    if NonQuotaFailure(rule, call(models[i])) && models[i] != models[|models| - 1] {
      FallbackMovesOn(models, i, call, rule, quotaMessage);
      FallbackLastDecides(models, i + 1, call, rule, quotaMessage);
      var rest := Fallback(models, i + 1, call, rule, quotaMessage);
      assert i + |Fallback(models, i, call, rule, quotaMessage).tried| - 1 == i + 1 + |rest.tried| - 1;
    } else {
      FallbackStopsHere(models, i, call, rule, quotaMessage);
    }
  }

  /** A non-quota failure of a model other than the last entry moves on to the next model. */
  lemma FallbackMovesOn(models: seq<string>, i: nat, call: string -> CallOutcome, rule: QuotaRule, quotaMessage: string)
    requires i < |models|
    requires NonQuotaFailure(rule, call(models[i])) && models[i] != models[|models| - 1]
    ensures i + 1 < |models|
    ensures var rest := Fallback(models, i + 1, call, rule, quotaMessage);
      Fallback(models, i, call, rule, quotaMessage) == Run(rest.outcome, [models[i]] + rest.tried)
  {
  }

  /** Any other result ends the run at this model, and decides its outcome. */
  lemma FallbackStopsHere(models: seq<string>, i: nat, call: string -> CallOutcome, rule: QuotaRule, quotaMessage: string)
    requires i < |models|
    requires !(NonQuotaFailure(rule, call(models[i])) && models[i] != models[|models| - 1])
    ensures var run := Fallback(models, i, call, rule, quotaMessage);
      run.tried == [models[i]] && run.outcome != FellThrough
      && Decides(rule, quotaMessage, call(models[i]), models[i] == models[|models| - 1], run.outcome)
  {
  }

  /**
   * When every model before position `k` fails without quota and is not the
   * list's last entry, and model `k` replies (or hits the quota), the run
   * tries exactly the models up to `k` and returns that reply (or throws the
   * quota error).
   */
  lemma {:induction false} FallbackStopsAt(models: seq<string>, i: nat, k: nat, call: string -> CallOutcome, rule: QuotaRule, quotaMessage: string)
    requires i <= k < |models|
    requires forall j :: i <= j < k ==> NonQuotaFailure(rule, call(models[j])) && models[j] != models[|models| - 1]
    requires call(models[k]).Replied? || IsQuota(rule, call(models[k]).status, call(models[k]).message)
    ensures Fallback(models, i, call, rule, quotaMessage) ==
      Run(if call(models[k]).Replied? then Answered(call(models[k]).text) else Raised(quotaMessage), models[i..k + 1])
    decreases k - i
  {
    if i < k {
      FallbackStopsAt(models, i + 1, k, call, rule, quotaMessage);
      assert models[i..k + 1] == [models[i]] + models[i + 1..k + 1];
    }
  }

  /**
   * Over a list without repeated names, when every model fails without quota,
   * all of them are tried and the last model's own error is rethrown.
   */
  lemma {:induction false} FallbackExhausted(models: seq<string>, i: nat, call: string -> CallOutcome, rule: QuotaRule, quotaMessage: string)
    requires i < |models|
    requires forall a, b :: 0 <= a < b < |models| ==> models[a] != models[b]
    requires forall j :: i <= j < |models| ==> NonQuotaFailure(rule, call(models[j]))
    ensures call(models[|models| - 1]).Failed?
      && Fallback(models, i, call, rule, quotaMessage) == Run(Raised(call(models[|models| - 1]).message), models[i..])
    decreases |models| - i
  {
    if i < |models| - 1 {
      FallbackExhausted(models, i + 1, call, rule, quotaMessage);
      assert models[i..] == [models[i]] + models[i + 1..];
    }
  }

  /** Over an empty list the loop falls through: the JavaScript function returns `undefined`. */
  lemma FallbackEmpty(call: string -> CallOutcome, rule: QuotaRule, quotaMessage: string)
    ensures Fallback([], 0, call, rule, quotaMessage) == Run(FellThrough, [])
  {
  }

  /** A run whose attempts are preceded by the models already tried. */
  function After(tried: seq<string>, run: Run): Run
  {
    Run(run.outcome, tried + run.tried)
  }

  /** The loop of `generateWithOpenAI` / `generateWithGemini`, proved against `Fallback`. */
  method TryModels(models: seq<string>, call: string -> CallOutcome, rule: QuotaRule, quotaMessage: string)
    returns (outcome: Attempt, ghost tried: seq<string>)
    ensures outcome == Fallback(models, 0, call, rule, quotaMessage).outcome
    ensures tried == Fallback(models, 0, call, rule, quotaMessage).tried
  {
    tried := [];
    var i := 0;
    while i < |models|
      invariant 0 <= i <= |models|
      invariant tried == models[..i]
      invariant Fallback(models, 0, call, rule, quotaMessage) == After(tried, Fallback(models, i, call, rule, quotaMessage))
      decreases |models| - i
    {
      var model := models[i];
      var o := call(model);
      if !(NonQuotaFailure(rule, o) && model != models[|models| - 1]) {
        FallbackStopsHere(models, i, call, rule, quotaMessage);
        match o {
          case Replied(text) =>
            outcome := Answered(text);
          case Failed(status, message) =>
            outcome := if IsQuota(rule, status, message) then Raised(quotaMessage) else Raised(message);
        }
        tried := tried + [model];
        return;
      }
      FallbackMovesOn(models, i, call, rule, quotaMessage);
      ghost var next := Fallback(models, i + 1, call, rule, quotaMessage);
      assert (tried + [model]) + next.tried == tried + ([model] + next.tried);
      assert models[..i + 1] == models[..i] + [model];
      tried := tried + [model];
      i := i + 1;
    }
    outcome := FellThrough;
  }

  // ---------------------------------------------------------------------------
  // The three provider paths

  /** How the OpenAI path calls one model. */
  function OpenAICall(key: string, prompt: string, api: Api): string -> CallOutcome
  {
    (model: string) => api(OpenAI, Request(model, key, Some(SystemInstruction), prompt, MaxTokens))
  }

  /** How the Gemini path calls one model: the instruction is prefixed to the prompt. */
  function GeminiCall(key: string, prompt: string, api: Api): string -> CallOutcome
  {
    (model: string) => api(Gemini, Request(model, key, None, SystemInstruction + "\n\n" + prompt, MaxTokens))
  }

  /** A provider path's result (a reply or a thrown message) and the models it attempted. */
  datatype Generated = Generated(result: Result<string>, tried: seq<string>)

  /** A finished fallback run as the provider method's result. */
  function Settle(run: Run): (g: Generated)
    requires run.outcome != FellThrough
    ensures g.tried == run.tried
    ensures g.result.Ok? <==> run.outcome.Answered?
    ensures run.outcome.Answered? ==> g.result.value == run.outcome.text
    ensures run.outcome.Raised? ==> g.result.message == run.outcome.message
  {
    match run.outcome
    case Answered(text) => Generated(Ok(text), run.tried)
    case Raised(message) => Generated(Err(message), run.tried)
  }

  /**
   * `generateWithOpenAI`: a prefix of the model list is tried, every model
   * but the last tried failed without a 429, and the last model tried
   * decides: its reply, or the quota message after a 429, or its own error,
   * which ends the run only at the list's last model.
   */
  function OpenAIPath(key: string, prompt: string, api: Api): (g: Generated)
    ensures 1 <= |g.tried| <= |OpenAIModels| && g.tried == OpenAIModels[..|g.tried|]
    ensures match OpenAICall(key, prompt, api)(g.tried[|g.tried| - 1])
      case Replied(text) => g.result == Ok(text)
      case Failed(status, message) => g.result == Err(if status == Some(429) then OpenAIQuotaMessage else message)
    ensures forall k :: 0 <= k < |g.tried| - 1 ==> NonQuotaFailure(Status429, OpenAICall(key, prompt, api)(g.tried[k]))
    ensures NonQuotaFailure(Status429, OpenAICall(key, prompt, api)(g.tried[|g.tried| - 1])) ==> |g.tried| == |OpenAIModels|
  {
    var run := Fallback(OpenAIModels, 0, OpenAICall(key, prompt, api), Status429, OpenAIQuotaMessage);
    FallbackShape(OpenAIModels, 0, OpenAICall(key, prompt, api), Status429, OpenAIQuotaMessage);
    assert forall k :: 0 <= k < |run.tried| ==> run.tried[k] == OpenAIModels[k];
    Settle(run)
  }

  /**
   * `generateWithGemini`: a prefix of the model list is tried, every model
   * but the last tried failed without a quota message, and the last model
   * tried decides: its reply, or the quota message when the error mentions
   * `quota` or `429`, or its own error, which ends the run only at the
   * list's last model.
   */
  function GeminiPath(key: string, prompt: string, api: Api): (g: Generated)
    ensures 1 <= |g.tried| <= |GeminiModels| && g.tried == GeminiModels[..|g.tried|]
    ensures match GeminiCall(key, prompt, api)(g.tried[|g.tried| - 1])
      case Replied(text) => g.result == Ok(text)
      case Failed(_, message) =>
        g.result == Err(if Includes(message, "quota") || Includes(message, "429") then GeminiQuotaMessage else message)
    ensures forall k :: 0 <= k < |g.tried| - 1 ==> NonQuotaFailure(QuotaInMessage, GeminiCall(key, prompt, api)(g.tried[k]))
    ensures NonQuotaFailure(QuotaInMessage, GeminiCall(key, prompt, api)(g.tried[|g.tried| - 1])) ==> |g.tried| == |GeminiModels|
  {
    var run := Fallback(GeminiModels, 0, GeminiCall(key, prompt, api), QuotaInMessage, GeminiQuotaMessage);
    FallbackShape(GeminiModels, 0, GeminiCall(key, prompt, api), QuotaInMessage, GeminiQuotaMessage);
    assert forall k :: 0 <= k < |run.tried| ==> run.tried[k] == GeminiModels[k];
    Settle(run)
  }

  /** The Anthropic path: one call to one model, no fallback and no quota rule. */
  function AnthropicPath(key: string, prompt: string, api: Api): (g: Generated)
    ensures g.tried == [AnthropicModel]
    ensures api(Anthropic, Request(AnthropicModel, key, None, prompt, MaxTokens)).Replied? <==> g.result.Ok?
    ensures match api(Anthropic, Request(AnthropicModel, key, None, prompt, MaxTokens))
      case Replied(text) => g.result == Ok(text)
      case Failed(_, message) => g.result == Err(message)
  {
    match api(Anthropic, Request(AnthropicModel, key, None, prompt, MaxTokens))
    case Replied(text) => Generated(Ok(text), [AnthropicModel])
    case Failed(_, message) => Generated(Err(message), [AnthropicModel])
  }

  /** The OpenAI models are tried cheapest first: a non-quota failure of the first and a reply from the second return that reply, and the third is never tried. */
  lemma OpenAISecondModelAnswers(key: string, prompt: string, api: Api, text: string)
    requires NonQuotaFailure(Status429, OpenAICall(key, prompt, api)("gpt-4o-mini"))
    requires OpenAICall(key, prompt, api)("gpt-4o") == Replied(text)
    ensures OpenAIPath(key, prompt, api) == Generated(Ok(text), ["gpt-4o-mini", "gpt-4o"])
  {
    FallbackStopsAt(OpenAIModels, 0, 1, OpenAICall(key, prompt, api), Status429, OpenAIQuotaMessage);
  }

  /** A 429 from the first OpenAI model throws the quota error at once; no other model is tried. */
  lemma OpenAIQuotaAborts(key: string, prompt: string, api: Api, message: string)
    requires OpenAICall(key, prompt, api)("gpt-4o-mini") == Failed(Some(429), message)
    ensures OpenAIPath(key, prompt, api) == Generated(Err(OpenAIQuotaMessage), ["gpt-4o-mini"])
  {
    FallbackStopsAt(OpenAIModels, 0, 0, OpenAICall(key, prompt, api), Status429, OpenAIQuotaMessage);
  }

  /** When every OpenAI model fails without a 429, all three are tried and the last one's error is rethrown. */
  lemma OpenAIAllFail(key: string, prompt: string, api: Api)
    requires forall j :: 0 <= j < 3 ==> NonQuotaFailure(Status429, OpenAICall(key, prompt, api)(OpenAIModels[j]))
    ensures OpenAICall(key, prompt, api)("gpt-3.5-turbo").Failed?
      && OpenAIPath(key, prompt, api) == Generated(Err(OpenAICall(key, prompt, api)("gpt-3.5-turbo").message), OpenAIModels)
  {
    FallbackExhausted(OpenAIModels, 0, OpenAICall(key, prompt, api), Status429, OpenAIQuotaMessage);
  }

  /** A Gemini failure whose message mentions `quota` stops the Gemini loop with the quota error. */
  lemma GeminiQuotaByMessage(key: string, prompt: string, api: Api, status: Option<int>, message: string)
    requires GeminiCall(key, prompt, api)("gemini-1.5-flash") == Failed(status, message)
    requires Includes(message, "quota")
    ensures GeminiPath(key, prompt, api) == Generated(Err(GeminiQuotaMessage), ["gemini-1.5-flash"])
  {
    FallbackStopsAt(GeminiModels, 0, 0, GeminiCall(key, prompt, api), QuotaInMessage, GeminiQuotaMessage);
  }

  lemma GeminiServiceUnavailable()
    ensures NonQuotaFailure(QuotaInMessage, Failed(Some(429), "Service unavailable"))
  {
    var m := "Service unavailable";
    assert 'q' !in m && '4' !in m;
    ExcludedByFirstChar(m, "quota");
    ExcludedByFirstChar(m, "429");
  }

  /**
   * A status of 429 alone does not make a Gemini failure a quota failure:
   * when the message mentions neither `quota` nor `429`, the next model is
   * tried and its reply returned.
   */
  lemma GeminiStatusIgnored(key: string, prompt: string, api: Api, message: string, text: string)
    requires GeminiCall(key, prompt, api)("gemini-1.5-flash") == Failed(Some(429), message)
    requires !Includes(message, "quota") && !Includes(message, "429")
    requires GeminiCall(key, prompt, api)("gemini-1.5-pro") == Replied(text)
    ensures GeminiPath(key, prompt, api) == Generated(Ok(text), ["gemini-1.5-flash", "gemini-1.5-pro"])
  {
    FallbackStopsAt(GeminiModels, 0, 1, GeminiCall(key, prompt, api), QuotaInMessage, GeminiQuotaMessage);
  }

  // ---------------------------------------------------------------------------
  // Mock output

  /** `generateMockResponse`'s document type: the first keyword the prompt contains. */
  function DocType(prompt: string): string
  {
    if Includes(prompt, "PRD") then "PRD"
    else if Includes(prompt, "FRD") then "FRD"
    else if Includes(prompt, "UAT") then "UAT"
    else if Includes(prompt, "User Stories") then "User Stories"
    else if Includes(prompt, "Acceptance Criteria") then "Acceptance Criteria"
    else if Includes(prompt, "Meeting Minutes") then "Meeting Minutes"
    else "Document"
  }

  const DocTypeKeywords := ["PRD", "FRD", "UAT", "User Stories", "Acceptance Criteria", "Meeting Minutes"]

  /** Reference definition: the first keyword of `keywords` that `prompt` contains. */
  function FirstKeyword(keywords: seq<string>, prompt: string): (r: Option<string>)
    ensures r.Some? ==> r.value in keywords && Includes(prompt, r.value)
    ensures r.None? ==> forall k :: k in keywords ==> !Includes(prompt, k)
  {
    if keywords == [] then None
    else if Includes(prompt, keywords[0]) then Some(keywords[0])
    else FirstKeyword(keywords[1..], prompt)
  }

  /** The keyword found is the earliest one in the list that the prompt contains. */
  lemma {:induction false} FirstKeywordEarliest(keywords: seq<string>, prompt: string)
    requires FirstKeyword(keywords, prompt).Some?
    ensures exists k :: 0 <= k < |keywords| && keywords[k] == FirstKeyword(keywords, prompt).value && (forall j :: 0 <= j < k ==> !Includes(prompt, keywords[j]))
  {
    if !Includes(prompt, keywords[0]) {
      FirstKeywordEarliest(keywords[1..], prompt);
      var rest := keywords[1..];
      var k :| 0 <= k < |rest| && rest[k] == FirstKeyword(keywords, prompt).value && (forall j :: 0 <= j < k ==> !Includes(prompt, rest[j]));
      assert keywords[k + 1] == FirstKeyword(keywords, prompt).value;
      assert forall j :: 0 <= j < k + 1 ==> !Includes(prompt, keywords[j]) by {
        forall j | 0 <= j < k + 1 ensures !Includes(prompt, keywords[j]) {
          if j > 0 { assert keywords[j] == keywords[1..][j - 1]; }
        }
      }
    } else {
      assert keywords[0] == FirstKeyword(keywords, prompt).value;
    }
  }

  lemma FirstKeywordCons(k: string, rest: seq<string>, prompt: string)
    ensures FirstKeyword([k] + rest, prompt) == if Includes(prompt, k) then Some(k) else FirstKeyword(rest, prompt)
  {
    assert ([k] + rest)[0] == k && ([k] + rest)[1..] == rest;
  }

  /** The ternary chain is the first-match classifier over the ordered keyword list, falling back to `Document`. */
  lemma DocTypeFirstMatch(prompt: string)
    ensures DocType(prompt) == match FirstKeyword(DocTypeKeywords, prompt) case Some(k) => k case None => "Document"
  {
    FirstKeywordCons("PRD", ["FRD", "UAT", "User Stories", "Acceptance Criteria", "Meeting Minutes"], prompt);
    FirstKeywordCons("FRD", ["UAT", "User Stories", "Acceptance Criteria", "Meeting Minutes"], prompt);
    FirstKeywordCons("UAT", ["User Stories", "Acceptance Criteria", "Meeting Minutes"], prompt);
    FirstKeywordCons("User Stories", ["Acceptance Criteria", "Meeting Minutes"], prompt);
    FirstKeywordCons("Acceptance Criteria", ["Meeting Minutes"], prompt);
    FirstKeywordCons("Meeting Minutes", [], prompt);
  }

  /** Keyword priority: a prompt containing `PRD` is a PRD, whatever else it contains. */
  lemma DocTypePrdFirst(prompt: string)
    requires Includes(prompt, "PRD")
    ensures DocType(prompt) == "PRD"
  {
  }

  /** The name by which the notice mentions the provider: anything other than `openai` or `anthropic` reads as Gemini. */
  function ProviderLabel(provider: string): (shown: string)
    ensures provider == "openai" ==> shown == "OpenAI"
    ensures provider == "anthropic" ==> shown == "Anthropic"
    ensures provider != "openai" && provider != "anthropic" ==> shown == "Gemini"
  {
    if provider == "openai" then "OpenAI" else if provider == "anthropic" then "Anthropic" else "Gemini"
  }

  /**
   * One line of the mock document. The lines that vary carry their variable
   * part; every other line is `Fixed(k)`, with its text given by `FixedText`.
   */
  datatype MockLine =
    | Title(docType: string)          // # {docType} - Sample Document
    | QuotaNotice(shown: string)      // the provider's label in the quota reason
    | KeyNotice(provider: string)     // the raw provider name in the missing-key reason
    | OverviewLine(lower: string)     // the lower-cased document type in the overview
    | PurposeLine(lower: string)      // the lower-cased document type in the introduction
    | Stamp(now: string)              // `now` stands for `new Date().toLocaleString()`
    | Fixed(k: nat)

  function FixedText(k: nat): string
  {
    match k
    case 0 => ""
    case 1 => "> **Note:** This is a mock response because:"
    case 2 => "> "
    case 3 => "> To get real AI-generated content:"
    case 4 => "> 1. **OpenAI**: Check billing at https://platform.openai.com/usage"
    case 5 => "> 2. **Anthropic**: Check usage at https://console.anthropic.com/"
    case 6 => "> 3. **Gemini**: Check quota at https://makersuite.google.com/"
    case 7 => "> 4. Click the settings button (\U{2699}\U{FE0F}) in bottom-right to switch providers"
    case 8 => "> 5. Restart the application after adding credits"
    case 9 => "## Document Overview"
    case 10 => "### Key Features"
    case 11 => "- **Professional formatting** with proper markdown structure"
    case 12 => "- **Comprehensive sections** covering all essential elements"
    case 13 => "- **Export functionality** to PDF, DOCX, and Markdown formats"
    case 14 => "- **Editable content** that you can modify before exporting"
    case 15 => "## Main Content Sections"
    case 16 => "### 1. Introduction"
    case 17 => "### 2. Requirements/Details"
    case 18 => "- **Requirement 1:** Detailed description of the first requirement"
    case 19 => "- **Requirement 2:** Detailed description of the second requirement"
    case 20 => "- **Requirement 3:** Detailed description of the third requirement"
    case 21 => "### 3. Implementation Details"
    case 22 => "```"
    case 23 => "Code examples or technical specifications would go here"
    case 24 => "### 4. Success Criteria"
    case 25 => "| Criteria | Description | Priority |"
    case 26 => "|----------|-------------|----------|"
    case 27 => "| Criterion 1 | Must meet basic functionality | High |"
    case 28 => "| Criterion 2 | Should enhance user experience | Medium |"
    case 29 => "| Criterion 3 | Could provide additional value | Low |"
    case 30 => "### 5. Next Steps"
    case 31 => "1. **Review** this generated content"
    case 32 => "2. **Edit** any sections as needed using the Edit button"
    case 33 => "3. **Export** to your preferred format (PDF, DOCX, or Markdown)"
    case 34 => "4. **Customize** the prompt template for better results"
    case 35 => "---"
    case _ => "**\U{1F4A1} Pro tip:** Once your OpenAI quota is restored, you'll get much more detailed and context-specific content!"
  }

  function LineText(line: MockLine): string
  {
    match line
    case Title(docType) => "# " + docType + " - Sample Document"
    case QuotaNotice(shown) => "> - Your " + shown + " quota has been exceeded, or"
    case KeyNotice(provider) => "> - No API key is configured for " + provider
    case OverviewLine(lower) =>
      "This is a professionally structured " + lower + " template that demonstrates the application's capabilities."
    case PurposeLine(lower) => "This section would contain the introduction and purpose of your " + lower + "."
    case Stamp(now) => "*Generated on " + now + " using mock mode*"
    case Fixed(k) => FixedText(k)
  }

  /** The title and the notice explaining why the response is a mock. */
  function MockHeader(docType: string, provider: string): (r: seq<MockLine>)
    ensures |r| == 13 && r[0] == Title(docType)
    ensures r[3] == QuotaNotice(ProviderLabel(provider)) && r[4] == KeyNotice(provider)
  {
    [ Title(docType), Fixed(0),
      Fixed(1), QuotaNotice(ProviderLabel(provider)), KeyNotice(provider), Fixed(2),
      Fixed(3), Fixed(4), Fixed(5), Fixed(6), Fixed(7), Fixed(8), Fixed(0) ]
  }

  /** The overview and the five numbered sections; `lower` is the lower-cased document type. */
  function MockBody(lower: string): seq<MockLine>
  {
    [ Fixed(9), Fixed(0), OverviewLine(lower), Fixed(0),
      Fixed(10), Fixed(11), Fixed(12), Fixed(13), Fixed(14), Fixed(0),
      Fixed(15), Fixed(0),
      Fixed(16), PurposeLine(lower), Fixed(0),
      Fixed(17), Fixed(18), Fixed(19), Fixed(20), Fixed(0),
      Fixed(21), Fixed(22), Fixed(23), Fixed(22), Fixed(0),
      Fixed(24), Fixed(25), Fixed(26), Fixed(27), Fixed(28), Fixed(29), Fixed(0),
      Fixed(30), Fixed(31), Fixed(32), Fixed(33), Fixed(34), Fixed(0) ]
  }

  /** The closing rule, the time stamp and the tip. */
  function MockFooter(now: string): seq<MockLine>
  {
    [ Fixed(35), Fixed(0), Stamp(now), Fixed(0), Fixed(36) ]
  }

  /** The mock document line by line. */
  function MockLines(docType: string, provider: string, now: string): seq<MockLine>
  {
    MockHeader(docType, provider) + MockBody(ToLower(docType)) + MockFooter(now)
  }

  function Texts(lines: seq<MockLine>): (r: seq<string>)
    ensures |r| == |lines|
    ensures forall i :: 0 <= i < |lines| ==> r[i] == LineText(lines[i])
  {
    seq(|lines|, i requires 0 <= i < |lines| => LineText(lines[i]))
  }

  /** `generateMockResponse(prompt)` while the active provider name is `provider`. */
  function MockResponse(prompt: string, provider: string, now: string): string
  {
    Join(Texts(MockLines(DocType(prompt), provider, now)), '\n')
  }

  lemma MatchAtShift(a: string, b: string, c: string, x: string, j: nat)
    requires MatchAt(b, x, j)
    ensures MatchAt(a + b + c, x, |a| + j)
  {
    assert (a + b + c)[|a| + j..|a| + j + |x|] == b[j..j + |x|];
  }

  /** A piece's occurrence survives joining. */
  lemma {:induction false} JoinKeepsOccurrence(parts: seq<string>, sep: char, k: nat, x: string, j: nat)
    requires |parts| >= 1 && k < |parts|
    requires MatchAt(parts[k], x, j)
    ensures Includes(Join(parts, sep), x)
    decreases k
  {
    if k == 0 {
      if |parts| == 1 {
        IncludesAt(parts[0], x, j);
      } else {
        MatchAtShift("", parts[0], [sep] + Join(parts[1..], sep), x, j);
        assert "" + parts[0] + ([sep] + Join(parts[1..], sep)) == Join(parts, sep);
        IncludesAt(Join(parts, sep), x, j);
      }
    } else {
      JoinKeepsOccurrence(parts[1..], sep, k - 1, x, j);
      var rest := Join(parts[1..], sep);
      IndexOfSpec(rest, x);
      var i := IndexOf(rest, x).value;
      MatchAtShift(parts[0] + [sep], rest, "", x, i);
      assert parts[0] + [sep] + rest + "" == Join(parts, sep);
      IncludesAt(Join(parts, sep), x, |parts[0] + [sep]| + i);
    }
  }

  /** A run of consecutive pieces, joined, occurs in the whole join. */
  lemma JoinKeepsRun(parts: seq<string>, sep: char, a: nat, b: nat)
    requires a < b <= |parts|
    ensures Includes(Join(parts, sep), Join(parts[a..b], sep))
  {
    var x := Join(parts[a..b], sep);
    var tail := parts[a..];
    var post := "";
    if b < |parts| {
      JoinSplitAt(tail, sep, b - a);
      assert tail[..b - a] == parts[a..b];
      post := [sep] + Join(tail[b - a..], sep);
    } else {
      assert tail == parts[a..b];
    }
    assert Join(tail, sep) == x + post;
    var pre := "";
    if a > 0 {
      JoinSplitAt(parts, sep, a);
      pre := Join(parts[..a], sep) + [sep];
    } else {
      assert parts == tail;
    }
    assert Join(parts, sep) == pre + x + post;
    assert MatchAt(x, x, 0);
    MatchAtShift(pre, x, post, x, 0);
    IncludesAt(Join(parts, sep), x, |pre|);
  }

  /** The Success Criteria section: heading, table header, rule, three rows, blank line. */
  const CriteriaSection := [Fixed(24), Fixed(25), Fixed(26), Fixed(27), Fixed(28), Fixed(29), Fixed(0)]

  /** The Next Steps section between blank lines: heading and four numbered items. */
  const NextStepsSection := [Fixed(0), Fixed(30), Fixed(31), Fixed(32), Fixed(33), Fixed(34), Fixed(0)]

  lemma MockBodySections(lower: string)
    ensures MockBody(lower)[25..32] == CriteriaSection
    ensures MockBody(lower)[31..38] == NextStepsSection
  {
  }

  lemma MockLinesBody(docType: string, provider: string, now: string)
    ensures |MockLines(docType, provider, now)| == 56
    ensures MockLines(docType, provider, now)[13..51] == MockBody(ToLower(docType))
  {
    var h := MockHeader(docType, provider);
    var b := MockBody(ToLower(docType));
    assert |b| == 38;
    assert (h + b + MockFooter(now))[13..51] == b;
  }

  lemma TextsSlice(lines: seq<MockLine>, a: nat, b: nat)
    requires a <= b <= |lines|
    ensures Texts(lines)[a..b] == Texts(lines[a..b])
  {
  }

  /** A section of the mock's lines occurs, joined, in the document. */
  lemma MockKeepsSection(prompt: string, provider: string, now: string, at: nat, section: seq<MockLine>)
    requires |section| >= 1 && 13 <= at && at + |section| <= 51
    requires MockBody(ToLower(DocType(prompt)))[at - 13..at - 13 + |section|] == section
    ensures Includes(MockResponse(prompt, provider, now), Join(Texts(section), '\n'))
  {
    var lines := MockLines(DocType(prompt), provider, now);
    MockLinesBody(DocType(prompt), provider, now);
    assert lines[at..at + |section|] == lines[13..51][at - 13..at - 13 + |section|];
    TextsSlice(lines, at, at + |section|);
    JoinKeepsRun(Texts(lines), '\n', at, at + |section|);
  }

  /**
   * The Success Criteria section appears as consecutive lines: its heading,
   * the table header, the rule and exactly three rows. Next Steps follows as
   * its heading and four numbered items between blank lines.
   */
  lemma MockSuccessCriteria(prompt: string, provider: string, now: string)
    ensures Includes(MockResponse(prompt, provider, now), Join(Texts(CriteriaSection), '\n'))
    ensures Includes(MockResponse(prompt, provider, now), Join(Texts(NextStepsSection), '\n'))
  {
    MockBodySections(ToLower(DocType(prompt)));
    MockKeepsSection(prompt, provider, now, 38, CriteriaSection);
    MockKeepsSection(prompt, provider, now, 44, NextStepsSection);
  }

  /** The mock document opens with the title line naming the document type. */
  lemma MockTitle(prompt: string, provider: string, now: string)
    ensures StartsWith(MockResponse(prompt, provider, now), "# " + DocType(prompt) + " - Sample Document\n")
  {
    var lines := MockLines(DocType(prompt), provider, now);
    var texts := Texts(lines);
    assert texts[0] == "# " + DocType(prompt) + " - Sample Document";
    assert Join(texts, '\n') == texts[0] + ['\n'] + Join(texts[1..], '\n');
  }

  /** The mock document names the active provider verbatim, and its notice uses the provider's label. */
  lemma MockNamesProvider(prompt: string, provider: string, now: string)
    ensures Includes(MockResponse(prompt, provider, now), provider)
    ensures Includes(MockResponse(prompt, provider, now), "> - Your " + ProviderLabel(provider) + " quota has been exceeded, or")
  {
    var lines := MockLines(DocType(prompt), provider, now);
    var texts := Texts(lines);
    var pre := "> - No API key is configured for ";
    assert texts[4] == pre + provider;
    MatchAtShift(pre, provider, "", provider, 0);
    assert pre + provider + "" == texts[4];
    JoinKeepsOccurrence(texts, '\n', 4, provider, |pre|);
    assert MatchAt(texts[3], texts[3], 0);
    JoinKeepsOccurrence(texts, '\n', 3, texts[3], 0);
  }

  // ---------------------------------------------------------------------------
  // The client

  /** The client's fields as a value: each provider client is the API key it was built with. */
  datatype ClientState = ClientState(provider: string, openai: Option<string>, anthropic: Option<string>, gemini: Option<string>)

  function ClientOf(st: ClientState, p: Provider): Option<string>
  {
    match p
    case OpenAI => st.openai
    case Anthropic => st.anthropic
    case Gemini => st.gemini
  }

  /** `initializeClients` for one provider: a set key builds a new client; otherwise the old one (if any) stays. */
  function Rebuilt(client: Option<string>, key: Option<string>): (r: Option<string>)
    ensures Set(key) ==> r == key
    ensures !Set(key) ==> r == client
  {
    if Set(key) then key else client
  }

  function Initialized(st: ClientState, keys: ApiKeys): (r: ClientState)
    ensures r.provider == st.provider
  {
    st.(openai := Rebuilt(st.openai, keys.openai),
        anthropic := Rebuilt(st.anthropic, keys.anthropic),
        gemini := Rebuilt(st.gemini, keys.gemini))
  }

  /** Re-running `initializeClients` with the same keys changes nothing. */
  lemma InitializedIdempotent(st: ClientState, keys: ApiKeys)
    ensures Initialized(Initialized(st, keys), keys) == Initialized(st, keys)
  {
  }

  /** A provider has a client after initialisation exactly when its key is set or it had one before. */
  lemma InitializedClient(st: ClientState, keys: ApiKeys, p: Provider)
    ensures var key := match p case OpenAI => keys.openai case Anthropic => keys.anthropic case Gemini => keys.gemini;
      ClientOf(Initialized(st, keys), p).Some? <==> Set(key) || ClientOf(st, p).Some?
  {
  }

  /** The provider path `generateContent` takes; `None` is the mock. */
  function Route(st: ClientState): (r: Option<Provider>)
    ensures r.Some? ==> st.provider == NameOf(r.value) && ClientOf(st, r.value).Some?
    ensures r.None? <==> forall p: Provider :: !(st.provider == NameOf(p) && ClientOf(st, p).Some?)
  {
    if st.provider == "gemini" && st.gemini.Some? then Some(Gemini)
    else if st.provider == "anthropic" && st.anthropic.Some? then Some(Anthropic)
    else if st.provider == "openai" && st.openai.Some? then Some(OpenAI)
    else None
  }

  /** `generateContent(prompt, context)` on a client in state `st`. */
  function Generation(st: ClientState, prompt: string, context: string, api: Api, now: string): Generated
  {
    var full := FullPrompt(prompt, context);
    var inner :=
      match Route(st)
      case None => Generated(Ok(MockResponse(full, st.provider, now)), [])
      case Some(OpenAI) => OpenAIPath(st.openai.value, full, api)
      case Some(Anthropic) => AnthropicPath(st.anthropic.value, full, api)
      case Some(Gemini) => GeminiPath(st.gemini.value, full, api);
    match inner.result
    case Ok(_) => inner
    case Err(message) => Generated(Err(GenerateFailurePrefix + message), inner.tried)
  }

  /**
   * Without a usable client for the active provider (an unknown name, or a
   * known one whose client does not exist), generation answers with the mock
   * document, never fails, calls no provider, and names the provider.
   */
  lemma GenerationMockFallback(st: ClientState, prompt: string, context: string, api: Api, now: string)
    requires forall p: Provider :: !(st.provider == NameOf(p) && ClientOf(st, p).Some?)
    ensures Generation(st, prompt, context, api, now) == Generated(Ok(MockResponse(FullPrompt(prompt, context), st.provider, now)), [])
    ensures Includes(Generation(st, prompt, context, api, now).result.value, st.provider)
  {
    MockNamesProvider(FullPrompt(prompt, context), st.provider, now);
  }

  /** With a client for the active provider, generation takes that provider's path and no other. */
  lemma GenerationDispatch(st: ClientState, prompt: string, context: string, api: Api, now: string, p: Provider)
    requires st.provider == NameOf(p) && ClientOf(st, p).Some?
    ensures var full := FullPrompt(prompt, context);
      var inner := match p
        case OpenAI => OpenAIPath(st.openai.value, full, api)
        case Anthropic => AnthropicPath(st.anthropic.value, full, api)
        case Gemini => GeminiPath(st.gemini.value, full, api);
      Generation(st, prompt, context, api, now).tried == inner.tried
      && (Generation(st, prompt, context, api, now).result.Ok? <==> inner.result.Ok?)
      && (inner.result.Ok? ==> Generation(st, prompt, context, api, now).result == inner.result)
      && (inner.result.Err? ==> Generation(st, prompt, context, api, now).result == Err(GenerateFailurePrefix + inner.result.message))
  {
    assert Route(st) == Some(p);
  }

  /** Every failure surfaces with the fixed prefix; a quota failure included, with no mock fallback. */
  lemma GenerationErrorsWrapped(st: ClientState, prompt: string, context: string, api: Api, now: string)
    ensures var g := Generation(st, prompt, context, api, now);
      g.result.Err? ==> |GenerateFailurePrefix| <= |g.result.message| && g.result.message[..|GenerateFailurePrefix|] == GenerateFailurePrefix
  {
  }

  /** The Anthropic path has no quota rule: a 429 surfaces as the wrapped message of the failure itself. */
  lemma GenerationAnthropic429(st: ClientState, prompt: string, context: string, api: Api, now: string, message: string)
    requires st.provider == "anthropic" && st.anthropic.Some?
    requires api(Anthropic, Request(AnthropicModel, st.anthropic.value, None, FullPrompt(prompt, context), MaxTokens)) == Failed(Some(429), message)
    ensures Generation(st, prompt, context, api, now) == Generated(Err(GenerateFailurePrefix + message), [AnthropicModel])
  {
    assert Route(st) == Some(Anthropic);
  }

  /** An OpenAI 429 on the first model surfaces as the wrapped quota message after one attempt. */
  lemma GenerationOpenAIQuota(st: ClientState, prompt: string, context: string, api: Api, now: string, message: string)
    requires st.provider == "openai" && st.openai.Some?
    requires OpenAICall(st.openai.value, FullPrompt(prompt, context), api)("gpt-4o-mini") == Failed(Some(429), message)
    ensures Generation(st, prompt, context, api, now) == Generated(Err(GenerateFailurePrefix + OpenAIQuotaMessage), ["gpt-4o-mini"])
  {
    OpenAIQuotaAborts(st.openai.value, FullPrompt(prompt, context), api, message);
    assert Route(st) == Some(OpenAI);
  }

  /** The stateful client: the active provider name and the provider clients that exist. */
  class LLMClient {
    var provider: string
    var openai: Option<string>
    var anthropic: Option<string>
    var gemini: Option<string>

    function State(): ClientState
      reads this
    {
      ClientState(provider, openai, anthropic, gemini)
    }

    /** `this.provider = process.env.LLM_PROVIDER || 'openai'`, then `initializeClients()`. */
    constructor (env: ProcessEnv)
      ensures State() == Initialized(ClientState(OrDefault(env.llmProvider, "openai"), None, None, None), env.Keys())
    {
      provider := OrDefault(env.llmProvider, "openai");
      openai, anthropic, gemini := None, None, None;
      new;
      InitializeClients(env);
    }

    /** Builds a client for every provider whose key is set; leaves the others as they were. */
    method InitializeClients(env: ProcessEnv)
      modifies this
      ensures State() == Initialized(old(State()), env.Keys())
    {
      if Set(env.openaiApiKey) {
        openai := env.openaiApiKey;
      }
      if Set(env.anthropicApiKey) {
        anthropic := env.anthropicApiKey;
      }
      if Set(env.geminiApiKey) {
        gemini := env.geminiApiKey;
      }
    }

    method GenerateWithOpenAI(prompt: string, api: Api) returns (r: Result<string>, ghost tried: seq<string>)
      requires openai.Some?
      ensures r == OpenAIPath(openai.value, prompt, api).result
      ensures tried == OpenAIPath(openai.value, prompt, api).tried
    {
      var outcome;
      outcome, tried := TryModels(OpenAIModels, OpenAICall(openai.value, prompt, api), Status429, OpenAIQuotaMessage);
      FallbackShape(OpenAIModels, 0, OpenAICall(openai.value, prompt, api), Status429, OpenAIQuotaMessage);
      r := if outcome.Answered? then Ok(outcome.text) else Err(outcome.message);
    }

    method GenerateWithAnthropic(prompt: string, api: Api) returns (r: Result<string>, ghost tried: seq<string>)
      requires anthropic.Some?
      ensures r == AnthropicPath(anthropic.value, prompt, api).result
      ensures tried == AnthropicPath(anthropic.value, prompt, api).tried
    {
      var response := api(Anthropic, Request(AnthropicModel, anthropic.value, None, prompt, MaxTokens));
      tried := [AnthropicModel];
      r := if response.Replied? then Ok(response.text) else Err(response.message);
    }

    /** The Gemini loop; its outer `catch` rethrows the error unchanged. */
    method GenerateWithGemini(prompt: string, api: Api) returns (r: Result<string>, ghost tried: seq<string>)
      requires gemini.Some?
      ensures r == GeminiPath(gemini.value, prompt, api).result
      ensures tried == GeminiPath(gemini.value, prompt, api).tried
    {
      var outcome;
      outcome, tried := TryModels(GeminiModels, GeminiCall(gemini.value, prompt, api), QuotaInMessage, GeminiQuotaMessage);
      FallbackShape(GeminiModels, 0, GeminiCall(gemini.value, prompt, api), QuotaInMessage, GeminiQuotaMessage);
      r := if outcome.Answered? then Ok(outcome.text) else Err(outcome.message);
    }

    method GenerateContent(prompt: string, context: string, api: Api, now: string)
      returns (r: Result<string>, ghost tried: seq<string>)
      ensures r == Generation(State(), prompt, context, api, now).result
      ensures tried == Generation(State(), prompt, context, api, now).tried
    {
      var fullPrompt := ReplaceFirst(prompt, Placeholder, context);
      var inner: Result<string>;
      if provider == "gemini" && gemini.Some? {
        inner, tried := GenerateWithGemini(fullPrompt, api);
      } else if provider == "anthropic" && anthropic.Some? {
        inner, tried := GenerateWithAnthropic(fullPrompt, api);
      } else if provider == "openai" && openai.Some? {
        inner, tried := GenerateWithOpenAI(fullPrompt, api);
      } else {
        inner := Ok(MockResponse(fullPrompt, provider, now));
        tried := [];
      }
      r := if inner.Err? then Err(GenerateFailurePrefix + inner.message) else inner;
    }
  }
}
