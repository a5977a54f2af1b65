/**
 * The two handlers of `server/server.js` that touch the generation client:
 * `POST /api/provider`, which switches the active provider and rebuilds the
 * clients, and `GET /api/status`, which reports the configuration and probes
 * the OpenAI and Gemini clients.
 *
 * The probes (`openai.models.list()` and a `'Test'` generation with
 * `gemini-1.5-flash`) are oracles from the client's key to their outcome.
 */
module Server {
  import opened Common
  import opened JsString
  import opened Environment
  import opened LlmClient

  // ---------------------------------------------------------------------------
  // POST /api/provider

  const InvalidProviderMessage := "Invalid provider. Must be: openai, anthropic, or gemini"

  datatype SwitchReply =
    | Switched(provider: string, message: string)  // 200 with `success: true`
    | SwitchRejected(error: string)                // 400

  /** `['openai', 'anthropic', 'gemini'].includes(provider)`: strict equality, so only those strings. */
  function ProviderNamed(f: JsonField): (r: Option<Provider>)
    ensures r.Some? <==> f.Str? && f.s in ["openai", "anthropic", "gemini"]
    ensures r.Some? ==> f.s == NameOf(r.value)
  {
    if f == Str("openai") then Some(OpenAI)
    else if f == Str("anthropic") then Some(Anthropic)
    else if f == Str("gemini") then Some(Gemini)
    else None
  }

  /** The client after a switch to `name`: the new provider, then `initializeClients`. */
  function SwitchedState(st: ClientState, name: string, keys: ApiKeys): (r: ClientState)
    ensures r.provider == name
  {
    Initialized(st.(provider := name), keys)
  }

  /** Switching twice to the same provider leaves the state of one switch. */
  lemma SwitchIdempotent(st: ClientState, name: string, keys: ApiKeys)
    ensures SwitchedState(SwitchedState(st, name, keys), name, keys) == SwitchedState(st, name, keys)
  {
    InitializedIdempotent(st.(provider := name), keys);
  }

  /** After a switch to a provider whose key is set, generation takes that provider's path. */
  lemma SwitchRoutesToKeyedProvider(st: ClientState, p: Provider, keys: ApiKeys)
    requires Set(match p case OpenAI => keys.openai case Anthropic => keys.anthropic case Gemini => keys.gemini)
    ensures Route(SwitchedState(st, NameOf(p), keys)) == Some(p)
  {
    InitializedClient(st.(provider := NameOf(p)), keys, p);
  }

  /** A switch to a provider that never had a key leaves generation on the mock. */
  lemma SwitchWithoutKeyMocks(st: ClientState, p: Provider, keys: ApiKeys)
    requires !Set(match p case OpenAI => keys.openai case Anthropic => keys.anthropic case Gemini => keys.gemini)
    requires ClientOf(st, p).None?
    ensures Route(SwitchedState(st, NameOf(p), keys)) == None
  {
    InitializedClient(st.(provider := NameOf(p)), keys, p);
    var r := Route(SwitchedState(st, NameOf(p), keys));
    if r.Some? {
      assert NameOf(r.value) == NameOf(p);
    }
  }

  /**
   * `POST /api/provider`: an unknown provider is rejected and nothing
   * changes; a known one is written to `LLM_PROVIDER` and to the client,
   * whose clients are then rebuilt from the unchanged keys.
   */
  method SwitchProvider(env: ProcessEnv, client: LLMClient, provider: JsonField) returns (reply: SwitchReply)
    modifies env, client
    ensures ProviderNamed(provider).None? ==>
      reply == SwitchRejected(InvalidProviderMessage) && unchanged(env) && unchanged(client)
    ensures ProviderNamed(provider).Some? ==>
      && reply == Switched(provider.s, "Successfully switched to " + provider.s)
      && env.llmProvider == Some(provider.s)
      && env.Keys() == old(env.Keys())
      && client.State() == SwitchedState(old(client.State()), provider.s, env.Keys())
  {
    if ProviderNamed(provider).None? {
      return SwitchRejected(InvalidProviderMessage);
    }
    var name := provider.s;
    env.llmProvider := Some(name);
    client.provider := name;
    client.InitializeClients(env);
    reply := Switched(name, "Successfully switched to " + name);
  }

  // ---------------------------------------------------------------------------
  // GET /api/status

  /** The outcome of `openai.models.list()`: the model ids, or the error's message. */
  datatype ModelListing = Listed(ids: seq<string>) | ListFailed(message: string)

  /**
   * The status object. An absent optional field is `None`. There is no
   * `anthropic_status`: the Anthropic client is never probed.
   */
  datatype Snapshot = Snapshot(
    timestamp: string,
    provider: string,
    openaiKeyPresent: bool,
    anthropicKeyPresent: bool,
    geminiKeyPresent: bool,
    openaiStatus: Option<string>,
    availableModels: Option<seq<string>>,
    openaiError: Option<string>,
    geminiStatus: Option<string>,
    geminiError: Option<string>)

  /** `ids.filter(id => id.includes('gpt'))`. */
  function GptIds(ids: seq<string>): (r: seq<string>)
    ensures |r| <= |ids|
    ensures forall k :: 0 <= k < |r| ==> Includes(r[k], "gpt") && r[k] in ids
  {
    if ids == [] then []
    else if Includes(ids[0], "gpt") then [ids[0]] + GptIds(ids[1..])
    else GptIds(ids[1..])
  }

  /**
   * The filter works id by id and keeps the listing order: filtering a
   * listing made of two parts is filtering each part, in turn.
   */
  lemma {:induction false} GptIdsConcat(a: seq<string>, b: seq<string>)
    ensures GptIds(a + b) == GptIds(a) + GptIds(b)
    decreases |a|
  {
    if a == [] {
      assert a + b == b;
    } else {
      assert (a + b)[0] == a[0] && (a + b)[1..] == a[1..] + b;
      GptIdsConcat(a[1..], b);
    }
  }

  /** A single id is kept exactly when it mentions `gpt`. */
  lemma GptIdsSingle(id: string)
    ensures GptIds([id]) == if Includes(id, "gpt") then [id] else []
  {
    assert [id][1..] == [];
  }

  /** The filter keeps every id that mentions `gpt`. */
  lemma {:induction false} GptIdsComplete(ids: seq<string>, k: nat)
    requires k < |ids| && Includes(ids[k], "gpt")
    ensures ids[k] in GptIds(ids)
    decreases k
  {
    if k > 0 {
      GptIdsComplete(ids[1..], k - 1);
    }
  }

  /** `available_models`: the first five `gpt` ids in listing order. */
  function AvailableModels(ids: seq<string>): (r: seq<string>)
    ensures |r| == if |GptIds(ids)| <= 5 then |GptIds(ids)| else 5
    ensures |r| <= |GptIds(ids)| && r == GptIds(ids)[..|r|]
    ensures |GptIds(ids)| <= 5 ==> r == GptIds(ids)
  {
    var gpt := GptIds(ids);
    if |gpt| <= 5 then gpt else gpt[..5]
  }

  /** With at most five `gpt` models, every one of them is listed. */
  lemma AvailableModelsComplete(ids: seq<string>, k: nat)
    requires k < |ids| && Includes(ids[k], "gpt")
    requires |GptIds(ids)| <= 5
    ensures ids[k] in AvailableModels(ids)
  {
    GptIdsComplete(ids, k);
  }

  /**
   * `GET /api/status`. `isoNow` stands for `new Date().toISOString()`;
   * `probed` logs which clients were probed.
   */
  method Status(env: ProcessEnv, client: LLMClient, isoNow: string,
                listModels: string -> ModelListing, geminiTest: string -> CallOutcome)
    returns (status: Snapshot, ghost probed: seq<Provider>)
    ensures status.timestamp == isoNow
    ensures status.provider == OrDefault(env.llmProvider, "openai")
    ensures status.openaiKeyPresent == Set(env.openaiApiKey)
    ensures status.anthropicKeyPresent == Set(env.anthropicApiKey)
    ensures status.geminiKeyPresent == Set(env.geminiApiKey)
    ensures OpenAI in probed <==> Set(env.openaiApiKey) && client.openai.Some?
    ensures Gemini in probed <==> Set(env.geminiApiKey) && client.gemini.Some?
    ensures Anthropic !in probed
    ensures status.openaiStatus.Some? <==> OpenAI in probed
    ensures status.geminiStatus.Some? <==> Gemini in probed
    ensures OpenAI in probed ==> match listModels(client.openai.value)
      case Listed(ids) =>
        status.openaiStatus == Some("connected") && status.availableModels == Some(AvailableModels(ids)) && status.openaiError == None
      case ListFailed(message) =>
        status.openaiStatus == Some("error") && status.availableModels == None && status.openaiError == Some(message)
    ensures OpenAI !in probed ==> status.availableModels == None && status.openaiError == None
    ensures Gemini in probed ==> match geminiTest(client.gemini.value)
      case Replied(_) => status.geminiStatus == Some("connected") && status.geminiError == None
      case Failed(_, message) => status.geminiStatus == Some("error") && status.geminiError == Some(message)
    ensures Gemini !in probed ==> status.geminiError == None
  {
    status := Snapshot(isoNow, OrDefault(env.llmProvider, "openai"),
                       Set(env.openaiApiKey), Set(env.anthropicApiKey), Set(env.geminiApiKey),
                       None, None, None, None, None);
    probed := [];
    if Set(env.openaiApiKey) && client.openai.Some? {
      probed := probed + [OpenAI];
      match listModels(client.openai.value)
      case Listed(ids) =>
        status := status.(openaiStatus := Some("connected"), availableModels := Some(AvailableModels(ids)));
      case ListFailed(message) =>
        status := status.(openaiStatus := Some("error"), openaiError := Some(message));
    }
    if Set(env.geminiApiKey) && client.gemini.Some? {
      probed := probed + [Gemini];
      match geminiTest(client.gemini.value)
      case Replied(_) =>
        status := status.(geminiStatus := Some("connected"));
      case Failed(_, message) =>
        status := status.(geminiStatus := Some("error"), geminiError := Some(message));
    }
  }
}
