/**
 * The generation routes (`server/routes/generate.js`): the template list, the
 * template lookup, and `POST /api/generate` with its validation, its call to
 * the generation client and its success and failure replies.
 *
 * The template store is an ordered list of (key, template) entries, in the
 * order `Object.keys` yields them. The reply timestamp (`toISOString`) and the
 * mock's local time stamp are parameters.
 */
module GenerateRoute {
  import opened Common
  import opened JsString
  import opened LlmClient

  // ---------------------------------------------------------------------------
  // Templates

  /** A stored template: its display name and its prompt with the `{{context}}` placeholder. */
  datatype Template = Template(name: string, prompt: string)

  /** An entry of the template list reply: `{ key, name }`. */
  datatype TemplateEntry = TemplateEntry(key: string, name: string)

  predicate DistinctKeys(store: seq<(string, Template)>)
  {
    forall a, b :: 0 <= a < b < |store| ==> store[a].0 != store[b].0
  }

  /** `GET /templates`: one entry per template key, in key order. */
  function TemplateList(store: seq<(string, Template)>): (entries: seq<TemplateEntry>)
    ensures |entries| == |store|
    ensures forall i :: 0 <= i < |store| ==> entries[i] == TemplateEntry(store[i].0, store[i].1.name)
  {
    if store == [] then [] else [TemplateEntry(store[0].0, store[0].1.name)] + TemplateList(store[1..])
  }

  /** `templates[type]`: the template stored under `key`, if any. */
  function FindTemplate(store: seq<(string, Template)>, key: string): (r: Option<Template>)
    ensures r.Some? ==> exists i :: 0 <= i < |store| && store[i] == (key, r.value)
    ensures r.None? <==> forall i :: 0 <= i < |store| ==> store[i].0 != key
  {
    if store == [] then None
    else if store[0].0 == key then Some(store[0].1)
    else
      var r := FindTemplate(store[1..], key);
      assert r.Some? ==> store[1..][IndexOfKey(store[1..], key, r.value)] == (key, r.value);
      r
  }

  /** A witness index for an entry known to exist. */
  ghost function IndexOfKey(store: seq<(string, Template)>, key: string, t: Template): (i: nat)
    requires exists i :: 0 <= i < |store| && store[i] == (key, t)
    ensures i < |store| && store[i] == (key, t)
  {
    var i :| 0 <= i < |store| && store[i] == (key, t); i
  }

  /** Under distinct keys, the lookup finds exactly the template stored under the key. */
  lemma {:induction false} FindTemplateAt(store: seq<(string, Template)>, i: nat)
    requires DistinctKeys(store)
    requires i < |store|
    ensures FindTemplate(store, store[i].0) == Some(store[i].1)
    decreases i
  {
    if i > 0 {
      assert store[0].0 != store[i].0;
      assert DistinctKeys(store[1..]) by {
        forall a, b | 0 <= a < b < |store[1..]| ensures store[1..][a].0 != store[1..][b].0 {
          assert store[a + 1].0 != store[b + 1].0;
        }
      }
      FindTemplateAt(store[1..], i - 1);
    }
  }

  /** The reply to `GET /template/:type`. */
  datatype TemplateReply = TemplateFound(template: Template) | TemplateNotFound(error: string)

  const TemplateNotFoundMessage := "Template not found"

  function TemplateStatus(reply: TemplateReply): int
  {
    if reply.TemplateFound? then 200 else 404
  }

  /** `GET /template/:type`: a template stored under the key, unchanged, or 404. */
  function GetTemplate(store: seq<(string, Template)>, key: string): (reply: TemplateReply)
    ensures TemplateStatus(reply) == 404 <==> forall i :: 0 <= i < |store| ==> store[i].0 != key
    ensures reply.TemplateNotFound? ==> reply.error == TemplateNotFoundMessage
    ensures reply.TemplateFound? ==> exists i :: 0 <= i < |store| && store[i] == (key, reply.template)
  {
    match FindTemplate(store, key)
    case Some(t) => TemplateFound(t)
    case None => TemplateNotFound(TemplateNotFoundMessage)
  }

  /** Under distinct keys, every stored key answers 200 with exactly its stored template. */
  lemma GetTemplateAt(store: seq<(string, Template)>, i: nat)
    requires DistinctKeys(store)
    requires i < |store|
    ensures GetTemplate(store, store[i].0) == TemplateFound(store[i].1)
    ensures TemplateStatus(GetTemplate(store, store[i].0)) == 200
  {
    FindTemplateAt(store, i);
  }

  /** Every key the list shows can be looked up, and yields the template whose name the list shows. */
  lemma ListedTemplatesFound(store: seq<(string, Template)>, i: nat)
    requires DistinctKeys(store)
    requires i < |TemplateList(store)|
    ensures var entry := TemplateList(store)[i];
      GetTemplate(store, entry.key).TemplateFound? && GetTemplate(store, entry.key).template.name == entry.name
  {
    FindTemplateAt(store, i);
  }

  // ---------------------------------------------------------------------------
  // POST /api/generate

  /** The fields of the request body the handler reads. */
  datatype GenerateRequest = GenerateRequest(docType: JsonField, prompt: JsonField, context: JsonField)

  /** The three replies: 200 with the content, 400 with an error, 500 with an error and the failure's message. */
  datatype GenerateReply =
    | GenerateSuccess(content: string, docType: string, timestamp: string)
    | GenerateRejected(error: string)
    | GenerateFailed(error: string, message: string)

  function GenerateStatus(reply: GenerateReply): int
  {
    match reply
    case GenerateSuccess(_, _, _) => 200
    case GenerateRejected(_) => 400
    case GenerateFailed(_, _) => 500
  }

  const MissingFieldsMessage := "Missing required fields: type, prompt, and context are required"
  const ContextTooLongMessage := "Context is too long. Please limit to 5000 characters."
  const GenerationFailedMessage := "Failed to generate document"
  const MaxContextLength := 5000

  /** A reply together with the models the generation client attempted for it. */
  datatype GenerateOutcome = GenerateOutcome(reply: GenerateReply, attempted: seq<string>)

  /**
   * `POST /api/generate` on a client in state `st`; `isoNow` stands for
   * `new Date().toISOString()` and `now` for the mock's local time stamp.
   */
  function HandleGenerate(st: ClientState, req: GenerateRequest, api: Api, now: string, isoNow: string): (out: GenerateOutcome)
    ensures out.reply.GenerateRejected? ==> out.attempted == []
  {
    if !Truthy(req.docType) || !Truthy(req.prompt) || !Truthy(req.context) then
      GenerateOutcome(GenerateRejected(MissingFieldsMessage), [])
    else if Utf16Length(req.context.s) > MaxContextLength then
      GenerateOutcome(GenerateRejected(ContextTooLongMessage), [])
    else
      var g := Generation(st, req.prompt.s, req.context.s, api, now);
      match g.result
      case Ok(content) => GenerateOutcome(GenerateSuccess(content, req.docType.s, isoNow), g.tried)
      case Err(message) => GenerateOutcome(GenerateFailed(GenerationFailedMessage, message), g.tried)
  }

  /** A missing, null or empty field is rejected before anything else, the context length included. */
  lemma GenerateMissingField(st: ClientState, req: GenerateRequest, api: Api, now: string, isoNow: string)
    requires !Truthy(req.docType) || !Truthy(req.prompt) || !Truthy(req.context)
    ensures HandleGenerate(st, req, api, now, isoNow) == GenerateOutcome(GenerateRejected(MissingFieldsMessage), [])
    ensures GenerateStatus(HandleGenerate(st, req, api, now, isoNow).reply) == 400
  {
  }

  /** A context of more than 5000 UTF-16 code units is rejected and no model is attempted. */
  lemma GenerateContextTooLong(st: ClientState, req: GenerateRequest, api: Api, now: string, isoNow: string)
    requires Truthy(req.docType) && Truthy(req.prompt) && Truthy(req.context)
    ensures HandleGenerate(st, req, api, now, isoNow).reply == GenerateRejected(ContextTooLongMessage)
        <==> Utf16Length(req.context.s) > MaxContextLength
  {
  }

  /** The bound is inclusive: 5000 characters of the Basic Multilingual Plane pass, 5001 do not. */
  lemma GenerateContextBoundary(st: ClientState, docType: string, prompt: string, context: string, api: Api, now: string, isoNow: string)
    requires docType != "" && prompt != "" && (|context| == 5000 || |context| == 5001)
    requires forall i :: 0 <= i < |context| ==> context[i] as int < 0x10000
    ensures var reply := HandleGenerate(st, GenerateRequest(Str(docType), Str(prompt), Str(context)), api, now, isoNow).reply;
      reply.GenerateRejected? <==> |context| == 5001
  {
    Utf16LengthBmp(context);
  }

  /** A request that passes validation gets exactly what the client generates, with the type echoed. */
  lemma GenerateAccepted(st: ClientState, req: GenerateRequest, api: Api, now: string, isoNow: string)
    requires Truthy(req.docType) && Truthy(req.prompt) && Truthy(req.context)
    requires Utf16Length(req.context.s) <= MaxContextLength
    ensures var g := Generation(st, req.prompt.s, req.context.s, api, now);
      var out := HandleGenerate(st, req, api, now, isoNow);
      out.attempted == g.tried
      && (g.result.Ok? <==> out.reply.GenerateSuccess?)
      && (g.result.Ok? ==> out.reply == GenerateSuccess(g.result.value, req.docType.s, isoNow))
      && (g.result.Err? ==> out.reply == GenerateFailed(GenerationFailedMessage, g.result.message))
  {
  }

  /** A 500 reply carries the client's wrapped message, so it always starts with the client's prefix. */
  lemma GenerateFailureMessage(st: ClientState, req: GenerateRequest, api: Api, now: string, isoNow: string)
    requires HandleGenerate(st, req, api, now, isoNow).reply.GenerateFailed?
    ensures var m := HandleGenerate(st, req, api, now, isoNow).reply.message;
      StartsWith(m, GenerateFailurePrefix)
  {
    GenerationErrorsWrapped(st, req.prompt.s, req.context.s, api, now);
  }

  /** Without a usable client every valid request succeeds, with the mock document. */
  lemma GenerateMockAlwaysSucceeds(st: ClientState, req: GenerateRequest, api: Api, now: string, isoNow: string)
    requires Truthy(req.docType) && Truthy(req.prompt) && Truthy(req.context)
    requires Utf16Length(req.context.s) <= MaxContextLength
    requires forall p: Provider :: !(st.provider == NameOf(p) && ClientOf(st, p).Some?)
    ensures HandleGenerate(st, req, api, now, isoNow) ==
      GenerateOutcome(GenerateSuccess(MockResponse(FullPrompt(req.prompt.s, req.context.s), st.provider, now), req.docType.s, isoNow), [])
  {
    GenerationMockFallback(st, req.prompt.s, req.context.s, api, now);
  }
}
