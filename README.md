# Product documentation generator: a verified model of the server core

This project models, in Dafny, the server side of a product-documentation
generator. A user picks a document template and supplies a context text. The
server fills the context into the template's prompt and asks a language-model
provider (OpenAI, Anthropic or Gemini) for the document. Without a usable
provider it answers with an offline mock document. It then exports the
markdown result as PDF, DOCX or markdown.

The model covers:

- **`LlmClient`** (`server/utils/llmClient.js`)
  - The stateful `LLMClient` class: the active provider and the provider clients that exist.
  - How clients are (re)built from the API keys.
  - Prompt building with `String.prototype.replace`, including its `$` substitution patterns.
  - Dispatch to the active provider.
  - The ordered model-fallback loops of the OpenAI and Gemini paths, with their quota rules. One loop method is proved equal to the recursive function `Fallback`, and a ghost log records the models attempted.
  - The single-call Anthropic path.
  - Wrapping of failures.
  - The mock document, line by line.
- **`FileGenerators`** (`server/utils/fileGenerators.js`)
  - The DOCX line classifier and the loop that builds the paragraph list.
  - The PDF plain-text derivation.
  - Markdown as UTF-8 bytes (section 3 of RFC 3629), with an encoder, a strict decoder and their round trip.
  - The download metadata of each format.
- **`GenerateRoute`** (`server/routes/generate.js`): the template list, the template lookup, and the validation and reply of `POST /api/generate`.
- **`ExportRoute`** (`server/routes/export.js`): the validation of `POST /api/export`, the case-insensitive format dispatch, the default filename and the download headers.
- **`Server`** (`server/server.js`): the provider switch, which mutates the process environment and the client, and the status snapshot, with its probes as inputs.
- **`JsString`, `Utf8`, `Common`, `Environment`**: the JavaScript built-ins the core relies on, plus shared types and the process environment. The built-ins follow their ECMAScript definitions, except that `toLowerCase` maps only the characters listed under "## Left out".
  - Built-ins: `indexOf`/`includes`, `startsWith`/`endsWith`, `substring` with its argument clamping and swapping, `trim` over the ECMAScript white-space set, `split` on one character, `toLowerCase`, first-occurrence `replace`, and `length` in UTF-16 code units.
  - Shared types: request fields that may be absent, `null` or a string, and truthiness.

Provider SDKs, the DOCX packer, the PDF renderer and the status probes are
oracles passed as parameters. The clock readings (`toISOString`, `toLocaleString`)
are string parameters. The template store is an ordered list of entries.

Three details of the code are easy to misread, and the model follows the code in each:

- `generateContent` rethrows every error with the prefix `Failed to generate content: ` (llmClient.js:46-49), so provider errors never surface unchanged.
- The mock document's Key Features list has four items (llmClient.js:183-186).
- The 5000-character limit on the context is a test on `context.length`, which counts UTF-16 code units (generate.js:53).

## Model

| member | source | states |
|---|---|---|
| Common.OrDefault | server/server.js:57 | `v \|\| fallback` for an environment variable: the value when it is a non-empty string, otherwise the fallback |
| JsString.IndexFromSpec | server/utils/llmClient.js:33 | a search from a position finds the least occurrence at or after it, or none when there is none |
| JsString.IndexOfSpec | server/utils/llmClient.js:33 | the index found is an occurrence with no earlier one; none is found exactly when the pattern occurs nowhere |
| JsString.IndexOfAt | server/utils/llmClient.js:33 | an occurrence with no earlier one is the index reported |
| JsString.IncludesIff | server/utils/llmClient.js:158-163 | `includes` holds exactly when the pattern occurs at some position |
| JsString.ExcludedByFirstChar | server/utils/llmClient.js:140 | a pattern whose first character is absent from the text is not included |
| JsString.Substring | server/utils/fileGenerators.js:69 | `substring` with in-range bounds returns the slice between them, taken in either order |
| JsString.SubstringClamped | server/utils/fileGenerators.js:69 | a negative bound counts as 0 and a bound past the end as the length, in either argument; one bound at or below 0 with the other at or past the end gives the whole string |
| JsString.TrimStartSuffix | server/utils/fileGenerators.js:49 | trimming the start keeps a suffix that does not begin with white space |
| JsString.TrimEndPrefix | server/utils/fileGenerators.js:49 | trimming the end keeps a prefix that does not end with white space |
| JsString.TrimEmptyIff | server/utils/fileGenerators.js:49 | `trim()` yields the empty string exactly when every character is ECMAScript white space or a line terminator |
| JsString.SplitCount | server/utils/fileGenerators.js:45 | `split('\n')` yields one more piece than there are newlines |
| JsString.SplitPiecesFree | server/utils/fileGenerators.js:45 | no piece of `split('\n')` contains a newline |
| JsString.SplitJoin | server/utils/fileGenerators.js:45 | joining the pieces with newlines gives the text back |
| JsString.ToLower | server/routes/export.js:17 | `toLowerCase` keeps the length and maps each character on its own |
| JsString.ToLowerUnchanged | server/routes/export.js:17 | text with no character that lower-casing changes is its own lower case |
| JsString.SubstitutionLiteral | server/utils/llmClient.js:33 | a replacement without `$` is inserted literally |
| JsString.SubstitutionMatched | server/utils/llmClient.js:33 | `$&` between two `$`-free parts stands for the matched text |
| JsString.SubstitutionSpecials | server/utils/llmClient.js:33 | `Substitution` (GetSubstitution): `$$` gives one `$`, `` $` `` the text before the match, `$'` the text after it, and a final `$` stays |
| JsString.ReplaceFirstAbsent | server/utils/llmClient.js:33 | `ReplaceFirst` returns a string without the pattern unchanged |
| JsString.ReplaceFirstAt | server/utils/llmClient.js:33 | `ReplaceFirst` replaces the first occurrence by the substituted replacement and keeps the text before and after it verbatim |
| JsString.Utf16Length | server/routes/generate.js:53 | `length` counts between one and two code units per character |
| JsString.Utf16LengthBmp | server/routes/generate.js:53 | characters of the Basic Multilingual Plane count as one code unit each |
| Utf8.EncodeChar | server/utils/fileGenerators.js:101 | one to four octets per character, one exactly for ASCII, continuation octets after the first |
| Utf8.DecodeFirstEncodeChar | server/utils/fileGenerators.js:101 | the decoder reads back the character the encoder wrote, whatever follows |
| Utf8.DecodeEncode | server/utils/fileGenerators.js:101 | decoding the UTF-8 encoding of any string gives the string back |
| Utf8.EncodeInjective | server/utils/fileGenerators.js:101 | distinct strings have distinct byte buffers |
| Utf8.EncodeAsciiLength | server/utils/fileGenerators.js:101 | ASCII text takes one byte per character |
| LlmClient.FullPromptWithoutPlaceholder | server/utils/llmClient.js:33 | `FullPrompt` sends a template without `{{context}}` unchanged |
| LlmClient.FullPromptReplacesFirst | server/utils/llmClient.js:33 | `FullPrompt` replaces only the first placeholder by a `$`-free context; text before it and after it, later placeholders included, is kept verbatim |
| LlmClient.FullPromptDollarAmpersand | server/utils/llmClient.js:33 | a `$&` in an otherwise `$`-free context inserts the matched placeholder itself at the first placeholder's position, as `replace` defines |
| LlmClient.FallbackShape | server/utils/llmClient.js:56-91 | `Fallback`: every run over a non-empty list tries a prefix of the list in order; each model before the last one tried failed without quota; that last one's result decides the outcome; the loop never returns `undefined` |
| LlmClient.QuotaRules | server/utils/llmClient.js:79-143 | `IsQuota`: the OpenAI rule (`Status429`) looks at the status alone, which must be 429; the Gemini rule (`QuotaInMessage`) looks at the message alone, which must contain `quota` or `429` |
| LlmClient.FallbackMovesOn | server/utils/llmClient.js:75-88 | a non-quota failure of a model other than the list's last entry moves on, prepending that model to the attempt log |
| LlmClient.FallbackStopsHere | server/utils/llmClient.js:75-88 | any other result ends the run at that model and decides its outcome |
| LlmClient.FallbackStopsAt | server/utils/llmClient.js:56-83 | the first reply, or the first quota failure, ends the loop; no later model is tried |
| LlmClient.FallbackExhausted | server/utils/llmClient.js:85-88 | when every model fails without quota, all are tried and the last model's own error is rethrown |
| LlmClient.FallbackEmpty | server/utils/llmClient.js:56-92 | over an empty list the loop falls through (`undefined`) |
| LlmClient.TryModels | server/utils/llmClient.js:56-91 | the imperative loop returns exactly the outcome and the attempt log of the recursive function `Fallback` |
| LlmClient.Settle | server/utils/llmClient.js:75-88 | a finished run becomes a reply or a thrown message, and keeps its attempt log |
| LlmClient.AnthropicPath | server/utils/llmClient.js:94-107 | one call to one model with no fallback and no quota rule: its reply text is the result, and any failure, a 429 included, passes its own message on |
| LlmClient.OpenAIPath | server/utils/llmClient.js:52-92 | a non-empty prefix of the three OpenAI models is tried; every model before the last one tried failed without a 429; the last one tried decides: its reply, the OpenAI quota message after a 429, or its own error, and a non-quota failure ends the run only at the third model |
| LlmClient.GeminiPath | server/utils/llmClient.js:109-154 | a non-empty prefix of the three Gemini models is tried; every model before the last one tried failed without `quota` or `429` in its message; the last one tried decides: its reply, the Gemini quota message when the error mentions `quota` or `429`, or its own error, and a non-quota failure ends the run only at the third model |
| LlmClient.OpenAISecondModelAnswers | server/utils/llmClient.js:54-90 | when `gpt-4o-mini` fails without a 429 and `gpt-4o` replies, that reply is returned and `gpt-3.5-turbo` is never tried |
| LlmClient.OpenAIQuotaAborts | server/utils/llmClient.js:80-83 | a 429 from the first OpenAI model throws the OpenAI quota message after one attempt |
| LlmClient.OpenAIAllFail | server/utils/llmClient.js:85-88 | three non-quota failures try all three OpenAI models and rethrow the error of `gpt-3.5-turbo` |
| LlmClient.GeminiQuotaByMessage | server/utils/llmClient.js:140-143 | a Gemini failure whose message mentions `quota` throws the Gemini quota message after one attempt |
| LlmClient.GeminiServiceUnavailable | server/utils/llmClient.js:140 | a status of 429 with a message mentioning neither `quota` nor `429` is not a Gemini quota failure |
| LlmClient.GeminiStatusIgnored | server/utils/llmClient.js:112-148 | a 429 status whose message mentions neither `quota` nor `429` does not stop the Gemini loop: the next model is tried and its reply returned |
| LlmClient.FirstKeyword | server/utils/llmClient.js:158-163 | the reference classifier returns a keyword of the list that the prompt contains, or nothing when it contains none |
| LlmClient.FirstKeywordEarliest | server/utils/llmClient.js:158-163 | the keyword found is the earliest in the list that the prompt contains: no keyword before it occurs in the prompt |
| LlmClient.DocTypeFirstMatch | server/utils/llmClient.js:158-163 | `DocType`, the ternary chain, equals the first match over PRD, FRD, UAT, User Stories, Acceptance Criteria, Meeting Minutes, falling back to `Document` |
| LlmClient.DocTypePrdFirst | server/utils/llmClient.js:158 | a prompt containing `PRD` is a PRD whatever else it contains |
| LlmClient.ProviderLabel | server/utils/llmClient.js:168 | the notice shows OpenAI for `openai`, Anthropic for `anthropic` and Gemini for any other provider |
| LlmClient.MockHeader | server/utils/llmClient.js:165-177 | the mock opens with the title line, then the quota reason with the provider's label, then the key reason with the raw provider name |
| LlmClient.MockSuccessCriteria | server/utils/llmClient.js:203-215 | `MockResponse` holds the Success Criteria section as consecutive lines (heading, table header, rule, three rows) and the Next Steps heading with its four items |
| LlmClient.JoinKeepsRun | server/utils/llmClient.js:165-220 | consecutive lines of the mock, joined, occur in the joined document |
| LlmClient.JoinKeepsOccurrence | server/utils/llmClient.js:165-220 | text occurring in one line of the mock occurs in the joined document |
| LlmClient.MockTitle | server/utils/llmClient.js:165 | `MockResponse` starts with `# {docType} - Sample Document` and a newline |
| LlmClient.MockNamesProvider | server/utils/llmClient.js:168-169 | `MockResponse` contains the provider's name and the quota line with its label |
| LlmClient.Rebuilt | server/utils/llmClient.js:13-29 | a set key builds a client with that key; otherwise the existing client, if any, stays |
| LlmClient.Initialized | server/utils/llmClient.js:11-30 | `initializeClients` never changes the active provider |
| LlmClient.InitializedIdempotent | server/utils/llmClient.js:11-30 | re-running `initializeClients` with the same keys changes nothing |
| LlmClient.InitializedClient | server/utils/llmClient.js:11-30 | after initialisation a provider has a client exactly when its key is set or it had one before |
| LlmClient.Route | server/utils/llmClient.js:36-45 | a provider path is taken only when the provider's name is active and its client exists; the mock is taken exactly when no provider qualifies |
| LlmClient.GenerationMockFallback | server/utils/llmClient.js:42-45 | `Generation` without a usable client returns the mock document for the full prompt, never fails, calls no provider, and names the provider |
| LlmClient.GenerationDispatch | server/utils/llmClient.js:36-41 | `Generation` with a usable client takes that provider's path alone, and passes its reply or its wrapped error on |
| LlmClient.GenerationErrorsWrapped | server/utils/llmClient.js:46-49 | every failure message of `Generation` starts with `Failed to generate content: ` |
| LlmClient.GenerationOpenAIQuota | server/utils/llmClient.js:46-49 | an OpenAI quota failure surfaces wrapped, with no mock fallback |
| LlmClient.GenerationAnthropic429 | server/utils/llmClient.js:94-107 | an Anthropic 429 surfaces as the wrapped message of the failure itself, after one attempt |
| LlmClient.LLMClient.constructor | server/utils/llmClient.js:6-9 | the provider is `LLM_PROVIDER` or `openai`, and the clients are those the keys build |
| LlmClient.LLMClient.InitializeClients | server/utils/llmClient.js:11-30 | the new client state is the old one rebuilt from the environment's keys |
| LlmClient.LLMClient.GenerateWithOpenAI | server/utils/llmClient.js:52-92 | the method's result and attempt log are those of `OpenAIPath` |
| LlmClient.LLMClient.GenerateWithAnthropic | server/utils/llmClient.js:94-107 | the method's result and attempt log are those of `AnthropicPath` |
| LlmClient.LLMClient.GenerateWithGemini | server/utils/llmClient.js:109-154 | the method's result and attempt log are those of `GeminiPath`; the outer catch rethrows unchanged |
| LlmClient.LLMClient.GenerateContent | server/utils/llmClient.js:32-50 | the method's result and attempt log are those of `Generation` on the client's state |
| FileGenerators.ClassifyMarked | server/utils/fileGenerators.js:51-76 | a line that is not blank never becomes an empty paragraph |
| FileGenerators.ClassifyBlank | server/utils/fileGenerators.js:49-50 | exactly the lines of white space alone, the empty line included, become empty paragraphs |
| FileGenerators.HeadingPrefixesExclusive | server/utils/fileGenerators.js:51-65 | the three heading prefixes exclude one another |
| FileGenerators.ClassifyLineMarkup | server/utils/fileGenerators.js:48-78 | `ClassifyLine`: every non-blank line reads back from its paragraph (heading marker plus text, bold markers around the text, or the line itself), except `**` and `***` |
| FileGenerators.ClassifyHeading1 | server/utils/fileGenerators.js:51-55 | `# text` is a first-level heading with `text` |
| FileGenerators.ClassifyHeading2 | server/utils/fileGenerators.js:56-60 | `## text` is a second-level heading with `text` |
| FileGenerators.ClassifyHeading3 | server/utils/fileGenerators.js:61-65 | `### text` is a third-level heading with `text` |
| FileGenerators.ClassifyHashWithoutSpace | server/utils/fileGenerators.js:51-76 | `#x` is a plain paragraph |
| FileGenerators.ClassifyBold | server/utils/fileGenerators.js:66-72 | every line `**t**` becomes one bold run whose text is `t` (such a line never passes a heading test), for any `t` |
| FileGenerators.ClassifyShortBold | server/utils/fileGenerators.js:66-72 | with no length guard, `**` is bold `**`, `***` is bold `*`, and `****` is bold empty text |
| FileGenerators.ClassifyBoldWithCarriageReturn | server/utils/fileGenerators.js:45-76 | a bold line ending in a carriage return stays plain, since lines split on `\n` alone |
| FileGenerators.DocxParagraphs | server/utils/fileGenerators.js:45-78 | one paragraph per `\n`-separated line, in order: the newline count plus one |
| FileGenerators.BuildParagraphs | server/utils/fileGenerators.js:45-78 | the push loop produces exactly the paragraphs of `DocxParagraphs` |
| FileGenerators.DocxParagraphsMarkup | server/utils/fileGenerators.js:45-78 | each non-blank line is recovered from its paragraph, except the bold-marked lines `**` and `***`, which are too short to hold both markers |
| FileGenerators.DocxFile | server/utils/fileGenerators.js:80-96 | the packed bytes are returned as `<filename>.docx` with the DOCX content type; a packer failure is rethrown with `Failed to generate DOCX: ` |
| FileGenerators.GenerateDocx | server/utils/fileGenerators.js:42-97 | the method's result is `DocxFile` over the content: the same paragraphs, packing and name |
| FileGenerators.StripMarks | server/utils/fileGenerators.js:29 | the result holds none of `#`, `*`, `` ` ``, `_` |
| FileGenerators.StripMarksConcat | server/utils/fileGenerators.js:29 | deletion works character by character: it distributes over concatenation |
| FileGenerators.StripMarksKeeps | server/utils/fileGenerators.js:29 | text without marks is kept exactly |
| FileGenerators.StripMarksChar | server/utils/fileGenerators.js:29 | a single mark disappears, and any other character stays |
| FileGenerators.CollapsePairs | server/utils/fileGenerators.js:29 | collapsing newline pairs never lengthens the text |
| FileGenerators.CollapseRun | server/utils/fileGenerators.js:29 | a run of k newlines becomes ceil(k/2) newlines |
| FileGenerators.CollapseKeepsChar | server/utils/fileGenerators.js:29 | a character other than a newline is kept and the replacement goes on after it; with `CollapseRun` this fixes the result on every input |
| FileGenerators.CollapseRunPair | server/utils/fileGenerators.js:29 | in a run of two or more newlines the leading pair becomes one newline, and the rest of the run collapses on its own |
| FileGenerators.CollapseNoPair | server/utils/fileGenerators.js:29 | text without two consecutive newlines is unchanged |
| FileGenerators.CollapseIntroducesNothing | server/utils/fileGenerators.js:29 | every character of the collapsed text occurs in the input |
| FileGenerators.PlainText | server/utils/fileGenerators.js:29 | the PDF text holds no markdown mark and is no longer than the content |
| FileGenerators.PlainTextDeletesBeforeCollapsing | server/utils/fileGenerators.js:29 | deletion runs first: a line of marks alone leaves a blank line that then collapses |
| FileGenerators.PdfPage | server/utils/fileGenerators.js:25-33 | the page is titled `Product Documentation` and holds the plain text |
| FileGenerators.GeneratePdf | server/utils/fileGenerators.js:8-40 | the rendered bytes are returned as `<filename>.pdf` with `application/pdf`; a rendering error is passed on unchanged |
| FileGenerators.GenerateMarkdown | server/utils/fileGenerators.js:99-111 | the buffer is the content's UTF-8 encoding, one to four bytes per character; the file is `<filename>.md` with `text/markdown` |
| FileGenerators.MarkdownRoundTrip | server/utils/fileGenerators.js:101 | the markdown buffer decodes back to the content as UTF-8 |
| GenerateRoute.TemplateList | server/routes/generate.js:15-18 | one `{key, name}` entry per template, in key order |
| GenerateRoute.FindTemplate | server/routes/generate.js:29 | a template found is stored under the key; none is found exactly when no entry has the key |
| GenerateRoute.FindTemplateAt | server/routes/generate.js:29 | with distinct keys, the lookup returns the template stored under the key |
| GenerateRoute.GetTemplate | server/routes/generate.js:28-35 | 404 with `Template not found` exactly when no template has the key; otherwise 200 with a template stored under that key |
| GenerateRoute.GetTemplateAt | server/routes/generate.js:28-35 | with distinct keys, every stored key answers 200 with exactly its stored template |
| GenerateRoute.ListedTemplatesFound | server/routes/generate.js:15-35 | every listed key looks up to a template with the listed name |
| GenerateRoute.HandleGenerate | server/routes/generate.js:42-80 | a 400 reply attempts no model |
| GenerateRoute.GenerateMissingField | server/routes/generate.js:47-51 | a falsy type, prompt or context gives 400 with the missing-fields message, before the length test |
| GenerateRoute.GenerateContextTooLong | server/routes/generate.js:53-57 | once the fields are present, the too-long reply is given exactly when the context exceeds 5000 code units |
| GenerateRoute.GenerateContextBoundary | server/routes/generate.js:53 | a 5000-character context passes and a 5001-character one is rejected |
| GenerateRoute.GenerateAccepted | server/routes/generate.js:62-78 | a valid request gets the generated content with its type echoed and the timestamp, or 500 with the generation's message |
| GenerateRoute.GenerateFailureMessage | server/routes/generate.js:73-78 | a 500 reply's message starts with the client's failure prefix |
| GenerateRoute.GenerateMockAlwaysSucceeds | server/routes/generate.js:62-71 | without a usable client every valid request succeeds with the mock document |
| ExportRoute.ParseFormat | server/routes/export.js:17-37 | a format is accepted exactly when its lower-cased form is pdf, docx or markdown, and selects that generator |
| ExportRoute.DispositionSafe | server/routes/export.js:41 | the disposition header is acceptable exactly when the filename is |
| ExportRoute.Respond | server/routes/export.js:40-46 | the download carries the file's content type, `attachment; filename="<name>"` and the buffer's length; a filename Node rejects gives 500 |
| ExportRoute.Produce | server/routes/export.js:27-37 | markdown never fails and carries the content's UTF-8 bytes; PDF carries the rendered bytes as `application/pdf` and fails exactly when rendering does, with its message; DOCX carries the packed bytes with the DOCX MIME type and fails exactly when packing does, with the DOCX prefix; a file is named with the format's suffix |
| ExportRoute.HandleExport | server/routes/export.js:9-37 | 400 exactly when content or format is falsy or the format is unsupported |
| ExportRoute.ExportMissingField | server/routes/export.js:11-15 | a falsy content or format gives the missing-fields 400, empty strings included |
| ExportRoute.ToLowerIdempotent | server/routes/export.js:17 | lower-casing twice is lower-casing once |
| ExportRoute.ExportFormatCaseInsensitive | server/routes/export.js:17-37 | a format and its lower-cased form get the same reply |
| ExportRoute.ExportKelvinMarkdown | server/routes/export.js:17 | the Kelvin sign lower-cases to `k`, so `MARK` spelled with it is accepted as markdown |
| ExportRoute.ExportFilenameDefault | server/routes/export.js:9 | `FilenameOf`: only an absent filename defaults to `document`; `null` becomes `null`; a string is used as it is |
| ExportRoute.Deliver | server/routes/export.js:27-54 | a request that passes validation is never answered with a 400; a generator failure is a 500 carrying its message; a file is answered through the download headers |
| ExportRoute.ExportMarkdownReply | server/routes/export.js:17-46 | any spelling of markdown hands the content and the filename to the markdown generator and replies with its file |
| ExportRoute.ExportMarkdownDefault | server/routes/export.js:9-46 | any spelling of markdown with no filename downloads the content's UTF-8 bytes as `document.md` |
| ExportRoute.ExportMarkdownUpperCase | server/routes/export.js:27-37 | `MARKDOWN` yields the `.md` file |
| ExportRoute.ExportDocxFailure | server/routes/export.js:48-54 | a DOCX failure gives 500 with the DOCX-prefixed message |
| ExportRoute.ExportPdfFailure | server/routes/export.js:48-54 | a PDF rendering failure gives 500 with the renderer's message unchanged |
| ExportRoute.HeaderRefusesLineBreaks | server/routes/export.js:41 | `HeaderSafe`: a filename holding a carriage return or a line feed is refused, so it cannot split the headers |
| ExportRoute.UnsafeWithSuffix | server/routes/export.js:41 | a name Node refuses in a header stays refused whatever suffix follows |
| ExportRoute.ExportUnsafeFilename | server/routes/export.js:40-54 | a filename Node refuses in a header never downloads, in any format; a request that passes validation fails with 500 |
| ExportRoute.NonLatinFilename | server/routes/export.js:41 | `HeaderSafe` refuses a CJK character, which is outside Latin-1, and accepts `café` |
| ExportRoute.ExportDownload | server/routes/export.js:27-46 | every download holds the chosen generator's bytes, under headers derived from its file, named after the filename with the format's suffix |
| Server.ProviderNamed | server/server.js:25 | exactly the strings `openai`, `anthropic`, `gemini` are valid providers |
| Server.SwitchedState | server/server.js:30-35 | after a switch the client's provider is the new name |
| Server.SwitchIdempotent | server/server.js:30-35 | repeating a switch leaves the state of one switch |
| Server.SwitchRoutesToKeyedProvider | server/server.js:30-35 | after a switch to a provider whose key is set, generation takes that provider's path |
| Server.SwitchWithoutKeyMocks | server/server.js:30-35 | after a switch to a provider that never had a key, generation falls back to the mock |
| Server.SwitchProvider | server/server.js:22-44 | an invalid provider gives 400 and changes nothing; a valid one sets `LLM_PROVIDER` and the client's provider, rebuilds the clients and replies with the name |
| Server.GptIds | server/server.js:69 | every kept id mentions `gpt` and comes from the listing |
| Server.GptIdsComplete | server/server.js:69 | every id that mentions `gpt` is kept |
| Server.GptIdsConcat | server/server.js:69 | the filter keeps listing order: filtering two parts of a listing is filtering each part in turn |
| Server.GptIdsSingle | server/server.js:69 | a single id is kept exactly when it mentions `gpt` |
| Server.AvailableModels | server/server.js:69 | exactly min(5, n) ids for n `gpt` ids: the first ones in listing order |
| Server.AvailableModelsComplete | server/server.js:69 | with at most five `gpt` models all are listed |
| Server.Status | server/server.js:52-90 | key flags are the keys' truthiness; the provider is `LLM_PROVIDER` or `openai`; a client is probed only when its key and client exist, giving `connected` or `error` with the message; Anthropic is never probed |

## Left out

- Provider SDK network calls: they are an oracle from provider and request to a reply or a failure with an optional status. The model assumes an oracle answers the same request the same way.
- The sampling parameters (`temperature`, `topK`, `topP`): floating-point options the model never inspects.
- PDF and DOCX byte production (the pdfkit stream, `Packer.toBuffer`): foreign libraries, passed in as oracles over the page layout and the paragraph list. Page alignment and line gap are not part of the layout value.
- All `console.log` / `console.error` output.
- Express plumbing: routing, middleware, `/health`, the error and 404 handlers, `app.listen`, and reading `templates.json` from disk. Templates are an injected ordered list.
- `server/test-gemini.js` and `server/test-openai.js`: manual smoke-test scripts.
- The client files are not part of this model: they are user-interface code.
- Async interleaving between a provider switch and a generation in flight: every operation is sequential.
- Request fields of JSON types other than string, null or absent (numbers, arrays, objects): `JsonField` has only those three forms.
- A non-string `error.message` in the Gemini quota test: messages are strings.
- JsString.ToLower: `toLowerCase` on non-ASCII characters other than the Kelvin sign is not modelled; only mappings that can produce the ASCII letters of `pdf`, `docx`, `markdown` are modelled.
- GenerateRoute.FindTemplate: properties inherited from `Object.prototype` (such as `constructor`) are not found. The code would find them.
- GenerateRoute.TemplateList: the order is the store's order. Integer-like keys, which `Object.keys` lists first, are not reordered.
- Template objects carry only a name and a prompt; other members of a template object are not modelled.
- The 500 replies of the two template handlers (generate.js:20-22, 36-38): they cannot happen on the modelled store.
- The `catch` of `generateMarkdown`: `Buffer.from` on a string does not throw. Lone UTF-16 surrogates are outside Dafny's character type.
- The mock's `toLocaleString()` time stamp and the replies' `toISOString()` timestamps: string parameters.
- The exact byte content of the `openai.models.list()` probe reply beyond the model ids.

## Findings

None. Verification turned up behaviours that are easy to miss but are not evidently unintended: `**` and `***` as bold runs, and three newlines collapsing to two in the PDF text. Lemmas state them under "## Model".
