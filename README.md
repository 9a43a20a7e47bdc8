# Slavic love companion: form, session and provider-client model

A Dafny model of the logic of a browser app. The app collects birth data for
two people, asks a hosted generative-AI provider for a synastry narrative and
renders it. It also offers image generation, a chat panel, web-search-grounded
answers and a single-shot low-latency query. The model covers two classes.

- `AppComponent` (module `Session`) is the form and session controller. It
  holds the eight form fields (name, birth date, birth time and birth place
  for persons A and B), their error slots, and each action's output, loading
  flag and error. Each action is one method on the class. The awaited service
  call is a parameter `reply`: a value, or a failure with an optional message.
  The method returns the request it handed to the service, or `None` when the
  guard stopped it before any call.
- `GeminiService` (module `Gemini`) is the provider client. It covers API-key
  gating, the lazily created chat handle, streamed-chunk concatenation,
  grounding-URL extraction, the image data URI, the canned maps reply, and the
  replacement of every provider failure by the method's own fixed message.
  Each provider call is a parameter `provider` (or `stream`).

Module `Validation` holds the field rules, the Croatian messages, the map of
messages that one validation pass writes, and the sample couple. Module
`TextRules` holds JavaScript's `trim` and the `HH:MM` pattern
`^([01]\d|2[0-3]):([0-5]\d)$`. The pattern is proved to accept exactly the
times 00:00 to 23:59 written with two digits each. Module `Outcomes` holds the
shared `Option`, `Reply` and `GroundedAnswer` types.

Modelling choices:

- Error slots are a map `fieldErrors: map<FieldId, string>`. A slot is null
  exactly when its field is not a key.
- Date parsing is a parameter `parse: string -> Option<Day>`. The current day
  is a parameter `today`. "After today" compares (year, month, day)
  lexicographically.
- The reactive effects are explicit. The markdown effect is the invariant
  `Rendered()`: `analysisHtml == RenderedHtml(analysisResult, markdown)`. The
  renderer is a constant `string -> Option<string>`, where `None` means it
  threw. The field-error effects are part of `SetField`.
- An edit clears a field's error only when the value actually changes: the
  code clears through an effect on the field's signal, and setting a signal to
  an equal value does not re-run its effects.
- The image guard tests the prompt as it is, without trimming it. The
  low-latency action clears the previous response before its call.
- Two literals in `gemini.service.ts`, the configuration error and the maps
  reply, are stored in that file with mis-encoded Croatian letters. The model
  reproduces them character for character.

## Model

| member | source | states |
|---|---|---|
| `TextRules.TrimExact` | src/app.component.ts:264 | the trimmed input is empty exactly when the input is all ECMAScript whitespace; otherwise it is the slice left once whitespace is cut from both ends, and it starts and ends with a non-whitespace character |
| `TextRules.ClockPatternExact` | src/app.component.ts:173 | the time pattern accepts a string exactly when it is `HH:MM` for some hour 0-23 and minute 0-59, written with two digits each |
| `TextRules.ClockTextMatches` | src/app.component.ts:203 | every time of day from 00:00 to 23:59, written with two digits each, is accepted |
| `TextRules.MatchIsClockText` | src/app.component.ts:173 | an accepted string has hour below 24 and minute below 60 and is the two-digit rendering of that time |
| `TextRules.ClockPatternExamples` | src/app.component.ts:173 | "24:00", "9:30" and "12:60" are rejected; "00:00" and "23:59" are accepted |
| `Validation.WithValue` | src/app.component.ts:31-39 | replacing one field of a birth record sets that field and keeps the other three |
| `Validation.FieldProblemExact` | src/app.component.ts:153-180 | one field passes its checks exactly when it meets its rule (name and place required; date required, parsable and not after today; time matching HH:MM), and it is reported missing exactly when empty |
| `Validation.FailureMessagesExact` | src/app.component.ts:147-213 | a field gets a message in a validation pass exactly when it breaks its rule, so every failing field is reported, not only the first; the form passes exactly when no field gets one |
| `Validation.CheckOneMore` | src/app.component.ts:153-156 | running one more field check after others adds just that field's failure to the messages already written |
| `Validation.CheckBoth` | src/app.component.ts:182-210 | checking person B's fields after person A's writes the messages of both |
| `Validation.AcceptableIsFilled` | src/app.component.ts:52-63 | a form that passes validation has all eight fields non-empty, but a filled form can still fail (a time of "9:30") |
| `Validation.SampleDataAcceptable` | src/app.component.ts:133-145 | the sample couple passes validation and gets no messages, given that the host parses the two sample dates as written and today is not before 1985-08-15 |
| `Validation.TodayRejectedEastOfUtc` | src/app.component.ts:161-166 | on a host ahead of UTC the code's date test reports a birth date of today as future, although it is not after today |
| `Validation.AfterMatchesInstants` | src/app.component.ts:149-150 | for valid days the model's "after today" agrees with comparing the start instants of the two days on one clock |
| `Session.RenderedHtml` | src/app.component.ts:88-101 | the markup is empty exactly for an empty text (or empty renderer output); a non-empty text gets the renderer's output, or, when the renderer throws, an error block holding the raw text |
| `Session.ImagePromptFor` | src/app.component.ts:236 | the derived image prompt starts with the fixed opening, then has person A's name, then " and " and person B's name |
| `Session.AppComponent.constructor` | src/app.component.ts:31-84 | initial state: the two default names, every other field empty, no errors, no results, empty transcript, input tab, markup consistent |
| `Session.AppComponent.SetField` | src/app.component.ts:103-112 | editing a field sets it, keeps the other seven values, and removes exactly that field's error slot when the value changes (all other slots unchanged) |
| `Session.AppComponent.ClearValidationErrors` | src/app.component.ts:121-131 | all eight error slots become null |
| `Session.AppComponent.GenerateExampleAstroData` | src/app.component.ts:133-145 | the fields become the fixed sample values and all error slots are null |
| `Session.AppComponent.CheckField` | src/app.component.ts:153-156 | one field's check: the verdict is the field's rule, and only a failing field's slot is written, with its message |
| `Session.AppComponent.ValidatePerson` | src/app.component.ts:152-180 | the four checks of one person, each independent: the verdict is that person's rule and exactly that person's failing fields get messages |
| `Session.AppComponent.ValidateForm` | src/app.component.ts:147-213 | returns true exactly when all eight fields meet their rules; error slots become the old slots overwritten by the failure map (passing fields' slots untouched); field values untouched |
| `Session.AppComponent.OnSubmitAnalysis` | src/app.component.ts:215-243 | failed validation sets the aggregate error and makes no request, leaving result, prompt and tab unchanged; otherwise it requests with both records, and success stores the result, derives the prompt from both names and switches to results; failure sets only the error; loading ends false |
| `Session.AppComponent.RequestAnalysis` | src/app.component.ts:221-242 | the request step: success stores and renders the text, sets the image prompt and the results tab, clears the error; failure sets the message (or the fallback) and keeps earlier results |
| `Session.AppComponent.SetAnalysisResult` | src/app.component.ts:235 | storing an analysis text keeps the markup in step with it |
| `Session.AppComponent.OnGenerateImage` | src/app.component.ts:245-261 | an empty prompt sets the error and makes no request; otherwise success stores the image and clears the error, failure sets the error and keeps the earlier image |
| `Session.AppComponent.Exchange` | src/app.component.ts:267-279 | the shared chat step: one user entry is appended, the input cleared, then exactly one reply entry on success or an error on failure |
| `Session.AppComponent.OnChatSubmit` | src/app.component.ts:263-280 | blank trimmed input changes nothing and makes no request; otherwise the transcript grows by the user entry and, on success, one 'gemini' entry, earlier entries kept, input "" |
| `Session.AppComponent.GroundedExchange` | src/app.component.ts:282-299 | the shared shape of the grounded queries: the explicit query or the chat input, trimmed; the user entry carries the prefix and the reply keeps its URLs |
| `Session.AppComponent.OnSearchGrounding` | src/app.component.ts:282-299 | as OnChatSubmit, with the user entry "Search: " + query and the reply's URLs kept on the 'gemini' entry; success clears the chat error |
| `Session.AppComponent.OnMapsGrounding` | src/app.component.ts:301-318 | as OnChatSubmit, with the user entry "Maps: " + query and the reply's URLs kept on the 'gemini' entry; success clears the chat error |
| `Session.AppComponent.OnGetLowLatencyResponse` | src/app.component.ts:320-339 | blank input sets the error and makes no request; otherwise success stores the response, failure leaves it null and sets the error; transcript and input are never modified |
| `Gemini.GeminiService.constructor` | src/services/gemini.service.ts:10-25 | apiKeyMissing holds exactly when the key is absent, empty or the placeholder, or client construction threw; otherwise a fresh client exists; no chat handle yet |
| `Gemini.GeminiService.CheckApiKey` | src/services/gemini.service.ts:27-31 | fails, with the configuration error, exactly when the key is missing or there is no client |
| `Gemini.GeminiService.GenerateSynastryAnalysis` | src/services/gemini.service.ts:34-103 | configuration error without a key; otherwise the provider's text, or the fixed analysis error on any provider failure |
| `Gemini.GeminiService.GenerateImage` | src/services/gemini.service.ts:106-125 | configuration error without a key; otherwise a data URI whose payload is the first image's bytes, or the fixed image error on a provider failure or a reply with no image |
| `Gemini.GeminiService.StartChat` | src/services/gemini.service.ts:128-138 | idempotent: an existing handle is kept, a fresh one is created only when none exists and a key is configured |
| `Gemini.GeminiService.SendMessageToChat` | src/services/gemini.service.ts:140-158 | configuration error without a key; otherwise a handle exists afterwards (an existing one kept) and the reply is the in-order concatenation of the streamed chunks, or the fixed chat error |
| `Gemini.GeminiService.GetLowLatencyResponse` | src/services/gemini.service.ts:161-176 | configuration error without a key; otherwise the provider's text, or the fixed low-latency error |
| `Gemini.GeminiService.SearchGrounding` | src/services/gemini.service.ts:179-204 | configuration error without a key; otherwise the reply text with the URLs of the first candidate's grounding chunks, or the fixed search error |
| `Gemini.GeminiService.MapsGrounding` | src/services/gemini.service.ts:207-216 | no provider input; configuration error without a key, otherwise always the fixed text with an empty URL list |
| `Gemini.AccumulateChunks` | src/services/gemini.service.ts:149-153 | the loop that starts from "" and appends each chunk returns the concatenation of all chunks in order |
| `Gemini.ConcatAppend` | src/services/gemini.service.ts:150-152 | concatenating a stream split in two is concatenating each part, then joining |
| `Gemini.ConcatPlacesChunk` | src/services/gemini.service.ts:151 | chunk k appears in the joined reply right after the text of the chunks before it |
| `Gemini.CollectWebUris` | src/services/gemini.service.ts:190-197 | the forEach loop pushes exactly the URLs that WebUris lists, in chunk order |
| `Gemini.WebUrisAppend` | src/services/gemini.service.ts:192-196 | the URL list of consecutive chunk runs is the lists of the runs, joined in order |
| `Gemini.WebUrisExact` | src/services/gemini.service.ts:193-195 | a URL is collected exactly when some chunk carries it as a non-empty `web.uri`, and there are no more URLs than chunks |
| `Gemini.WebUrisSkipsChunkWithoutUrl` | src/services/gemini.service.ts:191-196 | three chunks of which the middle one has no URL give exactly the two URLs, in order |
| `Gemini.DataUri` | src/services/gemini.service.ts:119-120 | the data URI starts with "data:image/jpeg;base64," and stripping that prefix gives back the image bytes |
| `Gemini.DataUriInjective` | src/services/gemini.service.ts:120 | distinct image payloads give distinct data URIs |

## Findings

| source | as written | input that shows it | evidently intended | confidence | as-written member | corrected member |
|---|---|---|---|---|---|---|
| src/app.component.ts:149-150, 161-166 | the typed date is parsed as midnight UTC and compared with midnight of today on the local clock | host clock two hours ahead of UTC, birth date equal to today's date | a birth date of today is accepted; only later dates are rejected | not executed; high (the date-only form of the date parser is UTC by the ECMAScript standard, and the time is set on the local clock) | `Validation.TodayRejectedEastOfUtc` (over `Validation.FutureAsWritten`) | `Validation.AfterMatchesInstants` (over `Validation.After`, which the field rule uses) |

## Left out

- The provider SDK calls (`generateContent`, `generateImages`, `chats.create`, `sendMessageStream`) are network calls. Each is a `Reply` parameter. A chat handle is a fresh object with no behaviour.
- The analysis prompt template and the model identifiers and configurations are not modelled. `GenerateSynastryAnalysis` takes the two records but does not build the prompt.
- The markdown library is the `markdown` parameter, and its options are not modelled.
- JavaScript date parsing and time zones: `parse` is abstract. The model's "after today" is the comparison of calendar days. The code's own UTC-against-local comparison is modelled only in the finding above.
- Concurrency: each action is one atomic step. So the `loading*` flags are only seen false, between actions (`Valid()`), and overlapping requests that race to overwrite a slot are not modelled.
- `ngOnInit` is not a method of the model. It runs `GenerateExampleAstroData` and then the service's `StartChat`, which are both modelled.
- Console logging, the HTML template and styling, and the mobile tab other than the switch to results are not modelled.
- `GeminiService.SendMessageToChat`: a chunk whose `text` is undefined would be joined as the word "undefined". The model takes every chunk text as a string.
- `GeminiService.GenerateSynastryAnalysis`, `GeminiService.GetLowLatencyResponse`, `GeminiService.SearchGrounding`: the code returns `response.text` as it is, which may be undefined. The model types it as a string.
- `GeminiService.GenerateImage`: an image entry without `image` or `imageBytes` is not modelled. Only a missing first image, which throws inside the `try`, is modelled.
- The grounding-response types keep only the fields the code reads.
