# Web translator: relay and browser controller

A model of a small translation web application. A browser page collects a
text and a source and target language, and sends it to a backend relay. The
relay forwards the request to a LibreTranslate server and passes its answer
back. The model covers:

- **The relay** (`index.js`), module `Relay`. Its two endpoints, `GET /languages` and
  `POST /translate`, are pure functions. Each takes the request and the
  outcome of the upstream call and returns the one response the request gets.
  The translate endpoint also records which payload it forwarded, if any, so
  "a rejected request never reaches the upstream" is a statement about the
  result.
- **The browser controller** (`app.js`), module `Frontend`. The page's state
  is the mutable fields of the class `Frontend.Controller`: the two text
  areas, the two language selections, the translate button's
  `disabled` flag (`busy`) and text, the language list and the options of
  both pickers. The handlers are methods on it: populate the pickers, finish
  the languages fetch, start and finish a translation, click, hotkey, clear
  and swap. Populating the pickers is a loop over the language list, as in
  the source.
- **Shared shapes**: `Http` (fetch outcomes, responses, the translation
  payload), `Json` (parsed JSON values, property reads, JavaScript's string
  conversion), `Text` (trimming) and `Wrappers` (`Option`).
- **End to end**, module `System`. The relation `System.Carries` says that a
  frontend fetch outcome reads back a relay response. Lemmas then say what
  the result area and the pickers show for each upstream outcome.

The network, the upstream server and the browser are replaced by values. An
upstream or browser `fetch` is an `Http.Outcome`: either the call was
rejected with a message, or there is a reply with its `ok` flag, its body
read as text and its body read as JSON (which either parses or fails with a
message).

Three consequences of the code that a reader might not expect:

- An upstream error reaches the result area with the relay's prefix. An
  upstream reply "rate limit exceeded" shows as
  `Error: LibreTranslate error: rate limit exceeded`, not as
  `Error: rate limit exceeded` (`System.RateLimitScenario`).
- Two swaps do not restore the selections when the source was `auto`:
  (auto, es) becomes (es, en) and then (en, es) (`System.SwapTwiceFromAuto`).
  They do restore them when neither selection is `auto` or empty
  (`Frontend.SwapSelectionTwice`).
- `/languages` passes through any JSON body that parses, whatever the
  upstream status was.

## Model

| member | source | states |
|---|---|---|
| Relay.Forwarded | index.js:35-40 | the forwarded payload keeps `q` and `target`; `source` becomes `auto` and `format` becomes `text` exactly when they are falsy; every field of it is non-empty |
| Relay.TranslateReply | index.js:42-56 | the status is 200, 500 or 502; 200 exactly for an ok reply whose JSON parses, with that JSON as the body unchanged; 502 exactly for a reply that is not ok, with `LibreTranslate error: ` + upstream text; 500 exactly for a rejected call or an unparseable ok body, with `Translation failed: ` + the message |
| Relay.HandleTranslate | index.js:30-57 | nothing is forwarded exactly when `q` or `target` is falsy, and then the response is 400 `Missing required fields`; otherwise the one forwarded payload is `Forwarded(body)` and the response is the reply mapping of the upstream outcome for it; status 400 exactly for an inadmissible body |
| Relay.HandleLanguages | index.js:20-28 | status 200 exactly when the upstream body parses as JSON (whatever its status), with that JSON unchanged; otherwise 500 with `Failed to fetch languages: ` + the message |
| Relay.RejectedIgnoresUpstream | index.js:31-32 | a request missing `q` or `target` gets the same exchange whatever the upstream would answer, and forwards nothing |
| Relay.ForwardedOnly | index.js:42-53 | an admissible request's exchange depends on the upstream only through the outcome for its one forwarded payload |
| Relay.FullBodyForwardedUnchanged | index.js:35-40 | a body with all four fields truthy is admissible and is forwarded exactly as received |
| Relay.TranslateStatuses | index.js:30-57 | every translate response has status 200, 400, 500 or 502, and has a JSON body exactly when its status is 200 |
| Text.LeadingSpace | app.js:66 | the count of white-space characters a string starts with: all of them are white space and the next character is not |
| Text.TrailingSpace | app.js:66 | the count of white-space characters a string ends with: all of them are white space and the character before them is not |
| Text.Trim | app.js:66 | the trimmed text is the infix after the leading white space, everything after it is white space, and it neither starts nor ends with white space |
| Text.TrimEmptyIff | app.js:66-67 | trimming gives the empty string exactly when the input is all white space |
| Text.TrimIdempotent | app.js:66 | trimming a trimmed string changes nothing |
| Json.Get | app.js:92 | a property read on an object is undefined exactly when no member has the key, and otherwise yields the value of the last member with it, as `JSON.parse` keeps duplicates; on any other non-null value it is undefined |
| Json.Display | app.js:92 | converting a value to a string: null shows as `null`, booleans as `true`/`false`, a number as its text and a string as itself; an array joins its elements with commas, null elements showing as empty, and throws exactly when a non-null element throws; an object shows as `[object Object]` and throws exactly when it has its own `toString` member |
| Json.ArrayWithNullShown | app.js:92 | the array `["a", null, 1]` shows as `a,,1` |
| Json.Member | app.js:92 | a property read on a parsed object is undefined exactly when no member has that key, and otherwise yields the value of the last member with the key |
| Frontend.Label | app.js:16-19 | the button text is `Translating…` exactly when busy and `Translate` exactly when idle |
| Frontend.OptionsFor | app.js:48-58 | the populate loop adds one option per language, and the last added is the last language's option |
| Frontend.OptionsForAt | app.js:48-58 | the i-th option added has the i-th language's code as value and `name (code)` as text |
| Frontend.OptionValuesAreCodes | app.js:48-58 | the values of the added options are the language codes, in order |
| Frontend.LanguageOfJson | app.js:48-51 | an object `{"code": c, "name": n}` with string members gives the language (c, n) |
| Frontend.NullNameShown | app.js:51 | a descriptor whose `name` is null gives a language whose name is the text `null` |
| Frontend.DecodeLanguagesJson | app.js:25-58 | an array of well-formed descriptor objects populates as exactly the languages it describes |
| Frontend.UnconvertibleNameFallsBack | app.js:21-58 | a list whose one descriptor has a `name` object with its own `toString` makes the populate throw, so the pickers get the fallback list |
| Frontend.PayloadFor | app.js:66-77 | no payload exactly when the input is all white space; otherwise the payload is the trimmed text, the selected source and target and format `text`, and its `q` is non-empty with no white space at either end |
| Frontend.ErrorText | app.js:86-95 | the shown error starts with `Error: ` and continues with the message, or with the fallback when the message is empty |
| Frontend.CompletionText | app.js:86-95 | success shows `translatedText` (its string when it is a string, empty when absent or null, its conversion otherwise); a `translatedText` that cannot be converted shows `Error: Cannot convert object to primitive value`; a null body shows the null-read TypeError; a non-ok reply shows `Error: ` + body text or `Error: Translation failed`; a rejected call or unparseable body shows `Error: ` + message or `Error: Unable to translate` |
| Frontend.UnconvertibleTranslation | app.js:92-95 | a `translatedText` object with its own `toString` shows `Error: Cannot convert object to primitive value` |
| Frontend.SwappedSelection | app.js:108-110 | after a swap the source is never empty and the target is never `auto`; the source is the old target when that was non-empty and `auto` when it was empty; the target is the old source when that was not `auto` and `en` when it was |
| Frontend.SwapSelectionTwice | app.js:108-110 | two swaps restore the selections when neither is `auto` or empty |
| Frontend.Controller.constructor | app.js:5-13 | the page starts with empty text areas, an idle button, an empty language list and only the `auto` source option selected |
| Frontend.Controller.SetLoading | app.js:16-19 | sets the busy flag, and the button text is `Translating…` exactly when busy and `Translate` otherwise (the class invariant) |
| Frontend.Controller.PopulateLanguageSelects | app.js:41-63 | the source options are the kept `auto` option followed by one option per language, the target options are one per language, their values are `auto` + the codes and the codes, and the selections are `auto` and `en` |
| Frontend.Controller.FetchLanguagesDone | app.js:21-39 | the language list becomes `LanguagesFrom(outcome)` and the pickers are populated from it as above |
| Frontend.Controller.TranslateStart | app.js:65-79 | returns `PayloadFor(text, source, target)`; with no payload the result becomes empty and the busy flag is unchanged; with one the result is kept and the button is busy |
| Frontend.Controller.TranslateDone | app.js:86-98 | the result becomes `CompletionText(outcome)` and the button is idle again, on success and on failure |
| Frontend.Controller.ClickTranslate | app.js:101 | a click while busy does nothing; otherwise it is the translate action |
| Frontend.Controller.KeyDown | app.js:120-124 | Ctrl or Meta with Enter runs the translate action, busy or not: it returns `PayloadFor` of the inputs, and either empties the result with the busy flag unchanged (no payload) or keeps the result and marks the button busy; any other key changes nothing and sends nothing |
| Frontend.Controller.Clear | app.js:102-105 | both text areas become empty; only they change |
| Frontend.Controller.Swap | app.js:106-114 | the selections become `SwappedSelection` of the old ones and the two texts are exchanged exactly; nothing else changes |
| Frontend.SwapTwice | app.js:106-114 | two swaps restore both texts, and the selections when neither was `auto` or empty |
| System.FrontendRequestAdmitted | index.js:31-40 | a request the frontend sends passes the relay's check exactly when a target is selected, and is forwarded with only an empty source replaced by `auto` |
| System.SuccessPassesThrough | index.js:52-53 | on an ok, parsed upstream reply the frontend shows what it would show reading the upstream reply itself |
| System.TranslatedTextShown | app.js:90-92 | an upstream `translatedText` string reaches the result area unchanged |
| System.FailureShown | app.js:86-95 | a rejected request shows `Error: Missing required fields`; an upstream error shows `Error: LibreTranslate error: ` + its text; a relay failure shows `Error: Translation failed: ` + its message |
| System.LanguagesFallback | app.js:27-37 | when the upstream list cannot be fetched or parsed, the pickers get exactly the five fallback languages en, hi, es, fr, de |
| System.LanguagesPassThrough | index.js:20-24 | an upstream list that parses and populates reaches the pickers as sent, even with an error status |
| System.HelloPayload | app.js:66-77 | input `Hello` from `auto` to `es` is sent as `{q: Hello, source: auto, target: es, format: text}` |
| System.UpstreamListReachesPickers | index.js:20-24 | an upstream array of well-formed descriptors reaches the pickers as exactly the languages it describes |
| System.HolaScenario | app.js:90-92 | that request, answered with `{"translatedText":"Hola"}`, shows `Hola` |
| System.RateLimitScenario | index.js:48-51 | an upstream error `rate limit exceeded` gives a 502 `LibreTranslate error: rate limit exceeded` and shows `Error: LibreTranslate error: rate limit exceeded` |
| System.SwapTwiceFromAuto | app.js:108-110 | from (auto, es) two swaps give (en, es), so they do not restore the selections |

## Left out

- Express wiring (app setup, CORS, JSON body parsing, static files, `listen`, the port) is framework plumbing. The upstream base URL is configuration: the upstream is an outcome value, not a client.
- Real network calls, `JSON.parse` and `JSON.stringify` are left out. The upstream's reply is given as its text and its parsed JSON. How a relay body is serialised on the wire is not modelled; `System.Carries` states only what the browser reads back.
- System.Carries: assumes the relay's JSON body reaches the browser unchanged, that is, `JSON.parse(JSON.stringify(v))` gives back `v`. That fails for a number outside the double range. The relay parses it as `Infinity` or `-Infinity`, `res.json` writes that as `null`, and the browser then reads `null`. So `System.SuccessPassesThrough`, `System.LanguagesPassThrough` and `System.UpstreamListReachesPickers` do not cover upstream bodies holding such numbers. For example, `{"translatedText": 1e400}` shows as empty in the browser, not as `Infinity`.
- A `res.text()` or `r.text()` call that rejects is not modelled; a reply's text is always readable.
- Request body fields that are not strings (numbers, objects) are not modelled: each field is an optional string, and absent or `""` is falsy.
- `console.error` logging is left out.
- DOM plumbing is left out. Options are (value, text) pairs and selections are plain strings. The browser rule that a value not among a picker's options reads back as `""` is not modelled. The page markup is not part of this model: the constructor assumes empty text areas, the text `Translate` on the button, and a source picker holding only the `auto` option.
- Event listener registration is left out. The handlers are methods, and `Frontend.Controller.ClickTranslate` and `Frontend.Controller.KeyDown` stand for the click and keydown listeners.
- Async interleaving is left out: matching overlapping requests (a hotkey translation started while one is in flight) to their completions, completions arriving out of order, and hung calls. Each completion is a separate method call.
- Text.IsSpace: only the ASCII white space, no-break space, line and paragraph separators and the byte-order mark count. The other Unicode space separators that `trim` also removes (U+1680, U+2000-U+200A, U+202F, U+205F, U+3000) are not in it.
- Frontend.CompletionText: for a reply whose JSON is `null`, and for a `translatedText` that cannot be converted to a string, the TypeError's message depends on the JavaScript engine. The model uses V8's messages.
- Frontend.DecodeLanguages: when a fetched list throws part-way through populating, the model goes straight to the fallback. The options built before the throw are not modelled, because the fallback populate replaces them.
- Json.Display: numbers are kept in the form JavaScript displays them, so how a number's digits are converted to text is not modelled.
