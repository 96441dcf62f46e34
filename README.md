# Outreacher: a Dafny model of the extraction and generation pipeline

Outreacher is a browser extension plus a small server. It reads a job posting
from a page, combines it with the user's saved settings, and streams back a
personalised outreach message written by a remote language model. When the
model fails, it falls back to a fixed template. This project models the parts of
that pipeline that have logic of their own, and proves properties about them:

- **Generator** (`generator/src/service.ts`, module `Service`). The prompt
  and the fallback message are string templates. The stream is the method
  `GenerateMessageStream`. It runs over an abstract upstream: the chunk texts
  in arrival order, plus a flag saying whether the call failed after them.
  The method relays every truthy text and, on failure, appends exactly one
  fallback message.
- **`/generate` endpoint** (`generator/src/index.ts`, module `Server`).
  A request missing `user` or `profile` gets status 400 with a fixed error
  and the generator never runs. Otherwise the handler writes one
  server-sent-event frame `data: {"chunk":…}\n\n` per chunk, then
  `data: {"done":true}\n\n`, then ends the response. Server-sent events are
  defined in section 9.2 of the WHATWG HTML Living Standard. The response
  object is a class whose `write`/`end`/`json` methods change its state. The
  pure function `Handle` specifies what the handler leaves behind.
- **JSON strings** (module `Json`). This is `JSON.stringify`'s string escaping
  (section 7 of RFC 8259), together with the standard decoder for it.
- **Reading the stream back** (module `EventStreamClient`). This reference
  reader splits the body into events, strips `data: ` and decodes the JSON.
  It is the inverse that the framing is proved against.
- **Content script** (`extension/src/contentScript.ts`, module
  `ContentScript`). The page is a sequence of elements in document order.
  Each element has the selectors it matches and its text. `querySelector` is
  the first match. The reply is a four-field record.
- **Settings page** (`extension/src/OptionsApp.tsx`, module `Options`).
  Loading fills each form field with a stored value of the right type, or
  else a default. The declared validation rules are modelled. Saving trims
  every string field (module `JsString` models `String.prototype.trim`).
- The records of `generator/src/interface.ts` are in module `Interface`.
  `years` is an `int`. Template literals render it in decimal
  (module `JsNumber`).

The prompt and fallback lemmas are stated for every wording of the templates'
literal segments (`PromptTemplate`, `FallbackTemplate`), so they depend only
on the template's shape. `Prompt` and `FallbackMessage` are those
templates filled with the source's own text.

Three behaviours of the program are worth stating up front:

- On an upstream failure, chunks already sent stay sent. The fallback is
  appended after them; nothing is buffered or discarded.
- The content script uses one selector per field. It passes the text through
  untrimmed, and its reply has no `skills`.
- The program has no retry/polling, attempt counters or skill mining, so
  none is modelled.

## Model

| member | source | states |
|---|---|---|
| `Service.SkillsListShape` | generator/src/service.ts:13-14 | With no skills, the required-skills text is "not specified". Otherwise it holds skill i verbatim for each i < min(5, n), in order, with ", " between consecutive skills, and it ends right after the last one. Skills past the fifth never change it. |
| `Service.PromptContainsFields` | generator/src/service.ts:16-47 | The prompt contains the user's name, current role, years, top skills, the job role, the company and the required-skills text verbatim. |
| `Service.PromptAchievementLine` | generator/src/service.ts:24-25 | A truthy key achievement appears as the line "\n- Key Achievement: " + value at its segment's offset. |
| `Service.PromptLocationLine` | generator/src/service.ts:26 | A truthy location appears as the line "\n- Location: " + value. |
| `Service.PromptPortfolioLine` | generator/src/service.ts:26-27 | A truthy portfolio URL appears as the line "\n- Portfolio: " + value. |
| `Service.PromptOptionalLinesInOrder` | generator/src/service.ts:24-31 | The optional lines come after the top skills, in the order Key Achievement, Location, Portfolio, and before the job block. |
| `Service.PromptAchievementOnlyWhenPresent` | generator/src/service.ts:24-25 | Giving an absent key achievement a non-empty value inserts exactly its line at one offset and changes nothing else. An empty value gives the same prompt as an absent one. |
| `Service.PromptLocationOnlyWhenPresent` | generator/src/service.ts:26 | The same insertion property for the Location line. |
| `Service.PromptPortfolioOnlyWhenPresent` | generator/src/service.ts:26-27 | The same insertion property for the Portfolio line. |
| `Service.FallbackSkillsShape` | generator/src/service.ts:64-67 | The fallback skills sentence is "" exactly when there are no skills. Otherwise it starts with "I noticed the role requires ", ends with ".", and names skill i verbatim for each i < min(3, n), in order, with ", " between consecutive skills, and the "." right after the last one. Skills past the third never change it. |
| `Service.FallbackShape` | generator/src/service.ts:69-78 | The fallback starts with its greeting and ends with the user's name. It contains the name, the years, the job role, the company and the skills sentence verbatim. |
| `Service.FallbackGreeting` | generator/src/service.ts:69-78 | The actual fallback message starts with "Hi," and ends with the user's name. |
| `Service.Emitted` | generator/src/service.ts:54-59 | The relayed texts are never empty, and there are no more of them than upstream pieces. |
| `Service.EmittedAppend` | generator/src/service.ts:54-59 | Relaying is a filter: the texts relayed for `a + b` are those for `a` followed by those for `b`. |
| `Service.EmittedSingle` | generator/src/service.ts:55-57 | One piece is relayed, unchanged, exactly when its text is truthy. |
| `Service.GenerateMessageStream` | generator/src/service.ts:4-82 | The loop yields exactly the truthy pieces in arrival order. If the upstream failed, one fallback message follows. |
| `Service.SuccessOutput` | generator/src/service.ts:54-59 | A successful upstream yields exactly the truthy pieces, with no fallback. |
| `Service.FailureOutput` | generator/src/service.ts:54-80 | A failed upstream yields the truthy pieces received before the failure, then exactly one fallback at the end. |
| `Service.EarlyFailureOutput` | generator/src/service.ts:8-80 | A failure before any piece, including while the client is built, yields the fallback alone. |
| `Service.NoRetraction` | generator/src/service.ts:54-80 | What a run that fails after k pieces relayed before its fallback is a prefix of every run sharing those k pieces, whether or not it fails. Nothing sent is retracted. |
| `JsNumber.IntToStringRoundTrip` | generator/src/service.ts:23 | The decimal rendering of `years` reads back as the same integer. |
| `Server.Validate` | generator/src/index.ts:18-22 | A request passes exactly when both `user` and `profile` are present, and it passes them through unchanged. |
| `Server.RejectedIffMissing` | generator/src/index.ts:20-22 | The reply is a rejection exactly when `user` or `profile` is missing, and a rejection is status 400 with "Missing user or profile data". |
| `Server.PostGenerate` | generator/src/index.ts:16-35 | The handler ends the response. What it leaves observable equals `Handle`: the 400 error with no frame written, or, with status 200, the chunk frames in generator order followed by the done frame. |
| `Server.ChunkPayload` | generator/src/index.ts:30 | A chunk's JSON payload contains no raw line feed or carriage return. |
| `Server.ChunkFrameIsNotDone` | generator/src/index.ts:30-34 | No chunk frame equals the done frame. |
| `Server.EventFramesShape` | generator/src/index.ts:29-35 | There is one frame per chunk, in order, then exactly one done frame, last. The frame count is the chunk count + 1. |
| `Server.AcceptedStreamEndsWithDone` | generator/src/index.ts:29-35 | Once validation passes, the stream ends with the done frame whether the upstream succeeded or failed. |
| `Json.EscapeChar` | generator/src/index.ts:30 | One character's escape is non-empty and contains no raw line break or other control character. |
| `Json.Escape` | generator/src/index.ts:30 | An escaped string contains no raw line feed, carriage return or other control character, and is at least as long as the input. |
| `Json.UnescapeChar` | generator/src/index.ts:30 | Decoding one character's escape followed by more text yields that character, then the decoding of the rest. |
| `Json.UnescapeEscape` | generator/src/index.ts:30 | Decoding the escaped form of any string gives back the string. |
| `EventStreamClient.DataValuesFrame` | generator/src/index.ts:30 | Reading one frame yields its payload and continues right after the frame. |
| `EventStreamClient.DataValuesOfStream` | generator/src/index.ts:29-35 | Splitting the written body into events and stripping `data: ` gives the payloads in order. |
| `EventStreamClient.ChunkPayloadParses` | generator/src/index.ts:30 | A chunk payload decodes to exactly its chunk. |
| `EventStreamClient.CollectPayloads` | generator/src/index.ts:29-35 | The payload sequence is read as its chunks followed by a single done event. |
| `EventStreamClient.StreamRoundTrip` | generator/src/index.ts:29-35 | Reading the body written for some chunks gives back exactly those chunks, and the assembled message is their concatenation. |
| `ContentScript.QuerySelector` | extension/src/contentScript.ts:3-10 | The query yields the first element in document order that matches, and yields none exactly when nothing matches. |
| `ContentScript.RepliesOnlyToGetProfile` | extension/src/contentScript.ts:1-18 | The listener replies exactly to a `GET_PROFILE` message, and the reply's `url` is the page location. |
| `ContentScript.TextOfFirstMatch` | extension/src/contentScript.ts:3-10 | A field is the untrimmed text of the first element matching its selector. |
| `ContentScript.TextOfNoMatch` | extension/src/contentScript.ts:4-10 | A selector that matches nothing yields "". |
| `ContentScript.EmptyPageProfile` | extension/src/contentScript.ts:3-17 | A page with none of the three elements gives the reply ("", "", "", url). |
| `ContentScript.TextOfIgnoresLaterElements` | extension/src/contentScript.ts:3-10 | Once an element matches, elements after it never change the field. |
| `JsString.Trim` | extension/src/OptionsApp.tsx:56-62 | `trim` returns a contiguous middle of its input that neither starts nor ends with whitespace, with only whitespace cut on each side. |
| `JsString.TrimIdempotent` | extension/src/OptionsApp.tsx:56-62 | Trimming twice gives the same string as trimming once. |
| `Options.LoadKeepsTypedValues` | extension/src/OptionsApp.tsx:39-47 | Each of the seven fields keeps a stored value of its own type (string, or number for `years`). Otherwise it gets its default, '' or 0. |
| `Options.LoadEmptyIsDefault` | extension/src/OptionsApp.tsx:21-47 | Loading from empty storage gives exactly the form's default values. |
| `Options.LoadReadsOnlyStorageKeys` | extension/src/OptionsApp.tsx:36-47 | Two storages that agree on the seven keys load the same form. |
| `Options.SavedKeysAreLoadedKeys` | extension/src/OptionsApp.tsx:37-63 | The keys written on save are exactly the seven keys read on load. |
| `Options.SaveTrims` | extension/src/OptionsApp.tsx:55-63 | Every saved string field is trimmed, and `years` is unchanged. |
| `Options.SaveIdempotent` | extension/src/OptionsApp.tsx:55-63 | Normalising an already-saved payload again leaves it unchanged. |
| `Options.SaveThenLoad` | extension/src/OptionsApp.tsx:39-65 | Loading what was saved gives back the saved values. |
| `Options.NoErrorsIffRulesHold` | extension/src/OptionsApp.tsx:101-180 | No validation message is reported exactly when name, current role and top skills are non-empty and years ≥ 0. Each field has a message exactly when its own rule fails, and no other key has one. |
| `Options.SubmitIffRulesHold` | extension/src/OptionsApp.tsx:84-180 | The form saves exactly when name, current role and top skills are non-empty and years ≥ 0, and it then saves the trimmed payload. |
| `Options.BlankNameIsSavedEmpty` | extension/src/OptionsApp.tsx:52-101 | The rules run before trimming, so a name of only blanks passes `required` and is saved as "". |

## Left out

- The Gemini SDK call, its model name and the API key: a foreign library. The model replaces it with the abstract `Upstream` (chunk texts plus a failure flag).
- `console.error` logging in both catch blocks: I/O only.
- Express plumbing: CORS, JSON body parsing, the three response headers, `listen`, the `/health` endpoint, and the 500 path of the handler's `catch`. For a body whose fields have the types `generator/src/interface.ts` declares, the generator never rethrows, so that path is not reached once validation passes. Some ill-typed bodies, for example a profile without `skills`, make both the prompt builder and the fallback throw, and the handler then replies 500. Ill-typed bodies are outside the model.
- Timing and asynchrony: the handler gets the generator's whole output before it writes. The writes happen in the same order as the interleaved `for await` loops, but interleaving, back-pressure and cancellation are not modelled.
- All `chrome.*` APIs (storage, tabs, runtime messaging, options page). The content script's `sendResponse` is its return value: `None` means no reply.
- `extension/src/PopupApp.tsx` (UI state, a URL substring check, a network call that is commented out) and `extension/vite.config.ts` (build tooling).
- The settings page's JSX, react-hook-form internals beyond the four declared rules, `setStatus` and the `setTimeout` reset.
- JsNumber.IntToString: `years` is an integer. A JavaScript number's fractional, NaN, infinite, `-0` and exponent (≥ 1e21) renderings are not modelled, and neither are integers above 2^53, which JavaScript renders with their shortest round-trip digits padded with zeros (2**60 renders as 1152921504606847000, not 1152921504606846976).
- JSON strings and `trim` work on Unicode scalar values, not UTF-16 code units. So no lone surrogate can occur, and `JSON.stringify`'s escaping of lone surrogates is not modelled. The decoder rejects a `\u` escape of a surrogate instead of pairing it.
- EventStreamClient.DataValues: it reads only the event-stream subset the endpoint writes: LF line ends, and one `data: ` line then a blank line per event. CR and CRLF line ends, comments, multi-line data and the `event`/`id`/`retry` fields of server-sent events are not modelled.
- Options.FormErrors: `years` is an integer, so the NaN that an empty number input gives under `valueAsNumber` is not modelled.
