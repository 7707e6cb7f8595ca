# Chat relay: the proxy route and its client adapter

This project models the one piece of the marine-science site that has
behaviour: the chat relay. It has two halves.

- **The proxy** (`server.js`, route `POST /api/ai`) reads the configured
  Gemini API key. It flattens the request's role-tagged messages into one
  prompt: system content is kept bare, user content is labelled `User: `,
  assistant content is labelled `Assistant: `, and the parts are joined by a
  blank line. It makes one upstream call and maps the result to a single
  HTTP response. The possible responses are a configuration error, the
  upstream's own error status, a generic 500, or the upstream body passed
  through unchanged.
- **The client adapter** (`src/services/aiService.ts`, class `AIService`)
  puts a fixed formatting instruction ahead of the caller's messages and
  POSTs them to the proxy. It then reads the reply, with three outcomes. A
  non-ok reply throws `Backend error: <status> - <detail>`. A reply without
  candidates throws `No response from Gemini API`. Otherwise it returns
  `candidates[0].content.parts[0].text`. Four wrappers each send one
  templated user message.

Everything is pure functions over values. Network calls are inputs: the
upstream reply (`Relay.UpstreamReply`) and the proxy's reply
(`AiService.BackendReply`) are datatypes, and a body that does not parse as
JSON is `None`. A thrown exception is `Err(...)` of a `Result`. The proxy's
writes to `res` become the `Relay.Response` value it returns.
`Relay.HandleAi` also returns the upstream request it sends, if any, so
"no upstream call" can be stated.

The code inspects JSON bodies in duck-typed JavaScript, so module `Js`
models the parts of JavaScript's value semantics it relies on:

- JSON values;
- `undefined`;
- truthiness, used by `!` and `||`;
- property reads that throw a TypeError on `undefined` and `null`;
- `${...}` string conversion, under which any object prints as
  `[object Object]`;
- `Array.prototype.join`;
- `response.ok`.

Files:

- `js.dfy` holds modules `Wrappers` and `Js`.
- `relay.dfy` holds modules `Prompt` (server.js:56-61) and `Relay` (the
  route's decision logic).
- `ai_service.dfy` holds module `AiService`.
- `pipeline.dfy` holds module `Pipeline`, which composes client and proxy
  and proves end-to-end properties.

Three behaviours of the code are easy to get wrong, and the model follows
the code in each:

- **The upstream error detail.** One would expect the relay to report the
  upstream message, e.g. `"rate limited"` for the body
  `{"error":{"message":"rate limited"}}`. The code relays the whole
  `errorData.error` value instead. For that body it is the object
  `{"message":"rate limited"}`, and the client's template literal prints it
  as `[object Object]`. `Pipeline.RateLimitedExample` and
  `Pipeline.ErrorObjectThroughProxy` state this.
- **Malformed request bodies.** A request without a message array makes `messages.map` throw
  inside the `try`. The result is the generic 500, sent before any upstream
  call.
- **Failures after a reply.** An error body that is JSON `null` makes
  `errorData.error` throw. A success body that is not JSON makes
  `response.json()` throw. Both give the generic 500. In the client, the same
  reads throw TypeError or SyntaxError, and the adapter rethrows them.

## Model

| member | source | states |
|---|---|---|
| Prompt.RenderMessage | server.js:56-60 | a `system` message renders to its content alone; `user` to "User: " + content; `assistant` to "Assistant: " + content; any other role to the content verbatim |
| Prompt.RenderingEndsWithContent | server.js:57-60 | every rendering ends with the message's content, unaltered |
| Prompt.Renderings | server.js:56-60 | one rendering per message, at the same position |
| Prompt.RenderPrompt | server.js:56-61 | an empty history gives the empty prompt; a one-message history gives that message's rendering alone |
| Prompt.PromptLength | server.js:56-61 | for n >= 1 messages, the prompt is exactly the renderings' total length plus n - 1 two-character separators |
| Prompt.PromptMessageAt | server.js:56-61 | message i's rendering stands, unchanged, at its offset in the prompt; the next one starts after it and one separator, so input order is kept and no message is dropped |
| Prompt.PromptSeparatorAt | server.js:61 | between each two consecutive renderings stands exactly "\n\n" |
| Prompt.PromptConcat | server.js:56-61 | the prompt of two non-empty histories is their prompts joined by one blank line |
| Prompt.PromptAfterSystemMessage | server.js:57 | a leading system message contributes its bare content, then a separator only if more messages follow |
| Prompt.PromptAppend | server.js:56-61 | appending a message appends "\n\n" and its rendering |
| Relay.KeyPresent | server.js:46 | the key passes the `!apiKey` test exactly when it is a truthy string, i.e. present and non-empty |
| Relay.UpstreamDetail | server.js:88 | the relayed detail is the truthy `error` field itself, otherwise "Gemini API Error: " + status text; it is never falsy |
| Relay.ErrorBody | server.js:48 | every error response body is an object whose only key is `error`, holding the given detail |
| Relay.UpstreamCall | server.js:64-82 | the upstream URL is the fixed endpoint followed by the key, and the body carries the rendered prompt and the fixed generation parameters |
| Relay.RelayReply | server.js:84-99 | a rejected fetch is a network error; a non-ok reply keeps its status; an ok reply passes its JSON body through with status 200, or throws on a body that is not JSON |
| Relay.HandleAi | server.js:39-101 | an upstream call is made iff the key is present and the request has a message array, and it carries the rendered prompt; a missing or empty key gives 500 with the configuration error; a missing message array gives the generic 500 |
| Relay.UpstreamErrorRelayed | server.js:85-88 | a non-ok reply's status is relayed, with the body's truthy `error` field or "Gemini API Error: " + status text |
| Relay.UnparsableErrorBodyIsEmptyObject | server.js:86-88 | an error body that is not JSON behaves as `{}`, so the status text is relayed |
| Relay.NullErrorBodyIsContactFailure | server.js:86-99 | an error body that is JSON null makes the field read throw, which the catch turns into the generic 500 |
| Relay.RejectedIsContactFailure | server.js:95-99 | a transport failure always yields 500 with the fixed generic message, after the call was attempted |
| Relay.SuccessPassesBodyThrough | server.js:91-93 | an ok reply's JSON body is returned unchanged with status 200; an unparsable one gives the generic 500 |
| Relay.Status200Iff | server.js:46-99 | the route answers 200 exactly when it called upstream and got an ok reply with a JSON body |
| Relay.FailuresCarryErrorField | server.js:48-99 | every non-200 response body is an object whose only field is `error` |
| Js.Prop | src/services/aiService.ts:59-69 | for the names the two components read, a property read throws (TypeError) exactly on undefined or null; an object yields its own field or undefined; an array or string yields its `length`, and the element (or character) at an in-range canonical index, and undefined for any other name; a boolean or number yields undefined |
| Js.Truthy | src/services/aiService.ts:65 | a value is falsy exactly when it is undefined, null, false, 0 or the empty string |
| Js.Or | server.js:88 | JavaScript's logical-or yields its left operand when that is truthy and its right operand otherwise, so the result is truthy iff one of them is |
| Js.HttpOk | src/services/aiService.ts:58 | `response.ok` holds exactly for a 2xx status |
| Js.ToString | src/services/aiService.ts:60 | in a template literal an object prints as "[object Object]", a string as itself, a number as its numeral, null as "null", a boolean as "true"/"false", and a one-element array as its element (null as nothing) |
| Js.NatToDecimal | src/services/aiService.ts:60 | the status prints as a canonical decimal numeral: digits only, a leading zero only for 0 |
| Js.DecimalRoundTrip | src/services/aiService.ts:60 | reading a printed status back gives the status |
| Js.CanonicalRoundTrip | src/services/aiService.ts:69 | every canonical numeral is the printed form of its value |
| Js.NatToDecimalInjective | src/services/aiService.ts:60 | distinct statuses print differently |
| Js.NumberToString | src/services/aiService.ts:60 | a number prints as its numeral with a minus sign when negative |
| Js.ArrayIndex | src/services/aiService.ts:69 | a property name denotes an array index iff it is a canonical numeral, and then it is that number's numeral |
| Js.Join | server.js:61 | joining no parts gives the empty string, and a join of one or more parts starts with the first part |
| Js.JoinLength | server.js:61 | a join of n >= 1 parts is as long as its parts plus n - 1 separators |
| Js.JoinPartAt | server.js:61 | each part stands, unchanged, at its offset in the join |
| Js.JoinSeparatorAt | server.js:61 | exactly one separator stands between each two neighbouring parts |
| Js.JoinConcat | server.js:61 | joining a concatenation is joining the two joins with one separator |
| AiService.Outgoing | src/services/aiService.ts:34-50 | the outgoing list has n + 1 messages: the fixed system message first, then the caller's messages in order |
| AiService.BuildRequest | src/services/aiService.ts:29-56 | the request goes to base URL + "/ai" with the service's model, the outgoing list and the fixed parameters |
| AiService.InstructionIsConstant | src/services/aiService.ts:35-48 | the first outgoing message is the same constant for every input |
| AiService.FirstCandidateText | src/services/aiService.ts:63-69 | a null body throws TypeError; missing, falsy or empty `candidates` throws "No response from Gemini API" |
| AiService.Interpret | src/services/aiService.ts:58-73 | a rejected fetch rethrows a network error; a non-ok reply always throws, a TypeError when its body is JSON null; an ok reply that is not JSON throws; a result is returned only from an ok JSON reply, read as `candidates[0].content.parts[0].text`, with no fallback text |
| AiService.BackendErrorMessage | src/services/aiService.ts:60 | the thrown text is "Backend error: " + the status numeral + " - " + the printed truthy `error` field, or 'Unknown error' when it is falsy |
| AiService.SendMessage | src/services/aiService.ts:27-74 | the call sends exactly the built request (URL, model, outgoing list, fixed parameters) and its outcome is the interpretation of the reply, so every Interpret property holds of it; it returns only when the proxy's reply was ok |
| AiService.NonOkReplyIsBackendError | src/services/aiService.ts:58-61 | a non-ok reply throws "Backend error: " + status + " - " + (the truthy `error` field, or 'Unknown error') |
| AiService.MissingErrorDetail | src/services/aiService.ts:59-60 | with no truthy `error` field, or a body that is not JSON, the detail is 'Unknown error' |
| AiService.BackendErrorNamesStatus | src/services/aiService.ts:60 | the reply's status can be read back from the thrown message |
| AiService.ReadsFirstText | src/services/aiService.ts:65-69 | on any body whose first candidate has content with a first part, whatever other keys it carries, the result is that part's `text` field, or undefined when it has none |
| AiService.LaterCandidatesIgnored | src/services/aiService.ts:69 | candidates after the first never change the result |
| AiService.ReadsDeclaredShape | src/services/aiService.ts:8-16 | on a body of the declared response shape: no candidates throws "No response from Gemini API"; a first candidate without parts throws TypeError; otherwise the first part's text of the first candidate is returned |
| AiService.AnalyzeMarineData | src/services/aiService.ts:76-78 | one user message "Analyze this " + dataType + ": " + query |
| AiService.IdentifySpecies | src/services/aiService.ts:80-82 | one user message "Identify species: " + description |
| AiService.InterpretEDNA | src/services/aiService.ts:84-86 | one user message "Interpret eDNA: " + sampleData |
| AiService.AnalyzeOceanConditions | src/services/aiService.ts:88-90 | one user message "Analyze ocean conditions: " + conditions |
| AiService.SingleArgumentWrappersInvertible | src/services/aiService.ts:80-90 | the one-argument wrappers lose nothing: stripping the fixed prefix returns the argument |
| AiService.AnalyzeMarineDataTemplate | src/services/aiService.ts:76-78 | the message after "Analyze this " is dataType + ": " + query, but two different argument pairs can give the same message |
| AiService.WrapperRequestShape | src/services/aiService.ts:76-90 | a wrapper's request carries exactly two messages: the instruction, then its own user message |
| Pipeline.Wire | src/services/aiService.ts:32-50 | a client message reaches the proxy with its content unchanged |
| Pipeline.WireAll | src/services/aiService.ts:34-50 | the forwarded list has the client's messages in order |
| Pipeline.WireRendering | server.js:57-59 | the client's three roles render with the proxy's labels |
| Pipeline.ForwardedPrompt | server.js:56-61 | the upstream prompt is the instruction, bare, then a blank line and the caller's history, or the instruction alone for an empty history |
| Pipeline.WrapperPrompt | src/services/aiService.ts:80-82 | identifySpecies(d) reaches the upstream service as the instruction + "\n\nUser: Identify species: " + d |
| Pipeline.EndToEndAnswer | src/services/aiService.ts:69 | through the proxy, an ok upstream reply of the declared shape yields the first part's text of the first candidate |
| Pipeline.ClientSeesErrorBody | src/services/aiService.ts:58-61 | an `{ error: detail }` response is thrown as the backend error naming its status and detail |
| Pipeline.MissingKeyThroughProxy | server.js:46-49 | without a key nothing goes upstream, and the caller sees "Backend error: 500 - Server configuration error: Missing API Key." |
| Pipeline.EndToEndMissingKey | server.js:46-49 | the same for any history passed to sendMessage |
| Pipeline.RejectedThroughProxy | server.js:95-99 | a transport failure reaches the caller as "Backend error: 500 - " + the generic message |
| Pipeline.ErrorObjectThroughProxy | server.js:88 | an object-valued upstream `error` reaches the caller as "[object Object]" |
| Pipeline.RateLimitedExample | server.js:85-88 | a 429 with error {"message":"rate limited"} is relayed as status 429 with that object, and the caller sees "Backend error: 429 - [object Object]" |
| Pipeline.ErrorTextThroughProxy | server.js:88 | a non-empty string upstream `error` reaches the caller verbatim |
| Pipeline.StatusTextThroughProxy | server.js:86-88 | an unparsable upstream error body reaches the caller as "Gemini API Error: " + status text |

## Left out

- `fetch`, `response.json()` and `JSON.stringify` are I/O and library
  behaviour. Their results are inputs: a rejected call, or a status with a
  body that parsed as JSON or did not.
- JSON numbers are integers in `Js.Json`; floating point is not modelled.
  JavaScript numbers are doubles: `Js.NumberToString` and `Js.Json` keep
  every integer exact. JavaScript prints integers of magnitude 10^21 or
  more in exponent form (`1e+21`), and `JSON.parse` rounds integers above
  2^53.
  The generation parameters are recorded as constants, with the temperature
  0.7 kept as 7 tenths. No arithmetic is done on them.
- Message contents are strings, as the client's `ChatMessage` type declares.
  The model does not cover a request whose elements are not objects or whose
  `content` is not a string. For such a request the proxy would, by
  server.js:56-61, throw on a `null` or `undefined` element; print an
  element whose lambda result is `undefined` (a `system` or unknown-role
  message without `content`, or a primitive element) as the empty string,
  since `join` prints `undefined` as nothing; print a labelled message
  without `content` as `User: undefined` or `Assistant: undefined`; and
  print a `null` content of a `system` or unknown-role message as the
  empty string too, since `join` prints `null` as nothing, while the
  labelled forms give `User: null` or `Assistant: null`; and print any
  other `content` in its own string form.
- `Js.ArrayIndex` does not model the engine's largest array index, 2^32 - 2.
  String indexing is by character, not by UTF-16 code unit.
- Property names that `Object.prototype` defines (`toString` and the like) are not
  modelled; `Js.Prop` treats every name not present as undefined.
- Express's own handling of an out-of-range status in `res.status(...)` is
  not modelled. The upstream status is relayed as given.
- `console.log` and `console.error` calls are logging only.
- The middleware setup (`cors`, `express.json`), the `/api/health` route,
  `dotenv.config()`, `app.listen` and the `PORT` fallback are server
  plumbing. The key is an input to `Relay.HandleAi`. `Pipeline.EndToEnd`
  and `Pipeline.ThroughProxy`, and so `Pipeline.EndToEndMissingKey`'s "any
  history", assume every request body reaches the route. `express.json()`
  answers 413 to a body over its default 100 kB limit, and the client then
  throws "Backend error: 413 - Unknown error".
- `async`/`await` sequencing is not modelled; it has no concurrency to
  verify.
- src/pages/Home.tsx is presentation only and is not part of this model.
