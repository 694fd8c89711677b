# Verified model of the Antigravity streaming adapter and the Copilot initiator header

This project models, in Dafny, the two parts of the `vercel-ai-extra-providers`
adapters that carry logic:

- **The Google Antigravity language model** (`src/google-antigravity.ts`).
  `doGenerate` always fails. `doStream` does four things:
  - it translates the neutral prompt into the vendor's `contents`;
  - it fails upfront on a non-OK response, with the status and body text in the message;
  - it decodes the server-sent-event stream: chunks are appended to a carry-over buffer, the buffer is split on `"\n"`, and its last segment is kept; complete `data:` lines are trimmed, parsed and mapped to `text-delta` and `tool-call` events;
  - it ends the stream with exactly one `finish` event, or with an error when anything throws.
- **The GitHub Copilot wrapper** (`src/github-copilot.ts`). It infers who started
  the turn (`user` or `agent`) and merges that value into the caller's
  options as the `X-Initiator` header. Then it delegates to the wrapped model.
  Its identity getters forward to the wrapped model.

Modules, one per component:

| file | module | models |
|---|---|---|
| wrappers.dfy | `Wrappers` | `Option`, `Result`, `Last`, `AllButLast` |
| js.dfy | `Js` | JavaScript values from `JSON.parse`; truthiness; `.key`, `?.key` and `?.[0]` |
| text.dfy | `Text` | `split("\n")` / `join("\n")`, `startsWith`, `trim`, decimal rendering of numbers |
| prompt.dfy | `Prompt` | the neutral messages and their parts |
| translate.dfy | `MessageTranslation` | neutral messages to vendor `contents` |
| sse.dfy | `SseDecoder` | the carry-over buffer, line splitting, the `data:` filter |
| events.dfy | `StreamEvents` | one parsed payload to events; tool-call id fallbacks |
| antigravity.dfy | `Antigravity` | the stream loop, its outcome, `doStream`, `doGenerate` |
| copilot.dfy | `Copilot` | `inferInitiator`, the header merge, the wrapper class |

How the adapter's behaviour is represented:

- The stream is specified stage by stage as left folds: `AfterParts`, `AfterPayload`, `AfterLine`, `AfterLines` and `AfterChunks`. Each stage returns the events enqueued so far and, if something threw, what it was.
- `RunStream` is the adapter's `while (true)` read loop, written as an imperative method. It keeps a mutable buffer and nested loops over lines (`EmitLine`) and parts (`EmitParts`). It is proved equal to that specification.
- Parsed JSON is a JavaScript value (`Js.Value`). Property reads follow JavaScript's rules:
  - `chunk.response` on a null chunk throws;
  - `?.` chains give `undefined`;
  - a truthy `parts` that is neither an array nor a string is not iterable and throws;
  - iterating a string visits characters, which have neither `text` nor `functionCall`, so nothing is emitted;
  - reading `part.text` on a null part throws.
- Event fields hold whatever the vendor sent. The code copies the values without checking their type, so a `text-delta` carries a `Value`.

## Model

| member | source | states |
|---|---|---|
| MessageTranslation.TranslateRole | src/google-antigravity.ts:53 | the vendor role is `user` exactly when the neutral role is `user`, otherwise `model` |
| MessageTranslation.TranslatePart | src/google-antigravity.ts:54-59 | text becomes `{text}`, a tool call becomes `functionCall` with name, args and the call id unchanged, a tool result becomes `functionResponse` with name and result, and exactly the unknown part types become the empty part `{}` |
| MessageTranslation.TranslateParts | src/google-antigravity.ts:54-59 | one vendor part per neutral part, position by position |
| MessageTranslation.Translate | src/google-antigravity.ts:52-60 | succeeds exactly when every message has a list of parts; then one content per message, in order, with the role mapped and the parts translated in order; otherwise it reports the first message whose content is a string, which `content.map` rejects |
| MessageTranslation.TranslateAppend | src/google-antigravity.ts:52-60 | translating two histories one after the other gives the concatenation: no reordering, merging or dropping of messages |
| MessageTranslation.ToolCallIdPreserved | src/google-antigravity.ts:56 | the `toolCallId` of a tool-call part reaches the vendor unchanged as `functionCall.id` |
| Js.Truthy | src/google-antigravity.ts:108-113 | JavaScript truthiness: `undefined`, `null`, `false`, `0` and `""` are falsy, all else truthy |
| Js.Get | src/google-antigravity.ts:107-118 | a property read: an object's own key, `undefined` for a missing key or a non-object |
| Js.GetOpt | src/google-antigravity.ts:107 | `?.key`: `undefined` on a nullish value, otherwise the property read |
| Js.FirstOpt | src/google-antigravity.ts:107 | `?.[0]`: an array's first item, a string's first character, an object's key `"0"`, otherwise `undefined` |
| Text.SplitLines | src/google-antigravity.ts:99 | `split("\n")` yields at least one segment and no segment contains a newline |
| Text.JoinSplit | src/google-antigravity.ts:99 | joining the segments of a split with newlines gives back the text |
| Text.SplitJoin | src/google-antigravity.ts:99 | splitting the join of newline-free lines gives back the lines |
| Text.SplitAppend | src/google-antigravity.ts:98-99 | splitting a concatenation glues the last segment of the first text to the first segment of the second; all other segments are unchanged |
| Text.SplitAfterHead | src/google-antigravity.ts:98-99 | a newline-free text in front of another is glued to the other's first segment; the other segments are unchanged |
| Text.StartsWith | src/google-antigravity.ts:103 | `startsWith`: the text begins with the prefix |
| Text.Trim | src/google-antigravity.ts:104 | `trim()` keeps an infix whose removed ends are all JavaScript whitespace and which neither starts nor ends with whitespace; it is empty exactly when the text is all whitespace |
| Text.NatToString | src/google-antigravity.ts:84 | the decimal rendering of the status: non-empty, digits only, at least two digits exactly from 10 on (its value is `NatToStringValue`) |
| Text.NatToStringValue | src/google-antigravity.ts:84 | the digits of the rendering denote the number, most significant first, with no leading zero |
| Text.NatToStringInjective | src/google-antigravity.ts:117 | distinct numbers render as distinct strings |
| SseDecoder.Step | src/google-antigravity.ts:98-100 | after a chunk the buffer holds no newline, no released line holds one, and the released lines followed by the buffer, joined by newlines, equal the old buffer followed by the chunk |
| SseDecoder.StepExtends | src/google-antigravity.ts:98-100 | reading more input releases the complete lines read so far, then the lines of the old leftover plus the addition |
| SseDecoder.DecodeChunks | src/google-antigravity.ts:95-100 | the decoder's buffer and released lines after reading chunks one by one, as a left fold of `Step` |
| SseDecoder.DecodeChunksIsSplit | src/google-antigravity.ts:95-100 | chunk by chunk, the lines released are the complete lines of the concatenated input and the final buffer is its unterminated tail |
| SseDecoder.ChunkingInvariance | src/google-antigravity.ts:95-100 | two chunkings of the same input release the same lines and leave the same buffer |
| SseDecoder.TrailingFragmentNeverReleased | src/google-antigravity.ts:95-100 | a trailing fragment without a newline releases no line; it only lengthens the leftover, which is dropped at the end of input |
| SseDecoder.LinePayload | src/google-antigravity.ts:103-105 | a line has a payload exactly when it starts with `data:` and something other than whitespace follows; the payload is then the non-empty trimmed rest |
| SseDecoder.Payloads | src/google-antigravity.ts:102-105 | at most one payload per line, none of them empty |
| SseDecoder.PayloadsAppend | src/google-antigravity.ts:102-105 | payloads are extracted line by line, so the payloads of two line sequences are those of each, in order |
| SseDecoder.NonDataLinesIgnored | src/google-antigravity.ts:103 | lines that do not start with `data:` produce no payload |
| StreamEvents.PartEvents | src/google-antigravity.ts:109-122 | a null part throws with no event; otherwise a text delta for a truthy `text`, then a tool call for a truthy `functionCall`, with the vendor name and args, and the vendor id when truthy, otherwise the fallback of the call's own stream position |
| StreamEvents.AfterParts | src/google-antigravity.ts:109-122 | events are only appended and never include `finish`; the parts loop completes exactly when no part is null |
| StreamEvents.PartsPath | src/google-antigravity.ts:107 | `chunk.response?.candidates?.[0]?.content?.parts` on a chunk that is not nullish |
| StreamEvents.VisitedParts | src/google-antigravity.ts:107-109 | the parts whose visit can emit an event: the items of an array at the parts path, none otherwise |
| StreamEvents.AfterPayload | src/google-antigravity.ts:107-123 | events are only appended and never include `finish`; a payload with a missing or falsy parts path adds no event and does not throw |
| StreamEvents.PartTexts | src/google-antigravity.ts:109-112 | one part gives its text as a delta exactly when the text is truthy, and no other delta |
| StreamEvents.TextDeltasFollowParts | src/google-antigravity.ts:109-112 | each part with a truthy text gives exactly one text delta carrying that text verbatim, in part order |
| StreamEvents.PayloadWithoutPartsIsSilent | src/google-antigravity.ts:107-108 | a payload without a list of parts at the parts path adds no event |
| StreamEvents.SynthesizedIdsFollowPosition | src/google-antigravity.ts:113-118 | every tool call at stream position k carries either the truthy vendor id of one of the parts or the fallback of k; vendor ids and missing ids may be mixed in one payload |
| StreamEvents.CallId | src/google-antigravity.ts:117 | the fallback id starts with `call_` |
| StreamEvents.CallIdInjective | src/google-antigravity.ts:117 | distinct numbers give distinct fallback ids |
| StreamEvents.PositionIdsDistinct | src/google-antigravity.ts:117 | with the fallback numbered by stream position, no two tool calls of a payload whose ids are not vendor ids share an id |
| StreamEvents.CallWithoutIdEvents | src/google-antigravity.ts:113-121 | a part holding only a `functionCall` with a name gives one tool call with the fallback id, that name and undefined args |
| StreamEvents.TwoCallsWithoutId | src/google-antigravity.ts:109-121 | two such parts give two tool calls, with the fallbacks of positions 0 and 1 |
| StreamEvents.ClockFallbackCollides | src/google-antigravity.ts:117 | as written, two tool calls without ids mapped in the same millisecond get the same id |
| Antigravity.AfterPayloadText | src/google-antigravity.ts:106 | a payload that does not parse errors the stream with no new event; events are only appended and never include `finish` |
| Antigravity.AfterPayloads | src/google-antigravity.ts:102-124 | payload handling only appends events and never adds `finish` |
| Antigravity.AfterLine | src/google-antigravity.ts:103-105 | a line without a payload changes nothing |
| Antigravity.AfterLines | src/google-antigravity.ts:102-124 | the specification of the loop over lines: line by line, stopping at the first throw |
| Antigravity.AfterChunks | src/google-antigravity.ts:95-124 | the specification of the read loop: chunk by chunk, the buffer step and then the released lines, stopping at the first throw |
| Antigravity.Outcome | src/google-antigravity.ts:126-128 | after the loop: errored with the thrown error or the read failure, otherwise one `finish` enqueued and the stream closed |
| Antigravity.StreamOutcome | src/google-antigravity.ts:92-131 | the whole stream: the read loop over the chunks, then its outcome |
| Antigravity.EmitParts | src/google-antigravity.ts:109-122 | the parts loop enqueues exactly the events of the specification and stops at the first null part |
| Antigravity.EmitLine | src/google-antigravity.ts:103-123 | one line is filtered, trimmed, parsed and mapped exactly as specified |
| Antigravity.EmitLines | src/google-antigravity.ts:102-124 | the loop over released lines enqueues exactly the events of the specification and stops at the first line that throws |
| Antigravity.RunStream | src/google-antigravity.ts:92-131 | the read loop with its buffer gives exactly the specified events and ending: errored on the first throw or read failure, otherwise closed after one `finish` |
| Antigravity.HttpErrorMessage | src/google-antigravity.ts:84 | the upfront error message contains the decimal status code and ends with the body text |
| Antigravity.DoStream | src/google-antigravity.ts:37-135 | an untranslatable prompt fails first; a non-OK response fails with the status-and-body message before any stream exists; otherwise it returns the translated contents, the stream over the response's chunks, the prompt as `rawPrompt` and the remaining call options as `rawSettings` |
| Antigravity.Provider | src/google-antigravity.ts:29-31 | always `google-antigravity` |
| Antigravity.DoGenerate | src/google-antigravity.ts:33-35 | always fails with "Not implemented. Use doStream." |
| Antigravity.PartsFailureSticks | src/google-antigravity.ts:109-128 | after a part throws, no later part is visited |
| Antigravity.LinesFailureSticks | src/google-antigravity.ts:102-128 | after a line throws, no later line is handled |
| Antigravity.ChunksFailureSticks | src/google-antigravity.ts:95-128 | after a throw, no further chunk is read |
| Antigravity.PayloadsFailureSticks | src/google-antigravity.ts:102-128 | after a payload throws, no later payload is mapped |
| Antigravity.AfterLinesAppend | src/google-antigravity.ts:102-124 | handling two line sequences one after the other is handling their concatenation, and it stops early if the first throws |
| Antigravity.LinesArePayloads | src/google-antigravity.ts:103-105 | handling lines is handling their payloads in order |
| Antigravity.AfterChunksIsWhole | src/google-antigravity.ts:95-124 | chunk by chunk, the stream handles exactly the complete lines of the whole input |
| Antigravity.StreamDependsOnlyOnPayloads | src/google-antigravity.ts:95-126 | the events and the ending are a function of the payloads of the complete lines of the concatenated input and of how the reader ended |
| Antigravity.StreamChunkingInvariance | src/google-antigravity.ts:95-126 | for one fixed fallback, two chunkings of the same input give the same events and the same ending; with the source's clock the synthesized ids may differ between the two runs, while the payloads handled (`ChunkingInvariance`, `StreamDependsOnlyOnPayloads`) are the same regardless |
| Antigravity.ExactlyOneFinishOrError | src/google-antigravity.ts:126-128 | a stream closes exactly when nothing threw and the reader ended cleanly; a closed stream has one `finish` (stop, zero usage), as its last event; an errored stream has none |
| Antigravity.AfterLinesNoFinish | src/google-antigravity.ts:102-124 | line handling never enqueues `finish` |
| Antigravity.AfterChunksNoFinish | src/google-antigravity.ts:95-124 | the read loop never enqueues `finish` |
| Antigravity.BadPayloadErrorsStream | src/google-antigravity.ts:106-128 | a payload that fails to parse errors the stream with exactly the events of the earlier payloads; later payloads are never mapped |
| Antigravity.PayloadTextsDeltas | src/google-antigravity.ts:107-112 | the text deltas of one payload are the truthy texts of its parts, in order |
| Antigravity.StreamTextsInArrivalOrder | src/google-antigravity.ts:102-112 | across payloads, the text deltas are exactly the truthy texts in arrival order, each separate and none merged |
| Copilot.InferInitiator | src/github-copilot.ts:48-51 | `agent` exactly when the history is non-empty and the last role is not `user`; an empty history gives `user` |
| Copilot.InitiatorName | src/github-copilot.ts:50 | the header values `user` and `agent` |
| Copilot.WithInitiator | src/github-copilot.ts:38 | the merged headers have the caller's keys plus `X-Initiator`, hold the inferred initiator under `X-Initiator`, and keep every other caller header's value |
| Copilot.GitHubCopilotModel.constructor | src/github-copilot.ts:28-30 | the wrapper holds the given model |
| Copilot.GitHubCopilotModel.ModelId | src/github-copilot.ts:32 | the wrapped model's id |
| Copilot.GitHubCopilotModel.Provider | src/github-copilot.ts:33 | always `github-copilot` |
| Copilot.GitHubCopilotModel.DefaultObjectGenerationMode | src/github-copilot.ts:34 | the wrapped model's default object-generation mode |
| Copilot.GitHubCopilotModel.DoGenerate | src/github-copilot.ts:36-40 | the caller's options object gets the merged headers, with `X-Initiator` equal to the inferred initiator; that same object is passed to the wrapped model's `doGenerate`, and its reply is returned |
| Copilot.GitHubCopilotModel.DoStream | src/github-copilot.ts:42-46 | the same, delegating to the wrapped model's `doStream` |

## Behaviour worth knowing

- A part's `text` produces a delta only when it is truthy, so an empty string produces none (src/google-antigravity.ts:110).
- A tool-result part becomes `functionResponse` with only `name` and `response`; its call id is not sent (src/google-antigravity.ts:57).
- A message whose content is a string, as a system message's is, makes `content.map` throw, so `doStream` rejects before any request is made (src/google-antigravity.ts:54).
- The fallback tool-call id is built from the clock, so two calls mapped in the same millisecond share it (src/google-antigravity.ts:117; see Findings).

## Left out

- HTTP: `fetch`, the URL, the request headers and the request body (src/google-antigravity.ts:40-49, 62-80) are I/O. The response is a parameter `(ok, status, bodyText, chunks, end)`. `DoStream` returns the translated `contents`, which would go into the body. A rejected `fetch` or `response.text()`, and a null `response.body`, are not modelled.
- `TextDecoder`: chunks are already-decoded strings. Multi-byte characters split across chunks are not modelled, and neither is the decoder's final flush (the source never performs one).
- `JSON.parse` is a library call. It is the parameter `parse: string -> Option<Value>`, where `None` stands for a `SyntaxError`.
- `JSON.stringify(part.functionCall.args)`: a tool call's `args` holds the structured value. Its serialization to text is not modelled.
- `Date.now()` is a clock. The stream takes `fallback: nat -> string`, which gives the id synthesized for the event at a given stream position. The source's choice is `CallId` applied to the clock reading.
- `ReadableStream` and its controller: laziness, back-pressure, cancellation, the `finally` that closes an already errored controller, and the drop of queued but unread events when the controller errors. The model lists every event enqueued before the throw.
- Resource release of the reader is not modelled. The source never cancels or releases it explicitly.
- `stopSequences` is taken out of the call options and never used. `temperature` and `maxTokens` go into the request body (src/google-antigravity.ts:68-69). Every option other than `messages` and `stopSequences`, these two included, is echoed back as `rawCall.rawSettings` (src/google-antigravity.ts:38, 134). `DoStream` takes them as `settings` and returns them unchanged; their content is not modelled. `specificationVersion`, the Antigravity `modelId` and its undefined `defaultObjectGenerationMode` are constants.
- JavaScript numbers are reals. NaN, -0 and floating-point rounding are not modelled, and JSON cannot produce NaN.
- Property reads see only an object's own keys. Built-in properties of strings and arrays (such as `length`) are not modelled, and none of the keys the adapter reads names one.
- Header values that are `undefined` are not modelled. A missing `options.headers` is the empty map, as `{...undefined}` gives no keys.
- The wrapped model behind the Copilot wrapper is foreign code. It is `WrappedModel`, which records every request it receives and answers with a token naming the request.
- `createGitHubCopilot` (src/github-copilot.ts:8-19), `src/minimax.ts`, `src/zai.ts` and `src/openai-codex.ts` only configure `@ai-sdk` factories with constants.
- StreamEvents.PositionIdsDistinct: the uniqueness of synthesized ids (those that are not a vendor id of the payload's parts) is proved within one payload's parts loop. Across payloads it follows from `SynthesizedIdsFollowPosition` applied payload by payload, because positions only grow; it is not stated as one lemma over the whole stream.

## Findings

| source | as written | input that shows it | evidently intended | confidence | as-written member | corrected member |
|---|---|---|---|---|---|---|
| src/google-antigravity.ts:117 | a tool call without a vendor id gets the id `call_${Date.now()}` | one payload whose parts are two `functionCall`s without `id`, mapped in the same millisecond: both calls get the id `call_<now>` | an id unique within the stream, for instance numbered by the call's stream position | medium, not executed | StreamEvents.ClockFallbackCollides | StreamEvents.PositionIdsDistinct |

The stream loop takes the fallback as a parameter. `CallId` applied to the stream position is the corrected choice, and `PositionIdsDistinct` proves that the ids it synthesizes never collide.
