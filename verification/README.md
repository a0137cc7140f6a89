# Streaming and chat core of the AI SDK, in Dafny

This project models the parts of the AI SDK that reshape streams and
messages, and proves properties of them:

- **OpenAI stream re-encoding** (`OpenAIStream`, openai_stream.dfy).
  - `parseOpenAIStream` turns each provider delta into one of four
    fragments: a function-call header, an escaped argument fragment, the
    `"}}` closer, or plain text.
  - Argument escaping is a chain of seven global replacements. It is proved
    equal to a per-character escape map, which distributes over
    concatenation and decodes back as the body of a JSON string.
  - `createFunctionCallTransformer` is the class `FunctionCallTransformer`.
    Its `Transform` method is proved against the step function `Step`.
- **Client-side stream reassembly in `useChat`** (`ChatStream`,
  chat_stream.dfy).
  - `getStreamedResponse` folds decoded `(type, value)` lines into one entry
    per prefix type. It publishes a snapshot after every line, stops when
    the request is aborted, and finally splits the entries into messages and
    data.
  - The loops (`ReadAll`, `ReadBatch`, `MergeOne`, `FinalizeEntries`,
    `GetStreamedResponse`) are proved equal to the fold `MergeAll` and the
    final pass `Finalize`. Invariants and lemmas state what these keep.
- **The `useChat` session** (`UseChat`, use_chat.dfy).
  - `triggerRequest`, `append`, `reload`, `stop` and `handleSubmit` are
    methods of the class `ChatSession`. Its fields stand for the state SWR
    and the refs hold.
  - `TriggerRequest` is proved against the reference function `Trigger`.
- **UI-to-core message conversion** (`CoreMessages`, core_messages.dfy).
- **Mistral stream adapter** (`Mistral`, mistral.dfy): the `transform`
  callbacks, the `objectMode` default and the `tool_calls` mapping.
- **Errors and tags**:
  - `APICallError` (`ApiCallErrors`, api_call_error.dfy);
  - `UnsupportedFunctionalityError` (`UnsupportedFunctionality`,
    unsupported_functionality_error.dfy);
  - the update-instruction tag (`UpdateInstruction`,
    update_instruction.dfy).

Supporting modules:

- `Wrappers`: `Option` and `Result`.
- `Json`: JSON values, a decoder for JSON string bodies, and JavaScript
  string conversion.
- `JsRuntime`: JavaScript values with classes, properties and symbol-keyed
  properties, plus `typeof` and `instanceof`.
- `Seqs`: slice lemmas.

Runtime services are parameters:

- `JSON.parse` is `parse: string -> Option<Json>`, where `None` means it
  throws.
- `nanoid` is `idSource: nat -> string`; the i-th new entry gets
  `idSource(i)`.
- The abort is `abortAt`: the index of the first line after which the abort
  reference is found `null`.
- `trimStartOfStream` is `trim: string -> string`.
- `filesToParts` is a function parameter.
- `fetch`'s answer is a `Response` value.

Where the code and its comments disagree, the model follows the code:

- `triggerRequest` (packages/core/react/use-chat.ts:304-354) returns at
  line 353 inside its `while (true)`. A call therefore sends exactly one
  request.
- The request returned by `experimental_onFunctionCall` is assigned to the
  local `chatRequest` (line 347). Nothing reads it afterwards, although the
  comment at line 346 promises a next iteration.

## Model

| member | source | states |
|---|---|---|
| OpenAIStream.Classify | packages/core/streams/openai-stream.ts:90-115 | the header carries the delta's `function_call.name`, an argument fragment its `arguments`, and text the `delta.content ?? text ?? ''` value |
| OpenAIStream.BranchPriority | packages/core/streams/openai-stream.ts:90-115 | each branch is taken exactly when the earlier ones fail: non-empty name, then non-empty arguments, then finish reason `function_call`, then text |
| OpenAIStream.EscapeChar | packages/core/streams/openai-stream.ts:96-103 | a character escapes to two characters exactly when it is one of the seven special characters, and otherwise to itself |
| OpenAIStream.EscapeChainIsEscape | packages/core/streams/openai-stream.ts:96-103 | the chain of seven global replacements, backslash first, equals the per-character escape map, so nothing is escaped twice |
| OpenAIStream.EscapeChainConcat | packages/core/streams/openai-stream.ts:96-103 | the replacement chain distributes over concatenation |
| OpenAIStream.EscapeConcat | packages/core/streams/openai-stream.ts:92-105 | escaping distributes over concatenation: esc(a+b) = esc(a)+esc(b) |
| OpenAIStream.EscapeJoin | packages/core/streams/openai-stream.ts:92-105 | however the arguments are split into fragments, the escaped fragments join to the escape of the joined arguments |
| OpenAIStream.EscapeIsSafe | packages/core/streams/openai-stream.ts:97-103 | escaped text holds no raw LF, CR, TAB or FF, and every `"` in it follows a backslash |
| OpenAIStream.EscapeRoundTrip | packages/core/streams/openai-stream.ts:96-103 | decoding escaped text, then a quote, as a JSON string body gives back the text and what follows the quote |
| OpenAIStream.ClassifyCallChunks | packages/core/streams/openai-stream.ts:90-107 | a name delta, a non-empty arguments delta and the finish delta classify as header, arguments and closer |
| OpenAIStream.RenderArguments | packages/core/streams/openai-stream.ts:92-105 | a run of non-empty argument deltas renders as the escaped fragments, in order |
| OpenAIStream.RenderFunctionCall | packages/core/streams/openai-stream.ts:90-108 | a streamed call renders as the header, the escaped fragments and the closer |
| OpenAIStream.DecodeWholeCall | packages/core/streams/openai-stream.ts:79-107 | header, escaped arguments and closer decode to the call's name and arguments when the name needs no escaping |
| OpenAIStream.CallMessageRoundTrip | packages/core/streams/openai-stream.ts:79-107 | the object the client receives for a call has the call's name, and an `arguments` string equal to the raw fragments joined |
| OpenAIStream.EscapeChain | packages/core/streams/openai-stream.ts:96-103 | reference definition of the seven chained replacements; its properties are stated by `EscapeChainIsEscape` and `EscapeChainConcat` |
| OpenAIStream.StepWith | packages/core/streams/openai-stream.ts:144-185 | reference definition of one `transform` call for a given completion test; its properties are stated by `ForwardsPlainStream`, `BuffersFunctionCall`, `CompletesFunctionCall` and `ForwardsAfterCall` |
| OpenAIStream.Step | packages/core/streams/openai-stream.ts:144-185 | reference definition of one `transform` call with the completion test as written or corrected; `FunctionCallTransformer.Transform` is proved against it |
| OpenAIStream.Run | packages/core/streams/openai-stream.ts:137-185 | reference definition of the transformer over a whole stream; its properties are stated by `RunAppend`, `RunNotFirst`, `ForwardsPlainStream`, `BuffersFunctionCall`, `CompletesFunctionCall`, `ForwardsAfterCall`, `IntendedTransformerDeliversCall` and `AsWrittenCompletesEarly` |
| OpenAIStream.FunctionCallTransformer.constructor | packages/core/streams/openai-stream.ts:137-141 | a new transformer is in its first-chunk state with an empty buffer and nothing enqueued |
| OpenAIStream.FunctionCallTransformer.Transform | packages/core/streams/openai-stream.ts:144-185 | one `transform` call changes the fields exactly as the step function `Step` does with the completion test as written |
| OpenAIStream.RunNotFirst | packages/core/streams/openai-stream.ts:148-161 | the transformer is in its first-chunk state exactly until it has seen a chunk |
| OpenAIStream.ForwardsPlainStream | packages/core/streams/openai-stream.ts:148-164 | when the first chunk does not start with `{"function_call":`, every chunk is forwarded unchanged and nothing is buffered |
| OpenAIStream.BuffersFunctionCall | packages/core/streams/openai-stream.ts:148-173 | while a call streams in, the buffer is the concatenation of every chunk since the call began and nothing is forwarded |
| OpenAIStream.CompletesFunctionCall | packages/core/streams/openai-stream.ts:170-181 | the chunk that passes the completion test ends buffering and hands the whole buffer to the handler once |
| OpenAIStream.ForwardsAfterCall | packages/core/streams/openai-stream.ts:162-164 | once buffering is off, every later chunk is forwarded unchanged |
| OpenAIStream.IntendedTransformerDeliversCall | packages/core/streams/openai-stream.ts:165-181 | with the corrected completion test, a streamed call reaches the handler as one payload that decodes to its name and joined arguments, and nothing is forwarded |
| OpenAIStream.AsWrittenCompletesEarly | packages/core/streams/openai-stream.ts:173 | as written, the argument fragment `c"}}` passes the completion test: the call is cut there, and its text has an unterminated `arguments` string that does not decode, so in the program `JSON.parse` throws and the stream errors (a parse failure is not modelled, see the `Transform` line under Left out; the forwarded closer in the contract describes the model only) |
| OpenAIStream.StreamOutput | packages/core/streams/openai-stream.ts:122-131 | without `onFunctionCall` the parsed stream passes unchanged, and with it a stream that does not open a call also passes unchanged |
| CoreMessages.ToolCallParts | packages/core/core/prompt/convert-to-core-messages.ts:51-56 | one tool-call part per invocation, in order, with the invocation's id, name and args |
| CoreMessages.ToolResultParts | packages/core/core/prompt/convert-to-core-messages.ts:63-71 | one tool-result part per invocation, in order, with the invocation's id, name, args and result |
| CoreMessages.ConvertToCoreMessages | packages/core/core/prompt/convert-to-core-messages.ts:18-84 | the loop that pushes onto `coreMessages` returns the reference conversion `Converted`, including its error |
| CoreMessages.ConvertedStopsAtError | packages/core/core/prompt/convert-to-core-messages.ts:77-80 | once a prefix fails, the whole conversion fails with the same error |
| CoreMessages.ConvertMessageWidth | packages/core/core/prompt/convert-to-core-messages.ts:26-80 | one message converts exactly when its role is user or assistant, into one or two messages; otherwise the error is `Unhandled role: <role>` |
| CoreMessages.ConvertedOk | packages/core/core/prompt/convert-to-core-messages.ts:20-82 | the conversion succeeds exactly when every role is handled |
| CoreMessages.ConvertedWidth | packages/core/core/prompt/convert-to-core-messages.ts:20-82 | a successful conversion yields the summed widths of the messages |
| CoreMessages.ConvertedCount | packages/core/core/prompt/convert-to-core-messages.ts:18-84 | success exactly when every role is handled, with output length = #user + #assistant without tools + 2·#assistant with tools |
| CoreMessages.ConvertedError | packages/core/core/prompt/convert-to-core-messages.ts:77-80 | the error names the role of the first message with an unhandled role |
| CoreMessages.ConvertedConcat | packages/core/core/prompt/convert-to-core-messages.ts:20-82 | output order follows input order: converting a+b gives the conversion of a followed by that of b |
| CoreMessages.AssistantWithTools | packages/core/core/prompt/convert-to-core-messages.ts:47-72 | an assistant message with invocations (even none) becomes an assistant message (text part, then calls) and a tool message with matching results |
| CoreMessages.AssistantWithoutTools | packages/core/core/prompt/convert-to-core-messages.ts:41-44 | an assistant message without tool invocations becomes one assistant message with its content string unchanged |
| CoreMessages.ConvertMessage | packages/core/core/prompt/convert-to-core-messages.ts:26-80 | reference definition of one step of the conversion loop; its properties are stated by `ConvertMessageWidth`, `UserMessage`, `AssistantWithoutTools` and `AssistantWithTools` |
| CoreMessages.Converted | packages/core/core/prompt/convert-to-core-messages.ts:18-84 | reference definition of `convertToCoreMessages`; its properties are stated by `ConvertedOk`, `ConvertedWidth`, `ConvertedCount`, `ConvertedError`, `ConvertedStopsAtError` and `ConvertedConcat` |
| CoreMessages.UserMessage | packages/core/core/prompt/convert-to-core-messages.ts:27-36 | a user message becomes one user message: its content string, or a text part followed by the files' parts |
| Mistral.PartFor | packages/core/provider/mistral/mistral-chat-language-model.ts:143-148 | the emitted part carries the content unchanged, as `text-delta` exactly in `doStream` |
| Mistral.TransformChunk | packages/core/provider/mistral/mistral-chat-language-model.ts:136-149 | no `choices` or no `delta` emits nothing; non-null content emits exactly one part with that content; an empty `choices` array throws |
| Mistral.Transform | packages/core/provider/mistral/mistral-chat-language-model.ts:133-152 | at most one part per chunk |
| Mistral.TransformFails | packages/core/provider/mistral/mistral-chat-language-model.ts:137 | a stream fails exactly when one of its chunks has an empty `choices` array |
| Mistral.TransformConcat | packages/core/provider/mistral/mistral-chat-language-model.ts:133-152 | the stream of a concatenation is the first stream followed by the second, unless the first failed |
| Mistral.TransformSingle | packages/core/provider/mistral/mistral-chat-language-model.ts:136-149 | a single chunk's stream is its own part, nothing, or its error |
| Mistral.StreamsAgree | packages/core/provider/mistral/mistral-chat-language-model.ts:226-296 | all three streams carry the chunks' contents in order; the json and tool modes are identical; only `doStream` emits `text-delta` |
| Mistral.EffectiveObjectMode | packages/core/provider/mistral/mistral-chat-language-model.ts:86-88 | `objectMode` is `'json'` when unset, otherwise the setting |
| Mistral.MapToolCalls | packages/core/provider/mistral/mistral-chat-language-model.ts:199-203 | each tool call maps to `{toolCallId: id, toolName: function.name, args: function.arguments}`, in order |
| Mistral.ToolCalls | packages/core/provider/mistral/mistral-chat-language-model.ts:199-203 | absent `tool_calls` stays absent; otherwise one call per call, in order, with id, name and arguments |
| Mistral.ToolCallsRoundTrip | packages/core/provider/mistral/mistral-chat-language-model.ts:199-203 | the mapping loses nothing: the client's calls are recovered from the result |
| ApiCallErrors.DefaultIsRetryableByRange | packages/provider/src/errors/api-call-error.ts:26-30 | default retryable: never without a status code or below 400, only 408, 409 and 429 among 4xx, always from 500; 400 and 404 are not |
| ApiCallErrors.New | packages/provider/src/errors/api-call-error.ts:18-56 | the name is `AI_APICallError`, every argument is stored unchanged, and an explicit `isRetryable` overrides the default |
| ApiCallErrors.Fields | packages/provider/src/errors/api-call-error.ts:92-105 | the error exposes exactly the ten fields |
| ApiCallErrors.ToObject | packages/provider/src/errors/api-call-error.ts:3-6 | the error is an `Error`, an `AISDKError` and an `APICallError`, and carries the marker symbol set to `true` |
| ApiCallErrors.ToJSON | packages/provider/src/errors/api-call-error.ts:92-105 | `toJSON` is a plain object with exactly the ten field names |
| ApiCallErrors.ToJSONRoundTrip | packages/provider/src/errors/api-call-error.ts:92-105 | every stored field is read back from `toJSON()` with its stored value |
| ApiCallErrors.IsInstanceIff | packages/provider/src/errors/api-call-error.ts:58-67 | `isInstance` holds exactly for instances and for objects whose marker is `true`; never for null or undefined |
| ApiCallErrors.ConstructedIsInstance | packages/provider/src/errors/api-call-error.ts:58-67 | a constructed error is recognised, and so is a plain object carrying its marker |
| ApiCallErrors.DeprecatedGuardOnConstructed | packages/provider/src/errors/api-call-error.ts:72-89 | on constructed errors the deprecated guard holds exactly when `requestBodyValues` is object-typed and `cause` and `data` are absent or object-typed |
| UnsupportedFunctionality.MessageFor | packages/provider/src/errors/unsupported-functionality-error.ts:14 | the message is `'`, the functionality, then `' functionality not supported.` |
| UnsupportedFunctionality.MessageRoundTrip | packages/provider/src/errors/unsupported-functionality-error.ts:14 | the message determines the functionality it names |
| UnsupportedFunctionality.New | packages/provider/src/errors/unsupported-functionality-error.ts:11-18 | the name is `AI_UnsupportedFunctionalityError`, the functionality is stored unchanged, and the message names it |
| UnsupportedFunctionality.ToObject | packages/provider/src/errors/unsupported-functionality-error.ts:3-7 | the error carries the symbol for `vercel.ai.error.api-call-error`, the marker of `APICallError` |
| UnsupportedFunctionality.ToObjectIntended | packages/provider/src/errors/unsupported-functionality-error.ts:3-7 | the corrected object carries a marker of its own |
| UnsupportedFunctionality.DeprecatedGuardAccepts | packages/provider/src/errors/unsupported-functionality-error.ts:27-35 | the deprecated guard accepts every constructed error |
| UnsupportedFunctionality.DeprecatedGuardRejectsApiCallError | packages/provider/src/errors/unsupported-functionality-error.ts:27-35 | the deprecated guard rejects every constructed `APICallError` |
| UnsupportedFunctionality.ApiCallGuardRejects | packages/provider/src/errors/api-call-error.ts:72-89 | `isAPICallError` rejects every constructed `UnsupportedFunctionalityError` |
| UnsupportedFunctionality.ToJSON | packages/provider/src/errors/unsupported-functionality-error.ts:40-48 | `toJSON` holds exactly name, message, stack and functionality, with their values |
| UnsupportedFunctionality.MarkerCollision | packages/provider/src/errors/unsupported-functionality-error.ts:3-7 | as written, `APICallError.isInstance` accepts every `UnsupportedFunctionalityError`, which is not an `APICallError` |
| UnsupportedFunctionality.IntendedMarkerIsDistinct | packages/provider/src/errors/unsupported-functionality-error.ts:3-7 | with a marker of its own, the error is not taken for an `APICallError` |
| UpdateInstruction.Tag | packages/ai/core/generate-text/update-instruction-tool-result.ts:25-32 | a fresh object holding every field and symbol of the delta unchanged, plus the tag, which is `true` unless the delta carries one of its own |
| UpdateInstruction.TagRoundTrip | packages/ai/core/generate-text/update-instruction-tool-result.ts:25-43 | a tagged delta is recognised unless it carries its own tag set to something other than `true`; it always is when it has no symbol keys |
| UpdateInstruction.RejectsNonObjects | packages/ai/core/generate-text/update-instruction-tool-result.ts:37-39 | null and non-object values are rejected |
| UpdateInstruction.RecognisesByTag | packages/ai/core/generate-text/update-instruction-tool-result.ts:40-41 | an object is recognised exactly when its tag is present and exactly `true` |
| ChatStream.Absorb | packages/core/react/use-chat.ts:165-193 | reference definition of the merge of one line before the abort check; its properties are stated by `AbsorbFacts` |
| ChatStream.CheckAndParse | packages/core/react/use-chat.ts:195-213 | reference definition of the abort check and the function-call parse after a line; its properties are stated by `CheckAndParseFacts` and `CheckAndParsePublished` |
| ChatStream.MergeLine | packages/core/react/use-chat.ts:162-214 | reference definition of one iteration of the reading loop; its properties are stated by `MergeLineShape`, `MergeLineContents`, `MergeLinePublished` and `FunctionCallLine`, and `MergeOne` is proved against it |
| ChatStream.MergeAll | packages/core/react/use-chat.ts:154-215 | reference definition of the reading loop over all lines; its properties are stated by `MergeAllProgress`, `MergeAllSnapshots`, `MergeAllOrder`, `MergeAllEntries`, `StoppedFoldIgnoresRest` and `StopsAfterAbortLine`, and `ReadAll` is proved against it |
| ChatStream.FinishItem | packages/core/react/use-chat.ts:217-223 | reference definition of finishing one entry; its properties are stated by `FinishItemKeeps` |
| ChatStream.Finalize | packages/core/react/use-chat.ts:217-235 | reference definition of the final pass; its properties are stated by `FinalizeKeeps`, `FinalizePartition`, `FinalizeSingle` and `FailedFinalizeIgnoresRest`, and `FinalizeEntries` is proved against it |
| ChatStream.Streamed | packages/core/react/use-chat.ts:150-235 | reference definition of `getStreamedResponse` once the body is readable; `GetStreamedResponse` is proved against it, and `AsWrittenRejectsFunctionCall` and `CorrectedDeliversFunctionCall` are about it |
| ChatStream.Accumulate | packages/core/react/use-chat.ts:165-178 | after a line, its type has an entry |
| ChatStream.Snapshot | packages/core/react/use-chat.ts:184-193 | the snapshot is the request's messages, then the function-call entry if any, then the text entry if any; data is never shown |
| ChatStream.ValuesInOrder | packages/core/react/use-chat.ts:212 | `prefixMap.values()` lists the entries in insertion order |
| ChatStream.AbsorbFacts | packages/core/react/use-chat.ts:165-193 | merging a line appends its value to its type's entry (or creates the entry with a fresh id, its role and `createdAt`), sets a `function_call` field to the line's value, and publishes the snapshot |
| ChatStream.CheckAndParseFacts | packages/core/react/use-chat.ts:195-213 | the abort check and the parse change no content, id, role or `createdAt`, and reading stops exactly on abort |
| ChatStream.MergeLineShape | packages/core/react/use-chat.ts:162-214 | one line adds its type to the known types in first-seen order, and reading stops exactly when aborted after it |
| ChatStream.MergeLineContents | packages/core/react/use-chat.ts:165-178 | one line extends only its own type's content and keeps every id, role and `createdAt` |
| ChatStream.CheckAndParsePublished | packages/core/react/use-chat.ts:201-213 | the parse publishes at most one snapshot, beginning with the request's messages |
| ChatStream.MergeLinePublished | packages/core/react/use-chat.ts:184-213 | a line publishes one or two snapshots, each beginning with the request's messages, and keeps the earlier ones |
| ChatStream.NameOf | packages/core/react/use-chat.ts:222 | reading `name` throws exactly on `null`, and on an object gives its `name` property |
| ChatStream.StoppedFoldIgnoresRest | packages/core/react/use-chat.ts:195-199 | once reading has stopped or failed, later lines change nothing |
| ChatStream.FailedFinalizeIgnoresRest | packages/core/react/use-chat.ts:217-223 | once the final pass throws, later entries change nothing |
| ChatStream.MergeOne | packages/core/react/use-chat.ts:165-213 | the inner loop body computes one step of the fold `MergeLine` and keeps an entry for every known type |
| ChatStream.ReadBatch | packages/core/react/use-chat.ts:162-214 | the inner loop computes the fold over one more batch of lines |
| ChatStream.ReadAll | packages/core/react/use-chat.ts:154-215 | the reading loop computes the fold over all lines of all batches |
| ChatStream.FinalizeEntries | packages/core/react/use-chat.ts:217-235 | the final loop computes the final pass `Finalize` |
| ChatStream.GetStreamedResponse | packages/core/react/use-chat.ts:150-235 | reading and the final pass together compute `Streamed` |
| ChatStream.MergeAllProgress | packages/core/react/use-chat.ts:154-215 | the fold merges every line while it reads on, and a prefix once stopped or failed |
| ChatStream.MergeAllSnapshots | packages/core/react/use-chat.ts:184-213 | one or two snapshots per merged line, each beginning with the request's messages |
| ChatStream.MergeAllOrder | packages/core/react/use-chat.ts:165-178 | the entries are the types in first-seen order, without repeats, each with the id drawn when the type first appeared |
| ChatStream.MergeAllEntries | packages/core/react/use-chat.ts:165-177 | each entry's content is its type's values joined in arrival order, with role `function` exactly for `function_call`, and the response's `createdAt` |
| ChatStream.FunctionCallLine | packages/core/react/use-chat.ts:180-209 | a `function_call` line sets the field to its own value; without an abort, a non-empty value is replaced by its parse, or reading fails |
| ChatStream.StopsAfterAbortLine | packages/core/react/use-chat.ts:195-199 | when the abort is seen after line k, reading stops there and keeps everything merged up to k |
| ChatStream.Partition | packages/core/react/use-chat.ts:228-232 | the entries split into messages and data without loss: together they hold every finished entry, `data` holds one per data entry, and with no data entry every entry is a message, in order |
| ChatStream.FinishItemKeeps | packages/core/react/use-chat.ts:217-223 | finishing an entry keeps its id, role, content and `createdAt`, and leaves a truthy call parsed |
| ChatStream.FinalizeKeeps | packages/core/react/use-chat.ts:217-226 | `onFinish` sees the entries in first-seen order, each keeping its id, role, content and `createdAt` |
| ChatStream.FinalizePartition | packages/core/react/use-chat.ts:217-235 | on success `onFinish` saw every entry, data included, and data entries go to `data`, all others to `messages`; on failure it stopped early |
| ChatStream.SingleFunctionCall | packages/core/react/use-chat.ts:165-213 | a single `function_call` line makes a `function` entry whose field is the parse of its value, or fails reading |
| ChatStream.FinalizeSingle | packages/core/react/use-chat.ts:217-235 | the final pass over one entry gives its finished form in `messages`, or in `data` when it is the data entry, or its error |
| ChatStream.AsWrittenRejectsFunctionCall | packages/core/react/use-chat.ts:218-220 | as written, a streamed function call is re-parsed as `[object Object]` at the end and the response throws |
| ChatStream.CorrectedDeliversFunctionCall | packages/core/react/use-chat.ts:217-223 | parsing only while the field is a string delivers one `function` message with the parsed call and its name |
| UseChat.Fetch | packages/core/react/use-chat.ts:75-236 | reference definition of `getStreamedResponse` for each kind of response; its properties are stated by `FetchStreaming`, `FailedRequestRestores`, `EmptyBodyKeepsRequest` and `AbortErrorIsQuiet` |
| UseChat.HandleCalls | packages/core/react/use-chat.ts:320-349 | reference definition of the loop over the streamed messages; its properties are stated by `NoHandlerNoCalls` and `HandledCallsInOrder`, and `RunHandlers` is proved against it |
| UseChat.Catch | packages/core/react/use-chat.ts:355-369 | reference definition of the `catch` and `finally` blocks of `triggerRequest`; its properties are stated by `SettleFailure` |
| UseChat.Settle | packages/core/react/use-chat.ts:318-369 | reference definition of `triggerRequest` after `getStreamedResponse` settles; its properties are stated by `SettleSendsOnce`, `SettleFailure` and `SettleSuccess` |
| UseChat.Trigger | packages/core/react/use-chat.ts:298-370 | reference definition of `triggerRequest`; its properties are stated by `TriggerSendsOnce`, `StreamedSuccess`, `AbortErrorIsQuiet`, `FailedRequestRestores`, `EmptyBodyKeepsRequest`, `AsWrittenMissingStreamData` and `IntendedMissingStreamData`, and `ChatSession.TriggerRequest` is proved against it |
| UseChat.ReloadRequest | packages/core/react/use-chat.ts:393-420 | nothing is requested exactly for an empty history, and the options are passed on |
| UseChat.AppendRequest | packages/core/react/use-chat.ts:377-386 | the request carries the given options |
| UseChat.ReloadMessages | packages/core/react/use-chat.ts:395-417 | after an assistant message the history without it is sent, otherwise the whole history |
| UseChat.ReloadAfterReply | packages/core/react/use-chat.ts:398-407 | reloading after an assistant reply re-sends the request that was answered |
| UseChat.AppendMessages | packages/core/react/use-chat.ts:377-386 | the history is kept as a prefix, and exactly the given message follows, with a fresh id when its id is missing |
| UseChat.MergeStreamDataAsWritten | packages/core/react/use-chat.ts:318 | as written, merging throws exactly when no stream data is held, and otherwise puts the response's data first |
| UseChat.MergeStreamDataIntended | packages/core/react/use-chat.ts:318 | the corrected merge puts the response's data first and counts missing stream data as none |
| UseChat.SettleSendsOnce | packages/core/react/use-chat.ts:298-370 | every call logs exactly one request and ends loading, keeping the input; the messages shown are the ones the response left |
| UseChat.SettleFailure | packages/core/react/use-chat.ts:355-369 | an `AbortError` resolves to null and keeps the error; any other error is stored and resolves to undefined |
| UseChat.SettleSuccess | packages/core/react/use-chat.ts:318-353 | on success the response's data goes before the earlier stream data, and unless the handler threw the call resolves to null |
| UseChat.TriggerSendsOnce | packages/core/react/use-chat.ts:304-354 | `triggerRequest` hands exactly one request to `fetch` per call, ends loading, keeps the input and only extends the logs |
| UseChat.FetchStreaming | packages/core/react/use-chat.ts:143-236 | a readable response gives the outcome of `Streamed`, with its last snapshot shown |
| UseChat.AbortErrorIsQuiet | packages/core/react/use-chat.ts:356-360 | an aborted request resolves to null, restores the previous messages and leaves the error as it was |
| UseChat.FailedRequestRestores | packages/core/react/use-chat.ts:123-141 | a rejected request or a response that is not ok restores the previous messages and stores the error, whose message is the body text or the fixed default |
| UseChat.EmptyBodyKeepsRequest | packages/core/react/use-chat.ts:143-145 | a response without a body keeps the request's messages shown and stores `The response body is empty.` |
| UseChat.StreamedSuccess | packages/core/react/use-chat.ts:298-353 | a successful stream leaves its last snapshot shown, logs every finished entry and merges the stream data |
| UseChat.NoHandlerNoCalls | packages/core/react/use-chat.ts:320-349 | without a handler no call is handed over and the loop cannot throw |
| UseChat.HandledCallsInOrder | packages/core/react/use-chat.ts:320-349 | the handler sees the parsed calls of the leading messages, in order, and stops at the first message without one |
| UseChat.AsWrittenMissingStreamData | packages/core/react/use-chat.ts:318 | as written, a successful first response fails with a `TypeError`, and the handler is never reached |
| UseChat.IntendedMissingStreamData | packages/core/react/use-chat.ts:318 | with missing stream data counted as none, the stream data becomes the response's data |
| UseChat.RunHandlers | packages/core/react/use-chat.ts:320-349 | the loop over the streamed messages computes `HandleCalls` |
| UseChat.ChatSession.constructor | packages/core/react/use-chat.ts:257-296 | a session starts with the initial messages and input, not loading, with no error and no stream data |
| UseChat.ChatSession.TriggerRequest | packages/core/react/use-chat.ts:298-370 | the new state and result are those of the reference `Trigger` |
| UseChat.ChatSession.Append | packages/core/react/use-chat.ts:372-391 | `append` triggers the request that `AppendRequest` builds from the current history |
| UseChat.ChatSession.Reload | packages/core/react/use-chat.ts:393-420 | with an empty history nothing changes and null is returned; otherwise the request `ReloadRequest` builds is triggered |
| UseChat.ChatSession.Stop | packages/core/react/use-chat.ts:422-427 | the abort controller is cleared and nothing else changes |
| UseChat.ChatSession.HandleSubmit | packages/core/react/use-chat.ts:440-467 | an empty input changes nothing; otherwise the input is appended as a user message and cleared |
| UseChat.SubmitSendsInput | packages/core/react/use-chat.ts:454-464 | a submitted input is sent as the last message of the request, from the user, with a fresh id, after the history |

## Left out

- `fetch`, the request body, headers and credentials, `onResponse`, and reading the body as text. The response is a `Response` value: rejected, not ok (with its text), without a body, or the decoded line batches.
- SWR and React. `mutate`, `useSWR`, `useState`, `useEffect` and `useCallback` become the fields of `ChatSession`. The lag of `messagesRef` behind SWR's `messages` is not modelled: the session reads its own `messages`.
- `setMessages`, `setInput` and `handleInputChange` are plain assignments and are not modelled. The `metadata` argument of `handleSubmit` only updates request metadata, which is itself not modelled.
- `nanoid`, `JSON.parse`, `trimStartOfStream`, `filesToParts` and `new Date()` are parameters. `createChunkDecoder`, `StreamStringPrefixes`, `AIStream`, `readableFromAsyncIterable` and `AISDKError.hasMarker` are not part of this model.
- `onFinish` is logged as the list of entries passed to it. `onError` is not modelled; the error it would receive is stored in the session.
- Aliasing is not modelled. The snapshots share entry objects with `prefixMap` in the source, and the message given to `append` is mutated in place; in the model they are values.
- `reader.cancel()` is not modelled, and neither is a read that rejects mid-stream (an abort that errors the body, or a network error). In the source such a rejection keeps the last snapshot shown and, for an abort, resolves to null. The model takes an abort at `fetch` (an `AbortError` rejection) or at the check after each line.
- `ChatStream.MergeOne`, `ChatStream.ReadBatch`: require the fold to be reading and to hold an entry for every known type. The loops only call them in that state.
- `OpenAIStream.FunctionCallTransformer.Transform`: logs the aggregated text handed to the handler. It does not model the `JSON.parse` of that text (nor the stream erroring when that parse throws), the `onFunctionCall` promise, or the `TextDecoder`/`TextEncoder` round trip. Chunks are strings.
- `OpenAIStream.CallMessageRoundTrip`: proved only for names that need no escaping, and for fragments without control characters other than LF, CR, TAB and FF. The source escapes neither the name nor other control characters.
- `console.log` calls, `TransformStream` and `ReadableStream` plumbing, and async/await are not modelled.
- Floating-point numbers and `\u` escapes. JSON numbers are integers, and the string decoder accepts only the escapes the source produces.
- The Mistral client calls are not modelled: `client.chat`, `client.chatStream`, `getClient`, `basePrompt`, `doGenerate` and the non-streaming text of `doGenerateJsonText`. The prompt converters are not part of this model.
- The `stack` of `UnsupportedFunctionalityError` is whatever the runtime recorded; `ToJSON` takes it as a parameter.

## Findings

| source | as written | input that shows it | evidently intended | confidence | as-written member | corrected member |
|---|---|---|---|---|---|---|
| packages/core/streams/openai-stream.ts:173 | the call is complete when the current chunk ends in `"}}`; the cut call does not parse, so `JSON.parse` throws and the stream errors | arguments ending in `c"}}` (e.g. `{"a":{"b":"c"}}`): the fragment escapes to `c\"}}` | complete only on the closer fragment `"}}` itself | not executed | OpenAIStream.AsWrittenCompletesEarly | OpenAIStream.IntendedTransformerDeliversCall |
| packages/core/react/use-chat.ts:218-220 | `JSON.parse(item.function_call)` on a field that line 209 already replaced by its parse | one `function_call` line whose value parses to an object, read to the end | parse the field only while it is still a string | not executed | ChatStream.AsWrittenRejectsFunctionCall | ChatStream.CorrectedDeliversFunctionCall |
| packages/core/react/use-chat.ts:318 | `[...data, ...streamData]` while SWR holds `undefined` for `streamData` | the first successful response of a session | count missing stream data as none | not executed | UseChat.AsWrittenMissingStreamData | UseChat.IntendedMissingStreamData |
| packages/provider/src/errors/unsupported-functionality-error.ts:3 | the marker is `vercel.ai.error.api-call-error`, the same as `APICallError`'s | any `UnsupportedFunctionalityError` given to `APICallError.isInstance` | a marker of the class's own | not executed | UnsupportedFunctionality.MarkerCollision | UnsupportedFunctionality.IntendedMarkerIsDistinct |
