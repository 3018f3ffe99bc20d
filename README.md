# AI-VIBE-CHAT-V2 core, modelled in Dafny

This project models the server side of a multi-provider chat application and the client stores around it.

**The legacy chat endpoint.** `POST /api/chat` takes `{messages, provider, model, config}`. It looks the provider up in a fixed table and rejects an unknown one (400) or a missing key (401). Otherwise it prepends a system prompt and relays the provider's answer as a server-sent-event stream. Each frame is `data: {"choices":[{"delta":{"content":…}}]}`, and exactly one `data: [DONE]` frame ends the stream. Failures become one readable error frame inside the stream.

**The provider client.** `streamChat` picks one of six request variants from the provider id: OpenAI-compatible, Ollama, Google, Anthropic, Hugging Face and MiniMax. The variant shapes the upstream request, then decodes the upstream body read by read. There are three framings:
- server-sent events with a carried-over partial line;
- newline-delimited JSON without carry-over;
- one JSON document per read, with a raw-text fallback.

**The newer chat endpoint.** It has:
- request validation: message shape, a script-tag check, system messages first, and length bounds;
- API-key authentication with a constant-time compare;
- a provider registry;
- a mock provider;
- `StreamProcessor`, which splits the relayed server-sent events into lines and parses them.

**Client state.** The Svelte stores are modelled as classes whose methods replace the store's state:
- the chat, session, UI and error stores;
- the legacy chat and settings stores.

Also modelled: the HTML escaping and content-safety checks, and the retry predicates of the query client.

Conventions:
- `JSON.parse` is a parameter, `parse: string -> Option<Json>`, where `None` means it throws. Every decoder property therefore holds for every parser.
- The network is a parameter: a response is its status, its body's reads in order, and an optional read failure.
- The clock, random numbers and the browser's `localStorage` and `matchMedia` are parameters or ghost state.

Three behaviours of the code worth knowing:
- The Ollama and Google decoders lose a line that is split across two reads (`SplitJsonLineLost`). The server-sent-event variants decode a split frame the same as an unsplit one (`SseChunkSplitInvariant`).
- The MiniMax variant sends no `max_tokens` (`MiniMaxRequestShape`).
- The Google variant maps every role other than `assistant` to `user`.

White space: `trim` and the `\s` class of the provider-tag and event-handler patterns cover the full JavaScript set. That is tab, line feed, vertical tab, form feed, carriage return, space, U+00A0, U+1680, U+2000–U+200A, U+2028, U+2029, U+202F, U+205F, U+3000 and U+FEFF (`Text.IsWhitespace`).

## Model

| member | source | states |
|---|---|---|
| Json.Get | legacy/.svelte-kit/output/server/entries/endpoints/api/chat/_server.ts.js:74 | optional chaining `o?.[key]` finds a member only in an object, and the last duplicate name wins |
| Json.SerializeSingleLine | legacy/src/routes/api/chat/+server.ts:28 | compact `JSON.stringify` output never holds a line break, so each payload fits one `data: ` line |
| Json.ObjectFrameIsNotDone | legacy/src/routes/api/chat/+server.ts:28-30 | a frame carrying an object is never the `data: [DONE]` sentinel |
| LegacyProviderClient.VariantOf | legacy/.svelte-kit/output/server/entries/endpoints/api/chat/_server.ts.js:12-28 | ollama, google, anthropic, huggingface and minimax each get their own variant; every other id, moonshot and xai included, gets the OpenAI-compatible one |
| LegacyProviderClient.ResolveBaseUrl | legacy/.svelte-kit/output/server/entries/endpoints/api/chat/_server.ts.js:10-11 | a non-empty configured base URL replaces the registry one |
| LegacyProviderClient.MessagesJson | legacy/.svelte-kit/output/server/entries/endpoints/api/chat/_server.ts.js:86 | the messages are sent as one `{role, content}` object each, in order |
| LegacyProviderClient.DropEmptySystem | legacy/.svelte-kit/output/server/entries/endpoints/api/chat/_server.ts.js:48 | exactly the system messages with empty content are dropped, the rest kept in order; on one message it keeps or drops that message |
| LegacyProviderClient.DropEmptySystemAppend | legacy/.svelte-kit/output/server/entries/endpoints/api/chat/_server.ts.js:48 | filtering a concatenation filters each part and keeps their order |
| LegacyProviderClient.NonSystem | legacy/.svelte-kit/output/server/entries/endpoints/api/chat/_server.ts.js:143 | exactly the non-system messages, in order; on one message it keeps it exactly when it is not a system message |
| LegacyProviderClient.NonSystemAppend | legacy/.svelte-kit/output/server/entries/endpoints/api/chat/_server.ts.js:143 | filtering a concatenation filters each part and keeps their order |
| LegacyProviderClient.FirstSystemIndex | legacy/.svelte-kit/output/server/entries/endpoints/api/chat/_server.ts.js:144 | the index of the first system message, or the length when there is none |
| LegacyProviderClient.FirstSystemContent | legacy/.svelte-kit/output/server/entries/endpoints/api/chat/_server.ts.js:144 | the content of the first system message, absent when there is none |
| LegacyProviderClient.GoogleContents | legacy/.svelte-kit/output/server/entries/endpoints/api/chat/_server.ts.js:106-109 | one entry per non-system message, `assistant` becoming `model` and every other role `user`, the text wrapped in one part |
| LegacyProviderClient.ScanAppend | legacy/.svelte-kit/output/server/entries/endpoints/api/chat/_server.ts.js:68-79 | scanning two runs of lines is scanning the first, then the second unless the first hit `[DONE]` |
| LegacyProviderClient.DecodeSse | legacy/.svelte-kit/output/server/entries/endpoints/api/chat/_server.ts.js:61-80 | the read loop with its carry-over buffer yields exactly the scan of the newline-terminated lines of all the reads together |
| LegacyProviderClient.ScanBatch | legacy/.svelte-kit/output/server/entries/endpoints/api/chat/_server.ts.js:68-79 | the inner loop yields the truthy deltas of its lines in order and returns at the first `[DONE]` line |
| LegacyProviderClient.SseStep | legacy/.svelte-kit/output/server/entries/endpoints/api/chat/_server.ts.js:62-67 | one more read adds the lines completed by it after the held-back rest |
| LegacyProviderClient.SseStoppedEarly | legacy/.svelte-kit/output/server/entries/endpoints/api/chat/_server.ts.js:71 | once `[DONE]` is reached, later reads change nothing |
| LegacyProviderClient.NonEmpty | legacy/.svelte-kit/output/server/entries/endpoints/api/chat/_server.ts.js:95 | `.filter(Boolean)` keeps exactly the non-empty pieces, every one of them and nothing else, in order |
| LegacyProviderClient.NonEmptyAppend | legacy/.svelte-kit/output/server/entries/endpoints/api/chat/_server.ts.js:95 | filtering a concatenation filters each part and keeps their order |
| LegacyProviderClient.DecodeJsonLines | legacy/.svelte-kit/output/server/entries/endpoints/api/chat/_server.ts.js:92-103 | the Ollama and Google loops yield the truthy content of each parsable non-empty line of each read on its own |
| LegacyProviderClient.DecodeRead | legacy/.svelte-kit/output/server/entries/endpoints/api/chat/_server.ts.js:96-101 | one read: the truthy content of each parsable non-empty line, in line order, as `ChunkDeltas` |
| LegacyProviderClient.DecodeWhole | legacy/.svelte-kit/output/server/entries/endpoints/api/chat/_server.ts.js:192-203 | the Hugging Face loop yields per read `generated_text`, else `token.text`, else the raw text when parsing fails |
| LegacyProviderClient.StreamChatRun | legacy/.svelte-kit/output/server/entries/endpoints/api/chat/_server.ts.js:9-29 | a request is sent exactly when a config was given, and nothing is yielded otherwise |
| LegacyProviderClient.StreamChat | legacy/.svelte-kit/output/server/entries/endpoints/api/chat/_server.ts.js:9-29 | the dispatch and read loop send, yield and throw exactly what `StreamChatRun` says |
| LegacyProviderClient.SseChunkSplitInvariant | legacy/.svelte-kit/output/server/entries/endpoints/api/chat/_server.ts.js:61-67 | the SSE variants yield the same deltas for any two cuttings of the same body text |
| LegacyProviderClient.DoneStopsDecoding | legacy/.svelte-kit/output/server/entries/endpoints/api/chat/_server.ts.js:69-71 | a `data: [DONE]` line ends decoding: the deltas are those of the lines before it, whatever follows |
| LegacyProviderClient.ScanNeverStopped | legacy/.svelte-kit/output/server/entries/endpoints/api/chat/_server.ts.js:160-171 | without a `[DONE]` line, and always in the Anthropic dialect, a scan never stops |
| LegacyProviderClient.AnthropicNeverStops | legacy/.svelte-kit/output/server/entries/endpoints/api/chat/_server.ts.js:153-172 | the Anthropic decoder always reads the whole body |
| LegacyProviderClient.UnusableLineSkipped | legacy/.svelte-kit/output/server/entries/endpoints/api/chat/_server.ts.js:69-77 | a line without the `data: ` prefix or with an unparsable payload is skipped and decoding goes on |
| LegacyProviderClient.UnterminatedLineLost | legacy/.svelte-kit/output/server/entries/endpoints/api/chat/_server.ts.js:64-67 | an unterminated last line is held back and never decoded |
| LegacyProviderClient.ChatDeltasTruthy | legacy/.svelte-kit/output/server/entries/endpoints/api/chat/_server.ts.js:74-75 | the chat-completion decoders yield only truthy contents |
| LegacyProviderClient.AnthropicDeltaShape | legacy/.svelte-kit/output/server/entries/endpoints/api/chat/_server.ts.js:165-166 | an event yields exactly when its type is `content_block_delta`: its `delta.text` when truthy, `""` when that is absent or falsy; every other event is skipped |
| LegacyProviderClient.JsonChunksAppend | legacy/.svelte-kit/output/server/entries/endpoints/api/chat/_server.ts.js:92-103 | the Ollama and Google decoders carry nothing from one read to the next |
| LegacyProviderClient.SingleLineChunk | legacy/.svelte-kit/output/server/entries/endpoints/api/chat/_server.ts.js:95 | a non-empty read without newlines is one line |
| LegacyProviderClient.SplitJsonLineLost | legacy/.svelte-kit/output/server/entries/endpoints/api/chat/_server.ts.js:95-101 | a JSON line cut across two reads yields nothing, though the same line in one read yields its content |
| LegacyProviderClient.UnparsableReadsPassThrough | legacy/.svelte-kit/output/server/entries/endpoints/api/chat/_server.ts.js:196-202 | when no read parses, the Hugging Face decoder yields every read as raw text |
| LegacyProviderClient.GeneratedTextFirst | legacy/.svelte-kit/output/server/entries/endpoints/api/chat/_server.ts.js:198-199 | a truthy `generated_text` wins over `token.text` |
| LegacyProviderClient.OpenAIRequestShape | legacy/.svelte-kit/output/server/entries/endpoints/api/chat/_server.ts.js:30-53 | POST to `{url}/chat/completions`, Bearer auth always, `HTTP-Referer` and `X-Title` only for openrouter, empty system messages dropped, `stream`, `temperature` 0.7, `max_tokens` 2000 |
| LegacyProviderClient.GoogleRequestShape | legacy/.svelte-kit/output/server/entries/endpoints/api/chat/_server.ts.js:105-114 | POST to `{url}/models/{model}:streamGenerateContent?key={apiKey}` with one `user`/`model` entry per non-system message |
| LegacyProviderClient.AnthropicRequestShape | legacy/.svelte-kit/output/server/entries/endpoints/api/chat/_server.ts.js:133-148 | POST to `{url}/messages` with `x-api-key`, `anthropic-version: 2023-06-01`, the non-system messages, `system` from the first system message, `max_tokens` 2000 |
| LegacyProviderClient.OllamaRequestShape | legacy/.svelte-kit/output/server/entries/endpoints/api/chat/_server.ts.js:82-87 | POST to `{url}/api/chat`, no authorization header, every message sent unfiltered, `stream` true and no temperature |
| LegacyProviderClient.HuggingFaceRequestFields | legacy/.svelte-kit/output/server/entries/endpoints/api/chat/_server.ts.js:173-187 | for every conversation: POST to `{url}/{model}` with Bearer auth, the joined prompt as `inputs`, `stream: true` |
| LegacyProviderClient.HuggingFaceRequestShape | legacy/.svelte-kit/output/server/entries/endpoints/api/chat/_server.ts.js:173-187 | when no role or content holds a line break, the prompt's lines are the messages' `role: content`, one each, in order |
| LegacyProviderClient.MiniMaxRequestShape | legacy/.svelte-kit/output/server/entries/endpoints/api/chat/_server.ts.js:205-218 | POST to `{url}/text/chatcompletion_v2`, Bearer auth, empty system messages dropped, `temperature` 0.7 and no `max_tokens` |
| LegacyProviderClient.NotOkFails | legacy/.svelte-kit/output/server/entries/endpoints/api/chat/_server.ts.js:54-57 | a non-2xx response yields nothing and throws the variant's status message, `API error: <status> - <body>` for the OpenAI-compatible one |
| LegacyChatRoute.ErrorMessage | legacy/src/routes/api/chat/+server.ts:35-48 | first match on `401`, `402`, `429`, `500` in an `Error` message, any other message unchanged, "Unknown error occurred" for non-`Error` values |
| LegacyChatRoute.RelayFramesShape | legacy/src/routes/api/chat/+server.ts:26-53 | one frame per delta in order, one `❌ Error:` frame on failure, and exactly one `[DONE]` sentinel, always last |
| LegacyChatRoute.Relay | legacy/src/routes/api/chat/+server.ts:25-54 | the `for await` relay and its catch enqueue exactly `RelayFrames` |
| LegacyChatRoute.Post | legacy/src/routes/api/chat/+server.ts:5-69 | unknown provider 400, missing key 401, unreadable body 500, otherwise an event stream of the relayed frames |
| LegacyChatRoute.RejectionsSendNothing | legacy/src/routes/api/chat/+server.ts:9-16 | a rejected request never reaches the provider; an accepted one calls it whenever a config was sent |
| LegacyChatRoute.SystemPromptPrepended | legacy/src/routes/api/chat/+server.ts:18-19 | the messages sent upstream are the fixed system message followed by the caller's, in order |
| LegacyChatRoute.StatusErrorMentionsStatus | legacy/.svelte-kit/output/server/entries/endpoints/api/chat/_server.ts.js:54-57 | every variant's status error contains the status code |
| LegacyChatRoute.UnauthorizedUpstreamFrame | legacy/src/routes/api/chat/+server.ts:39-52 | a 401 upstream becomes the invalid-key frame right before the sentinel |
| StreamingHelper.NormalizeError | src/lib/providers/streamingHelper.ts:100-111 | an `Error`'s message, a string itself, `String(message)` of an object with one, otherwise "An unknown error occurred" |
| StreamingHelper.RetryWrapper | src/lib/providers/streamingHelper.ts:113-136 | at most `maxRetries + 1` calls, resolves with the first success, rejects with the last error only when every allowed call failed |
| StreamingHelper.DoneLineIff | src/lib/providers/streamingHelper.ts:155-163 | a line ends the stream exactly when, trimmed of all JavaScript white space and line terminators, it reads `data: [DONE]` |
| StreamingHelper.PaddedLineSameAction | src/lib/providers/streamingHelper.ts:155 | white space and line terminators around a line (a trailing `\r` included) do not change what it does |
| Text.TrimPadded | src/lib/providers/streamingHelper.ts:155 | `trim()` removes any white space and line terminators added at either end and nothing else |
| StreamingHelper.CrlfDoneLine | src/lib/providers/streamingHelper.ts:155-163 | `data: [DONE]\r`, the last line of a CRLF stream, ends the stream |
| StreamingHelper.DrainStep | src/lib/providers/streamingHelper.ts:151-156 | one turn of the loop handles the first complete line, then the rest of the buffer |
| StreamingHelper.DrainIsLineByLine | src/lib/providers/streamingHelper.ts:151-174 | the index-and-slice loop processes exactly the complete lines of its buffer, in order, each once |
| StreamingHelper.ThenNotDone | src/lib/providers/streamingHelper.ts:158-172 | a line other than `[DONE]` fires its event in front of what follows |
| StreamingHelper.DrainLinesWithoutDone | src/lib/providers/streamingHelper.ts:151-174 | without a `[DONE]` line every complete line is processed and only the unterminated rest stays buffered |
| StreamingHelper.DoneLineStops | src/lib/providers/streamingHelper.ts:160-163 | after a `[DONE]` line nothing is processed and the rest stays in the buffer |
| StreamingHelper.FeedSnoc | src/lib/providers/streamingHelper.ts:147-149 | one more read is processed after everything before it |
| StreamingHelper.DrainLine | src/lib/providers/streamingHelper.ts:152-156 | a newline-terminated line is handled before the text after it |
| StreamingHelper.DataLineAction | src/lib/providers/streamingHelper.ts:158-167 | a `data: ` line carrying an object fires exactly that object |
| StreamingHelper.BlankLineIgnored | src/lib/providers/streamingHelper.ts:155-158 | a blank line fires nothing |
| StreamingHelper.FeedWithoutDone | src/lib/providers/streamingHelper.ts:147-174 | over several reads without `[DONE]`, the events are those of the complete lines of all the text, and the buffer keeps the unterminated rest |
| StreamingHelper.ProcessorChunkSplitInvariant | src/lib/providers/streamingHelper.ts:147-174 | how the reads are cut does not change the events while no `[DONE]` line comes |
| StreamingHelper.FlushEvents | src/lib/providers/streamingHelper.ts:181-196 | at most one event, and none unless the leftover, trimmed of all white space and line terminators, starts with `{` |
| StreamingHelper.FlushTrimmedObject | src/lib/providers/streamingHelper.ts:183-188 | a leftover whose trimmed text starts with `{` and parses fires exactly that chunk |
| StreamingHelper.LeftoverObjectFlushed | src/lib/providers/streamingHelper.ts:183-188 | a parsable object with white space or line breaks around it (`\n{…}` included) is flushed as that one chunk |
| StreamingHelper.UnterminatedDataLineDropped | src/lib/providers/streamingHelper.ts:181-189 | a leftover `data: {...}` line without its newline is never emitted by `flush` |
| StreamingHelper.ProcessLine | src/lib/providers/streamingHelper.ts:155-172 | one line: trim (all white space and line terminators), the `data: ` test, `[DONE]`, parse or `Failed to parse chunk: <payload>` |
| StreamingHelper.StreamProcessor.constructor | src/lib/providers/streamingHelper.ts:138-146 | a processor starts with an empty buffer and no callbacks fired |
| StreamingHelper.StreamProcessor.ProcessChunk | src/lib/providers/streamingHelper.ts:147-180 | the read is appended and the buffer drained line by line; the new events and buffer are those of `Drain` |
| StreamingHelper.DrainBuffer | src/lib/providers/streamingHelper.ts:151-174 | the `while (true)` over complete lines fires, in order, the events of `Drain` and leaves its rest, stopping at `[DONE]` |
| StreamingHelper.StreamProcessor.Flush | src/lib/providers/streamingHelper.ts:181-196 | fires `FlushEvents` of the buffer and keeps the buffer |
| ChatRoute.SeparatorRun | src/routes/api/chat/+server.ts:24 | the maximal run of `[:\s]` characters, line breaks and the other JavaScript white space included |
| ChatRoute.FindTag | src/routes/api/chat/+server.ts:24 | the capture of `/provider[:\s]+(\w+)/i` is a non-empty run of word characters |
| ChatRoute.FindTagLeftmost | src/routes/api/chat/+server.ts:24 | the search returns the leftmost match and finds one whenever any exists |
| ChatRoute.NamedProvider | src/routes/api/chat/+server.ts:24 | `provider`, any non-empty run of `:` and white space (line breaks included), then a word: the word is the capture, whatever follows its last word character |
| ChatRoute.NamedAt | src/routes/api/chat/+server.ts:24 | a text that starts with `provider`, a separator run and a maximal word run is tagged with that word |
| ChatRoute.FindTagAtStart | src/routes/api/chat/+server.ts:24 | a match at the start of the text, with a separator run and a word run, is the capture |
| ChatRoute.ProviderAfterLineBreak | src/routes/api/chat/+server.ts:23-24 | a system message `provider:\nopenai` routes to `openai` |
| ChatRoute.FirstSystem | src/routes/api/chat/+server.ts:23 | the message at the lowest index whose role is `system`, absent exactly when there is none |
| ChatRoute.ProviderName | src/routes/api/chat/+server.ts:23-24 | the capture in the first system message, or `mock` when there is no system message or no match |
| ChatRoute.Visible | src/routes/api/chat/+server.ts:44-60 | the frames of the callbacks up to and including the first that closes the controller, and whether one closed it |
| ChatRoute.RelayStream | src/routes/api/chat/+server.ts:39-84 | the read loop fed through a fresh processor, then `flush`, produces exactly `RelayOutcome` |
| ChatRoute.FeedParts | src/routes/api/chat/+server.ts:66-75 | every read goes through `processChunk`, in order; the events and buffer are those of `Feed` over the reads |
| ChatRoute.VisibleShape | src/routes/api/chat/+server.ts:44-60 | one frame per callback in order up to the first closing one, and the stream is closed exactly when some callback closes it |
| ChatRoute.RelayOpenWithoutClosingEvent | src/routes/api/chat/+server.ts:67-73 | with no `[DONE]` line and no parse error no done frame is sent and the stream is not closed |
| ChatRoute.ReadFailureFrame | src/routes/api/chat/+server.ts:76-84 | a failing read before close ends the stream with one error frame |
| ChatRoute.MockPayloadsPlain | src/lib/providers/mockProvider.ts:71-106 | each mock payload prints on one line |
| ChatRoute.DrainObjectRead | src/lib/providers/streamingHelper.ts:151-167 | a `data: ` frame of an object fires that object and leaves nothing buffered |
| ChatRoute.FeedObjectReads | src/lib/providers/streamingHelper.ts:147-172 | reads that each carry one object fire those objects in order |
| ChatRoute.VisibleChunks | src/routes/api/chat/+server.ts:45-48 | chunk callbacks only: every payload is re-emitted as its own frame and nothing closes |
| ChatRoute.MockStreamLeftOpen | src/routes/api/chat/+server.ts:64-75 | the mock stream relayed reaches the client frame for frame, but with no `[DONE]` the response stream is never closed |
| ChatRoute.Post | src/routes/api/chat/+server.ts:7-99 | checks in order, provider lookup, then the JSON reply when `stream` is false and the relayed stream otherwise |
| ChatRoute.RejectionsInOrder | src/routes/api/chat/+server.ts:14-30 | messages (400), then model (400), then provider (404), each with its message |
| ChatRoute.StreamsByDefault | src/routes/api/chat/+server.ts:11-35 | a valid request to a served provider streams unless `stream` is explicitly false, and otherwise gets exactly the reply as JSON |
| ChatRoute.DefaultProviderIsMock | src/routes/api/chat/+server.ts:22-27 | without a system message the request goes to `mock`, which a fresh registry serves |
| MockProvider.LastMessage | src/lib/providers/mockProvider.ts:49 | the lower-cased content of the last message, or `default` when there is none or it is empty |
| MockProvider.SelectResponse | src/lib/providers/mockProvider.ts:50-57 | the loop settles on the reply of the first key in table order occurring in the text, else the default |
| MockProvider.FirstMatchAt | src/lib/providers/mockProvider.ts:52-57 | the entry at `k` wins when its key occurs and no earlier key does |
| MockProvider.FirstMatchNone | src/lib/providers/mockProvider.ts:52-57 | with no key occurring nothing matches |
| MockProvider.KeywordPriority | src/lib/providers/mockProvider.ts:49-57 | the reply of the first key, in the order default, help, weather, coding, hello, found in the message |
| MockProvider.NoKeywordDefault | src/lib/providers/mockProvider.ts:50-57 | a message holding no key gets the default reply |
| MockProvider.EmptyConversationDefault | src/lib/providers/mockProvider.ts:49 | with no messages the default reply is chosen |
| MockProvider.Variation | src/lib/providers/mockProvider.ts:60-66 | one of four variations, each ending with the selected reply |
| MockProvider.Chat | src/lib/providers/mockProvider.ts:15-45 | the reply, the request's model and 50 plus the random roll tokens |
| MockProvider.DeltaChunkAt | src/lib/providers/mockProvider.ts:79-85 | the read at index `i + 1` is the character frame of the `i`-th character |
| MockProvider.Stream | src/lib/providers/mockProvider.ts:47-111 | `message_start` with the model first, one `content_block_delta` per character, the usage frame, `message_stop` last |
| MockProvider.EnqueueFrames | src/lib/providers/mockProvider.ts:70-103 | the enqueued frames are `StreamChunks`: start, one delta per character, usage, stop |
| MockProvider.StreamFramesCarryPayloads | src/lib/providers/mockProvider.ts:68-108 | each read is the `data: ` line of its payload; only the character frames lack the blank line |
| MockProvider.DeltaTextsRebuildReply | src/lib/providers/mockProvider.ts:79-89 | joining the `text` of the character frames gives back the reply |
| MockProvider.DeltaTextsPrefix | src/lib/providers/mockProvider.ts:79-89 | the first `i` character frames rebuild the first `i` characters |
| MockProvider.UsageCountsReply | src/lib/providers/mockProvider.ts:92-100 | `prompt_tokens` 10, `completion_tokens` the reply length, `total_tokens` 10 more |
| MockProvider.ValidateKey | src/lib/providers/mockProvider.ts:113-116 | true exactly for a non-empty key |
| ProviderRegistry.Served | src/lib/providers/providerRegistry.ts:41-44 | the adapter exactly when the entry exists and is enabled |
| ProviderRegistry.EntriesOf | src/lib/providers/providerRegistry.ts:46-52 | every registered entry (every enabled one when asked) and nothing else, in registration order: the entries of a prefix of the names come before those of the rest |
| ProviderRegistry.EntriesOfAppend | src/lib/providers/providerRegistry.ts:46-52 | listing the names of two parts lists the first part's entries, then the second's |
| ProviderRegistry.EntriesOfSplit | src/lib/providers/providerRegistry.ts:46-52 | at every cut of the registration order the listing is the listing before the cut followed by the one after it |
| ProviderRegistry.AllEntries | src/lib/providers/providerRegistry.ts:50-52 | every entry in registration order |
| ProviderRegistry.Distinct | src/lib/providers/providerRegistry.ts:70-76 | the distinct elements, nothing added or lost, no repeats |
| ProviderRegistry.DistinctFirstSeen | src/lib/providers/providerRegistry.ts:70-76 | first-seen order: an earlier result occurs in the input before any occurrence of a later one |
| ProviderRegistry.EnabledModelsMembers | src/lib/providers/providerRegistry.ts:69-76 | a model is offered exactly when some enabled entry lists it |
| ProviderRegistry.RegisterServes | src/lib/providers/providerRegistry.ts:28-44 | registering changes what is served under that name only |
| ProviderRegistry.DisableHides | src/lib/providers/providerRegistry.ts:88-95 | a disabled provider is no longer served and no other one is affected |
| ProviderRegistry.EnableServes | src/lib/providers/providerRegistry.ts:79-86 | enabling an existing provider serves its adapter again |
| ProviderRegistry.FreshServesMockOnly | src/lib/providers/providerRegistry.ts:13-26 | a fresh registry serves `mock` and nothing else |
| ProviderRegistry.AddToSet | src/lib/providers/providerRegistry.ts:73 | `forEach(model => models.add(model))` keeps the set's insertion order and membership |
| ProviderRegistry.ProviderRegistry.constructor | src/lib/providers/providerRegistry.ts:13-26 | exactly one entry, `mock`, enabled, with `mock-model-1` and `mock-model-2` |
| ProviderRegistry.ProviderRegistry.Register | src/lib/providers/providerRegistry.ts:28-39 | inserts or overwrites the entry; a new name goes last, an overwritten one keeps its place; other entries unchanged |
| ProviderRegistry.ProviderRegistry.GetProvider | src/lib/providers/providerRegistry.ts:41-44 | the adapter when the entry exists and is enabled, otherwise null |
| ProviderRegistry.ProviderRegistry.GetEnabledProviders | src/lib/providers/providerRegistry.ts:46-48 | every enabled entry and only enabled entries, in registration order |
| ProviderRegistry.ProviderRegistry.GetAllProviders | src/lib/providers/providerRegistry.ts:50-52 | every entry in registration order |
| ProviderRegistry.ProviderRegistry.GetProviderMetadata | src/lib/providers/providerRegistry.ts:54-57 | the metadata of any entry, whatever its flag |
| ProviderRegistry.ProviderRegistry.HasProvider | src/lib/providers/providerRegistry.ts:97-99 | registered, whatever its flag |
| ProviderRegistry.ProviderRegistry.GetAvailableModels | src/lib/providers/providerRegistry.ts:59-77 | with a name, that entry's models when served and `[]` otherwise; without, the distinct models of the enabled entries, each occurring in that list before any occurrence of a later one |
| ProviderRegistry.ProviderRegistry.GetProvidersMetadata | src/lib/providers/providerRegistry.ts:111-113 | the metadata of every enabled entry and of nothing else, in registration order |
| ProviderRegistry.ProviderRegistry.EnableProvider | src/lib/providers/providerRegistry.ts:79-86 | true exactly when the name exists; only that entry's flag changes |
| ProviderRegistry.ProviderRegistry.DisableProvider | src/lib/providers/providerRegistry.ts:88-95 | true exactly when the name exists; only that entry's flag changes |
| Validation.FindFrom | src/lib/security/validation.ts:17 | the first occurrence at or after `from`, or -1 when there is none |
| Validation.ScriptBlockIff | src/lib/security/validation.ts:17 | the first-occurrence search finds `<script…>…</script>` exactly when one exists anywhere, in any ASCII case |
| Validation.MessageAccepted | src/lib/security/validation.ts:11-21 | accepted exactly when the role is user, assistant or system, the content has 1 to 100000 characters and no script block, and `timestamp` is left out or a number (`null` and `"noon"` are refused) |
| Validation.CheckSystemFirst | src/lib/security/validation.ts:30-45 | the `sawNonSystem` loop accepts exactly when no system message follows a non-system one |
| Validation.SystemMessagesFirstIsPrefix | src/lib/security/validation.ts:31-44 | the rule holds exactly when the list is some system messages followed by only non-system ones |
| Validation.ParseChatRequest | src/lib/security/validation.ts:26-54 | accepted exactly when 1 to 100 messages each pass (timestamp check included), system first, model 1 to 100, provider absent or 1 to 50; `stream` defaults to true |
| Validation.ReplaceAllIdentity | src/lib/security/validation.ts:79 | replacing a character that does not occur leaves the text unchanged |
| Validation.ReplaceAllAvoids | src/lib/security/validation.ts:79-84 | a replaced character is absent afterwards unless its entity brings it back |
| Validation.ReplaceAllAppend | src/lib/security/validation.ts:79-84 | replacing distributes over concatenation |
| Validation.ChainAvoids | src/lib/security/validation.ts:77-85 | no later replacement brings back a character an earlier one removed |
| Validation.ChainIdentity | src/lib/security/validation.ts:77-85 | text without any of the six characters goes through the whole chain unchanged |
| Validation.SanitizeHtml | src/lib/security/validation.ts:77-85 | the output holds none of `< > " ' /`, and the input is returned unchanged when it holds none of the six characters |
| Validation.SanitizeHtmlAppend | src/lib/security/validation.ts:77-85 | the chain acts on each part of a concatenation separately |
| Validation.MatchesPlus | src/lib/security/validation.ts:62 | an anchored `^[…]+$` test without the `m` flag succeeds exactly when the text is non-empty and every character is in the class |
| Validation.ValidProviderName | src/lib/security/validation.ts:59-62 | accepted exactly when the name has 1 to 50 characters, each from `[A-Za-z0-9_-]` |
| Validation.ValidModelName | src/lib/security/validation.ts:67-70 | accepted exactly when the name has 1 to 100 characters, each from `[A-Za-z0-9._-]` |
| Validation.NamesSurviveSanitizing | src/lib/security/validation.ts:59-85 | valid provider and model names pass through the escaping unchanged |
| Validation.IsValidProvider | src/lib/security/validation.ts:93-98 | true exactly when the name is in the list |
| Validation.IsValidModel | src/lib/security/validation.ts:106-111 | true exactly when the model is in the list |
| Sanitize.Entity | src/lib/security/sanitize.ts:12-19 | the table's entity for the six characters, the character itself otherwise; an entity never holds `< > " ' /` |
| Sanitize.EscapeHtml | src/lib/security/sanitize.ts:11-22 | each character replaced by its entity in one pass; the output holds none of `< > " ' /` |
| Sanitize.EscapeHtmlAppend | src/lib/security/sanitize.ts:21 | escaping distributes over concatenation |
| Sanitize.SanitizeOneChar | src/lib/security/validation.ts:77-85 | the chained replacements turn one character into its entity |
| Sanitize.EscapeHtmlIsSanitizeHtml | src/lib/security/sanitize.ts:11-22 | the single pass agrees with the chained-replace `sanitizeHtml` of the validation helpers on every input |
| Sanitize.EscapeHtmlRoundTrip | src/lib/security/sanitize.ts:11-22 | reading the entities back restores the text |
| Sanitize.EscapeHtmlInjective | src/lib/security/sanitize.ts:11-22 | different texts never escape to the same output |
| Sanitize.EscapedTextIsEscapedAgain | tests/unit/sanitize.test.ts:32-42 | `&lt;` becomes `&amp;lt;`, and the empty string stays empty |
| Sanitize.SafeText | src/lib/security/sanitize.ts:60-62 | `safeText` is `escapeHtml`: it round-trips and holds no special character |
| Sanitize.TryAtIff | src/lib/security/sanitize.ts:73 | greedy trying at a position succeeds exactly when the pattern matches there |
| Sanitize.Search | src/lib/security/sanitize.ts:80 | the scan from `from` finds a match exactly when one starts at or after it |
| Sanitize.Test | src/lib/security/sanitize.ts:80 | `pattern.test` is true exactly when the pattern matches somewhere in the lower-cased text |
| Sanitize.AnyMatches | src/lib/security/sanitize.ts:80 | `some` is true exactly when one of the patterns tests true |
| Sanitize.IsContentSafe | src/lib/security/sanitize.ts:69-81 | safe exactly when none of the seven patterns matches anywhere, in any ASCII case |
| Sanitize.LiteralMakesUnsafe | src/lib/security/sanitize.ts:70-76 | `<script`, `javascript:`, `<iframe`, `<object` or `<embed` in any ASCII case makes the text unsafe |
| Sanitize.DataUriMakesUnsafe | src/lib/security/sanitize.ts:77 | `data:` not followed by `image/` makes the text unsafe |
| Sanitize.ImageDataUriPasses | src/lib/security/sanitize.ts:77 | `data:image/` is not flagged by the data pattern at that position |
| Sanitize.ImageDataUriSafe | src/lib/security/sanitize.ts:69-81 | `data:image/` followed by text with no `<`, `:` or `=` passes every dangerous pattern |
| Sanitize.TestedImageDataUrisSafe | tests/unit/sanitize.test.ts:136-141 | the png, gif, jpeg and webp data URIs of the unit tests are safe |
| Sanitize.HandlerMakesUnsafe | src/lib/security/sanitize.ts:73 | an `on<word>` attribute with optional white space (line breaks included) before `=` makes the text unsafe |
| Sanitize.LineBreakHandlerUnsafe | src/lib/security/sanitize.ts:73 | `onclick\n=alert(1)` is unsafe |
| Auth.ConfiguredKey | src/lib/security/auth.ts:20-24 | the server key if non-empty, else the client key if non-empty, else `""` |
| Auth.XorZero | src/lib/security/auth.ts:75 | two character codes XOR to zero exactly when they are equal |
| Auth.OrZero | src/lib/security/auth.ts:75 | OR-ing is zero exactly when both sides are |
| Auth.ConstantTimeEqual | src/lib/security/auth.ts:68-79 | true exactly when the strings are equal; the loop keeps `result == 0` iff the prefixes compared so far are equal |
| Auth.Decision | src/lib/security/auth.ts:18-60 | allowed with no key in development mode; 500 with no key otherwise; 401 on a missing header, 403 on a mismatching one, allowed on a match |
| Auth.ValidateApiKey | src/lib/security/auth.ts:18-60 | the step-by-step check, its inner development branch unreachable, decides exactly as `Decision` |
| Auth.RequireAuth | src/lib/security/auth.ts:85-87 | rejects exactly when `validateApiKey` does, with the same status and message |
| Auth.DevModeIgnoresHeader | src/lib/security/auth.ts:28-33 | with no key in development mode the header plays no part |
| Auth.ConfiguredKeyIgnoresMode | src/lib/security/auth.ts:47-59 | with a key configured the mode plays no part |
| ChatStore.Merge | src/lib/stores/chatStore.ts:63 | for each of `id`, `content`, `role`, `timestamp`, `status` and `metadata`, the patch's value when it sets the field and the message's otherwise; the empty patch changes nothing |
| ChatStore.Added | src/lib/stores/chatStore.ts:47-57 | exactly one message appended with its id and time; earlier messages and other fields unchanged |
| ChatStore.Updated | src/lib/stores/chatStore.ts:59-66 | every message with the id merged with the patch, the others unchanged, length kept |
| ChatStore.KeepOthers | src/lib/stores/chatStore.ts:71 | a message is kept exactly when its id differs, in order; on one message it keeps or drops that message |
| ChatStore.KeepOthersAppend | src/lib/stores/chatStore.ts:71 | filtering a concatenation filters each part and keeps their order |
| ChatStore.KeepOthersSplit | src/lib/stores/chatStore.ts:71 | at every cut the kept messages before the cut come before those after it |
| ChatStore.KeepOthersAbsent | src/lib/stores/chatStore.ts:68-73 | removing an id no message has keeps the list |
| ChatStore.Removed | src/lib/stores/chatStore.ts:68-73 | all messages with the id gone, every other message kept, in order at every cut of the list, other fields unchanged |
| ChatStore.RemoveIdempotent | src/lib/stores/chatStore.ts:68-73 | removing twice is removing once |
| ChatStore.RemoveUndoesAdd | src/lib/stores/chatStore.ts:47-73 | removing a freshly added id gives back the original list |
| DerivedStore.FirstValue | src/lib/stores/chatStore.ts:36 | `derived(input, fn)` gives its subscriber `fn` of the value exactly when the input is a store, and throws for a bare `subscribe` function |
| ChatStore.LastMessage | src/lib/stores/chatStore.ts:37-39 | the callback of `lastMessage`: the last message, or null for an empty list (subscribing to the view itself throws, see Findings) |
| ChatStore.WithRole | src/lib/stores/chatStore.ts:41-42 | exactly the messages with that role, in order; on one message it keeps it exactly when the role matches |
| ChatStore.WithRoleAppend | src/lib/stores/chatStore.ts:41-42 | filtering a concatenation filters each part and keeps their order |
| ChatStore.IsEmpty | src/lib/stores/chatStore.ts:36 | the callback of `isEmpty`: empty exactly when there is no last message, and then both role lists are empty (subscribing to the view itself throws, see Findings) |
| ChatStore.RolesPartition | src/lib/stores/chatStore.ts:40-44 | every message is in exactly one of the two role lists |
| ChatStore.MessagesByRole | src/lib/stores/chatStore.ts:40-44 | the callback of `messagesByRole`: the user messages and the assistant messages, which together account for the whole list (subscribing to the view itself throws, see Findings) |
| ChatStore.ViewsThrowAsWritten | src/lib/stores/chatStore.ts:36-44 | as written, subscribing to `isEmpty`, `lastMessage` or `messagesByRole` throws `store.subscribe is not a function` |
| ChatStore.ViewsAsIntended | src/lib/stores/chatStore.ts:36-44 | given the store, the three views show emptiness, the last message and the role lists |
| ChatStore.ChatStoreCell.constructor | src/lib/stores/chatStore.ts:25-33 | the store starts in the initial state |
| ChatStore.ChatStoreCell.AddMessage | src/lib/stores/chatStore.ts:47-57 | returns `msg_<idTime>_<suffix>` from the first clock read, and the state becomes `Added` with the second read as timestamp |
| ChatStore.ChatStoreCell.UpdateMessage | src/lib/stores/chatStore.ts:59-66 | the state becomes `Updated` |
| ChatStore.ChatStoreCell.RemoveMessage | src/lib/stores/chatStore.ts:68-73 | the state becomes `Removed` |
| ChatStore.ChatStoreCell.SetStreaming | src/lib/stores/chatStore.ts:75-77 | only `streaming` changes |
| ChatStore.ChatStoreCell.SetLoading | src/lib/stores/chatStore.ts:79-81 | only `loading` changes |
| ChatStore.ChatStoreCell.SetError | src/lib/stores/chatStore.ts:83-85 | only `error` changes |
| ChatStore.ChatStoreCell.ClearMessages | src/lib/stores/chatStore.ts:87-89 | only `messages` changes, to empty |
| ChatStore.ChatStoreCell.SetCurrentSessionId | src/lib/stores/chatStore.ts:91-93 | only `currentSessionId` changes |
| ChatStore.ChatStoreCell.Reset | src/lib/stores/chatStore.ts:95-97 | the initial state is restored |
| SessionStore.NewSession | src/lib/stores/sessionStore.ts:76-85 | count 0, `createdAt == updatedAt`, the title or `Session <time>` when missing or empty |
| SessionStore.MapMatching | src/lib/stores/sessionStore.ts:109-113 | the sessions with the id transformed, the others and the order kept |
| SessionStore.Patched | src/lib/stores/sessionStore.ts:111 | for each of `id`, `title`, `createdAt`, `messageCount`, `providerId` and `modelId`, the patch's value when it sets the field and the session's otherwise; `updatedAt` is always the current time |
| SessionStore.OtherSessions | src/lib/stores/sessionStore.ts:121 | a session is kept exactly when its id differs, in order; the first kept one is the first session with another id |
| SessionStore.OtherSessionsAppend | src/lib/stores/sessionStore.ts:121 | filtering a concatenation filters each part and keeps their order |
| SessionStore.OtherSessionsSplit | src/lib/stores/sessionStore.ts:121 | at every cut the kept sessions before the cut come before those after it |
| SessionStore.Created | src/lib/stores/sessionStore.ts:87-95 | one session appended and made current; the rest unchanged |
| SessionStore.SessionUpdated | src/lib/stores/sessionStore.ts:107-117 | the matching sessions merged and re-stamped, the others unchanged |
| SessionStore.CurrentAfterDelete | src/lib/stores/sessionStore.ts:123-126 | the first remaining session when the current one was deleted, otherwise unchanged |
| SessionStore.Deleted | src/lib/stores/sessionStore.ts:119-134 | the matching sessions gone, the others kept in order; deleting the current session makes the first remaining session current |
| SessionStore.Incremented | src/lib/stores/sessionStore.ts:141-151 | the matching sessions count exactly one more and are re-stamped, the others unchanged |
| SessionStore.Find | src/lib/stores/sessionStore.ts:70 | the session at the lowest index with the id, absent exactly when none has it |
| SessionStore.CurrentSession | src/lib/stores/sessionStore.ts:69-71 | the callback of `currentSession`: the first session whose id is the current id, absent exactly when none has it (subscribing to the view itself throws, see Findings) |
| SessionStore.IsEmpty | src/lib/stores/sessionStore.ts:73 | the callback of `isEmpty`: with no sessions there is no current session (subscribing to the view itself throws, see Findings) |
| SessionStore.ViewsThrowAsWritten | src/lib/stores/sessionStore.ts:69-73 | as written, subscribing to `currentSession` or `isEmpty` throws `store.subscribe is not a function` |
| SessionStore.ViewsAsIntended | src/lib/stores/sessionStore.ts:69-73 | given the store, the views show the session holding the current id, or none, and whether there are sessions |
| SessionStore.FindFirst | src/lib/stores/sessionStore.ts:69-71 | `find` returns the session at the first index holding the id |
| SessionStore.CreatedIsCurrent | src/lib/stores/sessionStore.ts:76-98 | a freshly created session is the current session |
| SessionStore.DeleteCurrentMovesToFirst | src/lib/stores/sessionStore.ts:119-134 | after deleting the current session, the current one is the first remaining, or none |
| SessionStore.SessionStoreCell.constructor | src/lib/stores/sessionStore.ts:59-66 | a cell holding a given state, nothing written yet |
| SessionStore.SessionStoreCell.CreateSession | src/lib/stores/sessionStore.ts:76-98 | returns `session_<idTime>_<suffix>` from the first clock read; the state becomes `Created` with the second read as its times, and the new list is written |
| SessionStore.SessionStoreCell.SwitchSession | src/lib/stores/sessionStore.ts:100-105 | only `currentSessionId` changes, unchecked, and nothing is written |
| SessionStore.SessionStoreCell.UpdateSession | src/lib/stores/sessionStore.ts:107-117 | the state becomes `SessionUpdated` and the new list is written |
| SessionStore.SessionStoreCell.DeleteSession | src/lib/stores/sessionStore.ts:119-134 | the state becomes `Deleted` and the new list is written |
| SessionStore.SessionStoreCell.ClearSessions | src/lib/stores/sessionStore.ts:136-139 | the storage key removed and the initial state restored |
| SessionStore.SessionStoreCell.IncrementMessageCount | src/lib/stores/sessionStore.ts:141-151 | the state becomes `Incremented` and the new list is written |
| SessionStore.SessionStoreCell.SetLoading | src/lib/stores/sessionStore.ts:153-155 | only `loading` changes |
| SessionStore.SessionStoreCell.SetError | src/lib/stores/sessionStore.ts:157-159 | only `error` changes |
| UiStateStore.ClampWidth | src/lib/stores/uiStateStore.ts:121 | always within [200, 400], the width itself inside that range, the nearer bound outside it |
| UiStateStore.EffectiveTheme | src/lib/stores/uiStateStore.ts:79-84 | the callback of `effectiveTheme`: never `system`, the theme itself, or dark exactly when the preference is dark (subscribing to the view itself throws, see Findings) |
| UiStateStore.EffectiveThemeThrowsAsWritten | src/lib/stores/uiStateStore.ts:79 | as written, subscribing to `effectiveTheme` throws `store.subscribe is not a function` |
| UiStateStore.EffectiveThemeAsIntended | src/lib/stores/uiStateStore.ts:79-84 | given the store, the view shows a concrete theme, the preference's for `system` |
| UiStateStore.SidebarToggled | src/lib/stores/uiStateStore.ts:87-99 | `open` flips, `width` and everything else kept |
| UiStateStore.SidebarWidthSet | src/lib/stores/uiStateStore.ts:115-127 | the width lands in [200, 400], everything else kept |
| UiStateStore.ToggleSidebarTwice | src/lib/stores/uiStateStore.ts:87-99 | toggling twice is the identity |
| UiStateStore.SetWidthIdempotent | src/lib/stores/uiStateStore.ts:115-127 | setting the same width twice equals setting it once |
| UiStateStore.SettingsOpened | src/lib/stores/uiStateStore.ts:143-155 | open, at the given panel or `general`; everything else kept |
| UiStateStore.SettingsClosed | src/lib/stores/uiStateStore.ts:157-169 | closed, the panel and everything else kept |
| UiStateStore.ReopenKeepsPanel | src/lib/stores/uiStateStore.ts:143-169 | closing after opening at a panel keeps that panel |
| UiStateStore.ModalOpened | src/lib/stores/uiStateStore.ts:202-211 | open with the given type and data; everything else kept |
| UiStateStore.ModalClosed | src/lib/stores/uiStateStore.ts:213-222 | closed, no type, no data; everything else kept |
| UiStateStore.OpenThenCloseModal | src/lib/stores/uiStateStore.ts:202-222 | opening then closing equals closing alone |
| UiStateStore.ShortcutsToggled | src/lib/stores/uiStateStore.ts:182-190 | `enabled` flips, `activeShortcut` and everything else kept |
| UiStateStore.UiStateCell.constructor | src/lib/stores/uiStateStore.ts:69-72 | a cell holding a given state, nothing written yet |
| UiStateStore.UiStateCell.ToggleSidebar | src/lib/stores/uiStateStore.ts:87-99 | the state becomes `SidebarToggled` and is written |
| UiStateStore.UiStateCell.SetSidebarOpen | src/lib/stores/uiStateStore.ts:101-113 | only `sidebar.open` changes, and the state is written |
| UiStateStore.UiStateCell.SetSidebarWidth | src/lib/stores/uiStateStore.ts:115-127 | the state becomes `SidebarWidthSet` and is written |
| UiStateStore.UiStateCell.ToggleSettings | src/lib/stores/uiStateStore.ts:129-141 | only `settings.open` flips, and the state is written |
| UiStateStore.UiStateCell.OpenSettings | src/lib/stores/uiStateStore.ts:143-155 | the state becomes `SettingsOpened` and is written |
| UiStateStore.UiStateCell.CloseSettings | src/lib/stores/uiStateStore.ts:157-169 | the state becomes `SettingsClosed` and is written |
| UiStateStore.UiStateCell.SetTheme | src/lib/stores/uiStateStore.ts:171-180 | only the theme changes, and the state is written |
| UiStateStore.UiStateCell.ToggleKeyboardShortcuts | src/lib/stores/uiStateStore.ts:182-190 | the state becomes `ShortcutsToggled`; storage untouched |
| UiStateStore.UiStateCell.SetActiveShortcut | src/lib/stores/uiStateStore.ts:192-200 | only `activeShortcut` changes; storage untouched |
| UiStateStore.UiStateCell.OpenModal | src/lib/stores/uiStateStore.ts:202-211 | the state becomes `ModalOpened`; storage untouched |
| UiStateStore.UiStateCell.CloseModal | src/lib/stores/uiStateStore.ts:213-222 | the state becomes `ModalClosed`; storage untouched |
| UiStateStore.UiStateCell.Reset | src/lib/stores/uiStateStore.ts:224-227 | the storage key removed and the initial state restored |
| ErrorStore.HasError | src/lib/stores/errorStore.ts:31 | the callback of `hasError`: a state that holds an error message is never the initial, cleared state (subscribing to the view itself throws, see Findings) |
| ErrorStore.HasErrorThrowsAsWritten | src/lib/stores/errorStore.ts:31 | as written, subscribing to `hasError` throws `store.subscribe is not a function` |
| ErrorStore.HasErrorAsIntended | src/lib/stores/errorStore.ts:31 | given the store, the view shows whether a message is set |
| ErrorStore.CreateError | src/lib/stores/errorStore.ts:84-97 | message, type, code, details as given and the time stamp of `now` |
| ErrorStore.Raised | src/lib/stores/errorStore.ts:35-57 | the error recorded, and a clear due 30000 ms later scheduled exactly when the type is neither auth nor validation |
| ErrorStore.Fired | src/lib/stores/errorStore.ts:53-55 | exactly the timers due at or before `now` |
| ErrorStore.Pending | src/lib/stores/errorStore.ts:53-55 | exactly the timers due after `now` |
| ErrorStore.Elapsed | src/lib/stores/errorStore.ts:53-61 | any due timer resets the whole state; with none due the state is kept; the others stay pending |
| ErrorStore.NonCriticalErrorClears | src/lib/stores/errorStore.ts:51-56 | a non-critical error is gone 30 seconds later |
| ErrorStore.CriticalErrorStays | src/lib/stores/errorStore.ts:51-56 | with no timer pending, an auth or validation error stays however much time passes |
| ErrorStore.EarlierTimerClearsAuthError | src/lib/stores/errorStore.ts:52-61 | as written, the timer of an earlier network error also clears a later auth error |
| ErrorStore.RaisedCancelling | src/lib/stores/errorStore.ts:51-56 | the corrected `setError`: a new error replaces the pending timers by its own, if any |
| ErrorStore.CriticalErrorSurvivesEarlierTimers | src/lib/stores/errorStore.ts:51-56 | under the corrected `setError`, an auth or validation error survives every earlier timer |
| ErrorStore.RejectionMessage | src/lib/stores/errorStore.ts:100-106 | an `Error`'s message, otherwise "An unknown error occurred" |
| ErrorStore.FetchErrorKind | src/lib/stores/errorStore.ts:109-121 | 401 and 403 auth, at least 500 server, other 4xx validation, below 400 network, each with its message |
| ErrorStore.FetchErrorAutoClears | src/lib/stores/errorStore.ts:109-121 | a failed response schedules an auto-clear exactly when its status is at least 500 or below 400 |
| ErrorStore.ErrorStoreCell.constructor | src/lib/stores/errorStore.ts:20-28 | the all-null initial state, no timers |
| ErrorStore.ErrorStoreCell.SetError | src/lib/stores/errorStore.ts:35-57 | state and timers become `Raised` |
| ErrorStore.ErrorStoreCell.ClearError | src/lib/stores/errorStore.ts:59-61 | the all-null initial state restored; timers kept |
| ErrorStore.ErrorStoreCell.Elapse | src/lib/stores/errorStore.ts:53-55 | the loop over the timers produces exactly `Elapsed` |
| ErrorStore.ErrorStoreCell.SetNetworkError | src/lib/stores/errorStore.ts:63-65 | `Raised` with type network and no code |
| ErrorStore.ErrorStoreCell.SetValidationError | src/lib/stores/errorStore.ts:67-69 | `Raised` with type validation and no code |
| ErrorStore.ErrorStoreCell.SetAuthError | src/lib/stores/errorStore.ts:71-73 | `Raised` with type auth and no details |
| ErrorStore.ErrorStoreCell.SetServerError | src/lib/stores/errorStore.ts:75-77 | `Raised` with type server |
| ErrorStore.ErrorStoreCell.SetUnknownError | src/lib/stores/errorStore.ts:79-81 | `Raised` with type unknown and no code |
| ErrorStore.ErrorStoreCell.HandlePromiseRejection | src/lib/stores/errorStore.ts:100-106 | `Raised` with type unknown and `RejectionMessage` |
| ErrorStore.ErrorStoreCell.HandleFetchError | src/lib/stores/errorStore.ts:109-121 | `Raised` with the type and message of `FetchErrorKind` |
| LegacyChatStore.MessageId | legacy/src/lib/stores/chatStore.ts:24 | starts with `msg-`, followed by the time, `-` and the suffix |
| LegacyChatStore.Added | legacy/src/lib/stores/chatStore.ts:23-34 | exactly one message appended with its id and time stamp; earlier messages and `isLoading` unchanged |
| LegacyChatStore.ContentAppended | legacy/src/lib/stores/chatStore.ts:35-41 | the chunk appended to the content of every message with the id, the others unchanged |
| LegacyChatStore.UnknownIdUnchanged | legacy/src/lib/stores/chatStore.ts:38-40 | an unknown id leaves the state unchanged |
| LegacyChatStore.StreamedContent | legacy/src/lib/stores/chatStore.ts:35-41 | after updates with `d1 … dn`, the message's content is the original followed by `d1 … dn`; others unchanged |
| LegacyChatStore.Cleared | legacy/src/lib/stores/chatStore.ts:42 | no messages, `isLoading` kept |
| LegacyChatStore.MessageCount | legacy/src/lib/stores/chatStore.ts:49 | zero exactly when there are no messages |
| LegacyChatStore.CountAfterAddAndClear | legacy/src/lib/stores/chatStore.ts:23-49 | adding counts one more, clearing counts none |
| LegacyChatStore.LegacyChatStoreCell.constructor | legacy/src/lib/stores/chatStore.ts:16-19 | no messages, not loading |
| LegacyChatStore.LegacyChatStoreCell.AddMessage | legacy/src/lib/stores/chatStore.ts:23-34 | returns `msg-<time>-<suffix>` and the state becomes `Added` |
| LegacyChatStore.LegacyChatStoreCell.UpdateMessage | legacy/src/lib/stores/chatStore.ts:35-41 | the state becomes `ContentAppended` |
| LegacyChatStore.LegacyChatStoreCell.ClearMessages | legacy/src/lib/stores/chatStore.ts:42 | the state becomes `Cleared` |
| LegacyChatStore.LegacyChatStoreCell.SetLoading | legacy/src/lib/stores/chatStore.ts:43-44 | only `isLoading` changes |
| LegacySettingsStore.Merged | legacy/src/lib/stores/settingsStore.ts:25 | each stored top-level field wins over the default |
| LegacySettingsStore.Loaded | legacy/src/lib/stores/settingsStore.ts:21-29 | the defaults without a window, without or with empty stored text, or on a parse error; otherwise the stored object over the defaults |
| LegacySettingsStore.MergeRestores | legacy/src/lib/stores/settingsStore.ts:21-36 | a whole state written and read back is restored; an empty object reads as the defaults |
| LegacySettingsStore.WithProviderSettings | legacy/src/lib/stores/settingsStore.ts:55-63 | the provider's entry replaced, not merged; other entries and selections kept |
| LegacySettingsStore.SettingsFor | legacy/src/lib/stores/settingsStore.ts:64-67 | the stored entry, or an empty settings object |
| LegacySettingsStore.SetThenGet | legacy/src/lib/stores/settingsStore.ts:55-67 | reading returns what was last set for that provider, and other providers are unaffected |
| LegacySettingsStore.LegacySettingsCell.constructor | legacy/src/lib/stores/settingsStore.ts:39 | the store starts from `Loaded`, nothing written yet |
| LegacySettingsStore.LegacySettingsCell.SetProvider | legacy/src/lib/stores/settingsStore.ts:43-48 | only `selectedProvider` changes; written when a window exists |
| LegacySettingsStore.LegacySettingsCell.SetModel | legacy/src/lib/stores/settingsStore.ts:49-54 | only `selectedModel` changes; written when a window exists |
| LegacySettingsStore.LegacySettingsCell.SetProviderSettings | legacy/src/lib/stores/settingsStore.ts:55-63 | the state becomes `WithProviderSettings`; written when a window exists |
| LegacySettingsStore.LegacySettingsCell.GetSettings | legacy/src/lib/stores/settingsStore.ts:64-67 | returns `SettingsFor` the current state |
| QueryClient.RetryQuery | src/lib/queries/queryClient.ts:10-16 | retry exactly when the error is not an `Error` mentioning `401` and fewer than 3 failures occurred |
| QueryClient.RetryMutation | src/lib/queries/queryClient.ts:20-26 | retry exactly when the error is not an `Error` mentioning `401` and fewer than 2 failures occurred |
| QueryClient.MutationRetriesLess | src/lib/queries/queryClient.ts:10-26 | a mutation retries only where a query would, and stops one failure sooner |
| QueryClient.RetryStopsForGood | src/lib/queries/queryClient.ts:10-26 | once a failure count is not retried, no higher count is |
| QueryClient.OnlyErrorsAreInspected | src/lib/queries/queryClient.ts:12 | thrown values that are not `Error`s are retried by count alone |
| QueryClient.UnauthorizedNeverRetried | src/lib/queries/queryClient.ts:12-13 | an `Error` whose message contains `401` anywhere is never retried |
| QueryClient.RetriedWithoutOne | src/lib/queries/queryClient.ts:10-26 | as written, an `Error` whose message has no `1` is retried by failure count alone, whatever status it names |
| QueryClient.OtherClientErrorsRetried | src/lib/queries/queryClient.ts:11-15 | as written, `404 Not Found`, `HTTP 429` and `403 Forbidden` errors are retried |
| QueryClient.RetryQueryIntended | src/lib/queries/queryClient.ts:10-16 | as the comment says: retry exactly when the error is not an `Error` carrying a 4xx status and fewer than 3 failures occurred |
| QueryClient.RetryMutationIntended | src/lib/queries/queryClient.ts:20-26 | as the comment says: retry exactly when the error is not an `Error` carrying a 4xx status and fewer than 2 failures occurred |
| QueryClient.ClientErrorsNeverRetried | src/lib/queries/queryClient.ts:11 | under the intended options, an `Error` with any `4dd` status in its message is never retried |
| QueryClient.IntendedRetriesLess | src/lib/queries/queryClient.ts:10-26 | the intended options retry only where the written ones do, and agree with them on everything but 4xx errors |
| QueryClient.StaleBeforeCollected | src/lib/queries/queryClient.ts:8-9 | `staleTime` 300000 ms and `gcTime` 1800000 ms |

## Left out

- MessageAccepted: `role` and `content` are modelled as strings, so the schema's refusal of a non-string role or content is not modelled; the `timestamp` member is modelled as any JSON value.
- Network and stream I/O are not modelled: `fetch`, `ReadableStream`, body readers and `TextDecoder`. Upstream bodies are given as the decoded text of each read.
- `JSON.parse` is a parameter. JSON numbers are kept as their literal text, and floating-point values are not modelled.
- `Math.max`/`Math.min` on `NaN` widths is not modelled: widths are integers.
- The mock provider's random choice and token count take the random roll as a parameter. Its typing delays (`setTimeout`) are not modelled.
- Retry back-off delays and the wall clock are not modelled: `now` is a parameter.
- `consumeSSEStream` in src/lib/providers/streamingHelper.ts:13-98 is not part of this model. Nothing in the endpoints calls it; the endpoints use `StreamProcessor`.
- The regular-expression `sanitizeHtml` in src/lib/security/sanitize.ts:30-51 is not part of this model. The chained-replace `sanitizeHtml` of validation.ts and `escapeHtml` are modelled.
- Case-insensitive matching folds ASCII letters only. That is exact for the ASCII patterns the source uses, but not for non-ASCII case folding.
- Lengths count characters (code points), not UTF-16 code units. `charCodeAt` on surrogate pairs is not modelled.
- ChatRoute.Post: the outer catch of the new endpoint names a shadowed `error`. The model reports the HTTP error the checks raise.
- Explicitly `undefined` fields in a `Partial` update are treated as absent. `null` and `undefined` are one value in the error store.
- UiStateStore.UiStateCell.constructor and SessionStore.SessionStoreCell.constructor: the initial load from `localStorage` is not modelled. The cell starts from a given state, because `writable(() => …)` in the source stores the function itself.
- Zod's issue messages are not modelled. A rejected request carries the model's own reason.
- `localStorage` is ghost state: only what is written is modelled. `matchMedia` is an input, and `window.location.origin` is the constant a server-side render sees.
- ProviderRegistry.ProviderRegistry.GetProvider: registry entries are values, so aliasing between a returned entry and the registry is not modelled. Adapter outputs are parameters.
- LegacySettingsStore.SettingsFor: lookups of prototype keys such as `"constructor"` are not modelled; the settings are a plain map.
- ErrorStore.ErrorStoreCell.Elapse: timers are due times run by an explicit `Elapse(now)`, not by a real clock.
- LegacyProviderClient.MessagesJson: messages are modelled as `{role, content}` records with string content. Extra keys of the caller's message objects and non-string content, which the source forwards upstream whole, are not modelled.
- LastMessage: states the callback passed to `derived`. The exported `lastMessage` of src/lib/stores/chatStore.ts:37-39 throws on first subscription, because it is given the bare `subscribe` (`ChatStore.ViewsThrowAsWritten`; the intended view is `ChatStore.ViewsAsIntended`).
- MessagesByRole: states the callback. The exported `messagesByRole` of src/lib/stores/chatStore.ts:40-44 throws on first subscription (`ChatStore.ViewsThrowAsWritten`).
- IsEmpty (ChatStore.IsEmpty and SessionStore.IsEmpty): states the callback. The exported `isEmpty` views of src/lib/stores/chatStore.ts:36 and sessionStore.ts:73 throw on first subscription (`ChatStore.ViewsThrowAsWritten`, `SessionStore.ViewsThrowAsWritten`).
- CurrentSession: states the callback. The exported `currentSession` of src/lib/stores/sessionStore.ts:69-71 throws on first subscription (`SessionStore.ViewsThrowAsWritten`).
- EffectiveTheme: this states the callback. The exported view of src/lib/stores/uiStateStore.ts:79-84 throws on first subscription (`UiStateStore.EffectiveThemeThrowsAsWritten`). The other views there (`isSidebarOpen`, `sidebarWidth`, `isSettingsOpen`, `isModalOpen`) and `errorMessage` in errorStore.ts:32 are plain field reads with the same exception.
- HasError: this states the callback. The exported view of src/lib/stores/errorStore.ts:31 throws on first subscription (`ErrorStore.HasErrorThrowsAsWritten`).
- Loaded: the `parse` parameter yields well-typed members. A stored `null` for `selectedProvider`, `selectedModel` or `providerSettings` is not expressible. Only `saveToStorage` writes this key, and it writes well-typed values.
- The `useChat` and `useProviders` hooks, the thin provider-listing and health endpoints, and the UI components and build output are not part of this model.

## Findings

| source | as written | input that shows it | evidently intended | confidence | as-written member | corrected member |
|---|---|---|---|---|---|---|
| src/lib/stores/errorStore.ts:51-61 | each non-critical `setError` starts a 30-second timer that calls `clearError()` whatever error is shown by then; older timers are never cancelled | `setError("offline", "network")` at time t, then `setAuthError("denied")` at t+1; at t+30000 the first timer fires and the auth error disappears | auth and validation errors stay until cleared explicitly; a new error cancels the timers of older ones | medium, not executed | ErrorStore.EarlierTimerClearsAuthError | ErrorStore.CriticalErrorSurvivesEarlierTimers |
| src/lib/stores/chatStore.ts:36-44 | `isEmpty`, `lastMessage` and `messagesByRole` are `derived(subscribe, …)`; `derived` calls `subscribe.subscribe(…)`, which does not exist | any subscription, e.g. `$isEmpty` in a component, throws `TypeError: store.subscribe is not a function` | `derived({ subscribe }, …)`, so each view reports its callback of the store's value | high, not executed | ChatStore.ViewsThrowAsWritten | ChatStore.ViewsAsIntended |
| src/lib/stores/sessionStore.ts:69-73 | `currentSession` and `isEmpty` are `derived(subscribe, …)` | subscribing to `currentSession` throws `TypeError: store.subscribe is not a function` | `derived({ subscribe }, …)` | high, not executed | SessionStore.ViewsThrowAsWritten | SessionStore.ViewsAsIntended |
| src/lib/stores/uiStateStore.ts:79-84 | `effectiveTheme` is `derived(subscribe, …)` | subscribing to `effectiveTheme` throws `TypeError: store.subscribe is not a function` | `derived({ subscribe }, …)` | high, not executed | UiStateStore.EffectiveThemeThrowsAsWritten | UiStateStore.EffectiveThemeAsIntended |
| src/lib/stores/errorStore.ts:31 | `hasError` is `derived(subscribe, …)` | subscribing to `hasError` throws `TypeError: store.subscribe is not a function` | `derived({ subscribe }, …)` | high, not executed | ErrorStore.HasErrorThrowsAsWritten | ErrorStore.HasErrorAsIntended |
| src/lib/queries/queryClient.ts:11-15 | the comment says 4xx errors are not retried, but only messages containing `401` are excluded | `Error("404 Not Found")` on a query's first failure, or `Error("403 Forbidden")` on a mutation's, is retried | no retry for an `Error` carrying any 4xx status | medium, not executed | QueryClient.OtherClientErrorsRetried | QueryClient.ClientErrorsNeverRetried |
