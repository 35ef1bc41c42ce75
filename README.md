# A verified model of the chat front-end's core logic

This Dafny project models the deterministic parts of a LangChain chat front-end:

- **The chat window** (`components/ChatWindow.tsx`), modelled as the class `ChatWindow.ChatSession`. It covers:
  - the busy and mode gating of `sendMessage`;
  - the optimistic user message;
  - the structured turn: the tool-call filter, step building with positional ids, the step-by-step reveal and the final assistant message;
  - the `onResponse` merge of citation sources into the citation map;
  - the citation key `length - 1 - i` used when messages are rendered;
  - the submit/stop gate of `ChatInput`.
- **The intermediate step component** (`components/IntermediateStep.tsx`): reading back the `{action, observation}` payload, what the step displays, and its `expanded` toggle (`IntermediateStep.StepToggle`).
- **Provider configuration** (`lib/ai/provider.ts`): provider and model validation from the environment, chat-model selection with its default temperature, and embedder selection.
- **`loadEnv`** (`scripts/setup-db.mjs`): `.env` parsing and the "never override, first occurrence wins" update of the process environment (`SetupDb.ProcessEnv`).

Two support modules model the JavaScript built-ins the core relies on:

- `JsStrings`: `trim`, `split`/`join`, `indexOf`, integer `toString`, ASCII `toLowerCase`/`toUpperCase`.
- `Json`: a JSON value type, property access with JavaScript's `undefined`/`null` rules, `JSON.stringify` with indentation, a `JSON.parse`, and the round trip between the two.

Step payloads are therefore real JSON text. "Malformed content throws" and "decode returns what was encoded" are both stated on concrete strings.

Two behaviours of the code shape the model:

- **When busy is cleared.** `components/ChatWindow.tsx:224` clears the busy flag as soon as the reply body is read. That is before the `ok` check and before any step is revealed. `ChatSession.ReceiveReply` clears it first, and every transcript the reveal publishes is recorded with the busy flag as it was then.
- **Malformed step content.** `JSON.parse` and the property reads at `components/IntermediateStep.tsx:8-10` throw; there is no fallback. `IntermediateStep.ReadPayload` and `IntermediateStep.Decode` return the error.

## Model

| member | source | states |
|---|---|---|
| Provider.ErrorMessage | lib/ai/provider.ts:38-53 | each thrown message starts with the name of the variable it asks for, so the two errors read differently |
| Provider.ProviderNamed | lib/ai/provider.ts:30-36 | only the three lower-case names are recognised, each as the provider it names |
| Provider.GetLLMProvider | lib/ai/provider.ts:27-41 | succeeds exactly when `LLM_PROVIDER` is set and its lower-cased value is one of the three names; the result's name is that lower-cased value; otherwise the provider configuration error |
| Provider.GetLLMModel | lib/ai/provider.ts:46-56 | succeeds exactly when `LLM_MODEL` is set and non-empty, returning it unchanged; otherwise the model configuration error |
| Provider.GetChatModel | lib/ai/provider.ts:61-84 | the provider error takes precedence over the model error; on success the chat class matches the provider, carries `LLM_MODEL`, and the temperature is the given one or 0 when none is given |
| Provider.GetEmbeddings | lib/ai/provider.ts:90-105 | fails exactly when the provider is invalid; Google's embedder (model `text-embedding-004`) exactly for Google, OpenAI's otherwise |
| Provider.ProviderCaseInsensitive | lib/ai/provider.ts:28-35 | any spelling whose lower case is a provider's name selects that provider |
| Provider.ProviderNameRoundTrip | lib/ai/provider.ts:28-35 | the accepted name is already lower case, and writing it back selects the same provider |
| Provider.UpperCaseAccepted | lib/ai/provider.ts:28 | an upper-case provider name is accepted as the same provider |
| Provider.TemperatureKept | lib/ai/provider.ts:64 | an explicit temperature (0 included) is kept; a missing one becomes 0 |
| Provider.EmbeddingsIgnoreModel | lib/ai/provider.ts:90-105 | the embedder does not depend on `LLM_MODEL`, set, changed or removed |
| Provider.ChatModelMatchesProvider | lib/ai/provider.ts:66-105 | with a valid provider and a non-empty model, the chat model is that provider's class with that model, and the embedder is the one for that provider |
| SetupDb.ProcessEnv.LoadEnv | scripts/setup-db.mjs:16-32 | an unreadable file leaves the environment unchanged; otherwise the environment is the old one with each parsed line of the newline-split text applied in order |
| SetupDb.ProcessEnv.ApplyLines | scripts/setup-db.mjs:20-28 | the loop over the lines leaves exactly the environment obtained by applying every parsed line in order |
| SetupDb.ProcessEnv.WriteEntry | scripts/setup-db.mjs:25-27 | an entry is written only when key and value are non-empty and the variable is unset or empty |
| SetupDb.ParseLine | scripts/setup-db.mjs:21-24 | a line is skipped exactly when it is all whitespace or its trimmed text starts with `#`; a key never contains `=` |
| SetupDb.ParseTrimmed | scripts/setup-db.mjs:22-24 | on the trimmed line: skipped exactly when empty or a comment; otherwise key `=` value rebuilds the line, and a line without `=` is all key with an empty value |
| SetupDb.SplitEntry | scripts/setup-db.mjs:23-24 | the key holds no `=`; key `=` value rebuilds a line that has one; a line without `=` is all key with an empty value |
| SetupDb.ApplyEntry | scripts/setup-db.mjs:25-27 | one line never removes a variable, never changes one with a non-empty value, changes no variable but its own key, and writes its value when it applies |
| SetupDb.ApplyEntries | scripts/setup-db.mjs:20-28 | applying the file never removes a variable, and every new variable is named by some line of the file |
| SetupDb.SplitEntryIsSplitJoin | scripts/setup-db.mjs:23-24 | the key is the text before the first `=` (it contains no `=`), the value all the rest with later `=` kept, equal to the split-then-join destructuring, and key `=` value rebuilds the line |
| SetupDb.NeverOverrides | scripts/setup-db.mjs:25-27 | a variable already set to a non-empty value keeps it whatever the file says |
| SetupDb.UnmentionedUnchanged | scripts/setup-db.mjs:20-28 | a variable no line of the file names keeps its state, set or unset |
| SetupDb.FirstOccurrenceWins | scripts/setup-db.mjs:20-28 | for a variable unset or empty beforehand, the first applicable line for it gives its final value; later duplicates are ignored |
| SetupDb.NotYetSet | scripts/setup-db.mjs:20-28 | until an applicable line for a variable is read, it stays unset or empty |
| SetupDb.LineSets | scripts/setup-db.mjs:25-27 | one line sets an unset or empty variable exactly when it is an applicable entry for it |
| SetupDb.EmptyValueIgnored | scripts/setup-db.mjs:24-25 | a line without `=`, or ending in `=`, changes nothing |
| SetupDb.SpacesAroundEqualsKept | scripts/setup-db.mjs:21-24 | only the whole line is trimmed: `A = b` gives key `"A "` and value `" b"` |
| Json.Prop | components/IntermediateStep.tsx:9-10 | for the keys the code reads (`action`, `observation`, `name`, `args`, `length`): reading a property throws exactly on `undefined` and `null`, and an object answers with its member (last duplicate wins) |
| Json.ParseStringify | components/ChatWindow.tsx:249-252 | parsing the serialised text of any value, at any indentation, gives that value back |
| IntermediateStep.ReadPayload | components/IntermediateStep.tsx:8-10 | content that is not JSON, or is `null`, throws; a parsed object gives its `action` and `observation` members; any other value gives both `undefined` |
| IntermediateStep.InputText | components/IntermediateStep.tsx:45 | the shown input is present exactly when `args` is defined; it is `args` serialised with two-space indentation, and parses back to `args` |
| IntermediateStep.Decode | components/IntermediateStep.tsx:8-51 | rendering throws when the payload cannot be read or the action is `undefined`/`null`; otherwise the badge is `action.name`, the input is `InputText` of `action.args` (present exactly when `args` is defined, parsing back to it), and the output is the observation as stored |
| IntermediateStep.StepToggle.constructor | components/IntermediateStep.tsx:11 | a step starts collapsed |
| IntermediateStep.StepToggle.Click | components/IntermediateStep.tsx:23 | a click flips `expanded` |
| IntermediateStep.StepToggle.ClickTwice | components/IntermediateStep.tsx:23 | two clicks restore the previous state |
| ChatWindow.PositionalIdsUnique | components/ChatWindow.tsx:210 | ids that equal positions are pairwise distinct |
| ChatWindow.IsToolTraffic | components/ChatWindow.tsx:234-237 | only assistant and tool messages are tool traffic; every tool message is, and an assistant message exactly when it has a first tool call |
| ChatWindow.ToolCallMessages | components/ChatWindow.tsx:232-240 | the result holds exactly the response messages that are assistant messages with tool calls or tool messages, and is no longer than the response |
| ChatWindow.ToolCallMessagesConcat | components/ChatWindow.tsx:232-240 | the filter distributes over concatenation, so it keeps the order of the response |
| ChatWindow.ToolCallMessagesSingle | components/ChatWindow.tsx:234-237 | one message is kept exactly when it is tool traffic |
| ChatWindow.ActionOf | components/ChatWindow.tsx:250 | the action is absent exactly when the message has no tool calls, and is otherwise its first tool call |
| ChatWindow.StepPayloadMembers | components/ChatWindow.tsx:249-252 | the serialised payload is an object whose `observation` member is the tool result and whose `action` member is the action, absent when there is none |
| ChatWindow.StepMessage | components/ChatWindow.tsx:246-253 | step `k` is a `system` message, not itself tool traffic, whose id is the number of messages before it |
| ChatWindow.Steps | components/ChatWindow.tsx:242-254 | one step per tool-call/result pair, step `k` built from pair `k` |
| ChatWindow.LaterToolCallsDropped | components/ChatWindow.tsx:250 | a step depends only on the first tool call of its message |
| ChatWindow.StepDecodes | components/ChatWindow.tsx:249-252 | the step component reads back exactly the action (the first tool call, or none) and the observation (the tool result's content) the window serialised |
| ChatWindow.StepRendering | components/ChatWindow.tsx:242-254 | a step whose message has no tool call fails to render; otherwise it shows the tool call's `name`, its `args` as `InputText` (present exactly when `args` is defined) and the tool result |
| ChatWindow.WithUserMessage | components/ChatWindow.tsx:209-213 | the history is kept, followed by one user message whose id is the history's length and whose content is the typed input |
| ChatWindow.WithUserMessageIds | components/ChatWindow.tsx:209-213 | the optimistic append keeps ids equal to positions |
| ChatWindow.FinalMessage | components/ChatWindow.tsx:265-272 | the final message is an assistant message, not tool traffic, numbered by the count of messages before it, with the content of the last response message |
| ChatWindow.TurnOf | components/ChatWindow.tsx:223-272 | a turn fails exactly when the reply is not ok, and then publishes nothing and reports `json.error`; it crashes on absent messages exactly when the reply is ok without them; odd tool traffic publishes nothing; anything published comes from an ok reply with messages |
| ChatWindow.Finish | components/ChatWindow.tsx:256-272 | the turn completes exactly when the response is non-empty; a crash publishes only the reveals; a completion publishes the reveals then the final transcript, which is the pending history and steps followed by one assistant message |
| ChatWindow.Reveals | components/ChatWindow.tsx:256-263 | the `j`-th published transcript is the pending history followed by the first `j+1` steps |
| ChatWindow.TurnCompletes | components/ChatWindow.tsx:223-272 | a turn completes exactly when the reply is ok, carries messages, its tool traffic has even length and it has a last message; a failed reply publishes nothing and reports its error |
| ChatWindow.CompletedTranscript | components/ChatWindow.tsx:242-272 | the final transcript is the pending history, one step per tool-call/result pair, then one assistant message with the last response message's content; there are `n/2 + 1` publications, each a prefix of the final transcript one message longer than the one before |
| ChatWindow.TurnIdsArePositions | components/ChatWindow.tsx:247-268 | every message a completed turn appends has its position as its id |
| ChatWindow.CitationKey | components/ChatWindow.tsx:38 | the key is the decimal text of the message's distance from the end of the transcript |
| ChatWindow.RenderTranscript | components/ChatWindow.tsx:33-46 | one rendered item per message, in order; `system` messages render as steps with no citation lookup; every other message is a bubble showing the sources stored under its citation key |
| ChatWindow.CitationKeysDistinct | components/ChatWindow.tsx:38 | within one transcript, different messages have different citation keys, and the newest message's key is "0" |
| ChatWindow.CitationKeyShift | components/ChatWindow.tsx:38 | appending messages shifts every existing key by the number appended, so the old key no longer reaches the message |
| ChatWindow.StoredSourcesShown | components/ChatWindow.tsx:38-44 | sources stored under a key are shown on the bubble with that key; every other bubble is unaffected |
| ChatWindow.DecodeSources | components/ChatWindow.tsx:177-180 | an absent or empty `x-sources` header gives the empty list; otherwise the decoded text is parsed, and unparseable text throws |
| ChatWindow.MergeSources | components/ChatWindow.tsx:177-188 | throws exactly when the sources are not JSON or are `null`; all keys other than the index header keep their values, no other key appears, and a change is exactly the sources written under the index header |
| ChatWindow.MergeSourceList | components/ChatWindow.tsx:183-188 | a list of sources is stored exactly when it is non-empty and the index header is present; without the sources header nothing changes |
| ChatWindow.OnFormSubmit | components/ChatWindow.tsx:65-73 | a submit calls `onSubmit` exactly when not loading, and the stop handler exactly when loading with one |
| ChatWindow.SubmitDisabled | components/ChatWindow.tsx:61-87 | the button is disabled exactly when loading without a stop handler, or when the input is all whitespace |
| ChatWindow.ChatWindowInputGate | components/ChatWindow.tsx:289-294 | the window passes no stop handler: while busy, a submit does nothing and the button is disabled |
| ChatWindow.ChatSession.constructor | components/ChatWindow.tsx:167-172 | the window starts idle, with no messages and no citations; the steps mode starts as the `showIntermediateStepsToggle` prop, which is kept |
| ChatWindow.ChatSession.SendMessage | components/ChatWindow.tsx:197-214 | while busy nothing changes; with steps off the submission is only delegated; otherwise the input is cleared, busy is set and exactly the user message is appended and published |
| ChatWindow.ChatSession.ReceiveReply | components/ChatWindow.tsx:223-272 | busy is cleared; the outcome, the published transcripts and the final messages are those of `TurnOf`; a toast is added exactly for a failed reply |
| ChatWindow.ChatSession.FinishTurn | components/ChatWindow.tsx:256-272 | the steps are revealed one at a time, then the final assistant message is appended; an empty response throws after the reveal; the outcome and publications are those of `Finish` |
| ChatWindow.ChatSession.BuildSteps | components/ChatWindow.tsx:242-254 | odd tool traffic throws before any step is kept; otherwise the steps are exactly one per pair, numbered after the pending history |
| ChatWindow.ChatSession.RevealSteps | components/ChatWindow.tsx:256-263 | each step is published in turn on top of what is shown, and the transcript ends as the history followed by all steps |
| ChatWindow.ChatSession.OnResponse | components/ChatWindow.tsx:176-189 | the citation map becomes the merged map, or is left as it was when the handler throws |
| ChatWindow.ChatSession.SetShowIntermediateSteps | components/ChatWindow.tsx:321-327 | the checkbox exists only when the window has the toggle, and changes the mode only when not busy |
| ChatWindow.ChatSession.SetInput | components/ChatWindow.tsx:290-291 | typing replaces the input and nothing else |
| ChatWindow.ChatSession.SetChatLoading | components/ChatWindow.tsx:293 | the streaming library's loading flag, which feeds the busy gate, changes and nothing else |

## Left out

- Streaming (`useChat`), `fetch`, `response.json()` and the error toasts are library and network I/O. They are not part of this model. The HTTP result is an input: the `ok` flag, `json.error` and `json.messages`. A toast is recorded as its description.
- The randomised 1–2 second pause between reveals is a timer. Each pause is a no-op step of the reveal loop.
- `ChatSession.ReceiveReply` runs the rest of a turn atomically. Events that React would interleave during the `await`s are left out, as is the stale `sourcesForMessages` closure that `onResponse` captures. The merge is over the map current when it runs.
- `ChatSession.RevealSteps` keeps its own copy of the growing transcript. The source pushes into the array it already passed to `setMessages`. That aliasing is not modelled, since every later publication is a fresh copy.
- `ChatWindow.DecodeSources` takes base64-to-UTF-8 decoding (`Buffer`) as a function parameter. This model does not define that decoding.
- An exception thrown by `onResponse` is returned as an error. What the streaming library then does with it is not part of this model.
- `Json.Parse`: numbers are integers without fraction or exponent. `\u` escapes that name surrogates are rejected. Any other JSON number text is treated as malformed.
- `Json.Parse` keeps an object's members as written, duplicates included, and `Json.Get` reads the last duplicate. JavaScript's `JSON.parse` merges a duplicate into the first one's position with the last value, and orders integer-like keys first. Re-serialising such an object (the `args` shown by `IntermediateStep.InputText`) can therefore differ in member order from JavaScript.
- `Json.Parse` and `Json.Stringify` use unbounded integers. JavaScript numbers are doubles: integers beyond 2^53 lose precision, and `JSON.stringify` writes large ones in exponent form (`1e+21`).
- `Json.Prop` covers the keys the code reads. Index keys of strings and arrays, and inherited members such as `toString`, are not modelled.
- `ChatSession.ReceiveReply` always receives a `Reply`. A rejected `fetch`, or a body that is not JSON, throws before `components/ChatWindow.tsx:224`. Then `intermediateStepsLoading` stays set and the window stays busy: every later submit returns at line 199, and the checkbox stays disabled. That locked state is not modelled.
- `JsStrings.ToLowerCase` folds only ASCII letters. Which provider names are accepted is unaffected, but non-ASCII values are not lower-cased as JavaScript would.
- `SetupDb.SplitEntry` splits at the first `=` directly. `SetupDb.SplitEntryIsSplitJoin` proves it equal to the source's split-then-join.
- LangChain's chat and embedding classes are tagged values that carry the constructor options.
- React rendering, styling, the upload dialog, `ChatMessageBubble` and the other presentation components are not part of this model.
- The rest of `scripts/setup-db.mjs` is database provisioning and console output, and is not part of this model.
