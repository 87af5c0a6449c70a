# Gateway verification model

A Dafny model of the gateway that turns Anthropic Messages requests into OpenAI Responses calls and
back, with proofs of what its protocol engines promise. Verify everything with
`dafny verify dfyconfig.toml`.

Code that works on values is modelled by functions and lemmas. Code that changes state in place is
modelled by classes, arrays and loops, each method proved equal to a function of its old state; the
theorems are about those functions, over every input, every run or every interleaving.

| files | what they model |
|---|---|
| `Json.dfy` | JSON values, text, key order |
| `ToolCalls.dfy` | the four kinds of tool call: parsing, sanitising, printing |
| `Bridge.dfy`, `BridgeMachine.dfy` | the streaming bridge: its step functions, and the mutable object |
| `BridgeGrammar.dfy`, `BridgeAgreement.dfy`, `BridgeCalls.dfy`, `BridgeNames.dfy`, `BridgeSearches.dfy` | theorems about its runs: grammar, stream/unary agreement, non-interference, names and failing completions, searches |
| `BridgeText.dfy`, `BridgeInputs.dfy`, `BridgeSummary.dfy` | what a stream says, read off the backend's events: text and thinking, tool inputs, searches and summary |
| `StrictSchema.dfy`, `SchemaGate.dfy`, `SchemaReach.dfy`, `ResponseGate.dfy`, `ResponsePruning.dfy`, `SchemaPair.dfy` | the outgoing strict-schema gate and how far it reaches, the incoming null remover and clean-up, and the two gates as a pair |
| `Context.dfy`, `ContextManager.dfy` | context management: specification, and the in-place manager |
| `ContextPairs.dfy`, `ContextLaws.dfy`, `ContextAccounts.dfy`, `ContextLimits.dfy`, `ContextTokens.dfy`, `ContextGates.dfy`, `ContextFields.dfy` | its theorems: pairing, laws of passes, two-pass accounting, limits, what token counts change, and what an edit's own fields clear |
| `Lease.dfy`, `Turn.dfy`, `TurnCourse.dfy` | the lease store, turns of many requests as interleaved atomic steps, and the course of one of them |
| `Chains.dfy` | transport identities, the chain registry, the reuse decision |
| `WebSocketPool.dfy`, `WebSocketRetries.dfy`, `WebSocketSession.dfy`, `WebSocketSteps.dfy` | the retrying session pool and its exact attempts, and one session as a state machine with a log |
| `StreamWriter.dfy`, `EventStream.dfy` | the stream writer and its channel protocol, and the event-stream decoder |
| `Commands.dfy`, `Tags.dfy`, `TagScan.dfy`, `TagSpans.dfy`, `TagCuts.dfy`, `TagsExample.dfy` | the command table, stripping local-only commands from user text, what is cut, when a command is left, and two texts where one is |
| `Breaker.dfy` | the exchange log's circuit breaker |

How the outside world enters the model:

- JSON text is a sequence of characters and encodings. A text that is one encoding decodes to the value
  encoded; what any other text decodes to is left to a `Parser` argument about which nothing is assumed.
- Clocks, network outcomes, client disconnects, live chains and encoded sizes are arguments or step
  inputs that range over every value. So is the table of local-only commands, except where the
  gateway's own table gives an example.
- Request ids are the keys of a map, hence distinct. Each request has a translator of its own, as
  `core/domain/translator/sse_bridge.go:17` intends.

Where the code differs from what one might expect, the model follows the code:

- Web-search blocks are stopped when they are emitted and again when the message is finalised.
- A call whose arguments are not an object replaces all pending output by an error and leaves the
  translator open to further events: `CompletionFailsExactly` says when, `TextAfterError` gives a
  stream that goes on, `EveryStreamSurvives` what still holds of it.
- Cleared tool results that were empty get a placeholder but are not reported: `UnreportedExactly`
  and `UnreportedChanges`.
- Streamed input tokens exclude cached ones; unary input tokens do not. A streamed tool block is named
  by the event that opens it, a unary one by its call's last item (`NamesAgreeExactly`).
- Null removal gives back a valid value exactly when every object in it meets a schema whose required
  names are declared, since the strict form forgets the others, and no keyword such as minProperties
  rejects what is left (`SoundExactly`, `MinPropertiesExactly`, `MinPropertiesFails`).
- Transport keys are parts joined by colons, and one can be taken for another's exactly when a part has
  a colon (`AmbiguousExactly`, `KeyAmbiguousExactly`), which an effort sent by a client can
  (`ColonsConfuse`).
- Several edits with token gates or triggers can depend on their order and clear more when repeated,
  because placeholders count too (`TokenGatesBreakTheLaws`). A single edit is idempotent, and so is a
  pass in which nothing grows; for one such edit among any that do not count
  tokens `GateIdempotentExactly` and `GateOrderExactly` are the exact conditions.
- Stripping can leave a local-only command in the text, which covers the place where output was cut
  (`CommandReappears`) or follows it (`CommandLeftUncovered`); `CutLeavesCommandExactly` says when one
  cut does it, and `StrippingLeavesExactly` when stripping does.

## Model

| member | source | states |
|---|---|---|
| BridgeAgreement.StreamAgreesWithUnary | core/domain/translator/sse_bridge.go:1253-1334 | For every list of events that completes without an error event, with or without a schema: streamed text is the unary text; streamed calls are the unary ones in order, ids and inputs; stop reason, output tokens and search count agree; input tokens agree exactly when the input count is not negative and either none were cached or the input count is zero and more than zero were cached |
| BridgeText.AnswerSaid | core/domain/translator/sse_bridge.go:485-551 | On every stream that completes without error the streamed text and the unary text are the non-blank texts of the delta events and of the messages that came before any delta, in order, read off the events; without a schema each is a delta of its own, with one they are cleaned up and come as one; and the thinking is that of the reasoning events |
| BridgeText.StreamTold | core/domain/translator/sse_bridge.go:738-770 | Before a stream has ended, failed completions included: its text deltas are those texts and its thinking deltas those thoughts so far; with a schema there is no text yet |
| BridgeText.AnswerMeetsSchema | core/domain/translator/sse_bridge.go:345-358 | With a schema: if the texts together decode to a value valid under the strict schema, the streamed and the unary text decode to that value without its null optional fields, which is valid under the client's schema |
| BridgeInputs.InputsShown | core/domain/translator/sse_bridge.go:1145-1169 | On every such stream exactly the calls that the events open are given an input, in the order of opening: the arguments that the last finished item and the later fragments hold, without those the policies leave out |
| BridgeInputs.SanitizedExactly | core/domain/translator/tool_arg_policy.go:40-195 | The arguments a text holds, and which are left out: isolation for Agent, pages for Read where they are empty or the file is not named as a PDF; only a custom tool may be given something that is no object |
| BridgeSummary.SummarySaid | core/domain/translator/sse_bridge.go:1132-1169 | On every such stream: one pair of search blocks per search mentioned up to the completion, in order, with the query and results of its first mention; and the summary says tool_use exactly if a call was opened, and gives the completion's own token counts with the number of completed searches |
| BridgeSummary.StreamShows | core/domain/translator/sse_bridge.go:832-846 | The same of the searches of a stream that has not ended |
| BridgeSummary.UseIdSpelled | core/domain/translator/sse_bridge.go:891-909 | The id shown for a search begins with srvtoolu_ and is made of the letters, digits and underscores of its own id |
| BridgeNames.NamesAgreeExactly | core/domain/translator/sse_bridge.go:578-602 | On the same streams: the streamed block of a call carries the name of the event that opened it (none for a fragment), the unary block the name in its last item, and the two agree exactly when those do |
| BridgeAgreement.UnaryFromStream | core/domain/translator/sse_bridge.go:1253-1260 | The unary replay, which has no context-management value, answers from the same final state as the stream |
| BridgeAgreement.RunSettles | core/domain/translator/sse_bridge.go:397-420 | Invariant of every error-free run: until completion the stream emitted so far carries the accumulated text and the calls in block order; after completion also all sanitised inputs and the summary |
| BridgeGrammar.StreamAccepted | core/domain/translator/sse_bridge.go:1235-1243 | Every run of a fresh bridge, on any events, is accepted to its last event, bad-arguments errors included, by an acceptor that knows nothing of the bridge; it has ended exactly when the bridge is completed |
| BridgeGrammar.EveryStreamSurvives | core/domain/translator/sse_bridge.go:1145-1169 | At every event of every stream, whatever errors came before: starts go up, a delta goes to a block shown, of its kind and not stopped, only search blocks are stopped twice, and the summary and the stop come last |
| BridgeNames.CompletionFailsExactly | core/domain/translator/sse_bridge.go:1154-1166 | After any events, completions that failed included: completion answers with the bad-arguments error exactly when the events have not ended the stream and the arguments they hold for some opened call, in closed form, are not an object |
| BridgeNames.StreamEndsExactly | core/domain/translator/sse_bridge.go:397-420 | A stream has ended exactly when one of its events is a backend failure, or a completion before which the arguments of every opened call were objects |
| BridgeNames.TextAfterError | core/domain/translator/sse_bridge.go:1154-1166 | A list of events, for any call id and text, on which text follows the bad-arguments error, under an index that skips the blocks swallowed with it |
| BridgeGrammar.StreamInOrder | core/domain/translator/sse_bridge.go:122-157 | On every run up to its first error, starts take the next index and every delta names a block started and not yet stopped |
| BridgeGrammar.CleanStreamGrammar | core/domain/translator/sse_bridge.go:345-376 | A clean completion: starts 0,1,2,...; every text, thinking and tool block stopped exactly once and every web-search block exactly twice; then one message_delta, one message_stop, nothing else |
| BridgeGrammar.NothingAfterBackendFailure | core/domain/translator/sse_bridge.go:397-401 | A backend failure is the last event ever sent, also after bad-arguments errors |
| BridgeGrammar.KeepsFinish | core/domain/translator/sse_bridge.go:1145-1169 | Completion keeps the grammar in both branches: inputs, stops and summary, or the bad-arguments error that replaces everything pending |
| BridgeCalls.NonInterference | core/domain/translator/sse_bridge.go:578-602 | When fragments carry call ids, the buffer, name and kind held for a call depend only on that call's own events, under any interleaving |
| BridgeCalls.BufferContents | core/domain/translator/sse_bridge.go:1090-1112 | The buffer of a call is the arguments of its last finished item followed by the later fragments, those without a call id going to the last item's call |
| BridgeCalls.StepOwned | core/domain/translator/sse_bridge.go:397-420 | One event changes what is held for its own call, as its effect says, and for no other |
| BridgeOrder.ListingIsCallOrder | core/domain/translator/sse_bridge.go:1148-1152 | There is one listing of the calls by ascending block index |
| BridgeOrder.SortByIndex | core/domain/translator/sse_bridge.go:1148-1152 | Sorting the call map by block index gives that listing |
| BridgeMachine.BridgeState.AddBlock | core/domain/translator/sse_bridge.go:122-127 | Takes the next index and appends an open block |
| BridgeMachine.BridgeState.OpenThinkingBlockIfNeeded | core/domain/translator/sse_bridge.go:129-136 | Opens the thinking block only once |
| BridgeMachine.BridgeState.OpenTextBlockIfNeeded | core/domain/translator/sse_bridge.go:138-145 | Opens the text block only once |
| BridgeMachine.BridgeState.EnsureToolBlock | core/domain/translator/sse_bridge.go:147-157 | One block per call id; never loses arguments already buffered |
| BridgeMachine.BridgeState.HandleOutputTextDelta | core/domain/translator/sse_bridge.go:485-505 | Takes the step of the pure bridge: blank deltas dropped, schema mode buffers; BridgeText says what text results |
| BridgeMachine.BridgeState.HandleMessageItem | core/domain/translator/sse_bridge.go:738-770 | Takes the step of the pure bridge: ignored once a text delta was seen |
| BridgeMachine.BridgeState.HandleReasoningDelta | core/domain/translator/sse_bridge.go:1116-1128 | Takes the step of the pure bridge |
| BridgeMachine.BridgeState.HandleToolCallItem | core/domain/translator/sse_bridge.go:578-602 | Takes the step of the pure bridge: only a finished item overwrites the buffer |
| BridgeMachine.BridgeState.HandleToolArgDelta | core/domain/translator/sse_bridge.go:1090-1112 | Takes the step of the pure bridge, falling back to the last item's call |
| BridgeMachine.BridgeState.EmitWebSearchCallBlocks | core/domain/translator/sse_bridge.go:832-846 | Two blocks per search, once per search id; both stopped but not marked closed |
| BridgeMachine.BridgeState.HandleOutputItem | core/domain/translator/sse_bridge.go:555-576 | Dispatches an item as the pure bridge does |
| BridgeMachine.BridgeState.CloseBlocks | core/domain/translator/sse_bridge.go:360-366 | Stops and closes exactly the blocks not closed |
| BridgeMachine.BridgeState.FinalizeMessage | core/domain/translator/sse_bridge.go:345-376 | Takes the closing step of the pure bridge |
| BridgeMachine.BridgeState.CollectInputs | core/domain/translator/sse_bridge.go:1154-1166 | One input delta per call, or none at all if one call's arguments are not an object |
| BridgeMachine.BridgeState.HandleCompleted | core/domain/translator/sse_bridge.go:1132-1169 | Takes the completion step of the pure bridge, bad-arguments path included |
| BridgeMachine.BridgeState.MapBackendEvent | core/domain/translator/sse_bridge.go:397-420 | Takes exactly the step of the pure bridge for every event |
| BridgeMachine.Translator.TranslateResponseEvent | core/domain/translator/sse_bridge.go:1235-1243 | Creates the state on first use and ignores everything after completion |
| BridgeMachine.Translator.BuildUnaryResponse | core/domain/translator/sse_bridge.go:1253-1334 | The replay loop and assembly give the unary response of the pure bridge |
| Bridge.CompletedRun | core/domain/translator/sse_bridge.go:1239-1241 | A completed bridge emits and changes nothing, whatever follows |
| BridgeSearches.SearchesShownOnce | core/domain/translator/sse_bridge.go:832-846 | On every error-free stream: one server_tool_use block per search, under that search's own id, and every search the backend shows as completed has its block, so the reported count never exceeds the blocks |
| BridgeSearches.CompletionShows | core/domain/translator/sse_bridge.go:1132-1142 | At completion every search of the output is shown, and the usage reports the number of completed searches |
| Bridge.FlatDelta | core/domain/translator/sse_bridge.go:509-551 | A text event without nested values carries its delta, whatever else it holds |
| ToolCalls.PrintThenParse | core/domain/translator/generic.go:381-449 | Printing a tool_use block and parsing it back recovers id and kind, the name where the item carries one, and the input exactly for the printable inputs (if and only if) |
| ToolCalls.ParseThenPrint | core/domain/translator/sse_bridge.go:630-734 | Parsing a backend item and printing it under its kind returns the item, up to JSON equality of arguments, exactly for the canonical items (if and only if), for all four kinds |
| ToolCalls.SanitizedEncoding | core/domain/translator/tool_arg_policy.go:52-60 | Encoded object arguments sanitise to themselves without the names the policies drop |
| ToolCalls.ToolArgs.ApplyPolicies | core/domain/translator/tool_arg_policy.go:42-47 | Deletes exactly the dropped names in place and reports each once |
| ToolCalls.ToolArgs.AgentPolicy | core/domain/translator/tool_arg_policy.go:143-156 | Deletes `isolation` from Agent arguments and nothing else |
| ToolCalls.ToolArgs.ReadPolicy | core/domain/translator/tool_arg_policy.go:158-195 | Deletes `pages` from Read arguments when it is empty or the file is not a PDF |
| StrictSchema.StrictIdempotent | old_rust/crates/gateway-backend-codex/src/schema_gate.rs:49-182 | Normalising twice is normalising once, under every combinator and definition keyword |
| StrictSchema.GatedNames | old_rust/crates/gateway-backend-codex/src/schema_gate.rs:89-136 | After gating, the required names are exactly the declared properties |
| SchemaReach.StrictIsGatedEverywhere | old_rust/crates/gateway-backend-codex/src/schema_gate.rs:49-182 | The strict form, and nothing else, is the schema gated at every place that the seven schema keywords, the three combinators, the two definition keywords and the properties lead to, with optional properties made nullable and every other value unchanged |
| SchemaReach.StrictEveryObjectGated | old_rust/crates/gateway-backend-codex/src/schema_gate.rs:49-136 | Every object schema the strict form reaches forbids other properties and requires all it declares |
| SchemaReach.StrictFixedExactly | old_rust/crates/gateway-backend-codex/src/schema_gate.rs:49-136 | A schema is its own strict form exactly when every object schema it reaches is so already |
| SchemaReach.OptionalAllowsNull | old_rust/crates/gateway-backend-codex/src/schema_gate.rs:146-182 | A property made nullable names null among its types, or has it as an alternative |
| SchemaGate.NormalizeSchema | old_rust/crates/gateway-backend-codex/src/schema_gate.rs:49-87 | The in-place recursion computes the strict form, which SchemaReach describes place by place |
| SchemaGate.NormalizeObjectSchema | old_rust/crates/gateway-backend-codex/src/schema_gate.rs:89-136 | Gating an object schema in place gives the fields of its strict form |
| SchemaGate.NormalizeProperties | old_rust/crates/gateway-backend-codex/src/schema_gate.rs:107-129 | Properties become strict, and nullable where they were optional |
| SchemaPair.Sound | core/domain/translator/claude_response_gate.go:139-183 | Any value valid under the strict schema becomes valid under the original after null removal, for object, array and primitive schemas whose required names are declared and whose keywords on objects and arrays agree with null removal; so always for keywords on scalars alone |
| SchemaPair.SoundExactly | core/domain/translator/claude_response_gate.go:139-183 | For schemas of that shape, required names declared or not and with any keywords: a value valid under the strict schema becomes valid under the original exactly when every object in it, at any depth, meets a schema whose required names are all declared, and no keyword on an object or array rejects what null removal leaves |
| SchemaPair.MinPropertiesExactly | old_rust/crates/gateway-backend-codex/src/schema_gate.rs:89-136 | With minProperties an answer comes back valid exactly when, besides, enough properties are left once the null optional ones are removed |
| SchemaPair.MinPropertiesFails | old_rust/crates/gateway-backend-codex/src/schema_gate.rs:89-136 | With one optional property and a minimum of one, the answer null for it comes back invalid |
| SchemaPair.UndeclaredRequiredAlwaysFails | old_rust/crates/gateway-backend-codex/src/schema_gate.rs:95-135 | With an undeclared required name every object the backend may answer fails |
| SchemaPair.Exact | core/domain/translator/claude_response_gate.go:139-183 | The pair delivers exactly the deliverable values: both directions, with any keywords on scalars, objects and arrays |
| SchemaPair.FillRestores | core/domain/translator/claude_response_gate.go:139-183 | Null removal loses nothing: filling in nulls for what was omitted gives back the strict answer |
| SchemaPair.Filled | old_rust/crates/gateway-backend-codex/src/schema_gate.rs:89-136 | Every deliverable value has a strict answer that null removal turns back into it |
| SchemaPair.NullableExact | old_rust/crates/gateway-backend-codex/src/schema_gate.rs:146-182 | The nullable form accepts what the schema accepts, and null exactly when the keywords beside the type do |
| SchemaPair.UndeclaredRequiredFails | old_rust/crates/gateway-backend-codex/src/schema_gate.rs:95-135 | The strict form of an undeclared required name does have valid answers: the empty object, as far as the other keywords allow it, and it fails |
| SchemaPair.KeywordBlocksOmission | old_rust/crates/gateway-backend-codex/src/schema_gate.rs:146-182 | A keyword without null keeps an optional property from being omitted through the pair |
| ResponseGate.RemoveNullOptionalFields | core/domain/translator/claude_response_gate.go:139-183 | The in-place deletion computes null removal along the schema |
| ResponseGate.Cleanup | core/domain/translator/claude_response_gate.go:45-61 | Cleaning a text never makes it blank or non-blank |
| ResponseGate.SanitizeCleans | core/domain/translator/claude_response_gate.go:85-116 | A sanitised response has no null field and no blank text block, at any depth |
| ResponseGate.SanitizeFixesClean | core/domain/translator/claude_response_gate.go:85-137 | Sanitising changes a value exactly when it is not clean |
| ResponsePruning.SanitizeExactly | core/domain/translator/claude_response_gate.go:85-137 | Sanitising takes away the null fields of objects and the blank text blocks of content lists, at every depth, and nothing else |
| ResponseGate.FilterBlocks | core/domain/translator/claude_response_gate.go:118-137 | Keeps only blocks that are not blank text |
| ResponseGate.FilterBlocksOne | core/domain/translator/claude_response_gate.go:118-137 | A single block is kept exactly when it is not blank text |
| ResponseGate.FilterBlocksAppend | core/domain/translator/claude_response_gate.go:118-137 | Filtering distributes over concatenation: every kept block stays, in order and number |
| ContextPairs.CollectPairs | core/domain/contextmgmt/manager.go:286-317 | Collecting finds exactly the tool_use blocks with ids in document order, each with exactly the results answering the latest use of their id |
| ContextAccounts.CollectDisjoint | core/domain/contextmgmt/manager.go:286-317 | Blocks of different interactions never overlap |
| ContextAccounts.TwoPassesAgree | core/domain/contextmgmt/manager.go:351-372 | Clearing one interaction after the other, counting just before each is cleared, gives the messages and amounts computed up front |
| ContextAccounts.GateHonoured | core/domain/contextmgmt/manager.go:356-378 | A gated edit that reports anything reports at least its threshold, and reports what was cleared |
| ContextAccounts.CandidateIff | core/domain/contextmgmt/manager.go:340-354 | An interaction is cleared exactly when its tool is not excluded and at least `keep` newer ones are not excluded either |
| ContextFields.ToolEditExactly | core/domain/contextmgmt/manager.go:231-254 | Every block after any tool edit on any history, in the edit's own fields: results are replaced exactly in the interactions whose tool is not listed in exclude_tools and that are not among the newest N such (N the value of a keep object of type tool_uses, else three), inputs exactly there and if asked for, and nothing unless trigger and clear_at_least let the edit through |
| ContextFields.SparedKept | core/domain/contextmgmt/manager.go:335-354 | An interaction whose tool is listed, or that is among the newest N others, keeps its results and its input |
| ContextFields.OthersCleared | core/domain/contextmgmt/manager.go:335-372 | Where the edit is let through all others are cleared |
| ContextFields.ThinkingEditExactly | core/domain/contextmgmt/manager.go:452-494 | Every block after any thinking edit: the thinking of assistant turns with at least N later ones is replaced, and nothing else (N is one without a keep field, the value of a keep object of type thinking_turns; any other keep clears nothing) |
| ContextAccounts.UnreportedExactly | core/domain/contextmgmt/manager.go:356-378 | A tool edit reports nothing exactly when its gate closes or every interaction it picks holds no character |
| ContextAccounts.UnreportedChanges | core/domain/contextmgmt/manager.go:356-402 | An edit that reports nothing changes the content and text of a block only where they held no character as a tool result, an input only where it held none and inputs are cleared, nothing else, and nothing at all if its gate closed |
| ContextLaws.OrderOfEditsIrrelevant | core/domain/contextmgmt/manager.go:34-62 | Edits that do not count tokens: the same set of edits in any order leaves the same messages, hard limits included |
| ContextLaws.PassIdempotent | core/domain/contextmgmt/manager.go:34-62 | A second pass with such edits changes no message, hard limits included |
| ContextLaws.HardLimitsHold | core/domain/contextmgmt/manager.go:256-284 | After any pass, whatever the edits, all three hard limits hold at once |
| ContextLimits.LimitsSpareTheRest | core/domain/contextmgmt/manager.go:256-284 | The hard limits change no block but those over a limit |
| ContextLaws.PassKeepsShape | core/domain/contextmgmt/manager.go:34-62 | No pass changes messages, roles, blocks, types, ids, names, or the pairing of tool calls |
| ContextLaws.PaintTwice | core/domain/contextmgmt/manager.go:381-402 | Clearing twice is clearing the union, in any combination of parts |
| ContextLimits.TokenGatesBreakTheLaws | core/domain/contextmgmt/manager.go:356-360 | With a token gate both laws can fail: a history and two edits, for every encoding in which the placeholder counts as ten tokens or more (it counts as 15) |
| ContextTokens.SingleEditIdempotent | core/domain/contextmgmt/manager.go:34-62 | Any single edit, with token gates and triggers or without, is idempotent on every history |
| ContextTokens.PassIdempotentUnlessGrowing | core/domain/contextmgmt/manager.go:34-62 | A second pass changes no message, for any edits, gates, triggers and limits, if nothing the pass might clear holds fewer characters than what replaces it |
| ContextTokens.OrderIrrelevantWhenSettled | core/domain/contextmgmt/manager.go:34-62 | The same set of edits in any order leaves the same messages, limits included, if nothing they might clear grows and an edit let through at the start still would be when all have been applied |
| ContextGates.GateIdempotentExactly | core/domain/contextmgmt/manager.go:231-284 | For one edit of any kind, gated or triggered by tokens, anywhere among any edits that do not count tokens, with any history, encoding and hard limits: the pass is idempotent exactly unless the edit is not let through at its first turn, would be once all the others and the limits have cleared what they clear, and has something left to clear |
| ContextGates.GateOrderExactly | core/domain/contextmgmt/manager.go:231-284 | Where it stands among the others, in whatever order they are, matters exactly when it is let through at one of the two places only and has something left to clear |
| ContextManager.Manager.Apply | core/domain/contextmgmt/manager.go:34-62 | The loops over edits and limits give the messages and report of the specification; disabled, nothing changes |
| ContextManager.Manager.ApplyToolUseEdit | core/domain/contextmgmt/manager.go:231-254 | One tool edit as specified, trigger included; ContextFields says what it clears in its own fields |
| ContextManager.Manager.ApplyHardLimits | core/domain/contextmgmt/manager.go:256-284 | The three limits in order, as specified |
| ContextManager.Manager.CollectToolInteractions | core/domain/contextmgmt/manager.go:286-317 | The scan loop with its id index gives the collected interactions |
| ContextManager.Manager.ToolTriggerIsActive | core/domain/contextmgmt/manager.go:319-333 | Trigger decision as specified |
| ContextManager.Manager.EstimatedMessageTokens | core/domain/contextmgmt/manager.go:547-569 | Counts every message and block once |
| ContextManager.Manager.ClearToolInteractions | core/domain/contextmgmt/manager.go:335-379 | Count, gate and clear: the sequential loop agrees with the amounts counted before |
| ContextManager.Manager.ClearToolInteraction | core/domain/contextmgmt/manager.go:381-402 | Clears results in order, then the input |
| ContextManager.Manager.ClearOversizedToolResults | core/domain/contextmgmt/manager.go:423-450 | Clears exactly the oversized results |
| ContextManager.Manager.ClearThinkingTurns | core/domain/contextmgmt/manager.go:452-494 | Clears exactly the thinking of the older turns and counts them |
| Turn.OthersLeaveMyLease | core/domain/transport/lease.go:83-168 | No step of another request changes a request's lease or gives it one |
| Turn.OthersKeepValidation | core/domain/transport/lease.go:176-214 | A validation once accepted stays accepted through any steps of other requests |
| Turn.CommitIsGated | core/impl/services/message_service.go:455-656 | In every interleaving a committing main turn holds its lease, which would still validate, and the live chains read at promotion and validation agree |
| TurnCourse.CommitsExactly | core/impl/services/message_service.go:455-656 | In every interleaving, streaming or not: a request reaches its commit exactly when, on its own inputs, preparation, sending and building succeed, its key was free at its first step if it takes the lease, its stream ended with the client there at every look, and with a lease the live chains read at promotion and at validation are the same |
| TurnCourse.CommittingExactly | core/impl/services/message_service.go:606-652 | It is committing exactly when its inputs have just carried it there |
| TurnCourse.ReleasesExactly | core/impl/services/message_service.go:455-666 | It releases with a transition exactly when its inputs say so: completed exactly after the commit, aborted before or after visible output by whether an event had been sent, backend failure for a failed send or build, suppressed for a chain that changed |
| TurnCourse.OwnCourse | core/impl/services/message_service.go:455-666 | What a request does depends only on its own inputs and on whether its key was free at its first step |
| Turn.CommitsNeverOverlap | core/impl/services/message_service.go:606-666 | Main-turn commits on one key never overlap |
| Turn.DoneHoldsNothing | core/impl/services/message_service.go:660-666 | Every exit path leaves the request without any lease |
| Turn.StoredLeasesInFlight | core/domain/transport/lease.go:111-133 | Every stored lease is in flight and belongs to a request that has yet to release it |
| Turn.InvKept | core/impl/services/message_service.go:274-280 | The invariant tying each request's phase to the lease store is kept by every step |
| Turn.KeyTakenBetweenReleases | core/impl/services/message_service.go:660-666 | Another request can take the key between Commit and Release, and Release then leaves its lease alone: a concrete run |
| Lease.LeaseStore.AcquireLease | core/domain/transport/lease.go:83-109 | Acquired exactly when the key is free; otherwise reports the lease in the way |
| Lease.LeaseStore.CommitLease | core/domain/transport/lease.go:111-133 | Ends the owner's lease or changes nothing |
| Lease.LeaseStore.ReleaseLease | core/domain/transport/lease.go:135-142 | Removes the lease only if owned |
| Lease.LeaseStore.PromoteWebSocketChain | core/domain/transport/lease.go:149-168 | Records the chain on the owner's in-flight lease only |
| Lease.LeaseStore.ValidateForCommit | core/domain/transport/lease.go:176-214 | Accepts exactly the owner of an in-flight lease with the same chain, both absent included |
| Chains.CheckpointKeyInjective | core/domain/conversation/identity.go:22-37 | Joined checkpoint keys are equal only for equal identities and response ids, for colon-free identities and any response id |
| Chains.CheckpointKeyInjectiveAnySession | core/domain/conversation/identity.go:22-37 | The same for any session id, colons included, when everything else is colon-free |
| Chains.AmbiguousExactly | core/domain/conversation/identity.go:22-37 | A checkpoint shares its key with some other checkpoint exactly when one of its parts has a colon |
| Chains.KeyInjective | core/domain/conversation/identity.go:22-25 | Joined lease keys are equal only for equal identities, for any session ids, when everything else is colon-free |
| Chains.KeyAmbiguousExactly | core/domain/conversation/identity.go:22-25 | A lease key is shared with another identity exactly when a part of the identity has a colon |
| Chains.ReuseOnlyOwnChain | core/domain/transport/selector.go:81-99 | After any history whose keys can be told apart, reuse is allowed exactly when there is a checkpoint and a live chain and the chain last stored for this identity and response is the live one |
| Chains.ReuseOnlyOwnChainExactly | core/domain/transport/selector.go:81-99 | A checkpoint is reused exactly on its own chain after every history, colons in other identities included, if and only if no part of it has a colon |
| Chains.ColonsConfuse | core/domain/conversation/identity.go:22-37 | For any session, model and pair of branch ids, two identities that can be received, one sending the other's branch and kind inside its effort: another's chain is taken for one's own |
| Chains.LookupMeans | core/domain/transport/chain_registry.go:62-68 | The table holds the most recent chain stored for an identity and response, after any history whose keys can be told apart: the checkpoint colon-free, or all identities, or everything but the sessions |
| Chains.LookupMeansExactly | core/domain/transport/chain_registry.go:62-68 | It does so after every history if and only if no part of the checkpoint has a colon |
| Chains.ChainRegistry.Associate | core/domain/transport/chain_registry.go:41-60 | Extends the history by one association |
| Chains.ChainRegistry.Lookup | core/domain/transport/chain_registry.go:62-68 | Answers from the table of the history, hence with the most recent chain where keys can be told apart |
| WebSocketSession.NextFrameAfterTerminal | old_rust/crates/gateway-backend-codex/src/websocket_transport.rs:482-530 | Frame i+1 is written only after command i was delivered a terminal event |
| WebSocketSession.EventsBetweenFrames | old_rust/crates/gateway-backend-codex/src/websocket_transport.rs:532-586 | Every event handed to command i was the item read just before, after frame i and before frame i+1 |
| WebSocketSession.FramesInOrder | old_rust/crates/gateway-backend-codex/src/websocket_transport.rs:482-530 | Frames go out in the order their commands were queued, with their bodies |
| WebSocketSession.DeadForever | old_rust/crates/gateway-backend-codex/src/websocket_transport.rs:505-529 | Once dead a session never revives and its log never grows |
| WebSocketSession.NoFrameAfterDeath | old_rust/crates/gateway-backend-codex/src/websocket_transport.rs:482-530 | No frame follows the death of a session, which happens once |
| WebSocketSession.RunFollows | old_rust/crates/gateway-backend-codex/src/websocket_transport.rs:482-619 | Every run's log follows the protocol, whatever is read, queued or lost |
| WebSocketSteps.StepExactly | old_rust/crates/gateway-backend-codex/src/websocket_transport.rs:482-619 | What every input makes a living session add to its log, and exactly when it dies, told by the log so far alone |
| WebSocketSteps.NextIsWritten | old_rust/crates/gateway-backend-codex/src/websocket_transport.rs:482-530 | A living session that answers nothing writes the next queued command when it takes it |
| WebSocketSteps.ReadIsDelivered | old_rust/crates/gateway-backend-codex/src/websocket_transport.rs:532-586 | What is read for a command whose consumer listens is delivered to it |
| WebSocketPool.ContinuationSafe | old_rust/crates/gateway-backend-codex/src/websocket_transport.rs:152-256 | For every retry policy and failure schedule a continuation is never sent on a new socket, is queued at most once, and makes at most two attempts |
| WebSocketPool.AttemptsBounded | old_rust/crates/gateway-backend-codex/src/websocket_transport.rs:152-256 | Any request makes at most max_recycles + 1 attempts and leaves other keys' sessions alone |
| WebSocketPool.QueuingsBounded | old_rust/crates/gateway-backend-codex/src/websocket_transport.rs:273-356 | A request is queued at most once per attempt |
| WebSocketPool.LostSessionNotRetried | old_rust/crates/gateway-backend-codex/src/websocket_transport.rs:621-707 | No retry policy makes the lost-session error retryable |
| WebSocketRetries.SendsExactly | old_rust/crates/gateway-backend-codex/src/websocket_transport.rs:152-256 | The attempts are one more than those that fail in a way worth retrying before one does not, within the budget; the reply is that of the last, and a session stays cached exactly if that one was not found lost |
| WebSocketRetries.AttemptsExactly | old_rust/crates/gateway-backend-codex/src/websocket_transport.rs:152-256 | The number of attempts says which one decides, and conversely |
| WebSocketRetries.RecycledExactly | old_rust/crates/gateway-backend-codex/src/websocket_transport.rs:621-707 | An error is retried unless a non-retryable matcher fits, unless it is permanent, then if a retryable matcher fits or it is temporary: statuses 500, 502, 503, and lost connections at five named stages with eight named messages |
| WebSocketRetries.MatchesExactly | old_rust/crates/gateway-backend-codex/src/websocket_transport.rs:715-770 | A matcher fits where every part it names does |
| WebSocketPool.Pool.SendEventStream | old_rust/crates/gateway-backend-codex/src/websocket_transport.rs:152-256 | The retry loop computes the specified reply, sessions, socket actions and attempts, whose exact number WebSocketRetries gives |
| WebSocketPool.Pool.SendAttempt | old_rust/crates/gateway-backend-codex/src/websocket_transport.rs:273-335 | One attempt as specified |
| WebSocketPool.Pool.GetAliveSession | old_rust/crates/gateway-backend-codex/src/websocket_transport.rs:337-356 | A dead session is evicted and not returned |
| StreamWriter.ProducerNeverStuck | core/impl/services/stream_writer.go:89-133 | While the channel is open somebody receives, or a write is under way after which, however it goes, somebody does: an event on offer passes within two steps of the receiving side |
| StreamWriter.ClosedOnce | core/impl/services/message_service.go:545-546 | The channel is closed at most once, exactly when the producer finishes, with no send after |
| StreamWriter.ClientSeesPrefix | core/impl/services/stream_writer.go:89-133 | The client sees the frames of a prefix of the sent events and after them at most one idle error |
| StreamWriter.NothingLost | core/impl/services/stream_writer.go:89-133 | Whenever the writer waits for more, and when it has left because the channel was closed, the client has seen all that was sent |
| StreamWriter.EverythingEnds | core/impl/services/stream_writer.go:89-133 | From every state the producer closes the channel in two steps, and then writer and drain end within three |
| StreamWriter.WrittenIsPrefix | core/impl/services/stream_writer.go:89-128 | The writer alone: frames of the first events received, then at most the idle error |
| StreamWriter.Writer.Run | core/impl/services/stream_writer.go:89-128 | The loop writes exactly that, headers once and first, and leaves a drain unless the channel was closed |
| EventStream.RoundTrip | core/impl/services/message_service.go:1013-1047 | Writing any list of payloads and decoding gives them back exactly when no payload line ends in a carriage return |
| EventStream.DecodeStream | core/impl/services/stream_writer.go:51-58 | In general each payload comes back with one carriage return fewer at the end of each line; a payload of several lines is framed here with one data line per line, and the program writes payloads of one line |
| EventStream.WrittenOnOneLine | core/impl/services/stream_writer.go:51-58 | For a payload of one line the framing is the one data line that the program writes |
| EventStream.DecodeAppend | core/impl/services/message_service.go:1013-1047 | Decoding distributes over concatenation at a blank line |
| EventStream.DecodeSseBody | core/impl/services/message_service.go:1013-1047 | The line loop with its buffer decodes as specified |
| Tags.ApplySubsequence | core/domain/claudecode/envelope.go:156-177 | Stripping only leaves characters out |
| TagSpans.CommandSpanExactly | core/domain/claudecode/envelope.go:229-257 | For every text and table: a command is found exactly where a name tag carries a local-only name, by the first of these, and reaches from the last message tag before it to the first arguments after it |
| TagSpans.OutputSpanExactly | core/domain/claudecode/envelope.go:259-274 | Output is found exactly where an output tag marks a command, and the first of these is covered |
| TagSpans.StripsByCuts | core/domain/claudecode/envelope.go:156-177 | Stripping cuts such commands until none is left, then such output until none is left, reports the command of every cut in order, trims, and leaves everything else |
| TagsExample.CommandReappears | core/domain/claudecode/envelope.go:166-176 | Under the gateway's own table, cutting out command output can leave a local-only command behind: a concrete text |
| TagCuts.StrippingLeavesExactly | core/domain/claudecode/envelope.go:156-177 | For every text and table: a local-only command is left, and stripping again changes the text, exactly when there is output to cut and, at the last cut, a local-only name tag ended before it, or one of the joined text covers it, or the search for tags, once past it, finds one in what follows |
| TagCuts.CutHasCommandExactly | core/domain/claudecode/envelope.go:166-176 | After any one cut of any text there is a command exactly when one of these three holds |
| TagScan.NoOutputNoCommand | core/domain/claudecode/envelope.go:156-177 | Where the first loop leaves no marked output, stripping is idempotent and leaves no command |
| TagCuts.CutLeavesCommandExactly | core/domain/claudecode/envelope.go:166-176 | Any cut of a text without commands leaves one exactly when a local-only name tag of the joined text covers the place of the cut, or the search for tags, once past it, finds one in what follows |
| TagCuts.UntouchedCutLeavesExactly | core/domain/claudecode/envelope.go:166-176 | Where no name tag touches what is cut, exactly when one covers the place |
| TagCuts.CleanCutsExactly | core/domain/claudecode/envelope.go:166-176 | Of many cuts, neither happens at any exactly when no text on the way from the first cut to the last has a command |
| TagCuts.CleanCutsLeaveNoCommand | core/domain/claudecode/envelope.go:166-176 | Where neither happens at any cut, none is left at the end, for any number of cuts |
| TagsExample.CommandLeftUncovered | core/domain/claudecode/envelope.go:166-176 | Output that holds an opening name tag can leave a command that covers no cut, found in what follows it: a concrete text |
| Tags.StripCommands | core/domain/claudecode/envelope.go:158-166 | No local-only command span remains when the first loop ends |
| Tags.StripStdout | core/domain/claudecode/envelope.go:167-175 | No marked output span remains when the second loop ends |
| Tags.FirstBetweenSpelled | core/domain/claudecode/envelope.go:285-300 | The tag found is the first one and spells an opening tag, a value without a closing tag, and a closing tag |
| Tags.Inclusion.ApplyTextInclusionPolicy | core/domain/claudecode/envelope.go:156-177 | Both loops terminate on every text and strip and report as specified |
| Tags.LocalOnlyCommandSpan | core/domain/claudecode/envelope.go:229-257 | The search loop finds the first local-only span, which lies within the text and is not empty |
| Tags.LocalOnlyStdoutSpan | core/domain/claudecode/envelope.go:259-274 | The search loop finds the first marked output span, which lies within the text and is not empty |
| Tags.LastTagMatch | core/domain/claudecode/envelope.go:302-319 | The loop finds the last of the tags that follow one another |
| Tags.Marked | core/domain/claudecode/envelope.go:179-187 | Commands are reported once each |
| Breaker.AttemptsBounded | observability/format.go:117-175 | In a run without a successful write at most 5 + floor((T - t5) / 30s) attempts are made by any time T from the fifth failure on |
| Breaker.AttemptedExactly | observability/format.go:117-175 | After any calls, successful ones among them: the next one touches the disk exactly if fewer than five attempts in a row have failed or thirty seconds have passed since the last was recorded |
| Breaker.FailingRun | observability/format.go:159-167 | In such a run the failures are the attempts, and from the fifth on they are a cooldown apart |
| Breaker.FileExchangeLog.AppendEntry | observability/format.go:117-134 | While the breaker is open no attempt is made; it is open exactly from the fifth failure in a row on |

## Left out

- Block indices: unbounded here; the source counts them in 32 bits and would wrap after 2^32 blocks.
- Token counts: a number is truncated to an unbounded integer; the source's conversion of numbers beyond 64 bits is not modelled.
- The wording of errors, request and message ids, and the JSON rendering of outgoing events.
- Recording tool calls in the database, and the conversation store behind branch selection and commits: opaque.
- The turn handlers and the WebSocket session loop as methods: they are state machines of atomic steps, because what others do between two steps is what the theorems are about. The lease store and the session pool they work on are classes.
- Panics and process crashes: a request always takes one of its written exits.
- Negative hard limits, on which the source slices out of range; limits are natural numbers here.
- Choosing between request edits, default edits and override edits; the model starts from the resolved list.
- The `$ref`, `not`, `if`, `then`, `else` and combinator keywords in the soundness proof, where null removal does not recurse into them; the combinators and definitions are covered by idempotence.
- `patternProperties`, `prefixItems`, `additionalItems` and the `unevaluated` keywords, which change what `additionalProperties` and `items` apply to, and tuple schemas: schemas with them are outside the soundness proof.
- Translating whole requests (messages, tools, tool results, images) beyond tool_use items: accumulation without a round trip.
- The handshake, token refresh and close of a real socket: outcomes of opening and reading are inputs.
- Eviction by the tail of an event stream after its first event, and other requests using the same session key at the same time.
- Message-level inclusion (dropping empty text blocks, marking the active command): repeats the text-level result per block.
- Log rotation and formatting: file-system calls.
- Turn.DoneHoldsNothing: says nothing about whether a request ever ends; a backend stream that never closes keeps its lease.
- StreamWriter.ProducerNeverStuck: states that a receiver is always at hand, not how fast the scheduler runs it.
- SchemaPair.SoundExactly: the keywords beside the structural ones are one arbitrary rule on a value and those keywords; what each of them means is not spelled out, except for minProperties.
