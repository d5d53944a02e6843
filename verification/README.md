# OpenCode enhancer: a verified model of the plugin core

This project models four connected parts of the plugin and proves what they promise, for every input,
every run and every reachable state.

1. **Upstream stream and completion assembler** (`plugin/native_execute.go`).  `EventStream` has the
   line-driven reader as a method with the source's loop, proved equal to a reader that judges one block
   of lines at a time; `EventStreamTheorems` and `EventStreamRoundTrip` prove soundness, the exact
   condition for success, size bounds, and round trips over bytes (`LineScanner` is the buffered scanner
   under it).  `Completion` has `nativeCompletion` as a class and the nested merges as methods that pick
   the keys of Go maps in arbitrary order; `Pointwise` and `CompletionPaths` prove that every path of
   the result is a fold of what was addressed to it; `Reassembly` proves that any cut of any completion
   is rebuilt exactly, nulls between the fragments included, and `OneChunk` that every completion has a
   cut; `EndToEnd` takes any such completion through the bytes of an event stream.  `EventStreamReread`
   has the exact condition for forwarded frames to read again.  `Agreement` ties the streaming and the aggregating branch together.  `Executor` follows
   `executeNative` exit by exit, and `Exits` gives every execution a program counter and proves the exit
   discipline over every interleaving with the registry.
2. **Execution registry** (`plugin/native.go`, `plugin/plugin.go`).  `Registry` is the state machine over
   atomic steps, with an invariant over every interleaving; `Manager` is the Go manager as a class whose
   methods are those steps.
3. **Request-body transformation** (`plugin/fingerprint.go`).  `Shaping` specifies it, `Body` is the
   in-place code with the source's loops, proved against it; `EnvironmentBlock`, `ShapingLists`,
   `GeminiTools`, `ShapingTheorems` and `ShapedBodies` prove the postconditions, what is conserved of the
   client's data, and exactly when a second run changes anything; `InjectedTools`, `WrittenContexts` and
   `StrippedItems` say key by key what is written and what goes, and `ChangedFlag` that the reported flag
   is exact.
4. **Session identity and models.**  `SessionText` finds the text that identifies a conversation and
   `SessionTurns` reads it off conversations as clients write them,
   `SessionShaping` says when it survives the rewriting, `SessionIds` has the id codec and the write-once
   cache, `Sessions` the resolution and the id that goes out, `Models` the alias table.

`Text`, `Json` and `Sequences` are the ground they stand on.

## How the source is read

- A `string` holds one character per byte; `TrimSpace` knows the UTF-8 encodings of all Unicode spaces.
- JSON is a datatype.  Decoding is a parameter: `shape` gives the top-level keys of a payload, `decode`
  the object, `Codec` a whole body.  The reader's and the assembler's decoder may accept different
  payloads, as in the source.  A nil slice that prints as `null` is `Null`.
- The emit callback is a function of the history of calls, which covers every callback.  Time is any
  natural number, SHA-256 any function to 32 bytes, Unicode lower-casing and general case folding of
  header names are parameters; a header lookup can return any header of that name but for case.
- A float index is truncated toward zero into 64 bits; out of range it takes the value that amd64 gives.
- The reader follows sections 9.2.5 and 9.2.6 of the WHATWG HTML Living Standard with departures, among
  them: only LF or CRLF ends a line; a leading byte order mark stays; a `data` line without a colon is no
  data; an event without any data bytes is not dispatched; `event`, `id` and `retry` are kept in the frame
  but not acted upon; an unterminated last event is still dispatched; and `[DONE]` ends the stream.

## What turned out otherwise than one might expect

- Shaping is not idempotent when a stripped item was the only carrier of the environment block, because
  the check runs before the strips.  `ShapingAgain` gives the exact condition, `NotIdempotent` a body,
  and `SettledByTheSecond` shows that the third run never changes anything.
- The text of a Responses conversation can change under shaping: `TextSurvivesShaping` gives the exact
  condition, `TextCanChange` a body.
- A listed model id that itself starts with the credential prefix can resolve to another model when it is
  requested bare: `ListedResolves` gives the exact condition, `BareIdCanMislead` an example.
- Frames forwarded to a translated protocol do not always read again as the same payloads:
  `ForwardedRereadsExactly` gives the exact condition on carriage returns, `CarriageReturnIsLost` a case.
- Two headers whose names differ only in case can give one request two identities, since Go ranges over
  headers in any order: `TwinsCanDiffer`; without such twins `OneOutcome` excludes it.
- An emitted frame can be two bytes larger than 8 MiB, and a payload of k data lines is at least 5k + 2
  bytes shorter than its frame.

## Model

| member | source | states |
|---|---|---|
| EventStream.ReadNativeSse | plugin/native_execute.go:216-277 | The line machine with its frame, data lines and done flag makes the calls and returns the error of the block-at-a-time reader, for every line sequence, callback and scanner failure |
| EventStream.Flush | plugin/native_execute.go:222-245 | One complete event: silent without data, an error for a payload that is no object or has an `error` key, else emitted; `[DONE]` is emitted unparsed and ends the stream |
| EventStream.BlocksPartition | plugin/native_execute.go:246-263 | Frames are consecutive blocks of the input: nothing is lost, repeated or reordered between them |
| EventStream.BlocksClosed | plugin/native_execute.go:246-272 | Only the last block can lack its blank line, and blank lines stand only at ends of blocks |
| EventStreamTheorems.Trace | plugin/native_execute.go:222-276 | Soundness: each emitted event is the frame and data of its own block, in order, up to the first block that stops the reading, and nothing after it |
| EventStreamTheorems.FinishedIff | plugin/native_execute.go:233-276 | No error is returned exactly when `[DONE]` is dispatched behind blocks that are all within the limit, objects or null without `error`, and taken by emit, with no scanner failure before it |
| EventStreamTheorems.DoneComesLast | plugin/native_execute.go:233-259 | Only the last call to emit can carry the end marker, and a read without error made that call |
| EventStreamTheorems.NothingReadAfterDone | plugin/native_execute.go:257-259 | Neither later lines nor a scanner failure behind the terminated end marker change a finished reading |
| EventStreamTheorems.EmittedIsBounded | plugin/native_execute.go:226-250 | Every emitted frame is at most 8 MiB + 2 bytes, and a payload of k data lines is at least 5k + 2 bytes shorter than its frame |
| LineScanner.ScanEncoded | plugin/native_execute.go:217-218 | Lines written with LF or CRLF in any mixture come back as they were, with whatever follows scanned on its own |
| LineScanner.ScanUnterminated | plugin/native_execute.go:217-218 | A last line without a line feed is a line too, with or without a carriage return at its end |
| LineScanner.ScanTooLong | plugin/native_execute.go:217-218 | 8 MiB without a line feed stop the scanner with an error, behind the lines before them |
| LineScanner.OneReturnGoes | plugin/native_execute.go:217-218 | Of several carriage returns in front of a line feed only one goes |
| EventStreamRoundTrip.RoundTrip | plugin/native_execute.go:216-277 | Payloads printed as data lines, with LF or CRLF and any comments, other fields and data-less blocks between, then `[DONE]`, come back as exactly those payloads and the marker, without error, whatever follows, for every callback that takes the events of this stream |
| EventStreamRoundTrip.UnterminatedRoundTrip | plugin/native_execute.go:216-277 | A stream that ends behind its marker, without the blank line or even within the last line: the same payloads and no error, unless the connection failed, and then the payloads before the marker and that error |
| EventStreamRoundTrip.TooLongLineFails | plugin/native_execute.go:217-266 | A line that does not fit ends the read like a failed connection behind the lines before it, whatever follows |
| EventStreamRoundTrip.DataOfSpellings | plugin/native_execute.go:260-262 | `data: x` and, unless x starts with a space, `data:x` carry x; a line that does not start with `data:` carries nothing |
| EventStreamRoundTrip.Reread | plugin/native_execute.go:147-158 | The frames forwarded for a translated protocol, closed with an end marker, read again as the same payloads when no scanned line ends in CR |
| EventStreamReread.ForwardedRereadsExactly | plugin/native_execute.go:147-158 | They do so exactly when no data line of a forwarded block ends in CR and no lone CR stands between its data lines |
| EventStreamReread.RereadExactly | plugin/native_execute.go:216-277 | The same for any blocks that speak: a reading that loses a byte of data or splits it gives other payloads |
| EventStreamReread.CarriageReturnIsLost | plugin/native_execute.go:217-256 | A data line that still ends in CR after the first scan loses it in the second |
| EndToEnd.CompletionComesThrough | plugin/native_execute.go:168-180 | Any completion, cut into chunks in any way and printed as an event stream in any way, is what the assembler holds after reading the bytes |
| Completion.MergeNativeFunction | plugin/native_execute.go:389-399 | Under every order of the keys: arguments are appended, every other field is replaced |
| Completion.MergeNativeTool | plugin/native_execute.go:363-378 | Under every order of the keys: `index` is dropped, `function` merged, the rest replaced |
| Completion.MergeNativeTools | plugin/native_execute.go:347-380 | Each fragment goes to its slot, slots grow as needed, fragments out of 0..1024 are dropped; the slot assertion never fails |
| Completion.MergeNativeDelta | plugin/native_execute.go:328-387 | Under every order of the keys: the message after a delta, and its tool slots stay objects, at most 1025 of them |
| Completion.MergeNativeChoice | plugin/native_execute.go:308-321 | Under every order of the keys: one choice entry merged; the message assertion never fails |
| Completion.MergeNativeChoices | plugin/native_execute.go:302-322 | The loop over the choices of a chunk |
| Completion.NativeCompletion.AddRoot | plugin/native_execute.go:297-301 | Root keys of a chunk replace the old ones, except `choices` and `object`, under every order |
| Completion.NativeCompletion.Add | plugin/native_execute.go:285-324 | The whole new state and the error of one payload: end marker, 64 MiB cap, undecodable payload, merged chunk |
| Completion.SortIndices | plugin/native_execute.go:405-409 | From any order of the map: the keys in the one strictly ascending order |
| Completion.NativeCompletion.Result | plugin/native_execute.go:401-417 | An error without choices, else the root with the choices in ascending order of their keys |
| Completion.AscendingIsStrict | plugin/native_execute.go:405-413 | The order is strictly ascending and lists exactly the keys |
| Completion.StrictIsAscending | plugin/native_execute.go:405-413 | No other strictly ascending sequence lists those keys |
| Pointwise.KeyAlone | plugin/native_execute.go:297-301 | After any sequence of merges a key holds what folding only the values addressed to it gives |
| Pointwise.SameValuesSameObject | plugin/native_execute.go:389-399 | Two sequences of fragments that address the same values to every key merge to the same object, however they interleave |
| CompletionPaths.AcceptedRun | plugin/native_execute.go:285-296 | A run has no error exactly when its bytes stay within 64 MiB and every payload but end markers decodes; then it is the fold of its chunks and counts its bytes |
| CompletionPaths.RunsAreReady | plugin/native_execute.go:309-362 | Whatever payloads arrive: every choice keeps an object as message and at most 1025 object slots, so no unchecked assertion fails on any run |
| CompletionPaths.ChunksSplit | plugin/native_execute.go:297-322 | Root fields and choices do not meet: each is a fold of its own |
| CompletionPaths.ChoiceAlone | plugin/native_execute.go:303-322 | A choice exists exactly when it was addressed, and is the fold of its own entries alone |
| CompletionPaths.MessageIsDeltas | plugin/native_execute.go:319-321 | The message of a choice is the merge of its deltas and of nothing else |
| CompletionPaths.TextIsConcatenated | plugin/native_execute.go:331-337 | `content`, `reasoning_content`, `reasoning` and `refusal`: a field that receives text and nulls is the concatenation of its text fragments in order; nulls alone change nothing |
| CompletionPaths.TextIsReplaced | plugin/native_execute.go:331-337 | A value that is neither text nor null replaces the text before it, and is replaced by the text behind it |
| CompletionPaths.OtherFieldIsLast | plugin/native_execute.go:381-384 | Any other message field is the last value that is not null |
| CompletionPaths.AddressReads | plugin/native_execute.go:308-354 | An entry addresses the choice, and a fragment the slot, by the whole part of its `index`; without a number the first; a slot beyond 1024 or below 0 is none |
| CompletionPaths.ToolsAreParts | plugin/native_execute.go:347-380 | How fragments are spread over `tool_calls` values does not matter |
| CompletionPaths.SlotAlone | plugin/native_execute.go:350-379 | Each tool slot is the merge of only its own fragments, and there are at most 1025 |
| CompletionPaths.SlotExists | plugin/native_execute.go:355-361 | A slot exists exactly when it or a higher one was addressed |
| CompletionPaths.ArgumentsAreConcatenated | plugin/native_execute.go:391-394 | Arguments are the concatenation of their fragments in order |
| Reassembly.CallIsMerged | plugin/native_execute.go:338-346 | Function-call fragments merge, and a value that is no object, such as null, changes nothing |
| Reassembly.NullsAreIgnored | plugin/native_execute.go:332-346 | A null anywhere among the fragments of a text field or function call makes no difference to what they are a cut of |
| Reassembly.Rebuilt | plugin/native_execute.go:285-417 | Any completion, cut into chunks in any way and interleaved over choices, fields and slots, with nulls wherever the code ignores them, within the cap, is rebuilt exactly, choices ascending |
| OneChunk.WholeIsCut | plugin/native_execute.go:285-324 | Every completion without nulls and with choices under their own indices has a cut, so reassembly leaves none out |
| Agreement.Stream | plugin/native_execute.go:145-164 | The host's view of a stream: the chunks of the read, then the close |
| Agreement.HostSeesOneClose | plugin/native_execute.go:147-163 | Emits and then exactly one close, with an error detail exactly when the reader failed; the end marker is never forwarded; each emit is its event's payload for the five names of the chat format, else its frame |
| Agreement.RefusalEndsTheStream | plugin/native_execute.go:147-158 | The host takes every chunk but perhaps the last, and the read fails with the callback's error exactly when the last was refused |
| Agreement.Aggregate | plugin/native_execute.go:168-180 | The non-streaming branch returns the completion of what it read, or an error when reading failed, a payload was refused or there is no choice |
| Agreement.SameStream | plugin/native_execute.go:147-171 | The aggregating read ends well exactly when the streaming one does and everything read adds up, and then both made the same calls |
| Agreement.BranchesAgree | plugin/native_execute.go:140-180 | For chat clients the chunks the host was given fold to the completion that the non-streaming branch returns, and one exists exactly when the other does |
| Agreement.TranslatedAgrees | plugin/native_execute.go:147-158 | For translated protocols, re-reading the forwarded frames gives the same completion |
| Executor.UpstreamBodyIsAddressed | plugin/native_execute.go:44-63 | Whatever the client sent, the shaped upstream body names the selected model, streams, asks for usage, and identifies the same conversation; its other stream options and every key that neither sets are the client's |
| Executor.RunCleanup | plugin/native.go:292-299 | The closure cancels and then deletes, as two actions and two steps of the registry |
| Executor.RunFinish | plugin/native_execute.go:125 | Closes the body, then the connections, and cleans up |
| Executor.Respond | plugin/native_execute.go:126-180 | The four ways out with a response, each through its own call of `finish`; what the host is called with, and what is answered |
| Executor.Execute | plugin/native_execute.go:106-180 | Every way out with its own cleanup where the source has it: the trace is disciplined and is that of a way through the code, the body is closed when there is one and the connections when there is a client, the host sees exactly the read of a stream, and the reply is started, completed or refused exactly as the response allows |
| Exits.EveryWayOutIsDisciplined | plugin/native_execute.go:106-180 | On every way through the code, whatever is decided outside: cancelled and deleted exactly once, in this order, body and connections closed at most once, no host call behind any of it, and one close as the last host call when there is any |
| Exits.ThereIsAWayOut | plugin/native_execute.go:106-180 | From every place of the code a way leads to its return |
| Exits.EffectIsEnabled | plugin/native.go:292-299 | In every state of an interleaving, an execution about to cancel or delete finds its own cleanup not yet begun or half done by itself |
| Exits.SoundRuns | plugin/native.go:249-300 | Over every interleaving of any number of executions with `request.complete` and cancel-all, each execution's place in the code agrees with the registry and its trace fits that place |
| Exits.ReturnedLeaveNothing | plugin/native_execute.go:106-180 | When all executions have returned, in any interleaving and by any exits, the table is empty, all are cancelled, and every trace is disciplined: no cleanup is assumed to have run |
| Exits.WorkingIsRegistered | plugin/native.go:283-300 | At every moment of any interleaving an execution is in the table or has been cancelled |
| Exits.RunsAreRegistryRuns | plugin/native.go:249-300 | What the registry sees of any interleaving is one of its runs, so that all its theorems hold for it |
| Registry.InvariantKept | plugin/native.go:249-300 | Every atomic step of every thread keeps the invariant |
| Registry.InvariantOfRuns | plugin/native.go:249-300 | In every state that any interleaving reaches, an execution once registered is in the table or cancelled, and one that is both is between its cleanup's two steps |
| Registry.OneLivePerId | plugin/native.go:283-291 | At most one execution per id is live |
| Registry.StepFrame | plugin/native.go:249-300 | A step cancels exactly whom it may; a cleanup of another execution leaves a registration and its liveness alone |
| Registry.LiveUntilEnded | plugin/native.go:283-300 | A registered live execution stays so through any run without a step of its own id, its own cleanup or a cancel-all |
| Registry.CancelledForGood | plugin/native.go:276-300 | Cancelling is never undone |
| Registry.FinishedExecutionsLeaveNothing | plugin/native.go:292-299 | When every registered execution's cleanup has run, in any interleaving, the table is empty and nothing is live |
| Manager.Manager.constructor | plugin/plugin.go:66-71 | The initial state |
| Manager.Manager.CancelNativeRequests | plugin/native.go:276-281 | The loop over the table, in any order, is the cancel-all step |
| Manager.Manager.NativeContext | plugin/native.go:283-291 | Registration cancels and replaces what runs under the id |
| Manager.Manager.CleanupCancels | plugin/native.go:293 | The half of the cleanup outside the lock |
| Manager.Manager.CleanupDeletes | plugin/native.go:294-298 | The half under the lock removes only its own execution |
| Manager.Manager.RequestComplete | plugin/native.go:249-260 | Cancels and removes what runs under the id |
| Manager.Manager.Shutdown | plugin/plugin.go:66-74 | Cancels everything, and resets configuration, warnings and session ids |
| Manager.Manager.HandleLifecycle | plugin/plugin.go:81-102 | A rejected configuration changes nothing; an accepted one cancels everything and keeps the session ids |
| Manager.Manager.ShapeSessionId | plugin/fingerprint.go:234-245 | For the digest of `ses_` and the identity: the cached id, or a new one that is cached; always of the official shape |
| Manager.Manager.WarnGlueRequirement | plugin/fingerprint.go:174-189 | Unless switched off, warns exactly on the first request of a credential since the last reset |
| Body.Body.EnsureEnvironment | plugin/fingerprint.go:340-415 | The in-place change and the flag, for the four protocols |
| Body.Body.EnsureTools | plugin/fingerprint.go:537-559 | The in-place change: missing tools appended, each name once |
| Body.Body.EnsureGeminiTools | plugin/fingerprint.go:489-533 | The in-place change: missing declarations join the first group, or a new one |
| Body.Body.NormalizeMaxOutputTokens | plugin/fingerprint.go:581-599 | The in-place change of the token caps |
| Body.Body.StripReasoningItems | plugin/fingerprint.go:604-634 | The in-place change of the input |
| Body.Body.StripAdditionalTools | plugin/fingerprint.go:650-692 | The in-place change of input and tools |
| Body.Body.Apply | plugin/fingerprint.go:281-336 | The whole rewriting, step by step in place, gives the specified body and flag |
| Shaping.FingerprintToolsAreNames | plugin/fingerprint.go:110-121 | Whatever is configured, there are names to inject, and they are trimmed: the configured ones that are not blank, or else the five defaults |
| EnvironmentBlock.EnvironmentOutcome | plugin/fingerprint.go:340-453 | The environment goes in exactly when it is absent and the context can take it; afterwards it is there exactly when it was or could be; one key differs and only grows |
| EnvironmentBlock.MessageListOutcome | plugin/fingerprint.go:387-412 | The environment goes into the first system message or a new one in front; all other messages are equal |
| ShapedBodies.EnvironmentIsThere | plugin/fingerprint.go:281-327 | A shaped body has the environment unless its context is of an unsupported type or its only carrier was stripped |
| ShapedBodies.ShapedMeetsTheGates | plugin/fingerprint.go:281-327 | Every body leaves with every configured tool declared, streaming when forced except in Gemini, and on Responses with `store` false, no chat-style caps, and nothing that the strips take |
| InjectedTools.InjectedAreWritten | plugin/fingerprint.go:455-559 | Every configured tool that the client did not declare is there key by key: `function` nested for Chat, flat for Responses, `input_schema` for Claude, in a `functionDeclarations` group for Gemini |
| InjectedTools.DeclaredIsLeftAlone | plugin/fingerprint.go:537-559 | A name that the client declares itself, top-level or under `function`, is not added again |
| WrittenContexts.TextContextIsWritten | plugin/fingerprint.go:341-366 | What `instructions` and Claude's `system` hold afterwards: the client's text, a blank line and the environment, or the client's blocks and a text block |
| WrittenContexts.PartsAreWritten | plugin/fingerprint.go:367-386 | Gemini's system instruction keeps the name the client used, and its parts get one more |
| WrittenContexts.MessagesAreWritten | plugin/fingerprint.go:387-412 | The first system or developer message takes the environment, or a new system message in front |
| WrittenContexts.MessagePresenceReads | plugin/fingerprint.go:424-433 | Only system and developer messages count |
| StrippedItems.NoneOfTheTypes | plugin/fingerprint.go:601-699 | With the strips on no `reasoning` item and no encrypted key is left, and for `codex` and `openai-response` no `additional_tools` item |
| StrippedItems.ItemsByType | plugin/fingerprint.go:604-692 | Messages, function calls, their outputs and untyped items stay, less the encrypted keys; on other wires `additional_tools` stays too |
| StrippedItems.NestedAreDeclared | plugin/fingerprint.go:650-692 | A function nested in such an item is declared at the top level |
| StrippedItems.OnlyFunctionsArePromoted | plugin/fingerprint.go:663-668 | Nothing but a named function is |
| ShapedBodies.ShapingAgain | plugin/fingerprint.go:272-337 | A second run reports a change exactly when the first stripped the only carrier of the environment and the instructions can take it |
| ShapedBodies.SettledByTheSecond | plugin/fingerprint.go:272-337 | The third run never changes anything |
| ShapedBodies.NotIdempotent | plugin/fingerprint.go:282-307 | A body that the second run changes |
| ShapedBodies.BytesSettle | plugin/fingerprint.go:272-337 | The same over bytes: its own output comes back byte for byte |
| ChangedFlag.FlagIsExact | plugin/fingerprint.go:270-337 | The flag is set exactly when the body comes out different: no edit is lost and none is made up |
| ChangedFlag.BytesAreThoseOfTheBody | plugin/fingerprint.go:272-337 | What comes back for an object is its shaped form printed, or the very bytes that came in where that is equal |
| ShapedBodies.PassesThrough | plugin/fingerprint.go:272-279 | What is empty, no JSON or no object comes back as it is |
| ShapedBodies.ToolsAreConserved | plugin/fingerprint.go:537-559 | Client tools stay a prefix; promoted then injected tools follow in order, under names new to the client's and to each other |
| ShapedBodies.PromotedAreNested | plugin/fingerprint.go:657-668 | Promoted are exactly the named function declarations nested in `additional_tools` items |
| ShapedBodies.GroupsAreConserved | plugin/fingerprint.go:489-533 | Gemini groups and other tools are kept; new declarations join the first group under new names |
| ShapedBodies.InputIsConserved | plugin/fingerprint.go:579-692 | Kept input is an in-order subsequence losing only the two encrypted keys; only items a strip names go; caps move |
| ShapedBodies.TheRestIsConserved | plugin/fingerprint.go:281-333 | Per protocol, exactly which keys may differ: the context key only when the environment is missing and can be taken, `stream` only when forced, the tools, and on Responses what upstream asks for; system text, blocks or parts only grow at their end and all other messages are equal |
| ShapedBodies.CapsStayOutsideResponses | plugin/fingerprint.go:294-327 | Chat, Claude and Gemini bodies keep their token caps and `store` |
| SessionText.AppendContentParts | plugin/session.go:215-247 | The text of a content value, part by part |
| SessionText.CollectMessageTurns | plugin/session.go:155-182 | The loop finds the leading user run of the messages |
| SessionText.CollectResponsesTurns | plugin/session.go:184-212 | The loop finds the leading user run of the input |
| SessionText.FirstUserContent | plugin/session.go:113-147 | The search by format, or by every shape in turn |
| SessionTurns.MessageReads | plugin/session.go:161-178 | A message is a user turn exactly when its role is `user`; system and developer messages are passed over, any other ends the strict search |
| SessionTurns.ItemReads | plugin/session.go:193-209 | An item is one exactly when its role is `user` and its type `message`, empty or no text |
| SessionTurns.TextOfConversation | plugin/session.go:109-212 | System and developer elements, then what the user says in any of three spellings, then an answer and anything: the text is what the user says, in every format that reads it |
| SessionTurns.TextBehindAnAnswer | plugin/session.go:149-181 | An answer in front leaves OpenAI messages without a text, and is passed over in Claude messages and in an input |
| SessionText.RunOfSum | plugin/session.go:161-181 | The run of a longer list: the first part's, and what follows only while the search goes on |
| SessionText.GrowingConversation | plugin/session.go:109-182 | Once the user run has started, any suffix whose first object is no user turn leaves the text unchanged |
| SessionText.GrowingResponses | plugin/session.go:128-212 | The same for a Responses input, in every format that reads it |
| SessionText.GrowthKeepsText | plugin/session.go:109-212 | Growth of messages or of an input keeps the text, in every format |
| SessionText.PreambleDoesNotCount | plugin/session.go:149-181 | Inserting, editing or dropping system and developer messages before the first user turn of the messages leaves the text unchanged, in any format and whatever else stands before it |
| SessionText.NoUserBefore | plugin/session.go:161-181 | What stands before the first user turn is passed over, or ends the search without a run |
| SessionText.PreambleItemsDoNotCount | plugin/session.go:184-212 | The same for system and developer items, and all that are no user turns, before the first user turn of an input, in every format that reads it |
| SessionText.PreambleItemIsPassed | plugin/session.go:197-203 | System and developer items are such items |
| SessionShaping.MessagesReadTheSame | plugin/session.go:155-182 | The user run in the messages is the same before and after shaping |
| SessionShaping.StrippedRun | plugin/session.go:192-209 | Stripping keeps the leading run of an input and appends what it exposes |
| SessionShaping.TextSurvivesShaping | plugin/session.go:113-212 | The text survives shaping for every OpenAI and Claude body, and for the others exactly when no user text stands behind the run with only stripped items between |
| SessionShaping.TextCanChange | plugin/session.go:184-212 | A body whose text changes |
| SessionIds.TimeHexFrom | plugin/fingerprint.go:223-230 | Twelve digits of the low 48 bits, high end first |
| SessionIds.BigEndianValue | plugin/fingerprint.go:223-230 | Those digits denote the value modulo 2^48 |
| SessionIds.Base62From | plugin/fingerprint.go:212-219 | One alphabet digit per byte |
| SessionIds.NewIdHasShape | plugin/fingerprint.go:203-245 | Every new id has the `ses_` shape, for any identity and time |
| SessionIds.SessionIdReads | plugin/fingerprint.go:201-209 | The official shape, byte by byte, and nothing else has it |
| SessionIds.FirstSeenRecovered | plugin/fingerprint.go:241-242 | The twelve digits give back the first-seen milliseconds modulo 2^36 |
| SessionIds.LaterSortsFirst | plugin/fingerprint.go:232-245 | Within one epoch of 2^36 ms a later first-seen time has a lexicographically smaller field |
| SessionIds.Base62Order | plugin/fingerprint.go:212-219 | Bytes of different residues modulo 62 get different digits, in the order of the alphabet |
| SessionIds.SameId | plugin/fingerprint.go:234-245 | Two ids are equal exactly when their times agree modulo 2^36 ms and the first 14 bytes of their digests modulo 62 |
| SessionIds.CacheGrows | plugin/fingerprint.go:234-245 | Without a shutdown the cache only grows, across any shaping and reconfiguring |
| SessionIds.StickyId | plugin/fingerprint.go:234-245 | One identity keeps its id until the next shutdown |
| SessionIds.ShapedByDigest | plugin/fingerprint.go:234-245 | An identity gets the id of the digest of `ses_` and itself: the cached one, or a new one that is cached |
| SessionIds.KeptApart | plugin/fingerprint.go:234-245 | Two identities of different digests: shaping one, over any run without shutdown, neither reads nor changes what the other gets |
| Sessions.HeaderValue | plugin/target.go:106-118 | A lookup gives the trimmed value of any header of that name but for case that is not blank, and nothing only when there is none, in whatever order |
| Sessions.ResolveSessionId | plugin/session.go:30-73 | The resolution by precedence, with the loop over the configured headers, for whatever its lookups give |
| Sessions.LooksByName | plugin/session.go:34-54 | Where the lookups look: the configured native header, `X-Opencode-Session-Id`, and each configured source header |
| Sessions.NativeWins | plugin/session.go:34-43 | The native header first, then `X-Opencode-Session-Id`, before all else |
| Sessions.FirstSourceWins | plugin/session.go:46-55 | Then the first configured header that is not the native one and holds a session, before the host's id |
| Sessions.WithoutHeaders | plugin/session.go:57-72 | Then the host's id, then the digest of the conversation's text unless that is switched off, then nothing |
| Sessions.OneOutcome | plugin/target.go:106-118 | Without headers that differ only in case every lookup has one outcome |
| Sessions.TwinsCanDiffer | plugin/target.go:106-118 | With such headers one request can resolve to two identities |
| Sessions.ResolvedIsSendable | plugin/session.go:34-107 | Values from headers and the host are trimmed, at most 512 bytes, and free of CR, LF and NUL; every resolution is stable |
| Sessions.OutgoingHasShape | plugin/plugin.go:164-168 | On the fingerprint path the id always has the official shape |
| Sessions.IssuedIdComesBack | plugin/session.go:34-43 | An issued id fed back as either native header, the second when the first holds nothing sendable, is forwarded verbatim |
| Sessions.ConversationKeepsItsId | plugin/plugin.go:150-173 | A growing conversation goes out under one id from its first request to the next shutdown, as long as the header lookups of its requests agree |
| Sessions.ShapedRequests | plugin/session.go:64-70 | In every format: a request whose body comes back shaped resolves alike exactly when no text is exposed where the input is read, or headers, host or settings leave the body out, or the two texts have one digest |
| SessionShaping.TextOnlyGrows | plugin/session.go:113-212 | Shaping never takes text away |
| Sessions.InterceptSession | plugin/plugin.go:150-184 | The session headers: on the fingerprint path one shaped id in all affinity headers and the configured one, outside it a derived session in the configured header alone, and a sendable native one never overridden |
| Models.Auth.CheckModels | plugin/native.go:90-110 | Trims in place; accepts exactly when every model is acceptable and no two share an id under two names; else the first refused model and why |
| Models.Auth.CheckHeaders | plugin/native.go:111-119 | In any order: own request ids go, and one invalid header refuses the credential |
| Models.OwnHeaderReads | plugin/native.go:112 | The own header is `X-Opencode-Request` in any case of its letters, and no other ASCII name |
| Models.LastSegmentReads | plugin/target.go:88-94 | What stands behind the last slash counts, in lower case and trimmed, whatever stands before it |
| Models.AcceptableNames | plugin/native.go:95-98 | By the name itself: a model is acceptable exactly when it is not empty, breaks no line, and its last segment neither starts with `muse-` nor is that of a model listed as paid |
| Models.ModelsForAuth | plugin/native.go:231-242 | The published list |
| Models.ListingIsExact | plugin/native.go:231-242 | Every name and alias is listed once, with the name it stands for, and nothing else |
| Models.ResolveModel | plugin/native_execute.go:30-40 | First match gives the one name published for the id, and none exactly when the id is not listed |
| Models.QualifierReads | plugin/native_execute.go:31-34 | A credential prefix counts without the slashes around it and with one behind it |
| Models.ListedResolves | plugin/native_execute.go:30-40 | Any listed id with the prefix resolves to its name; bare exactly when it does not start with the prefix or what follows is listed for the same name |
| Models.BareIdCanMislead | plugin/native_execute.go:31-37 | A bare listed id that resolves to another model |
| Models.OrderDoesNotMatter | plugin/native.go:90-110 | Acceptance and resolution do not depend on the order of the models |

## Left out

- TLS profile, dialing, proxies and the HTTP client; the upstream is a parameter that says how far a request gets.
- The header assembly of `executeNative`, header and URL validation, redaction, `Retry-After`: easy members.
- Decoding and encoding of JSON and YAML text, float precision, key order of printed maps: parameters and an assumed inverse pair.
- Configuration defaults, target matching, User-Agent classification, project hashing, tool schemas: single-branch facts.
- Fresh request ids and the text of log lines and errors.
- Subtrees of decoded payloads that Go shares between maps: objects are values here, so aliasing is not modelled; no modelled code writes through a shared subtree.
- The general `strings.EqualFold`: `Text.EqualFold` compares with lower-case ASCII words, which is all the body rewriting needs.
- Executor.Execute: runs the goroutine of a stream to its end inside the call; its interleavings with other requests are those of `Exits`, which the way it takes is a path of.
- Sessions.InterceptSession: gives the session headers; project, client and tracing headers of the fingerprint are not modelled.
- Reassembly.Rebuilt: a completion's text fields are text; a text field that receives other values follows `CompletionPaths.TextIsReplaced` instead.
- ShapedBodies.ToolsAreConserved: speaks of client tools that are a list or absent; any other `tools` value is replaced when a tool is added, as in the source.
