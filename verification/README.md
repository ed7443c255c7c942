# Rogator in Dafny

Rogator is a gateway between chat clients and several upstream model
providers. This project models the parts of it that carry the most state and
proves what they promise:

- **The Anthropic stream** turns any sequence of upstream events, and any
  answers of an incremental tool-call parser, into numbered content blocks.
- **The OpenAI stream** turns the same input into chunks with indexed tool
  calls.
- **The Zen Responses stream** turns network chunks into numbered events about
  output items, and a final response that lists them.
- **The scheduler** admits requests to a bounded queue and a bounded number of
  slots, under cancellation, changing limits and shutdown.
- **The session pool** leases accounts to requests, chooses the least loaded,
  switches accounts, and refills itself.
- **Retries** start a failed stream again, shrink the prompt limit when a prompt
  is too long, and split prompts without loss.
- **Configuration layers** are laid over each other as trees.
- **The model registry** is read from and written to a file, listed, and
  resolved.

`dafny verify dfyconfig.toml` checks everything.

## How it is built

Each stream comes in three parts. A specification (`AnthropicSpec`,
`OpenAISpec`, `Responses`) says what the handler does on a connection that never
fails, as functions from state to state. A class (`AnthropicStream`,
`OpenAIStream`, `ResponsesStream`) has the handler's fields and its methods, in
which any write may fail; each method is proved to follow its function while the
connection holds, and to leave a beginning of that function's wire once it does
not. Theorems about the functions then hold for what a client receives.

| file | content |
|---|---|
| Common, PyText, Lines | shared vocabulary, string helpers, cutting input into lines |
| ToolParser | the tool-call parser as the handlers see it: every answer it may give is arbitrary data |
| AnthropicWire, AnthropicSpec, AnthropicShape, AnthropicContent, AnthropicCalls, AnthropicTalk, AnthropicNative, AnthropicFaults, AnthropicStream | wire grammar, specification, when a trace is well formed, what text and JSON it carries, what each step lets a client hear, which tool calls a client ends up with, native calls among them, inputs on which calls go wrong, the handler |
| OpenAISpec, OpenAITheorems, OpenAIMixed, OpenAIStream | specification, indices, calls and text, indices beside native calls, the handler |
| Responses, ResponsesNames, ResponsesContent, ResponsesStream | specification with its theorems, announced and final ids and names, what is reported in terms of the upstream's lines, the handler |
| Scheduler | counters, their class, and all interleavings of any number of requests |
| SessionPool, SessionSwitch | leases, choice and targets as values; the pool as a class |
| SendLimit, Retry | limits, splitting, attempts |
| Overlay, Registry | configuration layers, model registry |

## Where the code does not keep a promise

These are properties one would expect that fail, each with the exact condition
under which they hold or a family of inputs on which they fail.

- Text after a native tool call is written over the open block
  (`AnthropicShape.TextAfterNativeCallBreaks`), and a native call over an open
  streamed tool leaves that tool behind
  (`AnthropicShape.NativeOverStreamedToolBreaks`); `AnthropicShape.RunIsWellFormed`
  says exactly which runs are well formed.
- Native calls to an Anthropic client are dropped if the message has not been
  announced, as when the upstream reports neither prompt nor usage
  (`AnthropicNative.UnannouncedCallsVanish`). Their arguments are lost when
  thinking comes between (`AnthropicNative.ThinkingLosesArguments`), and arrive in
  the wrong call when two are interleaved
  (`AnthropicNative.ArgumentsGoToLatestCall`), because the handler does not look
  at the index of a delta. `AnthropicNative.NativeCallsArrive` says exactly when
  every native call arrives whole.
- An Anthropic client can get a tool call twice, because a call that is ended by
  text, thinking or another call is not counted as sent
  (`AnthropicFaults.SaidTwice`), or not at all, because ready calls announced
  behind a streamed one are counted although only that one was said
  (`AnthropicFaults.SecondReadyCallIsLost`); `AnthropicTalk.EachCallArrivesOnce`
  and `AnthropicTalk.ClientHearsTheFinalList` say exactly when.
- An OpenAI client loses ready calls in the same way
  (`OpenAITheorems.SkippedCallIsLost`), and calls of the final list that stand
  where native ones were counted; `OpenAITheorems.ClientHearsTheFinalList` says
  exactly when.
- At the end of an Anthropic stream ready calls are asked for twice; the open
  call can then stay cut off for good (`AnthropicFaults.CutOffForGood`,
  `AnthropicTalk.OpenCallInTheEnd`).
- When the parser goes on to another tool while deltas are queued, the queue is
  drained into the old tool (`AnthropicContent.NewToolGetsItsJson`,
  `AnthropicFaults.QueueGoesToOldCall`). The OpenAI handler does not do this
  (`OpenAITheorems.ClientHears`).
- An Anthropic or OpenAI stream can deny tool calls in its last event although
  the client has heard some (`AnthropicTalk.StopReason`,
  `AnthropicFaults.OnlyCallDenied`, `OpenAITheorems.FinishReason`,
  `OpenAITheorems.OnlyCallDenied`).
- Streamed and native OpenAI tool calls share indices when they are mixed;
  `OpenAIMixed.IndicesUnshared` says exactly when they do not.
- The id and the name of a Responses call can change after its announcement
  (`ResponsesNames.AnnouncementIsFinal`, `ResponsesNames.SecondDeltaRenames`).
- Raising a concurrency limit without waking the sleepers strands them
  (`Scheduler.LimitChangeOverlooks`, `Scheduler.RaisedLimitNeedsWakeup`).
- The index of the current session can mean another account after expired
  sessions have left; `SessionPool.CurrentStays` says exactly when.
- A limit of zero or less makes a split exceed it
  (`SendLimit.SplitIsLossless`, `SendLimit.ZeroLimitSendsAll`), and the filter
  for accounts under the soft cap never changes the choice
  (`SessionPool.CapIsLeastLoaded`).
- Configuration layers do not associate when a setting stands between two tables
  (`Overlay.OverlayAssociates`, `Overlay.SettingBetweenTables`), and a listed
  model whose name is taken twice may not resolve (`Registry.ResolvedIsListed`,
  `Registry.SecondEntryHidesModel`).

## Model

| member | source | states |
|---|---|---|
| Common.Chunks | src/handlers/shared/fncall_inject.py:105-110 | The pieces of a text glue together to it; each is non-empty and at most 20 characters, all but the last exactly 20; an empty text has none |
| Common.GrownCompletes | src/handlers/shared/fncall_inject.py:184-188 | What was used plus the new part is the whole buffer if and only if the buffer extends what was used |
| ToolParser.Consume | src/handlers/shared/fncall_inject.py:113-122 | Empty deltas are skipped, no other is lost or reordered, and the queue is drained when nothing is left |
| AnthropicWire.EndedIsGrammar | src/handlers/anthropic/events.py:64-96 | The automaton used for the proofs accepts exactly the traces `message_start (start(i) delta(i)* stop(i))* message_delta message_stop` with i = 0, 1, 2, ... without gap or overlap |
| AnthropicWire.PrefixUnbroken | src/handlers/anthropic/events.py:113-125 | A trace cut off by a lost connection is never malformed if the whole trace was not |
| AnthropicSpec.AnswerStep | src/handlers/anthropic/stream_content.py:187-226 | One answer event adds to the wire exactly the new part of the parser's text and thinking, whatever happens to tool blocks meanwhile |
| AnthropicSpec.Complete | src/handlers/anthropic/stream_core.py:229-264 | The end of the stream adds exactly the rest of the final text and of the thinking, whatever tool blocks it closes or sends |
| AnthropicShape.RunIsWellFormed | src/handlers/anthropic/stream_core.py:229-264 | For every upstream sequence, parser and ending: a completed request is a complete well-formed message if and only if no event and not the end clashes with the open block; otherwise it is malformed |
| AnthropicShape.CleanRunIsMessage | src/handlers/anthropic/handler.py:49-62 | The same in terms of the grammar: a run is clean if and only if its wire is some list of numbered blocks between start and finish |
| AnthropicShape.DispatchShape | src/handlers/shared/stream_loop.py:28-126 | One upstream event keeps the block state in agreement with the wire, except when the event clashes, and then the wire is malformed |
| AnthropicShape.FailedRunIsWellFormed | src/handlers/anthropic/stream_core.py:267-293 | A request cut off by an upstream error ends in an error event after a well-formed beginning if and only if no event clashed before |
| AnthropicShape.TraceIsWellFormed | src/handlers/anthropic/handler.py:89-122 | However a request ends, what it writes is malformed if and only if something clashes; otherwise a finished one is complete and a failed one ends in its error |
| AnthropicShape.AnnouncedWhen | src/handlers/shared/stream_loop.py:58-92 | A prompt, thinking, an answer, or anything that carries usage announces the message, and nothing else |
| AnthropicShape.EntmlRunsAreClean | src/handlers/anthropic/stream_tools.py:261-337 | Without native tool calls every request is well formed, for every parser, if a parser that was never fed says nothing |
| AnthropicShape.TextAfterNativeCallBreaks | src/handlers/anthropic/stream_content.py:77-99 | Only an open thinking block is closed for text: any text after any native tool call is malformed, whatever follows |
| AnthropicShape.NativeOverStreamedToolBreaks | src/handlers/anthropic/stream_content.py:239-257 | For any streamed call, native call over it and further delta: the trace is malformed, whatever follows |
| AnthropicShape.FinishShape | src/handlers/anthropic/stream_tools.py:162-187 | Flushing the open tool closes its block, and breaks the stream if a native call has taken its place |
| AnthropicShape.PostStreamShape | src/handlers/anthropic/handler.py:49-62 | Closing what is open, sending the rest and finishing makes every coherent stream complete |
| AnthropicContent.TextKeepsUp | src/handlers/anthropic/stream_content.py:123-142 | After every answer the client has exactly the parser's text, if and only if the parser's text only ever extends |
| AnthropicContent.TextIsConserved | src/handlers/anthropic/stream_core.py:125-142 | If the text only extends, a completed request carries exactly the parser's text when it has calls or no final text is given, else the final text, if and only if that extends the last one; nothing is lost or repeated |
| AnthropicContent.ThinkingIsConserved | src/handlers/anthropic/stream_content.py:48-74 | The thinking on the wire is what upstream events and the parser's answers brought, in the order in which it happened |
| AnthropicContent.ThinkingAloneGetsText | src/handlers/anthropic/stream_core.py:125-142 | If nothing follows some thinking, the client still gets a text block with one empty text, whatever came before |
| AnthropicContent.PiecesBody | src/handlers/anthropic/stream_tools.py:34-52 | JSON goes to its own block only, in pieces of at most 20 characters that glue together to it |
| AnthropicContent.EventsFaithful | src/handlers/anthropic/stream_tools.py:261-307 | In every reachable state the JSON buffered for the open tool is what its block carries on the wire |
| AnthropicContent.CompletionAgrees | src/handlers/anthropic/stream_tools.py:82-134 | After a flush the block carries the expected arguments, as text or as equal JSON, if and only if what had been streamed was a beginning of them or already agreed; nothing streamed is taken back |
| AnthropicContent.DrainBody | src/handlers/anthropic/stream_tools.py:55-66 | Draining the queue adds exactly all its JSON to the tool's block and nothing to any other |
| AnthropicContent.CompletedBody | src/handlers/anthropic/stream_tools.py:162-187 | Completing a tool adds to its block only, and the buffer stays what the block carries |
| AnthropicContent.FlushBody | src/handlers/anthropic/stream_tools.py:149-159 | Stopping the block adds nothing to any block |
| AnthropicContent.OneNameOneBlock | src/handlers/anthropic/stream_tools.py:310-337 | As long as the parser keeps to one name, its deltas are glued together in that tool's block |
| AnthropicContent.NameChangeDrainsQueue | src/handlers/anthropic/stream_tools.py:261-307 | When a delta brings a new name, everything queued behind it is sent to the old tool; the new block gets the first delta only |
| AnthropicContent.NewToolGetsItsJson | src/handlers/anthropic/stream_tools.py:162-187 | So a new tool gets all JSON queued under its name if and only if nothing more of that name was queued behind the delta that introduced it; `AnthropicFaults.QueueGoesToOldCall` is a run on which that fails |
| AnthropicCalls.DeltaHeard | src/handlers/anthropic/stream_tools.py:261-307 | A delta of the open tool's name is added to the last call the client has; another one completes that call and opens a new one with its name and JSON |
| AnthropicCalls.FinishHeard | src/handlers/anthropic/stream_tools.py:162-187 | Finishing the open tool completes the arguments of the last call and changes no other |
| AnthropicCalls.ThinkingHeard | src/handlers/anthropic/stream_tools.py:190-234 | Thinking completes the open tool and adds no call |
| AnthropicCalls.TextHeard | src/handlers/anthropic/stream_content.py:123-142 | New text completes the open tool and adds no call |
| AnthropicCalls.ToolBlocksHeard | src/handlers/anthropic/events.py:175-189 | Whole calls arrive in order, each with its name and printed arguments |
| AnthropicCalls.ReadyHeard | src/handlers/anthropic/stream_content.py:145-184 | Ready calls complete the open tool, which stands for them, or all arrive whole when none is open |
| AnthropicTalk.ReadyArguments | src/handlers/anthropic/events.py:231-242 | When a tool is open, ready calls change no other call and end the open one with the arguments of the first of them that has its name, or of the only one, as text or equal JSON, if and only if what was sent, queued or closing begins or equals them; with several of other names nothing is added to that |
| AnthropicCalls.PostStreamHeard | src/handlers/anthropic/handler.py:49-62 | In the end exactly the calls not counted as sent arrive whole |
| AnthropicTalk.EventsMatch | src/handlers/anthropic/stream_content.py:187-268 | After any events, native calls among them, the client has heard exactly the calls of a simple account of what parser and upstream say, with their JSON, and the handler counts as sent what the account counts; only a call left behind by a native one must not be touched again |
| AnthropicTalk.ClientHears | src/handlers/anthropic/handler.py:49-62 | For every parser and all native calls, as long as no call left behind is touched: the client ends up with exactly the calls said, each with the JSON said for it, the parser's closing piece and what was missing of the expected arguments, and then the calls of the answer not counted as sent |
| AnthropicTalk.TouchedBreaks | src/handlers/anthropic/stream_tools.py:162-187 | Touching a call that a native one has left behind makes the whole trace malformed; so every well-formed run has its account |
| AnthropicTalk.UntouchedWithoutNatives | src/handlers/anthropic/stream_tools.py:261-307 | Without native calls no call is left behind |
| AnthropicTalk.CompleteCallsStay | src/handlers/anthropic/stream_core.py:229-264 | Over a whole run: a call that is complete at some moment is what the client has in the end, in the same place; and in every state the open tool, unless a native call has left it behind, is the last call, with its name and exactly its JSON |
| AnthropicTalk.EachCallArrivesOnce | src/handlers/anthropic/handler.py:55-57 | The end sends exactly the calls beyond those the client has if and only if as many are counted as sent as were said, up to the length of the list; and how many calls arrive in all |
| AnthropicTalk.ClientHearsTheFinalList | src/handlers/anthropic/stream_core.py:220-226 | The client has exactly the parser's final list if and only if as many calls were said as are counted, and those agree with it by name and by printed or equal JSON |
| AnthropicTalk.StopReason | src/handlers/anthropic/handler.py:58-61 | The stop reason says whether the client has tool calls if and only if they are not denied: calls were said, but no more than ended uncounted, and none was announced or found in the end |
| AnthropicTalk.OpenCallInTheEnd | src/handlers/anthropic/stream_core.py:160-217 | A call still open in the end is completed in what the client has, unless ready calls are announced once and gone when asked for again: then the client keeps what was streamed, and exactly when that call counts as sent |
| AnthropicTalk.OpenCallEndsWith | src/handlers/anthropic/stream_core.py:160-217 | What that call ends with, from the parser's last words alone: what was sent, queued and closing, and the arguments of the first call of the final list, or of the late ready call it stands for, if and only if that begins or equals them; and that it is left uncounted if and only if the parser does not close it and no list has calls |
| AnthropicTalk.OnlyCallCutOff | src/handlers/anthropic/stream_core.py:220-226 | An only call that is cut off counts as sent, and the client keeps exactly what was streamed of it |
| AnthropicFaults.SaidTwice | src/handlers/anthropic/stream_content.py:136-142 | For any call, JSON and text: text in the answer that says a call ends it uncounted, and the ready call is sent a second time |
| AnthropicFaults.EndedByTextIsNotRepeated | src/handlers/anthropic/stream_core.py:220-226 | For any call, JSON and text: a call ended by text that only the final list has besides is not sent again, because at least as many calls count as sent as answers began to stream |
| AnthropicFaults.CutOffForGood | src/handlers/anthropic/stream_core.py:160-176 | For any call and JSON: a call that breaks off and is announced late but gone when asked for again stays cut off |
| AnthropicFaults.QueueGoesToOldCall | src/handlers/anthropic/stream_tools.py:261-307 | For any three deltas: what is queued behind the first delta of a second call arrives in the first call |
| AnthropicFaults.OnlyCallDenied | src/handlers/anthropic/stream_core.py:179-198 | For any single delta: if nothing follows, the client hears the call and the last event denies it |
| AnthropicFaults.SecondReadyCallIsLost | src/handlers/anthropic/stream_content.py:145-184 | For any delta and any two ready calls in one answer: both count as sent, and the client hears one of them |
| AnthropicNative.WholeCallsArriveOnce | src/handlers/anthropic/stream_content.py:145-184 | If no call is streamed, native or not: each call said arrives once, then those that are ready when the parser is asked a second time in the end, then those of the answer beyond their number; the stop reason says whether there are any |
| AnthropicNative.AnnouncedCallsArriveOnce | src/handlers/anthropic/stream_content.py:145-184 | In particular each announced call arrives once, in order, and the final list exactly if and only if it begins with the announced calls |
| AnthropicNative.TextlessRunsAreClean | src/handlers/anthropic/stream_content.py:229-268 | Native calls beside thinking and announced calls are always well formed if there is no text |
| AnthropicNative.NativeCallsArrive | src/handlers/anthropic/stream_content.py:229-268 | Among any streamed and announced calls, thinking and text: the client gets every native call in its place with its name and all its arguments if and only if each is begun after the announcement of the message and each piece of arguments finds its call the last one begun with nothing else since |
| AnthropicNative.NativeCallsAlone | src/handlers/anthropic/stream_content.py:229-268 | If there are no other calls, the client gets the native calls and nothing else under exactly that condition |
| AnthropicNative.StraightCallsArrive | src/handlers/anthropic/stream_content.py:229-268 | In particular all of them if the message is announced first and the upstream finishes one call before the next |
| AnthropicNative.UnannouncedCallsVanish | src/handlers/shared/stream_loop.py:28-96 | For any events none of which announces the message: all calls are dropped, and the client gets an empty message |
| AnthropicNative.ThinkingLosesArguments | src/handlers/anthropic/stream_content.py:259-267 | For any native call and thinking between it and its arguments: the message is well formed and the arguments are lost |
| AnthropicNative.ArgumentsGoToLatestCall | src/handlers/anthropic/stream_content.py:259-267 | For any two interleaved native calls: the message is well formed and arguments of the first arrive in the second |
| AnthropicStreamHandler.AnthropicStream.constructor | src/handlers/anthropic/events.py:192-205 | A new stream has no block open, nothing sent and an unfed parser |
| AnthropicStreamHandler.AnthropicStream.Emit | src/handlers/shared/api_errors.py:159-167 | A write adds its event, or fails and no later one succeeds |
| AnthropicStreamHandler.AnthropicStream.EmitAll | src/handlers/anthropic/events.py:119-125 | Writes a beginning of the events, all of them if no write fails |
| AnthropicStreamHandler.AnthropicStream.EnsureMessageStart | src/handlers/anthropic/stream_core.py:42-57 | Announces the message once, as `AnthropicSpec.EnsureStart` |
| AnthropicStreamHandler.AnthropicStream.CloseOpenBlock | src/handlers/anthropic/events.py:128-132 | Stops the current block |
| AnthropicStreamHandler.AnthropicStream.EmitToolJsonPieces | src/handlers/anthropic/stream_tools.py:34-52 | Does what `AnthropicSpec.EmitPieces` says; a beginning of it if a write fails |
| AnthropicStreamHandler.AnthropicStream.DrainParserDeltas | src/handlers/anthropic/stream_tools.py:55-66 | Sends everything queued to the open tool |
| AnthropicStreamHandler.AnthropicStream.EmitFinalDelta | src/handlers/anthropic/stream_tools.py:69-79 | Sends the parser's closing piece of an unfinished call |
| AnthropicStreamHandler.AnthropicStream.SyncJsonBuf | src/handlers/anthropic/stream_tools.py:82-134 | Sends what is missing of the expected arguments, if the JSON sent is a beginning of them and does not agree yet |
| AnthropicStreamHandler.AnthropicStream.FlushOpenStreamTool | src/handlers/anthropic/stream_tools.py:162-187 | Completes and closes the open tool |
| AnthropicStreamHandler.AnthropicStream.ApplyStreamingToolJsonDelta | src/handlers/anthropic/stream_tools.py:261-307 | One delta: closes another block, changes tools when the name changes, opens a block, sends the JSON |
| AnthropicStreamHandler.AnthropicStream.EmitStreamingToolDeltas | src/handlers/anthropic/stream_tools.py:310-337 | All queued deltas in order |
| AnthropicStreamHandler.AnthropicStream.SendThinkingDelta | src/handlers/anthropic/stream_tools.py:190-234 | Thinking goes to an open or a new thinking block, after text and tools are closed |
| AnthropicStreamHandler.AnthropicStream.EmitReadyToolCalls | src/handlers/anthropic/stream_tools.py:237-258 | Closes the open block and sends one block per ready call |
| AnthropicStreamHandler.AnthropicStream.EmitPartialThinking | src/handlers/anthropic/stream_content.py:48-74 | The part of the parser's thinking that was not sent |
| AnthropicStreamHandler.AnthropicStream.EmitTextDelta | src/handlers/anthropic/stream_content.py:77-120 | Text goes to an open or a new text block, after thinking is closed |
| AnthropicStreamHandler.AnthropicStream.EmitSafeTextDelta | src/handlers/anthropic/stream_content.py:123-142 | The part of the visible text that was not sent, after an open tool is flushed |
| AnthropicStreamHandler.AnthropicStream.HandleReadyToolCalls | src/handlers/anthropic/stream_content.py:145-184 | Ready calls complete the open tool with the arguments of the first call of its name, or are sent as blocks |
| AnthropicStreamHandler.AnthropicStream.ProcessAnswer | src/handlers/anthropic/stream_content.py:187-226 | One answer event |
| AnthropicStreamHandler.AnthropicStream.ProcessNativeToolCall | src/handlers/anthropic/stream_content.py:229-268 | One native tool-call delta: an id opens a block, arguments go to the open native block |
| AnthropicStreamHandler.AnthropicStream.DispatchEvent | src/handlers/shared/stream_loop.py:28-126 | Which events announce the message, which are dropped before, and what the others do |
| AnthropicStreamHandler.AnthropicStream.ProcessEvents | src/handlers/anthropic/stream_content.py:305-322 | All events until the connection is lost |
| AnthropicStreamHandler.AnthropicStream.FlushRemainingText | src/handlers/anthropic/stream_core.py:98-142 | The rest of the final text; an empty text block if there was only thinking |
| AnthropicStreamHandler.AnthropicStream.HandleOpenStreamToolAtEnd | src/handlers/anthropic/stream_core.py:179-198 | The open tool is completed with the first parsed call's arguments and counted unless it breaks off |
| AnthropicStreamHandler.AnthropicStream.FinalizeOpenTools | src/handlers/anthropic/stream_core.py:201-217 | Late ready calls, the open tool, or ready calls asked for a second time |
| AnthropicStreamHandler.AnthropicStream.ReconcileToolCalls | src/handlers/anthropic/stream_core.py:220-226 | The calls sent so far are never counted below the tool blocks begun |
| AnthropicStreamHandler.AnthropicStream.CompleteStream | src/handlers/anthropic/stream_core.py:229-264 | The phases of the end in order, none of which writes on a lost connection |
| AnthropicStreamHandler.AnthropicStream.SendPostStream | src/handlers/anthropic/handler.py:49-62 | Last block, unsent calls, finish |
| AnthropicStreamHandler.Handle | src/handlers/anthropic/handler.py:89-122 | A whole request that finishes, fails or is cancelled, on a connection that may fail at any write: the client has a beginning of the failure-free trace, all of it if no write failed, and a well-formed one if nothing clashes |
| OpenAISpec.Step | src/handlers/openai/stream_tools.py:131-175 | One upstream event adds exactly the new text and thinking and counts native calls by their ids |
| OpenAISpec.Complete | src/handlers/openai/stream_run.py:191-213 | The end adds exactly the rest of the text and of the thinking, whatever tool chunks it sends |
| OpenAISpec.PieceChunks | src/handlers/openai/stream_tools.py:245-292 | The first piece of a tool goes out with its name, every other one as arguments of the same index |
| OpenAITheorems.OrderMeans | src/handlers/openai/stream_tools.py:245-262 | The automaton used for the proofs accepts exactly the wires on which header indices increase and arguments name the latest header |
| OpenAITheorems.IndicesAreSound | src/handlers/openai/stream_tools.py:220-336 | For every upstream sequence, parser and ending: header chunks of streamed, ready, late and leftover calls carry strictly increasing indices, and arguments belong to the latest header |
| OpenAITheorems.EventsGood | src/handlers/openai/stream_tools.py:304-336 | In every reachable state the next index counts the calls the client has heard, is never behind the calls announced as ready or the blocks begun, and lies beyond every header sent |
| OpenAITheorems.ClientHears | src/handlers/openai/stream_run.py:298-323 | The calls a client puts together from the chunks are exactly those the parser said, run of one name by run of one name, and then the calls of the final list not counted as sent |
| OpenAITheorems.ClientHearsTheFinalList | src/handlers/openai/stream_run.py:100-110 | The client hears exactly the parser's final list if and only if that begins with the calls said before and, where calls were skipped or native, has no more than those |
| OpenAITheorems.SkippedCallIsLost | src/handlers/openai/stream_tools.py:58-76 | For any delta and any two ready calls in one answer: the client hears the first only |
| OpenAITheorems.RunEndsOnce | src/handlers/openai/stream_run.py:323-343 | On the wire of a completed run: exactly one finish chunk, directly behind it a usage chunk if there is to be one, then `[DONE]`, and nothing of the kind nor an error anywhere else |
| OpenAITheorems.FinishReason | src/handlers/openai/stream_run.py:323-325 | For every run: the finish chunk on the wire says `tool_calls` if and only if the client has heard calls or native ones, except when there was a single one and it breaks off: then it says `stop` |
| OpenAITheorems.OnlyCallDenied | src/handlers/openai/stream_run.py:92-97 | For any single delta: the client hears the call, and the finish chunk behind it says `stop` |
| OpenAITheorems.BrokenRunEnds | src/handlers/openai/stream_run.py:154-188 | A run that fails ends in an error chunk, a cancelled one in `[DONE]`, right behind what was written before, and with no finish |
| OpenAITheorems.AnnouncedCallsArriveOnce | src/handlers/openai/stream_tools.py:58-76 | If no call is streamed: the client hears each announced call once, in order, late ones included, and then those of the final list beyond their number and that of the native ones |
| OpenAITheorems.ReconcileNeverActs | src/handlers/shared/fncall_inject.py:160-168 | Adjusting the next index to the tool blocks begun never changes it |
| OpenAITheorems.TextKeepsUp | src/handlers/openai/stream_tools.py:91-99 | After every answer the client has exactly the parser's text, if and only if that only ever extends |
| OpenAITheorems.TextIsConserved | src/handlers/openai/stream_run.py:44-66 | If the text only extends, a completed run carries exactly the parser's text when it has calls or no final text is given, else the final text, if and only if that extends the last one |
| OpenAITheorems.ThinkingIsConserved | src/handlers/openai/stream_tools.py:79-107 | A completed run shows the thinking that events and answers brought, in the order in which it happened, and what is left of the parser's in the end |
| OpenAITheorems.ThinkingAloneGetsText | src/handlers/openai/stream_run.py:56-66 | There is an empty text on the wire if and only if something was thought, the parser has no calls and nothing new is left of the final text |
| OpenAITheorems.ArgumentsAreFine | src/handlers/openai/stream_tools.py:265-292 | However a run ends: behind the header of a call its arguments come in pieces of 1 to 20 characters |
| OpenAITheorems.NativeCallsPassThrough | src/handlers/openai/stream_tools.py:110-128 | With native tools alone, tool-call deltas reach the client unchanged and in order |
| OpenAITheorems.MixedCallsShareAnIndex | src/handlers/openai/stream_tools.py:120-122 | A streamed call directly after a native one of index 0 always gets the index that one had |
| OpenAIMixed.RunNumbers | src/handlers/openai/stream_tools.py:110-128 | Which indices the headers and which the native deltas of any completed run carry: headers count the calls said, skipped and, for leftovers, native; native deltas count the calls before them |
| OpenAIMixed.IndicesUnshared | src/handlers/openai/stream_tools.py:120-122 | Native deltas and headers of a completed run share no index if and only if no native delta's number is that of a call said, late or left over |
| OpenAIMixed.UnsharedWithoutSkips | src/handlers/openai/stream_run.py:191-210 | When no ready call is skipped: if and only if every native number lies beyond the calls said and outside the leftovers, which begin as many numbers later as there were native calls |
| OpenAIMixed.NativeDuringCallShares | src/handlers/openai/stream_tools.py:110-128 | A native delta of index 0 that arrives while a streamed call is open always gets that call's index |
| OpenAITheorems.PrefixIsSound | src/handlers/openai/stream_tools.py:178-183 | A wire cut off by a lost connection keeps sound indices |
| OpenAIStreamHandler.OpenAIStream.constructor | src/handlers/openai/stream_tools.py:29-46 | A new stream has nothing sent and an unfed parser |
| OpenAIStreamHandler.OpenAIStream.Emit | src/handlers/openai/stream_tools.py:178-183 | A write adds its chunk, or fails and no later one succeeds |
| OpenAIStreamHandler.OpenAIStream.EmitToolCallChunks | src/handlers/openai/stream_tools.py:220-242 | One header per call with consecutive indices, and the next free index |
| OpenAIStreamHandler.OpenAIStream.EmitStreamToolPieces | src/handlers/openai/stream_tools.py:265-292 | The pieces of some JSON, header first |
| OpenAIStreamHandler.OpenAIStream.AimAt | src/handlers/openai/stream_tools.py:317-323 | A delta of another name is for a new tool with the next index |
| OpenAIStreamHandler.OpenAIStream.OnDelta | src/handlers/openai/stream_tools.py:317-333 | One delta |
| OpenAIStreamHandler.OpenAIStream.EmitStreamingToolDeltas | src/handlers/openai/stream_tools.py:304-336 | All queued deltas in order |
| OpenAIStreamHandler.OpenAIStream.EmitReadyToolCalls | src/handlers/openai/stream_tools.py:58-76 | Ready calls are sent, or stand for the streamed tool |
| OpenAIStreamHandler.OpenAIStream.EmitPartialThinking | src/handlers/openai/stream_tools.py:79-88 | The part of the parser's thinking that was not sent |
| OpenAIStreamHandler.OpenAIStream.EmitPartialText | src/handlers/openai/stream_tools.py:91-99 | The part of the visible text that was not sent |
| OpenAIStreamHandler.OpenAIStream.ProcessThinking | src/handlers/openai/stream_tools.py:102-107 | Thinking is passed on |
| OpenAIStreamHandler.OpenAIStream.ProcessNativeToolCall | src/handlers/openai/stream_tools.py:110-128 | A native delta is passed on with a moved index |
| OpenAIStreamHandler.OpenAIStream.ProcessAnswer | src/handlers/openai/stream_tools.py:131-158 | One answer event: deltas, thinking, text, ready calls |
| OpenAIStreamHandler.OpenAIStream.ProcessEvent | src/handlers/openai/stream_tools.py:161-175 | One upstream event |
| OpenAIStreamHandler.OpenAIStream.FlushRemainingThinkingAndText | src/handlers/openai/stream_run.py:44-66 | The rest of thinking and text; one empty text if there was only thinking |
| OpenAIStreamHandler.OpenAIStream.FinalizeStreamTool | src/handlers/openai/stream_run.py:69-97 | Late ready calls, or the closing arguments of the open tool |
| OpenAIStreamHandler.OpenAIStream.SettleStream | src/handlers/openai/stream_run.py:100-110 | All calls of the answer, the adjusted index, and the finish |
| OpenAIStreamHandler.OpenAIStream.SendStreamFinish | src/handlers/openai/stream_run.py:298-343 | Leftover calls, finish, usage, end |
| OpenAIStreamHandler.OpenAIStream.FinishStream | src/handlers/openai/stream_run.py:191-213 | The phases of the end in order |
| OpenAIStreamHandler.Handle | src/handlers/openai/stream_run.py:253-295 | A whole request that completes, fails or is cancelled on a connection that may fail at any write: the client has a beginning of the failure-free wire, with sound indices |
| Responses.CompletedStreamIsSound | scripts/zen/main.py:1628-1851 | For every upstream: sequence numbers 0, 1, 2, ...; items announced as 0..n-1; each item announced once, grown by its deltas alone and finished once with exactly what they said (`{}` for empty arguments); the final response lists them by index |
| Responses.OnLinesInv | scripts/zen/main.py:1645-1770 | Every upstream line keeps numbering, announcement order and the agreement of buffers with deltas |
| Responses.FinishIsSound | scripts/zen/main.py:1773-1851 | Finishing any such state gives a sound stream whose last event is the final response |
| Responses.ItemTold | scripts/zen/main.py:1775-1829 | Each output item is told in full, by the wire and by the final response alike |
| ResponsesContent.StreamReports | scripts/zen/main.py:1667-1851 | For every upstream, from its lines alone: the final response lists one item for the text and one for each call, in the order in which they first come up, with all text, all arguments and the last id and name that were sent; the wire carries the text and the arguments string by string; model and reason are the last ones given |
| ResponsesContent.TextArrives | scripts/zen/main.py:1679-1720 | There is a message, and only one, if and only if the lines carry text; its text is all of it, and so are its deltas on the wire glued together |
| ResponsesContent.LinesCarry | scripts/zen/main.py:1679-1770 | At any moment each item on the wire has grown by exactly the strings the lines so far carry for it |
| ResponsesContent.ItemsFinishInOrder | scripts/zen/main.py:1773-1829 | No item is finished before the upstream ends; then the message is, and after it the calls in the order in which they came up |
| ResponsesNames.LinesRecorded | scripts/zen/main.py:1723-1770 | After any lines each call is announced with the id and name of its first delta and holds the last id and name that were not empty |
| ResponsesNames.AnnouncementIsFinal | scripts/zen/main.py:1738-1829 | Over a whole stream: the announced call id is the final one if and only if the last id among the call's deltas is the announced one or there is none, and the announced name if and only if it is the last name |
| ResponsesNames.SecondDeltaRenames | scripts/zen/main.py:1738-1743 | For any two deltas of one call: a second one with another id and name leaves both announcements wrong |
| ResponsesHandler.ResponsesStream.constructor | scripts/zen/main.py:1628-1640 | A new stream has nothing written |
| ResponsesHandler.ResponsesStream.WriteEvent | scripts/zen/main.py:1546-1555 | Takes the next number and writes, or fails |
| ResponsesHandler.ResponsesStream.Begin | scripts/zen/main.py:1612-1626 | Created and in progress, numbered 0 and 1 |
| ResponsesHandler.ResponsesStream.HandleText | scripts/zen/main.py:1679-1720 | Announces the message item with the first text and appends the delta |
| ResponsesHandler.ResponsesStream.OpenToolItem | scripts/zen/main.py:1726-1758 | Registers and announces a call once; later deltas may still name it |
| ResponsesHandler.ResponsesStream.HandleToolPart | scripts/zen/main.py:1723-1770 | One tool-call delta |
| ResponsesHandler.ResponsesStream.HandleLine | scripts/zen/main.py:1667-1770 | One decoded line |
| ResponsesHandler.ResponsesStream.CloseTextItem | scripts/zen/main.py:1775-1805 | The end of the message item |
| ResponsesHandler.ResponsesStream.CloseToolItems | scripts/zen/main.py:1807-1829 | The end of every call in the order of announcement, and the finished items by index |
| ResponsesHandler.ResponsesStream.FinishStream | scripts/zen/main.py:1773-1851 | The end of the stream with the final response |
| ResponsesHandler.ResponsesStream.Feed | scripts/zen/main.py:1645-1665 | One network chunk: its complete lines are handled until one reports an error, the rest waits |
| ResponsesHandler.RealStream | scripts/zen/main.py:1557-1855 | What is written depends only on the bytes received, not on their chunks: a sound stream, or a beginning of it if the upstream reports an error or a write fails; a completed one reports exactly what the lines say, and any other that no write cut off carries what they said before the error |
| Lines.GlueComplete | scripts/zen/main.py:1649-1650 | The complete lines, their separators and the rest are the input |
| Lines.CompleteIsClean | scripts/zen/main.py:1649-1650 | No line and not the rest holds a separator |
| Lines.OnlySplit | scripts/zen/main.py:1649-1650 | That is the only way to cut the input |
| Lines.CompleteAppend | scripts/zen/main.py:1647-1650 | More input only adds lines, and only after those already there |
| Lines.ReadLines | src/core/transport/sse.py:14-18 | Reading chunk by chunk gives the lines of the whole input cut at once, without the unterminated rest |
| Lines.DataLines | src/core/transport/sse.py:10-23 | The payloads of an event stream are those of its complete lines, however it was cut into chunks |
| Lines.DataYieldsText | src/core/transport/sse.py:18-23 | A data line yields its text without the space before it and the carriage returns at its end |
| Lines.OnlyDataYields | src/core/transport/sse.py:18-23 | Every line that begins with `data:` yields one text, and no other line yields any |
| Scheduler.RequestScheduler.constructor | src/state_sched.py:34-45 | Nobody is admitted or running |
| Scheduler.RequestScheduler.MarkShuttingDown | src/state_sched.py:63-64 | Nobody is admitted from now on |
| Scheduler.RequestScheduler.ReservePending | src/state_sched.py:77-85 | Admits if and only if the queue has room and the server is not going down |
| Scheduler.RequestScheduler.ReleasePending | src/state_sched.py:87-89 | Gives a queue slot back |
| Scheduler.RequestScheduler.TryAcquireConcurrent | src/state_sched.py:91-98 | Takes a slot if and only if there is one |
| Scheduler.RequestScheduler.ReleaseConcurrent | src/state_sched.py:100-103 | Gives a concurrency slot back |
| Scheduler.StepConserves | src/state_sched.py:77-122 | Every step of any request, of the configuration and of the shutdown keeps: pending counts the admitted, active the running, neither exceeds the largest limit ever in force, and every tracked task has registered and not yet unregistered |
| Scheduler.RoomIsGiven | src/state_sched.py:77-98 | In every reachable state a request is admitted exactly when fewer are than the queue holds and no shutdown has begun, and gets a slot exactly when fewer run than the limit or there is none |
| Scheduler.StepLosesNoWakeup | src/state_sched.py:91-103 | Every step keeps: a sleeper that was not notified means that there is no slot, unless a limit was raised without waking anybody |
| Scheduler.RunsAreSafe | src/state_sched.py:77-168 | Both hold in every state that any interleaving reaches |
| Scheduler.ClampsNeverAct | src/state_sched.py:87-103 | The clamps to zero never act, and active never exceeds pending |
| Scheduler.ShutdownAdmitsNobody | src/state_sched.py:63-85 | Whatever happens after the shutdown has begun: pending never rises above what it was, and every request that arrives is turned away |
| Scheduler.StuckMeansIdle | src/state_sched.py:105-122 | If no request can move, all are over, all slots are given back and nobody sleeps |
| Scheduler.OwnMoveProgresses | src/state_sched.py:91-122 | Every move of a request lowers a fixed measure, waking everybody included |
| Scheduler.RunsEnd | src/state_sched.py:66-122 | So every interleaving, with cancellations, shutdowns and changes of limits at any moment, comes to an end: requests make only as many moves as the measure allows, and two more each per wakeup for the configuration |
| Scheduler.FreshRunsEnd | src/state_sched.py:66-122 | n requests make at most 6n(2n+1) moves, and 2n more per wakeup for the configuration |
| Scheduler.EveryRequestEnds | src/state_sched.py:63-168 | With a fixed limit of at least 1, every way of letting requests arrive, run, fail and be cancelled, with a shutdown and its cancellations at any moment, ends with all slots given back and nothing tracked |
| Scheduler.LimitChangeOverlooks | src/state_sched.py:47-53 | A change of limits leaves nobody asleep beside a free slot if and only if nobody sleeps or the new limit is reached by those who run |
| Scheduler.OnlyLimitsOverlook | src/state_sched.py:77-122 | Nothing but a change of limits can do that |
| Scheduler.RaisedLimitNeedsWakeup | src/state_sched.py:66-69 | It does happen: a reachable state has a sleeper beside a free slot after a limit was raised; waking for the configuration ends it |
| Scheduler.ActiveRequestTracker.CancelAll | src/state_sched.py:138-148 | Cancels everybody but the caller that is not done, and forgets them |
| SessionPool.LeaseStep | src/core/session/pool.py:82-109 | One lease taken or given back keeps the table exact and never needs the clamp |
| SessionPool.LeasesAreConserved | src/core/session/pool.py:82-109 | In every interleaving each entry is the positive number of open leases of its account, and the total is the number of all open leases on named accounts |
| SessionPool.NoLeases | src/core/session/pool.py:82-109 | When all leases are given back the table is empty |
| SessionPool.CapIsLeastLoaded | src/core/session/pool_switch.py:66-82 | Preferring accounts under the cap chooses exactly the least loaded of all; an account at the cap is chosen only when all are |
| SessionPool.PicksStayBalanced | src/core/session/pool_switch.py:66-82 | Any run of least-loaded picks keeps a balanced pool within one lease, and counts every pick; leases of the pool are such picks by `LeaseMany` |
| SessionPool.CapHoldsWhileThereIsRoom | src/core/session/pool_switch.py:66-82 | From an idle pool, as many leases as there are places under the cap never exceed it |
| SessionPool.KeptDistinct | src/core/session/store.py:251-261 | Removing sessions keeps usernames distinct |
| SessionPool.ReplaceDistinct | src/core/session/store.py:273-279 | A login keeps usernames distinct, and its session is the only one of its account |
| SessionPool.ReplaceAddsOne | src/core/session/store.py:273-287 | A login adds at most one live session |
| SessionPool.ReadyCounts | src/core/session/store.py:286-287 | The number of sessions that counts as ready is that of the valid ones that have not expired |
| SessionPool.CurrentStays | src/core/session/pool.py:179-200 | When expired sessions leave, the index still means the session it meant before if and only if no session before that one left, or it falls off the end and that session is the first one left |
| SessionPool.SortByStaleness | src/server/records/login_history.py:113-119 | The accounts in order of their last login, all of them |
| SessionPool.PickAccount | src/server/records/login_history.py:100-124 | Picks an eligible account if there is one: a never-used one first; with 20 or more accounts one of the 20 stalest whenever any of them is eligible |
| SessionPool.TargetIsBounded | src/core/session/pool_switch.py:179-234 | The computed target lies between 0 and the cap, and grows with demand and with a signal |
| SessionPool.TargetMeans | src/core/session/pool_switch.py:176-234 | The target reaches k if and only if that is configured, at most half the concurrency limit or 4, and beyond the first session there is demand or a signal and k is at most the demand and the room on top; a given count is the target itself |
| SessionSwitch.Pool.BumpInflight | src/core/session/pool.py:85-92 | Changes one entry as `SessionPool.Bump` |
| SessionSwitch.Pool.ValidSessions | src/core/session/pool_switch.py:51-64 | Exactly the sessions that are valid, unexpired, unblocked, unmuted and not excluded |
| SessionSwitch.Pool.SelectValidSession | src/core/session/pool_switch.py:66-87 | A least loaded session on offer; None if and only if there is none; the index points at its account |
| SessionSwitch.Pool.GetValidSession | src/core/session/pool_switch.py:150-163 | From the pool if it has a session to offer, else by switching; None only after every account that could be logged in has been tried |
| SessionSwitch.Pool.LeaseValidSession | src/core/session/pool.py:94-109 | A lease goes to an account on offer that carried least, or to one logged in for it, and raises one from the pool above the soft cap only when every account on offer has reached it |
| SessionSwitch.Pool.LeaseMany | src/core/session/pool.py:94-109 | Any number of leases without a release: each goes to a least loaded account, a balanced pool stays balanced, and an idle pool with room for all of them exceeds no cap |
| SessionSwitch.Pool.ReleaseSession | src/core/session/pool.py:94-109 | Ends the lease |
| SessionSwitch.Pool.BlockAccount | src/core/session/pool.py:131-144 | The account is blocked for the given time and for at least a minute |
| SessionSwitch.Pool.FixCurrentIndex | src/core/session/pool.py:179-193 | The index points at a session again, or is 0 in an empty pool: at a live one if the account it meant is gone, else where it was |
| SessionSwitch.Pool.CleanExpired | src/core/session/store.py:251-261 | Exactly the live sessions stay; usernames stay distinct |
| SessionSwitch.Pool.PruneExpired | src/core/session/pool.py:195-200 | The same, with the index repaired when a session left |
| SessionSwitch.Pool.HandleAccountMuted | src/core/session/pool.py:149-168 | The muted account has no session; it is muted for a day from the given moment, not at all if that is over, and no other account is affected |
| SessionSwitch.Pool.LoginAccount | src/core/session/pool.py:254-283 | After a removal of expired sessions, if one is due, a login replaces or adds the session of its account only, adds at most one live session and records itself |
| SessionSwitch.Pool.PickAccountForLogin | src/core/session/pool_switch.py:33-49 | Picks if and only if an account is eligible, never-used ones first, then the stalest |
| SessionSwitch.Pool.FallbackValidSession | src/core/session/pool_switch.py:116-124 | Gives up only when nothing is on offer |
| SessionSwitch.Pool.LoginUntilValid | src/core/session/pool_switch.py:126-148 | No account is tried twice, none that is skipped, blocked or muted; when it gives up, every account that was not skipped and could be logged in has been tried |
| SessionSwitch.Pool.SwitchToNext | src/core/session/pool_switch.py:94-148 | Never returns the excluded account; a session on offer is taken without a login; else logs in, if and only if some account may be, and gives up only when nothing is on offer and every account that could be logged in has been tried |
| SessionSwitch.Pool.Replenish | src/core/session/pool_switch.py:250-303 | Never raises the number of live sessions above the target or above what it was; logs in inactive, unblocked, unmuted accounts only, and keeps usernames distinct if they were; it stops short of the target only when nobody is left to be logged in |
| SendLimit.ShrinkLowers | src/server/retry/session_retry.py:162-187 | A shrink strictly lowers the limit of its model, to no less than 50000; it leaves every model with a limit of its own alone, and every other model too unless it names none |
| SendLimit.StepsAreLogarithmic | src/server/retry/session_retry.py:172-175 | A limit L shrinks at most k times if and only if L < 50001 * 2^k |
| SendLimit.ShrinksAreBounded | src/server/retry/session_retry.py:162-191 | Over any life of the server and any mix of models a limit never rises, never falls below 50000, and shrinks at most logarithmically often |
| SendLimit.SplitIsLossless | src/state.py:52-60 | Attachment and text sent are the prompt, for every limit; the text sent respects the limit if and only if the prompt did or a split with a positive limit is allowed |
| SendLimit.ZeroLimitSendsAll | src/state.py:52-60 | For any prompt that is not empty and a limit of zero: the attachment is empty and the text sent is the whole prompt |
| SendLimit.BudgetKeepsTheEnd | src/handlers/chat_request.py:189-217 | What is sent is the end of the prompt; with file split nothing is lost |
| SendLimit.BudgetLength | src/handlers/chat_request.py:189-217 | How much is sent for every setting: all of it if splitting is off or the limit is kept or none, else exactly as much as the limit allows, which is the model's own, the splitter's, or the one configured |
| SendLimit.NextBudgetUsesNewLimit | src/server/config/qwen_send_limits.py:12-24 | After a shrink the next prompt of that model keeps to the new, smaller limit |
| Retry.AgainIffWorthIt | src/server/retry/session_retry.py:291-333 | An attempt is followed by another if and only if, by the kind of its error: a first prompt was too long and can be shortened; a chat was not found, a timeout or a connection error came within the limit; an account error came within the limit and switching found a session; and no shutdown is under way. Otherwise the request ends as the attempt did |
| Retry.RetriesAreMade | src/server/retry/stream_retry.py:74-120 | A request makes exactly the attempts that are worth it and one more, which decides: if that one completes the request succeeds with it |
| Retry.OnlyTooLongShrinks | src/server/retry/session_retry.py:162-187 | Only a prompt that is too long changes the limits: that of its model is halved to no less than 50000, also when the request then gives up |
| Retry.TriedAgain | src/server/retry/session_retry.py:291-333 | Another attempt follows only a retryable error within the limit, or a first prompt that was too long |
| Retry.RetryTerminates | src/server/retry/stream_retry.py:74-120 | For any mix of errors at most max(limit, 1) + 1 attempts are started, more than max(limit, 0) + 1 only after a first prompt that was too long; all but the last failed with a retryable error; the last one decides |
| Retry.AtMostTwoShrinks | src/server/retry/session_retry.py:162-191 | A request finds its prompt too long at most twice, and at most once if it succeeds |
| Retry.RetryingStream.ShrinkPayloadLimit | src/server/retry/session_retry.py:162-191 | Shrinks also when it then gives up |
| Retry.RetryingStream.DispatchRetry | src/server/retry/session_retry.py:291-333 | The decision about one error |
| Retry.RetryingStream.ConsumeOnce | src/server/retry/stream_retry.py:46-50 | Passes events on until the client stops |
| Retry.RetryingStream.AttemptOnce | src/server/retry/stream_retry.py:92-118 | One attempt, whose generator is closed however it ends |
| Retry.RetryingStream.Stream | src/server/retry/stream_retry.py:74-120 | The client gets the events of all attempts in order, or a beginning of them when it stops; no generator is opened while another is open, and none is left open |
| Overlay.OverlayAt | src/server/config/files.py:71-83 | What every path of the merge leads to: the user's subtree laid over the template's, or the only one there is; a user setting on the way hides the template |
| Overlay.OverlaySetting | src/server/config/files.py:71-83 | A setting comes from the user if the user decides its path, else from the template |
| Overlay.NothingIsNeutral | src/server/config/files.py:71-83 | The empty table is neutral on both sides |
| Overlay.OverlayIsIdempotent | src/server/config/files.py:71-83 | Laying the same layer over again changes nothing |
| Overlay.OverlayAssociates | src/server/config/files.py:71-83 | Laying layers over each other is associative if and only if no setting of the middle layer stands between tables of the outer two that would not merge to the last one anyway |
| Overlay.SettingBetweenTables | src/server/config/files.py:71-83 | For any setting laid between a table with a setting and an empty table: laid from the left the inner setting is lost, from the right it is kept |
| Overlay.AgreeingLayersAssociate | src/server/config/files.py:71-83 | In particular when no path is a table in one layer and a setting in another |
| Overlay.AddingNothing | src/server/config/files.py:71-83 | A layer is hidden entirely by another if and only if all its paths are set there |
| Overlay.OverlayUserConfig | src/server/config/files.py:71-83 | The loop over the user's keys computes the merge |
| Overlay.OverlayIfExists | src/server/config/app_config.py:199-206 | A missing file changes nothing; on nothing, the file is all there is |
| Overlay.LoadUpstreamToml | src/server/config/app_config.py:237-252 | The layers are folded in order |
| Overlay.LastLayerWins | src/server/config/app_config.py:237-252 | Every setting of any number of layers comes from the last one that decides its path |
| PyText.StripKeeps | src/server/model/model_registry.py:65-67 | Stripping leaves exactly the trimmed texts alone |
| Registry.LineRoundTrip | scripts/sync_qwen_model_registry.py:36-40 | A written line is read back as its entry if and only if both ids are non-empty, trimmed and without a colon and the external one does not begin with `#` |
| Registry.ParsedIsWritable | src/server/model/model_registry.py:65-84 | Every entry read from a line could have been written |
| Registry.FlagMeans | src/server/model/model_registry.py:56-62 | The flags are the words true, 1, yes and false, 0, no, in capitals or not, with any space around them |
| Registry.ShortLine | src/server/model/model_registry.py:65-84 | A line of three parts is an entry if and only if the third is a flag, which then counts for thinking and for tools |
| Registry.LongLine | src/server/model/model_registry.py:65-84 | A line of four parts is an entry if and only if the last two are flags, one for thinking and one for tools |
| Registry.ThreeOrFourParts | src/server/model/model_registry.py:65-84 | A line of more or fewer parts is no entry |
| Registry.LineEnds | src/server/model/model_registry.py:101-103 | Any of the ten line breaks ends a line, and a carriage return with a line feed ends one |
| Registry.OnlyLine | src/server/model/model_registry.py:101-103 | A text without a line break is its only line |
| Registry.FileRoundTrip | scripts/sync_qwen_model_registry.py:105-108 | A written file is read back entry by entry if no id holds a line break |
| Registry.LoadModelRegistry | src/server/model/model_registry.py:87-109 | The entries of the lines in order, and tables in which the last entry of an external id counts |
| Registry.ResolvedIsListed | src/server/model/model_registry.py:134-176 | What resolves is listed; what is listed resolves if and only if the last entry of its name is available |
| Registry.SecondEntryHidesModel | src/server/model/model_registry.py:134-176 | For any name with two entries of which only the first is available: it is listed and does not resolve |
| Registry.ResolveMeans | src/server/model/model_registry.py:146-176 | A name resolves to the last entry that has it, with all its settings, if the upstream has that entry's model or the server has it itself; else it is not configured, and so is a name that only the upstream knows |
| Registry.ListedInOrder | src/server/model/model_registry.py:134-143 | Names are listed in the order of the file, once for each available entry |
| Registry.ListingAgreesWithResolving | src/server/model/model_registry.py:134-176 | With unique names a non-empty model name resolves if and only if it is listed |
| Registry.ListedNamesResolve | src/server/model/model_registry.py:134-143 | Every name listed from a file is a request the server understands, unless a later line took the name over |
| Registry.ResolveErrors | src/server/model/model_registry.py:146-176 | Which error a name gets: none given, the upstream's own name with the name to use instead from the last entry of it, or unknown |

## Left out

- HTTP, TLS, websockets, disk writes, logging, heartbeats, usage counting and recording: input and output around the modelled logic.
- The tool-call parser, JSON, JWT, UTF-8 and prompt injection: the parser is arbitrary data for each feed, JSON is an arbitrary decoder and printer, bytes are decoded by an arbitrary function.
- Generated ids of messages, blocks and tool calls: they carry no meaning on the wire; the ids of Responses items are kept, as an arbitrary supply.
- The record of a streamed Anthropic or OpenAI tool is a value inside the handler's state: the source shares one mutable dictionary, and no second reference to it is modelled.
- The buffer of deferred Anthropic events: the source never puts anything into it.
- Exceptions inside the handlers' own end phases: an upstream error and a cancellation are modelled between events only.
- Which calls the parser says and announces: it is arbitrary, so whether every call arrives once is stated as a condition on what it says, not claimed.
- AnthropicContent.NameChangeDrainsQueue: says where queued JSON goes, not that the parser ever queues several names, because the parser is arbitrary.
- AnthropicTalk.ClientHears: does not cover runs in which a streamed call that a native one has left behind is touched again; their trace is malformed (`AnthropicTalk.TouchedBreaks`).
- AnthropicNative.NativeCallsArrive: assumes an upstream that sends arguments only for calls it has begun; other arguments belong to no call.
- AnthropicContent.ThinkingAloneGetsText: covers runs in which no event clashes; the trace of any other is malformed.
- OpenAITheorems.ClientHears: speaks of names and arguments, not of call ids, which are generated.
- OpenAITheorems.IndicesAreSound: covers header and argument chunks; the indices of native deltas are the subject of `OpenAIMixed`.
- Scheduler.EveryRequestEnds: assumes that cancellation lands while waiting or inside the work, never inside the two releases, and that the limits stay fixed.
- The file watcher's reload of limits, which cannot reach the waiters: only `wake_for_config` itself is modelled.
- SessionSwitch.Pool.SwitchToNext: time does not pass during one call and no other task changes the pool meanwhile; a login is an oracle that may fail and otherwise returns a session of its own account.
- SessionSwitch.Pool.Replenish: one refill at a time; the pause between logins is not modelled.
- SessionSwitch.Pool.HandleAccountMuted: no upper bound is claimed for the index, because saving removes expired sessions after the index was repaired.
- Expired entries of the block table are dropped lazily in the source and kept here: they are never observed. Tables read from disk at start begin empty here, except sessions and mutes.
- Retry.RetryingStream.Stream: errors raised while a generator is being closed are not modelled; what a retry does to accounts, proxies and transports is reduced to whether a session was found. `run_with_session_retry` is the same loop without events.
- The proxy pools of the Zen script, its Anthropic stream, realtime audio, migrations, account files and the login history's file format: little state, or plumbing.
- Lower-casing in registry flags covers ASCII letters only: no other character lower-cases to a letter of the words that are recognised.
