# Droids: a verified model of the agent runtime

Droids runs a language-model agent: one worker takes queued prompts, sends the conversation to a
provider, executes the tools the reply asks for, and repeats. This project models the parts whose
correctness spans several functions or several goroutines, and proves what they keep.

`dafny verify dfyconfig.toml` checks everything.

| file | models |
|---|---|
| `Sequences.dfy` | sequences built element by element, used by every projection of a trace or journal |
| `Messages.dfy` | messages, content blocks, tool calls, stop reasons |
| `Transcript.dfy` | the language of legal transcripts and its two validators |
| `Budget.dfy` | size estimates, the context budget and the compaction trigger |
| `Events.dfy` | the event trace of a run as a grammar |
| `ToolBatch.dfy` | one tool call through its hooks, and the goroutines of a parallel batch |
| `Storage.dfy` | the in-memory store |
| `RunLog.dfy` | what one run leaves behind: events, journal, requests, replies |
| `Session.dfy` | the worker's run loop as a class: transcript, steering, storage, events, compaction, tools |
| `Admission.dfy` | `enqueue`, the worker, `Close`, the final drain and the event channels as a step relation |
| `Namespace.dfy` | the fields of an MCP namespace, its critical sections, and reading a tool listing |
| `NamespaceProtocol.dfy` | all interleavings of connect, list, close, lost sessions and notifications |
| `Registry.dfy` | the model registry: index, lookup, refresh |
| `OpenAIInput.dfy` | a transcript as input items of an OpenAI Responses request |

## How to read it

- Code that updates state is a class or a method with loops, proved against functions and
  predicates; what the source promises is then proved about those. The three concurrent protocols
  are step relations over atomic actions: an action per critical section or channel operation,
  an invariant kept by every action, and theorems about every behaviour.
- What happens around a session is an arbitrary `Session.World`: the events and the final message of
  each provider stream, what hooks and tools answer to its calls, what the compaction hook returns,
  and the looks at which the run context ends (by its caller, `Abort` or `Close`); the end of a
  context is final. Any number of `Steer` calls may come whenever the worker looks at what they
  change (`Session.Session.Interfere`).
- Ghost fields record what the proofs talk about: the loaded history, the journal (each message
  stored, with its origin, and each replacement installed), the Steer history, and for the current
  run its events, requests, replies, executed tool batches, calls of the compaction hook, the
  transcript of its first step and checks for cancellation, and how far it had come when its context
  ended.
- A Go string is a sequence of bytes; here it is a `string` with one `char` a byte. Integers are
  unbounded, except the MCP generations, which wrap at 2^64. The trigger fraction 0.8 is `4 * w / 5`.
- A transcript is legal (`Transcript.Conversation`) when it splits into units: a user message, a
  call-free reply, or a tool-use reply followed by exactly one matching result per call.

## Main results

1. Every provider request of a run that starts on a legal transcript carries a legal transcript
   exactly as long as every earlier tool-use reply of that run named its calls well (non-empty
   names, non-empty distinct ids), whatever the tool mode, steering, compaction and cancellation.
   The run leaves a legal transcript, and a legal stored log, exactly when all its tool-use replies
   named their calls well and its last reply left nothing open (a missing result, or calls that
   were not executed), so the result chains from run to run.
2. A run ends in one of five ways; its trace is empty or obeys the event grammar; its stored
   messages are its completed messages without context-window rejections, in order; exactly the
   batches of its tool-use replies are executed, with one start before one end for each call; it
   makes at most `MaxSteps` requests, one more only after an applied overflow compaction, and at
   most one after its context has ended. It compacts for a threshold exactly when the transcript of
   its first step is over the trigger, and for an overflow exactly when its first request is
   rejected; what is then requested is the replacement, or nothing. It ends with an aborted error event exactly when a check
   before a step came after the end of its context, or the provider's last answer was Aborted.
3. Storage only grows, the transcript is the last replacement and what was stored since, and
   steering is conserved in order, over any sequence of runs.
4. Every schedule of a parallel tool batch ends in the state of the sequential path.
5. Every prompt that `enqueue` accepted is completed exactly once, in order, and completed means
   that its result was delivered or its stream closed; runs happen one at a time, nothing that had not passed the worker's second check runs after `Close`, no channel is
   misused, and shutdown ends under a stated fairness condition.
6. An MCP namespace installs a session only over nil, leaves nothing behind once closed, and
   serves a cached tool table that nothing has outdated, exactly when there were fewer than 2^64
   changes since its listing began; a run that reaches the wrap-around is exhibited.
7. A lookup in the registry finds exactly what a scan over all models finds, before and after a
   refresh, and "provider/id" names a model exactly when the provider id has no slash.
8. On the wire, the items carry exactly what a transcript has to say, one by one and in order, and
   the tool calls of a legal transcript are followed by their outputs batch by batch.

## Where the code and its documentation differ

- `event.go:3-15` shows a run ending with `AgentEnd` or `ErrorEvent`. The code emits `ErrorEvent`
  and then `AgentEnd` (`loop.go:149-160`, `loop.go:217-229`); the grammar follows the code.
- `droid.go:339-340` says that `Abort` ends the current turn with an aborted error event. That holds
  exactly when the run still reaches a check before a step, or the provider answers Aborted
  (`Session.Session.RunPrompt`, `Session.AbortedExactly`). It fails when the context ends while the
  compaction hook runs (`compaction.go:137-140`, `loop.go:172-177`): that error event is not an
  aborted one (`Session.AbortDuringHook`). It fails when the context ends during the tool batch of
  the last allowed step (`loop.go:241-246`): there is no error event (`Session.AbortInLastBatch`).
- `loop.go:45-47` says that work racing with Close "never executes". A prompt that passed the second
  check of `closed` before the signal still goes into `runPrompt`, with a context that is being
  cancelled: `Admission.RunStartsAfterClose` is such a run, and `Admission.NothingRunsAfterClose`
  states the exact bound.

## Model

| member | source | states |
|---|---|---|
| Transcript.ValidateMessageSequence | compaction.go:269-315 | accepts exactly the legal transcripts; an error names the first position where no unit of any length can start, after a legal prefix, and what is wrong there |
| Transcript.AcceptedIffConversation | compaction.go:269-315 | reading units greedily from the left recognises exactly the sequences that can be split into units in some way |
| Transcript.ConcatenationKeepsConversations | compaction.go:269-315 | after a legal prefix, the whole is legal exactly when the rest is: closed under concatenation, and a legal prefix can be cancelled |
| Transcript.ValidateContinuation | loop.go:480-545 | succeeds exactly when the transcript ends with a reply that has calls, well named, and exactly their results in order; an error is true of the transcript |
| Transcript.ResultTailContinues | loop.go:480-545 | any legal transcript that ends in a tool result passes the continuation check |
| Transcript.ContinuableConversation | loop.go:480-545 | a continuable transcript is legal exactly when what precedes its last batch is and the reply stopped for tool use |
| Transcript.ShortBatch | compaction.go:287-289 | a tool-use reply with a result missing is not legal after a legal transcript, whatever its names |
| Transcript.LoneReply | compaction.go:275-286 | a reply whose calls are not executed is legal exactly when it has none and did not stop for tool use |
| Transcript.PoisonStays | compaction.go:269-315 | a legal transcript followed by a tool-use reply with badly named calls stays illegal whatever is appended |
| Budget.EstimateRequestTokens | compaction.go:179-191 | the loops compute the byte sum over prompt, messages and tools, two bytes a token rounded up |
| Budget.EstimateCounts | compaction.go:179-236 | the estimate is half the bytes, rounded up, of every string of prompt, messages, blocks and tools, and of the frames 32, 24, 12 and 32 for request, message, block and tool |
| Budget.ChunkedEstimate | compaction.go:193-198 | the estimates of two chunks add up to the estimate of the whole, or to one token more |
| Budget.DroppingLowersEstimate | compaction.go:179-216 | leaving out messages anywhere lowers the request estimate by at least twelve tokens each |
| Budget.HeadroomBelowTrigger | compaction.go:56-111 | below the trigger, with a known limit, `Remaining` is positive, is what one known limit leaves, more than a fifth of it, and exceeds no known limit |
| Budget.RemainingExactly | compaction.go:56-88 | `Remaining` is the least that a known limit leaves, the window less the reserve, and nothing when no limit is known |
| Budget.TriggerExactly | compaction.go:94-111 | the trigger fires exactly when a known limit w leaves fewer than w / 5 + 1 tokens |
| Events.StartsOnce | event.go:20-23 | in any trace the grammar has not refused, AgentStart is the first event and only the first |
| Events.EndsOnce | loop.go:149-160 | in a complete trace AgentEnd is the last event and only the last; an ErrorEvent comes right before it |
| Events.CompactionsPaired | compaction.go:126-172 | each CompactionStart is followed at once by its CompactionEnd with the same reason and usage, outside any turn, and there is no other CompactionEnd |
| Events.TurnsBracketed | loop.go:180-243 | turns alternate start and end, are never nested and are all closed; tool events and deltas lie inside a turn, errors and the end outside |
| Events.MessagesBracketed | loop.go:260-294 | each MessageEnd closes the message started last, the same one or the final form of a reply; while a message is open only deltas and drafts of a reply come, inside a turn; none stays open |
| ToolBatch.ErrorStatusAgrees | loop.go:409-473 | whatever hooks and tool answer, the reported error status is the one the output carries |
| ToolBatch.BeforeHookSettles | loop.go:420-439 | whatever the tool and the after hook would answer: a failed before hook gives its error, a rejection its reason or the stock text as an error, and a result in place of the tool's is passed on |
| ToolBatch.ToolAndAfterHookSettle | loop.go:442-467 | a call let through gives the after hook's error or replacement if there is one, and else the tool's answer, its error, or the error for an unregistered tool |
| ToolBatch.ResultsCarryOutcomes | loop.go:392-405 | result i has the id and name of call i, and the content and status of its outcome |
| ToolBatch.StepKeepsInv | loop.go:365-378 | a step of any goroutine keeps the slot, semaphore and event-mark invariant, lowers the measure by one and writes no other slot |
| ToolBatch.Progress | loop.go:359-379 | a batch that is not finished always has a goroutine that can step |
| ToolBatch.EveryScheduleAgrees | loop.go:343-388 | for every schedule: at most the limit of bodies at once; the number of steps is fixed; stuck means finished; finished means each slot holds the sequential outcome of its call and each call has one start before one end |
| ToolBatch.BodiesOverlap | loop.go:361-372 | as many tool bodies as the limit allows, and all without one, can be running at once |
| Storage.MemoryStorage.Append | storage.go:41-49 | the session's log grows by the messages, in order; other sessions are untouched |
| RunLog.CurrentIsReplacementAndRest | compaction.go:169-171 | the transcript is the last installed replacement, or the start, followed by exactly the messages stored since |
| RunLog.JournalConcat | loop.go:551-563 | stored messages, messages by origin and the resulting transcript compose over journals, run after run |
| RunLog.LegalAsStored | compaction.go:154-173 | from a legal start, the transcript of a run is legal exactly when what the run stored is, whatever was compacted |
| RunLog.StandingAfterBatch | loop.go:241-243 | after a tool-use reply and results: legal exactly if the calls are well named and no result is missing, spoiled for good if they are badly named |
| RunLog.StandingAfterReply | loop.go:231-239 | after a reply whose calls are not executed: legal exactly if all before is and the reply has no calls and did not stop for tool use |
| RunLog.SettledIsExact | loop.go:145-247 | the transcript and the stored log a run leaves are legal, if they were, exactly when its replies named their calls well and the last left nothing open |
| RunLog.BatchContinues | loop.go:480-545 | a transcript that ends with a reply and some of its results can be continued exactly when the calls are well named and none is missing |
| RunLog.RequestKeepsProgress | loop.go:251-295 | one more request on standing ground keeps the run's accounts and the exact legality of all its requests |
| RunLog.BatchKeepsProgress | loop.go:241-243 | a tool batch and its TurnEnd keep the accounts of events, results and executed batches; only a complete batch leaves ground for another request |
| RunLog.CompactionKeepsProgress | loop.go:166-215 | a compaction keeps the accounts: at most one for each reason, while only user messages are stored, and a replacement is legal ground |
| RunLog.RunExplained | loop.go:166-215 | told from the events, requests and replies of any run: a threshold compaction comes exactly when the first step's transcript is over the trigger, and the first request carries its replacement; an overflow compaction comes exactly when the first request is rejected, followed by a second request with its replacement if it was applied, and by none if not |
| Session.NewSession | droid.go:108-161 | opens a session exactly when the model id is given and resolves, the output allowance is accepted and the tools have distinct non-empty names; on the stored history, with that model, allowance and tool table, and every other option kept |
| Session.IndexTools | droid.go:140-149 | accepts exactly tools with distinct non-empty names, and files each under its name |
| Session.Session.constructor | droid.go:119-157 | the session starts on the stored history, with a positive step limit and nothing steered |
| Session.Session.Steer | droid.go:333-337 | the message is queued last; the session's invariant survives |
| Session.Session.Abort | droid.go:341-348 | the context of the active run, if there is one, ends and stays ended |
| Session.Session.AppendMessage | loop.go:551-563 | transcript and storage grow by the same message |
| Session.Session.AppendSteering | loop.go:573-582 | everything steered before is appended and announced, in order, and nothing is lost while more arrives |
| Session.Session.Compact | compaction.go:115-174 | the hook is asked exactly when there is one and it is forced or over the trigger; a failed hook, or a context over by its return, is an error, a declined answer changes nothing, and an offered replacement is installed exactly when it is non-empty, legal, smaller and below the trigger, and an error if not; the events report both usages |
| Session.Session.AskHook | compaction.go:126-173 | the same for one call of the hook, whose answer is the world's at this look: its status, the transcript after it, and its one pair of events |
| Session.Session.JudgeReplacement | compaction.go:145-168 | a replacement is accepted exactly when it is non-empty, legal, strictly smaller and below the trigger |
| Session.Session.StreamTurn | loop.go:251-296 | one request with the transcript as it is; the events are those of the stream from its first start on, and the provider's message, with provider and model filled in, is announced and, unless it is a context-window rejection, stored |
| Session.Session.ExecuteToolsSequential | loop.go:329-341 | the results are those of the first calls in source order, one start and one end each, up to the first call that finds the context over at its end |
| Session.Session.StepGoroutine | loop.go:365-378 | a goroutine's step changes only its own array slot and adds at most its own end event |
| Session.Session.ExecuteToolsParallel | loop.go:343-388 | for any schedule the results are all outcomes in source order, each call has one start before one end event, and all calls are started, and the settled ones ended, before any other ends |
| Session.Session.ExecuteTools | loop.go:298-327 | in sequence exactly when that is the default or a registered tool of the batch asks for it; one result per call in source order, each the outcome of its call, fewer only when a sequential batch was cancelled |
| Session.Session.OpenTurn | loop.go:166-191 | before its turn the first step takes in what was steered, fixes the ground of the first request and compacts if it has to; a later step takes steering in inside its turn; a continuation does neither |
| Session.Session.AskProvider | loop.go:193-215 | a rejected first request of a run that may compact is always followed by an overflow compaction, and by a second request exactly when a replacement was applied |
| Session.Session.RetryAfterOverflow | loop.go:199-215 | the rejected turn is closed and compacted once; a new turn and request follow exactly when a replacement was applied |
| Session.Session.TakeStep | loop.go:146-243 | one step keeps all accounts, takes in what was steered before it, and executes the calls of its reply with the answers of its stream; a context that has ended before its check ends the run as cancelled, without another request |
| Session.Session.RunSteps | loop.go:145-246 | the bounded loop ends the run as one of its stated outcomes, with its accounts kept and every request legal as stated |
| Session.Session.RunPrompt | loop.go:82-247 | the contract of a whole run: dropped or refused without a trace, or run to a grammatical end with its accounts; a continuation runs exactly when the transcript is continuable; the replies are those of its streams, every call of the compaction hook is judged as stated, and compactions come and have effect exactly as stated; what was steered before it is in its first request; requests, transcript and stored log are legal exactly as stated; at most one request after the context ended; an aborted error event exactly after a check that sees the end, or an Aborted answer |
| Session.AbortedExactly | loop.go:149-229 | a run ends with an aborted error event exactly when a check before a step saw its context ended or the last reply is Aborted |
| Session.AbortDuringHook | compaction.go:137-140 | a run whose context ends while the hook works, and whose error event is not an aborted one |
| Session.AbortInLastBatch | loop.go:241-246 | a run whose context ends in the batch of the last allowed step, and which has no aborted error event |
| Session.Session.Serve | loop.go:33-40 | over any sequence of prompts with steering in between, each result and log is that of a run of its prompt on the transcript the earlier ones led to; history, transcript and storage grow by exactly what the runs journalled, and stay legal while every run leaves them so |
| Session.Session.Resume | droid.go:151-157 | a session opened on the same store finds everything ever stored, not the replacement; the same transcript if nothing was replaced |
| Admission.AlwaysInv | droid.go:296-362 | every reachable state of callers, worker, close and drain satisfies the invariant |
| Admission.CompletedOnceInOrder | loop.go:16-43 | in every interleaving, completions are a prefix of the admissions without repetition, and exactly the prompts whose enqueue returned nil are admitted |
| Admission.CompletedMeansServed | run.go:41-56 | in every reachable state a synchronous prompt is completed exactly when its result is in its slot or was received, never both, and a streaming one exactly when its stream is closed |
| Admission.RunsInAdmissionOrder | loop.go:16-43 | runs are the first admitted prompts, and only the one executing is not yet completed |
| Admission.ShutdownCompletesAll | loop.go:48-78 | once the worker has returned, exactly the accepted prompts are completed, every accepted synchronous one has its result and every accepted stream is closed, none is admitted any more, nobody is sending, and the session's channel is closed if anybody asked for it |
| Admission.NothingRunsAfterClose | loop.go:19-31 | a prompt that had not passed the second check when closed was signalled never runs; when the worker has returned, exactly those that had passed it have run |
| Admission.ChannelsSafe | droid.go:169-206 | no interleaving sends on a closed channel, closes one twice or blocks the worker on a result channel |
| Admission.ChannelsOpenWhenUsed | run.go:35-56 | whoever completes a prompt finds its slot empty and its stream open, and an emit finds the channel it chose open |
| Admission.EmitsRouted | droid.go:181-200 | the events of a run go to its own stream if it has one, else to the session's channel once anybody asked for it, else nowhere |
| Admission.CallersProceed | droid.go:296-331 | only the lock, a full queue of 64 and an empty slot hold up a caller, which can always give up |
| Admission.ShutdownAdvances | loop.go:48-64 | after the signal, until the worker has returned, a step towards its return can always be taken |
| Admission.RunStartsAfterClose | loop.go:22-36 | an interleaving in which a run starts although closed has been signalled |
| Admission.HelpingLowersPotential | loop.go:48-64 | after the signal no step raises what is left to do by more than an arriving caller or an emit adds, and every helping step lowers it |
| Admission.HelpingBounded | loop.go:48-64 | in any stretch of an unending run after the signal, the helping steps are bounded by what was left to do plus what arrived and was emitted |
| Admission.ShutdownEnds | loop.go:48-64 | if callers stop arriving, runs stop emitting and helping steps are not put off for ever, the worker returns |
| Namespace.CollectTools | mcp/manager.go:338-359 | a listing is kept exactly when no item failed and the visible tools are well named, distinct and few enough; the table holds exactly the visible tools; a rejection names what is wrong with the first item that spoils it |
| Namespace.Guarded.LookUpTools | mcp/manager.go:325-336 | a hit exactly when open, cached and of the current generation |
| Namespace.Guarded.CommitTools | mcp/manager.go:360-369 | the table is cached only when open and the generation has not moved |
| Namespace.Guarded.InvalidateSession | mcp/manager.go:539-548 | losing the current session empties the fields and moves the generation; losing any other changes nothing |
| Namespace.Guarded.Connect | mcp/manager.go:266-315 | with others coming in between, an open session is reused, and a new one goes over nil unless close came first |
| Namespace.Guarded.LoadTools | mcp/manager.go:317-371 | a hit is returned unchanged; an acceptable listing is returned unless close came first, and cached exactly if the generation has not moved; the session is dropped exactly when the listing lost its connection |
| Namespace.Guarded.Close | mcp/manager.go:497-521 | only the first close goes on; it leaves no session and no tools, and takes the session that was left |
| NamespaceProtocol.AlwaysInv | mcp/manager.go:65-79 | every reachable state satisfies the invariant on mutexes, sessions, closing and cache |
| NamespaceProtocol.SessionChanges | mcp/manager.go:266-315 | a session is installed only over nil and before close; it goes only by its own invalidation or by close, so losing an old one drops no newer one |
| NamespaceProtocol.NothingAfterClose | mcp/manager.go:497-521 | once the first close has finished, session and tools stay nil, and every session ever obtained was closed or had been invalidated |
| NamespaceProtocol.NothingHandedOutOnceClosed | mcp/manager.go:266-371 | after close has begun no operation is handed a session, no lookup hits, no listing is cached, and a session just obtained is closed |
| NamespaceProtocol.OpenSessionReused | mcp/manager.go:266-278 | an open session is handed out as it is, and its holder may list with it |
| NamespaceProtocol.FailedListing | mcp/manager.go:338-346 | a failed listing changes nothing unless the connection was lost; then its session goes, with the tools, if it is still the current one |
| NamespaceProtocol.CloseOnceLoseAnyTime | mcp/manager.go:497-504 | only the first close goes on; notifications, and the loss of any session that was installed, may come at any time |
| NamespaceProtocol.HitExactly | mcp/manager.go:330-334 | a lookup hits exactly when open, cached, and the changes since the cached listing began are a multiple of 2^64 |
| NamespaceProtocol.HitIsFresh | mcp/manager.go:317-371 | a hit returns the table that one operation began to list at one point of the run and committed at a later one; nothing has outdated it since it began exactly when there were fewer than 2^64 changes |
| NamespaceProtocol.StaleHit | mcp/manager.go:291-295 | a reachable run that ends in a hit on a table outdated since its listing began |
| NamespaceProtocol.NoDeadlock | mcp/manager.go:266-325 | while an operation is unfinished, some operation can take its next step |
| NamespaceProtocol.StepsLowerRank | mcp/manager.go:266-371 | each step of an operation brings it closer to its end and touches no other operation |
| Registry.NewProviders | provider.go:59-81 | succeeds exactly for a non-empty list of built providers with distinct ids, and holds exactly those |
| Registry.Registry.RebuildIndex | provider.go:176-191 | for every order of visiting the maps, the index agrees with the owners of each id |
| Registry.IndexMeans | provider.go:176-191 | an id is indexed under a provider exactly when that is its only owner, and ambiguous exactly when it has two |
| Registry.Registry.Find | provider.go:101-121 | finds exactly the model the scan resolves: the one named in full, or else the only one of that id |
| Registry.NamespacedExactly | provider.go:104-112 | "provider/id" resolves to the model itself exactly when its provider's id contains no slash |
| Registry.Registry.Models | provider.go:83-99 | lists every model once and nothing else, strictly increasing by provider and id |
| Registry.BeforeExactly | provider.go:91-97 | models are ordered by the first difference of their provider ids, and of their own ids under one provider |
| Registry.CatalogModels | model_catalog.go:114-130 | the accepted models of one catalog provider filed under their own id, for the given provider, each once and strictly increasing by id |
| Registry.OverlayKeeps | provider.go:160-172 | an overlay removes no provider and no model, replaces only what is listed again, and adds only what is listed |
| Registry.LastListedCounts | provider.go:160-172 | of several models listed under one id an overlay keeps the last |
| Registry.NamesOutliveRefresh | provider.go:127-174 | a model listed before a refresh still answers to its full name after it |
| Registry.Registry.RefreshModels | provider.go:127-174 | whatever other refreshes came between snapshot and overlay: lists exactly what the catalog offers and the models it does not mention, loses no provider and no name, and re-establishes the index; a failed fetch changes nothing |
| OpenAIInput.ToOpenAIInput | provider_openai.go:380-411 | converts exactly the transcripts all of whose blocks are supported, into the items of each message in order; an error names role and index of the first block that is not |
| OpenAIInput.ConvertParts | provider_openai.go:413-483 | converts exactly the contents of supported, valid blocks; an error names the first that is not |
| OpenAIInput.ConvertAssistant | provider_openai.go:485-510 | keeps signed reasoning, messages and non-empty text, and calls only of a reply that stopped for tool use |
| OpenAIInput.ConvertibleExactly | provider_openai.go:413-510 | a message is refused only for a block that nothing could carry: in a reply one that is not text, reasoning or a call, elsewhere one that the checks or its kind rule out |
| OpenAIInput.WireSaysTranscript | provider_openai.go:380-510 | for every convertible transcript the items carry, one by one and in order, exactly its non-empty user messages, its results under their ids, and the signed reasoning, signed or non-empty text and authorized calls of its replies, each with its own text, URL or file |
| OpenAIInput.RepliesOnWire | provider_openai.go:485-499 | the assistant texts on the wire are the non-empty texts of the unsigned text blocks, and the signed items are the accepted signatures, in order |
| OpenAIInput.NoPartialCallReplayed | provider_openai.go:500-505 | for every transcript, the calls among the items are those of the tool-use replies, in order |
| OpenAIInput.CallsPaired | provider_openai.go:380-411 | with complete tool-use batches, calls and outputs come batch by batch: all calls, then their outputs with the same ids in the same order, and nothing else |
| OpenAIInput.LegalIsPaired | provider_openai.go:380-411 | every legal transcript has complete batches, so its calls and outputs are paired |

## Left out

- Provider and MCP network code, stream decoding, request options: oracles that yield events, a final reply, tool listings and sessions.
- JSON, schemas, base64, media types and URL parsing: the translation only asks whether a block is valid (`OpenAIInput.Checks`).
- Timestamps, usage, cost, tool `Details`, reasoning levels and error texts: no control decision of the modelled code reads them, beyond an error's kind.
- Copies and aliasing (`cloneMessages`, `snapshot`): messages are values here, so sharing cannot be observed.
- Failing or slow stores and the 30-second persist timeout: the store accepts every append, and only this session writes to its log.
- The return of `enqueue` for a caller whose context is over before it locks: it touches nothing.
- Event consumers: an emit always completes; what happens when nobody drains a channel is liveness outside the model, and so are the contents of the channels.
- The order in which tool schemas are listed in a request: it comes from a Go map and does not change the estimate.
- Manager-level operations of the MCP package (search, describe, call results): display and forwarding around `connect` and `loadTools`.
- That cached tools came from the installed session: `loadTools` takes the session before it reads the generation, so only the generation-based claim is made.
- `cmd/chat`, the catalog generator and Anthropic translation: user interface, tooling and another network client.
- Admission.AlwaysInv: the machine is a relation on values, one action per channel operation or critical section; the goroutines of one run appear only as emitters.
- NamespaceProtocol.AlwaysInv: the operations are a relation on values; the critical sections they take are also given in place, in the class `Namespace.Guarded`.
- Session.Session.StepGoroutine: a goroutine's tool and after hook answer in one step, and its array write is one step.
- Session.NewSession: the output allowance (`resolveRequestMaxTokens`) is a parameter, and a nil registry or a store that fails to load cannot be expressed.
