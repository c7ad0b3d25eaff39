/** A live agent session: the worker's side of one run, with its transcript, steering, storage and
    events. Providers, hooks and tools answer arbitrarily; other goroutines may steer whenever the
    worker looks at what they can change, and the run context may end at any such look. */
module Session {
  import opened Messages
  import opened Sequences
  import opened Transcript
  import opened Budget
  import opened Events
  import opened RunLog
  import opened ToolBatch
  import opened Storage
  import Registry

  datatype Options = Options(
    systemPrompt: string,
    tools: seq<ToolSchema>,
    setup: Setup,
    mode: ExecutionMode,
    model: Model,
    reserve: int,
    maxSteps: int,
    maxParallelTools: int,
    hasCompact: bool,
    session: string
  )

  const DEFAULT_MAX_STEPS := 16

  // What happens around the session: at which of the worker's looks a run context ends (by its
  // caller, by Abort or by Close) and what the compaction hook returns at a look; and for each
  // provider stream its events, its final message and what hooks and tools answer to its calls.
  datatype World = World(
    ends: nat -> bool,
    hooks: nat -> HookAnswer,
    streams: nat -> seq<StreamEvent>,
    replies: nat -> Assistant,
    tools: nat -> nat -> Answers
  )

  datatype Prompt = Prompt(seed: seq<Message>, continuation: bool)

  datatype RunResult =
    | Dropped
    | CannotContinue(error: ContinuationError)
    | Cancelled(message: Assistant)
    | CompactionFailed(message: Assistant)
    | TurnFailed(message: Assistant)
    | Answered(message: Assistant)
    | StepLimit(message: Assistant)

  // Whether the run got past its admission checks.
  predicate Ran(result: RunResult) {
    !result.Dropped? && !result.CannotContinue?
  }

  function UserText(text: string): Message {
    User([Text(text, "")])
  }

  function AbortedMessage(model: Model): Assistant {
    Assistant([], model.provider, model.id, "", "", Aborted, "context canceled")
  }

  function CompactionErrorMessage(model: Model): Assistant {
    Assistant([], model.provider, model.id, "", "", Error, "compact context")
  }

  // A reply names its provider and model: its own, or those it was asked of.
  function Filled(model: Model, reply: Assistant): (r: Assistant)
    ensures r == reply.(provider := r.provider, model := r.model)
    ensures reply.provider != "" ==> r.provider == reply.provider
    ensures reply.model != "" ==> r.model == reply.model
    ensures reply.provider == "" ==> r.provider == model.provider
    ensures reply.model == "" ==> r.model == model.id
  {
    reply.(provider := if reply.provider == "" then model.provider else reply.provider,
           model := if reply.model == "" then model.id else reply.model)
  }

  // How far a run had come when its context ended.
  datatype Moment = Moment(requests: nat, checks: nat)

  predicate FailingStop(reason: StopReason) {
    reason == Error || reason == ContextWindow || reason == Aborted
  }

  predicate LastReason(log: Log, reason: StopReason) {
    log.replies != [] && log.replies[|log.replies| - 1].stopReason == reason
  }

  // The last call of the compaction hook was an error.
  predicate HookFailedLast(log: Log) {
    log.hooks != [] && log.hooks[|log.hooks| - 1].status == CompactError
  }

  predicate OfModel(model: Model, m: Assistant) {
    m.provider == model.provider && m.model == model.id
  }

  // How a run that started ended: by which last event before AgentEnd, and on what ground. stopSeen
  // says that a check before a step came after the end of the run context. A run that reached the
  // step limit can be continued exactly when the batch of its last reply is well named and complete,
  // and only cancellation makes it incomplete. A run that passes its first check makes a request,
  // unless the threshold compaction fails.
  ghost predicate EndedAs(result: RunResult, log: Log, opts: Options, cancelled: bool, stopSeen: bool) {
    && |log.events| >= 2
    && stopSeen == result.Cancelled?
    && (result.CompactionFailed? <==> HookFailedLast(log))
    && (log.opening.None? <==> result.Cancelled? && log.checks == 1)
    && (log.requests == [] <==> log.opening.None? || ThresholdFails(log.hooks))
    && var before := log.events[|log.events| - 2];
       match result
       case Answered(m) =>
         && LastReply(log, m) && !FailingStop(m.stopReason)
         && (m.stopReason == ToolUse ==> m.ToolCalls() == [])
         && before == TurnEnd(m, [])
       case TurnFailed(m) =>
         LastReply(log, m) && FailingStop(m.stopReason) && before == ErrorEvent(m, m.stopReason == Aborted)
       case Cancelled(m) =>
         && cancelled && before == ErrorEvent(m, true) && m.stopReason == Aborted && m.content == [] && OfModel(opts.model, m)
         && (log.replies == [] || LastReason(log, ToolUse))
       case CompactionFailed(m) =>
         && opts.hasCompact && before == ErrorEvent(m, false) && m.stopReason == Error && m.content == [] && OfModel(opts.model, m)
         && (log.replies == [] || LastReason(log, ContextWindow))
       case StepLimit(m) =>
         && LastReply(log, m) && m.stopReason == ToolUse && m.ToolCalls() != []
         && before.TurnEnd? && before.reply == m
         && |log.requests| == opts.maxSteps + (if Retried(Compactions(log.events)) then 1 else 0)
         && (|before.results| == |m.ToolCalls()| || cancelled)
         && (Continuable(Current(log.start, log.journal))
             <==> WellNamed(m.ToolCalls()) && |before.results| == |m.ToolCalls()|)
       case _ => false
  }

  lemma LimitEnds(before: Log, after: Log, opts: Options, cancelled: bool, last: Assistant, results: seq<Message>)
    requires before.events != [] && before.events[|before.events| - 1] == TurnEnd(last, results)
    requires |after.events| == |before.events| + 1 && after == before.(events := after.events) && before.events <= after.events
    requires LastReply(after, last) && last.stopReason == ToolUse && last.ToolCalls() != []
    requires !HookFailedLast(after) && !ThresholdFails(after.hooks) && after.opening.Some? && after.requests != []
    requires |after.requests| == opts.maxSteps + (if Retried(Compactions(after.events)) then 1 else 0)
    requires |results| == |last.ToolCalls()| || cancelled
    requires Continuable(Current(after.start, after.journal)) <==> WellNamed(last.ToolCalls()) && |results| == |last.ToolCalls()|
    ensures EndedAs(StepLimit(last), after, opts, cancelled, false)
  {
    hide Continuable, Current, Retried, Compactions;
  }

  // The run ended with an aborted error event.
  predicate AbortedEnd(log: Log) {
    |log.events| >= 2 && var before := log.events[|log.events| - 2]; before.ErrorEvent? && before.aborted
  }

  lemma AbortedExactly(result: RunResult, log: Log, opts: Options, cancelled: bool, stopSeen: bool)
    requires EndedAs(result, log, opts, cancelled, stopSeen)
    ensures AbortedEnd(log) <==> stopSeen || LastReason(log, Aborted)
    ensures AbortedEnd(log) <==> result.Cancelled? || (result.TurnFailed? && result.message.stopReason == Aborted)
  {
  }

  // A larger transcript only makes the trigger fire sooner.
  lemma MoreIsOverTrigger(model: Model, reserve: int, systemPrompt: string, tools: seq<ToolSchema>, a: seq<Message>, b: seq<Message>)
    requires OverTrigger(UsageFor(model, reserve, RequestTokens(systemPrompt, tools, a)))
    ensures OverTrigger(UsageFor(model, reserve, RequestTokens(systemPrompt, tools, a + b)))
  {
    BytesAdd(a, b);
  }

  class Session {
    const opts: Options
    const storage: MemoryStorage
    const world: World
    var transcript: seq<Message>
    var steering: seq<Message>
    // A run is active (cancelRun is set), and its context has ended.
    var running: bool
    var cancelled: bool
    // How often the worker has looked at what others can change, and how many streams it has opened.
    var looks: nat
    var streams: nat

    // The history found at the start, and what all earlier runs journalled.
    ghost var loaded: seq<Message>
    ghost var history: seq<Entry>
    // The log of the current run, and when its context ended.
    ghost var log: Log
    ghost var ended: Option<Moment>
    // Everything ever passed to Steer.
    ghost var steered: seq<Message>

    // Storage only grew by what was journalled; the transcript is where the journal leads.
    ghost predicate Durable()
      reads this`transcript, this`log, this`loaded, this`history, storage
    {
      && opts.maxSteps >= 1
      && storage.Contents(opts.session) == loaded + Appended(history) + Appended(log.journal)
      && transcript == Current(log.start, log.journal)
    }

    // Nothing steered is lost, duplicated or reordered.
    ghost predicate SteeringKept()
      reads this`steered, this`steering, this`log, this`history
    {
      && steered == From(history, Steered) + From(log.journal, Steered) + steering
      && AllUser(steering)
    }

    // The part of the Steer history that has been appended to the transcript.
    ghost function Taken(): seq<Message>
      reads this`log, this`history
    {
      From(history, Steered) + From(log.journal, Steered)
    }

    // At most one request is made once the context has ended.
    ghost predicate OnTime()
      reads this`cancelled, this`ended, this`log
    {
      && (cancelled <==> ended.Some?)
      && (ended.Some? ==> ended.value.requests <= |log.requests| <= ended.value.requests + 1 && ended.value.checks <= log.checks)
    }

    // No request and no check has come since the context ended, if it has.
    ghost predicate Fresh()
      reads this`ended, this`log
    {
      ended.Some? ==> ended.value == Moment(|log.requests|, log.checks)
    }

    // A check before a step has come since the context ended.
    ghost predicate StopSeen()
      reads this`ended, this`log
    {
      ended.Some? && ended.value.checks < log.checks
    }

    // The replies of a run are what the last of n provider streams came to, and every call of the
    // hook was judged as it had to be.
    ghost predicate HeedsTo(l: Log, n: nat) {
      && |l.replies| <= n
      && (forall k | 0 <= k < |l.replies| :: l.replies[k] == Filled(opts.model, world.replies(n - |l.replies| + k)))
      && (forall h | h in l.hooks :: Judged(h))
    }

    ghost predicate Heeded()
      reads this`log, this`streams
    {
      HeedsTo(log, streams)
    }

    lemma HeedsAlike(a: Log, b: Log, n: nat)
      requires HeedsTo(a, n) && a.replies == b.replies && a.hooks == b.hooks
      ensures HeedsTo(b, n)
    {
    }

    lemma HeedsOneMore(before: Log, after: Log, n: nat)
      requires HeedsTo(before, n) && after.hooks == before.hooks
      requires after.replies == before.replies + [Filled(opts.model, world.replies(n))]
      ensures HeedsTo(after, n + 1)
    {
    }

    // Between the steps of a run.
    ghost predicate InRun()
      reads this, storage
    {
      Durable() && SteeringKept() && Sound(log) && OnTime() && Heeded()
    }

    // Between runs: the transcript is where the whole journal leads from the loaded history.
    ghost predicate Valid()
      reads this, storage
    {
      && opts.maxSteps >= 1
      && storage.Contents(opts.session) == loaded + Appended(history)
      && transcript == Current(loaded, history)
      && steered == From(history, Steered) + steering
      && AllUser(steering)
    }

    // The sessions of the store that are not this one.
    ghost function OtherSessions(): map<string, seq<Message>>
      reads this, storage
    {
      storage.sessions - {opts.session}
    }

    // What holds between any two moments of a run: cancellation is final and takes effect at the look
    // it comes with, the journal and the Steer history only grow, every stream is a request, and earlier runs and
    // other sessions of the store are left alone.
    twostate predicate Later()
      reads this, storage
    {
      && loaded == old(loaded) && history == old(history) && running == old(running)
      && OtherSessions() == old(OtherSessions())
      && old(steered) <= steered && old(log).journal <= log.journal
      && (old(cancelled) ==> cancelled)
      && old(looks) <= looks && (forall l | old(looks) <= l < looks && world.ends(l) :: cancelled)
      && old(log).checks <= log.checks && |old(log).requests| <= |log.requests|
      && streams - old(streams) == |log.requests| - |old(log).requests|
      && (if old(ended).Some? then ended == old(ended)
          else ended.Some? ==> |old(log).requests| <= ended.value.requests && old(log).checks <= ended.value.checks)
    }

    constructor (options: Options, store: MemoryStorage, around: World)
      ensures Valid() && storage == store && world == around
      ensures opts == options.(maxSteps := if options.maxSteps <= 0 then DEFAULT_MAX_STEPS else options.maxSteps)
      ensures transcript == loaded == store.Contents(options.session)
      ensures history == [] && steered == [] && steering == [] && !running && looks == streams == 0
    {
      opts := options.(maxSteps := if options.maxSteps <= 0 then DEFAULT_MAX_STEPS else options.maxSteps);
      storage, world := store, around;
      steering, running, cancelled, looks, streams := [], false, false, 0, 0;
      history, steered, log, ended := [], [], NewLog([]), None;
      new;
      var found := storage.Load(opts.session);
      transcript, loaded := found, found;
    }

    // ----- what other goroutines do -----

    method Steer(text: string)
      modifies this`steering, this`steered
      ensures steering == old(steering) + [User([Text(text, "")])] && steered == old(steered) + [User([Text(text, "")])]
      ensures old(Valid()) ==> Valid()
    {
      steering, steered := steering + [UserText(text)], steered + [UserText(text)];
    }

    method EndContext()
      modifies this`cancelled, this`ended
      ensures cancelled && ended == if old(ended).Some? then old(ended) else Some(Moment(|log.requests|, log.checks))
    {
      ended := if ended.Some? then ended else Some(Moment(|log.requests|, log.checks));
      cancelled := true;
    }

    method Abort()
      modifies this`cancelled, this`ended
      ensures cancelled == (old(cancelled) || running)
      ensures ended == if old(ended).Some? || !running then old(ended) else Some(Moment(|log.requests|, log.checks))
    {
      if running {
        EndContext();
      }
    }

    method SteerAny()
      modifies this`steering, this`steered
      ensures old(steering) <= steering && old(steered) <= steered
      ensures old(SteeringKept()) ==> SteeringKept()
      ensures old(Valid()) ==> Valid()
    {
      hide FlatMap, Current;
      var n :| 0 <= n;
      for i := 0 to n
        invariant old(steering) <= steering && old(steered) <= steered
        invariant old(SteeringKept()) ==> SteeringKept()
        invariant old(Valid()) ==> Valid()
      {
        var text: string := *;
        Steer(text);
      }
    }

    // A look: any number of Steer calls have come, and the context ends if the world says so.
    method Interfere()
      modifies this`steering, this`steered, this`cancelled, this`ended, this`looks
      ensures Later() && old(steering) <= steering && looks == old(looks) + 1
      ensures cancelled == (old(cancelled) || world.ends(old(looks)))
      ensures ended == if old(ended).Some? || !world.ends(old(looks)) then old(ended) else Some(Moment(|log.requests|, log.checks))
      ensures old(SteeringKept()) ==> SteeringKept()
      ensures old(Durable()) ==> Durable()
      ensures old(OnTime()) ==> OnTime()
      ensures old(Fresh()) ==> Fresh()
    {
      SteerAny();
      if world.ends(looks) {
        if * {
          Abort();
        }
        EndContext();
      }
      looks := looks + 1;
    }

    // ----- the worker's primitives -----

    method Emit(e: Event)
      modifies this`log
      ensures log == old(log).(events := old(log).events + [e])
    {
      log := log.(events := log.events + [e]);
    }

    method AppendMessage(m: Message, ghost origin: Origin)
      requires Durable()
      modifies this`transcript, this`log, storage
      ensures Durable() && OtherSessions() == old(OtherSessions())
      ensures log == old(log).(journal := old(log).journal + [Stored(m, origin)]) && transcript == old(transcript) + [m]
    {
      hide FlatMap, Current;
      transcript := transcript + [m];
      storage.Append(opts.session, [m]);
      log := log.(journal := log.journal + [Stored(m, origin)]);
      ExtendJournal(log.start, old(log).journal, Stored(m, origin));
      Associative(loaded + Appended(history), Appended(old(log).journal), [m]);
    }

    // Append a complete message and announce it.
    method Announce(m: Message, ghost origin: Origin)
      requires Durable() && Sound(log) && Quiet(log) && !m.Reply? && origin != Replied
      modifies this`transcript, this`log, storage
      ensures Durable() && OtherSessions() == old(OtherSessions()) && transcript == old(transcript) + [m]
      ensures Grew(old(log), log, [Stored(m, origin)], [])
      ensures log.events == old(log).events + [MessageStart(m)] + [MessageEnd(m)]
      ensures origin != Steered && old(SteeringKept()) ==> SteeringKept()
    {
      hide FlatMap, Follow, Current, Sound, Quiet, Grew, SamePlace, From, Appended;
      AppendMessage(m, origin);
      Emit(MessageStart(m));
      Emit(MessageEnd(m));
      AnnouncedGrows(old(log), log, m, origin);
      ExtendJournal(log.start, old(log).journal, Stored(m, origin));
    }

    method AnnounceAll(ms: seq<Message>, ghost origin: Origin)
      requires Durable() && Sound(log) && Quiet(log) && origin != Replied && forall m | m in ms :: !m.Reply?
      modifies this`transcript, this`log, storage
      ensures Durable() && OtherSessions() == old(OtherSessions()) && transcript == old(transcript) + ms
      ensures Grew(old(log), log, Tag(ms, origin), [])
      ensures origin != Steered && old(SteeringKept()) ==> SteeringKept()
    {
      hide FlatMap, Follow, Current, Grew, SamePlace;
      GrewNothing(log);
      assert Tag([], origin) == [];
      for i := 0 to |ms|
        invariant Durable() && OtherSessions() == old(OtherSessions()) && transcript == old(transcript) + ms[..i]
        invariant Grew(old(log), log, Tag(ms[..i], origin), [])
        invariant Sound(log) && Quiet(log)
        invariant origin != Steered && old(SteeringKept()) ==> SteeringKept()
      {
        ghost var before := log;
        assert ms[i] in ms;
        Announce(ms[i], origin);
        GrewMore(old(log), before, log, Tag(ms[..i], origin), [Stored(ms[i], origin)], [], []);
        GrewQuiet(before, log, [Stored(ms[i], origin)], []);
        assert Tag(ms[..i + 1], origin) == Tag(ms[..i], origin) + [Stored(ms[i], origin)];
        Associative<Event>([], [], []);
        assert ms[..i + 1] == ms[..i] + [ms[i]];
      }
      assert ms[..|ms|] == ms;
    }

    method DrainSteering() returns (drained: seq<Message>)
      modifies this`steering
      ensures drained == old(steering) && steering == []
    {
      drained := steering;
      steering := [];
    }

    // Drain the pending steering into the transcript.
    method AppendSteering() returns (ghost drained: seq<Message>)
      requires InRun() && Quiet(log)
      modifies this, storage
      ensures InRun() && Later() && looks == old(looks) + 1 && (old(Fresh()) ==> Fresh())
      ensures AllUser(drained) && Grew(old(log), log, Tag(drained, Steered), []) && old(steering) <= drained
      ensures old(steered) <= Taken() && transcript == old(transcript) + drained
    {
      hide FlatMap, Follow, Current, Durable, HeedsTo, Sound, SamePlace;
      Interfere();
      var pending := DrainSteering();
      AnnounceAll(pending, Steered);
      Tagged(log.start, old(log).journal, pending, Steered, Steered);
      HeedsAlike(old(log), log, streams);
      drained := pending;
    }

    // ----- compaction -----

    function UsageOf(ms: seq<Message>): (usage: ContextUsage)
      ensures usage.estimatedInput == RequestTokens(opts.systemPrompt, opts.tools, ms) && usage.reservedOutput == opts.reserve
      ensures usage.contextWindow == opts.model.contextWindow && usage.maxInputTokens == opts.model.maxInputTokens
    {
      UsageFor(opts.model, opts.reserve, RequestTokens(opts.systemPrompt, opts.tools, ms))
    }

    method ContextUsageOf(ms: seq<Message>) returns (usage: ContextUsage)
      ensures usage == UsageOf(ms)
    {
      var input := EstimateRequestTokens(opts.systemPrompt, opts.tools, ms);
      usage := UsageFor(opts.model, opts.reserve, input);
    }

    // What a replacement must be to be installed.
    ghost predicate GoodReplacement(before: seq<Message>, after: seq<Message>) {
      && after != [] && Conversation(after)
      && UsageOf(after).estimatedInput < UsageOf(before).estimatedInput
      && !OverTrigger(UsageOf(after))
      && (opts.model.contextWindow > 0 || opts.model.maxInputTokens > 0 ==> UsageOf(after).remaining > 0)
    }

    // The hook has to be asked: there is one, and it is forced or the estimate is over the trigger.
    ghost predicate AsksHook(force: bool, ms: seq<Message>) {
      opts.hasCompact && (force || OverTrigger(UsageOf(ms)))
    }

    // What becomes of a call of the hook: an error if the hook failed or the context was over; else
    // nothing if it declined; else its replacement is installed if it is a good one, and an error if not.
    ghost predicate Judged(h: HookRun) {
      h.status ==
        if h.answer.HookFailed? || h.cut then CompactError
        else if !h.answer.applied then NotApplied
        else if h.answer.messages != [] && Conversation(h.answer.messages)
                && UsageOf(h.answer.messages).estimatedInput < UsageOf(h.before).estimatedInput
                && !OverTrigger(UsageOf(h.answer.messages)) then Applied
        else CompactError
    }

    // The usage reported after a call: that of an offered legal replacement, and the old one otherwise.
    ghost predicate UsageReported(h: HookRun, after: ContextUsage) {
      after ==
        if h.answer.HookReturned? && !h.cut && h.answer.applied && h.answer.messages != [] && Conversation(h.answer.messages)
        then UsageOf(h.answer.messages) else UsageOf(h.before)
    }

    // The call of the hook that returns at this look.
    function Called(reason: CompactionReason, before: seq<Message>, look: nat, cut: bool, status: CompactStatus): HookRun {
      HookRun(reason, before, world.hooks(look), cut, status)
    }

    // The hook is called when it has to be, and the transcript becomes its replacement when that is
    // installed.
    method Compact(reason: CompactionReason, force: bool) returns (status: CompactStatus, ghost after: ContextUsage)
      requires InRun() && Follow(log.events) == Between
      modifies this`transcript, this`log, this`steering, this`steered, this`cancelled, this`ended, this`looks
      ensures InRun() && Later() && (old(Fresh()) ==> Fresh())
      ensures if AsksHook(force, old(transcript))
              then var h := Called(reason, old(transcript), old(looks), cancelled, status);
                   looks == old(looks) + 1 && Judged(h) && UsageReported(h, after)
                   && Compacted(old(log), log, h, UsageOf(old(transcript)), after)
                   && transcript == if status == Applied then Offered(h) else old(transcript)
              else looks == old(looks) && log == old(log) && status == NotApplied && transcript == old(transcript)
      ensures status == Applied ==> GoodReplacement(old(transcript), transcript)
    {
      hide FlatMap, Follow, Current, Compacted, InRun, Fresh, GoodReplacement, Judged, UsageReported;
      var before := ContextUsageOf(transcript);
      if !opts.hasCompact || (!force && !OverTrigger(before)) {
        return NotApplied, before;
      }
      status, after := AskHook(reason, before);
    }

    // Each call of the hook leaves one pair of events; a context that ends while it runs makes it an error.
    method AskHook(reason: CompactionReason, before: ContextUsage) returns (status: CompactStatus, after: ContextUsage)
      requires InRun() && Follow(log.events) == Between && before == UsageOf(transcript)
      modifies this`transcript, this`log, this`steering, this`steered, this`cancelled, this`ended, this`looks
      ensures InRun() && Later() && (old(Fresh()) ==> Fresh()) && looks == old(looks) + 1
      ensures var h := Called(reason, old(transcript), old(looks), cancelled, status);
              && Judged(h) && UsageReported(h, after) && Compacted(old(log), log, h, before, after)
              && transcript == if status == Applied then Offered(h) else old(transcript)
      ensures status == Applied ==> GoodReplacement(old(transcript), transcript)
    {
      hide FlatMap, Follow, Current, GoodReplacement, Compacted, Durable, SteeringKept, Sound, OnTime, Heeded,
           Fresh;
      status, after := NotApplied, before;
      var look := looks;
      var answer := CallHook(reason, before);
      if !answer.HookReturned? || cancelled {
        status := CompactError;
      } else if answer.applied {
        status, after := JudgeReplacement(before, answer.messages);
      }
      Install(Called(reason, transcript, look, cancelled, status), before, after, old(log));
    }

    // The opening event, and what the hook returns.
    method CallHook(reason: CompactionReason, before: ContextUsage) returns (answer: HookAnswer)
      requires InRun()
      modifies this`log, this`steering, this`steered, this`cancelled, this`ended, this`looks
      ensures Durable() && SteeringKept() && OnTime() && Heeded() && Later() && (old(Fresh()) ==> Fresh()) && looks == old(looks) + 1
      ensures answer == world.hooks(old(looks)) && log == old(log).(events := old(log).events + [CompactionStart(reason, before)])
    {
      hide FlatMap, Follow, Current, Sound, Judged;
      Emit(CompactionStart(reason, before));
      answer := world.hooks(looks);
      Interfere();
    }

    // The replacement, if there is one, and the closing event; the log is that of started plus the opening event.
    method Install(h: HookRun, before: ContextUsage, after: ContextUsage, ghost started: Log)
      requires Durable() && SteeringKept() && OnTime() && Heeded() && Judged(h)
      requires log == started.(events := started.events + [CompactionStart(h.reason, before)])
      requires Sound(started) && Follow(started.events) == Between
      modifies this`transcript, this`log
      ensures InRun() && (old(Fresh()) ==> Fresh())
      ensures transcript == if h.status == Applied then Offered(h) else old(transcript)
      ensures log.requests == started.requests && log.checks == started.checks && started.journal <= log.journal
      ensures Compacted(started, log, h, before, after)
    {
      hide FlatMap, Follow, Current;
      CompactionTagged(started.start, started.journal, h);
      if h.status == Applied {
        transcript := Offered(h);
      }
      log := log.(journal := log.journal + Installation(h), hooks := log.hooks + [h]);
      Emit(CompactionEnd(h.reason, before, after, h.status == Applied));
      CompactionLogged(started, log, h, before, after);
    }

    // The checks on an offered replacement, and the usage to report.
    method JudgeReplacement(before: ContextUsage, messages: seq<Message>) returns (status: CompactStatus, after: ContextUsage)
      requires before == UsageOf(transcript)
      ensures status == Applied || status == CompactError
      ensures status == Applied <==>
        && messages != [] && Conversation(messages)
        && UsageOf(messages).estimatedInput < before.estimatedInput && !OverTrigger(UsageOf(messages))
      ensures after == if messages != [] && Conversation(messages) then UsageOf(messages) else before
      ensures status == Applied ==> GoodReplacement(transcript, messages)
    {
      status, after := CompactError, before;
      if |messages| == 0 {
        return;
      }
      var invalid := ValidateMessageSequence(messages);
      if invalid.Some? {
        return;
      }
      after := ContextUsageOf(messages);
      if after.estimatedInput >= before.estimatedInput || OverTrigger(after) {
        return;
      }
      if opts.model.contextWindow > 0 || opts.model.maxInputTokens > 0 {
        HeadroomBelowTrigger(opts.model, opts.reserve, after.estimatedInput);
      }
      status := Applied;
    }

    // ----- one provider stream -----

    // Relay the events of a provider stream: deltas only once the message has started.
    method RelayStream(stream: seq<StreamEvent>) returns (started: bool)
      requires Follow(log.events) == InTurn
      modifies this`log
      ensures Streaming(old(log).events, log.events, started) && log == old(log).(events := old(log).events + Relayed(stream))
      ensures started <==> FirstStart(stream) < |stream|
    {
      hide FlatMap, Follow;
      started := false;
      ghost var k := FirstStart(stream);
      ghost var was := log.events;
      FlatMapNone(RelayedBy);
      assert k < |stream| ==> stream[k..k] == [];
      for i := 0 to |stream|
        invariant Streaming(was, log.events, started) && (started <==> k < i)
        invariant log == old(log).(events := was + if k < i then FlatMap(RelayedBy, stream[k..i]) else [])
      {
        RelayNext(stream, i);
        ghost var before := log.events;
        match stream[i]
        case StreamStart(partial) =>
          StreamMore(was, log.events, started, MessageStart(Reply(partial)));
          started := true;
          Emit(MessageStart(Reply(partial)));
        case StreamDelta(id) =>
          if started {
            StreamMore(was, log.events, started, MessageDelta(id));
            Emit(MessageDelta(id));
          }
        case StreamDone =>
        case StreamError =>
        assert k <= i ==> log.events == before + RelayedBy(stream[i]);
      }
      assert stream[k..|stream|] == stream[k..];
    }

    // A completed reply is appended unless it is a rejection for an exceeded context window; it is
    // announced in any case.
    method FinishStream(final: Assistant, started: bool, ghost before: Log)
      requires Durable() && SteeringKept() && OnTime() && Fresh()
      requires streams > 0 && final == Filled(opts.model, world.replies(streams - 1)) && HeedsTo(before, streams - 1)
      requires Sound(before) && transcript == Current(before.start, before.journal)
      requires Streaming(before.events, log.events, started) && log == before.(events := log.events)
      modifies this`transcript, this`log, storage
      ensures InRun() && OtherSessions() == old(OtherSessions())
      ensures Heard(before, log, old(transcript), final)
      ensures |log.requests| == |before.requests| + 1 && log.checks == before.checks && before.journal <= log.journal
      ensures log.events == old(log).events + (if started then [] else [MessageStart(Reply(final))]) + [MessageEnd(Reply(final))]
    {
      hide FlatMap, Follow, Current, Streaming, Appended, SamePlace, HeedsTo, Kept, From, Filled;
      ghost var request := transcript;
      if final.stopReason != ContextWindow {
        AppendMessage(Reply(final), Replied);
      }
      if !started {
        StreamMore(before.events, log.events, started, MessageStart(Reply(final)));
        Emit(MessageStart(Reply(final)));
      }
      ghost var streamed := log.events;
      Emit(MessageEnd(Reply(final)));
      log := log.(requests := log.requests + [request], replies := log.replies + [final]);
      assert log.journal == before.journal + KeptEntries(final);
      StreamEnds(before, streamed, log, request, final);
      KeptReply(log.start, before.journal, final);
      HeedsOneMore(before, log, streams - 1);
    }

    // The request carries the transcript as it is.
    method StreamTurn() returns (final: Assistant)
      requires InRun() && Follow(log.events) == InTurn && Fresh()
      modifies this, storage
      ensures InRun() && Later() && looks == old(looks) + 1
      ensures Heard(old(log), log, old(transcript), final) && final == Filled(opts.model, world.replies(old(streams)))
      ensures log.events == old(log).events + Relayed(world.streams(old(streams)))
                            + (if FirstStart(world.streams(old(streams))) < |world.streams(old(streams))| then []
                               else [MessageStart(Reply(final))])
                            + [MessageEnd(Reply(final))]
    {
      hide FlatMap, Follow, Current, Streaming, Heard, Relayed, FirstStart;
      var started := RelayStream(world.streams(streams));
      Interfere();
      final := Filled(opts.model, world.replies(streams));
      streams := streams + 1;
      FinishStream(final, started, old(log));
    }

    // ----- tool batches -----

    method FinalizeToolResult(call: ToolCall, outcome: Outcome) returns (result: Message)
      requires Durable() && Sound(log) && Quiet(log)
      modifies this`transcript, this`log, storage
      ensures Durable() && OtherSessions() == old(OtherSessions())
      ensures result == ResultMessage(call, outcome)
      ensures Grew(old(log), log, [Stored(result, Resulted)], []) && log.journal == old(log).journal + [Stored(result, Resulted)]
      ensures log.events == old(log).events + [MessageStart(result)] + [MessageEnd(result)]
      ensures log.requests == old(log).requests && log.checks == old(log).checks
      ensures Sound(log) && (old(SteeringKept()) ==> SteeringKept()) && (old(OnTime()) ==> OnTime())
      ensures old(Heeded()) ==> Heeded()
    {
      hide FlatMap, Follow, Current, HeedsTo, Sound, SamePlace, Durable, SteeringKept;
      result := ToolResult(call.id, call.name, outcome.output.content, outcome.isError);
      Announce(result, Resulted);
      if old(Heeded()) {
        HeedsAlike(old(log), log, streams);
      }
    }

    // Emit the event of one more mark of a batch that grew the log from base.
    method EmitMark(e: Event, calls: seq<ToolCall>, answers: nat -> Answers, ghost marks: seq<Mark>, ghost mark: Mark, ghost base: Log)
      requires InRun() && mark.i < |calls| && MarkEvents(opts.setup, calls, answers)(mark) == [e]
      requires Follow(base.events) == InTurn && Executed(base, log, opts.setup, calls, answers, [], marks)
      modifies this`log
      ensures InRun() && (old(Fresh()) ==> Fresh()) && Follow(log.events) == InTurn
      ensures log == old(log).(events := old(log).events + [e]) && log.journal == base.journal
      ensures Executed(base, log, opts.setup, calls, answers, [], marks + [mark])
    {
      hide FlatMap, Follow, Current, Executed, Render, MarkEvents;
      ExecutedMark(base, log, opts.setup, calls, answers, [], marks, mark);
      Emit(e);
    }

    // Call i, from its start to its appended result.
    method ExecuteOne(calls: seq<ToolCall>, answers: nat -> Answers, i: nat) returns (result: Message)
      requires i < |calls| && InRun() && Follow(log.events) == InTurn
      modifies this, storage
      ensures InRun() && Later() && looks == old(looks) + 2
      ensures result == ResultMessage(calls[i], RunToolCall(opts.setup, calls[i], answers(i)))
      ensures log.events == old(log).events + [ToolStart(calls[i])] + [ToolEnd(calls[i], RunToolCall(opts.setup, calls[i], answers(i)))]
                            + [MessageStart(result)] + [MessageEnd(result)]
      ensures Executed(old(log), log, opts.setup, calls, answers, [result], [Started(i), Ended(i)])
    {
      hide FlatMap, Follow, Current, Executed, Render, Durable, SteeringKept, Sound, OnTime, Heeded, Grew,
           RunToolCall;
      var call := calls[i];
      ExecutedNone(log, opts.setup, calls, answers);
      EmitMark(ToolStart(call), calls, answers, [], Started(i), log);
      Interfere();
      var outcome := RunToolCall(opts.setup, call, answers(i));
      EmitMark(ToolEnd(call, outcome), calls, answers, [] + [Started(i)], Ended(i), old(log));
      ghost var mid := log;
      result := FinalizeToolResult(call, outcome);
      ExecutedResult(old(log), mid, log, opts.setup, calls, answers, [], result, [] + [Started(i)] + [Ended(i)]);
      assert [] + [Started(i)] + [Ended(i)] == [Started(i), Ended(i)] && [] + [result] == [result];
      Interfere();
    }

    // The batch stops after the first call that finds the context over at its end, and otherwise
    // runs to its end: two looks a call, and none but the last two sees the context end.
    method ExecuteToolsSequential(calls: seq<ToolCall>, answers: nat -> Answers)
      returns (results: seq<Message>, ghost marks: seq<Mark>)
      requires InRun() && Follow(log.events) == InTurn
      modifies this, storage
      ensures InRun() && Later() && looks == old(looks) + 2 * |results|
      ensures |results| <= |calls| && results == ResultMessages(calls, Outcomes(opts.setup, calls, answers))[..|results|]
      ensures calls != [] ==> results != []
      ensures |results| < |calls| ==> cancelled
      ensures old(cancelled) ==> |results| <= 1
      ensures forall l | old(looks) <= l < looks - 2 :: !world.ends(l)
      ensures Executed(old(log), log, opts.setup, calls, answers, results, marks)
      ensures Paired(marks, |results|)
      ensures |marks| == 2 * |results| && forall k | 0 <= k < |results| :: marks[2 * k] == Started(k) && marks[2 * k + 1] == Ended(k)
    {
      hide FlatMap, Follow, Current, Durable, SteeringKept, Sound, OnTime, Heeded, Executed, Paired;
      results, marks := [], [];
      ExecutedNone(log, opts.setup, calls, answers);
      PairedNone();
      for i := 0 to |calls|
        invariant InRun() && Later() && Follow(log.events) == InTurn && looks == old(looks) + 2 * i && (i > 0 ==> !cancelled)
        invariant |results| == i && results == ResultMessages(calls, Outcomes(opts.setup, calls, answers))[..i]
        invariant Executed(old(log), log, opts.setup, calls, answers, results, marks)
        invariant Paired(marks, i)
        invariant |marks| == 2 * i && forall k | 0 <= k < i :: marks[2 * k] == Started(k) && marks[2 * k + 1] == Ended(k)
      {
        ghost var before := log;
        var result := ExecuteOne(calls, answers, i);
        ExecutedTwice(old(log), before, log, opts.setup, calls, answers, results, [result], marks, [Started(i), Ended(i)]);
        ExecutedPhase(before, log, opts.setup, calls, answers, [result], [Started(i), Ended(i)]);
        PairedNext(marks, i);
        marks := marks + [Started(i), Ended(i)];
        results := results + [result];
        if cancelled {
          return;
        }
      }
    }

    // What holds after n calls have been started: settled ones are in their slots and ended.
    ghost predicate Starting(
      calls: seq<ToolCall>, answers: nat -> Answers, outcomes: array<Option<Outcome>>, b: Batch, n: nat, base: Log)
      reads this, outcomes
    {
      && outcomes.Length == |calls| && n <= |calls|
      && Follow(base.events) == Follow(log.events) == InTurn && log.journal == base.journal
      && Preflighted(opts.setup, calls, answers, b, n) && |b.stages| == |b.outcomes| == n
      && (forall k | 0 <= k < |calls| :: outcomes[k] == if k < n then b.outcomes[k] else None)
      && b.marks == PreflightMarks(opts.setup, answers, n)
      && Executed(base, log, opts.setup, calls, answers, [], b.marks)
    }

    // Start every call in order and settle those the before hook answers for.
    method Preflight(calls: seq<ToolCall>, answers: nat -> Answers, outcomes: array<Option<Outcome>>) returns (b: Batch)
      requires InRun() && Follow(log.events) == InTurn && outcomes.Length == |calls|
      requires forall k | 0 <= k < |calls| :: outcomes[k] == None
      modifies this`log, this`steering, this`steered, this`cancelled, this`ended, this`looks, outcomes
      ensures InRun() && Later() && Follow(log.events) == InTurn && (calls != [] ==> looks > old(looks))
      ensures Preflighted(opts.setup, calls, answers, b, |calls|) && outcomes[..] == b.outcomes
      ensures b.marks == PreflightMarks(opts.setup, answers, |calls|)
      ensures Executed(old(log), log, opts.setup, calls, answers, [], b.marks)
    {
      hide FlatMap, Follow, Current, Executed, Preflighted, InRun;
      assert Sound(log) by {
        SoundInRun();
      }
      b := Batch([], [], []);
      PreflightNone(opts.setup, calls, answers);
      ExecutedNone(log, opts.setup, calls, answers);
      for i := 0 to |calls|
        invariant InRun() && Later() && (i > 0 ==> looks > old(looks))
        invariant Starting(calls, answers, outcomes, b, i, old(log))
      {
        b := PreflightOne(calls, answers, outcomes, b, i, old(log));
      }
    }

    lemma SoundInRun()
      requires InRun()
      ensures Sound(log)
    {
    }

    method PreflightOne(
      calls: seq<ToolCall>, answers: nat -> Answers, outcomes: array<Option<Outcome>>, b: Batch, i: nat, ghost base: Log)
      returns (c: Batch)
      requires InRun() && i < |calls| && Starting(calls, answers, outcomes, b, i, base)
      modifies this`log, this`steering, this`steered, this`cancelled, this`ended, this`looks, outcomes
      ensures InRun() && Later() && looks > old(looks)
      ensures Starting(calls, answers, outcomes, c, i + 1, base)
    {
      hide FlatMap, Follow, Current, Executed, Render, Preflighted, MarksInv, Durable, SteeringKept, Sound, OnTime,
           Heeded, BeforeTool, ExecuteAndAfter;
      EmitMark(ToolStart(calls[i]), calls, answers, b.marks, Started(i), base);
      Interfere();
      var settled := BeforeTool(opts.setup, answers(i));
      PreflightNext(opts.setup, calls, answers, b, i);
      if settled.Some? {
        outcomes[i] := settled;
        EmitMark(ToolEnd(calls[i], settled.value), calls, answers, b.marks + [Started(i)], Ended(i), base);
        assert b.marks + [Started(i)] + [Ended(i)] == b.marks + [Started(i), Ended(i)];
      }
      c := PreflightCall(b, settled);
    }

    // What holds while goroutines run: the array holds the outcomes written so far, and the log has
    // grown from base by exactly the tool events of the marks.
    ghost predicate Joining(calls: seq<ToolCall>, answers: nat -> Answers, outcomes: array<Option<Outcome>>, b: Batch, base: Log)
      reads this, outcomes
    {
      && Follow(base.events) == InTurn && log.journal == base.journal
      && BatchInv(opts.maxParallelTools, Outcomes(opts.setup, calls, answers), b)
      && outcomes[..] == b.outcomes
      && (forall k | 0 <= k < |calls| && b.stages[k] != Finished :: BeforeTool(opts.setup, answers(k)).None?)
      && Executed(base, log, opts.setup, calls, answers, [], b.marks)
      && PreflightMarks(opts.setup, answers, |calls|) <= b.marks
    }

    // One step of goroutine i; only its own slot is written.
    method StepGoroutine(
      calls: seq<ToolCall>, answers: nat -> Answers, outcomes: array<Option<Outcome>>, b: Batch, i: nat, ghost base: Log)
      returns (c: Batch)
      requires InRun() && Joining(calls, answers, outcomes, b, base) && Enabled(opts.maxParallelTools, b, i)
      modifies this`log, this`steering, this`steered, this`cancelled, this`ended, this`looks, outcomes
      ensures InRun() && Later() && Joining(calls, answers, outcomes, c, base)
      ensures Measure(c.stages) < Measure(b.stages)
      ensures forall k | 0 <= k < outcomes.Length && k != i :: outcomes[k] == old(outcomes[k])
    {
      hide FlatMap, Follow, Current, Executed, Render, MarksInv, InOrder, Occupied, Measure, Durable, SteeringKept,
           Sound, OnTime, Heeded;
      ghost var expected := Outcomes(opts.setup, calls, answers);
      StepKeepsInv(opts.maxParallelTools, expected, b, i);
      Interfere();
      var outcome := ExecuteAndAfter(opts.setup, calls[i], answers(i));
      if b.stages[i] == Running {
        outcomes[i] := Some(outcome);
      } else if b.stages[i] == Written {
        EmitMark(ToolEnd(calls[i], outcomes[i].value), calls, answers, b.marks, Ended(i), base);
      }
      c := Step(b, i, outcome);
    }

    // Any schedule of the goroutines, from the spawning of the first to the join.
    method RunGoroutines(
      calls: seq<ToolCall>, answers: nat -> Answers, outcomes: array<Option<Outcome>>, preflighted: Batch, ghost base: Log)
      returns (ghost marks: seq<Mark>)
      requires InRun() && outcomes.Length == |calls|
      requires Preflighted(opts.setup, calls, answers, preflighted, |calls|) && outcomes[..] == preflighted.outcomes
      requires Follow(base.events) == InTurn && base.journal == log.journal
      requires Executed(base, log, opts.setup, calls, answers, [], preflighted.marks)
      requires preflighted.marks == PreflightMarks(opts.setup, answers, |calls|)
      modifies this`log, this`steering, this`steered, this`cancelled, this`ended, this`looks, outcomes
      ensures InRun() && Later()
      ensures forall k | 0 <= k < |calls| :: outcomes[k] == Some(RunToolCall(opts.setup, calls[k], answers(k)))
      ensures Paired(marks, |calls|) && PreflightMarks(opts.setup, answers, |calls|) <= marks
      ensures Executed(base, log, opts.setup, calls, answers, [], marks)
    {
      hide FlatMap, Follow, Current, Executed, Render, MarksInv, InOrder, Occupied, Measure, RunToolCall;
      var b := preflighted;
      PreflightEstablishesInv(opts.maxParallelTools, opts.setup, calls, answers, b);
      while !AllFinished(b)
        invariant InRun() && Later() && Joining(calls, answers, outcomes, b, base)
        decreases Measure(b.stages)
      {
        ghost var enabled := Progress(opts.maxParallelTools, Outcomes(opts.setup, calls, answers), b);
        var i: nat :| Enabled(opts.maxParallelTools, b, i);
        b := StepGoroutine(calls, answers, outcomes, b, i, base);
      }
      FinishedBatch(opts.maxParallelTools, Outcomes(opts.setup, calls, answers), b);
      marks := b.marks;
    }

    method ExecuteToolsParallel(calls: seq<ToolCall>, answers: nat -> Answers)
      returns (results: seq<Message>, ghost marks: seq<Mark>)
      requires InRun() && Follow(log.events) == InTurn
      modifies this, storage
      ensures InRun() && Later() && (calls != [] ==> looks > old(looks))
      ensures results == ResultMessages(calls, Outcomes(opts.setup, calls, answers))
      ensures Executed(old(log), log, opts.setup, calls, answers, results, marks)
      ensures Paired(marks, |calls|) && PreflightMarks(opts.setup, answers, |calls|) <= marks
    {
      hide FlatMap, Follow, Current, Executed, Render, Preflighted, Durable, SteeringKept, Sound, OnTime, Heeded;
      var outcomes := new Option<Outcome>[|calls|](_ => None);
      var b := Preflight(calls, answers, outcomes);
      ExecutedInTurn(old(log), log, opts.setup, calls, answers, b.marks);
      marks := RunGoroutines(calls, answers, outcomes, b, old(log));
      ExecutedInTurn(old(log), log, opts.setup, calls, answers, marks);
      results := FinalizeInOrder(calls, answers, outcomes, marks, old(log));
    }

    // The results of a joined batch, in source order.
    method FinalizeInOrder(
      calls: seq<ToolCall>, answers: nat -> Answers, outcomes: array<Option<Outcome>>, ghost marks: seq<Mark>, ghost base: Log)
      returns (results: seq<Message>)
      requires InRun() && Follow(log.events) == InTurn && outcomes.Length == |calls|
      requires forall k | 0 <= k < |calls| :: outcomes[k] == Some(RunToolCall(opts.setup, calls[k], answers(k)))
      requires Executed(base, log, opts.setup, calls, answers, [], marks)
      modifies this`transcript, this`log, storage
      ensures InRun() && Later()
      ensures results == ResultMessages(calls, Outcomes(opts.setup, calls, answers))
      ensures Executed(base, log, opts.setup, calls, answers, results, marks)
    {
      hide FlatMap, Follow, Current, Executed, Render, Durable, SteeringKept, Sound, OnTime, Heeded, RunToolCall;
      results := [];
      for i := 0 to |calls|
        invariant InRun() && Later() && Follow(log.events) == InTurn
        invariant |results| == i && results == ResultMessages(calls, Outcomes(opts.setup, calls, answers))[..i]
        invariant Executed(base, log, opts.setup, calls, answers, results, marks)
      {
        ghost var mid := log;
        var result := FinalizeToolResult(calls[i], outcomes[i].value);
        ExecutedResult(base, mid, log, opts.setup, calls, answers, results, result, marks);
        GrewPlace(mid, log, [Stored(result, Resulted)], []);
        results := results + [result];
      }
    }

    // A batch runs in sequence when that is the default or some registered tool in it asks for it.
    // The results come in source order, one per call; only a sequential batch can be cut short, after
    // the first call that finds the context over at its end. A parallel one starts all its calls first.
    method ExecuteTools(calls: seq<ToolCall>, answers: nat -> Answers) returns (results: seq<Message>, ghost marks: seq<Mark>)
      requires InRun() && Follow(log.events) == InTurn && calls != []
      modifies this, storage
      ensures InRun() && Later() && looks > old(looks)
      ensures RanInOrder(opts.setup, Execution(calls, answers, results, marks))
      ensures Executed(old(log), log, opts.setup, calls, answers, results, marks)
      ensures |results| < |calls| ==> cancelled
      ensures if opts.mode == Sequential || (exists i | 0 <= i < |calls| ::
                   calls[i].name in opts.setup.tools && opts.setup.tools[calls[i].name] == Sequential)
              then && (old(cancelled) ==> |results| == 1)
                   && (forall l | old(looks) <= l < old(looks) + 2 * (|results| - 1) :: !world.ends(l))
                   && forall k | 0 <= k < |results| :: 2 * k + 1 < |marks| && marks[2 * k] == Started(k) && marks[2 * k + 1] == Ended(k)
              else |results| == |calls| && PreflightMarks(opts.setup, answers, |calls|) <= marks
    {
      hide FlatMap, Follow, Current, Executed, Render, Durable, SteeringKept, Sound, OnTime, Heeded;
      if BatchIsSequential(opts.setup, opts.mode, calls) {
        results, marks := ExecuteToolsSequential(calls, answers);
      } else {
        results, marks := ExecuteToolsParallel(calls, answers);
      }
    }

    // ----- the run -----

    function TermsOf(prompt: Prompt): Terms {
      Terms(prompt.seed, opts.setup, opts.hasCompact, prompt.continuation, ms => OverTrigger(UsageOf(ms)))
    }

    // After n answered provider steps, with all accounts kept and all requests as legal as stated.
    ghost predicate Going(prompt: Prompt, n: nat)
      reads this, storage
    {
      InRun() && LegalSoFar(log) && Progressed(log, TermsOf(prompt), n)
    }

    // Later in the same step.
    twostate predicate Onward()
      reads this, storage
    {
      Later() && log.start == old(log).start && log.checks == old(log).checks
    }

    // Emit an event that completes no message, tool or compaction and reports no results.
    method Say(e: Event, prompt: Prompt, ghost n: nat)
      requires Going(prompt, n)
      requires CompletedBy(e) == [] && CompactedBy(e) == [] && ReportedBy(e) == [] && ToolEventsBy(e) == [] && RepliesBy(e) == []
      modifies this`log
      ensures Going(prompt, n) && log == old(log).(events := old(log).events + [e])
      ensures Follow(log.events) == Advance(Follow(old(log).events), e) && Compactions(log.events) == Compactions(old(log).events)
      ensures Turns(log.events) == Turns(old(log).events) + TurnsBy(e)
      ensures (Stands(old(log)) ==> Stands(log)) && (Settled(old(log)) ==> Settled(log))
    {
      hide FlatMap, Follow, Current, Progressed, LegalSoFar, Stands, Settled, HeedsTo, Sound, From, Appended,
           TermsOf, UsageOf;
      SayKeepsProgress(log, e, TermsOf(prompt), n);
      Emit(e);
      HeedsAlike(old(log), log, streams);
    }

    // Nothing but user messages and replacements so far, and no call of the hook for an overflow.
    ghost predicate Opening()
      reads this`log
    {
      OnlyUsers(log.journal) && ThresholdAtMost(Compactions(log.events)) && !Overflows(log.hooks)
    }

    // A step needs no more of the hook: an overflow, if there was one, is behind it.
    ghost predicate SettledOverflow()
      reads this`log
    {
      Overflows(log.hooks) ==> log.hooks[|log.hooks| - 1].status == Applied
    }

    // The run can make a request: on the first ground if it is the first, and no call of the hook
    // stands in its way.
    ghost predicate Ready(prompt: Prompt, first: bool)
      reads this`log, this`transcript
    {
      && HooksInOrder(log, TermsOf(prompt)) && TurnsEnded(log, false) && log.opening.Some?
      && !HookFailedLast(log) && !ThresholdFails(log.hooks)
      && (log.requests == [] <==> first) && (log.replies == [] <==> first)
      && (first ==> Opening() && transcript == FirstGround(log))
      && SettledOverflow()
    }

    // As long as the context has not ended, nothing came after its end.
    lemma FreshWhileRunning()
      requires InRun() && !cancelled
      ensures Fresh() && !StopSeen()
    {
    }

    // The context ends while the hook works on a transcript that has to be compacted: the check at
    // look `at` and the drain after it are followed by the hook.
    ghost predicate HookCutShort(prompt: Prompt, ms: seq<Message>, at: nat) {
      AsksHook(false, ms) && !prompt.continuation && !world.ends(at) && world.ends(at + 2)
    }

    // Before the request of a step: steering joins the transcript (before the turn on the first
    // step, inside it later), and the first step may compact. Continuations do neither.
    method OpenTurn(step: nat, prompt: Prompt) returns (failed: bool)
      requires AtStep(prompt, step) && !cancelled
      modifies this, storage
      ensures Going(prompt, step) && Onward() && Stands(log) && Fresh()
      ensures log.replies == old(log).replies && log.requests == old(log).requests && TurnsEnded(log, false)
      ensures log.executions == old(log).executions
      ensures if failed
              then step == 0 && Follow(log.events) == Between && HookFailedLast(log) && ThresholdFails(log.hooks)
                   && HooksInOrder(log, TermsOf(prompt)) && log.opening.Some? && opts.hasCompact
                   && log.replies == [] && log.requests == []
              else Follow(log.events) == InTurn && Ready(prompt, step == 0)
      ensures step > 0 ==> log.opening == old(log).opening
      ensures step == 0 ==> TookSteering(prompt, old(steered))
      ensures !failed && step == 0 ==> log.events[|log.events| - 1] == TurnStart
      ensures step > 0 ==> |old(log).events| < |log.events| && log.events[..|old(log).events| + 1] == old(log).events + [TurnStart]
      ensures !prompt.continuation ==> old(steered) <= Taken() && looks > old(looks)
      ensures prompt.continuation ==> log.journal == old(log).journal && looks == old(looks)
      ensures step == 0 && !prompt.continuation && AsksHook(false, old(transcript)) && world.ends(old(looks) + 1) ==>
        failed && cancelled
      ensures !opts.hasCompact ==> !failed
    {
      hide FlatMap, Follow, Current, Progressed, LegalSoFar, Stands, Settled, InRun, AsksHook, OnlyUsers,
           HooksInOrder, Took, TermsOf, UsageOf;
      failed := false;
      if step == 0 {
        failed := OpenFirst(prompt);
        if !failed {
          ghost var begun := log;
          StartTurn(prompt, 0);
          TookStays(prompt, old(steered), begun);
        }
      } else {
        OpenLater(step, prompt);
      }
    }

    method StartTurn(prompt: Prompt, ghost n: nat)
      requires Going(prompt, n) && Follow(log.events) == Between && TurnsEnded(log, false)
      modifies this`log
      ensures Going(prompt, n) && log == old(log).(events := old(log).events + [TurnStart]) && Follow(log.events) == InTurn
      ensures TurnsEnded(log, false) && Compactions(log.events) == Compactions(old(log).events)
      ensures (Stands(old(log)) ==> Stands(log)) && (HooksInOrder(old(log), TermsOf(prompt)) ==> HooksInOrder(log, TermsOf(prompt)))
    {
      hide FlatMap, Follow, Current, Progressed, LegalSoFar, Stands, Settled, InRun, HooksInOrder, TermsOf, UsageOf;
      Say(TurnStart, prompt, n);
      assert Turns(old(log).events) + [] == Turns(old(log).events);
      SameHooks(old(log), log, TermsOf(prompt));
    }

    // A later step picks up inside its turn what was steered since.
    method OpenLater(step: nat, prompt: Prompt)
      requires AtStep(prompt, step) && !cancelled && step > 0
      modifies this, storage
      ensures Going(prompt, step) && Onward() && Stands(log) && Fresh()
      ensures log.replies == old(log).replies && log.requests == old(log).requests && log.executions == old(log).executions
      ensures Follow(log.events) == InTurn && Ready(prompt, false) && log.opening == old(log).opening
      ensures |old(log).events| < |log.events| && log.events[..|old(log).events| + 1] == old(log).events + [TurnStart]
      ensures !prompt.continuation ==> old(steered) <= Taken() && looks > old(looks)
      ensures prompt.continuation ==> log.journal == old(log).journal && looks == old(looks)
    {
      hide FlatMap, Follow, Current, Progressed, LegalSoFar, Stands, Settled, InRun, AsksHook, OnlyUsers,
           HooksInOrder, TermsOf, UsageOf;
      FreshWhileRunning();
      StartTurn(prompt, step);
      if !prompt.continuation {
        ghost var started := log;
        ghost var drained := SteerIn(prompt, step);
        SameHooks(started, log, TermsOf(prompt));
        assert started.events <= log.events;
      }
    }

    // The pending steering joins the transcript.
    method SteerIn(prompt: Prompt, ghost n: nat) returns (ghost drained: seq<Message>)
      requires Going(prompt, n) && Quiet(log) && Stands(log) && !prompt.continuation && !cancelled
      modifies this, storage
      ensures Going(prompt, n) && Onward() && Stands(log) && Fresh() && looks == old(looks) + 1
      ensures Follow(log.events) == Follow(old(log).events) && Compactions(log.events) == Compactions(old(log).events)
      ensures Turns(log.events) == Turns(old(log).events) && old(log).events <= log.events
      ensures log == old(log).(events := log.events, journal := old(log).journal + Tag(drained, Steered))
      ensures transcript == old(transcript) + drained && From(log.journal, Steered) == From(old(log).journal, Steered) + drained
      ensures OnlyUsers(old(log).journal) ==> OnlyUsers(log.journal)
      ensures old(steered) <= Taken() && (AsksHook(false, old(transcript)) ==> AsksHook(false, transcript))
    {
      hide FlatMap, Follow, Current, Progressed, LegalSoFar, Stands, Durable, SteeringKept, Sound, Heeded,
           OnlyUsers;
      drained := AppendSteering();
      SteeringKeepsProgress(old(log), log, drained, TermsOf(prompt), n);
      Tagged(log.start, old(log).journal, drained, Steered, Steered);
      if AsksHook(false, old(transcript)) {
        MoreIsOverTrigger(opts.model, opts.reserve, opts.systemPrompt, opts.tools, old(transcript), drained);
      }
    }

    // The ground of the first step is fixed, and compacted if it has to be.
    method OpenFirst(prompt: Prompt) returns (failed: bool)
      requires AtStep(prompt, 0) && !cancelled
      modifies this, storage
      ensures Going(prompt, 0) && Onward() && Stands(log) && Fresh() && Follow(log.events) == Between
      ensures log.replies == old(log).replies && log.requests == old(log).requests && TurnsEnded(log, false)
      ensures log.executions == old(log).executions
      ensures if failed
              then && HookFailedLast(log) && ThresholdFails(log.hooks) && HooksInOrder(log, TermsOf(prompt))
                   && log.opening.Some? && opts.hasCompact
              else Ready(prompt, true)
      ensures !prompt.continuation ==> old(steered) <= Taken() && looks > old(looks)
      ensures TookSteering(prompt, old(steered))
      ensures !opts.hasCompact ==> !failed
      ensures prompt.continuation ==> log.journal == old(log).journal && looks == old(looks)
      ensures !prompt.continuation && AsksHook(false, old(transcript)) && world.ends(old(looks) + 1) ==> failed && cancelled
    {
      hide FlatMap, Follow, Current, Progressed, LegalSoFar, Stands, Settled, Durable, SteeringKept, Sound, Heeded,
           OnlyUsers, OpensAsFound, HooksInOrder, FirstGround, UsageOf;
      failed := false;
      ghost var drained: seq<Message> := [];
      if !prompt.continuation {
        drained := SteerIn(prompt, 0);
      }
      FixOpening(prompt, drained);
      if !prompt.continuation {
        failed := CompactFirst(prompt);
      } else {
        NoCallsYet(prompt, 0);
        OpensInOrder(log, TermsOf(prompt));
      }
    }

    // The transcript of the first step, for the record.
    ghost method FixOpening(prompt: Prompt, drained: seq<Message>)
      requires Going(prompt, 0) && log.opening.None? && transcript == log.start + prompt.seed + drained
      requires drained == From(log.journal, Steered)
      modifies this`log
      ensures Going(prompt, 0) && log == old(log).(opening := Some(transcript))
      ensures (Stands(old(log)) ==> Stands(log)) && (Fresh() <==> old(Fresh()))
    {
      hide FlatMap, Follow, Current, Progressed, LegalSoFar, Stands, HeedsTo, Sound, From;
      OpeningKeeps(log, drained, TermsOf(prompt), 0);
      log := log.(opening := Some(transcript));
      HeedsAlike(old(log), log, streams);
    }

    // The threshold compaction of the first step, which fixes the ground of the first request.
    method CompactFirst(prompt: Prompt) returns (failed: bool)
      requires Going(prompt, 0) && Follow(log.events) == Between && Stands(log) && !prompt.continuation && Fresh()
      requires log.opening == Some(transcript) && log.hooks == [] && log.requests == [] && log.replies == []
      requires OnlyUsers(log.journal) && TurnsEnded(log, false)
      modifies this, storage
      ensures Going(prompt, 0) && Onward() && Stands(log) && Fresh() && Follow(log.events) == Between
      ensures log.replies == [] && log.requests == [] && TurnsEnded(log, false) && log.opening == Some(old(transcript))
      ensures log.executions == old(log).executions
      ensures Taken() == old(Taken())
      ensures if failed
              then HookFailedLast(log) && ThresholdFails(log.hooks) && HooksInOrder(log, TermsOf(prompt)) && opts.hasCompact
              else Ready(prompt, true)
      ensures !opts.hasCompact ==> !failed
      ensures AsksHook(false, old(transcript)) && world.ends(old(looks)) ==> failed && cancelled
    {
      hide FlatMap, Follow, Current, Progressed, LegalSoFar, Stands, Durable, SteeringKept, Sound, Heeded,
           OnlyUsers, HooksInOrder, FirstGround, Judged, Compacted, GoodReplacement, Compactions, OnTime, UsageOf;
      NoCallsYet(prompt, 0);
      ghost var before := log;
      ghost var prior := transcript;
      ghost var look := looks;
      var status, after := Compact(Threshold, false);
      failed := status == CompactError;
      if AsksHook(false, prior) {
        ghost var h := Called(Threshold, prior, look, cancelled, status);
        if cancelled {
          CutShort(h);
        }
        if status == Applied {
          ReplacementIsLegal(prior, transcript);
        }
        CompactionKeepsProgress(before, log, h, UsageOf(prior), after, TermsOf(prompt), 0);
        CalledOnce(before, log, h, UsageOf(prior), after);
        ThresholdInOrder(log, h, TermsOf(prompt));
        assert Compactions(log.events) == CallOf(h);
      } else {
        OpensInOrder(log, TermsOf(prompt));
      }
    }

    lemma CutShort(h: HookRun)
      requires Judged(h) && h.cut
      ensures h.status == CompactError
    {
    }

    lemma NoCallsYet(prompt: Prompt, n: nat)
      requires Going(prompt, n) && log.hooks == []
      ensures Compactions(log.events) == []
    {
      hide Follow, Current;
    }

    // The log answers the request of `asked` with reply, inside a turn.
    ghost predicate Answering(asked: Log, reply: Assistant)
      reads this`log
    {
      && Follow(log.events) == InTurn && Stands(asked) && asked.start == log.start
      && Heard(asked, log, Current(asked.start, asked.journal), reply)
    }

    predicate AsksForTools(reply: Assistant) {
      reply.stopReason == ToolUse && reply.ToolCalls() != []
    }

    // One request on standing ground.
    method Ask(prompt: Prompt, ghost n: nat) returns (msg: Assistant)
      requires Going(prompt, n) && Follow(log.events) == InTurn && Stands(log) && Fresh() && TurnsEnded(log, false)
      modifies this, storage
      ensures Going(prompt, n + 1) && Onward() && looks > old(looks)
      ensures Answering(old(log), msg)
      ensures log.replies == old(log).replies + [msg] && log.requests == old(log).requests + [old(transcript)]
      ensures Compactions(log.events) == Compactions(old(log).events) && TurnsEnded(log, true)
      ensures log.hooks == old(log).hooks && log.opening == old(log).opening && log.executions == old(log).executions
      ensures msg.stopReason == ContextWindow ==> Stands(log) && log.journal == old(log).journal && transcript == old(transcript)
      ensures !AsksForTools(msg) ==> Settled(log)
      ensures msg == Filled(opts.model, world.replies(old(streams)))
    {
      hide FlatMap, Follow, Current, Progressed, LegalSoFar, Stands, Settled;
      msg := StreamTurn();
      RequestKeepsProgress(old(log), log, msg, TermsOf(prompt), n);
      assert log.replies[..|log.replies| - 1] == old(log).replies;
    }

    // An overflow on the first step closes its turn and asks for compaction; if a replacement was
    // installed, a new turn retries once. asked is the log at the retried request.
    method RetryAfterOverflow(rejected: Assistant, prompt: Prompt)
      returns (msg: Assistant, overflowTurnEnded: bool, failed: bool, ghost asked: Log)
      requires Overflowed(rejected, prompt)
      modifies this, storage
      ensures Going(prompt, 1) && Onward() && LastReply(log, msg)
      ensures log.opening == old(log).opening && log.executions == old(log).executions
      ensures HooksInOrder(log, TermsOf(prompt)) && !ThresholdFails(log.hooks)
      ensures failed || overflowTurnEnded ==>
        Follow(log.events) == Between && msg == rejected && Stands(log) && TurnsEnded(log, false)
      ensures failed <==> HookFailedLast(log)
      ensures !failed && !overflowTurnEnded ==>
        Answering(asked, msg) && TurnsEnded(log, true) && SettledOverflow() && (!AsksForTools(msg) ==> Settled(log))
    {
      hide FlatMap, Follow, Current, Progressed, LegalSoFar, Stands, Settled, Heard, InRun, OnlyUsers, HooksInOrder,
           OverflowDue, CompactionsOf, Answering, TermsOf, UsageOf;
      msg, overflowTurnEnded, asked := rejected, true, log;
      ghost var due := log;
      var applied;
      ghost var h;
      applied, failed, h := CompactAfter(rejected, prompt);
      if applied {
        StartTurn(prompt, 0);
        asked := log;
        msg := Ask(prompt, 0);
        overflowTurnEnded := false;
      }
      OverflowInOrder(due, log, h, TermsOf(prompt));
    }

    // The first request was rejected, and there is a hook to ask.
    ghost predicate Overflowed(rejected: Assistant, prompt: Prompt)
      reads this, storage
    {
      && Going(prompt, 1) && Follow(log.events) == InTurn && Stands(log) && opts.hasCompact && !prompt.continuation
      && Opening() && log.replies == [rejected] && rejected.stopReason == ContextWindow && TurnsEnded(log, true)
      && log.requests == [transcript] && OverflowDue(log, TermsOf(prompt))
    }

    // The rejected attempt is closed and compaction asked for. A replacement frees the step again.
    method CompactAfter(rejected: Assistant, prompt: Prompt) returns (applied: bool, failed: bool, ghost h: HookRun)
      requires Overflowed(rejected, prompt)
      modifies this, storage
      ensures Going(prompt, if applied then 0 else 1) && Onward() && Stands(log)
      ensures Follow(log.events) == Between && TurnsEnded(log, false)
      ensures applied ==> !failed && Fresh()
      ensures log.replies == old(log).replies && log.requests == old(log).requests && log.opening == old(log).opening
      ensures log.executions == old(log).executions
      ensures log.hooks == old(log).hooks + [h] && h.reason == Overflow && h.before == old(transcript)
      ensures (applied <==> h.status == Applied) && (failed <==> h.status == CompactError)
      ensures applied ==> transcript == Offered(h)
    {
      hide FlatMap, Follow, Current, Progressed, LegalSoFar, Stands, Settled, Durable, SteeringKept, Sound, Heeded,
           OnlyUsers, GoodReplacement, OverflowDue, Judged, Compacted, OnTime, Fresh, StopSeen, UsageOf;
      Say(TurnEnd(rejected, []), prompt, 1);
      ghost var before := log;
      ghost var prior := transcript;
      ghost var look := looks;
      var status, after := Compact(Overflow, true);
      applied, failed := status == Applied, status == CompactError;
      h := Called(Overflow, prior, look, cancelled, status);
      if applied {
        if cancelled {
          CutShort(h);
        }
        FreshWhileRunning();
        ReplacementIsLegal(prior, transcript);
      }
      CompactionKeepsProgress(before, log, h, UsageOf(prior), after, TermsOf(prompt), 1);
      CalledOnce(before, log, h, UsageOf(prior), after);
    }

    lemma ReplacementIsLegal(before: seq<Message>, after: seq<Message>)
      requires GoodReplacement(before, after)
      ensures Conversation(after)
    {
    }

    // The request of a step: answered with the hook's part done, or rejected with the hook still to ask.
    method AskReady(first: bool, prompt: Prompt, ghost n: nat) returns (msg: Assistant)
      requires Going(prompt, n) && Follow(log.events) == InTurn && Stands(log) && Fresh() && Ready(prompt, first) && (first <==> n == 0)
      modifies this, storage
      ensures Going(prompt, n + 1) && Onward() && looks > old(looks) && LastReply(log, msg)
      ensures if first && !prompt.continuation && msg.stopReason == ContextWindow && opts.hasCompact
              then Overflowed(msg, prompt) else Asked(prompt) && SettledOverflow()
      ensures Answering(old(log), msg) && TurnsEnded(log, true) && (!AsksForTools(msg) ==> Settled(log)) && !StopSeen()
      ensures log.opening == old(log).opening && log.executions == old(log).executions && log.opening.Some?
      ensures msg == Filled(opts.model, world.replies(old(streams)))
    {
      hide FlatMap, Follow, Current, Progressed, LegalSoFar, Stands, Settled, Heard, InRun, OnlyUsers, HooksInOrder,
           OverflowDue, FirstGround, Filled;
      msg := Ask(prompt, n);
      RequestInOrder(old(log), log, old(transcript), msg, TermsOf(prompt));
    }

    // The provider steps of a turn. A rejected first request is retried after a compaction that
    // installs a replacement, if the run may compact at all. asked is the log at the last request.
    method AskProvider(step: nat, prompt: Prompt) returns (msg: Assistant, overflowTurnEnded: bool, failed: bool, ghost asked: Log)
      requires Going(prompt, step) && Follow(log.events) == InTurn && Stands(log) && Fresh() && Ready(prompt, step == 0)
      modifies this, storage
      ensures Going(prompt, step + 1) && Onward() && looks > old(looks) && LastReply(log, msg)
      ensures HooksInOrder(log, TermsOf(prompt)) && log.opening.Some? && log.requests != [] && !ThresholdFails(log.hooks)
      ensures failed <==> HookFailedLast(log)
      ensures log.opening == old(log).opening && log.executions == old(log).executions
      ensures failed || overflowTurnEnded ==>
        Follow(log.events) == Between && msg.stopReason == ContextWindow && opts.hasCompact && TurnsEnded(log, false)
      ensures !failed && !overflowTurnEnded ==> Answering(asked, msg) && TurnsEnded(log, true) && SettledOverflow()
      ensures (failed || overflowTurnEnded || !AsksForTools(msg) ==> Settled(log)) && !StopSeen()
      ensures !opts.hasCompact ==> !failed && !overflowTurnEnded && msg == Filled(opts.model, world.replies(old(streams)))
    {
      hide FlatMap, Follow, Current, Progressed, LegalSoFar, Stands, Settled, Heard, InRun, OnlyUsers, HooksInOrder,
           OverflowDue, FirstGround, Filled, Answering, Ready, Opening, TermsOf, UsageOf;
      asked := log;
      msg := AskReady(step == 0, prompt, step);
      overflowTurnEnded, failed := false, false;
      if step == 0 && !prompt.continuation && msg.stopReason == ContextWindow && opts.hasCompact {
        msg, overflowTurnEnded, failed, asked := RetryAfterOverflow(msg, prompt);
        if failed || overflowTurnEnded {
          QuietSettles(log);
        }
      }
    }

    // The last event of a run carries the final transcript.
    method EndRun(prompt: Prompt, ghost n: nat)
      requires Going(prompt, n) && Settled(log)
      requires Follow(log.events) == Between || Follow(log.events) == Phase.Failed
      modifies this`log
      ensures Going(prompt, n) && Settled(log) && Grammatical(log.events) && Turns(log.events) == Turns(old(log).events)
      ensures log == old(log).(events := old(log).events + [AgentEnd(transcript)])
      ensures Compactions(log.events) == Compactions(old(log).events)
    {
      hide FlatMap, Follow, Current, Progressed, LegalSoFar, Stands, Settled, InRun, TermsOf, UsageOf;
      Say(AgentEnd(transcript), prompt, n);
      assert Turns(old(log).events) + [] == Turns(old(log).events);
    }

    method FailRun(reply: Assistant, aborted: bool, prompt: Prompt, ghost n: nat)
      requires Going(prompt, n) && Settled(log) && Follow(log.events) == Between
      modifies this`log
      ensures Going(prompt, n) && Settled(log) && Grammatical(log.events) && Turns(log.events) == Turns(old(log).events)
      ensures log == old(log).(events := old(log).events + [ErrorEvent(reply, aborted)] + [AgentEnd(transcript)])
    {
      hide FlatMap, Follow, Current, Progressed, LegalSoFar, Stands, Settled, InRun, TermsOf, UsageOf;
      Say(ErrorEvent(reply, aborted), prompt, n);
      assert Turns(old(log).events) + [] == Turns(old(log).events);
      EndRun(prompt, n);
    }

    // The run is over with this result.
    ghost predicate RunOver(prompt: Prompt, result: RunResult)
      reads this`log, this`transcript, this`cancelled, this`ended
    {
      && Ran(result) && Grammatical(log.events) && Settled(log) && TurnsEnded(log, false) && HooksInOrder(log, TermsOf(prompt))
      && log.events[|log.events| - 1] == AgentEnd(transcript)
      && EndedAs(result, log, opts, cancelled, StopSeen())
    }

    // A request was answered, and the hook did its part.
    ghost predicate Asked(prompt: Prompt)
      reads this`log
    {
      && HooksInOrder(log, TermsOf(prompt)) && log.opening.Some? && log.requests != []
      && !HookFailedLast(log) && !ThresholdFails(log.hooks)
    }

    // A turn that failed: closed unless it already was, then the error and the end of the run.
    method FailTurn(msg: Assistant, overflowTurnEnded: bool, prompt: Prompt, ghost n: nat) returns (result: RunResult)
      requires Going(prompt, n) && Settled(log) && !StopSeen() && Asked(prompt) && TurnsEnded(log, !overflowTurnEnded)
      requires Follow(log.events) == (if overflowTurnEnded then Between else InTurn)
      requires LastReply(log, msg) && FailingStop(msg.stopReason)
      modifies this`log
      ensures Going(prompt, n) && RunOver(prompt, result) && result == TurnFailed(msg) && log == old(log).(events := log.events)
    {
      hide FlatMap, Follow, Current, Progressed, LegalSoFar, Stands, Settled, InRun, HooksInOrder, HeedsTo,
           AsksForTools, Retried, TermsOf, UsageOf;
      if !overflowTurnEnded {
        Say(TurnEnd(msg, []), prompt, n);
        assert log.replies == log.replies[..|log.replies| - 1] + [msg];
      }
      FailRun(msg, msg.stopReason == Aborted, prompt, n);
      SameHooks(old(log), log, TermsOf(prompt));
      result := TurnFailed(msg);
    }

    // A turn that ended the run with an answer.
    method AnswerTurn(msg: Assistant, prompt: Prompt, ghost n: nat) returns (result: RunResult)
      requires Going(prompt, n) && Settled(log) && !StopSeen() && Asked(prompt) && TurnsEnded(log, true)
      requires Follow(log.events) == InTurn && LastReply(log, msg) && !FailingStop(msg.stopReason) && !AsksForTools(msg)
      modifies this`log
      ensures Going(prompt, n) && RunOver(prompt, result) && result == Answered(msg) && log == old(log).(events := log.events)
    {
      hide FlatMap, Follow, Current, Progressed, LegalSoFar, Stands, Settled, InRun, HooksInOrder, TermsOf, UsageOf;
      Say(TurnEnd(msg, []), prompt, n);
      assert log.replies == log.replies[..|log.replies| - 1] + [msg];
      EndRun(prompt, n);
      SameHooks(old(log), log, TermsOf(prompt));
      result := Answered(msg);
    }

    method FailCompaction(prompt: Prompt, ghost n: nat) returns (result: RunResult)
      requires Going(prompt, n) && Settled(log) && !StopSeen() && Follow(log.events) == Between && opts.hasCompact
      requires HooksInOrder(log, TermsOf(prompt)) && HookFailedLast(log) && log.opening.Some? && TurnsEnded(log, false)
      requires log.requests == [] <==> ThresholdFails(log.hooks)
      requires log.replies == [] || LastReason(log, ContextWindow)
      modifies this`log
      ensures Going(prompt, n) && RunOver(prompt, result) && result.CompactionFailed? && log == old(log).(events := log.events)
    {
      hide FlatMap, Follow, Current, Progressed, LegalSoFar, Stands, Settled, InRun, HooksInOrder, TermsOf, UsageOf;
      var message := CompactionErrorMessage(opts.model);
      FailRun(message, false, prompt, n);
      SameHooks(old(log), log, TermsOf(prompt));
      result := CompactionFailed(message);
    }

    // A turn whose reply asks for tools: they run, their results join the transcript, the turn ends.
    method ToolTurn(msg: Assistant, ghost asked: Log, prompt: Prompt, ghost n: nat)
      returns (results: seq<Message>, ghost base: seq<Message>)
      requires Going(prompt, n) && Answering(asked, msg) && LastReply(log, msg) && AsksForTools(msg) && Asked(prompt)
      requires TurnsEnded(log, true)
      modifies this, storage
      ensures Going(prompt, n) && Onward() && looks > old(looks) && log.requests == old(log).requests
      ensures Follow(log.events) == Between && Settled(log) && (cancelled || Stands(log)) && TurnsEnded(log, false)
      ensures BatchTail(log, base, msg, results) && (|results| == |msg.ToolCalls()| || cancelled)
      ensures LastReason(log, ToolUse) && Asked(prompt) && log.hooks == old(log).hooks && log.opening == old(log).opening
      ensures BatchLogged(old(log).executions, msg, results)
    {
      hide FlatMap, Follow, Current, Progressed, LegalSoFar, Stands, Settled, Render, Heard, HooksInOrder, Durable,
           SteeringKept, OnTime, Heeded, Executed, UsageOf;
      ghost var executed;
      ghost var x;
      results, executed, x := RunBatch(msg);
      BatchKeepsProgress(asked, old(log), executed, msg, x, TermsOf(prompt), n);
      BatchKept(asked, old(log), executed, msg, x, TermsOf(prompt));
      ResultsOnly(opts.setup, x);
      base := Current(asked.start, asked.journal);
    }

    // The batch, and the end of its turn.
    method RunBatch(msg: Assistant) returns (results: seq<Message>, ghost executed: Log, ghost x: Execution)
      requires InRun() && Follow(log.events) == InTurn && AsksForTools(msg) && log.replies != []
      modifies this, storage
      ensures Durable() && SteeringKept() && OnTime() && Heeded() && Later() && looks > old(looks)
      ensures old(streams) > 0 && x.calls == msg.ToolCalls() && x.answers == world.tools(old(streams) - 1) && x.results == results
      ensures log == Closed(executed, msg, x) && RanInOrder(opts.setup, x) && Follow(executed.events) == InTurn
      ensures Executed(old(log), executed, opts.setup, x.calls, x.answers, results, x.marks)
      ensures |results| < |x.calls| ==> cancelled
    {
      hide FlatMap, Follow, Current, Executed, RanInOrder, Sound, HeedsTo, SteeringKept, RunToolCall;
      StreamsOpened();
      var calls := msg.ToolCalls();
      var answers := world.tools(streams - 1);
      ghost var marks;
      results, marks := ExecuteTools(calls, answers);
      executed, x := log, Execution(calls, answers, results, marks);
      ExecutedPhase(old(log), log, opts.setup, calls, answers, results, marks);
      CloseBatch(msg, results, x);
    }

    method CloseBatch(msg: Assistant, results: seq<Message>, ghost x: Execution)
      requires InRun() && x.results == results
      modifies this`log
      ensures log == Closed(old(log), msg, x) && Durable() && SteeringKept() && OnTime() && Heeded()
    {
      hide FlatMap, Follow, Current, Sound, HeedsTo;
      Emit(TurnEnd(msg, results));
      log := log.(executions := log.executions + [x]);
      HeedsAlike(old(log), log, streams);
    }

    lemma StreamsOpened()
      requires InRun() && log.replies != []
      ensures streams > 0
    {
    }

    // The last batch executed is that of this reply, with what the world answered to its stream.
    ghost predicate BatchLogged(earlier: seq<Execution>, last: Assistant, results: seq<Message>)
      reads this`log, this`streams
    {
      && streams > 0 && |log.executions| == |earlier| + 1 && earlier <= log.executions
      && var x := log.executions[|earlier|];
         x.calls == last.ToolCalls() && x.answers == world.tools(streams - 1) && x.results == results
    }

    // After the provider answered: the run is over, or the turn closed with the tool batch of the
    // reply `last`, appended after base.
    method CloseTurn(last: Assistant, overflowTurnEnded: bool, ghost asked: Log, prompt: Prompt, ghost n: nat)
      returns (over: Option<RunResult>, results: seq<Message>, ghost base: seq<Message>)
      requires Going(prompt, n) && LastReply(log, last) && !StopSeen() && (overflowTurnEnded || !AsksForTools(last) ==> Settled(log))
      requires Asked(prompt) && TurnsEnded(log, !overflowTurnEnded)
      requires if overflowTurnEnded then Follow(log.events) == Between && last.stopReason == ContextWindow else Answering(asked, last)
      modifies this, storage
      ensures Going(prompt, n) && Onward() && log.requests == old(log).requests
      ensures over.Some? <==> !AsksForTools(last)
      ensures over.Some? ==> RunOver(prompt, over.value) && !over.value.Cancelled?
      ensures log.hooks == old(log).hooks && log.opening == old(log).opening
      ensures if over.Some? then log == old(log).(events := log.events) else BatchLogged(old(log).executions, last, results)
      ensures over.None? ==>
        && Follow(log.events) == Between && Settled(log) && (cancelled || Stands(log)) && looks > old(looks)
        && LastReason(log, ToolUse) && !StopSeen() && Asked(prompt) && TurnsEnded(log, false)
        && BatchTail(log, base, last, results) && (|results| == |last.ToolCalls()| || cancelled)
    {
      hide FlatMap, Follow, Current, Progressed, LegalSoFar, Stands, Settled, BatchTail, Grammatical, Heard,
           EndedAs, InRun, HooksInOrder, TermsOf, UsageOf;
      over, results, base := None, [], [];
      var result;
      if FailingStop(last.stopReason) {
        result := FailTurn(last, overflowTurnEnded, prompt, n);
        over := Some(result);
      } else if last.stopReason != ToolUse || |last.ToolCalls()| == 0 {
        result := AnswerTurn(last, prompt, n);
        over := Some(result);
      } else {
        results, base := ToolTurn(last, asked, prompt, n);
      }
    }

    // The check before a step, which counts itself.
    method CheckContext() returns (stop: bool)
      requires InRun()
      modifies this`log, this`steering, this`steered, this`cancelled, this`ended, this`looks
      ensures InRun() && Later() && stop == cancelled == (old(cancelled) || world.ends(old(looks))) && looks == old(looks) + 1
      ensures log == old(log).(checks := old(log).checks + 1)
      ensures StopSeen() <==> stop
    {
      hide FlatMap, Follow, Current;
      Interfere();
      log := log.(checks := log.checks + 1);
      stop := cancelled;
    }

    // Between two steps of a run.
    ghost predicate Paused(prompt: Prompt, step: nat)
      reads this, storage
    {
      && Going(prompt, step) && Follow(log.events) == Between && Settled(log) && (cancelled || Stands(log))
      && TurnsEnded(log, false) && HooksInOrder(log, TermsOf(prompt))
      && if step == 0 then Untouched(prompt) else Asked(prompt) && LastReason(log, ToolUse) && SettledOverflow()
    }

    // Nothing but the seed has joined the transcript.
    ghost predicate Untouched(prompt: Prompt)
      reads this`log, this`transcript
    {
      && log.opening.None? && log.hooks == [] && log.requests == [] && log.replies == []
      && transcript == log.start + prompt.seed && From(log.journal, Steered) == [] && OnlyUsers(log.journal)
    }

    // The next step may begin.
    ghost predicate AtStep(prompt: Prompt, step: nat)
      reads this, storage
    {
      Paused(prompt, step) && !StopSeen()
    }

    // The check before a step keeps everything.
    method CheckStep(prompt: Prompt, step: nat) returns (stop: bool)
      requires AtStep(prompt, step)
      modifies this`log, this`steering, this`steered, this`cancelled, this`ended, this`looks
      ensures Paused(prompt, step) && Later() && looks == old(looks) + 1
      ensures stop == cancelled == (old(cancelled) || world.ends(old(looks)))
      ensures log == old(log).(checks := old(log).checks + 1)
      ensures StopSeen() <==> stop
    {
      hide FlatMap, Follow, Current, Progressed, LegalSoFar, Stands, Settled, HooksInOrder, InRun, OnlyUsers,
           TermsOf, UsageOf;
      CheckKeeps(log, TermsOf(prompt), step);
      stop := CheckContext();
    }

    // A run that finds its context ended at the check before a step makes no further request.
    method StopRun(prompt: Prompt, ghost n: nat) returns (result: RunResult)
      requires Paused(prompt, n) && cancelled && StopSeen() && log.checks == n + 1
      modifies this`log
      ensures Going(prompt, n) && RunOver(prompt, result) && result.Cancelled? && log == old(log).(events := log.events)
      ensures n == 0 ==> log.opening.None?
    {
      hide FlatMap, Follow, Current, Progressed, LegalSoFar, Stands, Settled, InRun, HooksInOrder, TermsOf, UsageOf;
      var aborted := AbortedMessage(opts.model);
      FailRun(aborted, true, prompt, n);
      SameHooks(old(log), log, TermsOf(prompt));
      result := Cancelled(aborted);
    }

    // All this steering had joined the transcript when the first step began, unless it never did.
    ghost predicate TookSteering(prompt: Prompt, given: seq<Message>)
      reads this`history, this`log
    {
      Took(prompt, given, log, history)
    }

    ghost predicate Took(prompt: Prompt, given: seq<Message>, l: Log, earlier: seq<Entry>) {
      !prompt.continuation && l.opening.Some? ==> given <= From(earlier, Steered) + OpeningSteering(l, prompt.seed)
    }

    lemma TookStays(prompt: Prompt, given: seq<Message>, before: Log)
      requires Took(prompt, given, before, history) && before.start == log.start && before.opening == log.opening
      ensures TookSteering(prompt, given)
    {
    }

    // The next stream asks for tools, and nothing comes before it: no hook, and no stop at look `at`.
    ghost predicate ToolsNext(prompt: Prompt, at: nat)
      reads this`streams
    {
      !opts.hasCompact && !prompt.continuation && !world.ends(at) && AsksForTools(Filled(opts.model, world.replies(streams)))
    }

    // A turn of a run whose context has not ended: a request, and the tools it asks for.
    method TakeTurn(step: nat, prompt: Prompt)
      returns (over: Option<RunResult>, last: Assistant, results: seq<Message>, ghost base: seq<Message>, ghost n: nat)
      requires AtStep(prompt, step) && !cancelled
      modifies this, storage
      ensures Onward() && step <= n <= step + 1 && Going(prompt, n)
      ensures over.Some? ==> RunOver(prompt, over.value) && !over.value.Cancelled?
      ensures over.None? ==> n == step + 1 && AtStep(prompt, n)
      ensures over.None? ==> BatchTail(log, base, last, results) && (|results| == |last.ToolCalls()| || cancelled)
      ensures if over.Some? then log.executions == old(log).executions else BatchLogged(old(log).executions, last, results)
      ensures step == 0 ==> TookSteering(prompt, old(steered))
      ensures step > 0 ==> log.opening == old(log).opening
      ensures !prompt.continuation ==> old(steered) <= Taken()
      ensures step == 0 && !prompt.continuation && AsksHook(false, old(transcript)) && world.ends(old(looks) + 1) ==>
        over.Some? && over.value.CompactionFailed? && cancelled
      ensures !opts.hasCompact && !prompt.continuation && AsksForTools(Filled(opts.model, world.replies(old(streams)))) ==>
        over.None? && looks >= old(looks) + 3
    {
      hide FlatMap, Follow, Current, Progressed, LegalSoFar, Stands, Settled, BatchTail, Grammatical, Durable,
           SteeringKept, Sound, Heeded, OnlyUsers, EndedAs, AsksHook, AsksForTools, RunOver, Going, AtStep,
           HooksInOrder, Ready, Took, From, Filled, BatchLogged, TermsOf, UsageOf;
      last, results, base, n := AbortedMessage(opts.model), [], [], step;
      var result;
      var failed := OpenTurn(step, prompt);
      ghost var begun := log;
      if failed {
        QuietSettles(log);
        result := FailCompaction(prompt, n);
        TookStays(prompt, old(steered), begun);
        return Some(result), last, results, base, n;
      }
      over, last, results, base, n := FinishTurn(step, prompt);
      if step == 0 {
        TookStays(prompt, old(steered), begun);
      }
      JournalGrows(begun.journal, log.journal, Steered);
    }

    // A turn from its first request to its end.
    method FinishTurn(step: nat, prompt: Prompt)
      returns (over: Option<RunResult>, last: Assistant, results: seq<Message>, ghost base: seq<Message>, ghost n: nat)
      requires Going(prompt, step) && Follow(log.events) == InTurn && Stands(log) && Fresh() && Ready(prompt, step == 0)
      modifies this, storage
      ensures Onward() && n == step + 1 && Going(prompt, n) && log.opening == old(log).opening && looks > old(looks)
      ensures over.Some? ==> RunOver(prompt, over.value) && !over.value.Cancelled?
      ensures over.None? ==> AtStep(prompt, n)
      ensures over.None? ==> BatchTail(log, base, last, results) && (|results| == |last.ToolCalls()| || cancelled)
      ensures if over.Some? then log.executions == old(log).executions else BatchLogged(old(log).executions, last, results)
      ensures !opts.hasCompact && AsksForTools(Filled(opts.model, world.replies(old(streams)))) ==>
        over.None? && looks >= old(looks) + 2
    {
      hide FlatMap, Follow, Current, Progressed, LegalSoFar, Stands, Settled, BatchTail, Grammatical, InRun,
           Answering, OnlyUsers, EndedAs, RunOver, HooksInOrder, Ready, BatchLogged, TermsOf, UsageOf;
      results, base, n := [], [], step + 1;
      var overflowTurnEnded, failed;
      ghost var asked;
      last, overflowTurnEnded, failed, asked := AskProvider(step, prompt);
      if failed {
        var result := FailCompaction(prompt, n);
        return Some(result), last, results, base, n;
      }
      over, results, base := CloseTurn(last, overflowTurnEnded, asked, prompt, n);
    }

    // One pass of the loop: a cancellation check and a turn.
    method TakeStep(step: nat, prompt: Prompt, ghost given: seq<Message>)
      returns (over: Option<RunResult>, last: Assistant, results: seq<Message>, ghost base: seq<Message>, ghost n: nat)
      requires AtStep(prompt, step) && log.checks == step
      requires if step == 0 then given == steered else TookSteering(prompt, given)
      modifies this, storage
      ensures Later() && log.start == old(log).start && step <= n <= step + 1 && Going(prompt, n)
      ensures over.Some? ==> RunOver(prompt, over.value)
      ensures over.None? ==> n == step + 1 && AtStep(prompt, n) && log.checks == n
      ensures over.None? ==> BatchTail(log, base, last, results) && (|results| == |last.ToolCalls()| || cancelled)
      ensures if over.Some? then log.executions == old(log).executions else BatchLogged(old(log).executions, last, results)
      ensures TookSteering(prompt, given)
      ensures (over.Some? && over.value.Cancelled?) || prompt.continuation || old(steered) <= Taken()
      ensures old(cancelled) ==> over.Some? && over.value.Cancelled?
      ensures over.Some? && over.value.Cancelled? ==> log.requests == old(log).requests
      ensures step == 0 && !old(cancelled) && HookCutShort(prompt, old(transcript), old(looks)) ==>
        over.Some? && over.value.CompactionFailed? && cancelled
      ensures !old(cancelled) && old(ToolsNext(prompt, looks)) ==> over.None? && looks >= old(looks) + 4
    {
      hide FlatMap, Follow, Current, BatchTail, EndedAs, AsksHook, AsksForTools, RunOver, Took, Taken, Going,
           Paused, BatchLogged;
      var stop := CheckStep(prompt, step);
      ghost var pending := steered;
      if stop {
        last, results, base, n := AbortedMessage(opts.model), [], [], step;
        var result := StopRun(prompt, n);
        over := Some(result);
        if step == 0 {
          TookNothing(prompt, given);
        }
      } else {
        over, last, results, base, n := TakeTurn(step, prompt);
        if step == 0 {
          TookFewer(prompt, given, pending);
        }
      }
      if step > 0 {
        TookStays(prompt, given, old(log));
      }
    }

    lemma TookFewer(prompt: Prompt, given: seq<Message>, more: seq<Message>)
      requires TookSteering(prompt, more) && given <= more
      ensures TookSteering(prompt, given)
    {
    }

    lemma TookNothing(prompt: Prompt, given: seq<Message>)
      requires log.opening.None?
      ensures TookSteering(prompt, given)
    {
    }

    lemma StepsAllowed(prompt: Prompt)
      requires AtStep(prompt, 0)
      ensures opts.maxSteps >= 1
    {
    }

    // The bounded loop of provider steps.
    method RunSteps(prompt: Prompt) returns (result: RunResult, ghost n: nat)
      requires AtStep(prompt, 0) && log.checks == 0
      modifies this, storage
      ensures Later() && log.start == old(log).start && n <= opts.maxSteps && Going(prompt, n) && RunOver(prompt, result)
      ensures TookSteering(prompt, old(steered))
      ensures !old(cancelled) && HookCutShort(prompt, old(transcript), old(looks)) ==> result.CompactionFailed? && cancelled
      ensures !old(cancelled) && opts.maxSteps == 1 && old(ToolsNext(prompt, looks)) ==> result.StepLimit? && looks >= old(looks) + 4
    {
      hide FlatMap, Follow, Current, Progressed, LegalSoFar, Stands, Settled, BatchTail, Grammatical, Durable,
           SteeringKept, Sound, OnlyUsers, AsksHook, AsksForTools, HooksInOrder, Took, RunOver, ToolsNext,
           BatchLogged, AtStep, Paused, Going, TermsOf, UsageOf;
      StepsAllowed(prompt);
      ghost var base: seq<Message> := [];
      var results: seq<Message> := [];
      var last: Assistant := AbortedMessage(opts.model);
      var over: Option<RunResult> := None;
      n := 0;
      for step := 0 to opts.maxSteps
        invariant Later() && log.start == old(log).start && n == step == log.checks && AtStep(prompt, step)
        invariant if step == 0 then steered == old(steered) else TookSteering(prompt, old(steered))
        invariant step == 0 ==>
          transcript == old(transcript) && looks == old(looks) && cancelled == old(cancelled) && streams == old(streams)
        invariant step > 0 ==> BatchTail(log, base, last, results) && (|results| == |last.ToolCalls()| || cancelled)
        invariant step > 0 && !old(cancelled) ==> !HookCutShort(prompt, old(transcript), old(looks))
        invariant step == 1 && !old(cancelled) && old(ToolsNext(prompt, looks)) ==> looks >= old(looks) + 4
      {
        over, last, results, base, n := TakeStep(step, prompt, old(steered));
        if over.Some? {
          return over.value, n;
        }
      }
      ghost var begun := log;
      result := LimitRun(prompt, last, results, base, n);
      TookStays(prompt, old(steered), begun);
    }

    // The last allowed step asked for tools: the run ends, and can be continued if its batch is complete.
    method LimitRun(prompt: Prompt, last: Assistant, results: seq<Message>, ghost base: seq<Message>, ghost n: nat)
      returns (result: RunResult)
      requires AtStep(prompt, n) && n == opts.maxSteps >= 1
      requires BatchTail(log, base, last, results) && (|results| == |last.ToolCalls()| || cancelled)
      modifies this`log
      ensures Going(prompt, n) && RunOver(prompt, result) && result == StepLimit(last) && log == old(log).(events := log.events)
    {
      hide FlatMap, Follow, Current, Progressed, LegalSoFar, Stands, Settled, BatchTail, Grammatical, InRun,
           OnlyUsers, HooksInOrder, EndedAs, Continuable, Compactions, TermsOf, UsageOf;
      StepLimitReached(log, base, last, results, TermsOf(prompt), n);
      EndRun(prompt, n);
      SameHooks(old(log), log, TermsOf(prompt));
      result := StepLimit(last);
      LimitEnds(old(log), log, opts, cancelled, last, results);
    }

    // The seed joins the transcript.
    method SeedRun(prompt: Prompt)
      requires InRun() && log == NewLog(transcript) && AllUser(prompt.seed) && !cancelled
      modifies this`transcript, this`log, storage
      ensures AtStep(prompt, 0) && Later() && log.checks == 0
      ensures log.start == old(transcript) && transcript == old(transcript) + prompt.seed
    {
      hide FlatMap, Follow, Current, Stands, LegalSoFar, Progressed, HooksInOrder, InRun, Fresh;
      StartRun();
      AnnounceSeed(prompt.seed);
      FreshWhileRunning();
      SeedingStarts(old(transcript), log, TermsOf(prompt));
      QuietSettles(log);
    }

    method StartRun()
      requires InRun() && log == NewLog(transcript)
      modifies this`log
      ensures InRun() && log == NewLog(transcript).(events := [AgentStart]) && Follow(log.events) == Between
    {
      hide FlatMap, Follow, Current, HeedsTo, Appended, Sound;
      FreshLog(transcript);
      Emit(AgentStart);
      assert log.events == [AgentStart];
      HeedsAlike(old(log), log, streams);
    }

    method AnnounceSeed(seed: seq<Message>)
      requires InRun() && Quiet(log) && AllUser(seed)
      modifies this`transcript, this`log, storage
      ensures InRun() && Later() && transcript == old(transcript) + seed && Grew(old(log), log, Tag(seed, Seeded), [])
    {
      hide FlatMap, Follow, Current, Durable, SteeringKept, HeedsTo, Sound, SamePlace;
      AnnounceAll(seed, Seeded);
      HeedsAlike(old(log), log, streams);
    }

    // A run that passed its admission checks.
    method RunAdmitted(prompt: Prompt) returns (result: RunResult)
      requires InRun() && log == NewLog(transcript) && AllUser(prompt.seed) && !cancelled
      modifies this, storage
      ensures InRun() && Later() && LegalSoFar(log) && log.start == old(transcript)
      ensures Accounted(log, TermsOf(prompt), opts.maxSteps) && RunOver(prompt, result)
      ensures TookSteering(prompt, old(steered))
      ensures HookCutShort(prompt, old(transcript) + prompt.seed, old(looks)) ==> result.CompactionFailed? && cancelled
      ensures opts.maxSteps == 1 && old(ToolsNext(prompt, looks)) ==> result.StepLimit? && looks >= old(looks) + 4
    {
      hide FlatMap, Follow, Current, Stands, EndedAs, LegalSoFar, Progressed, Accounted, Grammatical, AsksHook,
           AsksForTools, Took, InRun, HooksInOrder, HookCutShort, ToolsNext, TermsOf, UsageOf;
      SeedRun(prompt);
      ghost var n;
      result, n := RunSteps(prompt);
      assert AllExecuted(log);
      ProgressAccounts(log, TermsOf(prompt), n, opts.maxSteps);
    }

    // One run. A prompt cancelled while queued is dropped, and a continuation of a transcript that
    // cannot be continued is refused, both without a trace. Any other prompt runs to an AgentEnd.
    method RunPrompt(prompt: Prompt, cancelledWhileQueued: bool) returns (result: RunResult)
      requires Valid() && !running
      requires AllUser(prompt.seed) && (prompt.continuation ==> prompt.seed == [])
      modifies this, storage
      ensures Valid() && !running && loaded == old(loaded) && old(steered) <= steered && OtherSessions() == old(OtherSessions())
      ensures history == old(history) + log.journal && log.start == old(transcript)
      ensures transcript == Current(old(transcript), log.journal)
      ensures storage.Contents(opts.session) == old(storage.Contents(opts.session)) + Appended(log.journal)
      // when it runs at all
      ensures !Ran(result) ==> log == NewLog(old(transcript))
      ensures looks > old(looks) && (result.Dropped? <==> cancelledWhileQueued || world.ends(old(looks)))
      ensures result.Dropped? ==> cancelled
      ensures prompt.continuation && !result.Dropped? ==> (Ran(result) <==> Continuable(old(transcript)))
      ensures result.CannotContinue? ==>
        prompt.continuation && Explained(result.error, old(transcript))
      // what the provider and the hook said, and what was steered before it
      ensures streams == old(streams) + |log.replies|
      ensures forall k | 0 <= k < |log.replies| :: log.replies[k] == Filled(opts.model, world.replies(old(streams) + k))
      ensures forall h | h in log.hooks :: Judged(h)
      ensures Took(prompt, old(steered), log, old(history))
      // what it leaves behind
      ensures Ran(result) ==> RunOver(prompt, result) && Accounted(log, TermsOf(prompt), opts.maxSteps)
      ensures Ran(result) ==> CompactionsExplained(log, TermsOf(prompt))
      ensures Conversation(old(transcript)) ==> RequestsLegal(log)
      ensures Conversation(old(transcript)) ==> (Conversation(transcript) <==> LeavesLegal(log))
      ensures Conversation(old(storage.Contents(opts.session))) ==> (Conversation(storage.Contents(opts.session)) <==> LeavesLegal(log))
      // what the end of its context does
      ensures OnTime() && (forall l | old(looks) <= l < looks && world.ends(l) :: cancelled)
      ensures Ran(result) ==> (AbortedEnd(log) <==> StopSeen() || LastReason(log, Aborted))
      ensures Ran(result) ==>
        (AbortedEnd(log) <==> result.Cancelled? || (result.TurnFailed? && result.message.stopReason == Aborted))
      ensures !result.Dropped? && HookCutShort(prompt, old(transcript) + prompt.seed, old(looks) + 1) ==>
        result.CompactionFailed? && cancelled
      ensures !result.Dropped? && opts.maxSteps == 1 && old(ToolsNext(prompt, looks + 1)) ==>
        result.StepLimit? && looks >= old(looks) + 5
    {
      hide FlatMap, Follow, Current, Stands, EndedAs, Accounted, Grammatical, Durable, SteeringKept, Sound, Valid,
           AsksHook, AsksForTools, RunOver, LegalSoFar, RequestsLegal, Conversation, LeavesLegal, Settled,
           Continuable, AbortedEnd, LastReason, Took, CompactionsExplained, HookCutShort, ToolsNext, Filled, Judged,
           HeedsTo, Explained, OnTime, StopSeen, Ran, TermsOf, UsageOf;
      BeginRun(cancelledWhileQueued);
      result := RunBegun(prompt);
      HeedsMeans(old(streams));
      FinishRun();
    }

    // A run from its admission checks to its end.
    method RunBegun(prompt: Prompt) returns (result: RunResult)
      requires InRun() && log == NewLog(transcript) && AllUser(prompt.seed) && (prompt.continuation ==> prompt.seed == [])
      modifies this, storage
      ensures InRun() && log.start == old(transcript) && Settled(log)
      ensures loaded == old(loaded) && history == old(history) && old(steered) <= steered && OtherSessions() == old(OtherSessions())
      ensures streams == old(streams) + |log.replies| && (forall l | old(looks) <= l < looks && world.ends(l) :: cancelled)
      ensures Conversation(old(transcript)) ==> RequestsLegal(log)
      ensures !Ran(result) ==> log == NewLog(old(transcript))
      ensures looks > old(looks) && (result.Dropped? <==> old(cancelled) || world.ends(old(looks)))
      ensures result.Dropped? ==> cancelled
      ensures prompt.continuation && !result.Dropped? ==> (Ran(result) <==> Continuable(old(transcript)))
      ensures result.CannotContinue? ==>
        prompt.continuation && Explained(result.error, old(transcript))
      ensures Took(prompt, old(steered), log, history)
      ensures Ran(result) ==> RunOver(prompt, result) && Accounted(log, TermsOf(prompt), opts.maxSteps)
      ensures Ran(result) ==> CompactionsExplained(log, TermsOf(prompt))
      ensures Ran(result) ==> (AbortedEnd(log) <==> StopSeen() || LastReason(log, Aborted))
      ensures Ran(result) ==>
        (AbortedEnd(log) <==> result.Cancelled? || (result.TurnFailed? && result.message.stopReason == Aborted))
      ensures !result.Dropped? && HookCutShort(prompt, old(transcript) + prompt.seed, old(looks) + 1) ==>
        result.CompactionFailed? && cancelled
      ensures !result.Dropped? && opts.maxSteps == 1 && old(ToolsNext(prompt, looks + 1)) ==>
        result.StepLimit? && looks >= old(looks) + 5
    {
      hide FlatMap, Follow, Current, Stands, EndedAs, Accounted, Grammatical, Durable, SteeringKept, Sound,
           AsksHook, AsksForTools, Conversation, LeavesLegal, Settled, Continuable, AbortedEnd, LastReason,
           RequestsLegal, RunOver, StopSeen, Took, CompactionsExplained, Explained, Filled, TermsOf, UsageOf;
      FreshSettles(log);
      NothingTaken(prompt, steered);
      Interfere();
      if cancelled {
        return Dropped;
      }
      if prompt.continuation {
        var refused := ValidateContinuation(transcript);
        if refused.Some? {
          return CannotContinue(refused.value);
        }
      }
      ghost var pending := steered;
      result := RunAdmitted(prompt);
      TookFewer(prompt, old(steered), pending);
      OverExactly(prompt, result);
      RunExplained(log, TermsOf(prompt), opts.maxSteps);
      CountsAgree(log);
    }

    lemma NothingTaken(prompt: Prompt, given: seq<Message>)
      requires log == NewLog(transcript)
      ensures Took(prompt, given, log, history)
    {
    }

    // The replies of the log are those of the streams opened since there were n.
    lemma HeedsMeans(n: nat)
      requires Heeded() && streams == n + |log.replies|
      ensures forall k | 0 <= k < |log.replies| :: log.replies[k] == Filled(opts.model, world.replies(n + k))
      ensures forall h | h in log.hooks :: Judged(h)
    {
    }

    lemma OverExactly(prompt: Prompt, result: RunResult)
      requires RunOver(prompt, result)
      ensures Ran(result) && Settled(log)
      ensures AbortedEnd(log) <==> StopSeen() || LastReason(log, Aborted)
      ensures AbortedEnd(log) <==> result.Cancelled? || (result.TurnFailed? && result.message.stopReason == Aborted)
    {
      hide FlatMap, Follow, Settled;
      AbortedExactly(result, log, opts, cancelled, StopSeen());
    }

    method BeginRun(cancelledWhileQueued: bool)
      requires Valid()
      modifies this`running, this`cancelled, this`ended, this`log
      ensures InRun() && log == NewLog(transcript) && transcript == Current(loaded, history)
      ensures storage.Contents(opts.session) == loaded + Appended(history)
      ensures cancelled == cancelledWhileQueued
    {
      hide FlatMap, Follow, Current;
      running, cancelled := true, cancelledWhileQueued;
      log, ended := NewLog(transcript), if cancelledWhileQueued then Some(Moment(0, 0)) else None;
      FreshLog(transcript);
      assert From(history, Steered) + [] == From(history, Steered);
      assert loaded + Appended(history) + [] == loaded + Appended(history);
    }

    // The journal of the run joins the history.
    method FinishRun()
      requires InRun() && log.start == Current(loaded, history) && Settled(log)
      modifies this`history, this`running
      ensures Valid() && !running && history == old(history) + log.journal
      ensures transcript == Current(log.start, log.journal)
      ensures storage.Contents(opts.session) == loaded + Appended(old(history)) + Appended(log.journal)
      ensures Conversation(log.start) ==> (Conversation(transcript) <==> LeavesLegal(log))
      ensures Conversation(loaded + Appended(old(history))) ==> (Conversation(storage.Contents(opts.session)) <==> LeavesLegal(log))
    {
      hide FlatMap, Follow, Current, Settled, LeavesLegal;
      SettledIsExact(log, loaded + Appended(history));
      JournalConcat(loaded, history, log.journal, Steered);
      Associative(loaded, Appended(history), Appended(log.journal));
      history := history + log.journal;
      running := false;
    }

    // What a run that came to this result left in its log.
    ghost predicate Recorded(prompt: Prompt, result: RunResult, l: Log) {
      if Ran(result) then
        && Accounted(l, TermsOf(prompt), opts.maxSteps) && CompactionsExplained(l, TermsOf(prompt)) && Grammatical(l.events)
        && exists stopped :: EndedAs(result, l, opts, stopped, result.Cancelled?)
      else l == NewLog(l.start)
    }

    lemma RunRecorded(prompt: Prompt, result: RunResult)
      requires if Ran(result) then RunOver(prompt, result) && Accounted(log, TermsOf(prompt), opts.maxSteps)
               else log == NewLog(log.start)
      requires Ran(result) ==> CompactionsExplained(log, TermsOf(prompt))
      ensures Recorded(prompt, result, log)
    {
      hide FlatMap, Follow, Current, Accounted, CompactionsExplained;
      if Ran(result) {
        assert EndedAs(result, log, opts, cancelled, result.Cancelled?);
      }
    }

    // Prompt by prompt: its run found the transcript the earlier ones led to, and it was dropped
    // exactly when it had been cancelled while queued or its context was over at the first look.
    ghost predicate Served(
      start: seq<Message>, prompts: seq<Prompt>, late: nat -> bool, results: seq<RunResult>, logs: seq<Log>, begun: seq<nat>)
    {
      && |results| == |logs| == |begun| <= |prompts|
      && (forall i | 0 <= i < |logs| :: Recorded(prompts[i], results[i], logs[i]))
      && (forall i | 0 <= i < |logs| :: logs[i].start == Current(start, FlatMap(JournalOf, logs[..i])))
      && (forall i | 0 <= i < |logs| :: results[i].Dropped? <==> late(i) || world.ends(begun[i]))
      && (forall i, j | 0 <= i < j < |begun| :: begun[i] < begun[j])
    }

    lemma ServedMore(
      start: seq<Message>, prompts: seq<Prompt>, late: nat -> bool, results: seq<RunResult>, logs: seq<Log>, begun: seq<nat>,
      result: RunResult, l: Log, look: nat)
      requires Served(start, prompts, late, results, logs, begun) && |logs| < |prompts|
      requires Recorded(prompts[|logs|], result, l) && l.start == Current(start, FlatMap(JournalOf, logs))
      requires (result.Dropped? <==> late(|logs|) || world.ends(look)) && (forall b | b in begun :: b < look)
      ensures Served(start, prompts, late, results + [result], logs + [l], begun + [look])
      ensures FlatMap(JournalOf, logs + [l]) == FlatMap(JournalOf, logs) + l.journal
    {
      hide FlatMap, Current, Recorded;
      FlatMapOneMore(JournalOf, logs, l);
      var more := logs + [l];
      forall i | 0 <= i < |more|
        ensures more[i].start == Current(start, FlatMap(JournalOf, more[..i]))
      {
        assert if i == |logs| then more[..i] == logs else more[..i] == logs[..i];
      }
      forall i, j | 0 <= i < j < |begun + [look]|
        ensures (begun + [look])[i] < (begun + [look])[j]
      {
        assert begun[i] in begun;
      }
    }

    // Run after run, with steering in between: storage only grows, by exactly what the runs
    // journalled, and the transcript stays where the whole journal leads. While the runs leave nothing
    // open or badly named, both the transcript and the stored log stay legal. late says which prompts
    // were cancelled while queued.
    method Serve(prompts: seq<Prompt>, late: nat -> bool) returns (results: seq<RunResult>, ghost logs: seq<Log>, ghost begun: seq<nat>)
      requires Valid() && !running
      requires forall p | p in prompts :: AllUser(p.seed) && (p.continuation ==> p.seed == [])
      modifies this, storage
      ensures Valid() && |logs| == |prompts| && loaded == old(loaded)
      ensures Served(old(transcript), prompts, late, results, logs, begun)
      ensures history == old(history) + FlatMap(JournalOf, logs) && old(steered) <= steered
      ensures transcript == Current(old(transcript), FlatMap(JournalOf, logs))
      ensures storage.Contents(opts.session) == old(storage.Contents(opts.session)) + Appended(FlatMap(JournalOf, logs))
      ensures old(Conversation(transcript)) && (forall l | l in logs :: LeavesLegal(l)) ==> Conversation(transcript)
      ensures old(Conversation(storage.Contents(opts.session))) && (forall l | l in logs :: LeavesLegal(l)) ==>
        Conversation(storage.Contents(opts.session))
    {
      hide *;
      results, logs, begun := [], [], [];
      ServedNone(prompts, late);
      for i := 0 to |prompts|
        invariant Valid() && !running && |logs| == i && loaded == old(loaded)
        invariant Served(old(transcript), prompts, late, results, logs, begun) && forall b | b in begun :: b < looks
        invariant history == old(history) + FlatMap(JournalOf, logs) && old(steered) <= steered
        invariant transcript == Current(old(transcript), FlatMap(JournalOf, logs))
        invariant storage.Contents(opts.session) == old(storage.Contents(opts.session)) + Appended(FlatMap(JournalOf, logs))
        invariant old(Conversation(transcript)) && (forall l | l in logs :: LeavesLegal(l)) ==> Conversation(transcript)
        invariant old(Conversation(storage.Contents(opts.session))) && (forall l | l in logs :: LeavesLegal(l)) ==>
          Conversation(storage.Contents(opts.session))
      {
        SteerAny();
        ghost var earlier := logs;
        ghost var look := looks;
        ghost var journal := FlatMap(JournalOf, logs);
        assert prompts[i] in prompts;
        var result := RunPrompt(prompts[i], late(i));
        RunRecorded(prompts[i], result);
        ServedMore(old(transcript), prompts, late, results, logs, begun, result, log, look);
        JournalConcat(old(transcript), journal, log.journal, Steered);
        Associative(old(history), journal, log.journal);
        Associative(old(storage.Contents(opts.session)), Appended(journal), Appended(log.journal));
        results, logs, begun := results + [result], logs + [log], begun + [look];
        assert log in logs && forall l | l in earlier :: l in logs;
      }
    }

    lemma ServedNone(prompts: seq<Prompt>, late: nat -> bool)
      ensures Served(transcript, prompts, late, [], [], []) && FlatMap(JournalOf, []) == []
      ensures Current(transcript, []) == transcript && Appended([]) == []
    {
    }

    // A new session on the same store finds everything that was ever stored, not what compactions
    // made of it: the old transcript again exactly when nothing was replaced.
    method Resume() returns (resumed: Session)
      requires Valid()
      ensures fresh(resumed) && resumed.Valid() && resumed.storage == storage && resumed.opts == opts
      ensures resumed.transcript == loaded + Appended(history)
      ensures OnlyStored(history) ==> resumed.transcript == transcript
    {
      hide FlatMap, Current;
      resumed := new Session(opts, storage, world);
      if OnlyStored(history) {
        CurrentIsReplacementAndRest(loaded, history, 0);
        assert history[0..] == history;
      }
    }
  }

  predicate OnlyStored(journal: seq<Entry>) {
    forall i | 0 <= i < |journal| :: journal[i].Stored?
  }

  // ----- opening a session -----

  datatype NewError = ModelRequired | UnknownModel | NoAllowance | ToolUnnamed | ToolRepeated

  datatype Opened = Opened(session: Session) | NotOpened(error: NewError)

  type Tool = (ToolSchema, ExecutionMode)

  predicate ToolsNamed(tools: seq<Tool>) {
    && (forall i | 0 <= i < |tools| :: tools[i].0.name != "")
    && (forall i, j | 0 <= i < j < |tools| :: tools[i].0.name != tools[j].0.name)
  }

  // Each tool is found under its name, with its mode, and nothing else is.
  predicate ToolTable(table: map<string, ExecutionMode>, tools: seq<Tool>) {
    && (forall i | 0 <= i < |tools| :: tools[i].0.name in table && table[tools[i].0.name] == tools[i].1)
    && (forall name | name in table :: exists i :: 0 <= i < |tools| && tools[i].0.name == name)
  }

  // One more tool: it fits exactly when its name is not empty and new.
  lemma TableNext(table: map<string, ExecutionMode>, tools: seq<Tool>, tool: Tool)
    requires ToolsNamed(tools) && ToolTable(table, tools)
    ensures ToolsNamed(tools + [tool]) <==> tool.0.name != "" && tool.0.name !in table
    ensures tool.0.name !in table ==> ToolTable(table[tool.0.name := tool.1], tools + [tool])
  {
    var more := tools + [tool];
    assert more[|tools|] == tool && forall i | 0 <= i < |tools| :: more[i] == tools[i];
    if tool.0.name in table {
      var i :| 0 <= i < |tools| && tools[i].0.name == tool.0.name;
      assert more[i].0.name == more[|tools|].0.name;
    } else {
      var added := table[tool.0.name := tool.1];
      forall name | name in added
        ensures exists i :: 0 <= i < |more| && more[i].0.name == name
      {
        var i :| 0 <= i <= |tools| && if i == |tools| then name == tool.0.name else tools[i].0.name == name;
        assert more[i].0.name == name;
      }
    }
  }

  lemma NamedBefore(tools: seq<Tool>, n: nat)
    requires n <= |tools| && ToolsNamed(tools)
    ensures ToolsNamed(tools[..n])
  {
  }

  // The options a session keeps: all but the model, its allowance, the tools and a step limit that is
  // not positive, which is 16.
  predicate SameBut(given: Options, kept: Options, tools: seq<Tool>) {
    && kept.systemPrompt == given.systemPrompt && kept.mode == given.mode && kept.hasCompact == given.hasCompact
    && kept.maxParallelTools == given.maxParallelTools && kept.session == given.session
    && kept.setup.hasBefore == given.setup.hasBefore && kept.setup.hasAfter == given.setup.hasAfter
    && kept.maxSteps == (if given.maxSteps > 0 then given.maxSteps else 16)
    && |kept.tools| == |tools| && forall i | 0 <= i < |tools| :: kept.tools[i] == tools[i].0
  }

  method IndexTools(tools: seq<Tool>) returns (error: Option<NewError>, table: map<string, ExecutionMode>)
    ensures error.None? <==> ToolsNamed(tools)
    ensures error.None? ==> ToolTable(table, tools)
  {
    table := map[];
    for i := 0 to |tools|
      invariant ToolsNamed(tools[..i]) && ToolTable(table, tools[..i])
    {
      hide ToolsNamed, ToolTable;
      var (schema, mode) := tools[i];
      TableNext(table, tools[..i], tools[i]);
      assert tools[..i + 1] == tools[..i] + [tools[i]];
      if ToolsNamed(tools) {
        NamedBefore(tools, i + 1);
      }
      if schema.name == "" {
        return Some(ToolUnnamed), table;
      }
      if schema.name in table {
        return Some(ToolRepeated), table;
      }
      table := table[schema.name := mode];
    }
    assert tools[..|tools|] == tools;
    error := None;
  }

  // A session is opened exactly when the model id resolves, the model allows the output asked for,
  // and the tools have distinct names. It starts on the stored history.
  method NewSession(providers: Registry.Registry, modelId: string, allowance: Model -> Option<int>, options: Options, tools: seq<Tool>,
                    store: MemoryStorage, world: World) returns (r: Opened)
    requires providers.Valid()
    ensures r.Opened? ==> fresh(r.session) && r.session.Valid() && r.session.storage == store
                          && r.session.transcript == store.Contents(options.session)
                          && Registry.Resolves(providers.entries, modelId, r.session.opts.model)
                          && allowance(r.session.opts.model) == Some(r.session.opts.reserve)
                          && ToolTable(r.session.opts.setup.tools, tools)
                          && SameBut(options, r.session.opts, tools)
    ensures r.Opened? <==>
      modelId != "" && ToolsNamed(tools)
      && exists x :: Registry.Resolves(providers.entries, modelId, x) && allowance(x).Some?
  {
    hide Session.Valid, Registry.Registry.Valid, Registry.Resolves, ToolTable, ToolsNamed;
    if modelId == "" {
      return NotOpened(ModelRequired);
    }
    var found := providers.Find(modelId);
    if found.None? {
      return NotOpened(UnknownModel);
    }
    var model := found.value;
    assert Registry.Resolves(providers.entries, modelId, model);
    if allowance(model).None? {
      assert forall x :: Registry.Resolves(providers.entries, modelId, x) ==> Some(x) == found;
      return NotOpened(NoAllowance);
    }
    var error, table := IndexTools(tools);
    if error.Some? {
      return NotOpened(error.value);
    }
    var schemas := seq(|tools|, i requires 0 <= i < |tools| => tools[i].0);
    var resolved := options.(
      model := model, reserve := allowance(model).value, tools := schemas, setup := options.setup.(tools := table));
    var session := new Session(resolved, store, world);
    return Opened(session);
  }

  // ----- a cancelled run that does not end with an aborted error event -----

  const BARE := Options("", [], Setup(map[], false, false), Sequential, Model("m", "p", 0, 0), 0, 1, 0, false, "")

  const HI_ANSWERS := Answers(BeforeFailed(""), ToolFailed(""), AfterFailed(""))

  const HI := Prompt([UserText("hi")], false)

  lemma OneCall(call: ToolCall)
    ensures CallsIn([Call(call)]) == [call]
  {
    assert [Call(call)][1..] == [];
  }

  // The context ends while the compaction hook runs: the error event is not an aborted one.
  method AbortDuringHook() returns (s: Session, result: RunResult)
    ensures s.cancelled && result.CompactionFailed? && !AbortedEnd(s.log)
  {
    hide Session.Valid, Session.RunOver, Session.OnTime, Session.StopSeen, Accounted, Conversation, LeavesLegal,
         RequestsLegal, FlatMap, Current, Continuable, AbortedEnd, LastReason;
    var store := new MemoryStorage();
    var silent := Assistant([], "", "", "", "", Stop, "");
    var world := World(l => l == 3, _ => HookReturned(false, []), _ => [], _ => silent, _ => _ => HI_ANSWERS);
    s := new Session(BARE.(hasCompact := true, model := Model("m", "p", 1, 0)), store, world);
    result := s.RunPrompt(HI, false);
  }

  // The context ends during the tool batch of the last allowed step: there is no error event.
  method AbortInLastBatch() returns (s: Session, result: RunResult)
    ensures s.cancelled && result.StepLimit? && !AbortedEnd(s.log)
  {
    hide Session.Valid, Session.RunOver, Session.OnTime, Session.StopSeen, Accounted, Conversation, LeavesLegal,
         RequestsLegal, FlatMap, Current, Continuable, AbortedEnd, LastReason;
    var store := new MemoryStorage();
    var asking := Assistant([Call(ToolCall("1", "t", ""))], "", "", "", "", ToolUse, "");
    s := new Session(BARE, store, World(l => l == 4, _ => HookFailed, _ => [], _ => asking, _ => _ => HI_ANSWERS));
    OneCall(ToolCall("1", "t", ""));
    assert s.world.ends(4);
    assert s.ToolsNext(HI, 1);
    result := s.RunPrompt(HI, false);
  }
}
