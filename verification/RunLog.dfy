/** The record of one run: the events it emitted, what it appended and installed, the provider
    requests it made, the replies it got and the tool batches it executed. */
module RunLog {
  import opened Messages
  import opened Sequences
  import opened Transcript
  import opened Budget
  import opened Events
  import opened ToolBatch

  datatype Origin = Seeded | Steered | Replied | Resulted

  // A message appended to the transcript and stored, or a replacement of the whole transcript.
  datatype Entry = Stored(message: Message, origin: Origin) | Installed(replacement: seq<Message>)

  // One executed tool batch: its calls, what hooks and tools answered, its results, and its
  // execution events in order.
  datatype Execution = Execution(calls: seq<ToolCall>, answers: nat -> Answers, results: seq<Message>, marks: seq<Mark>)

  datatype HookAnswer = HookFailed | HookReturned(applied: bool, messages: seq<Message>)

  datatype CompactStatus = NotApplied | Applied | CompactError

  // One call of the compaction hook: on which transcript, what it answered, whether the run context
  // was over when it returned, and what came of it.
  datatype HookRun = HookRun(reason: CompactionReason, before: seq<Message>, answer: HookAnswer, cut: bool, status: CompactStatus)

  // start is the transcript the run found, opening the one its first step began with, steering
  // included; checks counts its checks for cancellation before a step.
  datatype Log = Log(
    start: seq<Message>,
    events: seq<Event>,
    journal: seq<Entry>,
    requests: seq<seq<Message>>,
    replies: seq<Assistant>,
    executions: seq<Execution>,
    hooks: seq<HookRun>,
    opening: Option<seq<Message>>,
    checks: nat
  )

  function JournalOf(log: Log): seq<Entry> {
    log.journal
  }

  function NewLog(start: seq<Message>): Log {
    Log(start, [], [], [], [], [], [], None, 0)
  }

  // What a run is given: its seed, the tools and hooks, whether it continues a transcript, and which
  // transcripts are over the compaction trigger.
  datatype Terms = Terms(seed: seq<Message>, setup: Setup, hasHook: bool, continuation: bool, over: seq<Message> -> bool)

  // ----- reading a journal -----

  function MessageOf(e: Entry): seq<Message> {
    if e.Stored? then [e.message] else []
  }

  // Everything that was stored.
  function Appended(journal: seq<Entry>): seq<Message> {
    FlatMap(MessageOf, journal)
  }

  function MessageFrom(origin: Origin): Entry -> seq<Message> {
    (e: Entry) => if e.Stored? && e.origin == origin then [e.message] else []
  }

  // What was stored with one origin.
  function From(journal: seq<Entry>, origin: Origin): seq<Message> {
    FlatMap(MessageFrom(origin), journal)
  }

  function ReplacementOf(e: Entry): seq<seq<Message>> {
    if e.Installed? then [e.replacement] else []
  }

  // The replacements, in order.
  function Installs(journal: seq<Entry>): seq<seq<Message>> {
    FlatMap(ReplacementOf, journal)
  }

  // The transcript the journal leads to.
  function Current(start: seq<Message>, journal: seq<Entry>): seq<Message> {
    if journal == [] then start
    else
      var last := journal[|journal| - 1];
      if last.Installed? then last.replacement else Current(start, journal[..|journal| - 1]) + [last.message]
  }

  function Tag(ms: seq<Message>, origin: Origin): seq<Entry> {
    seq(|ms|, i requires 0 <= i < |ms| => Stored(ms[i], origin))
  }

  lemma {:induction false} JournalConcat(start: seq<Message>, a: seq<Entry>, b: seq<Entry>, origin: Origin)
    ensures Appended(a + b) == Appended(a) + Appended(b)
    ensures From(a + b, origin) == From(a, origin) + From(b, origin)
    ensures Current(start, a + b) == Current(Current(start, a), b)
    ensures Installs(a + b) == Installs(a) + Installs(b)
  {
    FlatMapAppend(ReplacementOf, a, b);
    FlatMapAppend(MessageOf, a, b);
    FlatMapAppend(MessageFrom(origin), a, b);
    CurrentConcat(start, a, b);
  }

  lemma {:induction false} CurrentConcat(start: seq<Message>, a: seq<Entry>, b: seq<Entry>)
    ensures Current(start, a + b) == Current(Current(start, a), b)
    decreases |b|
  {
    if b == [] {
      assert a + b == a;
    } else {
      CurrentConcat(start, a, b[..|b| - 1]);
      assert (a + b)[..|a + b| - 1] == a + b[..|b| - 1];
    }
  }

  lemma {:induction false} TagFacts(start: seq<Message>, ms: seq<Message>, tagged: Origin, origin: Origin)
    ensures Appended(Tag(ms, tagged)) == ms
    ensures From(Tag(ms, tagged), origin) == if origin == tagged then ms else []
    ensures Current(start, Tag(ms, tagged)) == start + ms && Installs(Tag(ms, tagged)) == []
    decreases |ms|
  {
    if ms != [] {
      hide FlatMap, Current;
      var init, last := ms[..|ms| - 1], ms[|ms| - 1];
      TagFacts(start, init, tagged, origin);
      assert ms == init + [last] && Tag(ms, tagged) == Tag(init, tagged) + [Stored(last, tagged)];
      ExtendJournal(start, Tag(init, tagged), Stored(last, tagged));
      Associative(start, init, [last]);
    }
  }

  lemma JournalGrows(a: seq<Entry>, b: seq<Entry>, origin: Origin)
    requires a <= b
    ensures From(a, origin) <= From(b, origin)
  {
    assert b == a + b[|a|..];
    FlatMapAppend(MessageFrom(origin), a, b[|a|..]);
  }

  lemma ExtendJournal(start: seq<Message>, journal: seq<Entry>, e: Entry)
    ensures Appended(journal + [e]) == Appended(journal) + (if e.Stored? then [e.message] else [])
    ensures Current(start, journal + [e]) == if e.Installed? then e.replacement else Current(start, journal) + [e.message]
    ensures forall o :: From(journal + [e], o) == From(journal, o) + (if e.Stored? && e.origin == o then [e.message] else [])
    ensures Installs(journal + [e]) == Installs(journal) + (if e.Installed? then [e.replacement] else [])
  {
    FlatMapOneMore(ReplacementOf, journal, e);
    assert (journal + [e])[..|journal|] == journal;
    FlatMapOneMore(MessageOf, journal, e);
    forall o {
      FlatMapOneMore(MessageFrom(o), journal, e);
    }
  }

  lemma Tagged(start: seq<Message>, journal: seq<Entry>, ms: seq<Message>, tagged: Origin, origin: Origin)
    ensures Appended(journal + Tag(ms, tagged)) == Appended(journal) + ms
    ensures From(journal + Tag(ms, tagged), origin) == From(journal, origin) + (if origin == tagged then ms else [])
    ensures Current(start, journal + Tag(ms, tagged)) == Current(start, journal) + ms
    ensures Installs(journal + Tag(ms, tagged)) == Installs(journal)
  {
    JournalConcat(start, journal, Tag(ms, tagged), origin);
    TagFacts(Current(start, journal), ms, tagged, origin);
  }

  // The active transcript is the last installed replacement (or the start), followed by exactly
  // the messages stored since.
  lemma {:induction false} CurrentIsReplacementAndRest(start: seq<Message>, journal: seq<Entry>, k: nat)
    requires k <= |journal| && forall i | k <= i < |journal| :: journal[i].Stored?
    requires k == 0 || journal[k - 1].Installed?
    ensures Current(start, journal) == (if k == 0 then start else journal[k - 1].replacement) + Appended(journal[k..])
    decreases |journal|
  {
    if k == |journal| {
      assert journal[k..] == [];
    } else {
      hide FlatMap;
      var init, last := journal[..|journal| - 1], journal[|journal| - 1];
      var base := if k == 0 then start else journal[k - 1].replacement;
      CurrentIsReplacementAndRest(start, init, k);
      assert journal[k..] == init[k..] + [last];
      ExtendJournal([], init[k..], last);
      Associative(base, Appended(init[k..]), [last.message]);
    }
  }

  function KeptOf(reply: Assistant): seq<Message> {
    if reply.stopReason == ContextWindow then [] else [Reply(reply)]
  }

  // The replies that are appended: all but the rejections for an exceeded context window.
  function Kept(replies: seq<Assistant>): seq<Message> {
    FlatMap(KeptOf, replies)
  }

  // ----- compactions in a journal -----

  predicate OnlyUsers(journal: seq<Entry>) {
    forall i | 0 <= i < |journal| && journal[i].Stored? :: journal[i].message.User?
  }

  // Replacements are legal, and only user messages were stored before one.
  ghost predicate Clean(journal: seq<Entry>) {
    forall i | 0 <= i < |journal| && journal[i].Installed? ::
      Conversation(journal[i].replacement) && OnlyUsers(journal[..i])
  }

  lemma {:induction false} OnlyUsersAppended(journal: seq<Entry>)
    requires OnlyUsers(journal)
    ensures AllUser(Appended(journal))
  {
    if journal != [] {
      OnlyUsersAppended(journal[1..]);
    }
  }

  // The index after the last replacement.
  function Replaced(journal: seq<Entry>): (k: nat)
    ensures k <= |journal| && (k == 0 || journal[k - 1].Installed?)
    ensures forall i | k <= i < |journal| :: journal[i].Stored?
  {
    if journal == [] || journal[|journal| - 1].Installed? then |journal| else Replaced(journal[..|journal| - 1])
  }

  // From a legal start, the transcript of a run is legal exactly when what the run stored is: the
  // replacements it stands on are legal, and what they replaced of its own were user messages.
  lemma LegalAsStored(start: seq<Message>, journal: seq<Entry>)
    requires Clean(journal) && Conversation(start)
    ensures Conversation(Current(start, journal)) <==> Conversation(Appended(journal))
  {
    hide FlatMap, Current, Conversation;
    var k := Replaced(journal);
    var base := if k == 0 then start else journal[k - 1].replacement;
    CurrentIsReplacementAndRest(start, journal, k);
    ConcatenationKeepsConversations(base, Appended(journal[k..]));
    assert journal == journal[..k] + journal[k..];
    FlatMapAppend(MessageOf, journal[..k], journal[k..]);
    assert OnlyUsers(journal[..k]) by {
      if k > 0 {
        assert OnlyUsers(journal[..k - 1]);
        assert forall i | 0 <= i < k - 1 :: journal[..k][i] == journal[..k - 1][i];
      }
    }
    OnlyUsersAppended(journal[..k]);
    UsersAreConversation(Appended(journal[..k]));
    ConcatenationKeepsConversations(Appended(journal[..k]), Appended(journal[k..]));
  }

  lemma CleanGrows(journal: seq<Entry>, more: seq<Entry>)
    requires Clean(journal) && forall e | e in more :: e.Stored?
    ensures Clean(journal + more)
  {
    var all := journal + more;
    forall i | |journal| <= i < |all|
      ensures all[i].Stored?
    {
      assert all[i] == more[i - |journal|] && more[i - |journal|] in more;
    }
    forall i | 0 <= i < |all| && all[i].Installed?
      ensures Conversation(all[i].replacement) && OnlyUsers(all[..i])
    {
      assert all[i] == journal[i] && all[..i] == journal[..i];
    }
  }

  lemma CleanInstalled(journal: seq<Entry>, replacement: seq<Message>)
    requires Clean(journal) && OnlyUsers(journal) && Conversation(replacement)
    ensures Clean(journal + [Installed(replacement)])
  {
    var all := journal + [Installed(replacement)];
    forall i | 0 <= i < |all| && all[i].Installed?
      ensures Conversation(all[i].replacement) && OnlyUsers(all[..i])
    {
      if i < |journal| {
        assert all[i] == journal[i] && all[..i] == journal[..i];
      } else {
        assert all[..i] == journal;
      }
    }
  }

  // ----- what a log always satisfies -----

  // Exactly the messages announced as complete were stored, in order; the kept replies are among
  // them in order; every request has its reply, and every reply was announced.
  ghost predicate Sound(log: Log) {
    && Completed(log.events) == Appended(log.journal)
    && From(log.journal, Replied) == Kept(log.replies)
    && |log.requests| == |log.replies|
    && Replies(log.events) == log.replies
  }

  // Messages can be announced: the run has started and no message or compaction is open.
  predicate Quiet(log: Log) {
    Follow(log.events) == Between || Follow(log.events) == InTurn
  }

  // The events grew, by these tool events, without leaving the phase or ending a compaction or a turn.
  ghost predicate SamePlace(before: seq<Event>, after: seq<Event>, tools: seq<Event>) {
    && before <= after
    && Follow(after) == Follow(before)
    && Compactions(after) == Compactions(before)
    && Reported(after) == Reported(before)
    && Turns(after) == Turns(before)
    && ToolEvents(after) == ToolEvents(before) + tools
  }

  // Exactly these entries were journalled, each announced, and these tool events emitted.
  ghost predicate Grew(before: Log, after: Log, entries: seq<Entry>, tools: seq<Event>) {
    && SamePlace(before.events, after.events, tools)
    && after == before.(events := after.events, journal := before.journal + entries)
    && Sound(after)
  }

  lemma GrewMore(a: Log, b: Log, c: Log, entries: seq<Entry>, more: seq<Entry>, tools: seq<Event>, moreTools: seq<Event>)
    requires Grew(a, b, entries, tools) && Grew(b, c, more, moreTools)
    ensures Grew(a, c, entries + more, tools + moreTools)
  {
    hide FlatMap, Follow;
    Associative(a.journal, entries, more);
    Associative(ToolEvents(a.events), tools, moreTools);
  }

  lemma GrewNothing(log: Log)
    requires Sound(log)
    ensures Grew(log, log, [], [])
  {
  }

  lemma GrewQuiet(before: Log, after: Log, entries: seq<Entry>, tools: seq<Event>)
    requires Grew(before, after, entries, tools) && Quiet(before)
    ensures Quiet(after) && Sound(after)
  {
  }

  lemma GrewPlace(before: Log, after: Log, entries: seq<Entry>, tools: seq<Event>)
    requires Grew(before, after, entries, tools)
    ensures Follow(after.events) == Follow(before.events)
  {
  }

  lemma AnnouncedGrows(before: Log, after: Log, m: Message, origin: Origin)
    requires Sound(before) && Quiet(before) && !m.Reply? && origin != Replied
    requires after == before.(
      events := before.events + [MessageStart(m)] + [MessageEnd(m)],
      journal := before.journal + [Stored(m, origin)])
    ensures Grew(before, after, [Stored(m, origin)], [])
  {
    hide FlatMap, Follow, Current;
    Extend(before.events, MessageStart(m));
    Extend(before.events + [MessageStart(m)], MessageEnd(m));
    ExtendJournal(before.start, before.journal, Stored(m, origin));
  }

  // ----- one provider stream -----

  datatype StreamEvent = StreamStart(partial: Assistant) | StreamDelta(id: nat) | StreamDone | StreamError

  // The first announcement of a reply in a stream, or its end if there is none.
  function FirstStart(stream: seq<StreamEvent>): (k: nat)
    ensures k <= |stream| && (k < |stream| ==> stream[k].StreamStart?)
    ensures forall i | 0 <= i < k :: !stream[i].StreamStart?
  {
    if stream == [] || stream[0].StreamStart? then 0 else 1 + FirstStart(stream[1..])
  }

  function RelayedBy(e: StreamEvent): seq<Event> {
    match e
    case StreamStart(partial) => [MessageStart(Reply(partial))]
    case StreamDelta(id) => [MessageDelta(id)]
    case _ => []
  }

  // What a stream shows of its reply in progress: everything from its first announcement on.
  function Relayed(stream: seq<StreamEvent>): seq<Event> {
    FlatMap(RelayedBy, stream[FirstStart(stream)..])
  }

  lemma RelayNext(stream: seq<StreamEvent>, i: nat)
    requires i < |stream|
    ensures
      var k := FirstStart(stream);
      && (i < k ==> !stream[i].StreamStart?)
      && (k <= i ==> FlatMap(RelayedBy, stream[k..i + 1]) == FlatMap(RelayedBy, stream[k..i]) + RelayedBy(stream[i]))
  {
    hide FlatMap, FirstStart;
    var k := FirstStart(stream);
    if k <= i {
      assert stream[k..i + 1] == stream[k..i] + [stream[i]];
      FlatMapOneMore(RelayedBy, stream[k..i], stream[i]);
    }
  }

  function KeptEntries(reply: Assistant): seq<Entry> {
    if reply.stopReason == ContextWindow then [] else [Stored(Reply(reply), Replied)]
  }

  // Exactly one request was made and answered; the reply was stored unless it was rejected.
  ghost predicate Heard(before: Log, after: Log, request: seq<Message>, reply: Assistant) {
    && SamePlace(before.events, after.events, [])
    && after == before.(
         events := after.events,
         journal := before.journal + KeptEntries(reply),
         requests := before.requests + [request],
         replies := before.replies + [reply])
    && Sound(after)
  }

  // Only events of a reply in progress were added.
  ghost predicate Streaming(before: seq<Event>, after: seq<Event>, started: bool) {
    && before <= after
    && Follow(before) == InTurn
    && (if started then Follow(after).Speaking? && Follow(after).inTurn && Follow(after).message.Reply? else Follow(after) == InTurn)
    && Compactions(after) == Compactions(before)
    && Reported(after) == Reported(before)
    && Completed(after) == Completed(before)
    && ToolEvents(after) == ToolEvents(before)
    && Turns(after) == Turns(before)
    && Replies(after) == Replies(before)
  }

  lemma StreamMore(before: seq<Event>, after: seq<Event>, started: bool, e: Event)
    requires Streaming(before, after, started)
    requires (e.MessageStart? && e.message.Reply?) || (started && e.MessageDelta?)
    ensures Streaming(before, after + [e], true)
  {
    hide FlatMap, Follow;
    Extend(after, e);
  }

  lemma StreamEnds(before: Log, streamed: seq<Event>, after: Log, request: seq<Message>, reply: Assistant)
    requires Sound(before) && Streaming(before.events, streamed, true)
    requires after == before.(
      events := streamed + [MessageEnd(Reply(reply))],
      journal := before.journal + KeptEntries(reply),
      requests := before.requests + [request],
      replies := before.replies + [reply])
    ensures Heard(before, after, request, reply)
  {
    hide FlatMap, Follow, Current;
    Extend(streamed, MessageEnd(Reply(reply)));
    KeptReply(before.start, before.journal, reply);
    FlatMapOneMore(KeptOf, before.replies, reply);
  }

  lemma KeptReply(start: seq<Message>, journal: seq<Entry>, reply: Assistant)
    ensures Appended(journal + KeptEntries(reply)) == Appended(journal) + KeptOf(reply)
    ensures Current(start, journal + KeptEntries(reply)) == Current(start, journal) + KeptOf(reply)
    ensures forall o :: From(journal + KeptEntries(reply), o) == From(journal, o) + (if o == Replied then KeptOf(reply) else [])
    ensures Installs(journal + KeptEntries(reply)) == Installs(journal)
  {
    hide FlatMap;
    if reply.stopReason == ContextWindow {
      assert journal + [] == journal;
    } else {
      ExtendJournal(start, journal, Stored(Reply(reply), Replied));
    }
  }

  // ----- compaction -----

  function Offered(h: HookRun): seq<Message> {
    if h.answer.HookReturned? then h.answer.messages else []
  }

  function CallOf(h: HookRun): seq<HookCall> {
    [HookCall(h.reason, h.status == Applied)]
  }

  function InstalledBy(h: HookRun): seq<seq<Message>> {
    if h.status == Applied then [Offered(h)] else []
  }

  function Installation(h: HookRun): seq<Entry> {
    if h.status == Applied then [Installed(Offered(h))] else []
  }

  // One compaction attempt: its two events, the record of the call, and the replacement when it was applied.
  ghost predicate Compacted(before: Log, after: Log, h: HookRun, usage: ContextUsage, reduced: ContextUsage) {
    && after.events ==
         before.events + [CompactionStart(h.reason, usage)] + [CompactionEnd(h.reason, usage, reduced, h.status == Applied)]
    && after == before.(events := after.events, journal := before.journal + Installation(h), hooks := before.hooks + [h])
    && Follow(after.events) == Between
    && Compactions(after.events) == Compactions(before.events) + CallOf(h)
    && Installs(after.journal) == Installs(before.journal) + InstalledBy(h)
    && Reported(after.events) == Reported(before.events)
    && ToolEvents(after.events) == ToolEvents(before.events)
    && Turns(after.events) == Turns(before.events)
    && (forall o :: From(after.journal, o) == From(before.journal, o))
    && Sound(after)
  }

  lemma CompactionLogged(before: Log, after: Log, h: HookRun, usage: ContextUsage, reduced: ContextUsage)
    requires Sound(before) && Follow(before.events) == Between
    requires after.events ==
      before.events + [CompactionStart(h.reason, usage)] + [CompactionEnd(h.reason, usage, reduced, h.status == Applied)]
    requires after == before.(events := after.events, journal := before.journal + Installation(h), hooks := before.hooks + [h])
    ensures Compacted(before, after, h, usage, reduced)
    ensures Current(after.start, after.journal) == if h.status == Applied then Offered(h) else Current(before.start, before.journal)
    ensures Appended(after.journal) == Appended(before.journal)
  {
    hide FlatMap, Follow, Current;
    ExtendByCompaction(before.events, h.reason, usage, reduced, h.status == Applied);
    if h.status == Applied {
      ExtendJournal(before.start, before.journal, Installed(Offered(h)));
    } else {
      assert after.journal == before.journal;
    }
  }

  // Nothing else has changed.
  lemma CalledOnce(before: Log, after: Log, h: HookRun, usage: ContextUsage, reduced: ContextUsage)
    requires Compacted(before, after, h, usage, reduced)
    ensures after.hooks == before.hooks + [h] && after.opening == before.opening && after.start == before.start
    ensures after.requests == before.requests && after.replies == before.replies && after.checks == before.checks
    ensures after.executions == before.executions && before.journal <= after.journal
    ensures Turns(after.events) == Turns(before.events) && Follow(after.events) == Between
    ensures Compactions(after.events) == Compactions(before.events) + CallOf(h)
    ensures From(after.journal, Steered) == From(before.journal, Steered)
  {
    hide FlatMap, Follow, Current, Sound;
  }

  lemma CompactionTagged(start: seq<Message>, journal: seq<Entry>, h: HookRun)
    ensures Appended(journal + Installation(h)) == Appended(journal)
    ensures Current(start, journal + Installation(h)) == if h.status == Applied then Offered(h) else Current(start, journal)
    ensures forall o :: From(journal + Installation(h), o) == From(journal, o)
  {
    hide FlatMap, Current;
    if h.status == Applied {
      ExtendJournal(start, journal, Installed(Offered(h)));
      assert Appended(journal) + [] == Appended(journal);
      forall o
        ensures From(journal, o) + [] == From(journal, o)
      {
      }
    } else {
      assert journal + Installation(h) == journal;
    }
  }

  // ----- tool batches -----

  function MarkEvents(setup: Setup, calls: seq<ToolCall>, answers: nat -> Answers): Mark -> seq<Event> {
    (mark: Mark) =>
      if mark.i >= |calls| then []
      else if mark.Started? then [ToolStart(calls[mark.i])]
      else [ToolEnd(calls[mark.i], RunToolCall(setup, calls[mark.i], answers(mark.i)))]
  }

  function Render(setup: Setup, calls: seq<ToolCall>, answers: nat -> Answers, marks: seq<Mark>): seq<Event> {
    FlatMap(MarkEvents(setup, calls, answers), marks)
  }

  // The results were appended and announced in turn, and the tool events emitted are those of marks.
  ghost predicate Executed(
    before: Log, after: Log, setup: Setup, calls: seq<ToolCall>, answers: nat -> Answers, results: seq<Message>, marks: seq<Mark>)
  {
    Grew(before, after, Tag(results, Resulted), Render(setup, calls, answers, marks))
  }

  lemma ExecutedNone(log: Log, setup: Setup, calls: seq<ToolCall>, answers: nat -> Answers)
    requires Sound(log)
    ensures Executed(log, log, setup, calls, answers, [], [])
  {
    GrewNothing(log);
    assert Tag([], Resulted) == [];
  }

  lemma ExecutedMark(
    before: Log, after: Log, setup: Setup, calls: seq<ToolCall>, answers: nat -> Answers,
    results: seq<Message>, marks: seq<Mark>, mark: Mark)
    requires Executed(before, after, setup, calls, answers, results, marks)
    requires Follow(before.events) == InTurn && mark.i < |calls|
    ensures
      var marked := after.(events := after.events + MarkEvents(setup, calls, answers)(mark));
      && Executed(before, marked, setup, calls, answers, results, marks + [mark])
      && Sound(marked) && Follow(marked.events) == InTurn
      && (results == [] ==> marked.journal == before.journal)
  {
    hide FlatMap, Follow;
    Extend(after.events, MarkEvents(setup, calls, answers)(mark)[0]);
    FlatMapOneMore(MarkEvents(setup, calls, answers), marks, mark);
    Associative(ToolEvents(before.events), Render(setup, calls, answers, marks), MarkEvents(setup, calls, answers)(mark));
  }

  lemma ExecutedInTurn(
    before: Log, after: Log, setup: Setup, calls: seq<ToolCall>, answers: nat -> Answers, marks: seq<Mark>)
    requires Executed(before, after, setup, calls, answers, [], marks)
    ensures after.journal == before.journal && Follow(after.events) == Follow(before.events)
  {
  }

  lemma ExecutedResult(
    before: Log, mid: Log, after: Log, setup: Setup, calls: seq<ToolCall>, answers: nat -> Answers,
    results: seq<Message>, result: Message, marks: seq<Mark>)
    requires Executed(before, mid, setup, calls, answers, results, marks)
    requires Grew(mid, after, [Stored(result, Resulted)], [])
    ensures Executed(before, after, setup, calls, answers, results + [result], marks)
  {
    hide FlatMap, Follow;
    GrewMore(before, mid, after, Tag(results, Resulted), [Stored(result, Resulted)], Render(setup, calls, answers, marks), []);
    assert Tag(results + [result], Resulted) == Tag(results, Resulted) + [Stored(result, Resulted)];
    assert Render(setup, calls, answers, marks) + [] == Render(setup, calls, answers, marks);
  }

  lemma ExecutedTwice(
    a: Log, b: Log, c: Log, setup: Setup, calls: seq<ToolCall>, answers: nat -> Answers,
    results: seq<Message>, more: seq<Message>, marks: seq<Mark>, moreMarks: seq<Mark>)
    requires Executed(a, b, setup, calls, answers, results, marks) && Executed(b, c, setup, calls, answers, more, moreMarks)
    ensures Executed(a, c, setup, calls, answers, results + more, marks + moreMarks)
  {
    hide FlatMap, Follow, Grew;
    GrewMore(
      a, b, c, Tag(results, Resulted), Tag(more, Resulted),
      Render(setup, calls, answers, marks), Render(setup, calls, answers, moreMarks));
    assert Tag(results + more, Resulted) == Tag(results, Resulted) + Tag(more, Resulted);
    FlatMapAppend(MarkEvents(setup, calls, answers), marks, moreMarks);
  }

  lemma ResultsMatch(calls: seq<ToolCall>, outcomes: seq<Outcome>)
    requires |outcomes| == |calls|
    ensures Matches(calls, ResultMessages(calls, outcomes))
  {
  }

  lemma ExecutedPhase(
    before: Log, after: Log, setup: Setup, calls: seq<ToolCall>, answers: nat -> Answers, results: seq<Message>, marks: seq<Mark>)
    requires Executed(before, after, setup, calls, answers, results, marks)
    ensures Follow(after.events) == Follow(before.events)
  {
  }

  // A batch ran as it should: the results are those of its first calls in order, at least one, and
  // each of those calls has one start before one end.
  ghost predicate RanInOrder(setup: Setup, x: Execution) {
    && 0 < |x.results| <= |x.calls|
    && x.results == ResultMessages(x.calls, Outcomes(setup, x.calls, x.answers))[..|x.results|]
    && Paired(x.marks, |x.results|)
  }

  function Rendered(setup: Setup): Execution -> seq<Event> {
    (x: Execution) => Render(setup, x.calls, x.answers, x.marks)
  }

  function ResultsOf(x: Execution): seq<Message> {
    x.results
  }

  function CallsOf(x: Execution): seq<seq<ToolCall>> {
    [x.calls]
  }

  function AskedBy(reply: Assistant): seq<seq<ToolCall>> {
    if reply.stopReason == ToolUse && reply.ToolCalls() != [] then [reply.ToolCalls()] else []
  }

  // Exactly the calls of the tool-use replies were executed, batch by batch.
  ghost predicate AllExecuted(log: Log) {
    FlatMap(AskedBy, log.replies) == FlatMap(CallsOf, log.executions)
  }

  // The tool events, stored results and reported results are exactly those of the executed batches.
  ghost predicate Booked(log: Log, setup: Setup) {
    && ToolEvents(log.events) == FlatMap(Rendered(setup), log.executions)
    && From(log.journal, Resulted) == FlatMap(ResultsOf, log.executions)
    && Reported(log.events) == FlatMap(ResultsOf, log.executions)
    && (forall x | x in log.executions :: RanInOrder(setup, x))
  }

  // ----- legality of requests -----

  predicate Named(reply: Assistant) {
    reply.stopReason == ToolUse ==> WellNamed(reply.ToolCalls())
  }

  predicate NamedUpTo(replies: seq<Assistant>, n: nat) {
    n <= |replies| && forall j | 0 <= j < n :: Named(replies[j])
  }

  lemma NamedExtends(replies: seq<Assistant>, reply: Assistant)
    ensures NamedUpTo(replies + [reply], |replies| + 1) <==> NamedUpTo(replies, |replies|) && Named(reply)
    ensures forall k | 0 <= k <= |replies| :: NamedUpTo(replies + [reply], k) <==> NamedUpTo(replies, k)
  {
    var all := replies + [reply];
    assert all[|replies|] == reply;
    assert forall j | 0 <= j < |replies| :: all[j] == replies[j];
  }

  // A request is a legal transcript exactly when every earlier reply of the run that asked for
  // tools named its calls well.
  ghost predicate RequestsLegal(log: Log) {
    && |log.requests| <= |log.replies| + 1
    && forall k | 0 <= k < |log.requests| :: Conversation(log.requests[k]) <==> NamedUpTo(log.replies, k)
  }

  // What a run has stored between two steps: legal, or spoiled for good by badly named calls.
  ghost predicate Standing(named: bool, t: seq<Message>) {
    if named then Conversation(t) else Poisoned(t)
  }

  lemma StandingIsExact(named: bool, t: seq<Message>)
    requires Standing(named, t)
    ensures Conversation(t) <==> named
  {
    if !named {
      PoisonStays(t, []);
      assert t + [] == t;
    }
  }

  lemma StandingGrows(named: bool, t: seq<Message>, users: seq<Message>)
    requires Standing(named, t) && AllUser(users)
    ensures Standing(named, t + users)
  {
    if named {
      UsersAreConversation(users);
      ConcatenationKeepsConversations(t, users);
    } else {
      PoisonStays(t, users);
    }
  }

  // After a tool-use reply and a prefix of its results: legal exactly if the calls are well named
  // and the results complete, spoiled for good if the calls are badly named, complete or not.
  lemma StandingAfterBatch(named: bool, t: seq<Message>, a: Assistant, results: seq<Message>)
    requires Standing(named, t) && a.stopReason == ToolUse && a.ToolCalls() != []
    requires Matches(a.ToolCalls(), results) || |results| < |a.ToolCalls()|
    ensures Conversation(t + [Reply(a)] + results) <==> named && Named(a) && |results| == |a.ToolCalls()|
    ensures |results| == |a.ToolCalls()| ==> Standing(named && Named(a), t + [Reply(a)] + results)
    ensures !(named && Named(a)) ==> Poisoned(t + [Reply(a)] + results)
  {
    var all := t + [Reply(a)] + results;
    if !named {
      PoisonStays(t, [Reply(a)] + results);
      assert t + ([Reply(a)] + results) == all;
      StandingIsExact(false, all);
    } else if !Named(a) {
      assert all[..|t|] == t;
      assert PoisonedAt(all, |t|);
      StandingIsExact(false, all);
    } else if |results| == |a.ToolCalls()| {
      CompleteBatch(t, a, results);
    } else {
      ShortBatch(t, a, results);
    }
  }

  // After a reply whose calls are not executed: legal exactly if it has none and does not claim any.
  lemma StandingAfterReply(named: bool, t: seq<Message>, a: Assistant)
    requires Standing(named, t) && !(a.stopReason == ToolUse && a.ToolCalls() != [])
    ensures Conversation(t + [Reply(a)]) <==> named && a.stopReason != ToolUse && a.ToolCalls() == []
  {
    if named {
      LoneReply(t, a);
    } else {
      PoisonStays(t, [Reply(a)]);
    }
  }

  // A transcript that ends with a reply and some of its results can be continued exactly when the
  // calls are well named and no result is missing.
  lemma BatchContinues(t: seq<Message>, a: Assistant, results: seq<Message>)
    requires a.ToolCalls() != [] && results != []
    requires forall i | 0 <= i < |results| :: results[i].ToolResult?
    requires |results| == |a.ToolCalls()| ==> Matches(a.ToolCalls(), results)
    ensures Continuable(t + [Reply(a)] + results) <==> WellNamed(a.ToolCalls()) && |results| == |a.ToolCalls()|
  {
    var all := t + [Reply(a)] + results;
    var k := |t|;
    assert all[k] == Reply(a) && all[k + 1..] == results;
    if Continuable(all) {
      var j: nat :| ContinuableAt(all, j);
      BatchBeforeTail(all, k + 1, j);
    }
    if WellNamed(a.ToolCalls()) && |results| == |a.ToolCalls()| {
      assert ContinuableAt(all, k);
    }
  }

  // ----- the compactions of one run -----

  // At most one compaction for each reason, the threshold first; none without a hook or in a continuation.
  predicate CompactionsOf(cs: seq<HookCall>, hasHook: bool, continuation: bool) {
    && |cs| <= 2
    && (|cs| == 2 ==> cs[0].reason == Threshold && cs[1].reason == Overflow)
    && (!hasHook || continuation ==> cs == [])
  }

  predicate ThresholdAtMost(cs: seq<HookCall>) {
    |cs| <= 1 && (cs != [] ==> cs[0].reason == Threshold)
  }

  // The first attempt was redone after an applied overflow compaction.
  predicate Retried(cs: seq<HookCall>) {
    HookCall(Overflow, true) in cs
  }

  // ----- the progress of a run -----

  predicate LastReply(log: Log, reply: Assistant) {
    log.replies != [] && log.replies[|log.replies| - 1] == reply
  }

  // The compactions announced and the replacements installed are those of the hook's calls.
  ghost predicate HooksBooked(log: Log) {
    && Compactions(log.events) == FlatMap(CallOf, log.hooks)
    && Installs(log.journal) == FlatMap(InstalledBy, log.hooks)
  }

  predicate Thresholds(hooks: seq<HookRun>) {
    hooks != [] && hooks[0].reason == Threshold
  }

  predicate ThresholdFails(hooks: seq<HookRun>) {
    hooks != [] && hooks[0].reason == Threshold && hooks[0].status == CompactError
  }

  predicate Overflows(hooks: seq<HookRun>) {
    hooks != [] && hooks[|hooks| - 1].reason == Overflow
  }

  // The transcript of the first request: the one the step began with, or its replacement.
  function FirstGround(log: Log): seq<Message>
    requires log.opening.Some?
  {
    if Thresholds(log.hooks) && log.hooks[0].status == Applied then Offered(log.hooks[0]) else log.opening.value
  }

  // Which calls of the hook a run makes, and what follows from them. The threshold is asked about
  // exactly when the transcript of the first step is over the trigger, an overflow exactly when the
  // first reply is a rejection, and never without a hook or in a continuation. A failed threshold
  // call leaves no request; after an overflow there is a second request with the replacement, or none.
  predicate HooksInOrder(log: Log, terms: Terms) {
    var hooks := log.hooks;
    && |hooks| <= 2 && (|hooks| == 2 ==> Thresholds(hooks) && Overflows(hooks))
    && (Thresholds(hooks) <==> log.opening.Some? && terms.hasHook && !terms.continuation && terms.over(log.opening.value))
    && (Thresholds(hooks) ==> hooks[0].before == log.opening.value && (hooks[0].status == CompactError ==> log.requests == []))
    && (log.requests != [] ==> log.opening.Some? && log.requests[0] == FirstGround(log))
    && (Overflows(hooks) <==>
          terms.hasHook && !terms.continuation && log.replies != [] && log.replies[0].stopReason == ContextWindow)
    && (Overflows(hooks) && log.requests != [] ==>
          var h := hooks[|hooks| - 1];
          && h.before == log.requests[0]
          && if h.status == Applied then |log.requests| >= 2 && log.requests[1] == Offered(h) else |log.requests| == 1)
  }

  // The first reply is a rejection, and there is a hook to ask.
  predicate OverflowDue(log: Log, terms: Terms) {
    && |log.replies| == 1 && log.replies[0].stopReason == ContextWindow && terms.hasHook && !terms.continuation
    && log.opening.Some? && log.requests == [FirstGround(log)] && |log.hooks| <= 1 && !Overflows(log.hooks)
    && (Thresholds(log.hooks) <==> terms.over(log.opening.value))
    && (Thresholds(log.hooks) ==> log.hooks[0].before == log.opening.value && log.hooks[0].status != CompactError)
  }

  lemma OpensInOrder(log: Log, terms: Terms)
    requires log.opening.Some? && log.requests == [] && log.replies == []
    requires log.hooks == [] && (terms.hasHook && !terms.continuation ==> !terms.over(log.opening.value))
    ensures HooksInOrder(log, terms) && FirstGround(log) == log.opening.value && !Overflows(log.hooks)
  {
  }

  lemma ThresholdInOrder(log: Log, h: HookRun, terms: Terms)
    requires log.opening == Some(h.before) && log.requests == [] && log.replies == []
    requires log.hooks == [h] && h.reason == Threshold && terms.hasHook && !terms.continuation && terms.over(h.before)
    ensures HooksInOrder(log, terms) && !Overflows(log.hooks)
    ensures FirstGround(log) == if h.status == Applied then Offered(h) else h.before
  {
  }

  // One more request and its reply: in order, or a rejection to be dealt with.
  lemma RequestInOrder(before: Log, after: Log, request: seq<Message>, reply: Assistant, terms: Terms)
    requires HooksInOrder(before, terms) && before.opening.Some? && !ThresholdFails(before.hooks)
    requires after.hooks == before.hooks && after.opening == before.opening
    requires after.requests == before.requests + [request] && after.replies == before.replies + [reply]
    requires if before.requests == [] then before.replies == [] && request == FirstGround(before)
             else before.replies != [] && (Overflows(before.hooks) ==> before.hooks[|before.hooks| - 1].status == Applied)
    ensures if before.requests == [] && terms.hasHook && !terms.continuation && reply.stopReason == ContextWindow
            then OverflowDue(after, terms) else HooksInOrder(after, terms)
  {
    assert after.requests[0] == if before.requests == [] then request else before.requests[0];
    assert after.replies[0] == if before.replies == [] then reply else before.replies[0];
  }

  // The overflow was dealt with: a replacement is tried by a second request, and nothing else is.
  lemma OverflowInOrder(due: Log, after: Log, h: HookRun, terms: Terms)
    requires OverflowDue(due, terms) && h.reason == Overflow && h.before == due.requests[0]
    requires after.hooks == due.hooks + [h] && after.opening == due.opening
    requires if h.status != Applied then after.requests == due.requests && after.replies == due.replies
             else after.requests == due.requests + [Offered(h)] && |after.replies| == 2 && after.replies[0] == due.replies[0]
    ensures HooksInOrder(after, terms) && !ThresholdFails(after.hooks) && Overflows(after.hooks)
  {
    assert FirstGround(after) == FirstGround(due);
  }

  // The steering that joined the transcript before the first step.
  function OpeningSteering(log: Log, seed: seq<Message>): seq<Message> {
    if log.opening.Some? && |log.start| + |seed| <= |log.opening.value| then log.opening.value[|log.start| + |seed|..] else []
  }

  // The first step begins with the transcript found, the seed and the steering that was pending.
  predicate OpensAsFound(log: Log, terms: Terms) {
    log.opening.Some? ==>
      && log.start + terms.seed <= log.opening.value
      && OpeningSteering(log, terms.seed) <= From(log.journal, Steered)
  }

  // Every turn ended with its reply, the last one only if it is not open any more.
  predicate TurnsEnded(log: Log, open: bool) {
    Turns(log.events) == if open && log.replies != [] then log.replies[..|log.replies| - 1] else log.replies
  }

  // After n answered provider steps, not counting the attempt an applied overflow compaction redoes.
  ghost predicate Progressed(log: Log, terms: Terms, n: nat) {
    && Sound(log)
    && From(log.journal, Seeded) == terms.seed
    && Booked(log, terms.setup)
    && HooksBooked(log) && OpensAsFound(log, terms)
    && CompactionsOf(Compactions(log.events), terms.hasHook, terms.continuation)
    && |log.requests| == n + (if Retried(Compactions(log.events)) then 1 else 0)
    && (terms.continuation ==> From(log.journal, Steered) == [])
  }

  ghost predicate LegalSoFar(log: Log) {
    Conversation(log.start) ==> RequestsLegal(log)
  }

  // Ground for another request.
  ghost predicate Stands(log: Log) {
    && AllExecuted(log) && Clean(log.journal)
    && Standing(NamedUpTo(log.replies, |log.replies|), Appended(log.journal))
  }

  // The last reply left nothing open: it was rejected, or it executed all its calls, or it has none.
  predicate NothingOpen(log: Log) {
    log.replies == []
    || var last := log.replies[|log.replies| - 1];
       || last.stopReason == ContextWindow
       || (last.stopReason == ToolUse && last.ToolCalls() != [] && log.executions != []
           && |log.executions[|log.executions| - 1].results| == |last.ToolCalls()|)
       || (last.stopReason != ToolUse && last.ToolCalls() == [])
  }

  // When a run leaves a legal transcript behind, if it found one.
  predicate LeavesLegal(log: Log) {
    NamedUpTo(log.replies, |log.replies|) && NothingOpen(log)
  }

  // Where a run can stop.
  ghost predicate Settled(log: Log) {
    && AllExecuted(log) && Clean(log.journal)
    && (Conversation(Appended(log.journal)) <==> LeavesLegal(log))
  }

  // From a legal start, the transcript a run leaves, and the log it leaves in the store, are legal
  // exactly when its tool-use replies named their calls well and its last reply left nothing open.
  lemma SettledIsExact(log: Log, stored: seq<Message>)
    requires Settled(log)
    ensures Conversation(log.start) ==> (Conversation(Current(log.start, log.journal)) <==> LeavesLegal(log))
    ensures Conversation(stored) ==> (Conversation(stored + Appended(log.journal)) <==> LeavesLegal(log))
  {
    if Conversation(log.start) {
      LegalAsStored(log.start, log.journal);
    }
    if Conversation(stored) {
      ConcatenationKeepsConversations(stored, Appended(log.journal));
    }
  }

  lemma QuietSettles(log: Log)
    requires Stands(log)
    requires log.replies == [] || log.replies[|log.replies| - 1].stopReason == ContextWindow
    ensures Settled(log)
  {
    StandingIsExact(NamedUpTo(log.replies, |log.replies|), Appended(log.journal));
  }

  lemma SayKeepsProgress(log: Log, e: Event, terms: Terms, n: nat)
    requires Progressed(log, terms, n)
    requires CompletedBy(e) == [] && CompactedBy(e) == [] && ReportedBy(e) == [] && ToolEventsBy(e) == [] && RepliesBy(e) == []
    ensures
      var said := log.(events := log.events + [e]);
      && Progressed(said, terms, n) && Sound(said)
      && Follow(said.events) == Advance(Follow(log.events), e)
      && Compactions(said.events) == Compactions(log.events) && Turns(said.events) == Turns(log.events) + TurnsBy(e)
      && (LegalSoFar(log) ==> LegalSoFar(said)) && (Stands(log) ==> Stands(said)) && (Settled(log) ==> Settled(said))
  {
    hide FlatMap, Follow, Current;
    Extend(log.events, e);
  }

  lemma SteeringKeepsProgress(before: Log, after: Log, users: seq<Message>, terms: Terms, n: nat)
    requires Progressed(before, terms, n) && !terms.continuation && LegalSoFar(before) && Stands(before)
    requires Grew(before, after, Tag(users, Steered), []) && AllUser(users)
    ensures Progressed(after, terms, n) && LegalSoFar(after) && Stands(after)
    ensures OnlyUsers(before.journal) ==> OnlyUsers(after.journal)
  {
    hide FlatMap, Follow, Current, Clean;
    Tagged(before.start, before.journal, users, Steered, Seeded);
    Tagged(before.start, before.journal, users, Steered, Resulted);
    Tagged(before.start, before.journal, users, Steered, Steered);
    CleanGrows(before.journal, Tag(users, Steered));
    StandingGrows(NamedUpTo(before.replies, |before.replies|), Appended(before.journal), users);
    assert ToolEvents(before.events) + [] == ToolEvents(before.events);
  }

  // Compaction happens while only user messages have been stored, so a replacement leaves the run
  // on the ground it had.
  lemma CompactionKeepsProgress(
    before: Log, after: Log, h: HookRun, usage: ContextUsage, reduced: ContextUsage, terms: Terms, n: nat)
    requires Progressed(before, terms, n) && terms.hasHook && !terms.continuation && LegalSoFar(before) && Stands(before)
    requires Compacted(before, after, h, usage, reduced)
    requires OnlyUsers(before.journal) && (h.status == Applied ==> Conversation(Offered(h)))
    requires if h.reason == Threshold then Compactions(before.events) == [] else ThresholdAtMost(Compactions(before.events))
    requires h.reason == Overflow && h.status == Applied ==> n > 0
    ensures LegalSoFar(after) && Stands(after) && OnlyUsers(after.journal)
    ensures Progressed(after, terms, if h.reason == Overflow && h.status == Applied then n - 1 else n)
  {
    hide FlatMap, Follow, Current, Clean;
    FlatMapOneMore(CallOf, before.hooks, h);
    FlatMapOneMore(InstalledBy, before.hooks, h);
    if h.status == Applied {
      ExtendJournal(before.start, before.journal, Installed(Offered(h)));
      CleanInstalled(before.journal, Offered(h));
      assert Appended(before.journal) + [] == Appended(before.journal);
      assert forall i | 0 <= i < |before.journal| :: after.journal[i] == before.journal[i];
    } else {
      assert after.journal == before.journal;
    }
  }

  // A request made on standing ground is legal exactly as long as all earlier replies are well named.
  lemma RequestKeepsProgress(before: Log, after: Log, reply: Assistant, terms: Terms, n: nat)
    requires Progressed(before, terms, n) && LegalSoFar(before) && Stands(before)
    requires Heard(before, after, Current(before.start, before.journal), reply)
    ensures Progressed(after, terms, n + 1) && LegalSoFar(after)
    ensures reply.stopReason == ContextWindow ==> Stands(after)
    ensures !(reply.stopReason == ToolUse && reply.ToolCalls() != []) ==> Settled(after)
    ensures Current(after.start, after.journal) == Current(before.start, before.journal) + KeptOf(reply)
  {
    hide FlatMap, Follow, Current, Clean, Conversation, Poisoned;
    KeptReply(before.start, before.journal, reply);
    CleanGrows(before.journal, KeptEntries(reply));
    NamedExtends(before.replies, reply);
    FlatMapOneMore(AskedBy, before.replies, reply);
    assert ToolEvents(before.events) + [] == ToolEvents(before.events);
    StandingIsExact(NamedUpTo(before.replies, |before.replies|), Appended(before.journal));
    if Conversation(before.start) {
      LegalAsStored(before.start, before.journal);
      RequestsStayLegal(before, after, Current(before.start, before.journal), reply);
    }
    assert Appended(before.journal) + [] == Appended(before.journal);
    if !(reply.stopReason == ToolUse && reply.ToolCalls() != []) {
      ReplySettles(before, after, reply);
    }
  }

  lemma ReplySettles(before: Log, after: Log, reply: Assistant)
    requires Stands(before) && Clean(after.journal) && !(reply.stopReason == ToolUse && reply.ToolCalls() != [])
    requires after.replies == before.replies + [reply] && after.executions == before.executions
    requires Appended(after.journal) == Appended(before.journal) + KeptOf(reply)
    ensures Settled(after)
  {
    hide FlatMap, Clean, Conversation, Poisoned;
    NamedExtends(before.replies, reply);
    FlatMapOneMore(AskedBy, before.replies, reply);
    StandingIsExact(NamedUpTo(before.replies, |before.replies|), Appended(before.journal));
    if reply.stopReason != ContextWindow {
      StandingAfterReply(NamedUpTo(before.replies, |before.replies|), Appended(before.journal), reply);
    } else {
      assert Appended(before.journal) + [] == Appended(before.journal);
    }
  }

  lemma RequestsStayLegal(before: Log, after: Log, request: seq<Message>, reply: Assistant)
    requires RequestsLegal(before) && |before.requests| == |before.replies|
    requires after.requests == before.requests + [request] && after.replies == before.replies + [reply]
    requires Conversation(request) <==> NamedUpTo(before.replies, |before.replies|)
    ensures RequestsLegal(after)
  {
    NamedExtends(before.replies, reply);
  }

  // The log of a turn that executed its tools, once it is closed by its TurnEnd.
  function Closed(executed: Log, reply: Assistant, x: Execution): Log {
    executed.(events := executed.events + [TurnEnd(reply, x.results)], executions := executed.executions + [x])
  }

  lemma BatchKeepsProgress(asked: Log, heard: Log, executed: Log, reply: Assistant, x: Execution, terms: Terms, n: nat)
    requires Stands(asked) && Heard(asked, heard, Current(asked.start, asked.journal), reply)
    requires Progressed(heard, terms, n) && LegalSoFar(heard)
    requires reply.stopReason == ToolUse && x.calls == reply.ToolCalls() && RanInOrder(terms.setup, x)
    requires Executed(heard, executed, terms.setup, x.calls, x.answers, x.results, x.marks) && Follow(executed.events) == InTurn
    ensures
      var ended := Closed(executed, reply, x);
      && Progressed(ended, terms, n) && LegalSoFar(ended) && Settled(ended) && Sound(ended)
      && (|x.results| == |x.calls| ==> Stands(ended) && Matches(x.calls, x.results))
      && Follow(ended.events) == Between && Compactions(ended.events) == Compactions(heard.events)
      && Current(ended.start, ended.journal) == Current(asked.start, asked.journal) + [Reply(reply)] + x.results
  {
    BatchBooked(heard, executed, reply, x, terms, n);
    BatchStored(asked, heard, executed, reply, x, terms.setup);
    BatchSettles(asked, Closed(executed, reply, x), reply, x, terms.setup);
  }

  lemma BatchBooked(heard: Log, executed: Log, reply: Assistant, x: Execution, terms: Terms, n: nat)
    requires Progressed(heard, terms, n) && RanInOrder(terms.setup, x)
    requires Executed(heard, executed, terms.setup, x.calls, x.answers, x.results, x.marks) && Follow(executed.events) == InTurn
    ensures
      var ended := Closed(executed, reply, x);
      && Progressed(ended, terms, n) && Sound(ended)
      && Follow(ended.events) == Between && Compactions(ended.events) == Compactions(heard.events)
  {
    hide FlatMap, Follow, Current, RanInOrder;
    Extend(executed.events, TurnEnd(reply, x.results));
    Tagged(heard.start, heard.journal, x.results, Resulted, Seeded);
    Tagged(heard.start, heard.journal, x.results, Resulted, Steered);
    Tagged(heard.start, heard.journal, x.results, Resulted, Replied);
    Tagged(heard.start, heard.journal, x.results, Resulted, Resulted);
    FlatMapOneMore(Rendered(terms.setup), heard.executions, x);
    FlatMapOneMore(ResultsOf, heard.executions, x);
  }

  lemma BatchStored(asked: Log, heard: Log, executed: Log, reply: Assistant, x: Execution, setup: Setup)
    requires Clean(asked.journal) && Heard(asked, heard, Current(asked.start, asked.journal), reply) && reply.stopReason == ToolUse
    requires Executed(heard, executed, setup, x.calls, x.answers, x.results, x.marks)
    ensures Clean(executed.journal) && executed.start == asked.start
    ensures executed.replies == asked.replies + [reply] && executed.executions == asked.executions
    ensures Appended(executed.journal) == Appended(asked.journal) + [Reply(reply)] + x.results
    ensures Current(executed.start, executed.journal) == Current(asked.start, asked.journal) + [Reply(reply)] + x.results
  {
    hide FlatMap, Follow, Current, Clean;
    KeptReply(asked.start, asked.journal, reply);
    CleanGrows(asked.journal, KeptEntries(reply));
    Tagged(heard.start, heard.journal, x.results, Resulted, Resulted);
    CleanGrows(heard.journal, Tag(x.results, Resulted));
  }

  lemma BatchSettles(asked: Log, ended: Log, reply: Assistant, x: Execution, setup: Setup)
    requires Stands(asked) && Clean(ended.journal) && RanInOrder(setup, x)
    requires reply.stopReason == ToolUse && x.calls == reply.ToolCalls()
    requires ended.replies == asked.replies + [reply] && ended.executions == asked.executions + [x]
    requires Appended(ended.journal) == Appended(asked.journal) + [Reply(reply)] + x.results
    ensures Settled(ended) && (|x.results| == |x.calls| ==> Stands(ended) && Matches(x.calls, x.results))
  {
    var outcomes := Outcomes(setup, x.calls, x.answers);
    assert |x.results| == |x.calls| ==> x.results == ResultMessages(x.calls, outcomes);
    ResultsMatch(x.calls, outcomes);
    hide FlatMap, Clean, Conversation, Poisoned;
    NamedExtends(asked.replies, reply);
    FlatMapOneMore(AskedBy, asked.replies, reply);
    FlatMapOneMore(CallsOf, asked.executions, x);
    StandingAfterBatch(NamedUpTo(asked.replies, |asked.replies|), Appended(asked.journal), reply, x.results);
  }

  // The check before a step keeps everything.
  lemma CheckKeeps(log: Log, terms: Terms, n: nat)
    requires Progressed(log, terms, n)
    ensures
      var checked := log.(checks := log.checks + 1);
      && Progressed(checked, terms, n)
      && (LegalSoFar(log) ==> LegalSoFar(checked)) && (Stands(log) ==> Stands(checked)) && (Settled(log) ==> Settled(checked))
      && (HooksInOrder(log, terms) ==> HooksInOrder(checked, terms))
  {
    hide FlatMap, Follow, Current, Clean, Conversation, Poisoned, CompactionsOf, RanInOrder, HooksInOrder;
    SameHooks(log, log.(checks := log.checks + 1), terms);
  }

  // The first step is on record.
  lemma OpeningKeeps(log: Log, drained: seq<Message>, terms: Terms, n: nat)
    requires Progressed(log, terms, n) && drained == From(log.journal, Steered)
    ensures
      var begun := log.(opening := Some(log.start + terms.seed + drained));
      && Progressed(begun, terms, n) && Sound(begun)
      && (LegalSoFar(log) ==> LegalSoFar(begun)) && (Stands(log) ==> Stands(begun))
  {
    hide FlatMap, Follow, Current, Clean, Conversation, Poisoned, CompactionsOf, RanInOrder;
  }

  // The order of the hook's calls depends on nothing else.
  lemma SameHooks(a: Log, b: Log, terms: Terms)
    requires a.hooks == b.hooks && a.opening == b.opening && a.requests == b.requests && a.replies == b.replies
    ensures HooksInOrder(a, terms) <==> HooksInOrder(b, terms)
  {
    assert a.opening.Some? ==> FirstGround(a) == FirstGround(b);
  }

  lemma ResultsOnly(setup: Setup, x: Execution)
    requires RanInOrder(setup, x)
    ensures x.results != [] && forall i | 0 <= i < |x.results| :: x.results[i].ToolResult?
  {
  }

  // What the run asked before, it has asked still; its last turn ended with the reply.
  lemma BatchKept(asked: Log, heard: Log, executed: Log, reply: Assistant, x: Execution, terms: Terms)
    requires Executed(heard, executed, terms.setup, x.calls, x.answers, x.results, x.marks)
    requires LastReply(heard, reply) && TurnsEnded(heard, true)
    ensures
      var ended := Closed(executed, reply, x);
      && ended.requests == heard.requests && ended.replies == heard.replies
      && ended.checks == heard.checks && ended.start == heard.start
      && ended.hooks == heard.hooks && ended.opening == heard.opening && ended.executions == heard.executions + [x]
      && TurnsEnded(ended, false) && heard.journal <= ended.journal
      && (HooksInOrder(heard, terms) ==> HooksInOrder(ended, terms))
  {
    hide FlatMap, Follow, Current, HooksInOrder, Sound;
    Extend(executed.events, TurnEnd(reply, x.results));
    SameHooks(heard, Closed(executed, reply, x), terms);
    assert heard.replies == heard.replies[..|heard.replies| - 1] + [reply];
  }

  lemma FreshSettles(log: Log)
    requires log == NewLog(log.start)
    ensures Settled(log) && RequestsLegal(log)
  {
    UsersAreConversation([]);
  }

  // The run has just closed a turn with the tool batch of its last reply, appended after base.
  ghost predicate BatchTail(log: Log, base: seq<Message>, reply: Assistant, results: seq<Message>) {
    && LastReply(log, reply) && reply.stopReason == ToolUse && reply.ToolCalls() != []
    && log.events != [] && log.events[|log.events| - 1] == TurnEnd(reply, results)
    && results != [] && (forall i | 0 <= i < |results| :: results[i].ToolResult?)
    && (|results| == |reply.ToolCalls()| ==> Matches(reply.ToolCalls(), results))
    && Current(log.start, log.journal) == base + [Reply(reply)] + results
  }

  lemma StepLimitReached(log: Log, base: seq<Message>, reply: Assistant, results: seq<Message>, terms: Terms, n: nat)
    requires BatchTail(log, base, reply, results) && Progressed(log, terms, n)
    ensures |log.requests| == n + (if Retried(Compactions(log.events)) then 1 else 0)
    ensures LastReply(log, reply) && reply.stopReason == ToolUse && reply.ToolCalls() != []
    ensures log.events != [] && log.events[|log.events| - 1] == TurnEnd(reply, results)
    ensures Continuable(Current(log.start, log.journal))
       <==> WellNamed(reply.ToolCalls()) && |results| == |reply.ToolCalls()|
  {
    BatchContinues(base, reply, results);
  }

  // What a whole run leaves in its log: the stored messages are the announced ones in order, and
  // by origin the seed, the kept replies and the results of the executed batches; the batches are
  // those of the tool-use replies, each in order and with one start before one end for each of its
  // calls; the hook is called when and only when it has to be; every turn ends with its reply;
  // requests are made at most maxSteps times, one more after an applied overflow compaction; a
  // continuation takes no steering and compacts nothing.
  ghost predicate Accounted(log: Log, terms: Terms, maxSteps: int) {
    && Sound(log)
    && From(log.journal, Seeded) == terms.seed
    && Booked(log, terms.setup) && AllExecuted(log)
    && HooksBooked(log) && HooksInOrder(log, terms) && OpensAsFound(log, terms) && TurnsEnded(log, false)
    && CompactionsOf(Compactions(log.events), terms.hasHook, terms.continuation)
    && |log.requests| <= maxSteps + (if Retried(Compactions(log.events)) then 1 else 0)
    && (terms.continuation ==> From(log.journal, Steered) == [])
  }

  lemma ProgressAccounts(log: Log, terms: Terms, n: nat, maxSteps: int)
    requires Progressed(log, terms, n) && AllExecuted(log) && n <= maxSteps
    requires HooksInOrder(log, terms) && TurnsEnded(log, false)
    ensures Accounted(log, terms, maxSteps)
  {
  }

  // The compactions of a whole run, told from its events, requests and replies. A threshold
  // compaction comes exactly when the transcript of the first step is over the trigger, and its
  // replacement, if there is one, is the first request; a failed one leaves none. An overflow
  // compaction comes exactly when the first request is rejected; its replacement, if there is one,
  // is the second request, and without it there is no other.
  ghost predicate CompactionsExplained(log: Log, terms: Terms) {
    var cs, installed := Compactions(log.events), Installs(log.journal);
    var compacts := terms.hasHook && !terms.continuation;
    && ((exists c :: c in cs && c.reason == Threshold) <==> compacts && log.opening.Some? && terms.over(log.opening.value))
    && ((exists c :: c in cs && c.reason == Overflow) <==>
          compacts && log.replies != [] && log.replies[0].stopReason == ContextWindow)
    && |installed| <= 2 && (|installed| == 2 ==> HookCall(Threshold, true) in cs && HookCall(Overflow, true) in cs)
    && (log.requests != [] ==>
          log.opening.Some?
          && log.requests[0] == if HookCall(Threshold, true) in cs && installed != [] then installed[0] else log.opening.value)
    && (HookCall(Overflow, true) in cs ==>
          |log.requests| >= 2 && installed != [] && log.requests[1] == installed[|installed| - 1])
    && (HookCall(Overflow, false) in cs ==> |log.requests| == 1)
  }

  lemma RunExplained(log: Log, terms: Terms, maxSteps: int)
    requires Accounted(log, terms, maxSteps)
    ensures CompactionsExplained(log, terms)
  {
    hide Sound, Booked, AllExecuted, OpensAsFound, TurnsEnded, Compactions, Installs, From;
    assert |log.requests| == |log.replies| by {
      CountsAgree(log);
    }
    if log.hooks == [] {
    } else if |log.hooks| == 1 {
      var h := log.hooks[0];
      assert log.hooks == [h];
      FlatMapOne(CallOf, h);
      FlatMapOne(InstalledBy, h);
      assert CallOf(h)[0] in Compactions(log.events);
    } else {
      var first, second := log.hooks[0], log.hooks[1];
      assert log.hooks == [first] + [second];
      FlatMapOneMore(CallOf, [first], second);
      FlatMapOneMore(InstalledBy, [first], second);
      FlatMapOne(CallOf, first);
      FlatMapOne(InstalledBy, first);
      assert CallOf(first)[0] in Compactions(log.events) && CallOf(second)[0] in Compactions(log.events);
    }
  }

  lemma CountsAgree(log: Log)
    requires Sound(log)
    ensures |log.requests| == |log.replies|
  {
  }

  lemma FreshLog(start: seq<Message>)
    ensures Appended([]) == [] && (forall o :: From([], o) == []) && Current(start, []) == start && Installs([]) == []
    ensures Sound(NewLog(start))
    ensures
      var log := NewLog(start).(events := [AgentStart]);
      && Sound(log) && Follow(log.events) == Between
      && Compactions(log.events) == [] && Reported(log.events) == [] && ToolEvents(log.events) == [] && Turns(log.events) == []
  {
    Extend([], AgentStart);
    assert [] + [AgentStart] == [AgentStart];
  }

  lemma SeedingStarts(start: seq<Message>, after: Log, terms: Terms)
    requires Grew(NewLog(start).(events := [AgentStart]), after, Tag(terms.seed, Seeded), []) && AllUser(terms.seed)
    ensures Progressed(after, terms, 0) && Follow(after.events) == Between
    ensures LegalSoFar(after) && Stands(after) && OnlyUsers(after.journal) && Compactions(after.events) == []
    ensures HooksInOrder(after, terms) && TurnsEnded(after, false) && From(after.journal, Steered) == []
  {
    hide FlatMap, Current, Follow, Conversation;
    FreshLog(start);
    Tagged(start, [], terms.seed, Seeded, Seeded);
    Tagged(start, [], terms.seed, Seeded, Resulted);
    Tagged(start, [], terms.seed, Seeded, Steered);
    assert after.journal == [] + Tag(terms.seed, Seeded);
    FlatMapNone(Rendered(terms.setup));
    FlatMapNone(ResultsOf);
    FlatMapNone(AskedBy);
    FlatMapNone(CallsOf);
    FlatMapNone(CallOf);
    FlatMapNone(InstalledBy);
    UsersAreConversation(terms.seed);
  }
}
