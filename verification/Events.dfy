/** The agent-level events of a run and the grammar they obey. */
module Events {
  import opened Messages
  import opened Sequences
  import opened Budget

  datatype CompactionReason = Threshold | Overflow

  datatype Event =
    | AgentStart
    | AgentEnd(messages: seq<Message>)
    | CompactionStart(reason: CompactionReason, usage: ContextUsage)
    | CompactionEnd(reason: CompactionReason, before: ContextUsage, after: ContextUsage, applied: bool)
    | TurnStart
    | TurnEnd(reply: Assistant, results: seq<Message>)
    | MessageStart(message: Message)
    | MessageDelta(id: nat)
    | MessageEnd(message: Message)
    | ToolStart(call: ToolCall)
    | ToolEnd(call: ToolCall, outcome: Outcome)
    | ErrorEvent(reply: Assistant, aborted: bool)

  // ----- the grammar as a recogniser -----

  datatype Phase =
    | Before
    | Between
    | Compacting(reason: CompactionReason, usage: ContextUsage)
    | InTurn
    | Speaking(inTurn: bool, message: Message)
    | Failed
    | After
    | Broken

  // A message ends as it was started; a reply may be announced, even more than once, before it is
  // complete, and only a reply has deltas and needs a turn.
  predicate Closes(started: Message, ended: Message) {
    if started.Reply? then ended.Reply? else ended == started
  }

  function Advance(p: Phase, e: Event): Phase {
    match p
    case Before => if e.AgentStart? then Between else Broken
    case Between =>
      (match e
       case CompactionStart(reason, usage) => Compacting(reason, usage)
       case TurnStart => InTurn
       case MessageStart(m) => if m.Reply? then Broken else Speaking(false, m)
       case ErrorEvent(_, _) => Failed
       case AgentEnd(_) => After
       case _ => Broken)
    case Compacting(reason, usage) =>
      if e.CompactionEnd? && e.reason == reason && e.before == usage then Between else Broken
    case InTurn =>
      (match e
       case MessageStart(m) => Speaking(true, m)
       case ToolStart(_) => InTurn
       case ToolEnd(_, _) => InTurn
       case TurnEnd(_, _) => Between
       case _ => Broken)
    case Speaking(inTurn, m) =>
      (match e
       case MessageStart(n) => if m.Reply? && n.Reply? then Speaking(inTurn, n) else Broken
       case MessageDelta(_) => if m.Reply? then p else Broken
       case MessageEnd(n) => if !Closes(m, n) then Broken else if inTurn then InTurn else Between
       case _ => Broken)
    case Failed => if e.AgentEnd? then After else Broken
    case After => Broken
    case Broken => Broken
  }

  function Follow(es: seq<Event>): Phase {
    if es == [] then Before else Advance(Follow(es[..|es| - 1]), es[|es| - 1])
  }

  // A complete run.
  predicate Grammatical(es: seq<Event>) {
    Follow(es) == After
  }

  // ----- what the recogniser means -----

  lemma {:induction false} PrefixNotBroken(es: seq<Event>, n: nat)
    requires n <= |es| && Follow(es) != Broken
    ensures Follow(es[..n]) != Broken
    decreases |es|
  {
    if n == |es| {
      assert es[..n] == es;
    } else {
      PrefixNotBroken(es[..|es| - 1], n);
      assert es[..|es| - 1][..n] == es[..n];
    }
  }

  lemma StepAt(es: seq<Event>, i: nat)
    requires i < |es| && Follow(es) != Broken
    ensures Follow(es[..i]) != Broken && Follow(es[..i + 1]) == Advance(Follow(es[..i]), es[i])
    ensures Follow(es[..i + 1]) != Broken
  {
    PrefixNotBroken(es, i);
    PrefixNotBroken(es, i + 1);
    assert es[..i + 1][..i] == es[..i];
  }

  // AgentStart comes first and once.
  lemma {:induction false} StartsOnce(es: seq<Event>, i: nat)
    requires Follow(es) != Broken && i < |es|
    ensures es[i].AgentStart? <==> i == 0
    ensures Follow(es[..i + 1]) != Before
    decreases i
  {
    StepAt(es, i);
    if i != 0 {
      StartsOnce(es, i - 1);
    }
  }

  // AgentEnd comes last and once; an ErrorEvent comes right before it.
  lemma EndsOnce(es: seq<Event>, i: nat)
    requires Grammatical(es) && i < |es|
    ensures es[i].AgentEnd? <==> i == |es| - 1
    ensures es[i].ErrorEvent? ==> i == |es| - 2
  {
    assert es[..|es|] == es;
    StepAt(es, i);
    StepAt(es, |es| - 1);
    if i + 1 < |es| {
      StepAt(es, i + 1);
      if i + 2 < |es| {
        StepAt(es, i + 2);
      }
    }
  }

  // The two events of a compaction are adjacent and agree; both lie outside any turn.
  lemma CompactionsPaired(es: seq<Event>, i: nat)
    requires Grammatical(es) && i < |es|
    ensures es[i].CompactionStart? ==>
      && i + 1 < |es| && es[i + 1].CompactionEnd?
      && es[i + 1].reason == es[i].reason && es[i + 1].before == es[i].usage
      && !TurnOpen(es[..i])
    ensures es[i].CompactionEnd? ==> i > 0 && es[i - 1].CompactionStart?
  {
    assert es[..|es|] == es;
    StepAt(es, i);
    if i + 1 < |es| {
      StepAt(es, i + 1);
    }
    if i > 0 {
      StepAt(es, i - 1);
    }
    TurnOpenMeansInTurn(es, i);
  }

  // A turn is open when the last turn bracket was a TurnStart.
  predicate TurnOpen(es: seq<Event>) {
    if es == [] then false
    else if es[|es| - 1].TurnStart? then true
    else if es[|es| - 1].TurnEnd? then false
    else TurnOpen(es[..|es| - 1])
  }

  lemma {:induction false} TurnOpenMeansInTurn(es: seq<Event>, n: nat)
    requires n <= |es| && Follow(es) != Broken
    ensures var p := Follow(es[..n]);
            (TurnOpen(es[..n]) <==> p == InTurn || (p.Speaking? && p.inTurn)) && (p.Speaking? && p.message.Reply? ==> p.inTurn)
  {
    if n > 0 {
      TurnOpenMeansInTurn(es, n - 1);
      StepAt(es, n - 1);
      assert es[..n][..n - 1] == es[..n - 1];
    }
  }

  // Turn brackets alternate, so turns are never nested, and every one is closed; tool events and
  // deltas happen only inside, errors and the end of the run only outside.
  lemma TurnsBracketed(es: seq<Event>, i: nat)
    requires Grammatical(es) && i < |es|
    ensures es[i].TurnStart? ==> !TurnOpen(es[..i])
    ensures es[i].TurnEnd? ==> TurnOpen(es[..i])
    ensures es[i].ToolStart? || es[i].ToolEnd? || es[i].MessageDelta? ==> TurnOpen(es[..i])
    ensures es[i].ErrorEvent? || es[i].AgentEnd? ==> !TurnOpen(es[..i])
    ensures !TurnOpen(es)
  {
    assert es[..|es|] == es;
    StepAt(es, i);
    TurnOpenMeansInTurn(es, i);
    TurnOpenMeansInTurn(es, |es|);
  }

  // The message in progress: the last one started, if none has ended since.
  function Spoken(es: seq<Event>): Option<Message> {
    if es == [] then None
    else
      var last := es[|es| - 1];
      if last.MessageStart? then Some(last.message)
      else if last.MessageEnd? then None
      else Spoken(es[..|es| - 1])
  }

  lemma {:induction false} SpokenMeansSpeaking(es: seq<Event>, n: nat)
    requires n <= |es| && Follow(es) != Broken
    ensures var p := Follow(es[..n]); Spoken(es[..n]) == if p.Speaking? then Some(p.message) else None
  {
    if n > 0 {
      SpokenMeansSpeaking(es, n - 1);
      StepAt(es, n - 1);
      assert es[..n][..n - 1] == es[..n - 1];
    }
  }

  // Messages are bracketed and never mixed: each end closes the message started last, the same one
  // or, for a reply, its final form; while a message is open only deltas and new drafts of a reply
  // come, inside a turn; and none stays open.
  lemma MessagesBracketed(es: seq<Event>, i: nat)
    requires Grammatical(es) && i < |es|
    ensures es[i].MessageEnd? ==> Spoken(es[..i]).Some? && Closes(Spoken(es[..i]).value, es[i].message)
    ensures Spoken(es[..i]).Some? && !es[i].MessageEnd? ==>
      Spoken(es[..i]).value.Reply? && TurnOpen(es[..i]) && (es[i].MessageDelta? || (es[i].MessageStart? && es[i].message.Reply?))
    ensures es[i].MessageDelta? ==> Spoken(es[..i]).Some?
    ensures Spoken(es) == None
  {
    assert es[..|es|] == es;
    StepAt(es, i);
    SpokenMeansSpeaking(es, i);
    SpokenMeansSpeaking(es, |es|);
    TurnOpenMeansInTurn(es, i);
  }

  // ----- projections of a trace -----

  // The messages announced as complete, without the rejections for an exceeded context window.
  function CompletedBy(e: Event): seq<Message> {
    if e.MessageEnd? && !(e.message.Reply? && e.message.assistant.stopReason == ContextWindow) then [e.message] else []
  }

  function Completed(es: seq<Event>): seq<Message> {
    FlatMap(CompletedBy, es)
  }

  datatype HookCall = HookCall(reason: CompactionReason, applied: bool)

  function CompactedBy(e: Event): seq<HookCall> {
    if e.CompactionEnd? then [HookCall(e.reason, e.applied)] else []
  }

  // The compactions that ended, in order.
  function Compactions(es: seq<Event>): seq<HookCall> {
    FlatMap(CompactedBy, es)
  }

  function ReportedBy(e: Event): seq<Message> {
    if e.TurnEnd? then e.results else []
  }

  // The tool results reported by the turns, in order.
  function Reported(es: seq<Event>): seq<Message> {
    FlatMap(ReportedBy, es)
  }

  function ToolEventsBy(e: Event): seq<Event> {
    if e.ToolStart? || e.ToolEnd? then [e] else []
  }

  function ToolEvents(es: seq<Event>): seq<Event> {
    FlatMap(ToolEventsBy, es)
  }

  function TurnsBy(e: Event): seq<Assistant> {
    if e.TurnEnd? then [e.reply] else []
  }

  // The replies that the turns ended with, in order.
  function Turns(es: seq<Event>): seq<Assistant> {
    FlatMap(TurnsBy, es)
  }

  function RepliesBy(e: Event): seq<Assistant> {
    if e.MessageEnd? && e.message.Reply? then [e.message.assistant] else []
  }

  // The replies announced as complete, rejections included, in order.
  function Replies(es: seq<Event>): seq<Assistant> {
    FlatMap(RepliesBy, es)
  }

  // Every projection and the recogniser extend event by event.
  lemma Extend(es: seq<Event>, e: Event)
    ensures Follow(es + [e]) == Advance(Follow(es), e)
    ensures Completed(es + [e]) == Completed(es) + CompletedBy(e)
    ensures Compactions(es + [e]) == Compactions(es) + CompactedBy(e)
    ensures Reported(es + [e]) == Reported(es) + ReportedBy(e)
    ensures ToolEvents(es + [e]) == ToolEvents(es) + ToolEventsBy(e)
    ensures Turns(es + [e]) == Turns(es) + TurnsBy(e)
    ensures Replies(es + [e]) == Replies(es) + RepliesBy(e)
  {
    assert (es + [e])[..|es|] == es;
    FlatMapOneMore(CompletedBy, es, e);
    FlatMapOneMore(CompactedBy, es, e);
    FlatMapOneMore(ReportedBy, es, e);
    FlatMapOneMore(ToolEventsBy, es, e);
    FlatMapOneMore(TurnsBy, es, e);
    FlatMapOneMore(RepliesBy, es, e);
  }

  lemma ExtendByCompaction(es: seq<Event>, reason: CompactionReason, before: ContextUsage, after: ContextUsage, applied: bool)
    requires Follow(es) == Between
    ensures
      var all := es + [CompactionStart(reason, before)] + [CompactionEnd(reason, before, after, applied)];
      && Follow(all) == Between
      && Completed(all) == Completed(es)
      && Compactions(all) == Compactions(es) + [HookCall(reason, applied)]
      && Reported(all) == Reported(es)
      && ToolEvents(all) == ToolEvents(es)
      && Turns(all) == Turns(es)
      && Replies(all) == Replies(es)
  {
    hide FlatMap, Follow;
    Extend(es, CompactionStart(reason, before));
    Extend(es + [CompactionStart(reason, before)], CompactionEnd(reason, before, after, applied));
  }
}
