/** Legal transcripts: the two validators of the source, and the language they accept. */
module Transcript {
  import opened Messages

  // ----- the language, declaratively -----

  predicate Answers(call: ToolCall, m: Message) {
    m.ToolResult? && m.callId == call.id && (m.name == "" || m.name == call.name)
  }

  // One result per call, in the order of the calls.
  predicate Matches(calls: seq<ToolCall>, results: seq<Message>) {
    |results| == |calls| && forall i | 0 <= i < |calls| :: Answers(calls[i], results[i])
  }

  // Non-empty names and non-empty, pairwise distinct ids.
  predicate WellNamed(calls: seq<ToolCall>) {
    && (forall i | 0 <= i < |calls| :: calls[i].id != "" && calls[i].name != "")
    && (forall i, j | 0 <= i < j < |calls| :: calls[i].id != calls[j].id)
  }

  // A unit is an exchange that may stand alone: a user message, a call-free reply, or a tool-use
  // reply with the full matching batch of results.
  predicate IsUnit(u: seq<Message>) {
    && u != []
    && match u[0]
       case User(_) => |u| == 1
       case Reply(a) =>
         if a.stopReason == ToolUse then a.ToolCalls() != [] && WellNamed(a.ToolCalls()) && Matches(a.ToolCalls(), u[1..])
         else a.ToolCalls() == [] && |u| == 1
       case _ => false
  }

  function Flatten(units: seq<seq<Message>>): seq<Message> {
    if units == [] then [] else units[0] + Flatten(units[1..])
  }

  ghost predicate MadeOf(units: seq<seq<Message>>, ms: seq<Message>) {
    (forall u | u in units :: IsUnit(u)) && Flatten(units) == ms
  }

  ghost predicate Conversation(ms: seq<Message>) {
    exists units :: MadeOf(units, ms)
  }

  // A transcript that can be continued: it ends with a reply that has calls, all well named, and
  // exactly their results.
  predicate ContinuableAt(t: seq<Message>, k: nat) {
    && k < |t|
    && t[k].Reply?
    && t[k].assistant.ToolCalls() != []
    && WellNamed(t[k].assistant.ToolCalls())
    && Matches(t[k].assistant.ToolCalls(), t[k + 1..])
  }

  ghost predicate Continuable(t: seq<Message>) {
    exists k: nat :: ContinuableAt(t, k)
  }

  // ----- units form a prefix code, so the language can be read from the left -----

  // The only length a unit at the front of ms can have.
  function UnitLength(ms: seq<Message>): nat
    requires ms != []
  {
    if ms[0].Reply? && ms[0].assistant.stopReason == ToolUse then 1 + |ms[0].assistant.ToolCalls()| else 1
  }

  predicate StartsWithUnit(ms: seq<Message>) {
    ms != [] && UnitLength(ms) <= |ms| && IsUnit(ms[..UnitLength(ms)])
  }

  predicate Accepted(ms: seq<Message>)
    decreases |ms|
  {
    ms == [] || (StartsWithUnit(ms) && Accepted(ms[UnitLength(ms)..]))
  }

  lemma UnitAtFront(u: seq<Message>, rest: seq<Message>)
    requires IsUnit(u)
    ensures StartsWithUnit(u + rest) && UnitLength(u + rest) == |u|
    ensures (u + rest)[UnitLength(u + rest)..] == rest
  {
    assert (u + rest)[..|u|] == u;
    assert (u + rest)[|u|..] == rest;
  }

  lemma {:induction false} AcceptedIffConversation(ms: seq<Message>)
    ensures Accepted(ms) <==> Conversation(ms)
  {
    if Accepted(ms) {
      var units := Split(ms);
    }
    if Conversation(ms) {
      var units :| MadeOf(units, ms);
      UnitsAccepted(units);
    }
  }

  lemma {:induction false} Split(ms: seq<Message>) returns (units: seq<seq<Message>>)
    requires Accepted(ms)
    ensures MadeOf(units, ms)
    decreases |ms|
  {
    if ms == [] {
      units := [];
    } else {
      var n := UnitLength(ms);
      var rest := Split(ms[n..]);
      units := [ms[..n]] + rest;
      assert units[1..] == rest;
      assert ms == ms[..n] + ms[n..];
    }
  }

  lemma {:induction false} UnitsAccepted(units: seq<seq<Message>>)
    requires forall u | u in units :: IsUnit(u)
    ensures Accepted(Flatten(units))
  {
    if units != [] {
      UnitsAccepted(units[1..]);
      UnitAtFront(units[0], Flatten(units[1..]));
    }
  }

  // The language is closed under concatenation, and a legal prefix can be cancelled.
  lemma {:induction false} ConcatenationKeepsConversations(a: seq<Message>, b: seq<Message>)
    requires Conversation(a)
    ensures Conversation(a + b) <==> Conversation(b)
  {
    AcceptedIffConversation(a);
    AcceptedIffConversation(b);
    AcceptedIffConversation(a + b);
    AcceptedConcat(a, b);
  }

  lemma {:induction false} AcceptedConcat(a: seq<Message>, b: seq<Message>)
    requires Accepted(a)
    ensures Accepted(a + b) <==> Accepted(b)
    decreases |a|
  {
    if a == [] {
      assert a + b == b;
    } else {
      var n := UnitLength(a);
      AcceptedConcat(a[n..], b);
      UnitAtFront(a[..n], a[n..] + b);
      assert a + b == a[..n] + (a[n..] + b);
    }
  }

  lemma UnitIsConversation(u: seq<Message>)
    requires IsUnit(u)
    ensures Conversation(u)
  {
    UnitsAccepted([u]);
    assert Flatten([u]) == u + Flatten([u][1..]) == u;
    AcceptedIffConversation(u);
  }

  lemma {:induction false} UsersAreConversation(ms: seq<Message>)
    requires AllUser(ms)
    ensures Conversation(ms)
  {
    if ms == [] {
      assert MadeOf([], ms);
    } else {
      UnitIsConversation(ms[..1]);
      UsersAreConversation(ms[1..]);
      assert ms == ms[..1] + ms[1..];
      ConcatenationKeepsConversations(ms[..1], ms[1..]);
    }
  }

  // ----- how the two validators relate -----

  lemma {:induction false} ResultTailContinues(t: seq<Message>)
    requires Conversation(t) && t != [] && t[|t| - 1].ToolResult?
    ensures Continuable(t)
  {
    AcceptedIffConversation(t);
    LastBatch(t, 0);
  }

  lemma {:induction false} LastBatch(t: seq<Message>, from: nat)
    requires from < |t| && Accepted(t[from..]) && t[|t| - 1].ToolResult?
    ensures Continuable(t)
    decreases |t| - from
  {
    var n := UnitLength(t[from..]);
    if from + n == |t| {
      assert t[from..][..n] == t[from..];
      assert t[from..][1..] == t[from + 1..];
      assert ContinuableAt(t, from);
    } else {
      assert t[from..][n..] == t[from + n..];
      LastBatch(t, from + n);
    }
  }

  // A continuable transcript is legal exactly when what precedes the batch is, and the provider
  // asked for the tools.
  lemma {:induction false} ContinuableConversation(t: seq<Message>, k: nat)
    requires ContinuableAt(t, k)
    ensures Conversation(t) <==> Conversation(t[..k]) && t[k].assistant.stopReason == ToolUse
  {
    var batch := t[k..];
    assert t == t[..k] + batch && batch[1..] == t[k + 1..];
    AcceptedIffConversation(t);
    AcceptedIffConversation(t[..k]);
    if t[k].assistant.stopReason == ToolUse {
      assert IsUnit(batch);
      if Conversation(t[..k]) {
        UnitIsConversation(batch);
        ConcatenationKeepsConversations(t[..k], batch);
      }
    }
    if Accepted(t) {
      PrefixUpTo(t, k);
    }
  }

  lemma {:induction false} PrefixUpTo(t: seq<Message>, k: nat)
    requires k < |t| && ContinuableAt(t, k) && Accepted(t)
    ensures Accepted(t[..k]) && t[k].Reply? && t[k].assistant.stopReason == ToolUse
    decreases |t|
  {
    hide IsUnit, Accepted, UnitLength, ContinuableAt;
    if k == 0 {
      StartsContinuable(t);
    } else {
      UnitEndsBefore(t, k);
      var n := UnitLength(t);
      var rest := t[n..];
      ContinuableLater(t, n, k);
      PrefixUpTo(rest, k - n);
      assert t[..k] == t[..n] + rest[..k - n];
      AcceptedConcat(t[..n], rest[..k - n]);
    }
  }

  lemma StartsContinuable(t: seq<Message>)
    requires t != [] && ContinuableAt(t, 0) && Accepted(t)
    ensures Accepted(t[..0]) && t[0].Reply? && t[0].assistant.stopReason == ToolUse
  {
  }

  // The first unit ends before the batch of a continuable transcript.
  lemma UnitEndsBefore(t: seq<Message>, k: nat)
    requires t != [] && ContinuableAt(t, k) && Accepted(t) && k != 0
    ensures 0 < UnitLength(t) <= k < |t| && Accepted(t[..UnitLength(t)]) && Accepted(t[UnitLength(t)..])
  {
    var n := UnitLength(t);
    UnitAtFront(t[..n], []);
    assert t[..n] + [] == t[..n];
  }

  lemma ContinuableLater(t: seq<Message>, n: nat, k: nat)
    requires n <= k < |t| && ContinuableAt(t, k)
    ensures ContinuableAt(t[n..], k - n) && t[n..][k - n] == t[k]
  {
    hide Matches, WellNamed;
    assert t[n..][k - n + 1..] == t[k + 1..];
  }

  // After a legal transcript, a tool-use reply with its complete results is legal exactly when
  // its calls are well named.
  lemma CompleteBatch(t: seq<Message>, a: Assistant, results: seq<Message>)
    requires Conversation(t) && a.stopReason == ToolUse && a.ToolCalls() != []
    requires Matches(a.ToolCalls(), results)
    ensures Conversation(t + [Reply(a)] + results) <==> WellNamed(a.ToolCalls())
  {
    var unit := [Reply(a)] + results;
    assert t + [Reply(a)] + results == t + unit && unit[1..] == results;
    ConcatenationKeepsConversations(t, unit);
    if WellNamed(a.ToolCalls()) {
      UnitIsConversation(unit);
    } else {
      AcceptedIffConversation(unit);
    }
  }

  // With a result missing it is not legal, whatever the names.
  lemma ShortBatch(t: seq<Message>, a: Assistant, results: seq<Message>)
    requires Conversation(t) && a.stopReason == ToolUse && |results| < |a.ToolCalls()|
    ensures !Conversation(t + [Reply(a)] + results)
  {
    var rest := [Reply(a)] + results;
    assert t + [Reply(a)] + results == t + rest;
    ConcatenationKeepsConversations(t, rest);
    AcceptedIffConversation(rest);
  }

  // A reply whose calls are not executed is legal exactly when it has none and does not claim to.
  lemma LoneReply(t: seq<Message>, a: Assistant)
    requires Conversation(t) && !(a.stopReason == ToolUse && a.ToolCalls() != [])
    ensures Conversation(t + [Reply(a)]) <==> a.stopReason != ToolUse && a.ToolCalls() == []
  {
    ConcatenationKeepsConversations(t, [Reply(a)]);
    if a.stopReason != ToolUse && a.ToolCalls() == [] {
      UnitIsConversation([Reply(a)]);
    } else {
      AcceptedIffConversation([Reply(a)]);
    }
  }

  // A legal transcript followed by a tool-use reply with badly named calls can never be repaired
  // by appending.
  ghost predicate Poisoned(t: seq<Message>) {
    exists k: nat :: PoisonedAt(t, k)
  }

  ghost predicate PoisonedAt(t: seq<Message>, k: nat) {
    && k < |t|
    && Conversation(t[..k])
    && t[k].Reply?
    && t[k].assistant.stopReason == ToolUse
    && !WellNamed(t[k].assistant.ToolCalls())
  }

  lemma PoisonStays(t: seq<Message>, more: seq<Message>)
    requires Poisoned(t)
    ensures Poisoned(t + more) && !Conversation(t + more)
  {
    var k: nat :| PoisonedAt(t, k);
    var all := t + more;
    assert all[..k] == t[..k];
    assert PoisonedAt(all, k);
    assert all == all[..k] + all[k..];
    ConcatenationKeepsConversations(all[..k], all[k..]);
    AcceptedIffConversation(all[k..]);
  }

  // ----- the validators -----

  datatype SequenceError =
    | OrphanResult(index: nat)
    | ToolUseWithoutCalls(index: nat)
    | IncompleteCalls(index: nat)
    | IncompleteResults(index: nat)
    | CallNotNamed(index: nat, call: nat)
    | DuplicateId(index: nat, call: nat)
    | ResultMissing(index: nat, call: nat)
    | WrongResultId(index: nat, call: nat)
    | WrongResultName(index: nat, call: nat)
    | Unsupported(index: nat)

  // What an error says about a reply and what follows it.
  predicate ReplyExplains(err: SequenceError, reply: Assistant, rest: seq<Message>) {
    var calls := reply.ToolCalls();
    match err
    case ToolUseWithoutCalls(_) => reply.stopReason == ToolUse && calls == []
    case IncompleteCalls(_) => reply.stopReason != ToolUse && calls != []
    case IncompleteResults(_) => reply.stopReason == ToolUse && |rest| < |calls|
    case CallNotNamed(_, j) => j < |calls| && (calls[j].id == "" || calls[j].name == "")
    case DuplicateId(_, j) => j < |calls| && exists k :: 0 <= k < j && calls[k].id == calls[j].id
    case ResultMissing(_, j) => j < |calls| && j < |rest| && !rest[j].ToolResult?
    case WrongResultId(_, j) => j < |calls| && j < |rest| && rest[j].ToolResult? && rest[j].callId != calls[j].id
    case WrongResultName(_, j) =>
      j < |calls| && j < |rest| && rest[j].ToolResult? && rest[j].name != "" && rest[j].name != calls[j].name
    case _ => false
  }

  // What an error says about the sequence.
  predicate Explains(err: SequenceError, ms: seq<Message>) {
    && err.index < |ms|
    && var m := ms[err.index];
       if err.OrphanResult? then m.ToolResult?
       else if err.Unsupported? then m.Foreign?
       else m.Reply? && ReplyExplains(err, m.assistant, ms[err.index + 1..])
  }

  // No unit of any length starts at position i.
  ghost predicate NoUnitAt(ms: seq<Message>, i: nat)
    requires i <= |ms|
  {
    forall end | i <= end <= |ms| :: !IsUnit(ms[i..end])
  }

  lemma NoUnitFrom(ms: seq<Message>, i: nat)
    requires i < |ms| && !StartsWithUnit(ms[i..])
    ensures NoUnitAt(ms, i)
  {
    forall end | i <= end <= |ms|
      ensures !IsUnit(ms[i..end])
    {
      assert ms[i..end] + ms[end..] == ms[i..];
      if IsUnit(ms[i..end]) {
        UnitAtFront(ms[i..end], ms[end..]);
      }
    }
  }

  // The first n calls are well named and answered.
  predicate CheckedUpTo(calls: seq<ToolCall>, results: seq<Message>, n: nat) {
    n <= |calls| <= |results| && WellNamed(calls[..n]) && Matches(calls[..n], results[..n])
  }

  // Accepts exactly the conversations; an error names the first position where no unit starts.
  method ValidateMessageSequence(messages: seq<Message>) returns (err: Option<SequenceError>)
    ensures err.None? <==> Conversation(messages)
    ensures err.Some? ==>
      var i := err.value.index;
      i < |messages| && Conversation(messages[..i]) && NoUnitAt(messages, i) && Explains(err.value, messages)
  {
    var i := 0;
    assert Accepted(messages[..0]);
    while i < |messages|
      invariant 0 <= i <= |messages|
      invariant Accepted(messages[..i])
    {
      err := ValidateUnit(messages, i);
      AcceptedIffConversation(messages[..i]);
      if err.Some? {
        NoUnitFrom(messages, i);
        StopsAt(messages, i);
        return err;
      }
      ReadsUnit(messages, i);
      i := i + UnitLength(messages[i..]);
    }
    assert messages[..i] == messages;
    AcceptedIffConversation(messages);
    return None;
  }

  lemma StopsAt(messages: seq<Message>, i: nat)
    requires i < |messages| && Accepted(messages[..i]) && !StartsWithUnit(messages[i..])
    ensures !Conversation(messages)
  {
    hide StartsWithUnit, Conversation;
    assert messages == messages[..i] + messages[i..];
    AcceptedConcat(messages[..i], messages[i..]);
    AcceptedIffConversation(messages);
  }

  lemma ReadsUnit(messages: seq<Message>, i: nat)
    requires i < |messages| && Accepted(messages[..i]) && StartsWithUnit(messages[i..])
    ensures var n := UnitLength(messages[i..]); i + n <= |messages| && Accepted(messages[..i + n])
  {
    var rest := messages[i..];
    var n := UnitLength(rest);
    UnitAtFront(rest[..n], []);
    assert rest[..n] + [] == rest[..n] && Accepted(rest[..n]);
    hide IsUnit, UnitLength, Accepted;
    assert messages[..i + n] == messages[..i] + rest[..n];
    AcceptedConcat(messages[..i], rest[..n]);
  }

  // The loop body of the validator: one step of the scan.
  method ValidateUnit(messages: seq<Message>, i: nat) returns (err: Option<SequenceError>)
    requires i < |messages|
    ensures err.None? <==> StartsWithUnit(messages[i..])
    ensures err.Some? ==> err.value.index == i && Explains(err.value, messages)
  {
    var rest := messages[i..];
    match messages[i]
    case User(_) =>
      return None;
    case ToolResult(_, _, _, _) =>
      return Some(OrphanResult(i));
    case Foreign =>
      return Some(Unsupported(i));
    case Reply(msg) =>
      var calls := msg.ToolCalls();
      if msg.stopReason == ToolUse && |calls| == 0 {
        return Some(ToolUseWithoutCalls(i));
      }
      if |calls| == 0 {
        return None;
      }
      if msg.stopReason != ToolUse {
        return Some(IncompleteCalls(i));
      }
      if |messages| - i - 1 < |calls| {
        return Some(IncompleteResults(i));
      }
      var results := rest[1..1 + |calls|];
      assert rest[..1 + |calls|][1..] == results;
      var seen: set<string> := {};
      for j := 0 to |calls|
        invariant CheckedUpTo(calls, results, j)
        invariant seen == set k | 0 <= k < j :: calls[k].id
      {
        var call := calls[j];
        assert results[j] == messages[i + 1 + j];
        if call.id == "" || call.name == "" {
          return Some(CallNotNamed(i, j));
        }
        if call.id in seen {
          return Some(DuplicateId(i, j));
        }
        seen := seen + {call.id};
        var result := messages[i + 1 + j];
        if !result.ToolResult? {
          return Some(ResultMissing(i, j));
        }
        if result.callId != call.id {
          return Some(WrongResultId(i, j));
        }
        if result.name != "" && result.name != call.name {
          return Some(WrongResultName(i, j));
        }
        assert calls[..j + 1] == calls[..j] + [call] && results[..j + 1] == results[..j] + [result];
      }
      assert calls[..|calls|] == calls && results[..|calls|] == results;
      return None;
  }

  datatype ContinuationError =
    | EmptyTranscript
    | NoResultTail
    | NoPrecedingMessage
    | NotAfterReply
    | ReplyWithoutCalls
    | ResultCount(results: nat, calls: nat)
    | EmptyId(call: nat)
    | EmptyName(call: nat)
    | RepeatedId(call: nat)
    | ResultId(call: nat)
    | ResultName(call: nat)

  // What an error says about the calls and results a continuation would have to rely on.
  predicate BatchExplains(err: ContinuationError, calls: seq<ToolCall>, results: seq<Message>) {
    match err
    case ReplyWithoutCalls => calls == []
    case ResultCount(n, m) => n == |results| && m == |calls| && n != m
    case EmptyId(i) => i < |calls| && calls[i].id == ""
    case EmptyName(i) => i < |calls| && calls[i].name == ""
    case RepeatedId(i) => i < |calls| && exists k :: 0 <= k < i && calls[k].id == calls[i].id
    case ResultId(i) => i < |calls| && i < |results| && results[i].ToolResult? && results[i].callId != calls[i].id
    case ResultName(i) =>
      i < |calls| && i < |results| && results[i].ToolResult? && results[i].name != "" && results[i].name != calls[i].name
    case _ => false
  }

  // What an error says about a transcript, whose tail of tool results starts at `first`.
  predicate TailExplains(err: ContinuationError, t: seq<Message>, first: nat) {
    && first <= |t| && (forall i | first <= i < |t| :: t[i].ToolResult?) && (first == 0 || !t[first - 1].ToolResult?)
    && match err
       case EmptyTranscript => t == []
       case NoResultTail => t != [] && first == |t|
       case NoPrecedingMessage => t != [] && first == 0
       case NotAfterReply => 0 < first < |t| && !t[first - 1].Reply?
       case _ => 0 < first < |t| && t[first - 1].Reply? && BatchExplains(err, t[first - 1].assistant.ToolCalls(), t[first..])
  }

  ghost predicate Explained(err: ContinuationError, t: seq<Message>) {
    exists first: nat :: TailExplains(err, t, first)
  }

  // The batch of a continuable transcript starts right before its tail of tool results.
  lemma BatchBeforeTail(t: seq<Message>, first: nat, k: nat)
    requires first <= |t| && forall i | first <= i < |t| :: t[i].ToolResult?
    requires first == 0 || !t[first - 1].ToolResult?
    requires ContinuableAt(t, k)
    ensures k + 1 == first
  {
    var results := t[k + 1..];
    forall i | k < i < |t|
      ensures t[i].ToolResult?
    {
      assert t[i] == results[i - k - 1];
    }
  }

  method ValidateContinuation(transcript: seq<Message>) returns (err: Option<ContinuationError>)
    ensures err.None? <==> Continuable(transcript)
    ensures err.Some? ==> Explained(err.value, transcript)
  {
    if |transcript| == 0 {
      assert TailExplains(EmptyTranscript, transcript, 0);
      return Some(EmptyTranscript);
    }
    var firstResult := |transcript|;
    while firstResult > 0 && transcript[firstResult - 1].ToolResult?
      invariant 0 <= firstResult <= |transcript|
      invariant forall i | firstResult <= i < |transcript| :: transcript[i].ToolResult?
    {
      firstResult := firstResult - 1;
    }
    forall k: nat | ContinuableAt(transcript, k)
      ensures k + 1 == firstResult
    {
      BatchBeforeTail(transcript, firstResult, k);
    }
    if firstResult == |transcript| {
      assert TailExplains(NoResultTail, transcript, firstResult);
      return Some(NoResultTail);
    }
    if firstResult == 0 {
      assert TailExplains(NoPrecedingMessage, transcript, 0);
      return Some(NoPrecedingMessage);
    }
    if !transcript[firstResult - 1].Reply? {
      assert TailExplains(NotAfterReply, transcript, firstResult);
      return Some(NotAfterReply);
    }
    err := ValidateBatch(transcript[firstResult - 1].assistant.ToolCalls(), transcript[firstResult..]);
    assert ContinuableAt(transcript, firstResult - 1) <==> err.None?;
    if err.Some? {
      assert TailExplains(err.value, transcript, firstResult);
    }
  }

  method ValidateBatch(calls: seq<ToolCall>, results: seq<Message>) returns (err: Option<ContinuationError>)
    requires forall m | m in results :: m.ToolResult?
    ensures err.None? <==> calls != [] && WellNamed(calls) && Matches(calls, results)
    ensures err.Some? ==> BatchExplains(err.value, calls, results)
  {
    if |calls| == 0 {
      return Some(ReplyWithoutCalls);
    }
    if |results| != |calls| {
      return Some(ResultCount(|results|, |calls|));
    }
    var seenIds: set<string> := {};
    for i := 0 to |calls|
      invariant CheckedUpTo(calls, results, i)
      invariant seenIds == set k | 0 <= k < i :: calls[k].id
    {
      var call := calls[i];
      if call.id == "" {
        return Some(EmptyId(i));
      }
      if call.name == "" {
        return Some(EmptyName(i));
      }
      if call.id in seenIds {
        return Some(RepeatedId(i));
      }
      seenIds := seenIds + {call.id};
      var result := results[i];
      assert result in results;
      if result.callId != call.id {
        return Some(ResultId(i));
      }
      if result.name != "" && result.name != call.name {
        return Some(ResultName(i));
      }
      assert calls[..i + 1] == calls[..i] + [call] && results[..i + 1] == results[..i] + [result];
    }
    assert calls[..|calls|] == calls && results[..|calls|] == results;
    return None;
  }
}
