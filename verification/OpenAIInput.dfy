/** The translation of a transcript into the input items of an OpenAI Responses request. */
module OpenAIInput {
  import opened Messages
  import opened Sequences
  import opened Transcript

  // ----- items -----

  datatype Part =
    | InputText(text: string)
    | InputImage(url: string)
    | InputFileData(data: string, filename: string)
    | InputFileUrl(url: string)

  datatype Item =
    | UserItem(parts: seq<Part>)
    | AssistantText(text: string)
    | SignedMessage(signature: string)
    | Reasoning(signature: string)
    | FunctionCall(call: ToolCall)
    | FunctionOutput(callId: string, parts: seq<Part>)

  // The checks on media types, URLs and signed JSON, which the translation only asks.
  datatype Checks = Checks(
    image: (string, string) -> bool,
    file: (string, string, string) -> bool,
    imageType: string -> bool,
    inlineData: string -> bool,
    signedReasoning: string -> bool,
    signedMessage: string -> bool
  )

  datatype Role = UserRole | ToolRole | AssistantRole

  datatype Parts = PartsOk(parts: seq<Part>) | BadPart(index: nat)

  datatype Converted = Items(items: seq<Item>) | NotConvertible(role: Role, index: nat)

  // ----- what each message becomes -----

  function PartOf(c: Checks, block: Content): Option<Part> {
    match block
    case Text(text, _) => Some(InputText(text))
    case Image(mediaType, url) => if c.image(mediaType, url) then Some(InputImage(url)) else None
    case File(filename, mediaType, url) =>
      if !c.file(filename, mediaType, url) then None
      else if c.imageType(mediaType) then if c.image(mediaType, url) then Some(InputImage(url)) else None
      else Some(if c.inlineData(url) then InputFileData(url, filename) else InputFileUrl(url))
    case Thinking(_, _, _) => None
    case Call(_) => None
  }

  predicate AllParts(c: Checks, content: seq<Content>) {
    forall i | 0 <= i < |content| :: PartOf(c, content[i]).Some?
  }

  predicate Belongs(block: Content) {
    block.Text? || block.Thinking? || block.Call?
  }

  predicate Convertible(c: Checks, m: Message) {
    match m
    case User(content) => AllParts(c, content)
    case ToolResult(_, _, content, _) => AllParts(c, content)
    case Reply(a) => forall i | 0 <= i < |a.content| :: Belongs(a.content[i])
    case Foreign => true
  }

  function PartsOf(c: Checks, content: seq<Content>): (parts: seq<Part>)
    requires AllParts(c, content)
    ensures |parts| == |content| && forall i | 0 <= i < |content| :: PartOf(c, content[i]) == Some(parts[i])
  {
    if content == [] then [] else [PartOf(c, content[0]).value] + PartsOf(c, content[1..])
  }

  // The first block of the message that cannot be converted.
  predicate Refuses(c: Checks, m: Message, role: Role, index: nat) {
    match m
    case User(content) => role == UserRole && FirstBadPart(c, content, index)
    case ToolResult(_, _, content, _) => role == ToolRole && FirstBadPart(c, content, index)
    case Reply(a) =>
      && role == AssistantRole && index < |a.content| && !Belongs(a.content[index])
      && forall i | 0 <= i < index :: Belongs(a.content[i])
    case Foreign => false
  }

  predicate FirstBadPart(c: Checks, content: seq<Content>, index: nat) {
    && index < |content| && PartOf(c, content[index]).None?
    && forall i | 0 <= i < index :: PartOf(c, content[i]).Some?
  }

  // A partial call, on a reply that did not stop for tool use, becomes nothing.
  function BlockItems(c: Checks, block: Content, replayCalls: bool): seq<Item> {
    match block
    case Thinking(_, signature, _) => if c.signedReasoning(signature) then [Reasoning(signature)] else []
    case Text(text, signature) =>
      if c.signedMessage(signature) then [SignedMessage(signature)]
      else if text != "" then [AssistantText(text)] else []
    case Call(call) => if replayCalls then [FunctionCall(call)] else []
    case _ => []
  }

  function ByBlock(c: Checks, replayCalls: bool): Content -> seq<Item> {
    block => BlockItems(c, block, replayCalls)
  }

  function AssistantItems(c: Checks, a: Assistant): seq<Item> {
    FlatMap(ByBlock(c, a.stopReason == ToolUse), a.content)
  }

  function ItemsFor(c: Checks, m: Message): seq<Item> {
    if !Convertible(c, m) then []
    else
      match m
      case User(content) => if content == [] then [] else [UserItem(PartsOf(c, content))]
      case ToolResult(callId, _, content, _) => [FunctionOutput(callId, PartsOf(c, content))]
      case Reply(a) => AssistantItems(c, a)
      case Foreign => []
  }

  predicate AllConvertible(c: Checks, ms: seq<Message>) {
    forall i | 0 <= i < |ms| :: Convertible(c, ms[i])
  }

  function ByMessage(c: Checks): Message -> seq<Item> {
    m => ItemsFor(c, m)
  }

  function Translation(c: Checks, ms: seq<Message>): seq<Item> {
    FlatMap(ByMessage(c), ms)
  }

  // ----- the loops -----

  method ConvertParts(c: Checks, content: seq<Content>) returns (r: Parts)
    ensures r.PartsOk? <==> AllParts(c, content)
    ensures r.PartsOk? ==> r.parts == PartsOf(c, content)
    ensures r.BadPart? ==> FirstBadPart(c, content, r.index)
  {
    var out: seq<Part> := [];
    for i := 0 to |content|
      invariant |out| == i && forall j | 0 <= j < i :: PartOf(c, content[j]) == Some(out[j])
    {
      match content[i]
      case Text(text, _) => out := out + [InputText(text)];
      case Image(mediaType, url) =>
        if !c.image(mediaType, url) {
          return BadPart(i);
        }
        out := out + [InputImage(url)];
      case File(filename, mediaType, url) =>
        if !c.file(filename, mediaType, url) {
          return BadPart(i);
        }
        if c.imageType(mediaType) {
          if !c.image(mediaType, url) {
            return BadPart(i);
          }
          out := out + [InputImage(url)];
          continue;
        }
        out := out + [if c.inlineData(url) then InputFileData(url, filename) else InputFileUrl(url)];
      case _ => return BadPart(i);
    }
    var parts := PartsOf(c, content);
    assert forall i | 0 <= i < |content| :: Some(out[i]) == Some(parts[i]);
    return PartsOk(out);
  }

  method ConvertAssistant(c: Checks, a: Assistant) returns (r: Converted)
    ensures r.Items? <==> forall i | 0 <= i < |a.content| :: Belongs(a.content[i])
    ensures r.Items? ==> r.items == AssistantItems(c, a)
    ensures r.NotConvertible? ==> Refuses(c, Reply(a), r.role, r.index)
  {
    hide FlatMap;
    var out: seq<Item> := [];
    ghost var f := ByBlock(c, a.stopReason == ToolUse);
    FlatMapNone(f);
    for i := 0 to |a.content|
      invariant forall j | 0 <= j < i :: Belongs(a.content[j])
      invariant out == FlatMap(f, a.content[..i])
    {
      FlatMapNext(f, a.content, i);
      match a.content[i]
      case Thinking(_, signature, _) =>
        if c.signedReasoning(signature) {
          out := out + [Reasoning(signature)];
        }
      case Text(text, signature) =>
        if c.signedMessage(signature) {
          out := out + [SignedMessage(signature)];
        } else if text != "" {
          out := out + [AssistantText(text)];
        }
      case Call(call) =>
        if a.stopReason == ToolUse {
          out := out + [FunctionCall(call)];
        }
      case _ => return NotConvertible(AssistantRole, i);
    }
    assert a.content[..|a.content|] == a.content;
    return Items(out);
  }

  method ToOpenAIInput(c: Checks, ms: seq<Message>) returns (r: Converted)
    ensures r.Items? <==> AllConvertible(c, ms)
    ensures r.Items? ==> r.items == Translation(c, ms)
    ensures r.NotConvertible? ==>
      exists i | 0 <= i < |ms| :: Refuses(c, ms[i], r.role, r.index) && forall j | 0 <= j < i :: Convertible(c, ms[j])
  {
    hide FlatMap, AllParts, AssistantItems;
    var out: seq<Item> := [];
    FlatMapNone(ByMessage(c));
    for i := 0 to |ms|
      invariant forall j | 0 <= j < i :: Convertible(c, ms[j])
      invariant out == FlatMap(ByMessage(c), ms[..i])
    {
      FlatMapNext(ByMessage(c), ms, i);
      match ms[i]
      case User(content) =>
        var converted := ConvertParts(c, content);
        if converted.BadPart? {
          return NotConvertible(UserRole, converted.index);
        }
        if converted.parts != [] {
          out := out + [UserItem(converted.parts)];
        }
      case ToolResult(callId, _, content, _) =>
        var converted := ConvertParts(c, content);
        if converted.BadPart? {
          return NotConvertible(ToolRole, converted.index);
        }
        out := out + [FunctionOutput(callId, converted.parts)];
      case Reply(a) =>
        var converted := ConvertAssistant(c, a);
        if converted.NotConvertible? {
          return converted;
        }
        out := out + converted.items;
      case Foreign =>
    }
    assert ms[..|ms|] == ms;
    return Items(out);
  }

  // ----- calls and outputs on the wire -----

  datatype Mark = Asked(call: ToolCall) | Answered(callId: string)

  function MarksOf(item: Item): seq<Mark> {
    match item
    case FunctionCall(call) => [Asked(call)]
    case FunctionOutput(callId, _) => [Answered(callId)]
    case _ => []
  }

  function Traffic(items: seq<Item>): seq<Mark> {
    FlatMap(MarksOf, items)
  }

  function Ask(call: ToolCall): seq<Mark> {
    [Asked(call)]
  }

  function Answer(call: ToolCall): seq<Mark> {
    [Answered(call.id)]
  }

  function Exchange(calls: seq<ToolCall>): seq<Mark> {
    FlatMap(Ask, calls) + FlatMap(Answer, calls)
  }

  // Batch by batch, all calls and then their outputs, with the same ids in the same order.
  function Exchanges(batches: seq<seq<ToolCall>>): seq<Mark> {
    FlatMap(Exchange, batches)
  }

  function BatchOf(m: Message): seq<seq<ToolCall>> {
    if m.Reply? && m.assistant.stopReason == ToolUse then [m.assistant.ToolCalls()] else []
  }

  // The calls of the tool-use replies, batch by batch.
  function Batches(ms: seq<Message>): seq<seq<ToolCall>> {
    FlatMap(BatchOf, ms)
  }

  function IfAsked(mark: Mark): seq<ToolCall> {
    if mark.Asked? then [mark.call] else []
  }

  function Same(calls: seq<ToolCall>): seq<ToolCall> {
    calls
  }

  predicate HasOutputs(calls: seq<ToolCall>, results: seq<Message>) {
    |results| == |calls| && forall i | 0 <= i < |calls| :: results[i].ToolResult? && results[i].callId == calls[i].id
  }

  // A tool-use reply with one result per call, in order, or any other message that is not a result.
  predicate IsSegment(u: seq<Message>) {
    && u != [] && !u[0].ToolResult?
    && if u[0].Reply? && u[0].assistant.stopReason == ToolUse then HasOutputs(u[0].assistant.ToolCalls(), u[1..]) else |u| == 1
  }

  ghost predicate SegmentsOf(segments: seq<seq<Message>>, ms: seq<Message>) {
    (forall u | u in segments :: IsSegment(u)) && Flatten(segments) == ms
  }

  // The tool-use batches of a transcript are complete; other replies may hold partial calls.
  ghost predicate CompleteBatches(ms: seq<Message>) {
    exists segments :: SegmentsOf(segments, ms)
  }

  // A reply puts its calls on the wire if it stopped for tool use, and nothing otherwise.
  lemma {:induction false} BlocksTraffic(c: Checks, content: seq<Content>, replayCalls: bool)
    ensures Traffic(FlatMap(ByBlock(c, replayCalls), content)) == if replayCalls then FlatMap(Ask, CallsIn(content)) else []
  {
    if content != [] {
      var first := BlockItems(c, content[0], replayCalls);
      BlocksTraffic(c, content[1..], replayCalls);
      FlatMapAppend(MarksOf, first, FlatMap(ByBlock(c, replayCalls), content[1..]));
      assert first == [] || first == [first[0]];
      if first != [] {
        FlatMapOne(MarksOf, first[0]);
      }
      if content[0].Call? {
        FlatMapAppend(Ask, [content[0].call], CallsIn(content[1..]));
        FlatMapOne(Ask, content[0].call);
      }
    }
  }

  lemma MessageTraffic(c: Checks, m: Message)
    requires Convertible(c, m)
    ensures Traffic(ItemsFor(c, m)) ==
      match m
      case Reply(a) => if a.stopReason == ToolUse then FlatMap(Ask, a.ToolCalls()) else []
      case ToolResult(callId, _, _, _) => [Answered(callId)]
      case _ => []
  {
    if m.Reply? {
      BlocksTraffic(c, m.assistant.content, m.assistant.stopReason == ToolUse);
    } else if ItemsFor(c, m) != [] {
      FlatMapOne(MarksOf, ItemsFor(c, m)[0]);
      assert ItemsFor(c, m) == [ItemsFor(c, m)[0]];
    }
  }

  lemma TranslationNext(c: Checks, ms: seq<Message>)
    requires ms != []
    ensures Translation(c, ms) == ItemsFor(c, ms[0]) + Translation(c, ms[1..])
    ensures Traffic(Translation(c, ms)) == Traffic(ItemsFor(c, ms[0])) + Traffic(Translation(c, ms[1..]))
  {
    FlatMapAppend(MarksOf, ItemsFor(c, ms[0]), Translation(c, ms[1..]));
  }

  // For every transcript: the calls on the wire are those of the tool-use replies, in order, so no
  // partial call is replayed.
  lemma {:induction false} NoPartialCallReplayed(c: Checks, ms: seq<Message>)
    requires AllConvertible(c, ms)
    ensures FlatMap(IfAsked, Traffic(Translation(c, ms))) == FlatMap(Same, Batches(ms))
  {
    if ms != [] {
      NoPartialCallReplayed(c, ms[1..]);
      TranslationNext(c, ms);
      MessageTraffic(c, ms[0]);
      MessageAsks(ms[0], Traffic(ItemsFor(c, ms[0])));
      FlatMapAppend(IfAsked, Traffic(ItemsFor(c, ms[0])), Traffic(Translation(c, ms[1..])));
      FlatMapAppend(Same, BatchOf(ms[0]), Batches(ms[1..]));
    }
  }

  lemma MessageAsks(m: Message, marks: seq<Mark>)
    requires marks ==
      match m
      case Reply(a) => if a.stopReason == ToolUse then FlatMap(Ask, a.ToolCalls()) else []
      case ToolResult(callId, _, _, _) => [Answered(callId)]
      case _ => []
    ensures FlatMap(IfAsked, marks) == FlatMap(Same, BatchOf(m))
  {
    if BatchOf(m) != [] {
      AskedBack(m.assistant.ToolCalls());
      FlatMapOne(Same, m.assistant.ToolCalls());
    } else if marks != [] {
      FlatMapOne(IfAsked, marks[0]);
    }
  }

  lemma {:induction false} AskedBack(calls: seq<ToolCall>)
    ensures FlatMap(IfAsked, FlatMap(Ask, calls)) == calls
  {
    if calls != [] {
      AskedBack(calls[1..]);
      FlatMapAppend(IfAsked, Ask(calls[0]), FlatMap(Ask, calls[1..]));
      FlatMapOne(IfAsked, Asked(calls[0]));
    }
  }

  lemma {:induction false} ResultsTraffic(c: Checks, calls: seq<ToolCall>, results: seq<Message>)
    requires HasOutputs(calls, results) && AllConvertible(c, results)
    ensures Traffic(Translation(c, results)) == FlatMap(Answer, calls) && Batches(results) == []
  {
    if results != [] {
      ResultsTraffic(c, calls[1..], results[1..]);
      MessageTraffic(c, results[0]);
      TranslationNext(c, results);
    }
  }

  lemma SegmentTraffic(c: Checks, u: seq<Message>)
    requires IsSegment(u) && AllConvertible(c, u)
    ensures Traffic(Translation(c, u)) == Exchanges(Batches(u))
  {
    TranslationNext(c, u);
    MessageTraffic(c, u[0]);
    if BatchOf(u[0]) != [] {
      var calls := u[0].assistant.ToolCalls();
      ResultsTraffic(c, calls, u[1..]);
      FlatMapOne(Exchange, calls);
      assert Batches(u) == [calls];
    } else {
      assert u[1..] == [] && Batches(u[1..]) == [];
      assert Translation(c, u[1..]) == [] && Traffic([]) == [];
    }
  }

  // When the tool-use batches are complete, the wire carries, batch by batch, all calls followed by
  // their outputs with the same ids in the same order, and nothing else.
  lemma CallsPaired(c: Checks, ms: seq<Message>)
    requires AllConvertible(c, ms) && CompleteBatches(ms)
    ensures Traffic(Translation(c, ms)) == Exchanges(Batches(ms))
  {
    var segments :| SegmentsOf(segments, ms);
    SegmentsPaired(c, segments);
  }

  lemma {:induction false} SegmentsPaired(c: Checks, segments: seq<seq<Message>>)
    requires (forall u | u in segments :: IsSegment(u)) && AllConvertible(c, Flatten(segments))
    ensures Traffic(Translation(c, Flatten(segments))) == Exchanges(Batches(Flatten(segments)))
  {
    if segments != [] {
      var u, rest := segments[0], Flatten(segments[1..]);
      assert forall i | 0 <= i < |u| :: Flatten(segments)[i] == u[i];
      assert forall i | 0 <= i < |rest| :: Flatten(segments)[|u| + i] == rest[i];
      SegmentsPaired(c, segments[1..]);
      SegmentTraffic(c, u);
      FlatMapAppend(ByMessage(c), u, rest);
      FlatMapAppend(MarksOf, Translation(c, u), Translation(c, rest));
      FlatMapAppend(BatchOf, u, rest);
      FlatMapAppend(Exchange, Batches(u), Batches(rest));
    }
  }

  // Every legal transcript has complete batches, so what the loop sends is always paired.
  lemma LegalIsPaired(c: Checks, ms: seq<Message>)
    requires AllConvertible(c, ms) && Conversation(ms)
    ensures CompleteBatches(ms) && Traffic(Translation(c, ms)) == Exchanges(Batches(ms))
  {
    var units :| MadeOf(units, ms);
    forall u | u in units
      ensures IsSegment(u)
    {
      assert IsUnit(u);
    }
    assert SegmentsOf(units, ms);
    CallsPaired(c, ms);
  }

  // ----- what the items say -----

  // The things a transcript has to say, in order: the messages with content of their own to send,
  // and the blocks of replies that are replayed.
  datatype Saying = UserSays(content: seq<Content>) | ResultSays(callId: string, content: seq<Content>) | ReplySays(block: Content)

  // Signed reasoning, signed or non-empty text, and the calls of a tool-use reply.
  predicate Replayed(c: Checks, a: Assistant, block: Content) {
    || (block.Thinking? && c.signedReasoning(block.signature))
    || (block.Text? && (c.signedMessage(block.signature) || block.text != ""))
    || (block.Call? && a.stopReason == ToolUse)
  }

  function SaidBlocks(c: Checks, a: Assistant): Content -> seq<Saying> {
    (block: Content) => if Replayed(c, a, block) then [ReplySays(block)] else []
  }

  function SaidBy(c: Checks): Message -> seq<Saying> {
    (m: Message) =>
      match m
      case User(content) => if content != [] then [UserSays(content)] else []
      case ToolResult(callId, _, content, _) => [ResultSays(callId, content)]
      case Reply(a) => FlatMap(SaidBlocks(c, a), a.content)
      case Foreign => []
  }

  function Said(c: Checks, ms: seq<Message>): seq<Saying> {
    FlatMap(SaidBy(c), ms)
  }

  // A part carries its block: the text, the URL, or the file with its data inline or by URL, if the
  // checks let it pass.
  predicate PartCarries(c: Checks, block: Content, part: Part) {
    match block
    case Text(text, _) => part.InputText? && part.text == text
    case Image(mediaType, url) => part.InputImage? && part.url == url && c.image(mediaType, url)
    case File(filename, mediaType, url) =>
      && c.file(filename, mediaType, url)
      && if c.imageType(mediaType) then part.InputImage? && part.url == url && c.image(mediaType, url)
         else if c.inlineData(url) then part.InputFileData? && part.data == url && part.filename == filename
         else part.InputFileUrl? && part.url == url
    case _ => false
  }

  predicate PartsCarry(c: Checks, content: seq<Content>, parts: seq<Part>) {
    |parts| == |content| && forall i | 0 <= i < |content| :: PartCarries(c, content[i], parts[i])
  }

  predicate Carries(c: Checks, saying: Saying, item: Item) {
    match saying
    case UserSays(content) => item.UserItem? && PartsCarry(c, content, item.parts)
    case ResultSays(callId, content) => item.FunctionOutput? && item.callId == callId && PartsCarry(c, content, item.parts)
    case ReplySays(block) =>
      (match block
       case Thinking(_, signature, _) => item == Reasoning(signature)
       case Text(text, signature) =>
         if c.signedMessage(signature) then item == SignedMessage(signature) else item == AssistantText(text)
       case Call(call) => item == FunctionCall(call)
       case _ => false)
  }

  ghost predicate AllCarried(c: Checks, sayings: seq<Saying>, items: seq<Item>) {
    |items| == |sayings| && forall i | 0 <= i < |sayings| :: Carries(c, sayings[i], items[i])
  }

  lemma CarriedConcat(c: Checks, a: seq<Saying>, x: seq<Item>, b: seq<Saying>, y: seq<Item>)
    requires AllCarried(c, a, x) && AllCarried(c, b, y)
    ensures AllCarried(c, a + b, x + y)
  {
  }

  ghost predicate Carriable(c: Checks, block: Content) {
    exists part :: PartCarries(c, block, part)
  }

  lemma PartExactly(c: Checks, block: Content)
    ensures PartOf(c, block).Some? <==> Carriable(c, block)
  {
    if PartOf(c, block).Some? {
      assert PartCarries(c, block, PartOf(c, block).value);
    }
  }

  // A transcript is refused only for a block that nothing could carry: in a reply one that is not
  // text, reasoning or a call, elsewhere one that no part carries.
  lemma ConvertibleExactly(c: Checks, m: Message)
    ensures Convertible(c, m) <==>
      match m
      case User(content) => forall i | 0 <= i < |content| :: Carriable(c, content[i])
      case ToolResult(_, _, content, _) => forall i | 0 <= i < |content| :: Carriable(c, content[i])
      case Reply(a) => forall i | 0 <= i < |a.content| :: a.content[i].Text? || a.content[i].Thinking? || a.content[i].Call?
      case Foreign => true
  {
    hide PartOf, PartCarries, Carriable;
    match m
    case User(content) => BlocksExactly(c, content);
    case ToolResult(_, _, content, _) => BlocksExactly(c, content);
    case _ =>
  }

  lemma BlocksExactly(c: Checks, content: seq<Content>)
    ensures AllParts(c, content) <==> forall i | 0 <= i < |content| :: Carriable(c, content[i])
  {
    hide PartOf, Carriable;
    forall i | 0 <= i < |content|
      ensures PartOf(c, content[i]).Some? <==> Carriable(c, content[i])
    {
      PartExactly(c, content[i]);
    }
  }

  lemma PartsAreCarried(c: Checks, content: seq<Content>)
    requires AllParts(c, content)
    ensures PartsCarry(c, content, PartsOf(c, content))
  {
    var parts := PartsOf(c, content);
    forall i | 0 <= i < |content|
      ensures PartCarries(c, content[i], parts[i])
    {
      assert PartOf(c, content[i]) == Some(parts[i]);
    }
  }

  lemma {:induction false} BlocksAreCarried(c: Checks, a: Assistant, content: seq<Content>)
    requires forall i | 0 <= i < |content| :: Belongs(content[i])
    ensures AllCarried(c, FlatMap(SaidBlocks(c, a), content), FlatMap(ByBlock(c, a.stopReason == ToolUse), content))
  {
    if content != [] {
      BlocksAreCarried(c, a, content[1..]);
      CarriedConcat(
        c, SaidBlocks(c, a)(content[0]), BlockItems(c, content[0], a.stopReason == ToolUse),
        FlatMap(SaidBlocks(c, a), content[1..]), FlatMap(ByBlock(c, a.stopReason == ToolUse), content[1..]));
    }
  }

  lemma MessageIsCarried(c: Checks, m: Message)
    requires Convertible(c, m)
    ensures AllCarried(c, SaidBy(c)(m), ItemsFor(c, m))
  {
    match m
    case User(content) => PartsAreCarried(c, content);
    case ToolResult(_, _, content, _) => PartsAreCarried(c, content);
    case Reply(a) => BlocksAreCarried(c, a, a.content);
    case Foreign =>
  }

  // Nothing is lost, added, changed or reordered: the items carry exactly what the transcript has to
  // say, one by one and in order.
  lemma {:induction false} WireSaysTranscript(c: Checks, ms: seq<Message>)
    requires AllConvertible(c, ms)
    ensures AllCarried(c, Said(c, ms), Translation(c, ms))
  {
    if ms != [] {
      hide Carries, Convertible;
      WireSaysTranscript(c, ms[1..]);
      MessageIsCarried(c, ms[0]);
      CarriedConcat(c, SaidBy(c)(ms[0]), ItemsFor(c, ms[0]), Said(c, ms[1..]), Translation(c, ms[1..]));
    }
  }

  // ----- the texts and signatures of replies -----

  function PlainText(item: Item): seq<string> {
    if item.AssistantText? then [item.text] else []
  }

  function Signature(item: Item): seq<string> {
    if item.SignedMessage? || item.Reasoning? then [item.signature] else []
  }

  function BlockText(c: Checks): Content -> seq<string> {
    (block: Content) => if block.Text? && !c.signedMessage(block.signature) && block.text != "" then [block.text] else []
  }

  function BlockSignature(c: Checks): Content -> seq<string> {
    (block: Content) =>
      if (block.Text? && c.signedMessage(block.signature)) || (block.Thinking? && c.signedReasoning(block.signature))
      then [block.signature] else []
  }

  function ReplyBlocks(m: Message): seq<Content> {
    if m.Reply? then m.assistant.content else []
  }

  lemma BlockOnWire(c: Checks, block: Content, replayCalls: bool)
    ensures FlatMap(PlainText, BlockItems(c, block, replayCalls)) == BlockText(c)(block)
    ensures FlatMap(Signature, BlockItems(c, block, replayCalls)) == BlockSignature(c)(block)
  {
    var items := BlockItems(c, block, replayCalls);
    if items != [] {
      assert items == [items[0]];
      FlatMapOne(PlainText, items[0]);
      FlatMapOne(Signature, items[0]);
    }
  }

  lemma {:induction false} BlocksOnWire(c: Checks, content: seq<Content>, replayCalls: bool)
    ensures FlatMap(PlainText, FlatMap(ByBlock(c, replayCalls), content)) == FlatMap(BlockText(c), content)
    ensures FlatMap(Signature, FlatMap(ByBlock(c, replayCalls), content)) == FlatMap(BlockSignature(c), content)
  {
    if content != [] {
      hide BlockItems, BlockText, BlockSignature, PlainText, Signature;
      BlocksOnWire(c, content[1..], replayCalls);
      BlockOnWire(c, content[0], replayCalls);
      var first, rest := BlockItems(c, content[0], replayCalls), FlatMap(ByBlock(c, replayCalls), content[1..]);
      FlatMapAppend(PlainText, first, rest);
      FlatMapAppend(Signature, first, rest);
    }
  }

  // The assistant texts on the wire are the non-empty texts of the unsigned text blocks of replies,
  // and the signed items are the signatures that the checks accept, in order.
  lemma {:induction false} RepliesOnWire(c: Checks, ms: seq<Message>)
    requires AllConvertible(c, ms)
    ensures FlatMap(PlainText, Translation(c, ms)) == FlatMap(BlockText(c), FlatMap(ReplyBlocks, ms))
    ensures FlatMap(Signature, Translation(c, ms)) == FlatMap(BlockSignature(c), FlatMap(ReplyBlocks, ms))
  {
    if ms != [] {
      var first, rest := ItemsFor(c, ms[0]), Translation(c, ms[1..]);
      RepliesOnWire(c, ms[1..]);
      FlatMapAppend(PlainText, first, rest);
      FlatMapAppend(Signature, first, rest);
      FlatMapAppend(BlockText(c), ReplyBlocks(ms[0]), FlatMap(ReplyBlocks, ms[1..]));
      FlatMapAppend(BlockSignature(c), ReplyBlocks(ms[0]), FlatMap(ReplyBlocks, ms[1..]));
      if ms[0].Reply? {
        BlocksOnWire(c, ms[0].assistant.content, ms[0].assistant.stopReason == ToolUse);
      } else if first != [] {
        assert first == [first[0]];
        FlatMapOne(PlainText, first[0]);
        FlatMapOne(Signature, first[0]);
      }
    }
  }
}
