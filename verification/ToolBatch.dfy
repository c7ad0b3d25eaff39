/** One batch of tool calls: how a call resolves through its hooks, and the interleavings of the
    goroutines that execute a batch in parallel. */
module ToolBatch {
  import opened Messages

  // ----- one call -----

  datatype ExecutionMode = Parallel | Sequential

  // What the hooks and the tool answer when they are asked about one call.
  datatype BeforeAnswer =
    | BeforeFailed(text: string)
    | BeforeReturned(reject: bool, reason: string, result: Option<ToolOutput>)

  datatype ToolAnswer = ToolFailed(text: string) | ToolReturned(output: ToolOutput)

  datatype AfterAnswer = AfterFailed(text: string) | AfterReturned(replacement: Option<ToolOutput>)

  datatype Answers = Answers(before: BeforeAnswer, tool: ToolAnswer, after: AfterAnswer)

  datatype Setup = Setup(tools: map<string, ExecutionMode>, hasBefore: bool, hasAfter: bool)

  function ErrorOutput(text: string): ToolOutput {
    ToolOutput([Text(text, "")], true)
  }

  // Some when the before hook settles the call, so that the tool does not run.
  function BeforeTool(setup: Setup, answers: Answers): Option<Outcome> {
    if !setup.hasBefore then None
    else match answers.before
         case BeforeFailed(text) => Some(Outcome(ErrorOutput(text), true))
         case BeforeReturned(reject, reason, result) =>
           if reject then
             Some(Outcome(ErrorOutput(if reason == "" then "Tool execution was rejected" else reason), true))
           else if result.Some? then Some(Outcome(result.value, result.value.isError))
           else None
  }

  function ExecuteTool(setup: Setup, call: ToolCall, answers: Answers): Outcome {
    if call.name !in setup.tools then Outcome(ErrorOutput("Tool " + call.name + " not found"), true)
    else match answers.tool
         case ToolFailed(text) => Outcome(ErrorOutput(text), true)
         case ToolReturned(output) => Outcome(output, output.isError)
  }

  function ExecuteAndAfter(setup: Setup, call: ToolCall, answers: Answers): Outcome {
    var executed := ExecuteTool(setup, call, answers);
    if !setup.hasAfter then executed
    else match answers.after
         case AfterFailed(text) => Outcome(ErrorOutput(text), true)
         case AfterReturned(replacement) =>
           if replacement.Some? then Outcome(replacement.value, replacement.value.isError) else executed
  }

  // The whole path of one call.
  function RunToolCall(setup: Setup, call: ToolCall, answers: Answers): Outcome {
    var settled := BeforeTool(setup, answers);
    if settled.Some? then settled.value else ExecuteAndAfter(setup, call, answers)
  }

  // Whatever hooks and tools answer, the error status reported for a call is the one its output carries.
  lemma ErrorStatusAgrees(setup: Setup, call: ToolCall, answers: Answers)
    ensures RunToolCall(setup, call, answers).isError == RunToolCall(setup, call, answers).output.isError
  {
  }

  predicate IsError(outcome: Outcome, text: string) {
    outcome == Outcome(ToolOutput([Text(text, "")], true), true)
  }

  // The before hook settles the call: whatever the tool and the after hook would answer, a failing
  // hook gives its error, a rejection its reason, and a result in place of the tool's is passed on.
  lemma BeforeHookSettles(setup: Setup, call: ToolCall, answers: Answers)
    requires setup.hasBefore
    ensures
      var outcome := RunToolCall(setup, call, answers);
      match answers.before
      case BeforeFailed(text) => IsError(outcome, text)
      case BeforeReturned(reject, reason, result) =>
        && (reject && reason != "" ==> IsError(outcome, reason))
        && (reject && reason == "" ==> IsError(outcome, "Tool execution was rejected"))
        && (!reject && result.Some? ==> outcome == Outcome(result.value, result.value.isError))
  {
  }

  // The before hook, if there is one, lets the call go on.
  predicate LetThrough(setup: Setup, answers: Answers) {
    setup.hasBefore ==> answers.before.BeforeReturned? && !answers.before.reject && answers.before.result.None?
  }

  // Otherwise the tool answers: an unregistered one or a failing one with an error, and its answer
  // stands unless there is an after hook that fails or replaces it.
  lemma ToolAndAfterHookSettle(setup: Setup, call: ToolCall, answers: Answers)
    requires LetThrough(setup, answers)
    ensures
      var outcome := RunToolCall(setup, call, answers);
      if setup.hasAfter && answers.after.AfterFailed? then IsError(outcome, answers.after.text)
      else if setup.hasAfter && answers.after.replacement.Some? then
        outcome == Outcome(answers.after.replacement.value, answers.after.replacement.value.isError)
      else if call.name !in setup.tools then IsError(outcome, "Tool " + call.name + " not found")
      else if answers.tool.ToolFailed? then IsError(outcome, answers.tool.text)
      else outcome == Outcome(answers.tool.output, answers.tool.output.isError)
  {
  }

  // A batch is sequential when the default is, or any registered tool in it is.
  predicate BatchIsSequential(setup: Setup, mode: ExecutionMode, calls: seq<ToolCall>) {
    mode == Sequential
    || exists i | 0 <= i < |calls| :: calls[i].name in setup.tools && setup.tools[calls[i].name] == Sequential
  }

  function Outcomes(setup: Setup, calls: seq<ToolCall>, answers: nat -> Answers): seq<Outcome> {
    seq(|calls|, i requires 0 <= i < |calls| => RunToolCall(setup, calls[i], answers(i)))
  }

  function ResultMessage(call: ToolCall, outcome: Outcome): Message {
    ToolResult(call.id, call.name, outcome.output.content, outcome.isError)
  }

  function ResultMessages(calls: seq<ToolCall>, outcomes: seq<Outcome>): seq<Message>
    requires |outcomes| == |calls|
  {
    seq(|calls|, i requires 0 <= i < |calls| => ResultMessage(calls[i], outcomes[i]))
  }

  // Result i answers call i, with the content and the status of its outcome.
  lemma ResultsCarryOutcomes(calls: seq<ToolCall>, outcomes: seq<Outcome>, i: nat)
    requires |outcomes| == |calls| && i < |calls|
    ensures |ResultMessages(calls, outcomes)| == |calls|
    ensures
      var m := ResultMessages(calls, outcomes)[i];
      && m.ToolResult? && m.callId == calls[i].id && m.name == calls[i].name
      && m.content == outcomes[i].output.content && m.isError == outcomes[i].isError
  {
  }

  // ----- the parallel batch, after its sequential preflight -----

  // The stages of one call. A call settled by its before hook is Finished from the start; another
  // is spawned by the main goroutine, waits for a semaphore slot, runs its tool, writes its own
  // outcome slot, announces the end of the execution and finally releases slot and join counter.
  datatype Stage = Unspawned | Waiting | Running | Written | Announced | Finished

  // Marks name the execution events by the position of their call.
  datatype Mark = Started(i: nat) | Ended(i: nat)

  datatype Batch = Batch(stages: seq<Stage>, outcomes: seq<Option<Outcome>>, marks: seq<Mark>)

  predicate HasSlot(stage: Stage) {
    stage == Running || stage == Written || stage == Announced
  }

  // How many goroutines hold a semaphore slot.
  function Occupied(stages: seq<Stage>): nat {
    if stages == [] then 0
    else Occupied(stages[..|stages| - 1]) + (if HasSlot(stages[|stages| - 1]) then 1 else 0)
  }

  function StepsLeft(stage: Stage): nat {
    match stage
    case Unspawned => 5
    case Waiting => 4
    case Running => 3
    case Written => 2
    case Announced => 1
    case Finished => 0
  }

  function Measure(stages: seq<Stage>): nat {
    if stages == [] then 0 else Measure(stages[..|stages| - 1]) + StepsLeft(stages[|stages| - 1])
  }

  // Goroutine i (or, for Unspawned, the main goroutine about to spawn it) can take a step.
  // limit is MaxParallelTools: a limit that is not positive means no semaphore.
  predicate Enabled(limit: int, b: Batch, i: nat) {
    && i < |b.stages|
    && match b.stages[i]
       case Unspawned => forall j | 0 <= j < i :: b.stages[j] != Unspawned
       case Waiting => limit <= 0 || Occupied(b.stages) < limit
       case Finished => false
       case _ => true
  }

  // The step of goroutine i, whose tool comes to the given outcome.
  function Step(b: Batch, i: nat, outcome: Outcome): Batch
    requires |b.stages| == |b.outcomes| && i < |b.stages| && b.stages[i] != Finished
  {
    match b.stages[i]
    case Unspawned => b.(stages := b.stages[i := Waiting])
    case Waiting => b.(stages := b.stages[i := Running])
    case Running => b.(stages := b.stages[i := Written], outcomes := b.outcomes[i := Some(outcome)])
    case Written => b.(stages := b.stages[i := Announced], marks := b.marks + [Ended(i)])
    case Announced => b.(stages := b.stages[i := Finished])
  }

  predicate AllFinished(b: Batch) {
    forall i | 0 <= i < |b.stages| :: b.stages[i] == Finished
  }

  // Ended may not come before Started.
  predicate InOrder(marks: seq<Mark>) {
    forall p, q | 0 <= p < |marks| && 0 <= q < |marks| && marks[p].Ended? && marks[q] == Started(marks[p].i) :: q < p
  }

  // Each of the first n calls was started exactly once, and ended exactly once after that.
  ghost predicate Paired(marks: seq<Mark>, n: nat) {
    && InOrder(marks)
    && forall i: nat ::
         && multiset(marks)[Started(i)] == (if i < n then 1 else 0)
         && multiset(marks)[Ended(i)] == (if i < n then 1 else 0)
  }

  // Every started call has one start mark; the announced ones have one end mark, after the start.
  ghost predicate MarksInv(stages: seq<Stage>, marks: seq<Mark>) {
    && InOrder(marks)
    && (forall i: nat :: multiset(marks)[Started(i)] == (if i < |stages| then 1 else 0))
    && (forall i: nat :: multiset(marks)[Ended(i)] == (if i < |stages| && StepsLeft(stages[i]) <= 1 then 1 else 0))
  }

  ghost predicate BatchInv(limit: int, expected: seq<Outcome>, b: Batch) {
    && |expected| == |b.stages| == |b.outcomes|
    && (limit > 0 ==> Occupied(b.stages) <= limit)
    && (forall i | 0 <= i < |b.stages| ::
          b.outcomes[i] == if StepsLeft(b.stages[i]) <= 2 then Some(expected[i]) else None)
    && MarksInv(b.stages, b.marks)
  }

  lemma {:induction false} UpdateCounts(stages: seq<Stage>, i: nat, to: Stage)
    requires i < |stages|
    ensures Occupied(stages[i := to]) + (if HasSlot(stages[i]) then 1 else 0)
         == Occupied(stages) + (if HasSlot(to) then 1 else 0)
    ensures Measure(stages[i := to]) + StepsLeft(stages[i]) == Measure(stages) + StepsLeft(to)
  {
    var n := |stages| - 1;
    if i == n {
      assert stages[i := to][..n] == stages[..n];
    } else {
      UpdateCounts(stages[..n], i, to);
      assert stages[i := to][..n] == stages[..n][i := to];
    }
  }

  lemma {:induction false} OccupiedBySome(stages: seq<Stage>) returns (i: nat)
    requires Occupied(stages) > 0
    ensures i < |stages| && HasSlot(stages[i])
  {
    var n := |stages| - 1;
    if HasSlot(stages[n]) {
      i := n;
    } else {
      i := OccupiedBySome(stages[..n]);
    }
  }

  // One step of any goroutine keeps the invariant and lowers the measure by one; only slot i of the
  // outcomes can change.
  lemma StepKeepsInv(limit: int, expected: seq<Outcome>, b: Batch, i: nat)
    requires BatchInv(limit, expected, b) && Enabled(limit, b, i)
    ensures BatchInv(limit, expected, Step(b, i, expected[i]))
    ensures Measure(Step(b, i, expected[i]).stages) == Measure(b.stages) - 1
    ensures forall j | 0 <= j < |b.outcomes| && j != i :: Step(b, i, expected[i]).outcomes[j] == b.outcomes[j]
  {
    var c := Step(b, i, expected[i]);
    UpdateCounts(b.stages, i, c.stages[i]);
    if b.stages[i] == Written {
      AnnounceKeepsMarks(b.stages, b.marks, i);
    } else {
      assert MarksInv(c.stages, c.marks);
    }
  }

  lemma AnnounceKeepsMarks(stages: seq<Stage>, marks: seq<Mark>, i: nat)
    requires MarksInv(stages, marks) && i < |stages| && stages[i] == Written
    ensures MarksInv(stages[i := Announced], marks + [Ended(i)])
  {
    assert multiset(marks + [Ended(i)]) == multiset(marks) + multiset{Ended(i)};
  }

  // No reachable batch is stuck before every call has finished.
  lemma Progress(limit: int, expected: seq<Outcome>, b: Batch) returns (i: nat)
    requires BatchInv(limit, expected, b) && !AllFinished(b)
    ensures Enabled(limit, b, i)
  {
    if Occupied(b.stages) > 0 {
      i := OccupiedBySome(b.stages);
    } else if exists k: nat :: k < |b.stages| && b.stages[k] == Unspawned {
      i := 0;
      while b.stages[i] != Unspawned
        invariant i < |b.stages|
        invariant exists k: nat :: i <= k < |b.stages| && b.stages[k] == Unspawned
        invariant forall j | 0 <= j < i :: b.stages[j] != Unspawned
        decreases |b.stages| - i
      {
        i := i + 1;
      }
    } else {
      i :| i < |b.stages| && b.stages[i] != Finished;
      if HasSlot(b.stages[i]) {
        NoSlotWhenIdle(b.stages, i);
      }
    }
  }

  lemma {:induction false} NoSlotWhenIdle(stages: seq<Stage>, i: nat)
    requires i < |stages| && HasSlot(stages[i])
    ensures Occupied(stages) > 0
  {
    if i < |stages| - 1 {
      NoSlotWhenIdle(stages[..|stages| - 1], i);
    }
  }

  // Where a batch stands after the preflight: calls settled by the before hook are finished.
  ghost predicate Preflighted(setup: Setup, calls: seq<ToolCall>, answers: nat -> Answers, b: Batch, n: nat) {
    && n == |b.stages| == |b.outcomes| <= |calls|
    && (forall i | 0 <= i < n ::
          var settled := BeforeTool(setup, answers(i));
          && b.outcomes[i] == settled
          && b.stages[i] == if settled.Some? then Finished else Unspawned)
    && MarksInv(b.stages, b.marks)
  }

  // The preflight of one more call: it is started, and ended at once if its before hook settles it.
  function PreflightCall(b: Batch, settled: Option<Outcome>): Batch {
    var i := |b.stages|;
    Batch(
      b.stages + [if settled.Some? then Finished else Unspawned],
      b.outcomes + [settled],
      b.marks + (if settled.Some? then [Started(i), Ended(i)] else [Started(i)]))
  }

  // The marks of the preflight of n calls: each is started in turn, and ended at once if settled.
  function PreflightMarks(setup: Setup, answers: nat -> Answers, n: nat): seq<Mark> {
    if n == 0 then []
    else
      PreflightMarks(setup, answers, n - 1)
      + (if BeforeTool(setup, answers(n - 1)).Some? then [Started(n - 1), Ended(n - 1)] else [Started(n - 1)])
  }

  lemma PreflightNext(setup: Setup, calls: seq<ToolCall>, answers: nat -> Answers, b: Batch, n: nat)
    requires Preflighted(setup, calls, answers, b, n) && n < |calls|
    ensures Preflighted(setup, calls, answers, PreflightCall(b, BeforeTool(setup, answers(n))), n + 1)
  {
    var settled := BeforeTool(setup, answers(n));
    StartKeepsMarks(b.stages, b.marks, Written);
    if settled.Some? {
      AnnounceKeepsMarks(b.stages + [Written], b.marks + [Started(n)], n);
      assert b.marks + [Started(n)] + [Ended(n)] == b.marks + [Started(n), Ended(n)];
      SameMarks((b.stages + [Written])[n := Announced], b.stages + [Finished], b.marks + [Started(n), Ended(n)]);
    } else {
      SameMarks(b.stages + [Written], b.stages + [Unspawned], b.marks + [Started(n)]);
    }
  }

  lemma StartKeepsMarks(stages: seq<Stage>, marks: seq<Mark>, stage: Stage)
    requires MarksInv(stages, marks) && StepsLeft(stage) > 1
    ensures MarksInv(stages + [stage], marks + [Started(|stages|)])
  {
    assert multiset(marks + [Started(|stages|)]) == multiset(marks) + multiset{Started(|stages|)};
    forall p | 0 <= p < |marks|
      ensures marks[p] != Ended(|stages|)
    {
      assert marks[p] in multiset(marks);
    }
  }

  // The marks depend on the stages only through which calls have been announced.
  lemma SameMarks(stages: seq<Stage>, others: seq<Stage>, marks: seq<Mark>)
    requires MarksInv(stages, marks) && |stages| == |others|
    requires forall i | 0 <= i < |stages| :: StepsLeft(stages[i]) <= 1 <==> StepsLeft(others[i]) <= 1
    ensures MarksInv(others, marks)
  {
  }

  lemma PreflightNone(setup: Setup, calls: seq<ToolCall>, answers: nat -> Answers)
    ensures Preflighted(setup, calls, answers, Batch([], [], []), 0)
  {
  }

  lemma PairedNone()
    ensures Paired([], 0)
  {
  }

  // One more call of a sequential batch: start, end.
  lemma PairedNext(marks: seq<Mark>, n: nat)
    requires Paired(marks, n)
    ensures Paired(marks + [Started(n), Ended(n)], n + 1)
  {
    assert multiset(marks + [Started(n), Ended(n)]) == multiset(marks) + multiset{Started(n), Ended(n)};
  }

  lemma {:induction false} IdleStages(stages: seq<Stage>)
    requires forall i | 0 <= i < |stages| :: stages[i] == Finished || stages[i] == Unspawned
    ensures Occupied(stages) == 0
  {
    if stages != [] {
      IdleStages(stages[..|stages| - 1]);
    }
  }

  lemma PreflightEstablishesInv(limit: int, setup: Setup, calls: seq<ToolCall>, answers: nat -> Answers, b: Batch)
    requires Preflighted(setup, calls, answers, b, |calls|)
    ensures BatchInv(limit, Outcomes(setup, calls, answers), b)
  {
    IdleStages(b.stages);
  }

  // ----- whole schedules -----

  // b can be driven to c by letting the goroutines of schedule step one after the other.
  predicate Reaches(limit: int, expected: seq<Outcome>, b: Batch, schedule: seq<nat>, c: Batch)
    requires |expected| == |b.stages| == |b.outcomes|
    decreases |schedule|
  {
    if schedule == [] then b == c
    else Enabled(limit, b, schedule[0]) && Reaches(limit, expected, Step(b, schedule[0], expected[schedule[0]]), schedule[1..], c)
  }

  lemma {:induction false} ScheduleKeepsInv(limit: int, expected: seq<Outcome>, b: Batch, schedule: seq<nat>, c: Batch)
    requires BatchInv(limit, expected, b) && Reaches(limit, expected, b, schedule, c)
    ensures BatchInv(limit, expected, c) && Measure(c.stages) == Measure(b.stages) - |schedule|
    decreases |schedule|
  {
    if schedule != [] {
      StepKeepsInv(limit, expected, b, schedule[0]);
      ScheduleKeepsInv(limit, expected, Step(b, schedule[0], expected[schedule[0]]), schedule[1..], c);
    }
  }

  lemma {:induction false} FinishedMeasure(stages: seq<Stage>)
    requires forall i | 0 <= i < |stages| :: stages[i] == Finished
    ensures Measure(stages) == 0
  {
    if stages != [] {
      FinishedMeasure(stages[..|stages| - 1]);
    }
  }

  // Once every call has finished, every slot is written and every call has its two marks in order.
  lemma FinishedBatch(limit: int, expected: seq<Outcome>, b: Batch)
    requires BatchInv(limit, expected, b) && AllFinished(b)
    ensures Paired(b.marks, |expected|) && Measure(b.stages) == 0
    ensures forall i | 0 <= i < |expected| :: b.outcomes[i] == Some(expected[i])
  {
    FinishedMeasure(b.stages);
  }

  // Every schedule that cannot be extended ends in the same place after the same number of steps:
  // all calls finished, every slot holding the outcome of the sequential path for its call, one
  // start before one end each; and at no point on the way do more bodies run than the limit allows.
  lemma EveryScheduleAgrees(
    limit: int, setup: Setup, calls: seq<ToolCall>, answers: nat -> Answers, b: Batch, schedule: seq<nat>, c: Batch)
    requires Preflighted(setup, calls, answers, b, |calls|)
    requires Reaches(limit, Outcomes(setup, calls, answers), b, schedule, c)
    ensures limit > 0 ==> Occupied(c.stages) <= limit
    ensures |schedule| + Measure(c.stages) == Measure(b.stages)
    ensures AllFinished(c) <==> forall i: nat :: !Enabled(limit, c, i)
    ensures AllFinished(c) ==>
      && |schedule| == Measure(b.stages)
      && Paired(c.marks, |calls|)
      && |c.outcomes| == |calls|
      && forall i | 0 <= i < |calls| :: c.outcomes[i] == Some(RunToolCall(setup, calls[i], answers(i)))
  {
    hide Occupied, Measure, InOrder, MarksInv, Reaches, Preflighted;
    var expected := Outcomes(setup, calls, answers);
    PreflightEstablishesInv(limit, setup, calls, answers, b);
    ScheduleKeepsInv(limit, expected, b, schedule, c);
    if AllFinished(c) {
      FinishedBatch(limit, expected, c);
    } else {
      var i := Progress(limit, expected, c);
    }
  }

  // ----- bodies do overlap -----

  function InBody(stages: seq<Stage>): nat {
    if stages == [] then 0 else InBody(stages[..|stages| - 1]) + (if stages[|stages| - 1] == Running then 1 else 0)
  }

  lemma {:induction false} BodyCounts(stages: seq<Stage>, i: nat)
    requires i < |stages| && stages[i] != Running
    ensures InBody(stages[i := Running]) == InBody(stages) + 1
  {
    var n := |stages| - 1;
    if i == n {
      assert stages[i := Running][..n] == stages[..n];
    } else {
      BodyCounts(stages[..n], i);
      assert stages[i := Running][..n] == stages[..n][i := Running];
    }
  }

  // The first n calls are in their bodies, if their before hooks let them through; the rest is as
  // the preflight left it.
  predicate Overlapping(preflighted: seq<Stage>, stages: seq<Stage>, n: nat) {
    && n <= |preflighted| == |stages|
    && (forall i | 0 <= i < n :: stages[i] == if preflighted[i] == Unspawned then Running else Finished)
    && (forall i | n <= i < |stages| :: stages[i] == preflighted[i])
  }

  lemma {:induction false} OverlapCounts(preflighted: seq<Stage>, stages: seq<Stage>, n: nat)
    requires forall i | 0 <= i < |preflighted| :: preflighted[i] == Unspawned || preflighted[i] == Finished
    requires Overlapping(preflighted, stages, n)
    ensures Occupied(stages) == InBody(stages) == Waitings(preflighted, n)
    decreases |stages|
  {
    if stages != [] {
      var m := |stages| - 1;
      OverlapCounts(preflighted[..m], stages[..m], if n <= m then n else m);
      WaitingsPrefix(preflighted, if n <= m then n else m);
    }
  }

  // How many of the first n calls have to run their tools.
  function Waitings(preflighted: seq<Stage>, n: nat): nat
    requires n <= |preflighted|
  {
    if n == 0 then 0 else Waitings(preflighted, n - 1) + (if preflighted[n - 1] == Unspawned then 1 else 0)
  }

  lemma {:induction false} WaitingsPrefix(preflighted: seq<Stage>, n: nat)
    requires n < |preflighted|
    ensures Waitings(preflighted[..|preflighted| - 1], n) == Waitings(preflighted, n)
  {
    if n > 0 {
      WaitingsPrefix(preflighted, n - 1);
    }
  }

  lemma {:induction false} ReachesOneMore(limit: int, expected: seq<Outcome>, b: Batch, schedule: seq<nat>, c: Batch, i: nat)
    requires |expected| == |b.stages| == |b.outcomes| && Reaches(limit, expected, b, schedule, c)
    requires |c.stages| == |c.outcomes| == |expected| && Enabled(limit, c, i)
    ensures Reaches(limit, expected, b, schedule + [i], Step(c, i, expected[i]))
    decreases |schedule|
  {
    if schedule == [] {
      assert (schedule + [i])[1..] == [];
    } else {
      ReachesOneMore(limit, expected, Step(b, schedule[0], expected[schedule[0]]), schedule[1..], c, i);
      assert (schedule + [i])[1..] == schedule[1..] + [i];
    }
  }

  // Call i is spawned and its body starts, if a slot is free.
  lemma StartBody(limit: int, expected: seq<Outcome>, b: Batch, schedule: seq<nat>, c: Batch, i: nat) returns (next: Batch)
    requires |expected| == |b.stages| == |b.outcomes| && Reaches(limit, expected, b, schedule, c)
    requires |c.stages| == |c.outcomes| == |expected| && i < |expected| && c.stages[i] == Unspawned
    requires forall j | 0 <= j < i :: c.stages[j] != Unspawned
    requires limit <= 0 || Occupied(c.stages) < limit
    ensures Reaches(limit, expected, b, schedule + [i] + [i], next)
    ensures next.stages == c.stages[i := Running] && |next.outcomes| == |expected|
  {
    hide Reaches, Occupied;
    ReachesOneMore(limit, expected, b, schedule, c, i);
    var waiting := Step(c, i, expected[i]);
    UpdateCounts(c.stages, i, Waiting);
    ReachesOneMore(limit, expected, b, schedule + [i], waiting, i);
    next := Step(waiting, i, expected[i]);
  }

  // The limit is not lower than stated: as many tool bodies as it allows can be running at once.
  lemma {:induction false} BodiesOverlap(limit: int, expected: seq<Outcome>, b: Batch, n: nat) returns (schedule: seq<nat>, c: Batch)
    requires |expected| == |b.stages| == |b.outcomes| && n <= |b.stages|
    requires forall i | 0 <= i < |b.stages| :: b.stages[i] == Unspawned || b.stages[i] == Finished
    requires limit <= 0 || Waitings(b.stages, n) <= limit
    ensures Reaches(limit, expected, b, schedule, c) && InBody(c.stages) == Waitings(b.stages, n)
    ensures Overlapping(b.stages, c.stages, n) && |c.outcomes| == |expected|
  {
    if n == 0 {
      schedule, c := [], b;
    } else {
      schedule, c := BodiesOverlap(limit, expected, b, n - 1);
      OverlapCounts(b.stages, c.stages, n - 1);
      if b.stages[n - 1] == Unspawned {
        hide Reaches, Occupied, InBody;
        c := StartBody(limit, expected, b, schedule, c, n - 1);
        schedule := schedule + [n - 1] + [n - 1];
      }
    }
    OverlapCounts(b.stages, c.stages, n);
  }
}
