/** The admission and shutdown protocol: callers of enqueue, the worker, Close and the final drain,
    as a step relation over atomic actions, together with the channels they send on and close. */
module Admission {
  import opened Messages

  // Every call of enqueue brings its own prompt; one number names both.
  type Id = nat

  const QUEUE_CAPACITY := 64

  // A prompt may carry a one-slot result channel or a run-scoped event stream.
  datatype Kind = Plain | Sync | Streaming

  // enqueue: about to lock queueMu, holding it, past the accepting check, returned nil or an error.
  datatype CallerPc = Entering | Locked | Selecting | Admitted | Refused

  // The worker: in its select, with a dequeued prompt, past the second check of closed, in the run,
  // about to complete it; then on its way out: about to lock, draining, finishing events, returned.
  datatype WorkerPc =
    | Idle
    | Took(id: Id)
    | Ready(id: Id)
    | Executing(id: Id)
    | Finishing(id: Id)
    | Leaving
    | Draining
    | Ending
    | Returned

  datatype CloserPc = NotCalled | Signalled | Gating | Gated

  datatype Lock = Free | HeldByCaller(id: Id) | HeldByWorker | HeldByCloser

  datatype Channel = Missing | Open | Shut

  // Where an emitter decided to send, under eventsMu, before it sends.
  datatype Target = ToRun(id: Id) | ToSession | Nowhere

  datatype State = State(
    closed: bool,
    accepting: bool,
    lock: Lock,
    queue: seq<Id>,
    kinds: map<Id, Kind>,
    callers: map<Id, CallerPc>,
    worker: WorkerPc,
    closer: CloserPc,
    // One-slot result channels that hold a result, and run streams that were completed.
    slots: set<Id>,
    runsShut: set<Id>,
    activeRun: Option<Id>,
    events: Channel,
    eventsClosed: bool,
    // The emitters (the worker and its tool goroutines) between decision and send.
    sending: map<nat, Target>,
    // History: admissions, completions and runs in order, and how many prompts had passed the
    // worker's second check when closed was signalled.
    admitted: seq<Id>,
    completed: seq<Id>,
    ran: seq<Id>,
    passedAtClose: nat,
    // A send on or a close of a closed channel, and a send that blocks the worker.
    panicked: bool,
    wedged: bool,
    // History: the results taken from their slots, and whether Events was ever called.
    received: set<Id>,
    asked: bool
  )

  const INITIAL := State(
    false, true, Free, [], map[], map[], Idle, NotCalled, {}, {}, None, Missing, false, map[], [], [], [], 0, false, false, {}, false)

  datatype CallerStep = Arrive(kind: Kind) | LockQueue | CheckAccepting | Push | GiveUp | Receive

  datatype WorkerStep =
    | SeeClosed
    | Dequeue
    | CheckClosed
    | StartRun
    | EndRun
    | CompleteRun
    | LockDrain
    | DrainOne
    | DrainDone
    | FinishEvents

  // An emitter decides and sends; Close signals and then gates admission; anyone asks for Events.
  datatype OtherStep = Decide(emitter: nat) | Send(emitter: nat) | SignalClosed | LockGate | CloseGate | AskEvents

  datatype Action = Caller(id: Id, caller: CallerStep) | Worker(worker: WorkerStep) | Other(other: OtherStep)

  predicate CallerAt(s: State, id: Id, pc: CallerPc) {
    id in s.callers && s.callers[id] == pc
  }

  function InHand(w: WorkerPc): seq<Id> {
    if w.Took? || w.Ready? || w.Executing? || w.Finishing? then [w.id] else []
  }

  // While closed is not signalled: how many prompts have passed the worker's second check of it.
  function Passed(s: State): nat {
    |s.completed| + (if s.worker.Ready? || s.worker.Executing? || s.worker.Finishing? then 1 else 0)
  }

  predicate CallerEnabled(s: State, id: Id, a: CallerStep) {
    match a
    case Arrive(_) => id !in s.callers
    case LockQueue => CallerAt(s, id, Entering) && s.lock == Free
    case CheckAccepting => CallerAt(s, id, Locked)
    case Push => CallerAt(s, id, Selecting) && |s.queue| < QUEUE_CAPACITY
    // closed is signalled, or the caller's own context ends, which may be at any moment
    case GiveUp => CallerAt(s, id, Selecting)
    case Receive => id in s.slots
  }

  predicate WorkerEnabled(s: State, a: WorkerStep) {
    match a
    case SeeClosed => s.worker == Idle && s.closed
    case Dequeue => s.worker == Idle && s.queue != []
    case CheckClosed => s.worker.Took?
    case StartRun => s.worker.Ready?
    // the run is over: its own emits are done and its tool goroutines joined
    case EndRun => s.worker.Executing? && s.sending == map[]
    case CompleteRun => s.worker.Finishing?
    case LockDrain => s.worker == Leaving && s.lock == Free
    case DrainOne => s.worker == Draining && s.queue != []
    case DrainDone => s.worker == Draining && s.queue == []
    case FinishEvents => s.worker == Ending
  }

  predicate OtherEnabled(s: State, a: OtherStep) {
    match a
    case Decide(e) => s.worker.Executing? && e !in s.sending
    case Send(e) => e in s.sending
    case SignalClosed => s.closer == NotCalled
    case LockGate => s.closer == Signalled && s.lock == Free
    case CloseGate => s.closer == Gating
    case AskEvents => true
  }

  predicate Enabled(s: State, a: Action) {
    match a
    case Caller(id, step) => CallerEnabled(s, id, step)
    case Worker(step) => WorkerEnabled(s, step)
    case Other(step) => OtherEnabled(s, step)
  }

  function KindOf(s: State, id: Id): Kind {
    if id in s.kinds then s.kinds[id] else Plain
  }

  // queuedPrompt.complete: the result channel first, then the stream, which closes only once.
  function Complete(s: State, id: Id): State {
    var kind := KindOf(s, id);
    s.(slots := if kind == Sync then s.slots + {id} else s.slots,
       wedged := s.wedged || (kind == Sync && id in s.slots),
       runsShut := if kind == Streaming then s.runsShut + {id} else s.runsShut,
       completed := s.completed + [id])
  }

  function ApplyCaller(s: State, id: Id, a: CallerStep): State
    requires CallerEnabled(s, id, a)
  {
    match a
    case Arrive(kind) => s.(callers := s.callers[id := Entering], kinds := s.kinds[id := kind])
    case LockQueue => s.(callers := s.callers[id := Locked], lock := HeldByCaller(id))
    case CheckAccepting =>
      if s.accepting then s.(callers := s.callers[id := Selecting])
      else s.(callers := s.callers[id := Refused], lock := Free)
    case Push =>
      s.(queue := s.queue + [id], admitted := s.admitted + [id], callers := s.callers[id := Admitted], lock := Free)
    case GiveUp => s.(callers := s.callers[id := Refused], lock := Free)
    case Receive => s.(slots := s.slots - {id}, received := s.received + {id})
  }

  function ApplyWorker(s: State, a: WorkerStep): State
    requires WorkerEnabled(s, a)
  {
    match a
    case SeeClosed => s.(worker := Leaving)
    case Dequeue => s.(worker := Took(s.queue[0]), queue := s.queue[1..])
    case CheckClosed =>
      if s.closed then Complete(s, s.worker.id).(worker := Leaving) else s.(worker := Ready(s.worker.id))
    case StartRun =>
      s.(worker := Executing(s.worker.id), ran := s.ran + [s.worker.id],
         activeRun := if KindOf(s, s.worker.id) == Streaming then Some(s.worker.id) else s.activeRun)
    case EndRun =>
      s.(worker := Finishing(s.worker.id), activeRun := if KindOf(s, s.worker.id) == Streaming then None else s.activeRun)
    case CompleteRun => Complete(s, s.worker.id).(worker := Idle)
    case LockDrain => s.(worker := Draining, lock := HeldByWorker, accepting := false)
    case DrainOne => Complete(s, s.queue[0]).(queue := s.queue[1..])
    case DrainDone => s.(worker := Ending, lock := Free)
    case FinishEvents =>
      s.(worker := Returned, eventsClosed := true,
         events := if !s.eventsClosed && s.events != Missing then Shut else s.events,
         panicked := s.panicked || (!s.eventsClosed && s.events == Shut))
  }

  function ApplyOther(s: State, a: OtherStep): State
    requires OtherEnabled(s, a)
  {
    match a
    case Decide(e) =>
      var target :=
        if s.activeRun.Some? then ToRun(s.activeRun.value)
        else if s.events == Missing || s.eventsClosed then Nowhere
        else ToSession;
      s.(sending := s.sending[e := target])
    case Send(e) =>
      var t := s.sending[e];
      s.(sending := s.sending - {e},
         panicked := s.panicked || (t.ToRun? && t.id in s.runsShut) || (t.ToSession? && s.events == Shut))
    case SignalClosed => s.(closed := true, closer := Signalled, passedAtClose := Passed(s))
    case LockGate => s.(closer := Gating, lock := HeldByCloser)
    case CloseGate => s.(closer := Gated, accepting := false, lock := Free)
    case AskEvents =>
      if s.events == Missing then s.(events := if s.eventsClosed then Shut else Open, asked := true) else s
  }

  function Apply(s: State, a: Action): State
    requires Enabled(s, a)
  {
    match a
    case Caller(id, step) => ApplyCaller(s, id, step)
    case Worker(step) => ApplyWorker(s, step)
    case Other(step) => ApplyOther(s, step)
  }

  // ----- the inductive invariant -----

  predicate Distinct(ids: seq<Id>) {
    forall i, j | 0 <= i < j < |ids| :: ids[i] != ids[j]
  }

  // Every admitted prompt is completed, in the worker's hand or queued, in admission order.
  ghost predicate Books(s: State) {
    && s.admitted == s.completed + InHand(s.worker) + s.queue
    && Distinct(s.admitted) && |s.queue| <= 64
    && (forall id :: id in s.admitted <==> CallerAt(s, id, CallerPc.Admitted))
    && s.kinds.Keys == s.callers.Keys
  }

  ghost predicate LockHeld(s: State) {
    && (forall id :: s.lock == HeldByCaller(id) <==> CallerAt(s, id, Locked) || CallerAt(s, id, Selecting))
    && (s.lock == HeldByWorker <==> s.worker == Draining)
    && (s.lock == HeldByCloser <==> s.closer == Gating)
  }

  predicate Shutting(w: WorkerPc) {
    w == Leaving || w == Draining || w == Ending || w == Returned
  }

  ghost predicate Gates(s: State) {
    && (s.closed <==> s.closer != NotCalled)
    && (!s.accepting ==> s.closed)
    && (Shutting(s.worker) ==> s.closed)
    && (s.worker == Draining || s.worker == Ending || s.worker == Returned ==> !s.accepting)
    && (s.worker == Ending || s.worker == Returned ==> s.queue == [])
    && (s.closer == Gated ==> !s.accepting)
    && (forall id :: CallerAt(s, id, Selecting) ==> s.accepting)
  }

  // Runs happen in admission order, and none starts for a prompt dequeued after the signal.
  ghost predicate RunOrder(s: State) {
    && s.ran <= s.admitted
    && (s.worker.Idle? || s.worker.Took? || s.worker.Ready? ==> |s.ran| == |s.completed|)
    && (s.worker.Executing? || s.worker.Finishing? ==> |s.ran| == |s.completed| + 1)
    && (Shutting(s.worker) ==> |s.ran| <= |s.completed|)
    && (s.closed ==> s.passedAtClose == |s.ran| + (if s.worker.Ready? then 1 else 0))
  }

  ghost predicate Channels(s: State) {
    && (s.sending != map[] ==> s.worker.Executing?)
    && (forall e | e in s.sending ::
          && (s.sending[e].ToRun? ==> s.activeRun == Some(s.sending[e].id))
          && (s.sending[e].ToSession? ==> s.events == Open))
    && (s.activeRun.Some? ==>
          s.worker == Executing(s.activeRun.value) && KindOf(s, s.activeRun.value) == Streaming)
    && (s.worker.Executing? && KindOf(s, s.worker.id) == Streaming ==> s.activeRun == Some(s.worker.id))
    && (s.asked <==> s.events != Missing)
    && (s.eventsClosed <==> s.worker == Returned)
    && (s.eventsClosed ==> s.events != Open)
    && (s.events == Shut ==> s.eventsClosed)
    && (forall id | id in s.runsShut || id in s.slots :: id in s.completed)
    && !s.panicked && !s.wedged
  }

  // A prompt is completed exactly when its caller has what it waits for: a result that is in its
  // slot or was taken from it, or the end of its stream.
  predicate Served(s: State, id: Id) {
    match KindOf(s, id)
    case Plain => id !in s.slots && id !in s.received && id !in s.runsShut
    case Sync => id !in s.runsShut && !(id in s.slots && id in s.received)
                 && (id in s.completed <==> id in s.slots || id in s.received)
    case Streaming => id !in s.slots && id !in s.received && (id in s.completed <==> id in s.runsShut)
  }

  ghost predicate Delivered(s: State) {
    forall id :: Served(s, id)
  }

  ghost predicate Inv(s: State) {
    Books(s) && LockHeld(s) && Gates(s) && RunOrder(s) && Channels(s) && Delivered(s)
  }

  // Only the lock, a full queue and an empty slot hold up a caller: it enters when the lock is free,
  // and then queues its prompt or gives up; 64 prompts fit, and it may always ask for the events.
  lemma CallersProceed(s: State, id: Id)
    requires Inv(s)
    ensures |s.queue| <= 64
    ensures id !in s.callers ==> forall kind :: Enabled(s, Caller(id, Arrive(kind)))
    ensures CallerAt(s, id, Entering) ==> (Enabled(s, Caller(id, LockQueue)) <==> s.lock == Free)
    ensures CallerAt(s, id, Locked) ==> Enabled(s, Caller(id, CheckAccepting))
    ensures CallerAt(s, id, Selecting) ==> Enabled(s, Caller(id, GiveUp)) && (|s.queue| < 64 <==> Enabled(s, Caller(id, Push)))
    ensures Enabled(s, Caller(id, Receive)) <==> id in s.slots
    ensures Enabled(s, Other(AskEvents))
  {
  }

  // The prompt in hand, or at the head of the queue, has not been completed before.
  lemma NotYetCompleted(s: State, id: Id)
    requires Books(s)
    requires (InHand(s.worker) != [] && id == InHand(s.worker)[0]) || (InHand(s.worker) == [] && s.queue != [] && id == s.queue[0])
    ensures id !in s.completed
  {
    assert s.admitted[|s.completed|] == id;
    forall k | 0 <= k < |s.completed|
      ensures s.completed[k] != id
    {
      assert s.admitted[k] == s.completed[k];
    }
  }

  // Each part of the invariant is kept by the steps of callers, of the worker and of the others.
  lemma CallerKeepsBooks(s: State, id: Id, a: CallerStep)
    requires Inv(s) && CallerEnabled(s, id, a)
    ensures Books(ApplyCaller(s, id, a))
  {
    var t := ApplyCaller(s, id, a);
    if a.Push? {
      assert id !in s.admitted;
    } else {
      assert forall other :: CallerAt(t, other, CallerPc.Admitted) <==> CallerAt(s, other, CallerPc.Admitted);
    }
  }

  lemma WorkerKeepsBooks(s: State, a: WorkerStep)
    requires Inv(s) && WorkerEnabled(s, a)
    ensures Books(ApplyWorker(s, a))
  {
    WorkerKeepsOrder(s, a);
    WorkerLeavesCallers(s, a);
    hide ApplyWorker, LockHeld, Gates, RunOrder, Channels;
    var t := ApplyWorker(s, a);
    assert forall other :: CallerAt(t, other, CallerPc.Admitted) <==> CallerAt(s, other, CallerPc.Admitted);
  }

  lemma WorkerLeavesCallers(s: State, a: WorkerStep)
    requires WorkerEnabled(s, a)
    ensures ApplyWorker(s, a).callers == s.callers && ApplyWorker(s, a).kinds == s.kinds
  {
    hide KindOf;
    match a
    case SeeClosed =>
    case Dequeue =>
    case CheckClosed =>
    case StartRun =>
    case EndRun =>
    case CompleteRun =>
    case LockDrain =>
    case DrainOne =>
    case DrainDone =>
    case FinishEvents =>
  }

  lemma WorkerKeepsOrder(s: State, a: WorkerStep)
    requires s.admitted == s.completed + InHand(s.worker) + s.queue && WorkerEnabled(s, a)
    ensures var t := ApplyWorker(s, a); t.admitted == s.admitted == t.completed + InHand(t.worker) + t.queue
  {
    var t := ApplyWorker(s, a);
    var c := s.completed;
    match a
    case Dequeue => HeadMoves(c, s.queue);
    case DrainOne => HeadMoves(c, s.queue);
    case CheckClosed => assert c + [s.worker.id] + [] == c + [s.worker.id];
    case CompleteRun => assert c + [s.worker.id] + [] == c + [s.worker.id];
    case _ => assert t.completed == c && t.queue == s.queue && InHand(t.worker) == InHand(s.worker);
  }

  lemma HeadMoves(c: seq<Id>, q: seq<Id>)
    requires q != []
    ensures c + [] + q == c + [q[0]] + q[1..] == c + [q[0]] + [] + q[1..]
  {
    assert q == [q[0]] + q[1..];
  }

  lemma OtherKeepsBooks(s: State, a: OtherStep)
    requires Inv(s) && OtherEnabled(s, a)
    ensures Books(ApplyOther(s, a))
  {
    var t := ApplyOther(s, a);
    assert forall other :: CallerAt(t, other, CallerPc.Admitted) <==> CallerAt(s, other, CallerPc.Admitted);
  }

  lemma CallerKeepsLock(s: State, id: Id, a: CallerStep)
    requires Inv(s) && CallerEnabled(s, id, a)
    ensures LockHeld(ApplyCaller(s, id, a))
  {
  }

  lemma WorkerKeepsLock(s: State, a: WorkerStep)
    requires Inv(s) && WorkerEnabled(s, a)
    ensures LockHeld(ApplyWorker(s, a))
  {
  }

  lemma OtherKeepsLock(s: State, a: OtherStep)
    requires Inv(s) && OtherEnabled(s, a)
    ensures LockHeld(ApplyOther(s, a))
  {
  }

  lemma CallerKeepsGates(s: State, id: Id, a: CallerStep)
    requires Inv(s) && CallerEnabled(s, id, a)
    ensures Gates(ApplyCaller(s, id, a))
  {
    var t := ApplyCaller(s, id, a);
    forall other | CallerAt(t, other, Selecting)
      ensures t.accepting
    {
      assert CallerAt(s, other, Selecting) || CallerAt(s, other, Locked);
    }
  }

  lemma WorkerKeepsGates(s: State, a: WorkerStep)
    requires Inv(s) && WorkerEnabled(s, a)
    ensures Gates(ApplyWorker(s, a))
  {
    var t := ApplyWorker(s, a);
    forall other | CallerAt(t, other, Selecting)
      ensures t.accepting
    {
      assert CallerAt(s, other, Selecting) || CallerAt(s, other, Locked);
    }
  }

  lemma OtherKeepsGates(s: State, a: OtherStep)
    requires Inv(s) && OtherEnabled(s, a)
    ensures Gates(ApplyOther(s, a))
  {
    var t := ApplyOther(s, a);
    forall other | CallerAt(t, other, Selecting)
      ensures t.accepting
    {
      assert CallerAt(s, other, Selecting) || CallerAt(s, other, Locked);
    }
  }

  lemma CallerKeepsRunOrder(s: State, id: Id, a: CallerStep)
    requires Inv(s) && CallerEnabled(s, id, a)
    ensures RunOrder(ApplyCaller(s, id, a))
  {
  }

  lemma WorkerKeepsRunOrder(s: State, a: WorkerStep)
    requires Inv(s) && WorkerEnabled(s, a)
    ensures RunOrder(ApplyWorker(s, a))
  {
  }

  lemma OtherKeepsRunOrder(s: State, a: OtherStep)
    requires Inv(s) && OtherEnabled(s, a)
    ensures RunOrder(ApplyOther(s, a))
  {
  }

  lemma CallerKeepsChannels(s: State, id: Id, a: CallerStep)
    requires Inv(s) && CallerEnabled(s, id, a)
    ensures Channels(ApplyCaller(s, id, a))
  {
    if InHand(s.worker) != [] {
      assert s.admitted[|s.completed|] == s.worker.id;
      assert CallerAt(s, s.worker.id, CallerPc.Admitted);
    }
  }

  lemma WorkerKeepsChannels(s: State, a: WorkerStep)
    requires Inv(s) && WorkerEnabled(s, a)
    ensures Channels(ApplyWorker(s, a))
  {
    var t := ApplyWorker(s, a);
    if a.DrainOne? {
      NotYetCompleted(s, s.queue[0]);
      assert t.completed == s.completed + [s.queue[0]];
    } else if InHand(s.worker) != [] {
      NotYetCompleted(s, s.worker.id);
      assert t.completed == s.completed || t.completed == s.completed + [s.worker.id];
    }
  }

  lemma OtherKeepsChannels(s: State, a: OtherStep)
    requires Inv(s) && OtherEnabled(s, a)
    ensures Channels(ApplyOther(s, a))
  {
    if InHand(s.worker) != [] {
      NotYetCompleted(s, s.worker.id);
    }
  }

  // Completing a prompt that was not completed serves it, and no other one.
  lemma CompleteServes(s: State, id: Id)
    requires Delivered(s) && id !in s.completed
    ensures Delivered(Complete(s, id))
  {
    var t := Complete(s, id);
    forall other
      ensures Served(t, other)
    {
      assert Served(s, other);
      assert other in t.completed <==> other == id || other in s.completed;
    }
  }

  lemma CallerKeepsDelivered(s: State, id: Id, a: CallerStep)
    requires Inv(s) && CallerEnabled(s, id, a)
    ensures Delivered(ApplyCaller(s, id, a))
  {
    var t := ApplyCaller(s, id, a);
    if a.Arrive? {
      assert id !in s.admitted;
      assert forall k | 0 <= k < |s.completed| :: s.completed[k] == s.admitted[k];
      assert id !in s.completed;
    }
    forall other
      ensures Served(t, other)
    {
      assert Served(s, other);
    }
  }

  lemma WorkerKeepsDelivered(s: State, a: WorkerStep)
    requires Inv(s) && WorkerEnabled(s, a)
    ensures Delivered(ApplyWorker(s, a))
  {
    var t := ApplyWorker(s, a);
    if a.DrainOne? || a.CompleteRun? || (a.CheckClosed? && s.closed) {
      var id := if a.DrainOne? then s.queue[0] else s.worker.id;
      NotYetCompleted(s, id);
      CompleteServes(s, id);
      SameService(Complete(s, id), t);
    } else {
      SameService(s, t);
    }
  }

  lemma OtherKeepsDelivered(s: State, a: OtherStep)
    requires Inv(s) && OtherEnabled(s, a)
    ensures Delivered(ApplyOther(s, a))
  {
    SameService(s, ApplyOther(s, a));
  }

  lemma SameService(s: State, t: State)
    requires Delivered(s) && t.kinds == s.kinds && t.slots == s.slots && t.received == s.received
    requires t.runsShut == s.runsShut && t.completed == s.completed
    ensures Delivered(t)
  {
    forall id
      ensures Served(t, id)
    {
      assert Served(s, id);
    }
  }

  lemma InvKept(s: State, a: Action)
    requires Inv(s) && Enabled(s, a)
    ensures Inv(Apply(s, a))
  {
    hide Books, LockHeld, Gates, RunOrder, Channels, Delivered, ApplyCaller, ApplyWorker, ApplyOther;
    match a
    case Caller(id, step) =>
      CallerKeepsBooks(s, id, step);
      CallerKeepsLock(s, id, step);
      CallerKeepsGates(s, id, step);
      CallerKeepsRunOrder(s, id, step);
      CallerKeepsChannels(s, id, step);
      CallerKeepsDelivered(s, id, step);
    case Worker(step) =>
      WorkerKeepsBooks(s, step);
      WorkerKeepsLock(s, step);
      WorkerKeepsGates(s, step);
      WorkerKeepsRunOrder(s, step);
      WorkerKeepsChannels(s, step);
      WorkerKeepsDelivered(s, step);
    case Other(step) =>
      OtherKeepsBooks(s, step);
      OtherKeepsLock(s, step);
      OtherKeepsGates(s, step);
      OtherKeepsRunOrder(s, step);
      OtherKeepsChannels(s, step);
      OtherKeepsDelivered(s, step);
  }

  // ----- every interleaving -----

  ghost predicate Next(s: State, t: State) {
    exists a :: Enabled(s, a) && t == Apply(s, a)
  }

  ghost predicate Behaviour(run: seq<State>) {
    && run != [] && run[0] == INITIAL
    && forall i | 0 <= i < |run| - 1 :: Next(run[i], run[i + 1])
  }

  lemma {:induction false} AlwaysInv(run: seq<State>, i: nat)
    requires Behaviour(run) && i < |run|
    ensures Inv(run[i])
  {
    if i != 0 {
      AlwaysInv(run, i - 1);
      assert Next(run[i - 1], run[i]);
      var a :| Enabled(run[i - 1], a) && run[i] == Apply(run[i - 1], a);
      InvKept(run[i - 1], a);
    }
  }

  // What later states keep of earlier ones: admissions, completions and runs only grow; the signal
  // stays, and with it the number of prompts that were past the second check.
  ghost predicate Extends(s: State, t: State) {
    && s.admitted <= t.admitted && s.completed <= t.completed && s.ran <= t.ran
    && (s.closed ==> t.closed && t.passedAtClose == s.passedAtClose)
    && (s.worker == Returned ==> t.worker == Returned && t.admitted == s.admitted && t.completed == s.completed)
  }

  lemma CallerExtends(s: State, id: Id, a: CallerStep)
    requires Inv(s) && CallerEnabled(s, id, a)
    ensures Extends(s, ApplyCaller(s, id, a))
  {
  }

  lemma WorkerExtends(s: State, a: WorkerStep)
    requires Inv(s) && WorkerEnabled(s, a)
    ensures Extends(s, ApplyWorker(s, a))
  {
  }

  lemma OtherExtends(s: State, a: OtherStep)
    requires Inv(s) && OtherEnabled(s, a)
    ensures Extends(s, ApplyOther(s, a))
  {
  }

  lemma StepExtends(s: State, a: Action)
    requires Inv(s) && Enabled(s, a)
    ensures Extends(s, Apply(s, a))
  {
    hide Inv, Extends;
    match a
    case Caller(id, step) => CallerExtends(s, id, step);
    case Worker(step) => WorkerExtends(s, step);
    case Other(step) => OtherExtends(s, step);
  }

  lemma {:induction false} AlwaysExtends(run: seq<State>, i: nat, j: nat)
    requires Behaviour(run) && i <= j < |run|
    ensures Extends(run[i], run[j])
  {
    if i < j {
      AlwaysExtends(run, i, j - 1);
      AlwaysInv(run, j - 1);
      assert Next(run[j - 1], run[j]);
      var a :| Enabled(run[j - 1], a) && run[j] == Apply(run[j - 1], a);
      StepExtends(run[j - 1], a);
    }
  }

  // No interleaving sends on a closed channel, closes one twice, or blocks the worker on a
  // one-slot result channel.
  lemma ChannelsSafe(run: seq<State>, i: nat)
    requires Behaviour(run) && i < |run|
    ensures !run[i].panicked && !run[i].wedged
  {
    AlwaysInv(run, i);
  }

  // Prompt by prompt: the step that completes it finds its slot empty and its stream open, an emit
  // finds the channel it chose open, and the session's channel is closed while it is open or missing.
  lemma ChannelsOpenWhenUsed(run: seq<State>, i: nat, a: Action)
    requires Behaviour(run) && i < |run| && Enabled(run[i], a)
    ensures forall id | id in Apply(run[i], a).completed && id !in run[i].completed ::
              id !in run[i].slots && id !in run[i].received && id !in run[i].runsShut
    ensures a.Other? && a.other.Send? ==>
      var target := run[i].sending[a.other.emitter];
      && (target.ToRun? ==> target.id !in run[i].runsShut)
      && (target.ToSession? ==> run[i].events == Open)
    ensures a == Worker(FinishEvents) ==> run[i].events != Shut
  {
    AlwaysInv(run, i);
    var s := run[i];
    if InHand(s.worker) != [] {
      NotYetCompleted(s, s.worker.id);
    }
    hide Books, LockHeld, Gates, RunOrder, Apply;
    forall id | id in Apply(s, a).completed && id !in s.completed
      ensures id !in s.slots && id !in s.received && id !in s.runsShut
    {
      assert Served(s, id);
    }
  }

  // While a prompt runs, its events go to its own stream if it has one, and otherwise to the
  // session's channel once anybody has asked for it.
  lemma EmitsRouted(run: seq<State>, i: nat, e: nat)
    requires Behaviour(run) && i < |run| && OtherEnabled(run[i], Decide(e))
    ensures run[i].worker.Executing?
    ensures ApplyOther(run[i], Decide(e)).sending[e] ==
      if KindOf(run[i], run[i].worker.id) == Streaming then ToRun(run[i].worker.id)
      else if run[i].asked then ToSession
      else Nowhere
  {
    AlwaysInv(run, i);
  }

  // In every reachable state a synchronous prompt is completed exactly when its result is in its
  // slot or has been received, never both, and a streaming one exactly when its stream is closed.
  lemma CompletedMeansServed(run: seq<State>, i: nat, id: Id)
    requires Behaviour(run) && i < |run|
    ensures var s := run[i];
            match KindOf(s, id)
            case Plain => id !in s.slots && id !in s.received && id !in s.runsShut
            case Sync => (id in s.completed <==> id in s.slots || id in s.received) && !(id in s.slots && id in s.received)
            case Streaming => id in s.completed <==> id in s.runsShut
    ensures id in run[i].slots ==> CallerEnabled(run[i], id, Receive)
  {
    AlwaysInv(run, i);
    assert Served(run[i], id);
  }

  // Prompts are completed at most once each, in admission order, and only if enqueue returned nil.
  lemma CompletedOnceInOrder(run: seq<State>, i: nat)
    requires Behaviour(run) && i < |run|
    ensures run[i].completed <= run[i].admitted && Distinct(run[i].completed)
    ensures forall id :: id in run[i].admitted <==> CallerAt(run[i], id, CallerPc.Admitted)
  {
    AlwaysInv(run, i);
  }

  // Runs happen one at a time in admission order: the runs so far are the first admitted prompts,
  // and all but the one executing are completed.
  lemma RunsInAdmissionOrder(run: seq<State>, i: nat)
    requires Behaviour(run) && i < |run|
    ensures run[i].ran <= run[i].admitted && |run[i].ran| <= |run[i].completed| + 1
    ensures |run[i].ran| == |run[i].completed| + 1 ==>
      (run[i].worker.Executing? || run[i].worker.Finishing?) && run[i].worker.id == run[i].ran[|run[i].completed|]
  {
    AlwaysInv(run, i);
    var s := run[i];
    if |s.ran| == |s.completed| + 1 {
      assert s.ran[|s.completed|] == s.admitted[|s.completed|];
    }
  }

  // Once the worker has returned, exactly the prompts whose enqueue returned nil have been
  // completed, none is admitted any more, and no emitter is left. Every accepted synchronous prompt
  // has its result, every accepted stream is closed, and so is the session's channel.
  lemma ShutdownCompletesAll(run: seq<State>, i: nat, j: nat)
    requires Behaviour(run) && i <= j < |run| && run[i].worker == Returned
    ensures run[j].worker == Returned && run[j].admitted == run[i].admitted == run[j].completed
    ensures forall id :: id in run[j].completed <==> CallerAt(run[j], id, CallerPc.Admitted)
    ensures run[j].sending == map[] && run[j].events == if run[j].asked then Shut else Missing
    ensures forall id | CallerAt(run[j], id, CallerPc.Admitted) ::
              && (KindOf(run[j], id) == Sync ==> id in run[j].slots || id in run[j].received)
              && (KindOf(run[j], id) == Streaming ==> id in run[j].runsShut)
  {
    AlwaysExtends(run, i, j);
    AlwaysInv(run, j);
    forall id | CallerAt(run[j], id, CallerPc.Admitted)
      ensures (KindOf(run[j], id) == Sync ==> id in run[j].slots || id in run[j].received)
              && (KindOf(run[j], id) == Streaming ==> id in run[j].runsShut)
    {
      assert Served(run[j], id);
    }
  }

  // Let closed be signalled between i and i + 1. No prompt that had not passed the second check by
  // then ever runs, so none dequeued or enqueued later does; once the worker has returned, exactly
  // the ones that had passed it have run.
  lemma NothingRunsAfterClose(run: seq<State>, i: nat, j: nat)
    requires Behaviour(run) && i < j < |run| && !run[i].closed && run[i + 1].closed
    ensures run[i].admitted <= run[j].admitted && Passed(run[i]) <= |run[i].admitted|
    ensures forall k | Passed(run[i]) <= k < |run[j].admitted| :: run[j].admitted[k] !in run[j].ran
    ensures run[j].worker == Returned ==> run[j].ran == run[j].admitted[..Passed(run[i])]
  {
    AlwaysInv(run, i);
    AlwaysInv(run, j);
    AlwaysExtends(run, i, j);
    AlwaysExtends(run, i + 1, j);
    assert Next(run[i], run[i + 1]);
    var a :| Enabled(run[i], a) && run[i + 1] == Apply(run[i], a);
    SignalCounts(run[i], a);
    hide Inv, Behaviour, Extends, Next;
    forall k | Passed(run[i]) <= k < |run[j].admitted|
      ensures run[j].admitted[k] !in run[j].ran
    {
      BeyondPrefix(run[j].admitted, run[j].ran, k);
    }
  }

  lemma SignalCounts(s: State, a: Action)
    requires Inv(s) && Enabled(s, a) && !s.closed && Apply(s, a).closed
    ensures Apply(s, a).passedAtClose == Passed(s)
  {
    match a
    case Caller(id, step) => CallerNeverSignals(s, id, step);
    case Worker(step) => WorkerNeverSignals(s, step);
    case Other(step) =>
  }

  lemma CallerNeverSignals(s: State, id: Id, a: CallerStep)
    requires Inv(s) && CallerEnabled(s, id, a)
    ensures ApplyCaller(s, id, a).closed == s.closed
  {
  }

  lemma WorkerNeverSignals(s: State, a: WorkerStep)
    requires Inv(s) && WorkerEnabled(s, a)
    ensures ApplyWorker(s, a).closed == s.closed
  {
  }

  lemma BeyondPrefix(all: seq<Id>, prefix: seq<Id>, k: nat)
    requires Distinct(all) && prefix <= all && |prefix| <= k < |all|
    ensures all[k] !in prefix
  {
    assert forall m | 0 <= m < |prefix| :: prefix[m] == all[m];
  }

  // ----- shutdown does not deadlock -----

  // The steps of the worker and its emitters, and those by which a holder gives the lock back.
  predicate Helps(a: Action) {
    match a
    case Caller(_, step) => step.CheckAccepting? || step.GiveUp?
    case Worker(_) => true
    case Other(step) => step.Send? || step.CloseGate?
  }

  function WorkerRank(w: WorkerPc): nat {
    match w
    case Ready(_) => 8
    case Executing(_) => 7
    case Finishing(_) => 6
    case Idle => 5
    case Took(_) => 4
    case Leaving => 3
    case Draining => 2
    case Ending => 1
    case Returned => 0
  }

  function HolderRank(s: State): nat {
    match s.lock
    case HeldByCaller(id) => if CallerAt(s, id, Locked) then 2 else 1
    case HeldByCloser => 1
    case _ => 0
  }

  function CloserRank(c: CloserPc): nat {
    if c == Signalled then 1 else 0
  }

  function AboutToLock(s: State): set<Id> {
    set id | id in s.callers && s.callers[id] == Entering
  }

  // What is left to do until the worker returns, with what the callers on their way may still cost.
  function Potential(s: State): nat {
    WorkerRank(s.worker) + HolderRank(s) + CloserRank(s.closer) + |s.queue| + |s.sending| + 2 * |AboutToLock(s)|
  }

  // A caller that arrives costs at most two steps, an emit one; nothing else adds anything.
  function Adds(a: Action): nat {
    if a.Caller? && a.caller.Arrive? then 2 else if a.Other? && a.other.Decide? then 1 else 0
  }

  function Work(a: Action): nat {
    if Helps(a) then 1 else 0
  }

  // After the signal, until the worker has returned, one of these steps can be taken, and so
  // nothing waits in a circle.
  lemma ShutdownAdvances(s: State) returns (a: Action)
    requires Inv(s) && s.closed && s.worker != Returned
    ensures Helps(a) && Enabled(s, a)
  {
    match s.worker
    case Idle => a := Worker(SeeClosed);
    case Took(_) => a := Worker(CheckClosed);
    case Ready(_) => a := Worker(StartRun);
    case Executing(_) =>
      if s.sending == map[] {
        a := Worker(EndRun);
      } else {
        var e :| e in s.sending;
        a := Other(Send(e));
      }
    case Finishing(_) => a := Worker(CompleteRun);
    case Leaving =>
      match s.lock {
        case Free => a := Worker(LockDrain);
        case HeldByCaller(id) => a := Caller(id, if CallerAt(s, id, Locked) then CheckAccepting else GiveUp);
        case _ => a := Other(CloseGate);
      }
    case Draining => a := Worker(if s.queue == [] then DrainDone else DrainOne);
    case Ending => a := Worker(FinishEvents);
  }

  // After the signal no step raises the potential by more than it adds, and a helping one lowers it.
  lemma HelpingLowersPotential(s: State, a: Action)
    requires Inv(s) && s.closed && Enabled(s, a)
    ensures Apply(s, a).closed && Potential(Apply(s, a)) + Work(a) <= Potential(s) + Adds(a)
  {
    match a
    case Caller(id, step) => CallerPotential(s, id, step);
    case Worker(step) => WorkerPotential(s, step);
    case Other(step) => OtherPotential(s, step);
  }

  lemma CallerPotential(s: State, id: Id, a: CallerStep)
    requires LockHeld(s) && s.closed && CallerEnabled(s, id, a)
    ensures var t := ApplyCaller(s, id, a);
            t.closed && Potential(t) + Work(Caller(id, a)) <= Potential(s) + Adds(Caller(id, a))
  {
    var t := ApplyCaller(s, id, a);
    CallerEntering(s, id, a);
    CallerHolding(s, id, a);
    hide LockHeld, AboutToLock, HolderRank;
  }

  lemma CallerEntering(s: State, id: Id, a: CallerStep)
    requires CallerEnabled(s, id, a)
    ensures |AboutToLock(ApplyCaller(s, id, a))| == |AboutToLock(s)| + if a.Arrive? then 1 else if a.LockQueue? then -1 else 0
  {
    var before, after := AboutToLock(s), AboutToLock(ApplyCaller(s, id, a));
    CallerMoves(s, id, a);
    assert id in before <==> CallerAt(s, id, Entering);
    hide ApplyCaller, AboutToLock;
    if a.Arrive? {
      assert after == before + {id};
    } else if a.LockQueue? {
      assert before == after + {id};
    } else {
      assert after == before;
    }
  }

  lemma CallerMoves(s: State, id: Id, a: CallerStep)
    requires CallerEnabled(s, id, a)
    ensures forall other | other != id :: other in AboutToLock(ApplyCaller(s, id, a)) <==> other in AboutToLock(s)
    ensures id in AboutToLock(ApplyCaller(s, id, a)) <==> a.Arrive? || (id in AboutToLock(s) && !a.LockQueue?)
  {
  }

  lemma CallerHolding(s: State, id: Id, a: CallerStep)
    requires LockHeld(s) && CallerEnabled(s, id, a)
    ensures
      var before, after := HolderRank(s), HolderRank(ApplyCaller(s, id, a));
      match a
      case LockQueue => before == 0 && after == 2
      case CheckAccepting => before == 2 && after < 2
      case Push => before == 1 && after == 0
      case GiveUp => before == 1 && after == 0
      case _ => after == before
  {
    assert a.CheckAccepting? || a.Push? || a.GiveUp? ==> s.lock == HeldByCaller(id);
    if a.Arrive? {
      assert s.lock != HeldByCaller(id);
    }
  }

  lemma WorkerPotential(s: State, a: WorkerStep)
    requires Inv(s) && s.closed && WorkerEnabled(s, a)
    ensures ApplyWorker(s, a).closed && Potential(ApplyWorker(s, a)) < Potential(s)
  {
    WorkerLeavesCallers(s, a);
    assert AboutToLock(ApplyWorker(s, a)) == AboutToLock(s);
    hide AboutToLock, Books, Channels, RunOrder, KindOf;
  }

  lemma OtherPotential(s: State, a: OtherStep)
    requires LockHeld(s) && Gates(s) && s.closed && OtherEnabled(s, a)
    ensures var t := ApplyOther(s, a);
            t.closed && Potential(t) + Work(Other(a)) <= Potential(s) + Adds(Other(a))
  {
    var t := ApplyOther(s, a);
    hide LockHeld, Gates, ApplyOther, OtherEnabled, HolderRank, CloserRank, WorkerRank, AboutToLock;
    OtherLeaves(s, a);
    OtherSending(s, a);
    OtherHolding(s, a);
  }

  lemma OtherLeaves(s: State, a: OtherStep)
    requires s.closed && OtherEnabled(s, a)
    ensures var t := ApplyOther(s, a);
            t.worker == s.worker && t.queue == s.queue && AboutToLock(t) == AboutToLock(s) && t.closed
  {
  }

  lemma OtherSending(s: State, a: OtherStep)
    requires OtherEnabled(s, a)
    ensures |ApplyOther(s, a).sending| == |s.sending| + if a.Decide? then 1 else if a.Send? then -1 else 0
  {
    if a.Send? {
      Fewer(s.sending, a.emitter);
    } else if a.Decide? {
      More(s.sending, ApplyOther(s, a).sending, a.emitter);
    } else {
      assert ApplyOther(s, a).sending == s.sending;
    }
  }

  lemma Fewer<K, V>(m: map<K, V>, k: K)
    requires k in m
    ensures |m - {k}| == |m| - 1
  {
    assert m.Keys == (m - {k}).Keys + {k};
  }

  lemma More<K, V>(m: map<K, V>, n: map<K, V>, k: K)
    requires k !in m && k in n && n == m[k := n[k]]
    ensures |n| == |m| + 1
  {
    assert n.Keys == m.Keys + {k};
  }

  lemma OtherHolding(s: State, a: OtherStep)
    requires LockHeld(s) && Gates(s) && s.closed && OtherEnabled(s, a)
    ensures var t := ApplyOther(s, a);
            HolderRank(t) + CloserRank(t.closer) == HolderRank(s) + CloserRank(s.closer) - if a.CloseGate? then 1 else 0
  {
    assert a.CloseGate? ==> s.lock == HeldByCloser;
  }

  // ----- unending runs -----

  ghost predicate Unending(states: nat -> State, actions: nat -> Action) {
    && states(0) == INITIAL
    && forall k: nat :: Enabled(states(k), actions(k)) && states(k + 1) == Apply(states(k), actions(k))
  }

  lemma StepTaken(states: nat -> State, actions: nat -> Action, k: nat)
    requires Unending(states, actions)
    ensures Enabled(states(k), actions(k)) && states(k + 1) == Apply(states(k), actions(k))
  {
    hide Enabled, Apply;
  }

  lemma {:induction false} UnendingInv(states: nat -> State, actions: nat -> Action, k: nat)
    requires Unending(states, actions)
    ensures Inv(states(k))
  {
    if k != 0 {
      hide *;
      UnendingInv(states, actions, k - 1);
      StepTaken(states, actions, k - 1);
      InvKept(states(k - 1), actions(k - 1));
    }
  }

  function Total(f: Action -> nat, actions: nat -> Action, i: nat, j: nat): nat
    requires i <= j
    decreases j
  {
    if i == j then 0 else Total(f, actions, i, j - 1) + f(actions(j - 1))
  }

  // In any stretch after the signal, the helping steps are bounded by what was left to do at its
  // start and what arrived and was emitted in it.
  lemma {:induction false} HelpingBounded(states: nat -> State, actions: nat -> Action, i: nat, j: nat)
    requires Unending(states, actions) && i <= j && states(i).closed
    ensures states(j).closed
    ensures Total(Work, actions, i, j) + Potential(states(j)) <= Potential(states(i)) + Total(Adds, actions, i, j)
    decreases j
  {
    hide Unending, Inv, Apply, Enabled, Potential, Work, Adds;
    if i < j {
      HelpingBounded(states, actions, i, j - 1);
      UnendingInv(states, actions, j - 1);
      StepTaken(states, actions, j - 1);
      HelpingLowersPotential(states(j - 1), actions(j - 1));
    }
  }

  ghost predicate CanHelp(s: State) {
    exists a :: Helps(a) && Enabled(s, a)
  }

  // Where a helping step can be taken, one comes some time.
  ghost predicate Fair(states: nat -> State, actions: nat -> Action) {
    forall k: nat | CanHelp(states(k)) :: exists m: nat :: k <= m && Helps(actions(m))
  }

  // Shutdown ends: if callers stop arriving and runs stop emitting at some point, and helping steps
  // are not put off for ever, then the worker returns after closed has been signalled.
  lemma {:induction false} ShutdownEnds(states: nat -> State, actions: nat -> Action, i: nat) returns (j: nat)
    requires Unending(states, actions) && Fair(states, actions) && states(i).closed
    requires forall k: nat | i <= k :: Adds(actions(k)) == 0
    ensures i <= j && states(j).worker == Returned
    decreases Potential(states(i))
  {
    hide Unending, Inv, Potential, Enabled, Adds, Fair;
    if states(i).worker == Returned {
      j := i;
    } else {
      var m := HelpComes(states, actions, i);
      NothingAdded(actions, i, m + 1);
      HelpingBounded(states, actions, i, m + 1);
      HelpCounts(actions, i, m);
      hide Total;
      j := ShutdownEnds(states, actions, m + 1);
    }
  }

  lemma HelpComes(states: nat -> State, actions: nat -> Action, i: nat) returns (m: nat)
    requires Unending(states, actions) && Fair(states, actions) && states(i).closed && states(i).worker != Returned
    ensures i <= m && Helps(actions(m))
  {
    hide Unending, Inv, Helps, Enabled;
    UnendingInv(states, actions, i);
    var a := ShutdownAdvances(states(i));
    assert CanHelp(states(i));
    m :| i <= m && Helps(actions(m));
  }

  lemma HelpCounts(actions: nat -> Action, i: nat, m: nat)
    requires i <= m && Helps(actions(m))
    ensures Total(Work, actions, i, m + 1) >= 1
  {
    assert Work(actions(m)) == 1;
  }

  lemma {:induction false} NothingAdded(actions: nat -> Action, i: nat, j: nat)
    requires i <= j && forall k: nat | i <= k :: Adds(actions(k)) == 0
    ensures Total(Adds, actions, i, j) == 0
    decreases j
  {
    if i < j {
      NothingAdded(actions, i, j - 1);
    }
  }

  // ----- the bound on late runs is reached -----

  lemma Taking(run: seq<State>, a: Action) returns (longer: seq<State>)
    requires Behaviour(run) && Enabled(run[|run| - 1], a)
    ensures Behaviour(longer) && longer == run + [Apply(run[|run| - 1], a)]
  {
    longer := run + [Apply(run[|run| - 1], a)];
    hide Apply, Enabled;
    forall i | 0 <= i < |longer| - 1
      ensures Next(longer[i], longer[i + 1])
    {
      assert i < |run| - 1 ==> Next(run[i], run[i + 1]);
    }
  }

  // A prompt past the second check runs although closed is signalled first.
  lemma RunStartsAfterClose() returns (run: seq<State>, i: nat, j: nat)
    ensures Behaviour(run) && i < j < |run| && run[i].closed && run[i].ran == [] && run[j].ran == [0]
  {
    run := [INITIAL];
    run := Taking(run, Caller(0, Arrive(Plain)));
    run := Taking(run, Caller(0, LockQueue));
    run := Taking(run, Caller(0, CheckAccepting));
    run := Taking(run, Caller(0, Push));
    run := Taking(run, Worker(Dequeue));
    run := Taking(run, Worker(CheckClosed));
    run := Taking(run, Other(SignalClosed));
    run := Taking(run, Worker(StartRun));
    i, j := 7, 8;
  }
}
