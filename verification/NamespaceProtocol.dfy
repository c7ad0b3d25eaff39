/** Every interleaving of the users of one MCP namespace: tool operations that connect and list,
    close, lost sessions and list-changed notifications. */
module NamespaceProtocol {
  import opened Messages
  import opened Namespace

  type Tid = nat

  // An operation connects under connectMu and then lists under listMu; close takes connectMu.
  // since is the number of changes when a listing began.
  datatype Pc =
    | Connecting
    | Checking
    | Dialing
    | Installing(session: SessionId)
    | Linked(session: SessionId)
    | Looking(session: SessionId)
    | Reading(session: SessionId, generation: nat, since: nat)
    | Committing(session: SessionId, generation: nat, since: nat, tools: Tools)
    | Losing(session: SessionId)
    | CloseWaiting
    | CloseTaking
    | CloseShutting(held: Option<SessionId>)
    | Done

  // What became of a session that was obtained.
  datatype Fate = InHand | Current | Invalidated | Held | Closed

  datatype State = State(
    fields: Fields,
    connectHolder: Option<Tid>,
    listHolder: Option<Tid>,
    threads: map<Tid, Pc>,
    fates: map<SessionId, Fate>,
    // Notifications and effective invalidations so far, and when the listing in the cache began.
    changes: nat,
    cachedAt: nat,
    // The thread of the first close; whether it has emptied the namespace, and has finished.
    closer: Option<Tid>,
    emptied: bool,
    finished: bool
  )

  const INITIAL := State(FRESH, None, None, map[], map[], 0, 0, None, false, false)

  datatype ReadResult = ReadAll(tools: Tools) | ReadRejected | ConnectionLost

  datatype ConnectStep = Begin | LockConnect | Check | Dial(obtained: Option<SessionId>) | InstallSession

  datatype ListStep = LockList | Leave | LookUpCache | Read(result: ReadResult) | CommitListing | LoseSession

  datatype CloseStep = BeginClose | LockForClose | Take | ShutSession

  // The watcher of an installed session, or a failed remote call, invalidates it at any time.
  datatype OutsideStep = Lost(session: SessionId) | Notify

  datatype Action =
    | Connect(t: Tid, connect: ConnectStep)
    | List(t: Tid, list: ListStep)
    | Close(t: Tid, close: CloseStep)
    | Outside(outside: OutsideStep)

  predicate At(s: State, t: Tid, pc: Pc) {
    t in s.threads && s.threads[t] == pc
  }

  predicate HoldsConnect(pc: Pc) {
    pc.Checking? || pc.Dialing? || pc.Installing? || pc.CloseTaking? || pc.CloseShutting?
  }

  predicate HoldsList(pc: Pc) {
    pc.Looking? || pc.Reading? || pc.Committing? || pc.Losing?
  }

  predicate ConnectEnabled(s: State, t: Tid, a: ConnectStep) {
    if a.Begin? then t !in s.threads
    else
      && t in s.threads
      && var pc := s.threads[t];
         match a
         case Begin => false
         case LockConnect => pc.Connecting? && s.connectHolder.None?
         case Check => pc.Checking?
         case Dial(obtained) => pc.Dialing? && (obtained.Some? ==> obtained.value !in s.fates)
         case InstallSession => pc.Installing?
  }

  predicate ListEnabled(s: State, t: Tid, a: ListStep) {
    && t in s.threads
    && var pc := s.threads[t];
       match a
       case LockList => pc.Linked? && s.listHolder.None?
       case Leave => pc.Linked?
       case LookUpCache => pc.Looking?
       case Read(_) => pc.Reading?
       case CommitListing => pc.Committing?
       case LoseSession => pc.Losing?
  }

  predicate CloseEnabled(s: State, t: Tid, a: CloseStep) {
    if a.BeginClose? then t !in s.threads
    else
      && t in s.threads
      && var pc := s.threads[t];
         match a
         case BeginClose => false
         case LockForClose => pc.CloseWaiting? && s.connectHolder.None?
         case Take => pc.CloseTaking?
         case ShutSession => pc.CloseShutting?
  }

  predicate OutsideEnabled(s: State, a: OutsideStep) {
    match a
    case Lost(session) => session in s.fates && s.fates[session] != InHand
    case Notify => true
  }

  predicate Enabled(s: State, a: Action) {
    match a
    case Connect(t, step) => ConnectEnabled(s, t, step)
    case List(t, step) => ListEnabled(s, t, step)
    case Close(t, step) => CloseEnabled(s, t, step)
    case Outside(step) => OutsideEnabled(s, step)
  }

  // invalidateSession: effective only on the current session.
  function Drop(s: State, session: SessionId): State {
    if s.fields.session != Some(session) then s.(fields := Invalidate(s.fields, session))
    else s.(fields := Invalidate(s.fields, session), fates := s.fates[session := Invalidated], changes := s.changes + 1)
  }

  function ApplyConnect(s: State, t: Tid, a: ConnectStep): State
    requires ConnectEnabled(s, t, a)
  {
    match a
    case Begin => s.(threads := s.threads[t := Connecting])
    case LockConnect => s.(threads := s.threads[t := Checking], connectHolder := Some(t))
    case Check =>
      (match Find(s.fields)
       case Refused => s.(threads := s.threads[t := Done], connectHolder := None)
       case Connected(open) => s.(threads := s.threads[t := Linked(open)], connectHolder := None)
       case NotConnected => s.(threads := s.threads[t := Dialing]))
    case Dial(obtained) =>
      if obtained.None? then s.(threads := s.threads[t := Done], connectHolder := None)
      else s.(threads := s.threads[t := Installing(obtained.value)], fates := s.fates[obtained.value := InHand])
    case InstallSession =>
      var session := s.threads[t].session;
      if s.fields.closed then
        s.(threads := s.threads[t := Done], connectHolder := None, fates := s.fates[session := Closed])
      else
        s.(fields := Install(s.fields, session), threads := s.threads[t := Linked(session)], connectHolder := None,
           fates := s.fates[session := Current])
  }

  function ApplyList(s: State, t: Tid, a: ListStep): State
    requires ListEnabled(s, t, a)
  {
    match a
    case LockList => s.(threads := s.threads[t := Looking(s.threads[t].session)], listHolder := Some(t))
    case Leave => s.(threads := s.threads[t := Done])
    case LookUpCache =>
      (match LookUp(s.fields)
       case Miss(generation) => s.(threads := s.threads[t := Reading(s.threads[t].session, generation, s.changes)])
       case _ => s.(threads := s.threads[t := Done], listHolder := None))
    case Read(result) =>
      var pc := s.threads[t];
      (match result
       case ReadAll(tools) => s.(threads := s.threads[t := Committing(pc.session, pc.generation, pc.since, tools)])
       case ReadRejected => s.(threads := s.threads[t := Done], listHolder := None)
       case ConnectionLost => s.(threads := s.threads[t := Losing(pc.session)]))
    case CommitListing =>
      var pc := s.threads[t];
      s.(fields := Commit(s.fields, pc.generation, pc.tools),
         cachedAt := if !s.fields.closed && s.fields.toolGeneration == pc.generation then pc.since else s.cachedAt,
         threads := s.threads[t := Done], listHolder := None)
    case LoseSession =>
      Drop(s, s.threads[t].session).(threads := s.threads[t := Done], listHolder := None)
  }

  function ApplyClose(s: State, t: Tid, a: CloseStep): State
    requires CloseEnabled(s, t, a)
  {
    match a
    case BeginClose =>
      if s.fields.closed then s.(threads := s.threads[t := Done])
      else s.(fields := s.fields.(closed := true), closer := Some(t), threads := s.threads[t := CloseWaiting])
    case LockForClose => s.(threads := s.threads[t := CloseTaking], connectHolder := Some(t))
    case Take =>
      s.(fields := TakeForClose(s.fields), threads := s.threads[t := CloseShutting(s.fields.session)], emptied := true,
         fates := if s.fields.session.Some? then s.fates[s.fields.session.value := Held] else s.fates)
    case ShutSession =>
      var held := s.threads[t].held;
      s.(threads := s.threads[t := Done], connectHolder := None, finished := true,
         fates := if held.Some? then s.fates[held.value := Closed] else s.fates)
  }

  function ApplyOutside(s: State, a: OutsideStep): State
    requires OutsideEnabled(s, a)
  {
    match a
    case Lost(session) => Drop(s, session)
    case Notify => s.(fields := ListChanged(s.fields), changes := s.changes + 1)
  }

  function Apply(s: State, a: Action): State
    requires Enabled(s, a)
  {
    match a
    case Connect(t, step) => ApplyConnect(s, t, step)
    case List(t, step) => ApplyList(s, t, step)
    case Close(t, step) => ApplyClose(s, t, step)
    case Outside(step) => ApplyOutside(s, step)
  }

  // ----- the inductive invariant -----

  // A session a thread has been handed by connect.
  predicate Obtained(s: State, n: SessionId) {
    n in s.fates && s.fates[n] != InHand
  }

  predicate Began(s: State, generation: nat, since: nat) {
    since <= s.changes && generation == GenerationAfter(since)
  }

  // What a thread may rely on about the sessions and generations it remembers.
  predicate Known(s: State, pc: Pc) {
    match pc
    case Dialing => s.fields.session == None && !s.emptied
    case Installing(n) => s.fields.session == None && !s.emptied && n in s.fates && s.fates[n] == InHand
    case Linked(n) => Obtained(s, n)
    case Looking(n) => Obtained(s, n)
    case Reading(n, generation, since) => Obtained(s, n) && Began(s, generation, since)
    case Committing(n, generation, since, _) => Obtained(s, n) && Began(s, generation, since)
    case Losing(n) => Obtained(s, n)
    case CloseShutting(held) => held.Some? ==> held.value in s.fates && s.fates[held.value] == Held
    case _ => true
  }

  predicate Closes(pc: Pc) {
    pc.CloseWaiting? || pc.CloseTaking? || pc.CloseShutting?
  }

  // Each mutex belongs to the thread inside its section, and only the first close goes on.
  predicate Fits(s: State, t: Tid, pc: Pc) {
    && (s.connectHolder == Some(t) <==> HoldsConnect(pc))
    && (s.listHolder == Some(t) <==> HoldsList(pc))
    && (Closes(pc) ==> s.closer == Some(t))
    && Known(s, pc)
  }

  ghost predicate Sessions(s: State) {
    && (forall n :: n in s.fates && s.fates[n] == Current <==> s.fields.session == Some(n))
    && (forall n | n in s.fates && s.fates[n] == InHand ::
          s.connectHolder.Some? && At(s, s.connectHolder.value, Installing(n)))
    && (forall n | n in s.fates && s.fates[n] == Held ::
          s.connectHolder.Some? && At(s, s.connectHolder.value, CloseShutting(Some(n))))
  }

  predicate Closing(s: State) {
    && (s.connectHolder.Some? ==> s.connectHolder.value in s.threads)
    && (s.listHolder.Some? ==> s.listHolder.value in s.threads)
    && (s.fields.closed <==> s.closer.Some?)
    && (s.closer.Some? ==> s.closer.value in s.threads
                           && (Closes(s.threads[s.closer.value]) || s.threads[s.closer.value].Done?)
                           && (s.emptied <==> s.threads[s.closer.value].CloseShutting? || s.threads[s.closer.value].Done?)
                           && (s.finished <==> s.threads[s.closer.value].Done?))
    && (s.closer.None? ==> !s.emptied && !s.finished)
    && (s.emptied ==> s.fields.session == None && s.fields.tools == None)
  }

  predicate Cache(s: State) {
    && s.fields.toolGeneration == GenerationAfter(s.changes)
    && (s.fields.tools.Some? ==> Began(s, s.fields.cacheGeneration, s.cachedAt))
  }

  ghost predicate Inv(s: State) {
    Sessions(s) && Closing(s) && Cache(s) && forall t | t in s.threads :: Fits(s, t, s.threads[t])
  }

  // ----- steps of a tool operation that connects -----

  lemma ConnectKeepsSessions(s: State, t: Tid, a: ConnectStep)
    requires Sessions(s) && Closing(s) && ConnectEnabled(s, t, a) && (t in s.threads ==> Fits(s, t, s.threads[t]))
    ensures Sessions(ApplyConnect(s, t, a))
  {
  }

  lemma ConnectKeepsClosing(s: State, t: Tid, a: ConnectStep)
    requires Closing(s) && Cache(s) && ConnectEnabled(s, t, a) && (t in s.threads ==> Fits(s, t, s.threads[t]))
    ensures Closing(ApplyConnect(s, t, a)) && Cache(ApplyConnect(s, t, a))
  {
  }

  lemma ConnectFits(s: State, t: Tid, a: ConnectStep, u: Tid)
    requires Inv(s) && ConnectEnabled(s, t, a) && u in ApplyConnect(s, t, a).threads
    ensures Fits(ApplyConnect(s, t, a), u, ApplyConnect(s, t, a).threads[u])
  {
    if u == t {
      ConnectFitsOwn(s, t, a);
    } else {
      ConnectFitsOther(s, t, a, u);
    }
  }

  lemma ConnectFitsOwn(s: State, t: Tid, a: ConnectStep)
    requires Sessions(s) && Closing(s) && ConnectEnabled(s, t, a) && (t in s.threads ==> Fits(s, t, s.threads[t]))
    ensures Fits(ApplyConnect(s, t, a), t, ApplyConnect(s, t, a).threads[t])
  {
  }

  lemma ConnectFitsOther(s: State, t: Tid, a: ConnectStep, u: Tid)
    requires ConnectEnabled(s, t, a) && (t in s.threads ==> Fits(s, t, s.threads[t]))
    requires u != t && u in s.threads && Fits(s, u, s.threads[u])
    ensures Fits(ApplyConnect(s, t, a), u, s.threads[u])
  {
  }

  // ----- steps of a tool operation that lists -----

  lemma DropKeeps(s: State, n: SessionId)
    requires Sessions(s) && Closing(s) && Cache(s) && Obtained(s, n)
    ensures Sessions(Drop(s, n)) && Closing(Drop(s, n)) && Cache(Drop(s, n))
  {
  }

  lemma DropFits(s: State, n: SessionId, u: Tid, pc: Pc)
    requires Sessions(s) && Obtained(s, n) && Fits(s, u, pc)
    ensures Fits(Drop(s, n), u, pc)
  {
  }

  // A step of a thread outside connectMu that leaves the sessions alone.
  lemma MovingKeepsSessions(s: State, next: State, t: Tid)
    requires Sessions(s) && s.connectHolder != Some(t) && next.connectHolder == s.connectHolder
    requires next.fields.session == s.fields.session && next.fates == s.fates
    requires t in next.threads && next.threads == s.threads[t := next.threads[t]]
    ensures Sessions(next)
  {
  }

  lemma ListKeepsSessions(s: State, t: Tid, a: ListStep)
    requires Sessions(s) && Closing(s) && Cache(s) && ListEnabled(s, t, a) && Fits(s, t, s.threads[t])
    ensures Sessions(ApplyList(s, t, a))
  {
    var next := ApplyList(s, t, a);
    if a.LoseSession? {
      var dropped := Drop(s, s.threads[t].session);
      DropKeeps(s, s.threads[t].session);
      MovingKeepsSessions(dropped, next, t);
    } else {
      MovingKeepsSessions(s, next, t);
    }
  }

  lemma ListKeepsClosing(s: State, t: Tid, a: ListStep)
    requires Sessions(s) && Closing(s) && Cache(s) && ListEnabled(s, t, a) && Fits(s, t, s.threads[t])
    ensures Closing(ApplyList(s, t, a)) && Cache(ApplyList(s, t, a))
  {
    hide Sessions, GenerationAfter;
    assert s.closer != Some(t);
    if a.LoseSession? {
      DropKeeps(s, s.threads[t].session);
    }
  }

  // A step that gives listMu to t, or takes it from t, is no concern of another thread.
  lemma ListLeavesOthers(s: State, next: State, u: Tid)
    requires u in s.threads && Fits(s, u, s.threads[u])
    requires next.connectHolder == s.connectHolder && (next.listHolder == Some(u) <==> s.listHolder == Some(u))
    requires next.fields.session == s.fields.session && next.fates == s.fates
    requires next.changes == s.changes && next.closer == s.closer && next.emptied == s.emptied
    ensures Fits(next, u, s.threads[u])
  {
  }

  lemma ListFits(s: State, t: Tid, a: ListStep, u: Tid)
    requires ListEnabled(s, t, a) && Sessions(s) && Cache(s) && Fits(s, t, s.threads[t])
    requires u in s.threads && Fits(s, u, s.threads[u])
    ensures Fits(ApplyList(s, t, a), u, ApplyList(s, t, a).threads[u])
  {
    assert a.LoseSession? ==> Obtained(s, s.threads[t].session);
    hide Sessions, Cache, Known;
    if u == t {
      ListFitsOwn(s, t, a);
    } else if a.LoseSession? {
      var dropped := Drop(s, s.threads[t].session);
      DropFits(s, s.threads[t].session, u, s.threads[u]);
      ListLeavesOthers(dropped, ApplyList(s, t, a), u);
    } else {
      ListLeavesOthers(s, ApplyList(s, t, a), u);
    }
  }

  lemma ListFitsOwn(s: State, t: Tid, a: ListStep)
    requires ListEnabled(s, t, a) && Cache(s) && Fits(s, t, s.threads[t])
    ensures Fits(ApplyList(s, t, a), t, ApplyList(s, t, a).threads[t])
  {
    if a.LookUpCache? || a.Read? {
      ReadingFitsOwn(s, t, a);
    } else {
      hide GenerationAfter, Commit, Invalidate, LookUp;
    }
  }

  lemma ReadingFitsOwn(s: State, t: Tid, a: ListStep)
    requires ListEnabled(s, t, a) && Cache(s) && Fits(s, t, s.threads[t]) && (a.LookUpCache? || a.Read?)
    ensures Fits(ApplyList(s, t, a), t, ApplyList(s, t, a).threads[t])
  {
    hide GenerationAfter, Commit, Invalidate;
  }

  // ----- steps of close -----

  lemma CloseKeepsSessions(s: State, t: Tid, a: CloseStep)
    requires Sessions(s) && Closing(s) && CloseEnabled(s, t, a) && (t in s.threads ==> Fits(s, t, s.threads[t]))
    ensures Sessions(ApplyClose(s, t, a))
  {
  }

  lemma CloseKeepsClosing(s: State, t: Tid, a: CloseStep)
    requires Closing(s) && Cache(s) && CloseEnabled(s, t, a) && (t in s.threads ==> Fits(s, t, s.threads[t]))
    ensures Closing(ApplyClose(s, t, a)) && Cache(ApplyClose(s, t, a))
  {
  }

  lemma CloseFits(s: State, t: Tid, a: CloseStep, u: Tid)
    requires Inv(s) && CloseEnabled(s, t, a) && u in ApplyClose(s, t, a).threads
    ensures Fits(ApplyClose(s, t, a), u, ApplyClose(s, t, a).threads[u])
  {
    if u == t {
      CloseFitsOwn(s, t, a);
    } else {
      CloseFitsOther(s, t, a, u);
    }
  }

  lemma CloseFitsOwn(s: State, t: Tid, a: CloseStep)
    requires Sessions(s) && Closing(s) && CloseEnabled(s, t, a) && (t in s.threads ==> Fits(s, t, s.threads[t]))
    ensures Fits(ApplyClose(s, t, a), t, ApplyClose(s, t, a).threads[t])
  {
  }

  lemma CloseFitsOther(s: State, t: Tid, a: CloseStep, u: Tid)
    requires Sessions(s) && Closing(s) && CloseEnabled(s, t, a) && (t in s.threads ==> Fits(s, t, s.threads[t]))
    requires u != t && u in s.threads && Fits(s, u, s.threads[u])
    ensures Fits(ApplyClose(s, t, a), u, s.threads[u])
  {
  }

  // ----- steps from outside -----

  lemma OutsideKeeps(s: State, a: OutsideStep)
    requires Sessions(s) && Closing(s) && Cache(s) && OutsideEnabled(s, a)
    ensures Sessions(ApplyOutside(s, a)) && Closing(ApplyOutside(s, a)) && Cache(ApplyOutside(s, a))
  {
    if a.Lost? {
      DropKeeps(s, a.session);
    }
  }

  lemma OutsideFits(s: State, a: OutsideStep, u: Tid)
    requires OutsideEnabled(s, a) && Sessions(s) && u in s.threads && Fits(s, u, s.threads[u])
    ensures Fits(ApplyOutside(s, a), u, s.threads[u])
  {
    if a.Lost? {
      DropFits(s, a.session, u, s.threads[u]);
    }
  }

  lemma ConnectKeepsInv(s: State, t: Tid, a: ConnectStep)
    requires Inv(s) && ConnectEnabled(s, t, a)
    ensures Inv(ApplyConnect(s, t, a))
  {
    var next := ApplyConnect(s, t, a);
    hide ApplyConnect, Sessions, Closing, Cache, Fits;
    ConnectKeepsSessions(s, t, a);
    ConnectKeepsClosing(s, t, a);
    forall u | u in next.threads ensures Fits(next, u, next.threads[u]) {
      ConnectFits(s, t, a, u);
    }
  }

  lemma ListKeepsInv(s: State, t: Tid, a: ListStep)
    requires Inv(s) && ListEnabled(s, t, a)
    ensures Inv(ApplyList(s, t, a))
  {
    var next := ApplyList(s, t, a);
    assert next.threads.Keys == s.threads.Keys;
    hide ApplyList, Sessions, Closing, Cache, Fits;
    ListKeepsSessions(s, t, a);
    ListKeepsClosing(s, t, a);
    forall u | u in next.threads ensures Fits(next, u, next.threads[u]) {
      assert u in s.threads.Keys;
      ListFits(s, t, a, u);
    }
  }

  lemma CloseKeepsInv(s: State, t: Tid, a: CloseStep)
    requires Inv(s) && CloseEnabled(s, t, a)
    ensures Inv(ApplyClose(s, t, a))
  {
    var next := ApplyClose(s, t, a);
    hide ApplyClose, Sessions, Closing, Cache, Fits;
    CloseKeepsSessions(s, t, a);
    CloseKeepsClosing(s, t, a);
    forall u | u in next.threads ensures Fits(next, u, next.threads[u]) {
      CloseFits(s, t, a, u);
    }
  }

  lemma OutsideKeepsInv(s: State, a: OutsideStep)
    requires Inv(s) && OutsideEnabled(s, a)
    ensures Inv(ApplyOutside(s, a))
  {
    OutsideKeeps(s, a);
    forall u | u in s.threads ensures Fits(ApplyOutside(s, a), u, s.threads[u]) {
      OutsideFits(s, a, u);
    }
  }

  lemma InvKept(s: State, a: Action)
    requires Inv(s) && Enabled(s, a)
    ensures Inv(Apply(s, a))
  {
    hide Inv, ApplyConnect, ApplyList, ApplyClose, ApplyOutside;
    match a
    case Connect(t, step) => ConnectKeepsInv(s, t, step);
    case List(t, step) => ListKeepsInv(s, t, step);
    case Close(t, step) => CloseKeepsInv(s, t, step);
    case Outside(step) => OutsideKeepsInv(s, step);
  }

  // ----- every interleaving -----

  ghost predicate Next(s: State, t: State) {
    exists a :: Enabled(s, a) && t == Apply(s, a)
  }

  ghost predicate Behaviour(run: seq<State>) {
    && run != [] && run[0] == INITIAL
    && forall i | 0 <= i < |run| - 1 :: Next(run[i], run[i + 1])
  }

  lemma StepAt(run: seq<State>, i: nat) returns (a: Action)
    requires Behaviour(run) && 0 < i < |run|
    ensures Enabled(run[i - 1], a) && run[i] == Apply(run[i - 1], a)
  {
    hide Apply, Enabled;
    assert Next(run[i - 1], run[i]);
    a :| Enabled(run[i - 1], a) && run[i] == Apply(run[i - 1], a);
  }

  lemma {:induction false} AlwaysInv(run: seq<State>, i: nat)
    requires Behaviour(run) && i < |run|
    ensures Inv(run[i])
  {
    if i != 0 {
      hide *;
      AlwaysInv(run, i - 1);
      var a := StepAt(run, i);
      InvKept(run[i - 1], a);
    }
  }

  predicate MayBecome(before: Fate, after: Fate) {
    match before
    case InHand => true
    case Current => after != InHand
    case Invalidated => after == Invalidated
    case Held => after == Held || after == Closed
    case Closed => after == Closed
  }

  // What later states keep of earlier ones.
  ghost predicate Extends(s: State, t: State) {
    && (forall n | n in s.fates :: n in t.fates && MayBecome(s.fates[n], t.fates[n]))
    && (s.emptied ==> t.emptied && t.fates.Keys == s.fates.Keys)
    && (s.finished ==> t.finished)
    && s.changes <= t.changes
  }

  lemma ConnectExtends(s: State, t: Tid, a: ConnectStep)
    requires Inv(s) && ConnectEnabled(s, t, a)
    ensures Extends(s, ApplyConnect(s, t, a))
  {
    var next := ApplyConnect(s, t, a);
    if a.InstallSession? {
      assert Fits(s, t, s.threads[t]);
    } else if a.Dial? {
      assert Fits(s, t, s.threads[t]);
    }
  }

  lemma DropExtends(s: State, n: SessionId)
    requires Inv(s)
    ensures Extends(s, Drop(s, n))
  {
  }

  lemma ListExtends(s: State, t: Tid, a: ListStep)
    requires Inv(s) && ListEnabled(s, t, a)
    ensures Extends(s, ApplyList(s, t, a))
  {
    if a.LoseSession? {
      DropExtends(s, s.threads[t].session);
    }
  }

  lemma CloseExtends(s: State, t: Tid, a: CloseStep)
    requires Inv(s) && CloseEnabled(s, t, a)
    ensures Extends(s, ApplyClose(s, t, a))
  {
    if t in s.threads {
      assert Fits(s, t, s.threads[t]);
    }
  }

  lemma StepExtends(s: State, a: Action)
    requires Inv(s) && Enabled(s, a)
    ensures Extends(s, Apply(s, a))
  {
    match a
    case Connect(t, step) => ConnectExtends(s, t, step);
    case List(t, step) => ListExtends(s, t, step);
    case Close(t, step) => CloseExtends(s, t, step);
    case Outside(step) => if step.Lost? { DropExtends(s, step.session); }
  }

  lemma {:induction false} AlwaysExtends(run: seq<State>, i: nat, j: nat)
    requires Behaviour(run) && i <= j < |run|
    ensures Extends(run[i], run[j])
  {
    hide *;
    if i == j {
      ExtendsItself(run[i]);
    } else {
      AlwaysExtends(run, i, j - 1);
      AlwaysInv(run, j - 1);
      var a := StepAt(run, j);
      StepExtends(run[j - 1], a);
      ExtendsTransitive(run[i], run[j - 1], run[j]);
    }
  }

  lemma ExtendsItself(s: State)
    ensures Extends(s, s)
  {
  }

  lemma ExtendsTransitive(s: State, t: State, u: State)
    requires Extends(s, t) && Extends(t, u)
    ensures Extends(s, u)
  {
  }

  // ----- what every interleaving promises -----

  // The session an invalidation names.
  function Loses(s: State, a: Action): Option<SessionId>
    requires Enabled(s, a)
  {
    match a
    case List(t, LoseSession) => Some(s.threads[t].session)
    case Outside(Lost(session)) => Some(session)
    case _ => None
  }

  // connect only ever installs a session over nil, and never after close has begun; an installed
  // session goes only by its own invalidation or by close, so losing an old one drops no newer one.
  lemma SessionChanges(run: seq<State>, i: nat, a: Action)
    requires Behaviour(run) && i < |run| && Enabled(run[i], a)
    ensures
      var before, after := run[i].fields.session, Apply(run[i], a).fields.session;
      || after == before
      || (before == None && a.Connect? && a.connect.InstallSession? && !run[i].fields.closed
          && after == Some(run[i].threads[a.t].session))
      || (after == None && (Loses(run[i], a) == before || (a.Close? && a.close.Take?)))
  {
    AlwaysInv(run, i);
    var s := run[i];
    match a
    case Connect(t, step) => if step.InstallSession? { assert Fits(s, t, s.threads[t]); }
    case List(t, step) =>
    case Close(t, step) =>
    case Outside(step) =>
  }

  // An open session is handed out as it is, and its holder may list with it or leave.
  lemma OpenSessionReused(s: State, t: Tid)
    requires Inv(s) && ConnectEnabled(s, t, Check) && !s.fields.closed && s.fields.session.Some?
    ensures
      var u := ApplyConnect(s, t, Check);
      && u.fields == s.fields && At(u, t, Linked(s.fields.session.value))
      && ListEnabled(u, t, Leave) && (u.listHolder.None? ==> ListEnabled(u, t, LockList))
  {
  }

  // A listing that fails changes nothing, unless it was the connection: then its session goes, if it
  // is still the current one, and the tools with it.
  lemma FailedListing(s: State, t: Tid, result: ReadResult)
    requires Inv(s) && ListEnabled(s, t, Read(result)) && !result.ReadAll?
    ensures
      var u := ApplyList(s, t, Read(result));
      && u.fields == s.fields && u.changes == s.changes
      && (result.ConnectionLost? <==> ListEnabled(u, t, LoseSession)) && (result.ReadRejected? <==> At(u, t, Done))
      && (result.ConnectionLost? ==>
            var lost, v := s.threads[t].session, ApplyList(u, t, LoseSession);
            && At(v, t, Done) && v.fields.session != Some(lost)
            && if s.fields.session == Some(lost) then v.fields.tools.None? && v.changes == s.changes + 1 else v.fields == s.fields)
  {
    hide GenerationAfter, NextGeneration;
  }

  // Only the first close goes on to empty the namespace; and at any moment a notification may come,
  // and any session that was installed may be lost.
  lemma CloseOnceLoseAnyTime(s: State, t: Tid, n: SessionId)
    requires Inv(s)
    ensures CloseEnabled(s, t, BeginClose) ==>
      var u := ApplyClose(s, t, BeginClose);
      u.fields == s.fields.(closed := true) && At(u, t, if s.fields.closed then Done else CloseWaiting)
    ensures OutsideEnabled(s, Notify)
    ensures OutsideEnabled(s, Lost(n)) <==> n in s.fates && s.fates[n] != InHand
  {
  }

  // After close has begun, no operation is handed a session, no lookup hits and no listing is cached.
  lemma NothingHandedOutOnceClosed(run: seq<State>, i: nat, t: Tid, a: Action)
    requires Behaviour(run) && i < |run| && run[i].fields.closed && Enabled(run[i], a)
    ensures a == Connect(t, Check) || a == Connect(t, InstallSession) || a == List(t, LookUpCache) || a == List(t, CommitListing) ==>
      At(Apply(run[i], a), t, Done) && Apply(run[i], a).fields == run[i].fields
    ensures a == Connect(t, InstallSession) ==> Apply(run[i], a).fates[run[i].threads[t].session] == Closed
  {
    hide GenerationAfter, Drop, Outdates;
    match a
    case Connect(_, step) =>
    case List(_, step) =>
    case Close(_, _) =>
    case Outside(_) =>
  }

  // Once the first close has finished, session and tools stay nil, and every session ever obtained
  // has been closed or had been invalidated before.
  lemma NothingAfterClose(run: seq<State>, i: nat, j: nat)
    requires Behaviour(run) && i <= j < |run| && run[i].finished
    ensures run[j].fields.closed && run[j].fields.session == None && run[j].fields.tools == None
    ensures run[j].fates == run[i].fates
    ensures forall n | n in run[j].fates :: run[j].fates[n] == Closed || run[j].fates[n] == Invalidated
  {
    AlwaysInv(run, i);
    AlwaysInv(run, j);
    AlwaysExtends(run, i, j);
    FinishedFates(run[i]);
    FinishedFates(run[j]);
  }

  lemma FinishedFates(s: State)
    requires Inv(s) && s.finished
    ensures s.fields.closed && s.fields.session == None && s.fields.tools == None && s.emptied
    ensures forall n | n in s.fates :: s.fates[n] == Closed || s.fates[n] == Invalidated
  {
    if s.connectHolder.Some? {
      assert Fits(s, s.connectHolder.value, s.threads[s.connectHolder.value]);
    }
  }

  // ----- the tool cache -----

  // A notification, or an invalidation that takes effect.
  predicate Outdates(s: State, a: Action)
    requires Enabled(s, a)
  {
    a == Outside(Notify) || (s.fields.session.Some? && Loses(s, a) == s.fields.session)
  }

  lemma ChangesCount(s: State, a: Action)
    requires Enabled(s, a)
    ensures Apply(s, a).changes == s.changes + if Outdates(s, a) then 1 else 0
  {
    hide GenerationAfter;
    match a
    case Connect(_, _) =>
    case List(_, step) => assert step.LoseSession? || Loses(s, a) == None;
    case Close(_, _) =>
    case Outside(_) =>
  }

  // When the listing a thread is busy with began.
  function Since(s: State, t: Tid): Option<nat> {
    if t in s.threads && (s.threads[t].Reading? || s.threads[t].Committing?) then Some(s.threads[t].since) else None
  }

  // The operation finds nothing usable in the cache and sets out to list the tools.
  predicate Sets(s: State, t: Tid, next: State) {
    && t in s.threads && s.threads[t].Looking? && LookUp(s.fields).Miss?
    && At(next, t, Reading(s.threads[t].session, s.fields.toolGeneration, s.changes))
  }

  lemma ListingStep(s: State, a: Action, t: Tid)
    requires Enabled(s, a) && Since(Apply(s, a), t).Some?
    ensures
      || Since(Apply(s, a), t) == Since(s, t)
      || (Since(Apply(s, a), t) == Some(s.changes) && Sets(s, t, Apply(s, a)))
  {
  }

  lemma {:induction false} ListingBegan(run: seq<State>, k: nat, t: Tid) returns (i: nat)
    requires Behaviour(run) && k < |run| && Since(run[k], t).Some?
    ensures i < k && Since(run[k], t) == Some(run[i].changes) && Sets(run[i], t, run[i + 1])
  {
    assert k != 0;
    hide *;
    var a := StepAt(run, k);
    ListingStep(run[k - 1], a, t);
    if Since(run[k], t) == Since(run[k - 1], t) {
      i := ListingBegan(run, k - 1, t);
    } else {
      i := k - 1;
    }
  }

  // The table goes into the cache.
  predicate Commits(s: State, t: Tid, next: State) {
    && t in s.threads && s.threads[t].Committing?
    && next.fields.tools == Some(s.threads[t].tools) && next.cachedAt == s.threads[t].since
  }

  lemma CacheStep(s: State, a: Action) returns (t: Tid)
    requires Enabled(s, a) && Apply(s, a).fields.tools.Some?
    ensures
      || (Apply(s, a).fields.tools == s.fields.tools && Apply(s, a).cachedAt == s.cachedAt)
      || Commits(s, t, Apply(s, a))
  {
    t := 0;
    match a
    case Connect(_, _) =>
    case List(u, step) =>
      t := u;
      ListingCacheStep(s, u, step);
    case Close(_, _) =>
    case Outside(_) =>
  }

  lemma ListingCacheStep(s: State, t: Tid, a: ListStep)
    requires ListEnabled(s, t, a) && ApplyList(s, t, a).fields.tools.Some?
    ensures
      || (ApplyList(s, t, a).fields.tools == s.fields.tools && ApplyList(s, t, a).cachedAt == s.cachedAt)
      || Commits(s, t, ApplyList(s, t, a))
  {
    hide GenerationAfter;
  }

  lemma {:induction false} CacheFilled(run: seq<State>, j: nat) returns (k: nat, t: Tid)
    requires Behaviour(run) && j < |run| && run[j].fields.tools.Some?
    ensures k < j && Commits(run[k], t, run[k + 1])
    ensures run[j].fields.tools == run[k + 1].fields.tools && run[j].cachedAt == run[k + 1].cachedAt
  {
    assert j != 0;
    hide *;
    var a := StepAt(run, j);
    t := CacheStep(run[j - 1], a);
    if Commits(run[j - 1], t, run[j]) {
      k := j - 1;
    } else {
      k, t := CacheFilled(run, j - 1);
    }
  }

  // A lookup hits exactly when there is a cache, the namespace is open, and the changes since the
  // cached listing began are a multiple of 2^64.
  lemma HitExactly(run: seq<State>, j: nat)
    requires Behaviour(run) && j < |run|
    ensures run[j].fields.tools.Some? ==> run[j].cachedAt <= run[j].changes
    ensures LookUp(run[j].fields).Hit? <==>
      !run[j].fields.closed && run[j].fields.tools.Some? && (run[j].changes - run[j].cachedAt) % GENERATIONS == 0
  {
    AlwaysInv(run, j);
  }

  // The step from m outdates every listing that has begun.
  ghost predicate OutdatedAt(run: seq<State>, m: nat)
    requires m + 1 < |run|
  {
    exists a :: Enabled(run[m], a) && run[m + 1] == Apply(run[m], a) && Outdates(run[m], a)
  }

  ghost predicate NothingOutdates(run: seq<State>, i: nat, j: nat)
    requires i <= j < |run|
  {
    forall m | i <= m < j :: !OutdatedAt(run, m)
  }

  lemma OutdatingCounts(run: seq<State>, m: nat)
    requires Behaviour(run) && m + 1 < |run|
    ensures run[m + 1].changes == run[m].changes + if OutdatedAt(run, m) then 1 else 0
  {
    var a := StepAt(run, m + 1);
    if OutdatedAt(run, m) {
      a :| Enabled(run[m], a) && run[m + 1] == Apply(run[m], a) && Outdates(run[m], a);
    }
    hide Enabled, Apply, Outdates, Behaviour;
    ChangesCount(run[m], a);
  }

  lemma {:induction false} ChangesStandStill(run: seq<State>, i: nat, j: nat)
    requires Behaviour(run) && i <= j < |run|
    ensures run[i].changes <= run[j].changes
    ensures NothingOutdates(run, i, j) <==> run[i].changes == run[j].changes
  {
    hide Behaviour, OutdatedAt;
    if i < j {
      ChangesStandStill(run, i, j - 1);
      OutdatingCounts(run, j - 1);
    }
  }

  // A hit returns the table of a listing that an operation began at i and committed at k. Nothing
  // has outdated it since it began exactly when there were fewer than 2^64 changes.
  lemma HitIsFresh(run: seq<State>, j: nat) returns (i: nat, k: nat, t: Tid)
    requires Behaviour(run) && j < |run| && LookUp(run[j].fields).Hit?
    ensures i < k < j && Sets(run[i], t, run[i + 1]) && Commits(run[k], t, run[k + 1])
    ensures LookUp(run[j].fields) == Hit(run[k].threads[t].tools) && run[i].changes == run[j].cachedAt
    ensures run[i].changes <= run[j].changes && (run[j].changes - run[i].changes) % GENERATIONS == 0
    ensures NothingOutdates(run, i, j) <==> run[j].changes - run[i].changes < GENERATIONS
  {
    HitExactly(run, j);
    k, t := CacheFilled(run, j);
    i := ListingBegan(run, k, t);
    ChangesStandStill(run, i, j);
  }

  // The exception is real: after 2^64 notifications a lookup returns a table that was outdated
  // after its listing began at i.
  lemma StaleHit() returns (run: seq<State>, i: nat, k: nat, t: Tid)
    ensures Behaviour(run) && LookUp(Last(run).fields).Hit?
    ensures i < k < |run| - 1 && Sets(run[i], t, run[i + 1]) && Commits(run[k], t, run[k + 1])
    ensures LookUp(Last(run).fields) == Hit(run[k].threads[t].tools) && !NothingOutdates(run, i, |run| - 1)
  {
    run := [INITIAL];
    run := Taking(run, Connect(0, Begin));
    run := Taking(run, Connect(0, LockConnect));
    run := Taking(run, Connect(0, Check));
    run := Taking(run, Connect(0, Dial(Some(0))));
    run := Taking(run, Connect(0, InstallSession));
    run := Taking(run, List(0, LockList));
    run := Taking(run, List(0, LookUpCache));
    run := Taking(run, List(0, Read(ReadAll(map[]))));
    run := Taking(run, List(0, CommitListing));
    run := Notifying(run, GENERATIONS);
    HitExactly(run, |run| - 1);
    assert Last(run).changes == Last(run).cachedAt + GENERATIONS;
    hide *;
    i, k, t := HitIsFresh(run, |run| - 1);
  }

  function Last(run: seq<State>): State
    requires run != []
  {
    run[|run| - 1]
  }

  lemma Taking(run: seq<State>, a: Action) returns (longer: seq<State>)
    requires Behaviour(run) && Enabled(Last(run), a)
    ensures Behaviour(longer) && Last(longer) == Apply(Last(run), a)
  {
    longer := run + [Apply(Last(run), a)];
    hide Apply, Enabled;
    forall i | 0 <= i < |longer| - 1
      ensures Next(longer[i], longer[i + 1])
    {
      assert i < |run| - 1 ==> Next(run[i], run[i + 1]);
    }
  }

  lemma {:induction false} Notifying(run: seq<State>, n: nat) returns (longer: seq<State>)
    requires Behaviour(run)
    ensures Behaviour(longer) && Last(longer).changes == Last(run).changes + n && Last(longer).cachedAt == Last(run).cachedAt
    ensures Last(longer).fields.closed == Last(run).fields.closed && Last(longer).fields.tools == Last(run).fields.tools
  {
    longer := run;
    if n != 0 {
      longer := Notifying(run, n - 1);
      longer := Taking(longer, Outside(Notify));
    }
  }

  // ----- no deadlock -----

  function Rank(pc: Pc): nat {
    match pc
    case Connecting => 8
    case Checking => 7
    case Dialing => 6
    case Installing(_) => 5
    case Linked(_) => 4
    case Looking(_) => 3
    case Reading(_, _, _) => 2
    case Committing(_, _, _, _) => 1
    case Losing(_) => 1
    case CloseWaiting => 3
    case CloseTaking => 2
    case CloseShutting(_) => 1
    case Done => 0
  }

  predicate Continues(a: Action) {
    match a
    case Connect(_, step) => !step.Begin?
    case List(_, _) => true
    case Close(_, step) => !step.BeginClose?
    case Outside(_) => false
  }

  // While some operation is unfinished, some operation can take its next step: the mutexes are
  // never waited for in a circle.
  lemma NoDeadlock(run: seq<State>, i: nat, t: Tid) returns (a: Action)
    requires Behaviour(run) && i < |run| && t in run[i].threads && !run[i].threads[t].Done?
    ensures Continues(a) && Enabled(run[i], a)
  {
    AlwaysInv(run, i);
    var s := run[i];
    var u := if s.connectHolder.Some? then s.connectHolder.value else if s.listHolder.Some? then s.listHolder.value else t;
    assert Fits(s, u, s.threads[u]);
    match s.threads[u]
    case Connecting => a := Connect(u, LockConnect);
    case Checking => a := Connect(u, Check);
    case Dialing => a := Connect(u, Dial(None));
    case Installing(_) => a := Connect(u, InstallSession);
    case Linked(_) => a := List(u, LockList);
    case Looking(_) => a := List(u, LookUpCache);
    case Reading(_, _, _) => a := List(u, Read(ReadRejected));
    case Committing(_, _, _, _) => a := List(u, CommitListing);
    case Losing(_) => a := List(u, LoseSession);
    case CloseWaiting => a := Close(u, LockForClose);
    case CloseTaking => a := Close(u, Take);
    case CloseShutting(_) => a := Close(u, ShutSession);
  }

  // Every operation ends after at most nine of its own steps, whatever the others do.
  lemma StepsLowerRank(s: State, a: Action)
    requires Enabled(s, a) && Continues(a)
    ensures a.t in s.threads && Rank(Apply(s, a).threads[a.t]) < Rank(s.threads[a.t])
    ensures forall u | u in s.threads && u != a.t :: u in Apply(s, a).threads && Apply(s, a).threads[u] == s.threads[u]
  {
  }
}
