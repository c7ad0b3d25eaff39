/** One MCP namespace: its lazily connected session and its tool cache, under the mutexes
    connectMu, listMu and mu. mu guards short critical sections only; each is one atomic step. */
module Namespace {
  import opened Messages

  // A session is a pointer in the source; here every session obtained has its own number.
  type SessionId = nat

  datatype RemoteTool = RemoteTool(name: string, description: string)

  type Tools = map<string, RemoteTool>

  // Generations are uint64 counters.
  const GENERATIONS: nat := 0x1_0000_0000_0000_0000

  function NextGeneration(g: nat): nat {
    (g + 1) % GENERATIONS
  }

  // The generation after so many changes; it starts at one.
  function GenerationAfter(changes: nat): nat {
    (1 + changes) % GENERATIONS
  }

  // ----- the critical sections of mu -----

  datatype Fields = Fields(
    closed: bool,
    session: Option<SessionId>,
    tools: Option<Tools>,
    toolGeneration: nat,
    cacheGeneration: nat
  )

  const FRESH := Fields(false, None, None, 1, 0)

  datatype Found = Refused | Connected(session: SessionId) | NotConnected

  // The first look of connect at the session.
  function Find(f: Fields): Found {
    if f.closed then Refused else if f.session.Some? then Connected(f.session.value) else NotConnected
  }

  datatype Lookup = IsClosed | Hit(tools: Tools) | Miss(generation: nat)

  function LookUp(f: Fields): Lookup {
    if f.closed then IsClosed
    else if f.tools.Some? && f.cacheGeneration == f.toolGeneration then Hit(f.tools.value)
    else Miss(f.toolGeneration)
  }

  function Commit(f: Fields, generation: nat, tools: Tools): Fields {
    if f.closed || f.toolGeneration != generation then f else f.(tools := Some(tools), cacheGeneration := generation)
  }

  function Install(f: Fields, session: SessionId): Fields {
    if f.closed then f else f.(session := Some(session))
  }

  function Invalidate(f: Fields, session: SessionId): Fields {
    if f.session != Some(session) then f
    else f.(session := None, tools := None, toolGeneration := NextGeneration(f.toolGeneration))
  }

  function ListChanged(f: Fields): Fields {
    f.(toolGeneration := NextGeneration(f.toolGeneration))
  }

  function TakeForClose(f: Fields): Fields {
    f.(session := None, tools := None)
  }

  // ----- reading a tool listing -----

  // What the iterator over the remote tools yields.
  datatype Item = Listed(tool: Option<RemoteTool>) | Failure(connectionLost: bool)

  datatype ListError = ListFailed(connectionLost: bool) | InvalidName | DuplicateName(name: string) | TooMany

  datatype Listing = Complete(tools: Tools) | Rejected(error: ListError)

  // The tools that survive the filter.
  function Visible(items: seq<Item>, filter: RemoteTool -> bool): seq<RemoteTool> {
    if items == [] then []
    else
      var last := items[|items| - 1];
      Visible(items[..|items| - 1], filter)
      + (if last.Listed? && last.tool.Some? && filter(last.tool.value) then [last.tool.value] else [])
  }

  predicate DistinctNames(tools: seq<RemoteTool>) {
    forall i, j | 0 <= i < j < |tools| :: tools[i].name != tools[j].name
  }

  // A listing can be kept: it did not fail, and the visible tools are few enough and well named.
  predicate Acceptable(items: seq<Item>, filter: RemoteTool -> bool, validName: string -> bool, maxTools: int) {
    && (forall i | 0 <= i < |items| :: items[i].Listed?)
    && var visible := Visible(items, filter);
       && (forall i | 0 <= i < |visible| :: validName(visible[i].name))
       && DistinctNames(visible)
       && (visible == [] || |visible| <= maxTools)
  }

  // The table of the visible tools by name.
  predicate Tabulates(tools: Tools, visible: seq<RemoteTool>) {
    && |tools| == |visible|
    && (forall i | 0 <= i < |visible| :: visible[i].name in tools && tools[visible[i].name] == visible[i])
    && (forall name | name in tools :: exists i :: 0 <= i < |visible| && visible[i].name == name)
  }

  lemma {:induction false} AcceptablePrefix(
    items: seq<Item>, n: nat, filter: RemoteTool -> bool, validName: string -> bool, maxTools: int)
    requires n <= |items| && Acceptable(items, filter, validName, maxTools)
    ensures Acceptable(items[..n], filter, validName, maxTools)
    decreases |items|
  {
    if n == |items| {
      assert items[..n] == items;
    } else {
      var shorter := items[..|items| - 1];
      var fewer := Visible(shorter, filter);
      assert fewer <= Visible(items, filter);
      assert forall i | 0 <= i < |fewer| :: fewer[i] == Visible(items, filter)[i];
      AcceptablePrefix(shorter, n, filter, validName, maxTools);
      assert shorter[..n] == items[..n];
    }
  }

  function Seen(item: Item, filter: RemoteTool -> bool): seq<RemoteTool> {
    if item.Listed? && item.tool.Some? && filter(item.tool.value) then [item.tool.value] else []
  }

  // What one more item needs for the listing to stay acceptable.
  lemma AcceptableNext(items: seq<Item>, item: Item, filter: RemoteTool -> bool, validName: string -> bool, maxTools: int)
    requires Acceptable(items, filter, validName, maxTools)
    ensures Visible(items + [item], filter) == Visible(items, filter) + Seen(item, filter)
    ensures
      var before, seen := Visible(items, filter), Seen(item, filter);
      Acceptable(items + [item], filter, validName, maxTools)
      <==> item.Listed? && (seen == [] || (validName(seen[0].name) && DistinctNames(before + seen) && |before| < maxTools))
  {
    var all := items + [item];
    assert all[..|items|] == items;
    var before, seen := Visible(items, filter), Seen(item, filter);
    assert Visible(all, filter) == before + seen;
    hide Visible;
    assert forall i | 0 <= i < |items| :: all[i] == items[i];
    assert all[|items|] == item;
    if seen != [] {
      assert (before + seen)[|before|] == seen[0];
      assert forall i | 0 <= i < |before| :: (before + seen)[i] == before[i];
    } else {
      assert before + seen == before;
    }
  }

  // One more visible tool: it fits the table exactly when its name is new.
  lemma TabulateNext(tools: Tools, visible: seq<RemoteTool>, tool: RemoteTool)
    requires Tabulates(tools, visible) && DistinctNames(visible)
    ensures tool.name !in tools <==> DistinctNames(visible + [tool])
    ensures tool.name !in tools ==> Tabulates(tools[tool.name := tool], visible + [tool])
  {
    var more := visible + [tool];
    assert more[|visible|] == tool;
    if tool.name in tools {
      var i :| 0 <= i < |visible| && visible[i].name == tool.name;
      assert more[i].name == more[|visible|].name;
    } else {
      var added := tools[tool.name := tool];
      forall i, j | 0 <= i < j < |more|
        ensures more[i].name != more[j].name
      {
        assert more[i] == visible[i] && (j < |visible| ==> more[j] == visible[j]);
      }
      forall i | 0 <= i < |more|
        ensures more[i].name in added && added[more[i].name] == more[i]
      {
        assert i < |visible| ==> more[i] == visible[i];
      }
      forall name | name in added
        ensures exists i :: 0 <= i < |more| && more[i].name == name
      {
        var i :| 0 <= i <= |visible| && if i == |visible| then name == tool.name else visible[i].name == name;
        assert more[i].name == name;
      }
    }
  }

  lemma NamesDistinct(items: seq<Item>, filter: RemoteTool -> bool, validName: string -> bool, maxTools: int)
    requires Acceptable(items, filter, validName, maxTools)
    ensures DistinctNames(Visible(items, filter))
  {
  }

  lemma TableHas(tools: Tools, visible: seq<RemoteTool>)
    requires Tabulates(tools, visible)
    ensures |tools| == |visible|
    ensures forall name | name in tools :: exists k :: 0 <= k < |visible| && visible[k].name == name
  {
  }

  // Item i is the first that spoils the listing, and how.
  predicate Spoils(items: seq<Item>, i: nat, error: ListError, filter: RemoteTool -> bool, validName: string -> bool, maxTools: int) {
    && i < |items| && Acceptable(items[..i], filter, validName, maxTools)
    && var before, seen := Visible(items[..i], filter), Seen(items[i], filter);
       match error
       case ListFailed(lost) => items[i] == Failure(lost)
       case InvalidName => seen != [] && !validName(seen[0].name)
       case DuplicateName(name) => seen != [] && seen[0].name == name && exists k :: 0 <= k < |before| && before[k].name == name
       case TooMany => seen != [] && |before| >= maxTools
  }

  ghost predicate RuledOut(
    items: seq<Item>, i: nat, error: ListError, filter: RemoteTool -> bool, validName: string -> bool, maxTools: int)
    requires i < |items|
  {
    && Spoils(items, i, error, filter, validName, maxTools)
    && !Acceptable(items, filter, validName, maxTools) && !Acceptable(items[..i + 1], filter, validName, maxTools)
  }

  // The remote connection was lost before anything else was wrong with the listing.
  predicate ConnectionLost(items: seq<Item>, filter: RemoteTool -> bool, validName: string -> bool, maxTools: int) {
    exists i | 0 <= i < |items| :: items[i] == Failure(true) && Acceptable(items[..i], filter, validName, maxTools)
  }

  lemma LostExactly(items: seq<Item>, i: nat, error: ListError, filter: RemoteTool -> bool, validName: string -> bool, maxTools: int)
    requires i < |items| && RuledOut(items, i, error, filter, validName, maxTools)
    ensures !Acceptable(items, filter, validName, maxTools) && Spoils(items, i, error, filter, validName, maxTools)
    ensures ConnectionLost(items, filter, validName, maxTools) <==> error == ListFailed(true)
  {
    hide Acceptable;
    forall j | 0 <= j < |items| && items[j] == Failure(true) && Acceptable(items[..j], filter, validName, maxTools)
      ensures j == i
    {
      if j < i {
        AllListed(items, i, j, filter, validName, maxTools);
      } else if i < j {
        PrefixAcceptable(items, j, i + 1, filter, validName, maxTools);
      }
    }
  }

  lemma AllListed(items: seq<Item>, n: nat, j: nat, filter: RemoteTool -> bool, validName: string -> bool, maxTools: int)
    requires j < n <= |items| && Acceptable(items[..n], filter, validName, maxTools)
    ensures items[j].Listed?
  {
    assert items[..n][j] == items[j];
  }

  lemma PrefixAcceptable(items: seq<Item>, n: nat, m: nat, filter: RemoteTool -> bool, validName: string -> bool, maxTools: int)
    requires m <= n <= |items| && Acceptable(items[..n], filter, validName, maxTools)
    ensures Acceptable(items[..m], filter, validName, maxTools)
  {
    AcceptablePrefix(items[..n], m, filter, validName, maxTools);
    assert items[..n][..m] == items[..m];
  }

  lemma CompleteNotLost(items: seq<Item>, filter: RemoteTool -> bool, validName: string -> bool, maxTools: int)
    requires Acceptable(items, filter, validName, maxTools)
    ensures !ConnectionLost(items, filter, validName, maxTools)
  {
  }

  // What one more item makes of the table so far, and when it rules the whole listing out.
  lemma ItemRead(items: seq<Item>, i: nat, tools: Tools, filter: RemoteTool -> bool, validName: string -> bool, maxTools: int)
    requires i < |items| && Acceptable(items[..i], filter, validName, maxTools) && Tabulates(tools, Visible(items[..i], filter))
    ensures items[i].Failure? ==> RuledOut(items, i, ListFailed(items[i].connectionLost), filter, validName, maxTools)
    ensures items[i].Listed? && Seen(items[i], filter) == [] ==>
      Acceptable(items[..i + 1], filter, validName, maxTools) && Tabulates(tools, Visible(items[..i + 1], filter))
    ensures Seen(items[i], filter) != [] ==>
      var tool := Seen(items[i], filter)[0];
      if !validName(tool.name) then RuledOut(items, i, InvalidName, filter, validName, maxTools)
      else if tool.name in tools then RuledOut(items, i, DuplicateName(tool.name), filter, validName, maxTools)
      else if |tools| >= maxTools then RuledOut(items, i, TooMany, filter, validName, maxTools)
      else Acceptable(items[..i + 1], filter, validName, maxTools)
           && Tabulates(tools[tool.name := tool], Visible(items[..i + 1], filter))
  {
    hide Acceptable, Visible, Tabulates, DistinctNames;
    var before, seen := Visible(items[..i], filter), Seen(items[i], filter);
    assert items[..i + 1] == items[..i] + [items[i]];
    AcceptableNext(items[..i], items[i], filter, validName, maxTools);
    if Acceptable(items, filter, validName, maxTools) {
      AcceptablePrefix(items, i + 1, filter, validName, maxTools);
    }
    NamesDistinct(items[..i], filter, validName, maxTools);
    TableHas(tools, before);
    assert before + [] == before;
    if seen != [] {
      TabulateNext(tools, before, seen[0]);
      assert seen == [seen[0]];
    }
  }

  method CollectTools(items: seq<Item>, filter: RemoteTool -> bool, validName: string -> bool, maxTools: int) returns (listing: Listing)
    ensures listing.Complete? <==> Acceptable(items, filter, validName, maxTools)
    ensures listing.Complete? ==> Tabulates(listing.tools, Visible(items, filter))
    ensures listing.Rejected? ==> exists i: nat :: Spoils(items, i, listing.error, filter, validName, maxTools)
    ensures ConnectionLost(items, filter, validName, maxTools) <==> listing == Rejected(ListFailed(true))
  {
    var tools: Tools := map[];
    for i := 0 to |items|
      invariant Acceptable(items[..i], filter, validName, maxTools)
      invariant Tabulates(tools, Visible(items[..i], filter))
    {
      ItemRead(items, i, tools, filter, validName, maxTools);
      hide Tabulates, Acceptable, Visible, DistinctNames, ConnectionLost, Spoils, RuledOut;
      if items[i].Failure? {
        listing := Rejected(ListFailed(items[i].connectionLost));
        LostExactly(items, i, listing.error, filter, validName, maxTools);
        return;
      }
      if items[i].tool.None? || !filter(items[i].tool.value) {
        continue;
      }
      var tool := items[i].tool.value;
      if !validName(tool.name) {
        listing := Rejected(InvalidName);
        LostExactly(items, i, listing.error, filter, validName, maxTools);
        return;
      }
      if tool.name in tools {
        listing := Rejected(DuplicateName(tool.name));
        LostExactly(items, i, listing.error, filter, validName, maxTools);
        return;
      }
      if |tools| >= maxTools {
        listing := Rejected(TooMany);
        LostExactly(items, i, listing.error, filter, validName, maxTools);
        return;
      }
      tools := tools[tool.name := tool];
    }
    assert items[..|items|] == items;
    CompleteNotLost(items, filter, validName, maxTools);
    return Complete(tools);
  }

  // ----- the fields in place -----

  // The fields themselves, updated in place; each method is the body of one critical section.
  class Guarded {
    var closed: bool
    var session: Option<SessionId>
    var tools: Option<Tools>
    var toolGeneration: nat
    var cacheGeneration: nat

    function View(): Fields
      reads this
    {
      Fields(closed, session, tools, toolGeneration, cacheGeneration)
    }

    constructor ()
      ensures View() == FRESH
    {
      closed, session, tools, toolGeneration, cacheGeneration := false, None, None, 1, 0;
    }

    method FindSession() returns (found: Found)
      ensures found == Find(View())
    {
      if closed {
        return Refused;
      }
      if session.Some? {
        return Connected(session.value);
      }
      return NotConnected;
    }

    method InstallSession(connected: SessionId) returns (installed: bool)
      modifies this
      ensures View() == Install(old(View()), connected) && installed == !old(closed)
    {
      if closed {
        return false;
      }
      session := Some(connected);
      return true;
    }

    method LookUpTools() returns (lookup: Lookup)
      ensures lookup == LookUp(View())
    {
      if closed {
        return IsClosed;
      }
      if tools.Some? && cacheGeneration == toolGeneration {
        return Hit(tools.value);
      }
      return Miss(toolGeneration);
    }

    method CommitTools(generation: nat, listed: Tools) returns (isClosed: bool)
      modifies this
      ensures View() == Commit(old(View()), generation, listed) && isClosed == old(closed)
    {
      if closed {
        return true;
      }
      if toolGeneration == generation {
        tools := Some(listed);
        cacheGeneration := generation;
      }
      return false;
    }

    method InvalidateSession(lost: SessionId)
      modifies this
      ensures View() == Invalidate(old(View()), lost)
    {
      if session != Some(lost) {
        return;
      }
      session := None;
      tools := None;
      toolGeneration := (toolGeneration + 1) % GENERATIONS;
    }

    method OnListChanged()
      modifies this
      ensures View() == ListChanged(old(View()))
    {
      toolGeneration := (toolGeneration + 1) % GENERATIONS;
    }

    method BeginClose() returns (first: bool)
      modifies this
      ensures View() == old(View()).(closed := true) && first == !old(closed)
    {
      first := !closed;
      closed := true;
    }

    method TakeSession() returns (taken: Option<SessionId>)
      modifies this
      ensures View() == TakeForClose(old(View())) && taken == old(session)
    {
      taken := session;
      session := None;
      tools := None;
    }

    // ----- the operations, with others coming between their critical sections -----

    // What others may do while this operation holds connectMu: nobody installs or takes a session.
    method OthersWhileConnecting()
      modifies this
      ensures session == old(session) || session == None
      ensures old(closed) ==> closed
    {
      var n :| 0 <= n;
      for i := 0 to n
        invariant session == old(session) || session == None
        invariant old(closed) ==> closed
      {
        if {
          case true => OnListChanged();
          case true =>
            var lost: SessionId :| 0 <= lost;
            InvalidateSession(lost);
          case true =>
            var first := BeginClose();
          case true =>
            var generation: nat :| 0 <= generation;
            var listed: Tools := *;
            var isClosed := CommitTools(generation, listed);
        }
      }
    }

    // What others may do while this operation holds listMu: nobody commits a listing.
    method OthersWhileListing()
      modifies this
      ensures tools == old(tools) || tools == None
      ensures cacheGeneration == old(cacheGeneration)
      ensures old(closed) ==> closed
    {
      var n :| 0 <= n;
      for i := 0 to n
        invariant tools == old(tools) || tools == None
        invariant cacheGeneration == old(cacheGeneration)
        invariant old(closed) ==> closed
      {
        var other: SessionId :| 0 <= other;
        if {
          case true => OnListChanged();
          case true => InvalidateSession(other);
          case true =>
            var first := BeginClose();
          case true =>
            var installed := InstallSession(other);
          case true =>
            var taken := TakeSession();
        }
      }
    }

    // connect: an open session is reused; a new one goes over nil, unless close came first. dialled
    // is what the transport hands over, under the fields at the moment it is installed.
    method Connect(dialled: Option<SessionId>) returns (r: Option<SessionId>, ghost under: Fields)
      modifies this
      ensures Find(old(View())) != NotConnected ==> View() == old(View()) && r == if closed then None else session
      ensures Find(old(View())) == NotConnected && dialled.Some? ==>
        under.session == None && View() == Install(under, dialled.value) && r == if closed then None else dialled
      ensures Find(old(View())) == NotConnected && dialled.None? ==> r == None && session == None
    {
      under := View();
      var found := FindSession();
      match found
      case Refused => return None, under;
      case Connected(open) => return Some(open), under;
      case NotConnected =>
        OthersWhileConnecting();
        under := View();
        if dialled.None? {
          return None, under;
        }
        var installed := InstallSession(dialled.value);
        return if installed then dialled else None, under;
    }

    // loadTools after connect: a hit is returned as it is; a complete listing is returned unless
    // close came first, and goes into the cache if the generation has not moved. at are the fields
    // when the listing is done.
    method LoadTools(via: SessionId, items: seq<Item>, filter: RemoteTool -> bool, validName: string -> bool, maxTools: int)
      returns (table: Option<Tools>, ghost at: Fields)
      modifies this
      ensures LookUp(old(View())).Hit? ==> View() == old(View()) && table == Some(LookUp(old(View())).tools)
      ensures LookUp(old(View())).IsClosed? ==> View() == old(View()) && table == None
      ensures LookUp(old(View())).Miss? ==>
        && (table.Some? <==> Acceptable(items, filter, validName, maxTools) && !at.closed)
        && (table.Some? ==> Tabulates(table.value, Visible(items, filter))
                            && View() == Commit(at, old(toolGeneration), table.value))
        && (table.None? ==>
              View() == if ConnectionLost(items, filter, validName, maxTools) then Invalidate(at, via) else at)
    {
      at := View();
      var lookup := LookUpTools();
      match lookup
      case IsClosed => return None, at;
      case Hit(cached) => return Some(cached), at;
      case Miss(generation) =>
        OthersWhileListing();
        at := View();
        var listing := CollectTools(items, filter, validName, maxTools);
        if listing.Rejected? {
          if listing.error.ListFailed? && listing.error.connectionLost {
            InvalidateSession(via);
          }
          return None, at;
        }
        var isClosed := CommitTools(generation, listing.tools);
        return if isClosed then None else Some(listing.tools), at;
    }

    // close: only the first call goes on, and it takes whatever session is left to shut it.
    method Close() returns (taken: Option<SessionId>)
      modifies this
      ensures closed
      ensures old(closed) ==> View() == old(View()) && taken == None
      ensures !old(closed) ==> session == None && tools == None && (taken == old(session) || taken == None)
    {
      var first := BeginClose();
      if !first {
        return None;
      }
      OthersWhileConnecting();
      taken := TakeSession();
    }
  }
}
