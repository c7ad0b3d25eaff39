/** The in-memory store: one append-only message log per session. */
module Storage {
  import opened Messages

  class MemoryStorage {
    var sessions: map<string, seq<Message>>

    constructor ()
      ensures sessions == map[]
    {
      sessions := map[];
    }

    function Contents(session: string): seq<Message>
      reads this
    {
      if session in sessions then sessions[session] else []
    }

    method Load(session: string) returns (history: seq<Message>)
      ensures history == Contents(session)
    {
      history := if session in sessions then sessions[session] else [];
    }

    method Append(session: string, messages: seq<Message>)
      modifies this
      ensures Contents(session) == old(Contents(session)) + messages
      ensures sessions - {session} == old(sessions) - {session}
    {
      sessions := sessions[session := Contents(session) + messages];
    }
  }
}
