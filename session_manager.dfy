/**
 * The registry of active sessions, keyed by session id. The source keeps it in
 * one module-level dictionary; here it is the map field of a registry object.
 */
module SessionManager {
  import opened Strings
  import opened SessionStates

  class SessionRegistry {
    var activeSessions: map<string, SessionState>

    constructor ()
      ensures activeSessions == map[]
    {
      activeSessions := map[];
    }

    /** get_session: the stored session, or None. */
    method GetSession(sessionId: string) returns (s: Option<SessionState>)
      ensures sessionId in activeSessions ==> s == Some(activeSessions[sessionId])
      ensures sessionId !in activeSessions ==> s == None
    {
      if sessionId in activeSessions {
        s := Some(activeSessions[sessionId]);
      } else {
        s := None;
      }
    }

    /** save_session: stores or overwrites the entry for `sessionId`; every other entry stays. */
    method SaveSession(sessionId: string, session: SessionState)
      modifies this`activeSessions
      ensures activeSessions == old(activeSessions)[sessionId := session]
      ensures sessionId in activeSessions && activeSessions[sessionId] == session
      ensures forall id :: id != sessionId ==>
        (id in activeSessions <==> id in old(activeSessions)) &&
        (id in activeSessions ==> activeSessions[id] == old(activeSessions)[id])
    {
      activeSessions := activeSessions[sessionId := session];
    }

    /** delete_session: removes the entry if there is one (an absent id is a no-op); every other entry stays. */
    method DeleteSession(sessionId: string)
      modifies this`activeSessions
      ensures activeSessions == old(activeSessions) - {sessionId}
      ensures sessionId !in activeSessions
      ensures sessionId !in old(activeSessions) ==> activeSessions == old(activeSessions)
      ensures forall id :: id != sessionId ==>
        (id in activeSessions <==> id in old(activeSessions)) &&
        (id in activeSessions ==> activeSessions[id] == old(activeSessions)[id])
    {
      if sessionId in activeSessions {
        activeSessions := activeSessions - {sessionId};
      }
    }
  }
}
