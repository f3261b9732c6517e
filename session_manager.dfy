/**
 * `ChatSessionManager` and its inner `ChatSession` as classes whose fields change in place.
 * The manager carries a ghost `view`, its state as a value of registry.dfy, which `Valid()`
 * ties to the real fields (`Contents()`). Every mutating method is proved to move the view
 * exactly as the corresponding `RegistrySpec` function says, while keeping `Valid()`: the
 * pairing stays symmetric, each table entry is the session of that id, no entry of the
 * table is ever a destroyed session, and the view is what the fields hold.
 */
module SessionManager {
  import opened Wrappers
  import opened Messages
  import opened RegistrySpec

  class ChatSession {
    const sessionId: string
    const user1: string
    const user2: string
    var messages: seq<Message>
    var destroyed: bool

    constructor (sessionId: string, user1: string, user2: string)
      ensures this.sessionId == sessionId && this.user1 == user1 && this.user2 == user2
      ensures messages == [] && !destroyed
    {
      this.sessionId := sessionId;
      this.user1 := user1;
      this.user2 := user2;
      messages := [];
      destroyed := false;
    }

    /** A destroyed session accepts nothing; a live one appends at the end. */
    method AddMessage(m: Message)
      modifies this
      ensures destroyed == old(destroyed)
      ensures messages == if destroyed then old(messages) else old(messages) + [m]
    {
      if !destroyed {
        messages := messages + [m];
      }
    }

    method ClearMessages()
      modifies this
      ensures destroyed == old(destroyed)
      ensures messages == if destroyed then old(messages) else []
    {
      if !destroyed {
        messages := [];
      }
    }

    /** Destruction is final and wipes the history. */
    method Destroy()
      modifies this
      ensures destroyed && messages == []
    {
      destroyed := true;
      messages := [];
    }
  }

  class ChatSessionManager {
    var activeSessions: map<string, ChatSession>
    var userConnections: map<string, string>
    /** The manager as a `RegistrySpec.Registry` value, kept up to date by every method. */
    ghost var view: Registry

    /**
     * The pairing is symmetric and every entry of the table is the live session filed under
     * its own id (which also makes the table injective: two ids never share a session),
     * and the view is the fields' contents.
     */
    ghost predicate Valid()
      reads this, activeSessions.Values
    {
      && Symmetric(userConnections)
      && (forall id :: id in activeSessions ==>
           activeSessions[id].sessionId == id && !activeSessions[id].destroyed)
      && view == Contents()
    }

    ghost function View(): Registry
      reads this
    {
      view
    }

    /** What the fields hold: the pairing and each session's history. */
    ghost function Contents(): Registry
      reads this, activeSessions.Values
    {
      Registry(userConnections, map id | id in activeSessions :: activeSessions[id].messages)
    }

    constructor ()
      ensures Valid() && View() == Registry(map[], map[])
    {
      activeSessions := map[];
      userConnections := map[];
      view := Registry(map[], map[]);
    }

    /** `isUserConnected`: under the invariant, exactly when somebody is connected to the user. */
    function IsUserConnected(username: string): (b: bool)
      reads this
      requires Symmetric(userConnections)
      ensures b <==> exists v :: v in userConnections && userConnections[v] == username
    {
      assert username in userConnections ==> userConnections[userConnections[username]] == username;
      username in userConnections
    }

    /** `getConnectedUser`: under the invariant, the partner's partner is the user again. */
    function GetConnectedUser(username: string): (r: Option<string>)
      reads this
      requires Symmetric(userConnections)
      ensures r.Some? <==> username in userConnections
      ensures r.Some? ==> r.value in userConnections && userConnections[r.value] == username
    {
      if username in userConnections then Some(userConnections[username]) else None
    }

    /** `isSessionActive`: under the invariant, being in the table already means not destroyed. */
    function IsSessionActive(sessionId: string): (b: bool)
      reads this, activeSessions.Values
      requires Valid()
      ensures b <==> RegistrySpec.IsSessionActive(View(), sessionId)
    {
      sessionId in activeSessions && !activeSessions[sessionId].destroyed
    }

    method CreateSession(user1: string, user2: string) returns (sessionId: string)
      requires Valid()
      modifies this
      ensures Valid()
      ensures (View(), sessionId) == RegistrySpec.CreateSession(old(View()), user1, user2)
      ensures fresh(activeSessions[sessionId])
      ensures forall s :: s in activeSessions.Values ==> s in old(activeSessions.Values) || fresh(s)
      ensures activeSessions[sessionId].user1 == user1 && activeSessions[sessionId].user2 == user2
    {
      sessionId := GenerateSessionId(user1, user2);
      var session := new ChatSession(sessionId, user1, user2);
      activeSessions := activeSessions[sessionId := session];
      view := RegistrySpec.CreateSession(view, user1, user2).0;
      assert Contents().logs == old(Contents()).logs[sessionId := []];
    }

    method ConnectUsers(user1: string, user2: string) returns (ok: bool)
      requires Valid()
      modifies this
      ensures Valid()
      ensures (View(), ok) == RegistrySpec.ConnectUsers(old(View()), user1, user2)
    {
      if IsUserConnected(user1) || IsUserConnected(user2) {
        return false;
      }
      ConnectUsersPreservesSymmetry(view, user1, user2);
      userConnections := userConnections[user1 := user2][user2 := user1];
      view := view.(pairs := userConnections);
      assert Contents() == view;
      var _ := CreateSession(user1, user2);
      ok := true;
    }

    method DestroySession(sessionId: string) returns (ok: bool)
      requires Valid()
      modifies this, activeSessions.Values
      ensures Valid()
      ensures (View(), ok) == RegistrySpec.DestroySession(old(View()), sessionId)
      ensures activeSessions.Values <= old(activeSessions.Values)
      ensures ok ==> old(activeSessions[sessionId]).destroyed && old(activeSessions[sessionId]).messages == []
    {
      if sessionId !in activeSessions {
        assert view.logs - {sessionId} == view.logs;
        return false;
      }
      var session := activeSessions[sessionId];
      activeSessions := activeSessions - {sessionId};
      session.Destroy();
      view := RegistrySpec.DestroySession(view, sessionId).0;
      ok := true;
      assert Contents().logs == old(Contents()).logs - {sessionId};
    }

    method DisconnectUser(username: string) returns (ok: bool)
      requires Valid()
      modifies this, activeSessions.Values
      ensures Valid()
      ensures (View(), ok) == RegistrySpec.DisconnectUser(old(View()), username)
      ensures activeSessions.Values <= old(activeSessions.Values)
    {
      if username !in userConnections {
        return false;
      }
      DisconnectUserPreservesSymmetry(view, username);
      var connectedTo := userConnections[username];
      userConnections := userConnections - {username} - {connectedTo};
      view := view.(pairs := userConnections);
      assert Contents() == view;
      var _ := DestroySession(GenerateSessionId(username, connectedTo));
      ok := true;
    }

    /** `getOrCreateSession` (`computeIfAbsent`): an existing session object is handed back as is. */
    method GetOrCreateSession(user1: string, user2: string) returns (session: ChatSession)
      requires Valid()
      modifies this
      ensures Valid()
      ensures View() == RegistrySpec.GetOrCreateSession(old(View()), user1, user2)
      ensures var id := GenerateSessionId(user1, user2);
              session.sessionId == id && id in activeSessions && activeSessions[id] == session
      ensures var id := GenerateSessionId(user1, user2);
              id in old(activeSessions) ==> session == old(activeSessions[id])
      ensures session in old(activeSessions.Values) || fresh(session)
      ensures forall s :: s in activeSessions.Values ==> s in old(activeSessions.Values) || fresh(s)
    {
      var sessionId := GenerateSessionId(user1, user2);
      if sessionId in activeSessions {
        return activeSessions[sessionId];
      }
      var _ := CreateSession(user1, user2);
      session := activeSessions[sessionId];
    }

    method AddMessage(sessionId: string, message: Message)
      requires Valid()
      modifies this, if sessionId in activeSessions then {activeSessions[sessionId]} else {}
      ensures Valid()
      ensures View() == RegistrySpec.AddMessage(old(View()), sessionId, message)
    {
      if sessionId in activeSessions {
        var session := activeSessions[sessionId];
        session.AddMessage(message);
        view := RegistrySpec.AddMessage(view, sessionId, message);
        assert Contents().logs == old(Contents()).logs[sessionId := old(Contents()).logs[sessionId] + [message]];
      }
    }

    method ClearSession(sessionId: string) returns (ok: bool)
      requires Valid()
      modifies this, if sessionId in activeSessions then {activeSessions[sessionId]} else {}
      ensures Valid()
      ensures (View(), ok) == RegistrySpec.ClearSession(old(View()), sessionId)
    {
      if sessionId in activeSessions && !activeSessions[sessionId].destroyed {
        var session := activeSessions[sessionId];
        session.ClearMessages();
        view := RegistrySpec.ClearSession(view, sessionId).0;
        assert Contents().logs == old(Contents()).logs[sessionId := []];
        return true;
      }
      return false;
    }

    /** `shutdown`: the table is emptied (the scheduler thread pool is not modelled). */
    method Shutdown()
      requires Valid()
      modifies this
      ensures Valid()
      ensures View() == RegistrySpec.Shutdown(old(View()))
    {
      activeSessions := map[];
      view := RegistrySpec.Shutdown(view);
    }
  }
}
