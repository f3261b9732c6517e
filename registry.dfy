/**
 * The state of `ChatSessionManager` as a value, and each of its operations as a function on
 * that value. `pairs` is `userConnections` (user -> partner); `logs` maps every session id in
 * `activeSessions` to that session's message list. A session held in the table is never
 * destroyed (destruction always removes it first), so the `destroyed` flag has no value-level
 * counterpart; the class in session_manager.dfy keeps it and proves that invariant.
 */
module RegistrySpec {
  import opened Wrappers
  import opened JavaStrings
  import opened Messages

  datatype Registry = Registry(pairs: map<string, string>, logs: map<string, seq<Message>>)

  /** `generateSessionId`: sort the two names with `compareTo` and join them with "_". */
  function GenerateSessionId(user1: string, user2: string): string {
    if CompareTo(user1, user2) <= 0 then user1 + "_" + user2 else user2 + "_" + user1
  }

  /** Either ordering of the two users maps to the same session. */
  lemma SessionIdSymmetric(a: string, b: string)
    ensures GenerateSessionId(a, b) == GenerateSessionId(b, a)
  {
    CompareToAntisymmetric(a, b);
    CompareToZero(a, b);
  }

  /** The id is the smaller name, "_", the larger name, in `compareTo` order. */
  lemma SessionIdIsSortedPair(a: string, b: string)
    ensures CompareTo(a, b) <= 0 ==> GenerateSessionId(a, b) == a + "_" + b
    ensures CompareTo(a, b) >= 0 ==> GenerateSessionId(a, b) == b + "_" + a
  {
    CompareToZero(a, b);
  }

  /** Pairing is a symmetric relation: the partner of a partner is the user. */
  ghost predicate Symmetric(pairs: map<string, string>) {
    forall u :: u in pairs ==> pairs[u] in pairs && pairs[pairs[u]] == u
  }

  /** The partner of `u`, as `getConnectedUser` (`null` when unpaired). */
  function PartnerOf(r: Registry, u: string): Option<string> {
    if u in r.pairs then Some(r.pairs[u]) else None
  }

  /** `createSession`: a fresh empty session under the sorted id, replacing any old one (`put`). */
  function CreateSession(r: Registry, user1: string, user2: string): (res: (Registry, string))
    ensures res.1 == GenerateSessionId(user1, user2)
    ensures res.0.pairs == r.pairs
    ensures res.0.logs.Keys == r.logs.Keys + {res.1} && res.0.logs[res.1] == []
    ensures forall id :: id in r.logs && id != res.1 ==> res.0.logs[id] == r.logs[id]
  {
    var id := GenerateSessionId(user1, user2);
    (r.(logs := r.logs[id := []]), id)
  }

  /** `connectUsers`: refuses when either user is already paired, otherwise pairs them both ways. */
  function ConnectUsers(r: Registry, user1: string, user2: string): (res: (Registry, bool))
    ensures res.1 <==> user1 !in r.pairs && user2 !in r.pairs
    ensures !res.1 ==> res.0 == r
    ensures res.1 ==> PartnerOf(res.0, user1) == Some(user2) && PartnerOf(res.0, user2) == Some(user1)
    ensures res.1 ==> res.0.pairs.Keys == r.pairs.Keys + {user1, user2}
    ensures res.1 ==> forall u :: u in r.pairs ==> res.0.pairs[u] == r.pairs[u]
    ensures res.1 ==> res.0 == CreateSession(r.(pairs := res.0.pairs), user1, user2).0
  {
    if user1 in r.pairs || user2 in r.pairs then (r, false)
    else
      var r1 := r.(pairs := r.pairs[user1 := user2][user2 := user1]);
      (CreateSession(r1, user1, user2).0, true)
  }

  /** `connectUsers` keeps the pairing symmetric. */
  lemma ConnectUsersPreservesSymmetry(r: Registry, user1: string, user2: string)
    requires Symmetric(r.pairs)
    ensures Symmetric(ConnectUsers(r, user1, user2).0.pairs)
  {
  }

  /** `destroySession`: removes the session when present and reports whether it was. */
  function DestroySession(r: Registry, sessionId: string): (res: (Registry, bool))
    ensures res.1 <==> sessionId in r.logs
    ensures res.0.pairs == r.pairs && res.0.logs == r.logs - {sessionId}
  {
    (r.(logs := r.logs - {sessionId}), sessionId in r.logs)
  }

  /** A second `destroySession` of the same id returns false and changes nothing. */
  lemma DestroySessionIdempotent(r: Registry, sessionId: string)
    ensures var (r1, _) := DestroySession(r, sessionId);
            DestroySession(r1, sessionId) == (r1, false)
  {
    var r1 := DestroySession(r, sessionId).0;
    assert r1.logs - {sessionId} == r1.logs;
  }

  /**
   * `disconnectUser`: when `u` is paired, removes both reciprocal entries and the session
   * of the pair; otherwise returns false with no change.
   */
  function DisconnectUser(r: Registry, u: string): (res: (Registry, bool))
    ensures res.1 <==> u in r.pairs
    ensures !res.1 ==> res.0 == r
    ensures res.1 ==> res.0.pairs == r.pairs - {u, r.pairs[u]}
    ensures res.1 ==> res.0.logs == r.logs - {GenerateSessionId(u, r.pairs[u])}
  {
    if u in r.pairs then
      var partner := r.pairs[u];
      var r1 := r.(pairs := r.pairs - {u} - {partner});
      (DestroySession(r1, GenerateSessionId(u, partner)).0, true)
    else (r, false)
  }

  /** `disconnectUser` keeps the pairing symmetric, and leaves neither former partner paired. */
  lemma DisconnectUserPreservesSymmetry(r: Registry, u: string)
    requires Symmetric(r.pairs)
    ensures Symmetric(DisconnectUser(r, u).0.pairs)
    ensures u in r.pairs ==> u !in DisconnectUser(r, u).0.pairs && r.pairs[u] !in DisconnectUser(r, u).0.pairs
  {
    var r' := DisconnectUser(r, u).0;
    if u in r.pairs {
      forall x | x in r'.pairs ensures r'.pairs[x] in r'.pairs && r'.pairs[r'.pairs[x]] == x {
        assert r.pairs[r.pairs[x]] == x;
      }
    }
  }

  /** `getOrCreateSession`: an existing session is returned unchanged; only a missing one is created. */
  function GetOrCreateSession(r: Registry, user1: string, user2: string): (r': Registry)
    ensures GenerateSessionId(user1, user2) in r'.logs
    ensures r'.pairs == r.pairs
    ensures GenerateSessionId(user1, user2) in r.logs ==> r' == r
    ensures GenerateSessionId(user1, user2) !in r.logs ==> r' == CreateSession(r, user1, user2).0
  {
    var id := GenerateSessionId(user1, user2);
    if id in r.logs then r else CreateSession(r, user1, user2).0
  }

  /**
   * `addMessage`: appends exactly `m` at the end of the log of `sessionId` when that session
   * is live; every other session, and a missing one, is unchanged.
   */
  function AddMessage(r: Registry, sessionId: string, m: Message): (r': Registry)
    ensures r'.pairs == r.pairs && r'.logs.Keys == r.logs.Keys
    ensures sessionId in r.logs ==> r'.logs[sessionId] == r.logs[sessionId] + [m]
    ensures forall id :: id in r.logs && id != sessionId ==> r'.logs[id] == r.logs[id]
  {
    if sessionId in r.logs then r.(logs := r.logs[sessionId := r.logs[sessionId] + [m]]) else r
  }

  /** `clearSession`: true exactly for a live session, whose log is emptied; it stays in the table. */
  function ClearSession(r: Registry, sessionId: string): (res: (Registry, bool))
    ensures res.1 <==> sessionId in r.logs
    ensures res.0.pairs == r.pairs && res.0.logs.Keys == r.logs.Keys
    ensures res.1 ==> res.0.logs[sessionId] == []
    ensures forall id :: id in r.logs && id != sessionId ==> res.0.logs[id] == r.logs[id]
  {
    if sessionId in r.logs then (r.(logs := r.logs[sessionId := []]), true) else (r, false)
  }

  /** `isSessionActive`: present in the table (and therefore not destroyed). */
  predicate IsSessionActive(r: Registry, sessionId: string) {
    sessionId in r.logs
  }

  /** `shutdown`: every session is dropped; the pairing map is left as it was. */
  function Shutdown(r: Registry): (r': Registry)
    ensures r'.pairs == r.pairs && r'.logs == map[]
  {
    r.(logs := map[])
  }

  /**
   * The quirk of CLEAR_CHAT and DESTROY_CHAT: both first call `getOrCreateSession`, so the
   * `clearSession` / `destroySession` that follows always succeeds, paired or not.
   */
  lemma ClearAfterGetOrCreateSucceeds(r: Registry, user1: string, user2: string)
    ensures ClearSession(GetOrCreateSession(r, user1, user2), GenerateSessionId(user1, user2)).1
    ensures DestroySession(GetOrCreateSession(r, user1, user2), GenerateSessionId(user1, user2)).1
  {
  }
}
