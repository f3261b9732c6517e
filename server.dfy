/**
 * `server.ClientHandler` as imperative code. One `ClientHandlers` object holds, side by side,
 * the fields of every `ClientHandler` instance (`handlers`), the static `connectedClients`,
 * `typingStatus` and `lastTypingTime` maps, and the `ChatSessionManager` singleton. Every
 * method updates those fields through the same calls as the Java code (two reorderings that
 * end in the same state are noted where they occur) and is proved to move `State()` exactly
 * as the corresponding step of protocol.dfy; the public steps also keep `Valid()`, by the
 * preservation lemmas of protocol_invariant.dfy. The countdown `Runnable` of
 * `startCountdownTimer` is the class `CountdownTask`.
 */
module Server {
  import opened Wrappers
  import opened JavaStrings
  import opened Messages
  import opened CryptoAdapter
  import opened RegistrySpec
  import opened SessionManager
  import opened Protocol
  import opened ProtocolLemmas
  import opened ProtocolInvariant

  class ClientHandlers {
    const crypto: Crypto
    const manager: ChatSessionManager
    var handlers: map<HandlerId, Handler>
    var connectedClients: map<string, HandlerId>
    var typingStatus: map<string, bool>
    var lastTypingTime: map<string, int>
    /** Counters standing for the fresh ids of `new Message` and fresh `ClientHandler` objects. */
    var nextId: nat
    var nextHandler: nat

    /** The fields as a `Protocol.World`, the registry given by the manager's `View()`. */
    ghost function State(): World
      reads this, manager
    {
      World(crypto, manager.View(), handlers, connectedClients, typingStatus, lastTypingTime, nextId, nextHandler)
    }

    ghost predicate Valid()
      reads this, manager, manager.activeSessions.Values
    {
      manager.Valid() && Inv(State())
    }

    constructor (crypto: Crypto)
      ensures Valid() && fresh(manager)
      ensures State() == World(crypto, Registry(map[], map[]), map[], map[], map[], map[], 0, 0)
    {
      this.crypto := crypto;
      manager := new ChatSessionManager();
      handlers := map[];
      connectedClients := map[];
      typingStatus := map[];
      lastTypingTime := map[];
      nextId := 0;
      nextHandler := 0;
    }

    /** `connectedClients.get(u)`, as a handler that exists. */
    function ClientFor(u: string): (r: Option<HandlerId>)
      reads this
      ensures r.Some? ==> r.value in handlers && u in connectedClients && connectedClients[u] == r.value
      ensures r.None? ==> u !in connectedClients || connectedClients[u] !in handlers
    {
      if u in connectedClients && connectedClients[u] in handlers then Some(connectedClients[u]) else None
    }

    /** `new Message(sender, receiver, content, t)`: the next id is drawn. */
    method NewMessage(sender: string, receiver: string, content: string, t: MessageType) returns (m: Message)
      modifies this`nextId
      ensures nextId == old(nextId) + 1
      ensures m == Create(sender, receiver, content, t, MessageId(old(nextId)))
    {
      m := Create(sender, receiver, content, t, MessageId(nextId));
      nextId := nextId + 1;
    }

    /** `h.sendMessage(m)`: the message is appended to `h`'s stream (write failures are not modelled). */
    method SendMessage(h: HandlerId, m: Message)
      modifies this`handlers
      ensures old(manager.Valid()) ==> manager.Valid()
      ensures State() == Protocol.Send(old(State()), h, m)
    {
      if h in handlers {
        handlers := handlers[h := handlers[h].(outbox := handlers[h].outbox + [m])];
      }
    }

    /** `sendMessage(new Message("SERVER", receiver, content, t))` on handler `h`. */
    method Notify(h: HandlerId, receiver: string, content: string, t: MessageType)
      modifies this`handlers, this`nextId
      ensures old(manager.Valid()) ==> manager.Valid()
      ensures State() == Protocol.Notify(old(State()), h, receiver, content, t)
    {
      var m := NewMessage("SERVER", receiver, content, t);
      SendMessage(h, m);
    }

    /**
     * The message to the client registered as `u`, if any: built with sender "SERVER" and
     * relabelled with `sender` (a no-op when `sender` is "SERVER").
     */
    method NotifyUser(u: string, sender: string, content: string, t: MessageType)
      modifies this`handlers, this`nextId
      ensures old(manager.Valid()) ==> manager.Valid()
      ensures State() == Protocol.NotifyUser(old(State()), u, sender, content, t)
    {
      var target := ClientFor(u);
      if target.Some? {
        var m := NewMessage("SERVER", u, content, t);
        SendMessage(target.value, m.WithSender(sender));
      }
    }

    /** `disconnect()` of handler `h`. */
    method Disconnect(h: HandlerId)
      requires manager.Valid()
      modifies this, manager, manager.activeSessions.Values
      ensures manager.Valid()
      ensures manager.activeSessions.Values <= old(manager.activeSessions.Values)
      ensures State() == Protocol.Disconnect(old(State()), h)
    {
      if h !in handlers {
        return;
      }
      ghost var w1 := old(State()).(handlers := handlers[h := handlers[h].(isConnected := false)]);
      handlers := handlers[h := handlers[h].(isConnected := false)];
      assert State() == w1;
      match handlers[h].username
      case None =>
      case Some(u) =>
        var connectedTo := manager.GetConnectedUser(u);
        ghost var w2 := w1;
        if connectedTo.Some? {
          var _ := manager.DisconnectUser(u);
          assert State() == w1.(registry := RegistrySpec.DisconnectUser(w1.registry, u).0);
          NotifyUser(connectedTo.value, "SERVER", LeftNotice(u), MessageType.System);
          w2 := State();
        }
        connectedClients := connectedClients - {u};
        assert State() == w2.(connectedClients := w2.connectedClients - {u});
    }

    /** The JOIN branch of `run`, on the first message read by `h`. */
    method Authenticate(h: HandlerId, m: Message)
      requires manager.Valid() && h in handlers
      modifies this, manager, manager.activeSessions.Values
      ensures manager.Valid()
      ensures State() == Protocol.Authenticate(old(State()), h, m)
    {
      if m.messageType != Join {
        return;
      }
      var requestedUsername := m.sender;
      if requestedUsername in connectedClients {
        Notify(h, requestedUsername, TakenText(requestedUsername), MessageType.System);
        Disconnect(h);
        return;
      }
      ghost var w := old(State());
      ghost var w1 := w.(handlers := w.handlers[h := w.handlers[h].(username := Some(requestedUsername))],
                         connectedClients := w.connectedClients[requestedUsername := h]);
      assert Protocol.Authenticate(w, h, m) == Protocol.Notify(w1, h, requestedUsername, "Welcome to Secure Chat!", MessageType.System);
      handlers := handlers[h := handlers[h].(username := Some(requestedUsername))];
      connectedClients := connectedClients[requestedUsername := h];
      assert State() == w1;
      Notify(h, requestedUsername, "Welcome to Secure Chat!", MessageType.System);
    }

    method HandleConnectRequest(h: HandlerId, m: Message)
      requires manager.Valid()
      modifies this
      ensures manager.Valid()
      ensures State() == Protocol.HandleConnectRequest(old(State()), h, m)
    {
      var requester, target := m.sender, m.receiver;
      if manager.IsUserConnected(requester) {
        var partner := manager.GetConnectedUser(requester);
        Notify(h, requester, "You are already connected to " + partner.value
                             + ". Disconnect first to connect to someone else.", MessageType.System);
        return;
      }
      if manager.IsUserConnected(target) {
        Notify(h, requester, target + " is already in a chat with someone else.", MessageType.System);
        return;
      }
      var targetClient := ClientFor(target);
      if targetClient.Some? {
        NotifyUser(target, requester, requester + " wants to start a chat with you. Accept?", MessageType.ConnectRequest);
        Notify(h, requester, "Connection request sent to " + target + ". Waiting for response...", MessageType.System);
      } else {
        Notify(h, requester, target + " is not online.", MessageType.System);
      }
    }

    method HandleConnectAccept(h: HandlerId, m: Message)
      requires manager.Valid()
      modifies this, manager
      ensures manager.Valid()
      ensures State() == Protocol.HandleConnectAccept(old(State()), h, m)
    {
      var accepter, requester := m.sender, m.receiver;
      var ok := manager.ConnectUsers(accepter, requester);
      if ok {
        Notify(h, accepter, ConnectedNotice(requester), MessageType.System);
        NotifyUser(requester, "SERVER", AcceptedNotice(accepter), MessageType.System);
      } else {
        Notify(h, accepter, ConnectFailedText, MessageType.System);
      }
    }

    method HandleConnectReject(h: HandlerId, m: Message)
      modifies this
      ensures old(manager.Valid()) ==> manager.Valid()
      ensures State() == Protocol.HandleConnectReject(old(State()), h, m)
    {
      var rejecter, requester := m.sender, m.receiver;
      NotifyUser(requester, "SERVER", rejecter + " declined your connection request.", MessageType.System);
      Notify(h, rejecter, "You declined the connection request from " + requester + ".", MessageType.System);
    }

    method HandleDisconnectRequest(h: HandlerId, m: Message)
      requires manager.Valid()
      modifies this, manager, manager.activeSessions.Values
      ensures manager.Valid()
      ensures State() == Protocol.HandleDisconnectRequest(old(State()), h, m)
    {
      var user := m.sender;
      var connectedTo := manager.GetConnectedUser(user);
      if connectedTo.Some? {
        var _ := manager.DisconnectUser(user);
        assert State() == old(State()).(registry := RegistrySpec.DisconnectUser(old(State()).registry, user).0);
        Notify(h, user, DisconnectedNotice(connectedTo.value), MessageType.System);
        NotifyUser(connectedTo.value, "SERVER", PartnerDisconnectedNotice(user), MessageType.System);
      } else {
        Notify(h, user, "You are not currently connected to anyone.", MessageType.System);
      }
    }

    /** `handleTextMessage`; a decryption that throws leaves everything as it was. */
    method HandleTextMessage(h: HandlerId, m: Message)
      requires manager.Valid() && h in handlers
      modifies this, manager, manager.activeSessions.Values
      ensures manager.Valid()
      ensures State() == Protocol.HandleText(old(State()), h, m)
    {
      var sender, receiver := m.sender, m.receiver;
      var connectedTo := manager.GetConnectedUser(sender);
      if connectedTo.None? || connectedTo.value != receiver {
        Notify(h, sender, "You are not connected to " + receiver + ". Send a connection request first.",
               MessageType.System);
        return;
      }
      var decryptedContent := crypto.decrypt(m.content, handlers[h].sessionKey);
      if decryptedContent.None? {
        return;
      }
      var plain := decryptedContent.value;
      if m.digitalSignature.Some? && m.signerPublicKey.Some? {
        var signatureValid := crypto.verifySignature(plain, m.digitalSignature.value, m.signerPublicKey.value);
        if !signatureValid {
          Notify(h, sender, TamperWarning, MessageType.System);
          return;
        }
      }
      StoreAndForwardText(h, m, plain);
    }

    /** `getOrCreateSession(sender, receiver)` and then `addMessage` of `entry` to that session. */
    method LogMessage(sender: string, receiver: string, entry: Message)
      requires manager.Valid()
      modifies manager, manager.activeSessions.Values
      ensures manager.Valid()
      ensures State() == Protocol.Log(old(State()), sender, receiver, entry)
    {
      var session := manager.GetOrCreateSession(sender, receiver);
      var sessionId := session.sessionId;
      manager.AddMessage(sessionId, entry);
    }

    /**
     * The store-and-forward half of `handleTextMessage`, after decryption and the signature
     * check. The Java object is logged and then re-encrypted and marked DELIVERED in place, so
     * the log ends up holding its final state: here that final state is computed first and
     * logged.
     */
    method StoreAndForwardText(h: HandlerId, m: Message, plain: string)
      requires manager.Valid()
      modifies this, manager, manager.activeSessions.Values
      ensures manager.Valid()
      ensures State() == Protocol.StoreAndForwardText(old(State()), h, m, plain)
    {
      var sender, receiver := m.sender, m.receiver;
      var message := m.WithContent(plain);
      var recipient := ClientFor(receiver);
      if recipient.Some? {
        message := message.WithContent(crypto.encrypt(plain, handlers[recipient.value].sessionKey))
                          .WithDeliveryStatus(Delivered);
        LogMessage(sender, receiver, message);
        SendMessage(recipient.value, message);
        Notify(h, sender, DeliveredText(message.messageId), MessageType.DeliveryReceipt);
      } else {
        LogMessage(sender, receiver, message);
        Notify(h, sender, "User " + receiver + " is offline", MessageType.System);
      }
    }

    /** `handleFileMessage`: no pairing check; the file itself is not saved (`saveFile` is disk I/O). */
    method HandleFileMessage(h: HandlerId, m: Message)
      requires manager.Valid() && h in handlers
      modifies this, manager, manager.activeSessions.Values
      ensures manager.Valid()
      ensures State() == Protocol.HandleFile(old(State()), h, m)
    {
      var sender, receiver := m.sender, m.receiver;
      var decryptedFile := crypto.decryptBytes(m.fileData, handlers[h].sessionKey);
      if decryptedFile.None? {
        return;
      }
      var message := m.WithFileData(decryptedFile.value);
      var recipient := ClientFor(receiver);
      if recipient.Some? {
        message := message.WithFileData(crypto.encryptBytes(decryptedFile.value, handlers[recipient.value].sessionKey));
        LogMessage(sender, receiver, message);
        SendMessage(recipient.value, message);
      } else {
        LogMessage(sender, receiver, message);
        Notify(h, sender, "User " + receiver + " is offline", MessageType.System);
      }
    }

    /** `getOrCreateSession(sender, receiver)` and then `clearSession` of its id. */
    method ClearPairSession(sender: string, receiver: string) returns (ok: bool)
      requires manager.Valid()
      modifies manager, manager.activeSessions.Values
      ensures manager.Valid()
      ensures var (reg, cleared) := RegistrySpec.ClearSession(GetOrCreateSession(old(State()).registry, sender, receiver),
                                                            GenerateSessionId(sender, receiver));
              State() == old(State()).(registry := reg) && ok == cleared
    {
      var session := manager.GetOrCreateSession(sender, receiver);
      var sessionId := session.sessionId;
      ok := manager.ClearSession(sessionId);
    }

    /** `handleClearChatMessage`: the pair's history is emptied and both users are told. */
    method HandleClearChat(h: HandlerId, m: Message)
      requires manager.Valid()
      modifies this, manager, manager.activeSessions.Values
      ensures manager.Valid()
      ensures State() == Protocol.HandleClearChat(old(State()), h, m)
    {
      var sender, receiver := m.sender, m.receiver;
      var ok := ClearPairSession(sender, receiver);
      if ok {
        Notify(h, sender, "Chat history cleared for both users", MessageType.System);
        NotifyUser(receiver, "SERVER", "Chat history cleared by " + sender, MessageType.System);
        NotifyUser(receiver, "SERVER", "CLEAR_CHAT_AREA", MessageType.ClearLocalChat);
      }
    }

    method HandleClearLocalChat(h: HandlerId, m: Message)
      modifies this
      ensures old(manager.Valid()) ==> manager.Valid()
      ensures State() == Protocol.HandleClearLocalChat(old(State()), h, m)
    {
      Notify(h, m.sender, "Your local chat history cleared", MessageType.System);
    }

    /** `getOrCreateSession(sender, receiver)` and then `destroySession` of its id. */
    method DestroyPairSession(sender: string, receiver: string) returns (ok: bool)
      requires manager.Valid()
      modifies manager, manager.activeSessions.Values
      ensures manager.Valid()
      ensures forall s :: s in manager.activeSessions.Values ==> s in old(manager.activeSessions.Values) || fresh(s)
      ensures var (reg, destroyed) := RegistrySpec.DestroySession(GetOrCreateSession(old(State()).registry, sender, receiver),
                                                                GenerateSessionId(sender, receiver));
              State() == old(State()).(registry := reg) && ok == destroyed
    {
      var session := manager.GetOrCreateSession(sender, receiver);
      var sessionId := session.sessionId;
      ok := manager.DestroySession(sessionId);
    }

    /** `handleDestroyChatMessage`; the delayed disconnects of its thread happen in this step. */
    method HandleDestroyChat(h: HandlerId, m: Message)
      requires manager.Valid()
      modifies this, manager, manager.activeSessions.Values
      ensures manager.Valid()
      ensures State() == Protocol.HandleDestroyChat(old(State()), h, m)
    {
      var sender, receiver := m.sender, m.receiver;
      var ok := DestroyPairSession(sender, receiver);
      if ok {
        CloseBoth(h, sender, receiver);
      }
    }

    /** The success branch of `handleDestroyChatMessage`. */
    method CloseBoth(h: HandlerId, sender: string, receiver: string)
      requires manager.Valid()
      modifies this, manager, manager.activeSessions.Values
      ensures manager.Valid()
      ensures State() == Protocol.CloseBoth(old(State()), h, sender, receiver)
    {
      var otherUser := ClientFor(receiver);
      Notify(h, sender, "CLOSE_APPLICATION", MessageType.DestroyChat);
      if otherUser.Some? {
        Notify(otherUser.value, receiver, "CLOSE_APPLICATION", MessageType.DestroyChat);
      }
      Disconnect(h);
      if otherUser.Some? {
        Disconnect(otherUser.value);
      }
    }

    /** `handleSetTimerMessage`: the notices, and the countdown task it schedules. */
    method HandleSetTimer(h: HandlerId, m: Message) returns (task: CountdownTask)
      requires manager.Valid()
      modifies this, manager
      ensures manager.Valid()
      ensures fresh(task)
      ensures State() == Protocol.HandleSetTimer(old(State()), h, m).0
      ensures task.Snapshot() == Protocol.HandleSetTimer(old(State()), h, m).1
    {
      var sender, receiver := m.sender, m.receiver;
      var sessionId := PairSessionId(sender, receiver);
      var timerSeconds := m.timerDuration;
      AnnounceTimer(h, sender, receiver, timerSeconds);
      task := new CountdownTask(sessionId, timerSeconds, sender, receiver);
    }

    /** `getOrCreateSession(sender, receiver).getSessionId()`. */
    method PairSessionId(sender: string, receiver: string) returns (sessionId: string)
      requires manager.Valid()
      modifies manager
      ensures manager.Valid()
      ensures sessionId == GenerateSessionId(sender, receiver)
      ensures State() == old(State()).(registry := GetOrCreateSession(old(State()).registry, sender, receiver))
    {
      var session := manager.GetOrCreateSession(sender, receiver);
      sessionId := session.sessionId;
    }

    /** The two notices of `handleSetTimerMessage`: to the sender, then to an online receiver. */
    method AnnounceTimer(h: HandlerId, sender: string, receiver: string, timerSeconds: int)
      modifies this`handlers, this`nextId
      ensures old(manager.Valid()) ==> manager.Valid()
      ensures var text := TimerSetText(timerSeconds);
              State() == Protocol.NotifyUser(Protocol.Notify(old(State()), h, sender, text, MessageType.System),
                                             receiver, "SERVER", text + " (set by " + sender + ")", MessageType.System)
    {
      var timerMsg := TimerSetText(timerSeconds);
      Notify(h, sender, timerMsg, MessageType.System);
      NotifyUser(receiver, "SERVER", timerMsg + " (set by " + sender + ")", MessageType.System);
    }

    /** One TIMER_UPDATE of the countdown, carrying `remaining`, to handler `h`. */
    method SendTimerUpdate(h: HandlerId, user: string, remaining: int)
      modifies this`handlers, this`nextId
      ensures old(manager.Valid()) ==> manager.Valid()
      ensures State() == Protocol.SendTimerUpdate(old(State()), h, user, remaining)
    {
      var timerUpdate := NewMessage("SERVER", user, "TIMER_UPDATE", TimerUpdate);
      SendMessage(h, timerUpdate.WithTimerDuration(remaining));
    }

    /** The two TIMER_UPDATEs of one countdown run, to `u1` on `h1` and then to `u2` on `h2`. */
    method SendTimerUpdates(h1: HandlerId, u1: string, h2: HandlerId, u2: string, remaining: int)
      requires Valid()
      modifies this`handlers, this`nextId
      ensures Valid()
      ensures State() == Protocol.SendTimerUpdate(Protocol.SendTimerUpdate(old(State()), h1, u1, remaining), h2, u2, remaining)
    {
      SendTimerUpdateKeepsInv(State(), h1, u1, remaining);
      SendTimerUpdate(h1, u1, remaining);
      SendTimerUpdateKeepsInv(State(), h2, u2, remaining);
      SendTimerUpdate(h2, u2, remaining);
    }

    /** `handleTimerExpiration`; the one-second delay before the disconnects is not modelled. */
    method HandleTimerExpiration(sessionId: string, user1: string, user2: string)
      requires manager.Valid()
      modifies this, manager, manager.activeSessions.Values
      ensures manager.Valid()
      ensures State() == Protocol.HandleTimerExpiration(old(State()), sessionId, user1, user2)
    {
      var user1Handler := ClientFor(user1);
      var user2Handler := ClientFor(user2);
      NotifyExpired(user1Handler, user1);
      NotifyExpired(user2Handler, user2);
      var _ := manager.DestroySession(sessionId);
      DisconnectIfOnline(user1Handler);
      DisconnectIfOnline(user2Handler);
    }

    /** The TIMER_EXPIRED notice to a user's handler, when the user was online. */
    method NotifyExpired(h: Option<HandlerId>, user: string)
      modifies this`handlers, this`nextId
      ensures old(manager.Valid()) ==> manager.Valid()
      ensures State() == if h.Some? then Protocol.Notify(old(State()), h.value, user, "TIMER_EXPIRED", TimerExpired)
                         else old(State())
    {
      if h.Some? {
        Notify(h.value, user, "TIMER_EXPIRED", TimerExpired);
      }
    }

    /** The `disconnect()` of a user's handler, when the user was online. */
    method DisconnectIfOnline(h: Option<HandlerId>)
      requires manager.Valid()
      modifies this, manager, manager.activeSessions.Values
      ensures manager.Valid()
      ensures manager.activeSessions.Values <= old(manager.activeSessions.Values)
      ensures State() == if h.Some? then Protocol.Disconnect(old(State()), h.value) else old(State())
    {
      if h.Some? {
        Disconnect(h.value);
      }
    }

    method HandleHeartbeat(h: HandlerId, m: Message)
      modifies this`handlers, this`nextId
      ensures old(manager.Valid()) ==> manager.Valid()
      ensures State() == Protocol.HandleHeartbeat(old(State()), h, m)
    {
      Notify(h, m.sender, "HEARTBEAT_ACK", MessageType.Heartbeat);
    }

    /** `handleTypingStart` at time `now`; the timeout thread it starts is `TypingTimeout`. */
    method HandleTypingStart(m: Message, now: int)
      modifies this`handlers, this`nextId, this`typingStatus, this`lastTypingTime
      ensures old(manager.Valid()) ==> manager.Valid()
      ensures State() == Protocol.HandleTypingStart(old(State()), m, now)
    {
      var sender, receiver := m.sender, m.receiver;
      typingStatus := typingStatus[sender := true];
      lastTypingTime := lastTypingTime[sender := now];
      NotifyUser(receiver, sender, sender + " is typing...", MessageType.TypingStart);
    }

    method HandleTypingStop(m: Message)
      modifies this`handlers, this`nextId, this`typingStatus, this`lastTypingTime
      ensures old(manager.Valid()) ==> manager.Valid()
      ensures State() == Protocol.HandleTypingStop(old(State()), m)
    {
      var sender, receiver := m.sender, m.receiver;
      typingStatus := typingStatus[sender := false];
      lastTypingTime := lastTypingTime - {sender};
      NotifyUser(receiver, sender, "TYPING_STOP", MessageType.TypingStop);
    }

    /** `handleReadReceipt`: every "READ:" of the content is removed before relaying. */
    method HandleReadReceipt(m: Message)
      modifies this`handlers, this`nextId
      ensures old(manager.Valid()) ==> manager.Valid()
      ensures State() == Protocol.HandleReadReceipt(old(State()), m)
    {
      var messageId := RemoveAll(m.content, "READ:");
      NotifyUser(m.receiver, m.sender, "READ:" + messageId, MessageType.ReadReceipt);
    }

    /** `handleMessage`: the switch on the message type, grouped by kind as in protocol.dfy. */
    method HandleMessage(h: HandlerId, m: Message, now: int) returns (task: Option<CountdownTask>)
      requires manager.Valid() && h in handlers
      modifies this, manager, manager.activeSessions.Values
      ensures manager.Valid()
      ensures task.None? ==> Protocol.HandleMessage(old(State()), h, m, now) == (State(), None)
      ensures task.Some? ==> fresh(task.value)
                             && Protocol.HandleMessage(old(State()), h, m, now) == (State(), Some(task.value.Snapshot()))
    {
      ghost var w := State();
      task := None;
      match m.messageType
      case SetTimer =>
        var countdown := HandleTimerMessage(h, m, now);
        task := Some(countdown);
      case Text | File | ClearChat | ClearLocalChat | DestroyChat =>
        assert Protocol.HandleMessage(w, h, m, now) == (Protocol.HandleHistoryMessage(w, h, m), None);
        HandleHistoryMessage(h, m);
      case ConnectRequest | ConnectAccept | ConnectReject | DisconnectRequest =>
        assert Protocol.HandleMessage(w, h, m, now) == (Protocol.HandlePairingMessage(w, h, m), None);
        HandlePairingMessage(h, m);
      case _ =>
        assert Protocol.HandleMessage(w, h, m, now) == (Protocol.HandlePresenceMessage(w, h, m, now), None);
        HandlePresenceMessage(h, m, now);
    }

    /** The SET_TIMER case of `handleMessage`. */
    method HandleTimerMessage(h: HandlerId, m: Message, now: int) returns (task: CountdownTask)
      requires manager.Valid() && h in handlers && m.messageType == SetTimer
      modifies this, manager
      ensures manager.Valid()
      ensures fresh(task)
      ensures Protocol.HandleMessage(old(State()), h, m, now) == (State(), Some(task.Snapshot()))
    {
      task := HandleSetTimer(h, m);
    }

    method HandleHistoryMessage(h: HandlerId, m: Message)
      requires manager.Valid() && h in handlers
      modifies this, manager, manager.activeSessions.Values
      ensures manager.Valid()
      ensures State() == Protocol.HandleHistoryMessage(old(State()), h, m)
    {
      ghost var w := State();
      match m.messageType
      case Text =>
        assert Protocol.HandleHistoryMessage(w, h, m) == HandleText(w, h, m);
        HandleTextMessage(h, m);
      case File =>
        assert Protocol.HandleHistoryMessage(w, h, m) == HandleFile(w, h, m);
        HandleFileMessage(h, m);
      case ClearChat =>
        assert Protocol.HandleHistoryMessage(w, h, m) == Protocol.HandleClearChat(w, h, m);
        HandleClearChat(h, m);
      case ClearLocalChat =>
        assert Protocol.HandleHistoryMessage(w, h, m) == Protocol.HandleClearLocalChat(w, h, m);
        HandleClearLocalChat(h, m);
      case DestroyChat =>
        assert Protocol.HandleHistoryMessage(w, h, m) == Protocol.HandleDestroyChat(w, h, m);
        HandleDestroyChat(h, m);
      case _ =>
    }

    method HandlePairingMessage(h: HandlerId, m: Message)
      requires manager.Valid()
      modifies this, manager, manager.activeSessions.Values
      ensures manager.Valid()
      ensures State() == Protocol.HandlePairingMessage(old(State()), h, m)
    {
      match m.messageType
      case ConnectRequest => HandleConnectRequest(h, m);
      case ConnectAccept => HandleConnectAccept(h, m);
      case ConnectReject => HandleConnectReject(h, m);
      case DisconnectRequest => HandleDisconnectRequest(h, m);
      case _ =>
    }

    method HandlePresenceMessage(h: HandlerId, m: Message, now: int)
      modifies this
      ensures old(manager.Valid()) ==> manager.Valid()
      ensures State() == Protocol.HandlePresenceMessage(old(State()), h, m, now)
    {
      ghost var w := State();
      match m.messageType
      case Heartbeat =>
        assert Protocol.HandlePresenceMessage(w, h, m, now) == Protocol.HandleHeartbeat(w, h, m);
        HandleHeartbeat(h, m);
      case TypingStart =>
        assert Protocol.HandlePresenceMessage(w, h, m, now) == Protocol.HandleTypingStart(w, m, now);
        HandleTypingStart(m, now);
      case TypingStop =>
        assert Protocol.HandlePresenceMessage(w, h, m, now) == Protocol.HandleTypingStop(w, m);
        HandleTypingStop(m);
      case ReadReceipt =>
        assert Protocol.HandlePresenceMessage(w, h, m, now) == Protocol.HandleReadReceipt(w, m);
        HandleReadReceipt(m);
      case _ =>
    }

    // ---------------------------------------------------------------- the public steps

    /** `new ClientHandler(socket)`: a fresh handler whose key is sent to its client at once. */
    method Accept(key: Key) returns (h: HandlerId)
      requires Valid()
      modifies this
      ensures Valid()
      ensures (State(), h) == Protocol.Accept(old(State()), key)
    {
      AcceptKeepsInv(State(), key);
      h := nextHandler;
      handlers := handlers[h := Handler(key, None, true, true, [])];
      nextHandler := nextHandler + 1;
      Notify(h, "", crypto.keyToString(key), MessageType.System);
    }

    /** One message read by handler `h` in `run`, at time `now`. */
    method Receive(h: HandlerId, m: Message, now: int) returns (task: Option<CountdownTask>)
      requires Valid()
      modifies this, manager, manager.activeSessions.Values
      ensures Valid()
      ensures task.None? ==> Protocol.Receive(old(State()), h, m, now) == (State(), None)
      ensures task.Some? ==> fresh(task.value)
                             && Protocol.Receive(old(State()), h, m, now) == (State(), Some(task.value.Snapshot()))
    {
      ReceiveKeepsInv(State(), h, m, now);
      task := None;
      if h !in handlers || !handlers[h].isConnected {
        return;
      }
      if handlers[h].awaitingJoin {
        handlers := handlers[h := handlers[h].(awaitingJoin := false)];
        Authenticate(h, m);
        return;
      }
      task := HandleMessage(h, m, now);
    }

    /** The `disconnect()` of the `finally` block of `run`, when handler `h`'s stream ends. */
    method Close(h: HandlerId)
      requires Valid()
      modifies this, manager, manager.activeSessions.Values
      ensures Valid()
      ensures State() == Protocol.Disconnect(old(State()), h)
    {
      DisconnectKeepsInv(State(), h);
      Disconnect(h);
    }

    /** The thread of `handleTypingStart` for `sender`, waking at time `now`. */
    method TypingTimeout(sender: string, receiver: string, now: int)
      requires Valid()
      modifies this`handlers, this`nextId, this`typingStatus, this`lastTypingTime
      ensures Valid()
      ensures State() == Protocol.TypingTimeout(old(State()), sender, receiver, now)
    {
      ghost var w := State();
      TypingTimeoutKeepsInv(w, sender, receiver, now);
      if sender in lastTypingTime && now - lastTypingTime[sender] >= TypingTimeoutMillis {
        var stop := NewMessage(sender, receiver, "TYPING_STOP", MessageType.TypingStop);
        assert State() == w.(nextId := w.nextId + 1);
        HandleTypingStop(stop);
      }
    }
  }

  /** The countdown `Runnable` of `startCountdownTimer`, with its executor's running state. */
  class CountdownTask {
    const sessionId: string
    const user1: string
    const user2: string
    var remainingSeconds: int
    var running: bool

    ghost function Snapshot(): CountdownState
      reads this
    {
      CountdownState(sessionId, user1, user2, remainingSeconds, running)
    }

    constructor (sessionId: string, totalSeconds: int, user1: string, user2: string)
      ensures Snapshot() == CountdownState(sessionId, user1, user2, totalSeconds, true)
    {
      this.sessionId := sessionId;
      this.user1 := user1;
      this.user2 := user2;
      remainingSeconds := totalSeconds;
      running := true;
    }

    /** One scheduled run; `running := false` stands for `countdownExecutor.shutdown()`. */
    method Run(pool: ClientHandlers)
      requires pool.Valid()
      modifies this, pool, pool.manager, pool.manager.activeSessions.Values
      ensures pool.Valid()
      ensures pool.State() == Tick(old(pool.State()), old(Snapshot())).0
      ensures Snapshot() == Tick(old(pool.State()), old(Snapshot())).1
    {
      if !running {
        return;
      }
      if remainingSeconds > 0 {
        CountDown(pool);
      } else {
        Expire(pool);
      }
    }

    /** A run with seconds left: the updates go out while both users are online. */
    method CountDown(pool: ClientHandlers)
      requires pool.Valid() && running && remainingSeconds > 0
      modifies this, pool
      ensures pool.Valid()
      ensures pool.State() == Tick(old(pool.State()), old(Snapshot())).0
      ensures Snapshot() == Tick(old(pool.State()), old(Snapshot())).1
    {
      ghost var w, c := pool.State(), Snapshot();
      var user1Handler := pool.ClientFor(user1);
      var user2Handler := pool.ClientFor(user2);
      if user1Handler.Some? && user2Handler.Some? {
        TickWhileBothOnline(w, c, user1Handler.value, user2Handler.value);
        // The Java decrements after both sends; the count and the pool are disjoint state.
        var remaining := remainingSeconds;
        remainingSeconds := remaining - 1;
        pool.SendTimerUpdates(user1Handler.value, user1, user2Handler.value, user2, remaining);
      } else {
        CountdownStopsWhenUserOffline(w, c);
        running := false;
        assert pool.State() == w;
      }
    }

    /** The run at zero: the chat expires and the executor shuts down. */
    method Expire(pool: ClientHandlers)
      requires pool.Valid() && running && remainingSeconds <= 0
      modifies this, pool, pool.manager, pool.manager.activeSessions.Values
      ensures pool.Valid()
      ensures pool.State() == Tick(old(pool.State()), old(Snapshot())).0
      ensures Snapshot() == Tick(old(pool.State()), old(Snapshot())).1
    {
      ExpirationKeepsInv(pool.State(), sessionId, user1, user2);
      pool.HandleTimerExpiration(sessionId, user1, user2);
      running := false;
    }
  }
}
