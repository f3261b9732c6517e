/**
 * Every step of the server keeps the world invariant `Inv`: the pairing stays symmetric, every
 * name in `connectedClients` belongs to a live joined handler carrying that name, no handler
 * waiting for its JOIN has a name, and handler ids stay below the allocation counter.
 */
module ProtocolInvariant {
  import opened Wrappers
  import opened Messages
  import opened CryptoAdapter
  import opened RegistrySpec
  import opened Protocol
  import opened ProtocolLemmas
  import JavaStrings

  // ---------------------------------------------------------------- building blocks

  /** Replacing the registry by one with a symmetric pairing keeps the invariant. */
  lemma RegistryKeepsInv(w: World, reg: Registry)
    requires Inv(w) && Symmetric(reg.pairs)
    ensures Inv(w.(registry := reg))
    ensures forall u :: Lookup(w.(registry := reg), u) == Lookup(w, u)
  {
  }

  lemma SendKeepsInv(w: World, h: HandlerId, m: Message)
    requires Inv(w)
    ensures Inv(Send(w, h, m))
  {
    SendGrows(w, h, m);
    OutboxesGrowKeepsInv(w, Send(w, h, m));
  }

  lemma NotifyKeepsInv(w: World, h: HandlerId, receiver: string, content: string, t: MessageType)
    requires Inv(w)
    ensures Inv(Notify(w, h, receiver, content, t))
  {
    NotifyGrows(w, h, receiver, content, t);
    OutboxesGrowKeepsInv(w, Notify(w, h, receiver, content, t));
  }

  lemma NotifyUserKeepsInv(w: World, u: string, sender: string, content: string, t: MessageType)
    requires Inv(w)
    ensures Inv(NotifyUser(w, u, sender, content, t))
  {
    NotifyUserGrows(w, u, sender, content, t);
    OutboxesGrowKeepsInv(w, NotifyUser(w, u, sender, content, t));
  }

  /** The typing maps and the id counter play no part in the invariant. */
  lemma TypingKeepsInv(w: World, ts: map<string, bool>, lt: map<string, int>, n: nat)
    requires Inv(w)
    ensures Inv(w.(typingStatus := ts, lastTypingTime := lt, nextId := n))
  {
  }

  // ---------------------------------------------------------------- connections

  /** A new connection gets an id never used before and keeps the invariant. */
  lemma AcceptKeepsInv(w: World, key: Key)
    requires Inv(w)
    ensures Accept(w, key).1 !in w.handlers
    ensures Accept(w, key).1 in Accept(w, key).0.handlers
    ensures Inv(Accept(w, key).0)
  {
    var h := w.nextHandler;
    var w1 := w.(handlers := w.handlers[h := Handler(key, None, true, true, [])], nextHandler := h + 1);
    assert forall u :: u in w.connectedClients ==> w.connectedClients[u] != h;
    assert Inv(w1);
    NotifyKeepsInv(w1, h, "", w.crypto.keyToString(key), MessageType.System);
  }

  /** The JOIN check, applied to a handler that has just read its first message. */
  lemma AuthenticateKeepsInv(w: World, h: HandlerId, m: Message)
    requires Inv(w) && h in w.handlers && w.handlers[h].isConnected && w.handlers[h].awaitingJoin
    ensures Inv(Authenticate(w.(handlers := w.handlers[h := w.handlers[h].(awaitingJoin := false)]), h, m))
  {
    var w0 := w.(handlers := w.handlers[h := w.handlers[h].(awaitingJoin := false)]);
    assert forall u :: u in w.connectedClients ==> w.connectedClients[u] != h;
    assert Inv(w0);
    if m.messageType == Join {
      var name := m.sender;
      if name in w0.connectedClients {
        NotifyKeepsInv(w0, h, name, TakenText(name), MessageType.System);
        DisconnectKeepsInv(Notify(w0, h, name, TakenText(name), MessageType.System), h);
      } else {
        var w1 := w0.(handlers := w0.handlers[h := w0.handlers[h].(username := Some(name))],
                      connectedClients := w0.connectedClients[name := h]);
        assert Inv(w1);
        NotifyKeepsInv(w1, h, name, "Welcome to Secure Chat!", MessageType.System);
      }
    }
  }

  lemma ConnectRequestKeepsInv(w: World, h: HandlerId, m: Message)
    requires Inv(w)
    ensures Inv(HandleConnectRequest(w, h, m))
  {
    var requester, target := m.sender, m.receiver;
    if requester in w.registry.pairs {
      NotifyKeepsInv(w, h, requester, "You are already connected to " + w.registry.pairs[requester]
                                       + ". Disconnect first to connect to someone else.", MessageType.System);
    } else if target in w.registry.pairs {
      NotifyKeepsInv(w, h, requester, target + " is already in a chat with someone else.", MessageType.System);
    } else if Lookup(w, target).Some? {
      var w1 := NotifyUser(w, target, requester, requester + " wants to start a chat with you. Accept?",
                           MessageType.ConnectRequest);
      NotifyUserKeepsInv(w, target, requester, requester + " wants to start a chat with you. Accept?",
                         MessageType.ConnectRequest);
      NotifyKeepsInv(w1, h, requester, "Connection request sent to " + target + ". Waiting for response...",
                     MessageType.System);
    } else {
      NotifyKeepsInv(w, h, requester, target + " is not online.", MessageType.System);
    }
  }

  lemma ConnectAcceptKeepsInv(w: World, h: HandlerId, m: Message)
    requires Inv(w)
    ensures Inv(HandleConnectAccept(w, h, m))
  {
    var accepter, requester := m.sender, m.receiver;
    var (reg, ok) := RegistrySpec.ConnectUsers(w.registry, accepter, requester);
    if ok {
      ConnectUsersPreservesSymmetry(w.registry, accepter, requester);
      RegistryKeepsInv(w, reg);
      var w1 := Notify(w.(registry := reg), h, accepter, ConnectedNotice(requester), MessageType.System);
      NotifyKeepsInv(w.(registry := reg), h, accepter, ConnectedNotice(requester), MessageType.System);
      NotifyUserKeepsInv(w1, requester, "SERVER", AcceptedNotice(accepter), MessageType.System);
    } else {
      NotifyKeepsInv(w, h, accepter, ConnectFailedText, MessageType.System);
    }
  }

  lemma ConnectRejectKeepsInv(w: World, h: HandlerId, m: Message)
    requires Inv(w)
    ensures Inv(HandleConnectReject(w, h, m))
  {
    var rejecter, requester := m.sender, m.receiver;
    var w1 := NotifyUser(w, requester, "SERVER", rejecter + " declined your connection request.", MessageType.System);
    NotifyUserKeepsInv(w, requester, "SERVER", rejecter + " declined your connection request.", MessageType.System);
    NotifyKeepsInv(w1, h, rejecter, "You declined the connection request from " + requester + ".", MessageType.System);
  }

  lemma DisconnectRequestKeepsInv(w: World, h: HandlerId, m: Message)
    requires Inv(w)
    ensures Inv(HandleDisconnectRequest(w, h, m))
  {
    var user := m.sender;
    match PartnerOf(w.registry, user)
    case Some(connectedTo) =>
      DisconnectUserPreservesSymmetry(w.registry, user);
      var w1 := w.(registry := RegistrySpec.DisconnectUser(w.registry, user).0);
      RegistryKeepsInv(w, w1.registry);
      var w2 := Notify(w1, h, user, DisconnectedNotice(connectedTo), MessageType.System);
      NotifyKeepsInv(w1, h, user, DisconnectedNotice(connectedTo), MessageType.System);
      NotifyUserKeepsInv(w2, connectedTo, "SERVER", PartnerDisconnectedNotice(user), MessageType.System);
    case None =>
      NotifyKeepsInv(w, h, user, "You are not currently connected to anyone.", MessageType.System);
  }

  // ---------------------------------------------------------------- chat content

  /** Filing a message in a session never touches the pairing. */
  lemma StoreKeepsInv(w: World, sender: string, receiver: string, m: Message)
    requires Inv(w)
    ensures var reg := RegistrySpec.AddMessage(GetOrCreateSession(w.registry, sender, receiver),
                                               GenerateSessionId(sender, receiver), m);
      Inv(w.(registry := reg)) && forall u :: Lookup(w.(registry := reg), u) == Lookup(w, u)
  {
    var reg := RegistrySpec.AddMessage(GetOrCreateSession(w.registry, sender, receiver),
                                       GenerateSessionId(sender, receiver), m);
    RegistryKeepsInv(w, reg);
  }

  lemma TextKeepsInv(w: World, h: HandlerId, m: Message)
    requires Inv(w) && h in w.handlers
    ensures Inv(HandleText(w, h, m))
  {
    var sender, receiver := m.sender, m.receiver;
    if PartnerOf(w.registry, sender) != Some(receiver) {
      NotifyKeepsInv(w, h, sender, "You are not connected to " + receiver + ". Send a connection request first.",
                     MessageType.System);
    } else {
      match w.crypto.decrypt(m.content, w.handlers[h].sessionKey)
      case None =>
      case Some(plain) =>
        if && m.digitalSignature.Some? && m.signerPublicKey.Some?
           && !w.crypto.verifySignature(plain, m.digitalSignature.value, m.signerPublicKey.value)
        {
          NotifyKeepsInv(w, h, sender, TamperWarning, MessageType.System);
        } else {
          var decrypted := m.(content := plain);
          var reg := GetOrCreateSession(w.registry, sender, receiver);
          var sessionId := GenerateSessionId(sender, receiver);
          match Lookup(w, receiver)
          case Some(r) =>
            var forwarded := decrypted.(content := w.crypto.encrypt(plain, w.handlers[r].sessionKey),
                                        deliveryStatus := Delivered);
            var w0 := w.(registry := RegistrySpec.AddMessage(reg, sessionId, forwarded));
            StoreKeepsInv(w, sender, receiver, forwarded);
            SendKeepsInv(w0, r, forwarded);
            NotifyKeepsInv(Send(w0, r, forwarded), h, sender, DeliveredText(m.messageId), MessageType.DeliveryReceipt);
          case None =>
            StoreKeepsInv(w, sender, receiver, decrypted);
            NotifyKeepsInv(w.(registry := RegistrySpec.AddMessage(reg, sessionId, decrypted)), h, sender,
                           "User " + receiver + " is offline", MessageType.System);
        }
    }
  }

  lemma FileKeepsInv(w: World, h: HandlerId, m: Message)
    requires Inv(w) && h in w.handlers
    ensures Inv(HandleFile(w, h, m))
  {
    var sender, receiver := m.sender, m.receiver;
    match w.crypto.decryptBytes(m.fileData, w.handlers[h].sessionKey)
    case None =>
    case Some(plain) =>
      var decrypted := m.(fileData := plain);
      var reg := GetOrCreateSession(w.registry, sender, receiver);
      var sessionId := GenerateSessionId(sender, receiver);
      match Lookup(w, receiver)
      case Some(r) =>
        var forwarded := decrypted.(fileData := w.crypto.encryptBytes(plain, w.handlers[r].sessionKey));
        StoreKeepsInv(w, sender, receiver, forwarded);
        SendKeepsInv(w.(registry := RegistrySpec.AddMessage(reg, sessionId, forwarded)), r, forwarded);
      case None =>
        StoreKeepsInv(w, sender, receiver, decrypted);
        NotifyKeepsInv(w.(registry := RegistrySpec.AddMessage(reg, sessionId, decrypted)), h, sender,
                       "User " + receiver + " is offline", MessageType.System);
  }

  lemma ClearChatKeepsInv(w: World, h: HandlerId, m: Message)
    requires Inv(w)
    ensures Inv(HandleClearChat(w, h, m))
  {
    var sender, receiver := m.sender, m.receiver;
    var sessionId := GenerateSessionId(sender, receiver);
    var (reg, ok) := RegistrySpec.ClearSession(GetOrCreateSession(w.registry, sender, receiver), sessionId);
    var w0 := w.(registry := reg);
    RegistryKeepsInv(w, reg);
    if ok {
      var w1 := Notify(w0, h, sender, "Chat history cleared for both users", MessageType.System);
      NotifyKeepsInv(w0, h, sender, "Chat history cleared for both users", MessageType.System);
      var w2 := NotifyUser(w1, receiver, "SERVER", "Chat history cleared by " + sender, MessageType.System);
      NotifyUserKeepsInv(w1, receiver, "SERVER", "Chat history cleared by " + sender, MessageType.System);
      NotifyUserKeepsInv(w2, receiver, "SERVER", "CLEAR_CHAT_AREA", MessageType.ClearLocalChat);
    }
  }

  lemma SetTimerKeepsInv(w: World, h: HandlerId, m: Message)
    requires Inv(w)
    ensures Inv(HandleSetTimer(w, h, m).0)
  {
    var sender, receiver := m.sender, m.receiver;
    var text := TimerSetText(m.timerDuration);
    var w0 := w.(registry := GetOrCreateSession(w.registry, sender, receiver));
    RegistryKeepsInv(w, w0.registry);
    var w1 := Notify(w0, h, sender, text, MessageType.System);
    NotifyKeepsInv(w0, h, sender, text, MessageType.System);
    NotifyUserKeepsInv(w1, receiver, "SERVER", text + " (set by " + sender + ")", MessageType.System);
  }

  lemma TypingStartKeepsInv(w: World, m: Message, now: int)
    requires Inv(w)
    ensures Inv(HandleTypingStart(w, m, now))
  {
    var w1 := w.(typingStatus := w.typingStatus[m.sender := true], lastTypingTime := w.lastTypingTime[m.sender := now]);
    TypingKeepsInv(w, w1.typingStatus, w1.lastTypingTime, w.nextId);
    NotifyUserKeepsInv(w1, m.receiver, m.sender, m.sender + " is typing...", MessageType.TypingStart);
  }

  lemma TypingStopKeepsInv(w: World, m: Message)
    requires Inv(w)
    ensures Inv(HandleTypingStop(w, m))
  {
    var w1 := w.(typingStatus := w.typingStatus[m.sender := false], lastTypingTime := w.lastTypingTime - {m.sender});
    TypingKeepsInv(w, w1.typingStatus, w1.lastTypingTime, w.nextId);
    NotifyUserKeepsInv(w1, m.receiver, m.sender, "TYPING_STOP", MessageType.TypingStop);
  }

  // ---------------------------------------------------------------- dispatch and timed steps

  /** `handleMessage` keeps the invariant, whatever the message. */
  lemma HandleMessageKeepsInv(w: World, h: HandlerId, m: Message, now: int)
    requires Inv(w) && h in w.handlers
    ensures Inv(HandleMessage(w, h, m, now).0)
  {
    SetTimerKeepsInv(w, h, m);
    HistoryKeepsInv(w, h, m);
    PairingKeepsInv(w, h, m);
    PresenceKeepsInv(w, h, m, now);
  }

  lemma HistoryKeepsInv(w: World, h: HandlerId, m: Message)
    requires Inv(w) && h in w.handlers
    ensures Inv(HandleHistoryMessage(w, h, m))
  {
    match m.messageType
    case Text => TextKeepsInv(w, h, m);
    case File => FileKeepsInv(w, h, m);
    case ClearChat => ClearChatKeepsInv(w, h, m);
    case ClearLocalChat => NotifyKeepsInv(w, h, m.sender, "Your local chat history cleared", MessageType.System);
    case DestroyChat => DestroyChatAlwaysDestroys(w, h, m);
    case _ =>
  }

  lemma PairingKeepsInv(w: World, h: HandlerId, m: Message)
    requires Inv(w)
    ensures Inv(HandlePairingMessage(w, h, m))
  {
    match m.messageType
    case ConnectRequest => ConnectRequestKeepsInv(w, h, m);
    case ConnectAccept => ConnectAcceptKeepsInv(w, h, m);
    case ConnectReject => ConnectRejectKeepsInv(w, h, m);
    case DisconnectRequest => DisconnectRequestKeepsInv(w, h, m);
    case _ =>
  }

  lemma PresenceKeepsInv(w: World, h: HandlerId, m: Message, now: int)
    requires Inv(w)
    ensures Inv(HandlePresenceMessage(w, h, m, now))
  {
    match m.messageType
    case Heartbeat => NotifyKeepsInv(w, h, m.sender, "HEARTBEAT_ACK", MessageType.Heartbeat);
    case TypingStart => TypingStartKeepsInv(w, m, now);
    case TypingStop => TypingStopKeepsInv(w, m);
    case ReadReceipt =>
      NotifyUserKeepsInv(w, m.receiver, m.sender, "READ:" + JavaStrings.RemoveAll(m.content, "READ:"), MessageType.ReadReceipt);
    case _ =>
  }

  /** Every message a handler reads keeps the invariant. */
  lemma ReceiveKeepsInv(w: World, h: HandlerId, m: Message, now: int)
    requires Inv(w)
    ensures Inv(Receive(w, h, m, now).0)
  {
    if h in w.handlers && w.handlers[h].isConnected {
      if w.handlers[h].awaitingJoin {
        AuthenticateKeepsInv(w, h, m);
      } else {
        HandleMessageKeepsInv(w, h, m, now);
      }
    }
  }

  /** One TIMER_UPDATE of the countdown keeps the invariant. */
  lemma SendTimerUpdateKeepsInv(w: World, h: HandlerId, user: string, remaining: int)
    requires Inv(w)
    ensures Inv(SendTimerUpdate(w, h, user, remaining))
  {
    TypingKeepsInv(w, w.typingStatus, w.lastTypingTime, w.nextId + 1);
    SendKeepsInv(w.(nextId := w.nextId + 1), h,
                 Create("SERVER", user, "TIMER_UPDATE", TimerUpdate, MessageId(w.nextId)).WithTimerDuration(remaining));
  }

  /** `handleTimerExpiration` keeps the invariant whoever is online. */
  lemma ExpirationKeepsInv(w: World, sessionId: string, user1: string, user2: string)
    requires Inv(w)
    ensures Inv(HandleTimerExpiration(w, sessionId, user1, user2))
  {
    var h1, h2 := Lookup(w, user1), Lookup(w, user2);
    var w1 := if h1.Some? then Notify(w, h1.value, user1, "TIMER_EXPIRED", TimerExpired) else w;
    if h1.Some? { NotifyKeepsInv(w, h1.value, user1, "TIMER_EXPIRED", TimerExpired); }
    var w2 := if h2.Some? then Notify(w1, h2.value, user2, "TIMER_EXPIRED", TimerExpired) else w1;
    if h2.Some? { NotifyKeepsInv(w1, h2.value, user2, "TIMER_EXPIRED", TimerExpired); }
    var w3 := w2.(registry := RegistrySpec.DestroySession(w2.registry, sessionId).0);
    RegistryKeepsInv(w2, w3.registry);
    var w4 := if h1.Some? then Disconnect(w3, h1.value) else w3;
    if h1.Some? { DisconnectKeepsInv(w3, h1.value); }
    if h2.Some? { DisconnectKeepsInv(w4, h2.value); }
  }

  /** One run of a countdown keeps the invariant. */
  lemma TickKeepsInv(w: World, c: CountdownState)
    requires Inv(w)
    ensures Inv(Tick(w, c).0)
  {
    if c.running {
      if c.remainingSeconds > 0 {
        match (Lookup(w, c.user1), Lookup(w, c.user2))
        case (Some(h1), Some(h2)) =>
          var w1 := SendTimerUpdate(w, h1, c.user1, c.remainingSeconds);
          var m1 := Create("SERVER", c.user1, "TIMER_UPDATE", TimerUpdate, MessageId(w.nextId)).WithTimerDuration(c.remainingSeconds);
          SendKeepsInv(w.(nextId := w.nextId + 1), h1, m1);
          var m2 := Create("SERVER", c.user2, "TIMER_UPDATE", TimerUpdate, MessageId(w1.nextId)).WithTimerDuration(c.remainingSeconds);
          SendKeepsInv(w1.(nextId := w1.nextId + 1), h2, m2);
        case _ =>
      } else {
        ExpirationKeepsInv(w, c.sessionId, c.user1, c.user2);
      }
    }
  }

  /** The delayed typing check keeps the invariant. */
  lemma TypingTimeoutKeepsInv(w: World, sender: string, receiver: string, now: int)
    requires Inv(w)
    ensures Inv(TypingTimeout(w, sender, receiver, now))
  {
    if sender in w.lastTypingTime && now - w.lastTypingTime[sender] >= TypingTimeoutMillis {
      TypingStopKeepsInv(w.(nextId := w.nextId + 1),
                         Create(sender, receiver, "TYPING_STOP", MessageType.TypingStop, MessageId(w.nextId)));
    }
  }
}
