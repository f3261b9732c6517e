/**
 * What the relay rules of `ClientHandler` guarantee, proved about the steps of protocol.dfy:
 * the JOIN uniqueness check, the gating of connection requests and accepts, the pairing check,
 * tamper drop, re-encryption and delivery receipt of TEXT, the teardown of `disconnect`, the
 * countdown tick by tick, the typing timeout, and preservation of the world invariant.
 */
module ProtocolLemmas {
  import opened Wrappers
  import opened Messages
  import opened CryptoAdapter
  import opened RegistrySpec
  import opened Protocol
  import JavaStrings

  /** `w'` differs from `w` only in the stream of `h`, which gained `ms`, and in the id counter. */
  ghost predicate OnlyOutboxGrows(w: World, w': World, h: HandlerId, ms: seq<Message>) {
    && h in w.handlers
    && w' == w.(handlers := w.handlers[h := w.handlers[h].(outbox := w.handlers[h].outbox + ms)], nextId := w'.nextId)
  }

  /** Nothing but streams and the id counter changed, and every stream only grew. */
  ghost predicate OutboxesGrow(w: World, w': World) {
    && w'.crypto == w.crypto && w'.registry == w.registry && w'.connectedClients == w.connectedClients
    && w'.typingStatus == w.typingStatus && w'.lastTypingTime == w.lastTypingTime
    && w'.nextHandler == w.nextHandler && w'.handlers.Keys == w.handlers.Keys
    && forall x :: x in w.handlers ==>
         && w'.handlers[x] == w.handlers[x].(outbox := w'.handlers[x].outbox)
         && w.handlers[x].outbox <= w'.handlers[x].outbox
  }

  /** Every stream that existed still exists and only grew. */
  ghost predicate Grows(w: World, w': World) {
    forall x :: x in w.handlers ==> x in w'.handlers && w.handlers[x].outbox <= w'.handlers[x].outbox
  }

  /** A handler still waiting for its JOIN has no name yet. */
  ghost predicate NamesAfterJoin(w: World) {
    forall h :: h in w.handlers && w.handlers[h].awaitingJoin ==> w.handlers[h].username == None
  }

  ghost predicate Inv(w: World) {
    WorldValid(w) && NamesAfterJoin(w)
  }

  // ---------------------------------------------------------------- sending

  lemma SendGrows(w: World, h: HandlerId, m: Message)
    ensures OutboxesGrow(w, Send(w, h, m))
    ensures h in w.handlers ==> OnlyOutboxGrows(w, Send(w, h, m), h, [m])
  {
  }

  lemma OutboxesGrowTransitive(w1: World, w2: World, w3: World)
    requires OutboxesGrow(w1, w2) && OutboxesGrow(w2, w3)
    ensures OutboxesGrow(w1, w3)
  {
    forall x | x in w1.handlers
      ensures w3.handlers[x] == w1.handlers[x].(outbox := w3.handlers[x].outbox)
      ensures w1.handlers[x].outbox <= w3.handlers[x].outbox
    {
      assert w2.handlers[x] == w1.handlers[x].(outbox := w2.handlers[x].outbox);
    }
  }

  /** Changing only streams keeps the invariant and every directory lookup. */
  lemma OutboxesGrowKeepsInv(w: World, w': World)
    requires OutboxesGrow(w, w')
    ensures Inv(w) ==> Inv(w')
    ensures forall u :: Lookup(w', u) == Lookup(w, u)
    ensures Grows(w, w')
  {
    if Inv(w) {
      forall u | u in w'.connectedClients
        ensures w'.connectedClients[u] in w'.handlers
        ensures w'.handlers[w'.connectedClients[u]].username == Some(u)
      {
        assert w'.handlers[w.connectedClients[u]] == w.handlers[w.connectedClients[u]].(outbox := w'.handlers[w.connectedClients[u]].outbox);
      }
      forall x | x in w'.handlers && w'.handlers[x].awaitingJoin ensures w'.handlers[x].username == None {
        assert w'.handlers[x] == w.handlers[x].(outbox := w'.handlers[x].outbox);
      }
    }
  }

  lemma NotifyGrows(w: World, h: HandlerId, receiver: string, content: string, t: MessageType)
    ensures OutboxesGrow(w, Notify(w, h, receiver, content, t))
    ensures Notify(w, h, receiver, content, t).nextId == w.nextId + 1
    ensures h in w.handlers ==>
      OnlyOutboxGrows(w, Notify(w, h, receiver, content, t), h,
                      [Create("SERVER", receiver, content, t, MessageId(w.nextId))])
  {
  }

  lemma NotifyUserGrows(w: World, u: string, sender: string, content: string, t: MessageType)
    ensures OutboxesGrow(w, NotifyUser(w, u, sender, content, t))
    ensures Lookup(w, u).Some? ==>
      OnlyOutboxGrows(w, NotifyUser(w, u, sender, content, t), Lookup(w, u).value,
                      [Create(sender, u, content, t, MessageId(w.nextId))])
    ensures Lookup(w, u).None? ==> NotifyUser(w, u, sender, content, t) == w
  {
  }

  // ---------------------------------------------------------------- disconnect and JOIN

  /**
   * `disconnect` of a joined handler: the name leaves the directory and the pairing, the
   * partner's pairing and their session go too, and an online partner is told once.
   */
  lemma DisconnectTearsDown(w: World, h: HandlerId, u: string)
    requires h in w.handlers && w.handlers[h].username == Some(u)
    ensures var w' := Disconnect(w, h);
      && h in w'.handlers && !w'.handlers[h].isConnected
      && w'.connectedClients == w.connectedClients - {u}
      && w'.registry == RegistrySpec.DisconnectUser(w.registry, u).0
      && u !in w'.registry.pairs
      && Grows(w, w')
  {
    var w1 := w.(handlers := w.handlers[h := w.handlers[h].(isConnected := false)]);
    if u in w.registry.pairs {
      var p := w.registry.pairs[u];
      var w1' := w1.(registry := RegistrySpec.DisconnectUser(w1.registry, u).0);
      NotifyUserGrows(w1', p, "SERVER", LeftNotice(u), MessageType.System);
      var w2 := NotifyUser(w1', p, "SERVER", LeftNotice(u), MessageType.System);
      assert Disconnect(w, h) == w2.(connectedClients := w2.connectedClients - {u});
    }
  }

  /** The partner of a disconnecting user, when online elsewhere, is told "<name> has left the chat." once. */
  lemma DisconnectTellsPartner(w: World, h: HandlerId, u: string)
    requires h in w.handlers && w.handlers[h].username == Some(u)
    ensures var w' := Disconnect(w, h);
      u in w.registry.pairs && Lookup(w, w.registry.pairs[u]).Some? && Lookup(w, w.registry.pairs[u]).value != h ==>
        var hp := Lookup(w, w.registry.pairs[u]).value;
        w'.handlers[hp].outbox == w.handlers[hp].outbox
          + [Create("SERVER", w.registry.pairs[u], LeftNotice(u), MessageType.System, MessageId(w.nextId))]
    ensures u in w.registry.pairs && w.registry.pairs[u] == u && Lookup(w, u) == Some(h) ==>
      Disconnect(w, h).handlers[h].outbox == w.handlers[h].outbox
        + [Create("SERVER", u, LeftNotice(u), MessageType.System, MessageId(w.nextId))]
  {
    var w1 := w.(handlers := w.handlers[h := w.handlers[h].(isConnected := false)]);
    assert forall x :: Lookup(w1, x) == Lookup(w, x);
    if u in w.registry.pairs {
      var p := w.registry.pairs[u];
      var w1' := w1.(registry := RegistrySpec.DisconnectUser(w1.registry, u).0);
      NotifyUserGrows(w1', p, "SERVER", LeftNotice(u), MessageType.System);
    }
  }

  /** The world `disconnect` of a named handler works on before it notifies anyone. */
  function Stripped(w: World, h: HandlerId, u: string): World
    requires h in w.handlers
  {
    var reg := if u in w.registry.pairs then RegistrySpec.DisconnectUser(w.registry, u).0 else w.registry;
    w.(handlers := w.handlers[h := w.handlers[h].(isConnected := false)],
       registry := reg, connectedClients := w.connectedClients - {u})
  }

  lemma StrippedKeepsInv(w: World, h: HandlerId, u: string)
    requires Inv(w) && h in w.handlers && w.handlers[h].username == Some(u)
    ensures Inv(Stripped(w, h, u))
    ensures Grows(w, Stripped(w, h, u))
  {
    if u in w.registry.pairs {
      DisconnectUserPreservesSymmetry(w.registry, u);
    }
    assert forall x :: x in w.connectedClients && x != u ==> w.connectedClients[x] != h;
  }

  /** After stripping, `disconnect` only writes to streams. */
  lemma DisconnectAfterStripped(w: World, h: HandlerId, u: string)
    requires h in w.handlers && w.handlers[h].username == Some(u)
    ensures OutboxesGrow(Stripped(w, h, u), Disconnect(w, h))
  {
    var w1 := w.(handlers := w.handlers[h := w.handlers[h].(isConnected := false)]);
    if u in w.registry.pairs {
      var w1' := w1.(registry := RegistrySpec.DisconnectUser(w.registry, u).0);
      NotifyUserGrows(w1', w.registry.pairs[u], "SERVER", LeftNotice(u), MessageType.System);
      var w2 := NotifyUser(w1', w.registry.pairs[u], "SERVER", LeftNotice(u), MessageType.System);
      assert Disconnect(w, h) == w2.(connectedClients := w2.connectedClients - {u});
    }
  }

  /** `disconnect` keeps the invariant. */
  lemma DisconnectKeepsInv(w: World, h: HandlerId)
    requires Inv(w)
    ensures Inv(Disconnect(w, h))
    ensures Grows(w, Disconnect(w, h))
  {
    if h in w.handlers {
      match w.handlers[h].username
      case None =>
        assert forall u :: u in w.connectedClients ==> w.connectedClients[u] != h;
      case Some(u) =>
        StrippedKeepsInv(w, h, u);
        DisconnectAfterStripped(w, h, u);
        OutboxesGrowKeepsInv(Stripped(w, h, u), Disconnect(w, h));
    }
  }

  /**
   * JOIN with a name already in the directory: one SYSTEM refusal to the new client, whose
   * handler then stops; nobody's name, pairing or stream changes otherwise.
   */
  lemma JoinTakenRefused(w: World, h: HandlerId, m: Message, now: int)
    requires h in w.handlers && w.handlers[h].isConnected && w.handlers[h].awaitingJoin
    requires w.handlers[h].username == None
    requires m.messageType == Join && m.sender in w.connectedClients
    ensures var (w', timer) := Receive(w, h, m, now);
      && timer.None?
      && w'.connectedClients == w.connectedClients && w'.registry == w.registry
      && w'.handlers == w.handlers[h := w.handlers[h].(
           isConnected := false, awaitingJoin := false,
           outbox := w.handlers[h].outbox
             + [Create("SERVER", m.sender, TakenText(m.sender), MessageType.System, MessageId(w.nextId))])]
  {
    var w0 := w.(handlers := w.handlers[h := w.handlers[h].(awaitingJoin := false)]);
    assert Receive(w, h, m, now) == (Authenticate(w0, h, m), None);
    var w1 := Notify(w0, h, m.sender, TakenText(m.sender), MessageType.System);
    assert w1.handlers[h].username == None;
    assert Authenticate(w0, h, m) == Disconnect(w1, h);
    assert Disconnect(w1, h) == w1.(handlers := w1.handlers[h := w1.handlers[h].(isConnected := false)]);
  }

  /** JOIN with a free name: the name is registered for this handler and a welcome is sent. */
  lemma JoinFreeRegistered(w: World, h: HandlerId, m: Message, now: int)
    requires h in w.handlers && w.handlers[h].isConnected && w.handlers[h].awaitingJoin
    requires m.messageType == Join && m.sender !in w.connectedClients
    ensures var (w', timer) := Receive(w, h, m, now);
      && timer.None?
      && w'.connectedClients == w.connectedClients[m.sender := h] && w'.registry == w.registry
      && w'.handlers == w.handlers[h := w.handlers[h].(
           username := Some(m.sender), awaitingJoin := false,
           outbox := w.handlers[h].outbox
             + [Create("SERVER", m.sender, "Welcome to Secure Chat!", MessageType.System, MessageId(w.nextId))])]
  {
  }

  /** A first message that is not JOIN is consumed without effect; the handler stays nameless. */
  lemma FirstMessageNotJoinDropped(w: World, h: HandlerId, m: Message, now: int)
    requires h in w.handlers && w.handlers[h].isConnected && w.handlers[h].awaitingJoin
    requires m.messageType != Join
    ensures Receive(w, h, m, now) == (w.(handlers := w.handlers[h := w.handlers[h].(awaitingJoin := false)]), None)
  {
  }

  // ---------------------------------------------------------------- connection requests

  /** CONNECT_REQUEST never changes the pairing or the directory, in any branch. */
  lemma ConnectRequestKeepsPairing(w: World, h: HandlerId, m: Message)
    ensures OutboxesGrow(w, HandleConnectRequest(w, h, m))
  {
    var requester, target := m.sender, m.receiver;
    if requester in w.registry.pairs {
      NotifyGrows(w, h, requester, "You are already connected to " + w.registry.pairs[requester]
                                   + ". Disconnect first to connect to someone else.", MessageType.System);
    } else if target in w.registry.pairs {
      NotifyGrows(w, h, requester, target + " is already in a chat with someone else.", MessageType.System);
    } else if Lookup(w, target).Some? {
      var w1 := NotifyUser(w, target, requester, requester + " wants to start a chat with you. Accept?",
                           MessageType.ConnectRequest);
      NotifyUserGrows(w, target, requester, requester + " wants to start a chat with you. Accept?",
                      MessageType.ConnectRequest);
      NotifyGrows(w1, h, requester, "Connection request sent to " + target + ". Waiting for response...", MessageType.System);
      OutboxesGrowTransitive(w, w1, HandleConnectRequest(w, h, m));
    } else {
      NotifyGrows(w, h, requester, target + " is not online.", MessageType.System);
    }
  }

  /** A paired requester, or a paired target, gets one SYSTEM error and nobody else hears of it. */
  lemma ConnectRequestRefusedWhenPaired(w: World, h: HandlerId, m: Message)
    requires h in w.handlers
    requires m.sender in w.registry.pairs || m.receiver in w.registry.pairs
    ensures var text :=
              if m.sender in w.registry.pairs
              then "You are already connected to " + w.registry.pairs[m.sender] + ". Disconnect first to connect to someone else."
              else m.receiver + " is already in a chat with someone else.";
      OnlyOutboxGrows(w, HandleConnectRequest(w, h, m), h,
                      [Create("SERVER", m.sender, text, MessageType.System, MessageId(w.nextId))])
  {
  }

  /**
   * With neither side paired, an online target gets a CONNECT_REQUEST labelled with the
   * requester as sender, and the requester is told it is waiting; an offline target means
   * one "not online" notice.
   */
  lemma ConnectRequestForwarded(w: World, h: HandlerId, m: Message)
    requires h in w.handlers
    requires m.sender !in w.registry.pairs && m.receiver !in w.registry.pairs
    ensures Lookup(w, m.receiver).None? ==>
      OnlyOutboxGrows(w, HandleConnectRequest(w, h, m), h,
                      [Create("SERVER", m.sender, m.receiver + " is not online.", MessageType.System, MessageId(w.nextId))])
    ensures Lookup(w, m.receiver).Some? && Lookup(w, m.receiver).value != h ==>
      var t := Lookup(w, m.receiver).value;
      && HandleConnectRequest(w, h, m).handlers[t].outbox == w.handlers[t].outbox
           + [Create(m.sender, m.receiver, m.sender + " wants to start a chat with you. Accept?",
                     MessageType.ConnectRequest, MessageId(w.nextId))]
      && HandleConnectRequest(w, h, m).handlers[h].outbox == w.handlers[h].outbox
           + [Create("SERVER", m.sender, "Connection request sent to " + m.receiver + ". Waiting for response...",
                     MessageType.System, MessageId(w.nextId + 1))]
  {
  }

  /**
   * CONNECT_ACCEPT pairs the two users exactly as `connectUsers` does; when that refuses, the
   * accepter gets one SYSTEM error and nothing else changes, the requester included.
   */
  lemma ConnectAcceptGated(w: World, h: HandlerId, m: Message)
    requires h in w.handlers
    ensures HandleConnectAccept(w, h, m).registry == RegistrySpec.ConnectUsers(w.registry, m.sender, m.receiver).0
    ensures HandleConnectAccept(w, h, m).connectedClients == w.connectedClients
    ensures HandleConnectAccept(w, h, m).handlers.Keys == w.handlers.Keys
    ensures !RegistrySpec.ConnectUsers(w.registry, m.sender, m.receiver).1 ==>
      OnlyOutboxGrows(w, HandleConnectAccept(w, h, m), h,
                      [Create("SERVER", m.sender, ConnectFailedText, MessageType.System, MessageId(w.nextId))])
    ensures RegistrySpec.ConnectUsers(w.registry, m.sender, m.receiver).1 ==>
      && w.handlers[h].outbox + [Create("SERVER", m.sender, ConnectedNotice(m.receiver), MessageType.System, MessageId(w.nextId))]
           <= HandleConnectAccept(w, h, m).handlers[h].outbox
      && (Lookup(w, m.receiver).Some? && Lookup(w, m.receiver).value != h ==>
            var r := Lookup(w, m.receiver).value;
            HandleConnectAccept(w, h, m).handlers[r].outbox == w.handlers[r].outbox
              + [Create("SERVER", m.receiver, AcceptedNotice(m.sender), MessageType.System, MessageId(w.nextId + 1))])
      && (Lookup(w, m.receiver) == Some(h) ==>
            HandleConnectAccept(w, h, m).handlers[h].outbox == w.handlers[h].outbox
              + [Create("SERVER", m.sender, ConnectedNotice(m.receiver), MessageType.System, MessageId(w.nextId)),
                 Create("SERVER", m.receiver, AcceptedNotice(m.sender), MessageType.System, MessageId(w.nextId + 1))])
  {
    if RegistrySpec.ConnectUsers(w.registry, m.sender, m.receiver).1 {
      ConnectAcceptPairs(w, h, m);
    } else {
      ConnectAcceptRefused(w, h, m);
    }
  }

  /** The success branch of CONNECT_ACCEPT: the two notices, and only streams change besides the pairing. */
  lemma ConnectAcceptPairs(w: World, h: HandlerId, m: Message)
    requires h in w.handlers && RegistrySpec.ConnectUsers(w.registry, m.sender, m.receiver).1
    ensures var w' := HandleConnectAccept(w, h, m);
      && w'.registry == RegistrySpec.ConnectUsers(w.registry, m.sender, m.receiver).0
      && w'.connectedClients == w.connectedClients && w'.handlers.Keys == w.handlers.Keys
      && w.handlers[h].outbox + [Create("SERVER", m.sender, ConnectedNotice(m.receiver), MessageType.System, MessageId(w.nextId))]
           <= w'.handlers[h].outbox
      && (Lookup(w, m.receiver).Some? && Lookup(w, m.receiver).value != h ==>
            var r := Lookup(w, m.receiver).value;
            w'.handlers[r].outbox == w.handlers[r].outbox
              + [Create("SERVER", m.receiver, AcceptedNotice(m.sender), MessageType.System, MessageId(w.nextId + 1))])
      && (Lookup(w, m.receiver) == Some(h) ==>
            w'.handlers[h].outbox == w.handlers[h].outbox
              + [Create("SERVER", m.sender, ConnectedNotice(m.receiver), MessageType.System, MessageId(w.nextId)),
                 Create("SERVER", m.receiver, AcceptedNotice(m.sender), MessageType.System, MessageId(w.nextId + 1))])
  {
    var reg := RegistrySpec.ConnectUsers(w.registry, m.sender, m.receiver).0;
    var w1 := Notify(w.(registry := reg), h, m.sender, ConnectedNotice(m.receiver), MessageType.System);
    NotifyGrows(w.(registry := reg), h, m.sender, ConnectedNotice(m.receiver), MessageType.System);
    NotifyUserGrows(w1, m.receiver, "SERVER", AcceptedNotice(m.sender), MessageType.System);
    OutboxesGrowKeepsInv(w.(registry := reg), w1);
    assert Lookup(w1, m.receiver) == Lookup(w, m.receiver);
    var w2 := NotifyUser(w1, m.receiver, "SERVER", AcceptedNotice(m.sender), MessageType.System);
    assert HandleConnectAccept(w, h, m) == w2;
    if Lookup(w, m.receiver).Some? && Lookup(w, m.receiver).value != h {
      var r := Lookup(w, m.receiver).value;
      assert w1.handlers[r] == w.handlers[r] && w1.nextId == w.nextId + 1;
      assert w2.handlers[r].outbox == w1.handlers[r].outbox
        + [Create("SERVER", m.receiver, AcceptedNotice(m.sender), MessageType.System, MessageId(w1.nextId))];
    }
    if Lookup(w, m.receiver) == Some(h) {
      assert w1.handlers[h].outbox == w.handlers[h].outbox
        + [Create("SERVER", m.sender, ConnectedNotice(m.receiver), MessageType.System, MessageId(w.nextId))];
      assert w2.handlers[h].outbox == w1.handlers[h].outbox
        + [Create("SERVER", m.receiver, AcceptedNotice(m.sender), MessageType.System, MessageId(w1.nextId))];
    }
  }

  /** The refusal branch of CONNECT_ACCEPT: one error to the accepter and nothing else. */
  lemma ConnectAcceptRefused(w: World, h: HandlerId, m: Message)
    requires h in w.handlers && !RegistrySpec.ConnectUsers(w.registry, m.sender, m.receiver).1
    ensures HandleConnectAccept(w, h, m).registry == w.registry
    ensures OnlyOutboxGrows(w, HandleConnectAccept(w, h, m), h,
                            [Create("SERVER", m.sender, ConnectFailedText, MessageType.System, MessageId(w.nextId))])
  {
    NotifyGrows(w, h, m.sender, ConnectFailedText, MessageType.System);
    assert HandleConnectAccept(w, h, m) == Notify(w, h, m.sender, ConnectFailedText, MessageType.System);
  }

  /**
   * CONNECT_REJECT changes no pairing and no directory entry: an online requester is told
   * "<rejecter> declined your connection request." and the rejecter gets its confirmation;
   * no other stream changes.
   */
  lemma ConnectRejectTellsBoth(w: World, h: HandlerId, m: Message)
    requires h in w.handlers
    ensures var w' := HandleConnectReject(w, h, m);
      var declined := Create("SERVER", m.receiver, m.sender + " declined your connection request.",
                             MessageType.System, MessageId(w.nextId));
      var confirm := "You declined the connection request from " + m.receiver + ".";
      && w'.registry == w.registry && w'.connectedClients == w.connectedClients
      && w'.handlers.Keys == w.handlers.Keys
      && (Lookup(w, m.receiver).None? ==>
            OnlyOutboxGrows(w, w', h, [Create("SERVER", m.sender, confirm, MessageType.System, MessageId(w.nextId))]))
      && (Lookup(w, m.receiver).Some? && Lookup(w, m.receiver).value != h ==>
            var r := Lookup(w, m.receiver).value;
            && w'.handlers[r].outbox == w.handlers[r].outbox + [declined]
            && w'.handlers[h].outbox == w.handlers[h].outbox
                 + [Create("SERVER", m.sender, confirm, MessageType.System, MessageId(w.nextId + 1))])
      && (Lookup(w, m.receiver) == Some(h) ==>
            w'.handlers[h].outbox == w.handlers[h].outbox
              + [declined, Create("SERVER", m.sender, confirm, MessageType.System, MessageId(w.nextId + 1))])
      && forall x :: x in w.handlers && x != h && Lookup(w, m.receiver) != Some(x) ==> w'.handlers[x] == w.handlers[x]
  {
    var rejecter, requester := m.sender, m.receiver;
    var w1 := NotifyUser(w, requester, "SERVER", rejecter + " declined your connection request.", MessageType.System);
    NotifyUserGrows(w, requester, "SERVER", rejecter + " declined your connection request.", MessageType.System);
    NotifyGrows(w1, h, rejecter, "You declined the connection request from " + requester + ".", MessageType.System);
    assert HandleConnectReject(w, h, m)
        == Notify(w1, h, rejecter, "You declined the connection request from " + requester + ".", MessageType.System);
  }

  // ---------------------------------------------------------------- TEXT and FILE

  /** TEXT to anyone but the partner: a SYSTEM error to the sender, nothing stored or forwarded. */
  lemma TextNotPairedRejected(w: World, h: HandlerId, m: Message)
    requires h in w.handlers
    requires PartnerOf(w.registry, m.sender) != Some(m.receiver)
    ensures OnlyOutboxGrows(w, HandleText(w, h, m), h,
      [Create("SERVER", m.sender, "You are not connected to " + m.receiver + ". Send a connection request first.",
              MessageType.System, MessageId(w.nextId))])
  {
  }

  /** TEXT whose attached signature does not verify: a SYSTEM warning, nothing stored or forwarded. */
  lemma TextTamperedDropped(w: World, h: HandlerId, m: Message, plain: string)
    requires h in w.handlers
    requires PartnerOf(w.registry, m.sender) == Some(m.receiver)
    requires w.crypto.decrypt(m.content, w.handlers[h].sessionKey) == Some(plain)
    requires m.digitalSignature.Some? && m.signerPublicKey.Some?
    requires !w.crypto.verifySignature(plain, m.digitalSignature.value, m.signerPublicKey.value)
    ensures OnlyOutboxGrows(w, HandleText(w, h, m), h,
      [Create("SERVER", m.sender, TamperWarning, MessageType.System, MessageId(w.nextId))])
  {
  }

  /**
   * A TEXT between partners, encrypted by the sender under its own key, reaches an online
   * receiver re-encrypted so that the receiver's key recovers the plaintext; it keeps its id,
   * is marked DELIVERED, is logged in the session, and the sender gets "DELIVERED:"+id.
   */
  lemma TextRelayRoundTrip(w: World, h: HandlerId, m: Message, plain: string, r: HandlerId)
    requires Laws(w.crypto) && h in w.handlers
    requires PartnerOf(w.registry, m.sender) == Some(m.receiver)
    requires m.content == w.crypto.encrypt(plain, w.handlers[h].sessionKey)
    requires m.digitalSignature.Some? && m.signerPublicKey.Some? ==>
               w.crypto.verifySignature(plain, m.digitalSignature.value, m.signerPublicKey.value)
    requires Lookup(w, m.receiver) == Some(r) && r != h
    ensures var w' := HandleText(w, h, m);
      var forwarded := m.(content := w.crypto.encrypt(plain, w.handlers[r].sessionKey), deliveryStatus := Delivered);
      && w'.handlers[r].outbox == w.handlers[r].outbox + [forwarded]
      && w.crypto.decrypt(forwarded.content, w.handlers[r].sessionKey) == Some(plain)
      && forwarded.messageId == m.messageId && forwarded.sender == m.sender
      && w'.handlers[h].outbox == w.handlers[h].outbox
           + [Create("SERVER", m.sender, DeliveredText(m.messageId), MessageType.DeliveryReceipt, MessageId(w.nextId))]
      && w'.registry == RegistrySpec.AddMessage(GetOrCreateSession(w.registry, m.sender, m.receiver),
                                               GenerateSessionId(m.sender, m.receiver), forwarded)
      && w'.connectedClients == w.connectedClients
  {
    assert w.crypto.decrypt(m.content, w.handlers[h].sessionKey) == Some(plain);
  }

  /** A TEXT between partners to an offline receiver: logged as plaintext, "offline" notice, no receipt. */
  lemma TextOfflineNoReceipt(w: World, h: HandlerId, m: Message, plain: string)
    requires h in w.handlers
    requires PartnerOf(w.registry, m.sender) == Some(m.receiver)
    requires w.crypto.decrypt(m.content, w.handlers[h].sessionKey) == Some(plain)
    requires m.digitalSignature.Some? && m.signerPublicKey.Some? ==>
               w.crypto.verifySignature(plain, m.digitalSignature.value, m.signerPublicKey.value)
    requires Lookup(w, m.receiver).None?
    ensures var w' := HandleText(w, h, m);
      && w'.registry == RegistrySpec.AddMessage(GetOrCreateSession(w.registry, m.sender, m.receiver),
                                               GenerateSessionId(m.sender, m.receiver), m.(content := plain))
      && OnlyOutboxGrows(w.(registry := w'.registry), w', h,
           [Create("SERVER", m.sender, "User " + m.receiver + " is offline", MessageType.System, MessageId(w.nextId))])
  {
  }

  /**
   * FILE performs no pairing check: whoever the sender is paired with, a decryptable file to
   * an online receiver is logged and forwarded re-encrypted under the receiver's key.
   */
  lemma FileSkipsPairingCheck(w: World, h: HandlerId, m: Message, data: seq<byte>, r: HandlerId)
    requires Laws(w.crypto) && h in w.handlers
    requires m.fileData == w.crypto.encryptBytes(data, w.handlers[h].sessionKey)
    requires Lookup(w, m.receiver) == Some(r) && r != h
    ensures var w' := HandleFile(w, h, m);
      var forwarded := m.(fileData := w.crypto.encryptBytes(data, w.handlers[r].sessionKey));
      && w'.handlers[r].outbox == w.handlers[r].outbox + [forwarded]
      && w.crypto.decryptBytes(forwarded.fileData, w.handlers[r].sessionKey) == Some(data)
      && w'.handlers[h] == w.handlers[h]
      && GenerateSessionId(m.sender, m.receiver) in w'.registry.logs
  {
    assert w.crypto.decryptBytes(m.fileData, w.handlers[h].sessionKey) == Some(data);
  }

  // ---------------------------------------------------------------- clear and destroy

  /**
   * Because of the `getOrCreateSession` in front, CLEAR_CHAT always takes its success branch:
   * the session of the pair exists afterwards, with an empty log, paired or not.
   */
  lemma ClearChatAlwaysClears(w: World, h: HandlerId, m: Message)
    requires h in w.handlers
    ensures var w' := HandleClearChat(w, h, m);
      && w'.registry.logs.Keys == w.registry.logs.Keys + {GenerateSessionId(m.sender, m.receiver)}
      && w'.registry.logs[GenerateSessionId(m.sender, m.receiver)] == []
      && w'.registry.pairs == w.registry.pairs
      && w.handlers[h].outbox
           + [Create("SERVER", m.sender, "Chat history cleared for both users", MessageType.System, MessageId(w.nextId))]
           <= w'.handlers[h].outbox
  {
    ClearAfterGetOrCreateSucceeds(w.registry, m.sender, m.receiver);
    var sessionId := GenerateSessionId(m.sender, m.receiver);
    var (reg, ok) := RegistrySpec.ClearSession(GetOrCreateSession(w.registry, m.sender, m.receiver), sessionId);
    var w1 := Notify(w.(registry := reg), h, m.sender, "Chat history cleared for both users", MessageType.System);
    var w2 := NotifyUser(w1, m.receiver, "SERVER", "Chat history cleared by " + m.sender, MessageType.System);
    NotifyUserGrows(w1, m.receiver, "SERVER", "Chat history cleared by " + m.sender, MessageType.System);
    NotifyUserGrows(w2, m.receiver, "SERVER", "CLEAR_CHAT_AREA", MessageType.ClearLocalChat);
    OutboxesGrowTransitive(w1, w2, HandleClearChat(w, h, m));
  }

  lemma GrowsTransitive(w1: World, w2: World, w3: World)
    requires Grows(w1, w2) && Grows(w2, w3)
    ensures Grows(w1, w3)
  {
  }

  /**
   * Likewise DESTROY_CHAT always destroys: the session of the pair is gone afterwards, the
   * requesting handler has stopped, and so has the other user's when it was online.
   */
  lemma DestroyChatAlwaysDestroys(w: World, h: HandlerId, m: Message)
    requires Inv(w) && h in w.handlers
    ensures var w' := HandleDestroyChat(w, h, m);
      && GenerateSessionId(m.sender, m.receiver) !in w'.registry.logs
      && w'.handlers.Keys == w.handlers.Keys
      && !w'.handlers[h].isConnected
      && (Lookup(w, m.receiver).Some? ==> !w'.handlers[Lookup(w, m.receiver).value].isConnected)
      && w.handlers[h].outbox
           + [Create("SERVER", m.sender, "CLOSE_APPLICATION", MessageType.DestroyChat, MessageId(w.nextId))]
           <= w'.handlers[h].outbox
      && Inv(w')
  {
    var sender, receiver := m.sender, m.receiver;
    var sessionId := GenerateSessionId(sender, receiver);
    ClearAfterGetOrCreateSucceeds(w.registry, sender, receiver);
    var reg := RegistrySpec.DestroySession(GetOrCreateSession(w.registry, sender, receiver), sessionId).0;
    assert reg.pairs == w.registry.pairs;
    assert Inv(w.(registry := reg));
    assert HandleDestroyChat(w, h, m) == CloseBoth(w.(registry := reg), h, sender, receiver);
    CloseBothStops(w.(registry := reg), h, sender, receiver);
  }

  lemma CloseBothStops(w0: World, h: HandlerId, sender: string, receiver: string)
    requires Inv(w0) && h in w0.handlers
    ensures var w' := CloseBoth(w0, h, sender, receiver);
      && w'.registry.logs.Keys <= w0.registry.logs.Keys
      && w'.handlers.Keys == w0.handlers.Keys
      && !w'.handlers[h].isConnected
      && (Lookup(w0, receiver).Some? ==> !w'.handlers[Lookup(w0, receiver).value].isConnected)
      && w0.handlers[h].outbox
           + [Create("SERVER", sender, "CLOSE_APPLICATION", MessageType.DestroyChat, MessageId(w0.nextId))]
           <= w'.handlers[h].outbox
      && Inv(w')
  {
    var other := Lookup(w0, receiver);
    var w1 := Notify(w0, h, sender, "CLOSE_APPLICATION", MessageType.DestroyChat);
    NotifyGrows(w0, h, sender, "CLOSE_APPLICATION", MessageType.DestroyChat);
    OutboxesGrowKeepsInv(w0, w1);
    var w2 := if other.Some? then Notify(w1, other.value, receiver, "CLOSE_APPLICATION", MessageType.DestroyChat) else w1;
    if other.Some? {
      NotifyGrows(w1, other.value, receiver, "CLOSE_APPLICATION", MessageType.DestroyChat);
      OutboxesGrowKeepsInv(w1, w2);
    }
    var w3 := Disconnect(w2, h);
    DisconnectKeepsInv(w2, h);
    DisconnectRegistry(w2, h);
    var w4 := if other.Some? then Disconnect(w3, other.value) else w3;
    if other.Some? {
      DisconnectKeepsInv(w3, other.value);
      DisconnectRegistry(w3, other.value);
    }
    GrowsTransitive(w1, w2, w3);
    GrowsTransitive(w1, w3, w4);
  }

  /** `disconnect` only removes pairs and sessions, never adds any, and keeps the ids of streams. */
  lemma DisconnectRegistry(w: World, h: HandlerId)
    ensures Disconnect(w, h).registry.logs.Keys <= w.registry.logs.Keys
    ensures Disconnect(w, h).handlers.Keys == w.handlers.Keys
    ensures h in w.handlers ==> !Disconnect(w, h).handlers[h].isConnected
    ensures Grows(w, Disconnect(w, h))
    ensures forall x :: x in w.handlers && x != h ==> Disconnect(w, h).handlers[x].isConnected == w.handlers[x].isConnected
  {
    if h in w.handlers {
      var w1 := w.(handlers := w.handlers[h := w.handlers[h].(isConnected := false)]);
      match w.handlers[h].username
      case None =>
      case Some(u) =>
        if u in w1.registry.pairs {
          var w1' := w1.(registry := RegistrySpec.DisconnectUser(w1.registry, u).0);
          DisconnectNotifiesPartner(w1', w1.registry.pairs[u], u);
          assert Disconnect(w, h) == NotifyUser(w1', w1.registry.pairs[u], "SERVER", LeftNotice(u), MessageType.System)
                                       .(connectedClients := w.connectedClients - {u});
        }
    }
  }

  /** The notice to the partner of a disconnecting user changes only streams. */
  lemma DisconnectNotifiesPartner(w1: World, p: string, u: string)
    ensures var w2 := NotifyUser(w1, p, "SERVER", LeftNotice(u), MessageType.System);
      && w2.registry == w1.registry && w2.handlers.Keys == w1.handlers.Keys
      && w2.connectedClients == w1.connectedClients
      && Grows(w1, w2)
      && forall x :: x in w1.handlers ==> w2.handlers[x].isConnected == w1.handlers[x].isConnected
  {
    NotifyUserGrows(w1, p, "SERVER", LeftNotice(u), MessageType.System);
  }

  // ---------------------------------------------------------------- countdown

  /** `k` runs of the countdown task, one per second. */
  function RunTicks(w: World, c: CountdownState, k: nat): (World, CountdownState) {
    if k == 0 then (w, c)
    else
      var (w1, c1) := RunTicks(w, c, k - 1);
      Tick(w1, c1)
  }

  /** `after` is `before` followed by `k` TIMER_UPDATEs to `user` carrying n, n-1, ..., n-k+1. */
  ghost predicate UpdatesSent(before: seq<Message>, after: seq<Message>, user: string, n: int, k: nat) {
    && |after| == |before| + k && after[..|before|] == before
    && forall j :: |before| <= j < |after| ==>
         && after[j].messageType == TimerUpdate
         && after[j].timerDuration == n - (j - |before|)
         && after[j].receiver == user
  }

  /** One run with seconds left and both users online sends the two updates and counts down. */
  lemma TickWhileBothOnline(w: World, c: CountdownState, h1: HandlerId, h2: HandlerId)
    requires c.running && c.remainingSeconds > 0
    requires Lookup(w, c.user1) == Some(h1) && Lookup(w, c.user2) == Some(h2)
    ensures Tick(w, c) == (SendTimerUpdate(SendTimerUpdate(w, h1, c.user1, c.remainingSeconds), h2, c.user2, c.remainingSeconds),
                           c.(remainingSeconds := c.remainingSeconds - 1))
  {
  }

  /** `w'` differs from `w` only in the streams of `h1` and `h2` and in the id counter. */
  ghost predicate TwoStreamsGrow(w: World, w': World, h1: HandlerId, h2: HandlerId) {
    && h1 in w.handlers && h2 in w.handlers && h1 in w'.handlers && h2 in w'.handlers
    && w' == w.(handlers := w.handlers[h1 := w.handlers[h1].(outbox := w'.handlers[h1].outbox)]
                                      [h2 := w.handlers[h2].(outbox := w'.handlers[h2].outbox)],
                nextId := w'.nextId)
  }

  lemma TwoStreamsGrowKeepsLookup(w: World, w': World, h1: HandlerId, h2: HandlerId)
    requires TwoStreamsGrow(w, w', h1, h2)
    ensures forall u :: Lookup(w', u) == Lookup(w, u)
  {
  }

  lemma TwoStreamsGrowOutboxes(w: World, w': World, h1: HandlerId, h2: HandlerId)
    requires TwoStreamsGrow(w, w', h1, h2) && h1 != h2
    requires w.handlers[h1].outbox <= w'.handlers[h1].outbox && w.handlers[h2].outbox <= w'.handlers[h2].outbox
    ensures OutboxesGrow(w, w')
  {
  }

  lemma UpdatesSentStep(before: seq<Message>, mid: seq<Message>, after: seq<Message>, user: string, n: int, k: nat)
    requires UpdatesSent(before, mid, user, n, k)
    requires |after| == |mid| + 1 && after[..|mid|] == mid
    requires after[|mid|].messageType == TimerUpdate && after[|mid|].timerDuration == n - k && after[|mid|].receiver == user
    ensures UpdatesSent(before, after, user, n, k + 1)
  {
    assert after[..|before|] == mid[..|before|];
    forall j | |before| <= j < |after|
      ensures after[j].messageType == TimerUpdate && after[j].timerDuration == n - (j - |before|) && after[j].receiver == user
    {
      if j < |mid| {
        assert after[j] == mid[j];
      }
    }
  }

  /** One TIMER_UPDATE to `h1` or `h2` keeps the two-stream frame and appends just that update. */
  lemma SendTimerUpdateTwoStreams(w: World, w1: World, h1: HandlerId, h2: HandlerId, h: HandlerId, user: string, r: int)
    requires TwoStreamsGrow(w, w1, h1, h2) && (h == h1 || h == h2) && h1 != h2
    ensures var w2 := SendTimerUpdate(w1, h, user, r);
      && TwoStreamsGrow(w, w2, h1, h2)
      && w2.nextId == w1.nextId + 1
      && w2.handlers[h].outbox == w1.handlers[h].outbox
           + [Create("SERVER", user, "TIMER_UPDATE", TimerUpdate, MessageId(w1.nextId)).WithTimerDuration(r)]
      && (h == h1 ==> w2.handlers[h2] == w1.handlers[h2])
      && (h == h2 ==> w2.handlers[h1] == w1.handlers[h1])
  {
    var w2 := SendTimerUpdate(w1, h, user, r);
    assert w2.handlers == w1.handlers[h := w1.handlers[h].(outbox := w2.handlers[h].outbox)];
  }

  /** The step of `CountdownUpdates`: run `k + 1` after `k` runs that kept both users online. */
  lemma CountdownStep(w: World, c: CountdownState, k: nat, h1: HandlerId, h2: HandlerId, w1: World, c1: CountdownState)
    requires c.running && k < c.remainingSeconds && c1 == c.(remainingSeconds := c.remainingSeconds - k)
    requires Lookup(w, c.user1) == Some(h1) && Lookup(w, c.user2) == Some(h2) && h1 != h2
    requires TwoStreamsGrow(w, w1, h1, h2)
    requires UpdatesSent(w.handlers[h1].outbox, w1.handlers[h1].outbox, c.user1, c.remainingSeconds, k)
    requires UpdatesSent(w.handlers[h2].outbox, w1.handlers[h2].outbox, c.user2, c.remainingSeconds, k)
    ensures Tick(w1, c1).1 == c.(remainingSeconds := c.remainingSeconds - (k + 1))
    ensures TwoStreamsGrow(w, Tick(w1, c1).0, h1, h2)
    ensures UpdatesSent(w.handlers[h1].outbox, Tick(w1, c1).0.handlers[h1].outbox, c.user1, c.remainingSeconds, k + 1)
    ensures UpdatesSent(w.handlers[h2].outbox, Tick(w1, c1).0.handlers[h2].outbox, c.user2, c.remainingSeconds, k + 1)
  {
    TwoStreamsGrowKeepsLookup(w, w1, h1, h2);
    TickWhileBothOnline(w1, c1, h1, h2);
    var r := c1.remainingSeconds;
    var w2 := SendTimerUpdate(w1, h1, c.user1, r);
    SendTimerUpdateTwoStreams(w, w1, h1, h2, h1, c.user1, r);
    var w3 := SendTimerUpdate(w2, h2, c.user2, r);
    SendTimerUpdateTwoStreams(w, w2, h1, h2, h2, c.user2, r);
    var o1, o2 := w1.handlers[h1].outbox, w1.handlers[h2].outbox;
    assert w3.handlers[h1].outbox == w2.handlers[h1].outbox;
    assert w3.handlers[h1].outbox[..|o1|] == o1;
    assert w3.handlers[h2].outbox[..|o2|] == o2;
    UpdatesSentStep(w.handlers[h1].outbox, o1, w3.handlers[h1].outbox, c.user1, c.remainingSeconds, k);
    UpdatesSentStep(w.handlers[h2].outbox, o2, w3.handlers[h2].outbox, c.user2, c.remainingSeconds, k);
  }

  /** No run of the task yet: nothing sent, nothing counted. */
  lemma CountdownUpdatesNone(w: World, c: CountdownState, h1: HandlerId, h2: HandlerId)
    requires h1 in w.handlers && h2 in w.handlers
    ensures RunTicks(w, c, 0) == (w, c)
    ensures TwoStreamsGrow(w, w, h1, h2)
    ensures UpdatesSent(w.handlers[h1].outbox, w.handlers[h1].outbox, c.user1, c.remainingSeconds, 0)
    ensures UpdatesSent(w.handlers[h2].outbox, w.handlers[h2].outbox, c.user2, c.remainingSeconds, 0)
  {
    assert w.handlers == w.handlers[h1 := w.handlers[h1]][h2 := w.handlers[h2]];
  }

  /**
   * While both users stay online, the first `k` runs of an `n`-second countdown send each of
   * them TIMER_UPDATE n, n-1, ..., n-k+1 and change nothing but the two streams.
   */
  lemma {:induction false} CountdownUpdates(w: World, c: CountdownState, k: nat, h1: HandlerId, h2: HandlerId)
    requires c.running && k <= c.remainingSeconds
    requires Lookup(w, c.user1) == Some(h1) && Lookup(w, c.user2) == Some(h2) && h1 != h2
    ensures RunTicks(w, c, k).1 == c.(remainingSeconds := c.remainingSeconds - k)
    ensures TwoStreamsGrow(w, RunTicks(w, c, k).0, h1, h2)
    ensures UpdatesSent(w.handlers[h1].outbox, RunTicks(w, c, k).0.handlers[h1].outbox, c.user1, c.remainingSeconds, k)
    ensures UpdatesSent(w.handlers[h2].outbox, RunTicks(w, c, k).0.handlers[h2].outbox, c.user2, c.remainingSeconds, k)
  {
    if k == 0 {
      CountdownUpdatesNone(w, c, h1, h2);
    } else {
      CountdownUpdates(w, c, k - 1, h1, h2);
      var w1, c1 := RunTicks(w, c, k - 1).0, RunTicks(w, c, k - 1).1;
      CountdownStep(w, c, k - 1, h1, h2, w1, c1);
      assert RunTicks(w, c, k) == Tick(w1, c1);
    }
  }

  /** A run with seconds left but a user offline stops the task and sends nothing. */
  lemma CountdownStopsWhenUserOffline(w: World, c: CountdownState)
    requires c.running && c.remainingSeconds > 0
    requires Lookup(w, c.user1).None? || Lookup(w, c.user2).None?
    ensures Tick(w, c) == (w, c.(running := false))
  {
  }

  /** A stopped task does nothing, however often it runs. */
  lemma {:induction false} StoppedCountdownIsInert(w: World, c: CountdownState, k: nat)
    requires !c.running
    ensures RunTicks(w, c, k) == (w, c)
  {
    if k > 0 {
      StoppedCountdownIsInert(w, c, k - 1);
    }
  }

  /** The first half of an expiration: one TIMER_EXPIRED to each online user. */
  lemma ExpiryNotices(w: World, h1: HandlerId, h2: HandlerId, user1: string, user2: string)
    requires Inv(w)
    requires Lookup(w, user1) == Some(h1) && Lookup(w, user2) == Some(h2) && h1 != h2
    ensures var w2 := Notify(Notify(w, h1, user1, "TIMER_EXPIRED", TimerExpired), h2, user2, "TIMER_EXPIRED", TimerExpired);
      && w2.registry == w.registry && w2.handlers.Keys == w.handlers.Keys
      && Lookup(w2, user1) == Some(h1) && Lookup(w2, user2) == Some(h2)
      && w2.handlers[h1].outbox == w.handlers[h1].outbox
           + [Create("SERVER", user1, "TIMER_EXPIRED", TimerExpired, MessageId(w.nextId))]
      && w2.handlers[h2].outbox == w.handlers[h2].outbox
           + [Create("SERVER", user2, "TIMER_EXPIRED", TimerExpired, MessageId(w.nextId + 1))]
      && Inv(w2)
  {
    var w1 := Notify(w, h1, user1, "TIMER_EXPIRED", TimerExpired);
    NotifyGrows(w, h1, user1, "TIMER_EXPIRED", TimerExpired);
    OutboxesGrowKeepsInv(w, w1);
    NotifyGrows(w1, h2, user2, "TIMER_EXPIRED", TimerExpired);
    OutboxesGrowKeepsInv(w1, Notify(w1, h2, user2, "TIMER_EXPIRED", TimerExpired));
  }

  /** The second half: both users are disconnected, one after the other. */
  lemma ExpiryDisconnects(w: World, h1: HandlerId, h2: HandlerId, user1: string, user2: string)
    requires Inv(w)
    requires Lookup(w, user1) == Some(h1) && Lookup(w, user2) == Some(h2) && h1 != h2
    ensures var w' := Disconnect(Disconnect(w, h1), h2);
      && w'.handlers.Keys == w.handlers.Keys
      && w'.registry.logs.Keys <= w.registry.logs.Keys
      && Grows(w, w')
      && user1 !in w'.connectedClients && user2 !in w'.connectedClients
      && user1 !in w'.registry.pairs && user2 !in w'.registry.pairs
      && !w'.handlers[h1].isConnected && !w'.handlers[h2].isConnected
      && Inv(w')
  {
    var w4 := Disconnect(w, h1);
    DisconnectTearsDown(w, h1, user1);
    DisconnectKeepsInv(w, h1);
    DisconnectRegistry(w, h1);
    assert user1 != user2;
    assert w4.connectedClients[user2] == h2;
    assert w4.handlers[h2].username == Some(user2);
    DisconnectTearsDown(w4, h2, user2);
    DisconnectKeepsInv(w4, h2);
    DisconnectRegistry(w4, h2);
    GrowsTransitive(w, w4, Disconnect(w4, h2));
  }

  /**
   * `handleTimerExpiration` with both users online: each gets TIMER_EXPIRED, the session is
   * destroyed, and both users are disconnected and leave the directory.
   */
  lemma ExpirationTearsDown(w: World, sessionId: string, h1: HandlerId, h2: HandlerId, user1: string, user2: string)
    requires Inv(w)
    requires Lookup(w, user1) == Some(h1) && Lookup(w, user2) == Some(h2) && h1 != h2
    ensures var w' := HandleTimerExpiration(w, sessionId, user1, user2);
      && w'.handlers.Keys == w.handlers.Keys
      && w.handlers[h1].outbox + [Create("SERVER", user1, "TIMER_EXPIRED", TimerExpired, MessageId(w.nextId))]
           <= w'.handlers[h1].outbox
      && w.handlers[h2].outbox + [Create("SERVER", user2, "TIMER_EXPIRED", TimerExpired, MessageId(w.nextId + 1))]
           <= w'.handlers[h2].outbox
      && sessionId !in w'.registry.logs
      && user1 !in w'.connectedClients && user2 !in w'.connectedClients
      && user1 !in w'.registry.pairs && user2 !in w'.registry.pairs
      && !w'.handlers[h1].isConnected && !w'.handlers[h2].isConnected
      && Inv(w')
  {
    var w2 := Notify(Notify(w, h1, user1, "TIMER_EXPIRED", TimerExpired), h2, user2, "TIMER_EXPIRED", TimerExpired);
    ExpiryNotices(w, h1, h2, user1, user2);
    var w3 := w2.(registry := RegistrySpec.DestroySession(w2.registry, sessionId).0);
    assert Lookup(w3, user1) == Some(h1) && Lookup(w3, user2) == Some(h2);
    assert Inv(w3);
    ExpiryDisconnects(w3, h1, h2, user1, user2);
    assert HandleTimerExpiration(w, sessionId, user1, user2) == Disconnect(Disconnect(w3, h1), h2);
  }

  /** The stream-only frame of a countdown keeps the invariant. */
  lemma TwoStreamsGrowKeepsInv(w: World, w': World, h1: HandlerId, h2: HandlerId)
    requires TwoStreamsGrow(w, w', h1, h2) && h1 != h2 && Inv(w)
    requires w.handlers[h1].outbox <= w'.handlers[h1].outbox && w.handlers[h2].outbox <= w'.handlers[h2].outbox
    ensures Inv(w') && w'.handlers.Keys == w.handlers.Keys
    ensures forall u :: Lookup(w', u) == Lookup(w, u)
  {
    TwoStreamsGrowOutboxes(w, w', h1, h2);
    OutboxesGrowKeepsInv(w, w');
  }

  /**
   * An `n`-second countdown with both users online throughout: after the n runs of
   * `CountdownUpdates` (updates n, ..., 1, never 0) both users are still online and the
   * invariant holds, and run n + 1 is exactly `handleTimerExpiration` (whose effect
   * `ExpirationTearsDown` states) followed by a stopped task, which `StoppedCountdownIsInert`
   * keeps stopped.
   */
  lemma CountdownRunsOut(w: World, c: CountdownState, h1: HandlerId, h2: HandlerId)
    requires Inv(w) && c.running && c.remainingSeconds >= 0
    requires Lookup(w, c.user1) == Some(h1) && Lookup(w, c.user2) == Some(h2) && h1 != h2
    ensures var wn := RunTicks(w, c, c.remainingSeconds).0;
      && RunTicks(w, c, c.remainingSeconds).1 == c.(remainingSeconds := 0)
      && Inv(wn) && Lookup(wn, c.user1) == Some(h1) && Lookup(wn, c.user2) == Some(h2)
      && RunTicks(w, c, c.remainingSeconds + 1)
           == (HandleTimerExpiration(wn, c.sessionId, c.user1, c.user2), c.(remainingSeconds := 0, running := false))
  {
    var n := c.remainingSeconds;
    CountdownUpdates(w, c, n, h1, h2);
    var wn, cn := RunTicks(w, c, n).0, RunTicks(w, c, n).1;
    TwoStreamsGrowKeepsInv(w, wn, h1, h2);
    assert RunTicks(w, c, n + 1) == Tick(wn, cn);
  }

  // ---------------------------------------------------------------- typing

  /** TYPING_START records the time and forwards "<sender> is typing..." labelled with the sender. */
  lemma TypingStartRecords(w: World, m: Message, now: int)
    ensures var w' := HandleTypingStart(w, m, now);
      && w'.lastTypingTime == w.lastTypingTime[m.sender := now]
      && w'.typingStatus == w.typingStatus[m.sender := true]
      && (Lookup(w, m.receiver).Some? ==>
            w'.handlers[Lookup(w, m.receiver).value].outbox == w.handlers[Lookup(w, m.receiver).value].outbox
              + [Create(m.sender, m.receiver, m.sender + " is typing...", MessageType.TypingStart, MessageId(w.nextId))])
  {
  }

  /** The delayed check forwards TYPING_STOP exactly when the last typing time is at least 3 s old. */
  lemma TypingTimeoutFires(w: World, sender: string, receiver: string, now: int)
    ensures var w' := TypingTimeout(w, sender, receiver, now);
      var due := sender in w.lastTypingTime && now - w.lastTypingTime[sender] >= TypingTimeoutMillis;
      && (!due ==> w' == w)
      && (due ==> w'.lastTypingTime == w.lastTypingTime - {sender} && w'.typingStatus == w.typingStatus[sender := false])
      && (due && Lookup(w, receiver).Some? ==>
            w'.handlers[Lookup(w, receiver).value].outbox == w.handlers[Lookup(w, receiver).value].outbox
              + [Create(sender, receiver, "TYPING_STOP", MessageType.TypingStop, MessageId(w.nextId + 1))])
  {
  }

  /** An explicit TYPING_STOP suppresses any pending timeout for that sender. */
  lemma TypingStopSuppressesTimeout(w: World, m: Message, receiver: string, now: int)
    ensures var w' := HandleTypingStop(w, m);
      TypingTimeout(w', m.sender, receiver, now) == w'
  {
  }

  /**
   * A refresh at time `t` suppresses every check that wakes before `t` + 3 s, such as the
   * check of an earlier TYPING_START.
   */
  lemma TypingRefreshSuppressesTimeout(w: World, m: Message, t: int, receiver: string, now: int)
    requires now < t + TypingTimeoutMillis
    ensures var w' := HandleTypingStart(w, m, t);
      TypingTimeout(w', m.sender, receiver, now) == w'
  {
  }

  /** READ_RECEIPT relays "READ:" + id with every "READ:" cut out of the content first. */
  lemma ReadReceiptRelayed(w: World, m: Message)
    ensures OutboxesGrow(w, HandleReadReceipt(w, m))
    ensures Lookup(w, m.receiver).Some? ==>
      OnlyOutboxGrows(w, HandleReadReceipt(w, m), Lookup(w, m.receiver).value,
        [Create(m.sender, m.receiver, "READ:" + JavaStrings.RemoveAll(m.content, "READ:"), MessageType.ReadReceipt, MessageId(w.nextId))])
  {
    NotifyUserGrows(w, m.receiver, m.sender, "READ:" + JavaStrings.RemoveAll(m.content, "READ:"), MessageType.ReadReceipt);
  }
}
