/**
 * The server side of the chat protocol (`server.ClientHandler`) as steps over one value, the
 * `World`: the session registry, every handler object (its key, its name once joined, its
 * connection flag and the messages written to its stream), the static `connectedClients`,
 * `typingStatus` and `lastTypingTime` maps, and two counters standing for fresh message ids
 * and fresh handler objects. Each `handle*` method is one function; threads, sleeps and
 * scheduled executors become explicit steps (`Tick`, `TypingTimeout`) taken by the caller.
 */
module Protocol {
  import opened Wrappers
  import opened JavaStrings
  import opened Messages
  import opened CryptoAdapter
  import opened RegistrySpec

  type HandlerId = nat

  /**
   * One `ClientHandler` object. `awaitingJoin` is true until `run` has read the first
   * message; `outbox` is everything written to this client's stream, oldest first.
   */
  datatype Handler = Handler(
    sessionKey: Key,
    username: Option<string>,
    isConnected: bool,
    awaitingJoin: bool,
    outbox: seq<Message>)

  datatype World = World(
    crypto: Crypto,
    registry: Registry,
    handlers: map<HandlerId, Handler>,
    connectedClients: map<string, HandlerId>,
    typingStatus: map<string, bool>,
    lastTypingTime: map<string, int>,
    nextId: nat,
    nextHandler: nat)

  /** The state of one countdown `Runnable` of `startCountdownTimer`. */
  datatype CountdownState = CountdownState(
    sessionId: string,
    user1: string,
    user2: string,
    remainingSeconds: int,
    running: bool)

  /** Inactivity after which a typing indicator is withdrawn, in milliseconds. */
  const TypingTimeoutMillis := 3000

  const TamperWarning := "\U{26A0}\U{FE0F}  Message signature verification failed. Message may have been tampered with."

  /** Every registered name maps to a live, joined handler that carries that name. */
  ghost predicate DirectoryValid(w: World) {
    forall u :: u in w.connectedClients ==>
      && w.connectedClients[u] in w.handlers
      && w.handlers[w.connectedClients[u]].username == Some(u)
      && w.handlers[w.connectedClients[u]].isConnected
      && !w.handlers[w.connectedClients[u]].awaitingJoin
  }

  ghost predicate WorldValid(w: World) {
    && Symmetric(w.registry.pairs)
    && DirectoryValid(w)
    && forall h :: h in w.handlers ==> h < w.nextHandler
  }

  /** The id of the `n`-th message the server builds (the Java ids are opaque and unique). */
  function MessageId(n: nat): string {
    Decimal(n)
  }

  /** `connectedClients.get(u)`, as a handler that exists. */
  function Lookup(w: World, u: string): Option<HandlerId> {
    if u in w.connectedClients && w.connectedClients[u] in w.handlers then Some(w.connectedClients[u]) else None
  }

  /** `h.sendMessage(m)`: the message is appended to `h`'s stream. */
  function Send(w: World, h: HandlerId, m: Message): World {
    if h in w.handlers then
      w.(handlers := w.handlers[h := w.handlers[h].(outbox := w.handlers[h].outbox + [m])])
    else w
  }

  /** Build `new Message("SERVER", receiver, content, t)` (taking the next id) and send it to `h`. */
  function Notify(w: World, h: HandlerId, receiver: string, content: string, t: MessageType): World {
    Send(w.(nextId := w.nextId + 1), h, Create("SERVER", receiver, content, t, MessageId(w.nextId)))
  }

  /**
   * The message to the client registered as `u`, when there is one: built with sender
   * "SERVER" and then, where the Java calls `setSender`, re-labelled with `sender`.
   */
  function NotifyUser(w: World, u: string, sender: string, content: string, t: MessageType): World {
    match Lookup(w, u)
    case None => w
    case Some(h) => Send(w.(nextId := w.nextId + 1), h, Create(sender, u, content, t, MessageId(w.nextId)))
  }

  /** The constructor: a fresh handler with a fresh key, which is sent to the client at once. */
  function Accept(w: World, key: Key): (res: (World, HandlerId)) {
    var h := w.nextHandler;
    var w1 := w.(handlers := w.handlers[h := Handler(key, None, true, true, [])], nextHandler := h + 1);
    (Notify(w1, h, "", w.crypto.keyToString(key), MessageType.System), h)
  }

  /**
   * `disconnect`: the handler stops; a joined handler leaves its pairing (the partner, when
   * online, is told "<name> has left the chat.") and its name is taken out of the directory.
   */
  function Disconnect(w: World, h: HandlerId): World {
    if h !in w.handlers then w
    else
      var w1 := w.(handlers := w.handlers[h := w.handlers[h].(isConnected := false)]);
      match w.handlers[h].username
      case None => w1
      case Some(u) =>
        var w2 :=
          match PartnerOf(w1.registry, u)
          case None => w1
          case Some(p) =>
            NotifyUser(w1.(registry := RegistrySpec.DisconnectUser(w1.registry, u).0), p, "SERVER",
                       LeftNotice(u), MessageType.System)
        ;
        w2.(connectedClients := w2.connectedClients - {u})
  }

  function TakenText(name: string): string {
    "Username '" + name + "' is already taken. Please try another username."
  }

  /** The JOIN branch of `run`, applied to the first message a handler reads. */
  function Authenticate(w: World, h: HandlerId, m: Message): World
    requires h in w.handlers
  {
    if m.messageType != Join then w
    else
      var name := m.sender;
      if name in w.connectedClients then
        Disconnect(Notify(w, h, name, TakenText(name), MessageType.System), h)
      else
        var w1 := w.(handlers := w.handlers[h := w.handlers[h].(username := Some(name))],
                     connectedClients := w.connectedClients[name := h]);
        Notify(w1, h, name, "Welcome to Secure Chat!", MessageType.System)
  }

  function HandleConnectRequest(w: World, h: HandlerId, m: Message): World {
    var requester, target := m.sender, m.receiver;
    if requester in w.registry.pairs then
      Notify(w, h, requester, "You are already connected to " + w.registry.pairs[requester]
                               + ". Disconnect first to connect to someone else.", MessageType.System)
    else if target in w.registry.pairs then
      Notify(w, h, requester, target + " is already in a chat with someone else.", MessageType.System)
    else if Lookup(w, target).Some? then
      var w1 := NotifyUser(w, target, requester, requester + " wants to start a chat with you. Accept?",
                           MessageType.ConnectRequest);
      Notify(w1, h, requester, "Connection request sent to " + target + ". Waiting for response...", MessageType.System)
    else
      Notify(w, h, requester, target + " is not online.", MessageType.System)
  }

  // The notices below are written as concatenations of the phrases the client searches
  // for; each is the same text as the single Java literal.

  function ConnectedNotice(other: string): string {
    "Connected to " + other + ". " + "You can now start chatting!"
  }

  function AcceptedNotice(accepter: string): string {
    accepter + " accepted your request" + ". " + "You can now start chatting!"
  }

  function DisconnectedNotice(partner: string): string {
    "You have " + "disconnected" + " from " + partner + "."
  }

  function PartnerDisconnectedNotice(user: string): string {
    user + " has " + "disconnected" + " from the chat."
  }

  function LeftNotice(user: string): string {
    user + " " + "has left" + " the chat."
  }

  const ConnectFailedText := "Failed to establish connection. One of you may already be connected to someone else."

  function HandleConnectAccept(w: World, h: HandlerId, m: Message): World {
    var accepter, requester := m.sender, m.receiver;
    var (reg, ok) := RegistrySpec.ConnectUsers(w.registry, accepter, requester);
    if ok then
      var w1 := Notify(w.(registry := reg), h, accepter, ConnectedNotice(requester), MessageType.System);
      NotifyUser(w1, requester, "SERVER", AcceptedNotice(accepter), MessageType.System)
    else
      Notify(w, h, accepter, ConnectFailedText, MessageType.System)
  }

  function HandleConnectReject(w: World, h: HandlerId, m: Message): World {
    var rejecter, requester := m.sender, m.receiver;
    var w1 := NotifyUser(w, requester, "SERVER", rejecter + " declined your connection request.", MessageType.System);
    Notify(w1, h, rejecter, "You declined the connection request from " + requester + ".", MessageType.System)
  }

  function HandleDisconnectRequest(w: World, h: HandlerId, m: Message): World {
    var user := m.sender;
    match PartnerOf(w.registry, user)
    case Some(connectedTo) =>
      var w1 := w.(registry := RegistrySpec.DisconnectUser(w.registry, user).0);
      var w2 := Notify(w1, h, user, DisconnectedNotice(connectedTo), MessageType.System);
      NotifyUser(w2, connectedTo, "SERVER", PartnerDisconnectedNotice(user), MessageType.System)
    case None =>
      Notify(w, h, user, "You are not currently connected to anyone.", MessageType.System)
  }

  function DeliveredText(messageId: string): string {
    "DELIVERED:" + messageId
  }

  /**
   * `handleTextMessage`. The log entry appended to the session is the Java message object in
   * its final state: re-encrypted for the receiver and DELIVERED when the receiver is online,
   * the plaintext otherwise. A failed decryption throws before any change.
   */
  function HandleText(w: World, h: HandlerId, m: Message): World
    requires h in w.handlers
  {
    var sender, receiver := m.sender, m.receiver;
    if PartnerOf(w.registry, sender) != Some(receiver) then
      Notify(w, h, sender, "You are not connected to " + receiver + ". Send a connection request first.",
             MessageType.System)
    else
      match w.crypto.decrypt(m.content, w.handlers[h].sessionKey)
      case None => w
      case Some(plain) =>
        if && m.digitalSignature.Some? && m.signerPublicKey.Some?
           && !w.crypto.verifySignature(plain, m.digitalSignature.value, m.signerPublicKey.value)
        then
          Notify(w, h, sender, TamperWarning, MessageType.System)
        else
          StoreAndForwardText(w, h, m, plain)
  }

  /**
   * `getOrCreateSession` for the pair followed by `addMessage(entry)` on its session: the
   * entry is appended to the pair's history, the session being created first if need be.
   */
  function Log(w: World, sender: string, receiver: string, entry: Message): World {
    w.(registry := RegistrySpec.AddMessage(GetOrCreateSession(w.registry, sender, receiver),
                                           GenerateSessionId(sender, receiver), entry))
  }

  /** The second half of `handleTextMessage`, once `plain` has been decrypted and accepted. */
  function StoreAndForwardText(w: World, h: HandlerId, m: Message, plain: string): World {
    var sender, receiver := m.sender, m.receiver;
    var decrypted := m.(content := plain);
    match Lookup(w, receiver)
    case Some(r) =>
      var forwarded := decrypted.(content := w.crypto.encrypt(plain, w.handlers[r].sessionKey),
                                  deliveryStatus := Delivered);
      var w1 := Send(Log(w, sender, receiver, forwarded), r, forwarded);
      Notify(w1, h, sender, DeliveredText(m.messageId), MessageType.DeliveryReceipt)
    case None =>
      Notify(Log(w, sender, receiver, decrypted), h, sender, "User " + receiver + " is offline", MessageType.System)
  }

  /** `handleFileMessage`: no pairing check; the stored entry follows the same aliasing rule. */
  function HandleFile(w: World, h: HandlerId, m: Message): World
    requires h in w.handlers
  {
    var sender, receiver := m.sender, m.receiver;
    match w.crypto.decryptBytes(m.fileData, w.handlers[h].sessionKey)
    case None => w
    case Some(plain) =>
      var decrypted := m.(fileData := plain);
      match Lookup(w, receiver)
      case Some(r) =>
        var forwarded := decrypted.(fileData := w.crypto.encryptBytes(plain, w.handlers[r].sessionKey));
        Send(Log(w, sender, receiver, forwarded), r, forwarded)
      case None =>
        Notify(Log(w, sender, receiver, decrypted), h, sender, "User " + receiver + " is offline", MessageType.System)
  }

  function HandleClearChat(w: World, h: HandlerId, m: Message): World {
    var sender, receiver := m.sender, m.receiver;
    var sessionId := GenerateSessionId(sender, receiver);
    var (reg, ok) := RegistrySpec.ClearSession(GetOrCreateSession(w.registry, sender, receiver), sessionId);
    var w0 := w.(registry := reg);
    if ok then
      var w1 := Notify(w0, h, sender, "Chat history cleared for both users", MessageType.System);
      var w2 := NotifyUser(w1, receiver, "SERVER", "Chat history cleared by " + sender, MessageType.System);
      NotifyUser(w2, receiver, "SERVER", "CLEAR_CHAT_AREA", MessageType.ClearLocalChat)
    else w0
  }

  function HandleClearLocalChat(w: World, h: HandlerId, m: Message): World {
    Notify(w, h, m.sender, "Your local chat history cleared", MessageType.System)
  }

  /**
   * `handleDestroyChatMessage`: both clients are told to close and, after the grace delay
   * (collapsed into this step), both handlers disconnect.
   */
  function HandleDestroyChat(w: World, h: HandlerId, m: Message): World {
    var sender, receiver := m.sender, m.receiver;
    var sessionId := GenerateSessionId(sender, receiver);
    var (reg, ok) := RegistrySpec.DestroySession(GetOrCreateSession(w.registry, sender, receiver), sessionId);
    if ok then CloseBoth(w.(registry := reg), h, sender, receiver) else w.(registry := reg)
  }

  /** The success branch of DESTROY_CHAT: "CLOSE_APPLICATION" to both, then both disconnect. */
  function CloseBoth(w: World, h: HandlerId, sender: string, receiver: string): World {
    var other := Lookup(w, receiver);
    var w1 := Notify(w, h, sender, "CLOSE_APPLICATION", MessageType.DestroyChat);
    var w2 := if other.Some? then Notify(w1, other.value, receiver, "CLOSE_APPLICATION", MessageType.DestroyChat) else w1;
    var w3 := Disconnect(w2, h);
    if other.Some? then Disconnect(w3, other.value) else w3
  }

  /** The notice of `handleSetTimerMessage`: the duration as `%02d:%02d` minutes and seconds. */
  function TimerSetText(seconds: int): string {
    "\U{23F1}\U{FE0F} DESTRUCTION TIMER SET: " + Pad2(JavaDiv(seconds, 60)) + ":" + Pad2(JavaRem(seconds, 60))
    + " - Chat will auto-destroy!"
  }

  /** `handleSetTimerMessage`: notices to both users and a new running countdown. */
  function HandleSetTimer(w: World, h: HandlerId, m: Message): (World, CountdownState) {
    var sender, receiver := m.sender, m.receiver;
    var sessionId := GenerateSessionId(sender, receiver);
    var text := TimerSetText(m.timerDuration);
    var w1 := Notify(w.(registry := GetOrCreateSession(w.registry, sender, receiver)), h, sender, text, MessageType.System);
    var w2 := NotifyUser(w1, receiver, "SERVER", text + " (set by " + sender + ")", MessageType.System);
    (w2, CountdownState(sessionId, sender, receiver, m.timerDuration, true))
  }

  /** A TIMER_UPDATE carrying the remaining seconds, sent to `h`. */
  function SendTimerUpdate(w: World, h: HandlerId, user: string, remaining: int): World {
    Send(w.(nextId := w.nextId + 1), h,
         Create("SERVER", user, "TIMER_UPDATE", TimerUpdate, MessageId(w.nextId)).WithTimerDuration(remaining))
  }

  /** `handleTimerExpiration`: notices, destruction of the session, and both disconnects. */
  function HandleTimerExpiration(w: World, sessionId: string, user1: string, user2: string): World {
    var h1, h2 := Lookup(w, user1), Lookup(w, user2);
    var w1 := if h1.Some? then Notify(w, h1.value, user1, "TIMER_EXPIRED", TimerExpired) else w;
    var w2 := if h2.Some? then Notify(w1, h2.value, user2, "TIMER_EXPIRED", TimerExpired) else w1;
    var w3 := w2.(registry := RegistrySpec.DestroySession(w2.registry, sessionId).0);
    var w4 := if h1.Some? then Disconnect(w3, h1.value) else w3;
    if h2.Some? then Disconnect(w4, h2.value) else w4
  }

  /**
   * One run of the countdown task. While seconds remain and both users are online, each gets
   * a TIMER_UPDATE with the remaining count, which then drops by one; if either is offline
   * the task stops. At zero the chat expires and the task stops. A stopped task does nothing.
   */
  function Tick(w: World, c: CountdownState): (World, CountdownState) {
    if !c.running then (w, c)
    else if c.remainingSeconds > 0 then
      match (Lookup(w, c.user1), Lookup(w, c.user2))
      case (Some(h1), Some(h2)) =>
        var w1 := SendTimerUpdate(w, h1, c.user1, c.remainingSeconds);
        (SendTimerUpdate(w1, h2, c.user2, c.remainingSeconds), c.(remainingSeconds := c.remainingSeconds - 1))
      case _ => (w, c.(running := false))
    else
      (HandleTimerExpiration(w, c.sessionId, c.user1, c.user2), c.(running := false))
  }

  function HandleHeartbeat(w: World, h: HandlerId, m: Message): World {
    Notify(w, h, m.sender, "HEARTBEAT_ACK", MessageType.Heartbeat)
  }

  /** `handleTypingStart` at time `now` (milliseconds); the delayed check is `TypingTimeout`. */
  function HandleTypingStart(w: World, m: Message, now: int): World {
    var sender, receiver := m.sender, m.receiver;
    var w1 := w.(typingStatus := w.typingStatus[sender := true], lastTypingTime := w.lastTypingTime[sender := now]);
    NotifyUser(w1, receiver, sender, sender + " is typing...", MessageType.TypingStart)
  }

  function HandleTypingStop(w: World, m: Message): World {
    var sender, receiver := m.sender, m.receiver;
    var w1 := w.(typingStatus := w.typingStatus[sender := false], lastTypingTime := w.lastTypingTime - {sender});
    NotifyUser(w1, receiver, sender, "TYPING_STOP", MessageType.TypingStop)
  }

  /**
   * The thread started by TYPING_START, waking at time `now`: it stops the indicator only if
   * the sender's last typing time is still recorded and at least three seconds old.
   */
  function TypingTimeout(w: World, sender: string, receiver: string, now: int): World {
    if sender in w.lastTypingTime && now - w.lastTypingTime[sender] >= TypingTimeoutMillis then
      HandleTypingStop(w.(nextId := w.nextId + 1), Create(sender, receiver, "TYPING_STOP", MessageType.TypingStop, MessageId(w.nextId)))
    else w
  }

  /** The content of a relayed read receipt: every "READ:" is cut out and one is put in front. */
  function ReadRelayText(content: string): string {
    "READ:" + RemoveAll(content, "READ:")
  }

  /** `handleReadReceipt`: the receipt is relayed to the original sender, from the reader. */
  function HandleReadReceipt(w: World, m: Message): World {
    NotifyUser(w, m.receiver, m.sender, ReadRelayText(m.content), MessageType.ReadReceipt)
  }

  /**
   * `handleMessage`: dispatch on the message type, grouped by kind. Types without a handler
   * (JOIN, LEAVE, SYSTEM, TIMER_UPDATE, TIMER_EXPIRED) and DELIVERY_RECEIPT, which is only
   * logged, change nothing. SET_TIMER also yields the countdown it starts.
   */
  function HandleMessage(w: World, h: HandlerId, m: Message, now: int): (World, Option<CountdownState>)
    requires h in w.handlers
  {
    match m.messageType
    case SetTimer => var (w1, c) := HandleSetTimer(w, h, m); (w1, Some(c))
    case Text | File | ClearChat | ClearLocalChat | DestroyChat => (HandleHistoryMessage(w, h, m), None)
    case ConnectRequest | ConnectAccept | ConnectReject | DisconnectRequest => (HandlePairingMessage(w, h, m), None)
    case _ => (HandlePresenceMessage(w, h, m, now), None)
  }

  /** The cases of `handleMessage` that touch the history of a session. */
  function HandleHistoryMessage(w: World, h: HandlerId, m: Message): World
    requires h in w.handlers
  {
    match m.messageType
    case Text => HandleText(w, h, m)
    case File => HandleFile(w, h, m)
    case ClearChat => HandleClearChat(w, h, m)
    case ClearLocalChat => HandleClearLocalChat(w, h, m)
    case DestroyChat => HandleDestroyChat(w, h, m)
    case _ => w
  }

  /** The cases of `handleMessage` that pair and unpair users. */
  function HandlePairingMessage(w: World, h: HandlerId, m: Message): World {
    match m.messageType
    case ConnectRequest => HandleConnectRequest(w, h, m)
    case ConnectAccept => HandleConnectAccept(w, h, m)
    case ConnectReject => HandleConnectReject(w, h, m)
    case DisconnectRequest => HandleDisconnectRequest(w, h, m)
    case _ => w
  }

  /** The heartbeat, typing and receipt cases of `handleMessage`; other types change nothing. */
  function HandlePresenceMessage(w: World, h: HandlerId, m: Message, now: int): World {
    match m.messageType
    case Heartbeat => HandleHeartbeat(w, h, m)
    case TypingStart => HandleTypingStart(w, m, now)
    case TypingStop => HandleTypingStop(w, m)
    case ReadReceipt => HandleReadReceipt(w, m)
    case _ => w
  }

  /**
   * A message read by handler `h` in `run`: nothing once the handler has stopped; the first
   * message goes to the JOIN check (and is dropped if it is not a JOIN); the rest to `handleMessage`.
   */
  function Receive(w: World, h: HandlerId, m: Message, now: int): (World, Option<CountdownState>) {
    if h !in w.handlers || !w.handlers[h].isConnected then (w, None)
    else if w.handlers[h].awaitingJoin then
      (Authenticate(w.(handlers := w.handlers[h := w.handlers[h].(awaitingJoin := false)]), h, m), None)
    else HandleMessage(w, h, m, now)
  }
}
