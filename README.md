# SecureChatApp, modelled in Dafny

SecureChatApp is a Java chat system. Clients connect to one server. The server holds one
`ClientHandler` per connection, pairs two users into a private chat, relays their
end-to-end re-encrypted messages, and runs chat-destruction countdowns. The session and
pairing registry, `ChatSessionManager`, is a singleton that every handler shares.

The model has three layers.

- **Values and specification functions.**
  - `Messages` (message.dfy) is the wire record `Message`, with its two enumerations and its setters.
  - `RegistrySpec` (registry.dfy) is the registry's state as a value, `Registry(pairs, logs)`, with one function per operation of `ChatSessionManager`.
  - `Protocol` (protocol.dfy) is the whole server as a value, a `World`: the registry, every handler (its key, name, connection flag and the stream of messages written to it), the `connectedClients` directory, and the typing maps. Each `handle*` method of `ClientHandler` is one function on it, and so are `disconnect`, the JOIN branch of `run`, one run of the countdown task, and the typing thread's delayed check.
  - `JavaStrings` gives the `java.lang.String` operations the code relies on, with Java's semantics: `indexOf`, `contains`, `replace`, `compareTo`, `trim`, truncating `/` and `%`, and `%02d`.
  - `CryptoAdapter` holds encryption and signature checking as uninterpreted function values. `Laws` is the one assumption made of them, the round trip `decrypt(encrypt(p, k), k) == p`, and it appears as a precondition wherever it is used.
- **Imperative classes proved against those functions.**
  - `SessionManager.ChatSessionManager` and `SessionManager.ChatSession` are classes whose maps and lists change in place. The manager keeps a ghost `view` that is proved equal to its fields. Each method is proved to move that view exactly as the `RegistrySpec` function does, while keeping the pairing symmetric and keeping every table entry a live session under its own id.
  - `Server.ClientHandlers` holds the fields of all handler objects and the static maps. `State()` is its `World`, and each method is proved to move `State()` exactly as the matching `Protocol` step.
  - `Server.CountdownTask` is the countdown `Runnable`.
- **Properties.**
  - `ProtocolInvariant` proves that every step keeps the server invariant. The invariant says:
    - the pairing is symmetric;
    - every directory entry is a live, joined handler carrying that name;
    - handler ids are fresh;
    - a handler still waiting for its JOIN has no name.
  - `ProtocolLemmas` states what each rule does: JOIN uniqueness, the pairing gates, the TEXT checks and relay, teardown, the countdown tick by tick, and typing auto-stop.
- **The client (`Client`, chat_client.dfy).**
  - It parses receipts and SYSTEM notices.
  - It does the timer arithmetic.
  - It checks a request before sending it.
  - It keeps the `deliveryStatus` map.

  Each of these is proved against the server text it consumes. The main results are the receipt round trips, the name extracted from a pairing notice, and the clock a freshly set countdown shows.

## Model

| member | source | states |
|---|---|---|
| Messages.MessageTypeIsClosed | src/utils/Message.java:12-18 | every message type is one of exactly twenty distinct values |
| Messages.DeliveryStatusIsClosed | src/utils/Message.java:20-22 | a delivery status is SENT, DELIVERED or READ, nothing else |
| Messages.Create | src/utils/Message.java:47-60 | the four-argument constructor sets sender, receiver, content and type; the no-argument defaults give status SENT, not typing, the supplied fresh id, and no file, timer or signature |
| Messages.Message.WithSender | src/utils/Message.java:68 | `setSender` sets the sender; every other field is unchanged |
| Messages.Message.WithReceiver | src/utils/Message.java:71 | `setReceiver` sets the receiver; every other field is unchanged |
| Messages.Message.WithContent | src/utils/Message.java:74 | `setContent` sets the content; every other field is unchanged |
| Messages.Message.WithType | src/utils/Message.java:77 | `setType` sets the type; every other field is unchanged |
| Messages.Message.WithFileName | src/utils/Message.java:83 | `setFileName` sets the file name; every other field is unchanged |
| Messages.Message.WithFileData | src/utils/Message.java:86 | `setFileData` sets the file bytes; every other field is unchanged |
| Messages.Message.WithFileSize | src/utils/Message.java:89 | `setFileSize` sets the size; every other field is unchanged |
| Messages.Message.WithMessageId | src/utils/Message.java:92 | `setMessageId` sets the id; every other field is unchanged |
| Messages.Message.WithTimerDuration | src/utils/Message.java:95 | `setTimerDuration` sets the duration; every other field is unchanged |
| Messages.Message.WithDigitalSignature | src/utils/Message.java:99 | `setDigitalSignature` sets the signature; every other field is unchanged |
| Messages.Message.WithSignerPublicKey | src/utils/Message.java:102 | `setSignerPublicKey` sets the key; every other field is unchanged |
| Messages.Message.WithDeliveryStatus | src/utils/Message.java:106 | `setDeliveryStatus` sets the status; every other field is unchanged |
| Messages.Message.WithTyping | src/utils/Message.java:116 | `setTyping` sets the flag; every other field is unchanged |
| JavaStrings.IndexOf | src/client/ChatClient.java:824-828 | `indexOf` is the first position where the pattern occurs, or -1 when it occurs nowhere |
| JavaStrings.RemoveAllAbsent | src/server/ClientHandler.java:700 | `replace(t, "")` leaves a string without `t` unchanged |
| JavaStrings.RemoveAllPrefix | src/server/ClientHandler.java:700 | `replace(t, "")` drops a leading `t` and goes on with the rest |
| JavaStrings.CompareToAntisymmetric | src/utils/ChatSessionManager.java:184-185 | swapping the operands of `compareTo` negates the result |
| JavaStrings.CompareToZero | src/utils/ChatSessionManager.java:184-185 | `compareTo` is zero exactly on equal strings |
| JavaStrings.DecimalInjective | src/utils/Message.java:62-64 | distinct counters give distinct message ids |
| JavaStrings.JavaRem | src/server/ClientHandler.java:503-505 | Java's `%` takes the sign of the dividend and recombines with the truncating `/` |
| RegistrySpec.SessionIdSymmetric | src/utils/ChatSessionManager.java:183-187 | the session id of a pair does not depend on the order of the two names |
| RegistrySpec.SessionIdIsSortedPair | src/utils/ChatSessionManager.java:183-187 | the id is the smaller name, "_", then the larger name, in `compareTo` order |
| RegistrySpec.CreateSession | src/utils/ChatSessionManager.java:93-99 | a fresh empty log under the sorted id, replacing any old one; the pairing and the other sessions are untouched |
| RegistrySpec.ConnectUsers | src/utils/ChatSessionManager.java:49-63 | succeeds exactly when neither user is paired, and otherwise changes nothing; on success each becomes the other's partner, other pairs are kept, and a fresh session is installed |
| RegistrySpec.ConnectUsersPreservesSymmetry | src/utils/ChatSessionManager.java:49-63 | pairing stays symmetric across `connectUsers` |
| RegistrySpec.DestroySession | src/utils/ChatSessionManager.java:154-162 | true exactly when the session was present; it is removed and nothing else changes |
| RegistrySpec.DestroySessionIdempotent | src/utils/ChatSessionManager.java:154-162 | a second destroy of the same id returns false and changes nothing |
| RegistrySpec.DisconnectUser | src/utils/ChatSessionManager.java:68-81 | an unpaired user gives false and no change; a paired one loses both reciprocal entries and the pair's session |
| RegistrySpec.DisconnectUserPreservesSymmetry | src/utils/ChatSessionManager.java:68-81 | pairing stays symmetric, and afterwards neither former partner is paired |
| RegistrySpec.GetOrCreateSession | src/utils/ChatSessionManager.java:104-108 | an existing session is returned unchanged; only a missing one is created; the pairing is untouched |
| RegistrySpec.AddMessage | src/utils/ChatSessionManager.java:113-118 | exactly one message is appended at the end of a live session; other sessions and a missing id are untouched |
| RegistrySpec.ClearSession | src/utils/ChatSessionManager.java:141-149 | true exactly for a live session, whose log is emptied while it stays in the table; the rest is untouched |
| RegistrySpec.Shutdown | src/utils/ChatSessionManager.java:199-202 | every session is dropped and the pairing is kept |
| RegistrySpec.ClearAfterGetOrCreateSucceeds | src/server/ClientHandler.java:422-425 | clear and destroy that follow `getOrCreateSession` always succeed, paired or not |
| SessionManager.ChatSession.constructor | src/utils/ChatSessionManager.java:216-223 | a new session has its id and users, no messages, and is not destroyed |
| SessionManager.ChatSession.AddMessage | src/utils/ChatSessionManager.java:225-229 | a live session appends the message at the end; a destroyed one is unchanged |
| SessionManager.ChatSession.ClearMessages | src/utils/ChatSessionManager.java:231-236 | a live session is emptied; a destroyed one is unchanged |
| SessionManager.ChatSession.Destroy | src/utils/ChatSessionManager.java:242-245 | the session is destroyed and its history wiped |
| SessionManager.ChatSessionManager.constructor | src/utils/ChatSessionManager.java:19-23 | an empty registry that satisfies the invariant |
| SessionManager.ChatSessionManager.IsUserConnected | src/utils/ChatSessionManager.java:35-37 | true exactly when somebody is paired with the user |
| SessionManager.ChatSessionManager.GetConnectedUser | src/utils/ChatSessionManager.java:42-44 | the partner, exactly when paired, and the partner's partner is the user |
| SessionManager.ChatSessionManager.IsSessionActive | src/utils/ChatSessionManager.java:175-178 | agrees with the registry view: the session is in the table |
| SessionManager.ChatSessionManager.CreateSession | src/utils/ChatSessionManager.java:93-99 | moves the view as `RegistrySpec.CreateSession`, with a fresh session object for the two users, keeping the invariant |
| SessionManager.ChatSessionManager.ConnectUsers | src/utils/ChatSessionManager.java:49-63 | moves the view and the result as `RegistrySpec.ConnectUsers`, keeping the invariant |
| SessionManager.ChatSessionManager.DestroySession | src/utils/ChatSessionManager.java:154-162 | moves the view as `RegistrySpec.DestroySession`; the removed object is destroyed and emptied |
| SessionManager.ChatSessionManager.DisconnectUser | src/utils/ChatSessionManager.java:68-81 | moves the view and the result as `RegistrySpec.DisconnectUser`, keeping the invariant |
| SessionManager.ChatSessionManager.GetOrCreateSession | src/utils/ChatSessionManager.java:104-108 | moves the view as `RegistrySpec.GetOrCreateSession`; hands back the object stored under the id, the old one when present |
| SessionManager.ChatSessionManager.AddMessage | src/utils/ChatSessionManager.java:113-118 | moves the view as `RegistrySpec.AddMessage`, keeping the invariant |
| SessionManager.ChatSessionManager.ClearSession | src/utils/ChatSessionManager.java:141-149 | moves the view and the result as `RegistrySpec.ClearSession`, keeping the invariant |
| SessionManager.ChatSessionManager.Shutdown | src/utils/ChatSessionManager.java:199-202 | moves the view as `RegistrySpec.Shutdown` |
| ProtocolLemmas.JoinTakenRefused | src/server/ClientHandler.java:58-75 | a JOIN with a taken name gives one "already taken" reply, stops the handler, and leaves the directory and pairing unchanged |
| ProtocolLemmas.JoinFreeRegistered | src/server/ClientHandler.java:58-89 | a JOIN with a free name registers it for this handler and sends the welcome |
| ProtocolLemmas.FirstMessageNotJoinDropped | src/server/ClientHandler.java:58-59 | a first message that is not a JOIN is consumed with no effect |
| ProtocolLemmas.DisconnectTearsDown | src/server/ClientHandler.java:745-775 | `disconnect` stops the handler, removes the name from the directory and from the pairing (as `disconnectUser`), and only lets streams grow |
| ProtocolLemmas.DisconnectTellsPartner | src/server/ClientHandler.java:752-761 | an online partner at another connection gets exactly one "X has left the chat." notice; a user paired with itself gets that one notice on its own connection |
| ProtocolLemmas.DisconnectKeepsInv | src/server/ClientHandler.java:745-775 | `disconnect` keeps the server invariant |
| ProtocolLemmas.DisconnectRegistry | src/server/ClientHandler.java:745-775 | `disconnect` never adds sessions or handlers, stops only its own handler |
| ProtocolLemmas.DisconnectNotifiesPartner | src/server/ClientHandler.java:756-760 | the "has left the chat." notice to the partner changes only streams: the registry, the directory and every handler's connection flag stay as they were |
| ProtocolLemmas.ConnectRequestKeepsPairing | src/server/ClientHandler.java:178-219 | CONNECT_REQUEST changes neither the pairing nor the directory, in any branch; streams only grow |
| ProtocolLemmas.ConnectRequestRefusedWhenPaired | src/server/ClientHandler.java:183-197 | a paired requester or target means one SYSTEM error to the requester and nothing else |
| ProtocolLemmas.ConnectRequestForwarded | src/server/ClientHandler.java:199-218 | with neither side paired, a target online at a connection other than the requester's own gets a CONNECT_REQUEST labelled with the requester, and the requester is told it waits; an offline target gives one "not online" |
| ProtocolLemmas.ConnectAcceptGated | src/server/ClientHandler.java:224-250 | the pairing changes only through `connectUsers`; on refusal the accepter gets one error and the requester nothing; on success the accepter's stream starts with "Connected to <requester>. You can now start chatting!", an online requester at another connection gets exactly "<accepter> accepted your request. ...", and a requester at the accepter's own connection gets both notices in that order |
| ProtocolLemmas.ConnectAcceptPairs | src/server/ClientHandler.java:230-243 | when `connectUsers` succeeds, the accepter gets "Connected to <requester>. You can now start chatting!", an online requester at another connection gets "<accepter> accepted your request. ...", and a requester at the accepter's own connection gets exactly both notices, in that order; the directory is unchanged |
| ProtocolLemmas.ConnectAcceptRefused | src/server/ClientHandler.java:244-249 | when `connectUsers` refuses, the registry is unchanged and only the accepter's stream grows, by one SYSTEM error |
| ProtocolLemmas.ConnectRejectTellsBoth | src/server/ClientHandler.java:255-273 | CONNECT_REJECT leaves the pairing and the directory unchanged; an online requester gets one "declined" notice and the rejecter one confirmation; no other stream changes |
| ProtocolLemmas.TextNotPairedRejected | src/server/ClientHandler.java:315-322 | TEXT to anyone but the partner gives one SYSTEM error; nothing is stored or forwarded |
| ProtocolLemmas.TextTamperedDropped | src/server/ClientHandler.java:324-338 | TEXT whose signature fails gives one warning; nothing is stored or forwarded |
| ProtocolLemmas.TextRelayRoundTrip | src/server/ClientHandler.java:340-370 | a partner online at a connection other than the sender's own receives the text re-encrypted so that its own key recovers the plaintext, with the same id and status DELIVERED; it is logged, and the sender gets "DELIVERED:"+id |
| ProtocolLemmas.TextOfflineNoReceipt | src/server/ClientHandler.java:344-375 | an offline partner: the plaintext is logged and the sender gets an "offline" notice and no receipt |
| ProtocolLemmas.FileSkipsPairingCheck | src/server/ClientHandler.java:384-415 | FILE is logged and forwarded re-encrypted, with no pairing check, to a receiver online at a connection other than the sender's own |
| ProtocolLemmas.ClearChatAlwaysClears | src/server/ClientHandler.java:420-444 | CLEAR_CHAT always leaves the pair's session present and empty, and confirms to the sender |
| ProtocolLemmas.DestroyChatAlwaysDestroys | src/server/ClientHandler.java:459-490 | DESTROY_CHAT always removes the pair's session, tells the sender to close, and stops both handlers |
| ProtocolLemmas.CloseBothStops | src/server/ClientHandler.java:470-488 | the close-and-disconnect of both users stops both handlers and keeps the invariant |
| ProtocolLemmas.TickWhileBothOnline | src/server/ClientHandler.java:537-553 | a run with seconds left and both online sends the two updates and counts down by one |
| ProtocolLemmas.CountdownUpdates | src/server/ClientHandler.java:527-571 | with both online, the first k runs send each user TIMER_UPDATE n, n-1, ..., n-k+1 and change nothing else |
| ProtocolLemmas.CountdownStopsWhenUserOffline | src/server/ClientHandler.java:554-557 | a user offline at a run with seconds left stops the task with no effect |
| ProtocolLemmas.StoppedCountdownIsInert | src/server/ClientHandler.java:571 | a stopped task never does anything again |
| ProtocolLemmas.ExpirationTearsDown | src/server/ClientHandler.java:577-614 | expiry sends TIMER_EXPIRED to each user, destroys the session, and disconnects both, so neither stays in the directory or in the pairing |
| ProtocolLemmas.CountdownRunsOut | src/server/ClientHandler.java:527-614 | after n runs the count is 0 and both are still online; run n+1 is the expiration and stops the task, so no update 0 is sent |
| ProtocolLemmas.TypingStartRecords | src/server/ClientHandler.java:629-644 | TYPING_START records the time and flag and forwards "X is typing..." from the sender |
| ProtocolLemmas.TypingTimeoutFires | src/server/ClientHandler.java:646-657 | the delayed check stops the indicator exactly when the last typing time is still recorded and at least 3 s old |
| ProtocolLemmas.TypingStopSuppressesTimeout | src/server/ClientHandler.java:664-680 | after TYPING_STOP a pending check does nothing |
| ProtocolLemmas.TypingRefreshSuppressesTimeout | src/server/ClientHandler.java:650-651 | a refresh suppresses every check that wakes within 3 s of it |
| ProtocolLemmas.ReadReceiptRelayed | src/server/ClientHandler.java:697-712 | the receipt goes to the original sender from the reader, as "READ:" plus the content with every "READ:" cut out |
| ProtocolInvariant.AcceptKeepsInv | src/server/ClientHandler.java:31-52 | a new connection gets a never-used id and keeps the invariant |
| ProtocolInvariant.AuthenticateKeepsInv | src/server/ClientHandler.java:58-89 | the JOIN check keeps the invariant |
| ProtocolInvariant.ConnectRequestKeepsInv | src/server/ClientHandler.java:178-219 | CONNECT_REQUEST keeps the invariant |
| ProtocolInvariant.ConnectAcceptKeepsInv | src/server/ClientHandler.java:224-250 | CONNECT_ACCEPT keeps the invariant |
| ProtocolInvariant.ConnectRejectKeepsInv | src/server/ClientHandler.java:255-273 | CONNECT_REJECT keeps the invariant |
| ProtocolInvariant.DisconnectRequestKeepsInv | src/server/ClientHandler.java:278-306 | DISCONNECT_REQUEST keeps the invariant |
| ProtocolInvariant.TextKeepsInv | src/server/ClientHandler.java:311-379 | TEXT keeps the invariant |
| ProtocolInvariant.FileKeepsInv | src/server/ClientHandler.java:384-415 | FILE keeps the invariant |
| ProtocolInvariant.ClearChatKeepsInv | src/server/ClientHandler.java:420-444 | CLEAR_CHAT keeps the invariant |
| ProtocolInvariant.SetTimerKeepsInv | src/server/ClientHandler.java:495-522 | SET_TIMER keeps the invariant |
| ProtocolInvariant.TypingStartKeepsInv | src/server/ClientHandler.java:629-659 | TYPING_START keeps the invariant |
| ProtocolInvariant.TypingStopKeepsInv | src/server/ClientHandler.java:664-680 | TYPING_STOP keeps the invariant |
| ProtocolInvariant.HandleMessageKeepsInv | src/server/ClientHandler.java:113-173 | `handleMessage` keeps the invariant whatever the message |
| ProtocolInvariant.ReceiveKeepsInv | src/server/ClientHandler.java:55-108 | every message a handler reads keeps the invariant |
| ProtocolInvariant.SendTimerUpdateKeepsInv | src/server/ClientHandler.java:543-551 | one TIMER_UPDATE keeps the invariant |
| ProtocolInvariant.ExpirationKeepsInv | src/server/ClientHandler.java:577-614 | expiry keeps the invariant whoever is online |
| ProtocolInvariant.TickKeepsInv | src/server/ClientHandler.java:535-567 | one countdown run keeps the invariant |
| ProtocolInvariant.TypingTimeoutKeepsInv | src/server/ClientHandler.java:646-657 | the delayed typing check keeps the invariant |
| Server.ClientHandlers.constructor | src/server/ClientHandler.java:25-29 | no handlers, empty static maps and registry, invariant established |
| Server.ClientHandlers.ClientFor | src/server/ClientHandler.java:201 | `connectedClients.get(u)`: a live handler registered under `u`, or none |
| Server.ClientHandlers.Accept | src/server/ClientHandler.java:31-52 | a new handler with its key, which is sent at once, as `Protocol.Accept`; invariant kept |
| Server.ClientHandlers.Authenticate | src/server/ClientHandler.java:58-89 | moves the state as the JOIN branch of `run` |
| Server.ClientHandlers.Receive | src/server/ClientHandler.java:55-108 | one message read by `run`, as `Protocol.Receive`, with the countdown it starts; invariant kept |
| Server.ClientHandlers.Close | src/server/ClientHandler.java:105-107 | the `finally` disconnect, as `Protocol.Disconnect`; invariant kept |
| Server.ClientHandlers.HandleMessage | src/server/ClientHandler.java:113-173 | the dispatch, as `Protocol.HandleMessage` |
| Server.ClientHandlers.HandleConnectRequest | src/server/ClientHandler.java:178-219 | as `Protocol.HandleConnectRequest` |
| Server.ClientHandlers.HandleConnectAccept | src/server/ClientHandler.java:224-250 | as `Protocol.HandleConnectAccept` |
| Server.ClientHandlers.HandleConnectReject | src/server/ClientHandler.java:255-273 | as `Protocol.HandleConnectReject` |
| Server.ClientHandlers.HandleDisconnectRequest | src/server/ClientHandler.java:278-306 | as `Protocol.HandleDisconnectRequest` |
| Server.ClientHandlers.HandleTextMessage | src/server/ClientHandler.java:311-379 | as `Protocol.HandleText` |
| Server.ClientHandlers.StoreAndForwardText | src/server/ClientHandler.java:340-375 | as `Protocol.StoreAndForwardText` |
| Server.ClientHandlers.LogMessage | src/server/ClientHandler.java:344-346 | `getOrCreateSession` then `addMessage`, as `Protocol.Log` |
| Server.ClientHandlers.HandleFileMessage | src/server/ClientHandler.java:384-415 | as `Protocol.HandleFile` |
| Server.ClientHandlers.HandleClearChat | src/server/ClientHandler.java:420-444 | as `Protocol.HandleClearChat` |
| Server.ClientHandlers.HandleClearLocalChat | src/server/ClientHandler.java:449-454 | as `Protocol.HandleClearLocalChat` |
| Server.ClientHandlers.HandleDestroyChat | src/server/ClientHandler.java:459-490 | as `Protocol.HandleDestroyChat` |
| Server.ClientHandlers.CloseBoth | src/server/ClientHandler.java:470-488 | as `Protocol.CloseBoth` |
| Server.ClientHandlers.HandleSetTimer | src/server/ClientHandler.java:495-522 | as `Protocol.HandleSetTimer`, returning a fresh task in the countdown state it yields |
| Server.ClientHandlers.SendTimerUpdate | src/server/ClientHandler.java:543-546 | as `Protocol.SendTimerUpdate` |
| Server.ClientHandlers.SendTimerUpdates | src/server/ClientHandler.java:543-551 | the two updates of a run, in order, keeping the invariant |
| Server.ClientHandlers.HandleTimerExpiration | src/server/ClientHandler.java:577-614 | as `Protocol.HandleTimerExpiration` |
| Server.ClientHandlers.HandleHeartbeat | src/server/ClientHandler.java:619-624 | as `Protocol.HandleHeartbeat` |
| Server.ClientHandlers.HandleTypingStart | src/server/ClientHandler.java:629-644 | as `Protocol.HandleTypingStart` |
| Server.ClientHandlers.HandleTypingStop | src/server/ClientHandler.java:664-680 | as `Protocol.HandleTypingStop` |
| Server.ClientHandlers.TypingTimeout | src/server/ClientHandler.java:646-657 | as `Protocol.TypingTimeout`; invariant kept |
| Server.ClientHandlers.HandleReadReceipt | src/server/ClientHandler.java:697-712 | as `Protocol.HandleReadReceipt` |
| Server.ClientHandlers.Disconnect | src/server/ClientHandler.java:745-775 | as `Protocol.Disconnect`; sessions are only ever removed |
| Server.CountdownTask.constructor | src/server/ClientHandler.java:531-532 | a running task with the full count |
| Server.CountdownTask.Run | src/server/ClientHandler.java:535-567 | one run moves the pool and the task as `Protocol.Tick`, keeping the invariant |
| Server.CountdownTask.CountDown | src/server/ClientHandler.java:537-557 | the branch with seconds left, as `Protocol.Tick` |
| Server.CountdownTask.Expire | src/server/ClientHandler.java:558-562 | the branch at zero, as `Protocol.Tick` |
| Client.ParseDeliveryReceipt | src/client/ChatClient.java:1737-1741 | an id is found exactly when the content starts with "DELIVERED:", and the content is that prefix followed by the id |
| Client.ParseReadReceipt | src/client/ChatClient.java:1755-1759 | an id is found exactly when the content starts with "READ:", and the content is that prefix followed by the id |
| Client.DeliveryReceiptRoundTrip | src/server/ClientHandler.java:366 | parsing the server's "DELIVERED:"+id gives back exactly that id |
| Client.ReadReceiptRoundTrip | src/client/ChatClient.java:1723-1732 | a read receipt relayed through the server gives back the id, for an id without "READ:" |
| Client.ReadReceiptMarkerInIdIsCut | src/server/ClientHandler.java:700-706 | the condition is needed: the id "READ:x" comes back as "x" |
| Client.ReceiptLifecycle | src/client/ChatClient.java:1066 | a sent message goes SENT, then DELIVERED, then READ as its receipts arrive; every other entry is unchanged |
| Client.ReceiptTouchesOnlyItsId | src/client/ChatClient.java:1737-1767 | a receipt changes only the entry it names; content without the prefix changes nothing |
| Client.TimerTotal | src/client/ChatClient.java:1321-1365 | (0, 0) is refused; any other spinner pair gives a total in 1..3659 whose minutes and seconds are those entered |
| Client.HandleTimerUpdate | src/client/ChatClient.java:1570-1620 | hidden exactly when nothing remains; a warning exactly at 60, at 30 and from 10 down; amber exactly from 30 to 11; blinking from 10; the text is the icon and mm:ss |
| Client.Pad2TwoDigits | src/client/ChatClient.java:1579 | `%02d` of a number below 100 is its two digits |
| Client.Pad2Injective | src/client/ChatClient.java:1579 | two numbers below 100 with the same `%02d` are equal |
| Client.ClockTextParts | src/client/ChatClient.java:1577-1579 | below 100 minutes the clock is five characters: the minutes' digits, ':', the seconds' digits |
| Client.ClockTextInjective | src/client/ChatClient.java:1577-1579 | different remaining times never show the same clock |
| Client.TimerShowsWhatWasEntered | src/client/ChatClient.java:1350-1365 | a timer entered for a named recipient is sent; the server's countdown for it starts at the total; its first update shows the minutes and seconds entered |
| Client.SetConnectionStatus | src/client/ChatClient.java:987-1029 | only a non-empty name puts the window in the connected state |
| Client.SystemNotice | src/client/ChatClient.java:815-833 | a pairing notice never leaves the state unchanged; without one, "disconnected" or "has left" disconnects and anything else is ignored; an extracted name is non-empty |
| Client.SystemNoticeConnected | src/client/ChatClient.java:820-825 | a pairing notice that starts with "Connected to " connects to the name between that marker and ". You can now start chatting!" |
| Client.SystemNoticeAccepted | src/client/ChatClient.java:820-828 | a pairing notice without "Connected to " connects to the text before " accepted your request" |
| Client.ConnectedNoticeNamesPartner | src/server/ClientHandler.java:233 | the accepter's notice connects to the requester's name, for a name without '.' |
| Client.AcceptedNoticeNamesAccepter | src/server/ClientHandler.java:240 | the requester's notice connects to the accepter's name, for a name without a blank |
| Client.DisconnectedNoticeDisconnects | src/server/ClientHandler.java:289 | "You have disconnected from X." leaves the connected state, for a name without '!' |
| Client.PartnerDisconnectedNoticeDisconnects | src/server/ClientHandler.java:296 | "X has disconnected from the chat." leaves the connected state, for a name without '!' |
| Client.LeftNoticeDisconnects | src/server/ClientHandler.java:759 | "X has left the chat." leaves the connected state, for a name without '!' |
| Client.ConnectionRequestFor | src/client/ChatClient.java:902-925 | nothing is sent exactly when the trimmed recipient is empty or the user's own name; otherwise a CONNECT_REQUEST to that recipient |
| Client.TimerRequestFor | src/client/ChatClient.java:1287-1390 | nothing is sent exactly when the recipient is empty or both spinners are zero; otherwise a SET_TIMER whose duration splits back into the minutes and seconds entered |
| Client.TextMessagesFor | src/client/ChatClient.java:1037-1078 | nothing for an empty recipient or text; otherwise TYPING_STOP (socket up) then a TEXT message with the id, SENT, signed exactly when signing succeeded, that the session key decrypts to the trimmed text |
| Client.ChatClient.constructor | src/client/ChatClient.java:689-770 | the client after joining: connected, no partner, chat disabled, nothing tracked or written |
| Client.ChatClient.EditRecipient | src/client/ChatClient.java:1008-1011 | the recipient field takes what is typed, while not paired |
| Client.ChatClient.SendConnectionRequest | src/client/ChatClient.java:902-925 | writes exactly what `ConnectionRequestFor` yields |
| Client.ChatClient.SetTimer | src/client/ChatClient.java:1287-1390 | writes exactly what `TimerRequestFor` yields |
| Client.ChatClient.SendMessage | src/client/ChatClient.java:1037-1078 | writes `TextMessagesFor` and tracks the id as SENT exactly when something is written |
| Client.ChatClient.HandleDeliveryReceipt | src/client/ChatClient.java:1737-1750 | the map becomes `MarkDelivered` of the old one |
| Client.ChatClient.HandleReadReceipt | src/client/ChatClient.java:1755-1767 | the map becomes `MarkRead` of the old one |
| Client.ChatClient.HandleSystemMessage | src/client/ChatClient.java:815-833 | a pairing notice fills the recipient field and enables the chat; an end notice clears both; others keep them |

## Left out

- The Swing window of the client, its dialogs, colours and Swing timers, is not modelled. What the window would show appears only as the values `TimerDisplay` and `StatusChange`.
- Sockets and object streams are not modelled, and neither is `ChatServer`'s accept loop. `sendMessage` appends to the handler's stream. A failed write is not modelled.
- `Client.ChatClient.constructor` models the client's state after `connect` has read the key and joined. The socket setup and the key exchange are left out.
- AES and RSA (`EncryptionUtil`, `DigitalSignatureUtil`) are foreign libraries. They are uninterpreted function values. The only property used is the decrypt/encrypt round trip, as the `Laws` precondition.
- Threads, sleeps and executors are collapsed into explicit steps:
  - One countdown run is `Server.CountdownTask.Run`.
  - The 3-second typing thread is `Server.ClientHandlers.TypingTimeout`, with a supplied `now`.
  - The 1-second grace before the DESTROY_CHAT and expiry disconnects happens inside the same step.
  - Interleavings are not modelled. This includes the check-then-act race in `connectUsers`.
- `Server.ClientHandlers.TypingTimeout` may be called at any time and for any sender. Nothing ties it to an earlier TYPING_START.
- Message ids differ by side.
  - Server ids are `Decimal` of a counter. The random part of `generateMessageId` is dropped.
  - Client ids are parameters supplied by the caller.
- The following are not modelled: timestamps (`LocalDateTime`, `autoDestroyAt`, `setSessionTimer`), the getters, `getActiveSessions`, `getSessionMessages`, `saveFile` and `System.out` logging.
- The HEARTBEAT and DELIVERY_RECEIPT server cases only log or acknowledge. TIMER_UPDATE and TIMER_EXPIRED have no server handler and change nothing.
- The client's FILE, CLEAR_LOCAL_CHAT and typing-indicator cases only change the display and are not modelled.
- The client's other incoming cases have protocol effects that are not modelled:
  - TEXT writes a READ_RECEIPT for the message to the server (`sendReadReceipt`). The relay of that receipt is modelled on the server side, in `ProtocolLemmas.ReadReceiptRelayed`.
  - CONNECT_REQUEST shows a dialog whose answer the model has no input for. Yes writes CONNECT_ACCEPT and puts the window in the connected state with the requester's name, which changes `recipientField` and `chatEnabled`. No writes CONNECT_REJECT.
  - DESTROY_CHAT carrying "CLOSE_APPLICATION", and TIMER_EXPIRED, call `disconnect()` after a GUI timer and exit the program.
- Encryption under a connection's key is taken to succeed: `encrypt` and `encryptBytes` are total. In the Java code, an exception from re-encrypting a TEXT or FILE for the receiver is caught by `handleMessage`. The message then stays logged but is neither forwarded nor acknowledged, and the model does not capture that path.
- Strings are sequences of Unicode scalar values. Java compares UTF-16 code units, and the two can order some non-BMP names differently in `compareTo`. Fields that Java leaves `null` are empty strings, and the exceptions that a `null` field raises are not modelled: a JOIN without a sender makes `containsKey` at src/server/ClientHandler.java:63 throw, which ends in `disconnect`, where the model registers the name "".
- Client.ConnectedNoticeNamesPartner: proved only for names without '.'. With a '.' in the name, ". You can now start chatting!" can begin inside it.
- Client.AcceptedNoticeNamesAccepter: proved only for names without a blank. A name such as "Connected to" would make the client take the other branch of the extraction.
- Client.DisconnectedNoticeDisconnects: proved only for names without '!', because a name containing "You can now start chatting!" would make the notice read as a pairing.
- Client.PartnerDisconnectedNoticeDisconnects: proved only for names without '!', for the same reason.
- Client.LeftNoticeDisconnects: proved only for names without '!', for the same reason.
- Client.ReadReceiptRoundTrip: proved only for ids without "READ:", the condition under which the relay is lossless.
- Client.ChatClient.SendMessage: the `deliveryStatus` map holds the `DeliveryStatus` enumeration instead of the strings "SENT", "DELIVERED" and "READ".
- Server.ClientHandlers.StoreAndForwardText: the Java code logs the message object and then updates it in place. This method computes the final state of that object first and then logs it, which ends in the same state.
- Server.CountdownTask.CountDown: the count is decremented before the two sends rather than after. The task's fields and the pool are disjoint, so the order does not matter.
- The code is followed as written:
  - FILE makes no pairing check.
  - CONNECT_ACCEPT is honoured without a prior CONNECT_REQUEST.
  - The countdown sends updates n down to 1 and never 0.
