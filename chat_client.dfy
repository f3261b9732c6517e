/**
 * The protocol side of `client.ChatClient`, without its Swing window:
 *  - the parsing of delivery and read receipts, and of the SYSTEM notices that announce a
 *    pairing or its end;
 *  - the timer dialog's arithmetic and the countdown display;
 *  - the checks made before a request is written;
 *  - the `deliveryStatus` map the client keeps for its own messages.
 * What the window would show is returned as a value, and what the client writes to the
 * server is appended to `outbox`. The class `ChatClient` holds the fields these operations
 * change; each of its methods is stated by the functions of this module.
 */
module Client {
  import opened Wrappers
  import opened JavaStrings
  import opened Messages
  import opened CryptoAdapter
  import Protocol

  // ---------------------------------------------------------------- receipts

  /** `handleDeliveryReceipt`'s parse: the id after "DELIVERED:" (`substring(10)`), when the prefix is there. */
  function ParseDeliveryReceipt(content: string): (id: Option<string>)
    ensures id.Some? <==> StartsWith(content, "DELIVERED:")
    ensures id.Some? ==> content == "DELIVERED:" + id.value
  {
    if StartsWith(content, "DELIVERED:") then Some(content[10..]) else None
  }

  /** `handleReadReceipt`'s parse: the id after "READ:" (`substring(5)`), when the prefix is there. */
  function ParseReadReceipt(content: string): (id: Option<string>)
    ensures id.Some? <==> StartsWith(content, "READ:")
    ensures id.Some? ==> content == "READ:" + id.value
  {
    if StartsWith(content, "READ:") then Some(content[5..]) else None
  }

  /** `sendReadReceipt`: the content of the receipt for message `messageId`. */
  function ReadReceiptText(messageId: string): string {
    "READ:" + messageId
  }

  /** The server's "DELIVERED:" + id, parsed by the sender, gives back exactly that id. */
  lemma DeliveryReceiptRoundTrip(messageId: string)
    ensures ParseDeliveryReceipt(Protocol.DeliveredText(messageId)) == Some(messageId)
  {
    assert Protocol.DeliveredText(messageId)[10..] == messageId;
  }

  /**
   * A read receipt survives the relay (which cuts every "READ:" out and puts one in front)
   * when the id itself does not contain "READ:".
   */
  lemma ReadReceiptRoundTrip(messageId: string)
    requires !Contains(messageId, "READ:")
    ensures ParseReadReceipt(Protocol.ReadRelayText(ReadReceiptText(messageId))) == Some(messageId)
  {
    RemoveAllPrefix(messageId, "READ:");
    RemoveAllAbsent(messageId, "READ:");
  }

  /** The condition is needed: the receipt for an id "READ:x" comes back naming "x". */
  lemma ReadReceiptMarkerInIdIsCut()
    ensures ParseReadReceipt(Protocol.ReadRelayText(ReadReceiptText("READ:x"))) == Some("x")
  {
    assert ReadReceiptText("READ:x") == "READ:" + "READ:x";
    RemoveAllPrefix("READ:x", "READ:");
    assert "READ:x" == "READ:" + "x";
    RemoveAllPrefix("x", "READ:");
  }

  /** `deliveryStatus.put(id, "DELIVERED")` for a well-formed delivery receipt; anything else changes nothing. */
  function MarkDelivered(status: map<string, DeliveryStatus>, content: string): map<string, DeliveryStatus> {
    match ParseDeliveryReceipt(content)
    case Some(id) => status[id := Delivered]
    case None => status
  }

  /** `deliveryStatus.put(id, "READ")` for a well-formed read receipt; anything else changes nothing. */
  function MarkRead(status: map<string, DeliveryStatus>, content: string): map<string, DeliveryStatus> {
    match ParseReadReceipt(content)
    case Some(id) => status[id := Read]
    case None => status
  }

  /**
   * A message's status over its life: SENT when written, DELIVERED once the server's receipt
   * arrives, READ once the reader's receipt is relayed back, while the entries of every other
   * message stay as they were.
   */
  lemma ReceiptLifecycle(status: map<string, DeliveryStatus>, messageId: string)
    requires !Contains(messageId, "READ:")
    ensures var sent := status[messageId := Sent];
            var delivered := MarkDelivered(sent, Protocol.DeliveredText(messageId));
            var read := MarkRead(delivered, Protocol.ReadRelayText(ReadReceiptText(messageId)));
            && delivered[messageId] == Delivered && read[messageId] == Read
            && read.Keys == status.Keys + {messageId}
            && (forall id :: id in status && id != messageId ==> read[id] == status[id])
  {
    DeliveryReceiptRoundTrip(messageId);
    ReadReceiptRoundTrip(messageId);
  }

  /** A receipt touches only the entry of the id it names; content without the prefix touches nothing. */
  lemma ReceiptTouchesOnlyItsId(status: map<string, DeliveryStatus>, content: string, id: string)
    ensures ParseDeliveryReceipt(content) != Some(id) ==>
              (id in MarkDelivered(status, content) <==> id in status) &&
              (id in status ==> MarkDelivered(status, content)[id] == status[id])
    ensures ParseReadReceipt(content) != Some(id) ==>
              (id in MarkRead(status, content) <==> id in status) &&
              (id in status ==> MarkRead(status, content)[id] == status[id])
    ensures !StartsWith(content, "DELIVERED:") ==> MarkDelivered(status, content) == status
    ensures !StartsWith(content, "READ:") ==> MarkRead(status, content) == status
  {
  }

  // ---------------------------------------------------------------- the timer

  /** The ranges of the timer dialog's spinners: minutes 0..60, seconds 0..59. */
  predicate InSpinnerRange(minutes: int, seconds: int) {
    0 <= minutes <= 60 && 0 <= seconds <= 59
  }

  /** The "Start Timer" button: (0, 0) is refused; otherwise the total is `minutes * 60 + seconds`. */
  function TimerTotal(minutes: int, seconds: int): (total: Option<int>)
    requires InSpinnerRange(minutes, seconds)
    ensures total.None? <==> minutes == 0 && seconds == 0
    ensures total.Some? ==> 1 <= total.value <= 3659
    ensures total.Some? ==> total.value / 60 == minutes && total.value % 60 == seconds
  {
    if minutes == 0 && seconds == 0 then None else Some(minutes * 60 + seconds)
  }

  /**
   * The "mm:ss" of the countdown display (`%02d:%02d` of `r / 60` and `r % 60`). The
   * operands are positive, where Java's and Dafny's division agree.
   */
  function ClockText(remaining: int): string
    requires remaining > 0
  {
    Pad2(remaining / 60) + ":" + Pad2(remaining % 60)
  }

  /** The stopwatch emoji (U+23F1 with the emoji variation selector) that leads the label. */
  const TimerIcon := "\U{23F1}\U{FE0F}"

  const WarningPrefix := "\U{26A0}\U{FE0F} DESTRUCTION WARNING: Chat will be destroyed in "

  datatype TimerColour = DangerRed | WarningAmber

  /** The timer label: hidden, or showing a text in a colour, blinking in the last ten seconds. */
  datatype TimerLabel = Hidden | Shown(text: string, colour: TimerColour, blinks: bool)

  /** What a TIMER_UPDATE does to the window: the label, and the chat line it may append. */
  datatype TimerDisplay = TimerDisplay(timerLabel: TimerLabel, warning: Option<string>)

  /**
   * `handleTimerUpdate`. A positive remaining time is shown as mm:ss, amber from 30 down to
   * 11 seconds and red otherwise, blinking from 10 down; at 60, at 30 and from 10 down a
   * warning is appended, built from the label text without its first two characters (the
   * emoji), so the clock follows "in " after two spaces. Zero or less hides the label.
   */
  function HandleTimerUpdate(remaining: int): (d: TimerDisplay)
    ensures d.timerLabel.Hidden? <==> remaining <= 0
    ensures d.timerLabel.Hidden? ==> d.warning.None?
    ensures d.warning.Some? <==> remaining == 60 || remaining == 30 || 1 <= remaining <= 10
    ensures d.timerLabel.Shown? ==> (d.timerLabel.colour == WarningAmber <==> 10 < remaining <= 30)
    ensures d.timerLabel.Shown? ==> (d.timerLabel.blinks <==> remaining <= 10)
    ensures d.timerLabel.Shown? ==> d.timerLabel.text == TimerIcon + " " + ClockText(remaining)
    ensures d.warning.Some? ==> d.warning.value == "[SYSTEM] " + WarningPrefix + " " + ClockText(remaining)
  {
    if remaining > 0 then
      var timeDisplay := TimerIcon + " " + ClockText(remaining);
      var colour := if remaining <= 10 then DangerRed else if remaining <= 30 then WarningAmber else DangerRed;
      var warning :=
        if remaining == 60 || remaining == 30 || remaining <= 10
        then Some("[SYSTEM] " + WarningPrefix + timeDisplay[2..])
        else None;
      TimerDisplay(Shown(timeDisplay, colour, remaining <= 10), warning)
    else
      TimerDisplay(Hidden, None)
  }

  /** `%02d` of a number below 100 is its two decimal digits. */
  lemma Pad2TwoDigits(n: int)
    requires 0 <= n < 100
    ensures Pad2(n) == [Digit(n / 10), Digit(n % 10)]
  {
    if n >= 10 {
      assert Decimal(n) == Decimal(n / 10) + [Digit(n % 10)];
    }
  }

  lemma DigitInjective(a: nat, b: nat)
    requires a < 10 && b < 10 && Digit(a) == Digit(b)
    ensures a == b
  {
    assert Decimal(a) == [Digit(a)] && Decimal(b) == [Digit(b)];
    DecimalInjective(a, b);
  }

  /** Two numbers below 100 with the same `%02d` are equal. */
  lemma Pad2Injective(a: int, b: int)
    requires 0 <= a < 100 && 0 <= b < 100 && Pad2(a) == Pad2(b)
    ensures a == b
  {
    Pad2TwoDigits(a);
    Pad2TwoDigits(b);
    DigitInjective(a / 10, b / 10);
    DigitInjective(a % 10, b % 10);
  }

  /** Below 100 minutes the clock is the two digits of the minutes, ':', the two of the seconds. */
  lemma ClockTextParts(r: int)
    requires 0 < r < 6000
    ensures |ClockText(r)| == 5
    ensures ClockText(r)[..2] == Pad2(r / 60) && ClockText(r)[3..] == Pad2(r % 60)
  {
    Pad2TwoDigits(r / 60);
    Pad2TwoDigits(r % 60);
  }

  /** Below 100 minutes, different remaining times never show the same clock. */
  lemma ClockTextInjective(r1: int, r2: int)
    requires 0 < r1 < 6000 && 0 < r2 < 6000
    requires ClockText(r1) == ClockText(r2)
    ensures r1 == r2
  {
    ClockTextParts(r1);
    ClockTextParts(r2);
    Pad2Injective(r1 / 60, r2 / 60);
    Pad2Injective(r1 % 60, r2 % 60);
  }

  /**
   * A timer entered in the dialog, with a recipient named, is sent; the countdown the server
   * starts for it begins at the total, and its first update shows exactly the minutes and
   * seconds entered.
   */
  lemma TimerShowsWhatWasEntered(w: Protocol.World, h: Protocol.HandlerId, username: string,
                                 recipientText: string, minutes: int, seconds: int, id: string)
    requires InSpinnerRange(minutes, seconds) && (minutes, seconds) != (0, 0)
    requires Trim(recipientText) != ""
    ensures TimerRequestFor(username, recipientText, minutes, seconds, id).Some?
    ensures var request := TimerRequestFor(username, recipientText, minutes, seconds, id).value;
            var countdown := Protocol.HandleSetTimer(w, h, request).1;
            && countdown.running && countdown.remainingSeconds == request.timerDuration
            && HandleTimerUpdate(countdown.remainingSeconds).timerLabel.Shown?
            && HandleTimerUpdate(countdown.remainingSeconds).timerLabel.text
               == TimerIcon + " " + Pad2(minutes) + ":" + Pad2(seconds)
  {
    var t := TimerRequestFor(username, recipientText, minutes, seconds, id).value.timerDuration;
    assert ClockText(t) == Pad2(minutes) + ":" + Pad2(seconds);
  }

  // ---------------------------------------------------------------- SYSTEM notices

  /** How a SYSTEM message changes the connection display. */
  datatype StatusChange =
    | Unchanged
    | Connected(partner: string)
    | NotConnected
    /** `substring` throws; the catch only reports it in the chat area. */
    | Throws

  /** `setConnectionStatus`: only a non-empty name puts the window in the connected state. */
  function SetConnectionStatus(connected: bool, name: string): (c: StatusChange)
    ensures c.Connected? <==> connected && name != ""
    ensures c.Connected? ==> c.partner == name
    ensures !c.Connected? ==> c == NotConnected
  {
    if connected && name != "" then Connected(name) else NotConnected
  }

  const ChattingMarker := "You can now start chatting!"
  const ConnectedMarker := "Connected to "
  /** ". You can now start chatting!" */
  const ConnectedEnd := ". " + ChattingMarker
  const AcceptedMarker := " accepted your request"

  /**
   * The SYSTEM branch of `handleIncomingMessage`. A notice with "You can now start chatting!"
   * connects: to the name between "Connected to " and ". You can now start chatting!" (the
   * `substring` throws when the end comes first), or else to the text before
   * " accepted your request", or else to "" (which shows as not connected). Otherwise a
   * notice with "disconnected" or "has left" disconnects, and any other changes nothing.
   */
  function SystemNotice(text: string): (c: StatusChange)
    ensures Contains(text, ChattingMarker) ==> c != Unchanged
    ensures !Contains(text, ChattingMarker) ==>
              c == (if Contains(text, "disconnected") || Contains(text, "has left") then NotConnected else Unchanged)
    ensures c.Throws? ==> Contains(text, ConnectedMarker)
    ensures c.Connected? ==> c.partner != "" && |c.partner| < |text|
  {
    if Contains(text, ChattingMarker) then
      if Contains(text, ConnectedMarker) then
        var begin, end := IndexOf(text, ConnectedMarker) + 13, IndexOf(text, ConnectedEnd);
        if begin <= end then SetConnectionStatus(true, text[begin..end]) else Throws
      else if Contains(text, AcceptedMarker) then
        SetConnectionStatus(true, text[..IndexOf(text, AcceptedMarker)])
      else
        SetConnectionStatus(true, "")
    else if Contains(text, "disconnected") || Contains(text, "has left") then NotConnected
    else Unchanged
  }

  /** A pairing notice that starts with "Connected to " names what lies between the two markers. */
  lemma SystemNoticeConnected(text: string, name: string)
    requires Contains(text, ChattingMarker) && IndexOf(text, ConnectedMarker) == 0
    requires IndexOf(text, ConnectedEnd) == 13 + |name| && text[13..13 + |name|] == name
    ensures SystemNotice(text) == SetConnectionStatus(true, name)
  {
  }

  /** A pairing notice with only " accepted your request" in it names what precedes it. */
  lemma SystemNoticeAccepted(text: string, name: string)
    requires Contains(text, ChattingMarker) && !Contains(text, ConnectedMarker)
    requires IndexOf(text, AcceptedMarker) == |name| && text[..|name|] == name
    ensures SystemNotice(text) == SetConnectionStatus(true, name)
  {
  }

  /** Every occurrence of `p` in `s` starts where `s` holds the first character of `p`. */
  lemma OccurrenceStartsWith(s: string, p: string, j: int, k: int)
    requires OccursAt(s, p, j) && 0 <= k < |p|
    ensures s[j + k] == p[k]
  {
    assert s[j..j + |p|][k] == s[j + k];
  }

  /** A text without a character of `p` does not contain `p`. */
  lemma AbsentCharacter(s: string, p: string, k: int)
    requires 0 <= k < |p| && p[k] !in s
    ensures !Contains(s, p)
  {
    if Contains(s, p) {
      OccurrenceStartsWith(s, p, IndexOf(s, p), k);
    }
  }

  /** An occurrence inside `b` is one inside `a + b`, shifted by `|a|`. */
  lemma OccursAfter(a: string, b: string, p: string, i: int)
    requires OccursAt(b, p, i)
    ensures OccursAt(a + b, p, |a| + i)
  {
    assert (a + b)[|a| + i..|a| + i + |p|] == b[i..i + |p|];
  }

  /** An occurrence inside `a` is one inside `a + b`. */
  lemma OccursBefore(a: string, b: string, p: string, i: int)
    requires OccursAt(a, p, i)
    ensures OccursAt(a + b, p, i)
  {
    assert (a + b)[i..i + |p|] == a[i..i + |p|];
  }

  /** With no '.' in the name, ". You can now start chatting!" first occurs right after it. */
  lemma ConnectedNoticeEnd(other: string)
    requires '.' !in other
    ensures IndexOf(Protocol.ConnectedNotice(other), ConnectedEnd) == 13 + |other|
    ensures Protocol.ConnectedNotice(other)[13..13 + |other|] == other
  {
    var head := ConnectedMarker + other;
    var text := Protocol.ConnectedNotice(other);
    assert text == head + ConnectedEnd;
    assert OccursAt(ConnectedEnd, ConnectedEnd, 0);
    OccursAfter(head, ConnectedEnd, ConnectedEnd, 0);
    assert '.' !in head;
    forall j | 0 <= j < |head| ensures !OccursAt(text, ConnectedEnd, j) {
      if OccursAt(text, ConnectedEnd, j) {
        OccurrenceStartsWith(text, ConnectedEnd, j, 0);
      }
    }
    FirstOccurrence(text, ConnectedEnd, |head|);
  }

  /** The accepter's notice announces a pairing. */
  lemma ConnectedNoticeChatting(other: string)
    ensures Contains(Protocol.ConnectedNotice(other), ChattingMarker)
  {
    var head := ConnectedMarker + other;
    assert Protocol.ConnectedNotice(other) == head + ConnectedEnd;
    assert OccursAt(ChattingMarker, ChattingMarker, 0);
    OccursAfter(". ", ChattingMarker, ChattingMarker, 0);
    OccursAfter(head, ConnectedEnd, ChattingMarker, 2);
    ContainsOccurrence(Protocol.ConnectedNotice(other), ChattingMarker, |head| + 2);
  }

  /** The accepter's notice begins with "Connected to ". */
  lemma ConnectedNoticeStart(other: string)
    ensures IndexOf(Protocol.ConnectedNotice(other), ConnectedMarker) == 0
  {
    var head := ConnectedMarker + other;
    var text := Protocol.ConnectedNotice(other);
    assert text == head + ConnectedEnd;
    assert OccursAt(ConnectedMarker, ConnectedMarker, 0);
    OccursBefore(ConnectedMarker, other, ConnectedMarker, 0);
    OccursBefore(head, ConnectedEnd, ConnectedMarker, 0);
    FirstOccurrence(text, ConnectedMarker, 0);
  }

  /**
   * The accepter's own notice names the other user, the name after "Connected to ", when
   * that name holds no '.' (so ". You can now start chatting!" cannot begin inside it).
   */
  lemma ConnectedNoticeNamesPartner(other: string)
    requires '.' !in other
    ensures SystemNotice(Protocol.ConnectedNotice(other)) == SetConnectionStatus(true, other)
  {
    var text := Protocol.ConnectedNotice(other);
    ConnectedNoticeChatting(other);
    ConnectedNoticeStart(other);
    ConnectedNoticeEnd(other);
    SystemNoticeConnected(text, other);
  }

  /** The positions of the blanks of "Connected to ". */
  lemma ConnectedMarkerBlanks(k: int)
    requires 0 <= k < 13 && ConnectedMarker[k] == ' '
    ensures k == 9 || k == 12
  {
  }

  /** With no blank in the name, "Connected to " occurs nowhere in the requester's notice. */
  lemma AcceptedNoticeLacksConnectedMarker(accepter: string)
    requires ' ' !in accepter
    ensures !Contains(Protocol.AcceptedNotice(accepter), ConnectedMarker)
  {
    var tail := AcceptedMarker + ConnectedEnd;
    var text := Protocol.AcceptedNotice(accepter);
    var n := |accepter|;
    assert text == accepter + tail;
    assert 'C' !in AcceptedMarker && 'C' !in ". " && 'C' !in ChattingMarker;
    assert tail[0] == ' ' && tail[1] == 'a';
    forall j | 0 <= j ensures !OccursAt(text, ConnectedMarker, j) {
      if OccursAt(text, ConnectedMarker, j) {
        OccurrenceStartsWith(text, ConnectedMarker, j, 0);
        if j + 9 < n {
          OccurrenceStartsWith(text, ConnectedMarker, j, 9);
        } else if j < n {
          OccurrenceStartsWith(text, ConnectedMarker, j, n - j);
          ConnectedMarkerBlanks(n - j);
          OccurrenceStartsWith(text, ConnectedMarker, j, 10);
        }
      }
    }
  }

  /** The requester's notice announces a pairing. */
  lemma AcceptedNoticeChatting(accepter: string)
    ensures Contains(Protocol.AcceptedNotice(accepter), ChattingMarker)
  {
    var tail := AcceptedMarker + ConnectedEnd;
    assert Protocol.AcceptedNotice(accepter) == accepter + tail;
    assert OccursAt(ChattingMarker, ChattingMarker, 0);
    OccursAfter(". ", ChattingMarker, ChattingMarker, 0);
    OccursAfter(AcceptedMarker, ConnectedEnd, ChattingMarker, 2);
    OccursAfter(accepter, tail, ChattingMarker, 24);
    ContainsOccurrence(Protocol.AcceptedNotice(accepter), ChattingMarker, |accepter| + 24);
  }

  /** With no blank in the name, " accepted your request" first occurs right after it. */
  lemma AcceptedNoticeMarkerIndex(accepter: string)
    requires ' ' !in accepter
    ensures IndexOf(Protocol.AcceptedNotice(accepter), AcceptedMarker) == |accepter|
    ensures Protocol.AcceptedNotice(accepter)[..|accepter|] == accepter
  {
    var tail := AcceptedMarker + ConnectedEnd;
    var text := Protocol.AcceptedNotice(accepter);
    var n := |accepter|;
    assert text == accepter + tail;
    assert OccursAt(AcceptedMarker, AcceptedMarker, 0);
    OccursBefore(AcceptedMarker, ConnectedEnd, AcceptedMarker, 0);
    OccursAfter(accepter, tail, AcceptedMarker, 0);
    forall j | 0 <= j < n ensures !OccursAt(text, AcceptedMarker, j) {
      if OccursAt(text, AcceptedMarker, j) {
        OccurrenceStartsWith(text, AcceptedMarker, j, 0);
      }
    }
    FirstOccurrence(text, AcceptedMarker, n);
  }

  /**
   * The requester's notice names the accepter, the text before " accepted your request",
   * when that name holds no blank (so neither marker can begin or end inside it).
   */
  lemma AcceptedNoticeNamesAccepter(accepter: string)
    requires ' ' !in accepter
    ensures SystemNotice(Protocol.AcceptedNotice(accepter)) == SetConnectionStatus(true, accepter)
  {
    var text := Protocol.AcceptedNotice(accepter);
    AcceptedNoticeChatting(accepter);
    AcceptedNoticeMarkerIndex(accepter);
    AcceptedNoticeLacksConnectedMarker(accepter);
    SystemNoticeAccepted(text, accepter);
  }

  /** "You have disconnected from X." (the DISCONNECT_REQUEST reply) leaves the connected state. */
  lemma DisconnectedNoticeDisconnects(partner: string)
    requires '!' !in partner
    ensures SystemNotice(Protocol.DisconnectedNotice(partner)) == NotConnected
  {
    var text := Protocol.DisconnectedNotice(partner);
    assert ChattingMarker[26] == '!' && '!' !in text;
    AbsentCharacter(text, ChattingMarker, 26);
    assert OccursAt("disconnected", "disconnected", 0);
    OccursAfter("You have ", "disconnected", "disconnected", 0);
    OccursBefore("You have " + "disconnected", " from " + partner + ".", "disconnected", 9);
    assert text == ("You have " + "disconnected") + (" from " + partner + ".");
    ContainsOccurrence(text, "disconnected", 9);
  }

  /** "X has disconnected from the chat." (told to the partner) leaves the connected state. */
  lemma PartnerDisconnectedNoticeDisconnects(user: string)
    requires '!' !in user
    ensures SystemNotice(Protocol.PartnerDisconnectedNotice(user)) == NotConnected
  {
    var head := user + " has ";
    var text := Protocol.PartnerDisconnectedNotice(user);
    assert ChattingMarker[26] == '!' && '!' !in text;
    AbsentCharacter(text, ChattingMarker, 26);
    assert OccursAt("disconnected", "disconnected", 0);
    OccursAfter(head, "disconnected", "disconnected", 0);
    OccursBefore(head + "disconnected", " from the chat.", "disconnected", |head|);
    ContainsOccurrence(text, "disconnected", |head|);
  }

  /** "X has left the chat." (sent when the partner's connection ends) leaves the connected state. */
  lemma LeftNoticeDisconnects(user: string)
    requires '!' !in user
    ensures SystemNotice(Protocol.LeftNotice(user)) == NotConnected
  {
    var head := user + " ";
    var text := Protocol.LeftNotice(user);
    assert ChattingMarker[26] == '!' && '!' !in text;
    AbsentCharacter(text, ChattingMarker, 26);
    assert OccursAt("has left", "has left", 0);
    OccursAfter(head, "has left", "has left", 0);
    OccursBefore(head + "has left", " the chat.", "has left", |head|);
    ContainsOccurrence(text, "has left", |head|);
  }

  // ---------------------------------------------------------------- what the client writes

  /**
   * `sendConnectionRequest`: the recipient field, trimmed, must be neither empty nor the
   * client's own name (each refusal is a dialog, and nothing is written).
   */
  function ConnectionRequestFor(username: string, recipientText: string, id: string): (r: Option<Message>)
    ensures r.None? <==> Trim(recipientText) == "" || Trim(recipientText) == username
    ensures r.Some? ==> r.value.sender == username && r.value.receiver == Trim(recipientText)
    ensures r.Some? ==> r.value.receiver != "" && r.value.receiver != username
    ensures r.Some? ==> r.value.messageType == ConnectRequest && r.value.messageId == id
  {
    var recipient := Trim(recipientText);
    if recipient == "" || recipient == username then None
    else Some(Create(username, recipient, "CONNECTION_REQUEST", ConnectRequest, id))
  }

  /**
   * `setTimer`: refused when the trimmed recipient field is empty (before the dialog opens)
   * or when both spinners are zero; otherwise a SET_TIMER carrying the total in seconds.
   */
  function TimerRequestFor(username: string, recipientText: string, minutes: int, seconds: int, id: string): (r: Option<Message>)
    requires InSpinnerRange(minutes, seconds)
    ensures r.None? <==> Trim(recipientText) == "" || (minutes == 0 && seconds == 0)
    ensures r.Some? ==> r.value.sender == username && r.value.receiver == Trim(recipientText)
    ensures r.Some? ==> r.value.messageType == MessageType.SetTimer && r.value.messageId == id
    ensures r.Some? ==> 1 <= r.value.timerDuration <= 3659
    ensures r.Some? ==> r.value.timerDuration / 60 == minutes && r.value.timerDuration % 60 == seconds
  {
    var recipient := Trim(recipientText);
    if recipient == "" then None
    else
      match TimerTotal(minutes, seconds)
      case None => None
      case Some(total) => Some(Create(username, recipient, "SET_TIMER", MessageType.SetTimer, id).WithTimerDuration(total))
  }

  /**
   * `sendMessage`: nothing when the trimmed recipient or the trimmed text is empty.
   * Otherwise `sendTypingStop` first writes a TYPING_STOP when the socket is up, then the
   * TEXT message follows: the trimmed text encrypted under the session key, carrying the
   * signature and public key when `signing` holds them (signing can fail, and then neither
   * is set).
   */
  function TextMessagesFor(c: Crypto, key: Key, username: string, socketOpen: bool, recipientText: string,
                           messageText: string, stopId: string, id: string,
                           signing: Option<(seq<byte>, string)>): (out: seq<Message>)
    ensures out == [] <==> Trim(recipientText) == "" || Trim(messageText) == ""
    ensures out != [] ==> |out| == if socketOpen then 2 else 1
    ensures out != [] && socketOpen ==>
              out[0].messageType == TypingStop && out[0].sender == username && out[0].receiver == Trim(recipientText)
    ensures out != [] ==>
              var m := out[|out| - 1];
              && m.messageType == Text && m.messageId == id && m.deliveryStatus == Sent
              && m.sender == username && m.receiver == Trim(recipientText)
              && (m.digitalSignature.Some? <==> signing.Some?)
              && (m.signerPublicKey.Some? <==> signing.Some?)
    ensures out != [] && Laws(c) ==> c.decrypt(out[|out| - 1].content, key) == Some(Trim(messageText))
  {
    var recipient, text := Trim(recipientText), Trim(messageText);
    if recipient == "" || text == "" then []
    else
      var stop := if socketOpen then [Create(username, recipient, "TYPING_STOP", TypingStop, stopId)] else [];
      var m := Create(username, recipient, c.encrypt(text, key), Text, id);
      var signed :=
        match signing
        case Some((signature, publicKey)) => m.WithDigitalSignature(Some(signature)).WithSignerPublicKey(Some(publicKey))
        case None => m;
      stop + [signed]
  }

  function OptionToSeq<T>(o: Option<T>): seq<T> {
    match o
    case Some(v) => [v]
    case None => []
  }

  /** The effect of a SYSTEM notice's status change on the recipient field and the chat controls. */
  function FieldAfter(field: string, change: StatusChange): string {
    match change
    case Connected(name) => name
    case NotConnected => ""
    case _ => field
  }

  /**
   * The client's fields that the protocol reads or writes: its name and session key, the
   * socket flag `isConnected`, the recipient field and whether the chat controls are enabled
   * (both set by `setConnectionStatus`), the delivery status of its own messages, and the
   * messages written to the server, in order.
   */
  class ChatClient {
    const username: string
    const sessionKey: Key
    var isConnected: bool
    var recipientField: string
    var chatEnabled: bool
    var deliveryStatus: map<string, DeliveryStatus>
    var outbox: seq<Message>

    /** The client right after `connect` has joined: no pairing, no tracked message, nothing written since. */
    constructor (username: string, sessionKey: Key)
      ensures this.username == username && this.sessionKey == sessionKey
      ensures isConnected && recipientField == "" && !chatEnabled
      ensures deliveryStatus == map[] && outbox == []
    {
      this.username := username;
      this.sessionKey := sessionKey;
      isConnected := true;
      recipientField := "";
      chatEnabled := false;
      deliveryStatus := map[];
      outbox := [];
    }

    /** The user types into the recipient field, which is editable only while not connected. */
    method EditRecipient(text: string)
      requires !chatEnabled
      modifies this`recipientField
      ensures recipientField == text
    {
      recipientField := text;
    }

    method SendConnectionRequest(id: string)
      modifies this`outbox
      ensures outbox == old(outbox) + OptionToSeq(ConnectionRequestFor(username, recipientField, id))
    {
      var request := ConnectionRequestFor(username, recipientField, id);
      if request.Some? {
        outbox := outbox + [request.value];
      }
    }

    /** `setTimer` followed by the dialog's "Start Timer" with the spinners' values. */
    method SetTimer(minutes: int, seconds: int, id: string)
      requires InSpinnerRange(minutes, seconds)
      modifies this`outbox
      ensures outbox == old(outbox) + OptionToSeq(TimerRequestFor(username, recipientField, minutes, seconds, id))
    {
      var request := TimerRequestFor(username, recipientField, minutes, seconds, id);
      if request.Some? {
        outbox := outbox + [request.value];
      }
    }

    /** `sendMessage`: the message is tracked as SENT, under its id, exactly when it is written. */
    method SendMessage(c: Crypto, messageText: string, stopId: string, id: string,
                       signing: Option<(seq<byte>, string)>)
      modifies this`outbox, this`deliveryStatus
      ensures var out := TextMessagesFor(c, sessionKey, username, isConnected, recipientField,
                                         messageText, stopId, id, signing);
              && outbox == old(outbox) + out
              && deliveryStatus == if out == [] then old(deliveryStatus) else old(deliveryStatus)[id := Sent]
    {
      ghost var out := TextMessagesFor(c, sessionKey, username, isConnected, recipientField,
                                       messageText, stopId, id, signing);
      var recipient, text := Trim(recipientField), Trim(messageText);
      if recipient == "" || text == "" {
        assert out == [];
        return;
      }
      var stop := if isConnected then [Create(username, recipient, "TYPING_STOP", TypingStop, stopId)] else [];
      outbox := outbox + stop;
      var m := Create(username, recipient, c.encrypt(text, sessionKey), Text, id);
      var signed := if signing.Some? then m.WithDigitalSignature(Some(signing.value.0)).WithSignerPublicKey(Some(signing.value.1)) else m;
      deliveryStatus := deliveryStatus[id := Sent];
      outbox := outbox + [signed];
      assert out == stop + [signed] && out != [];
    }

    method HandleDeliveryReceipt(m: Message)
      modifies this`deliveryStatus
      ensures deliveryStatus == MarkDelivered(old(deliveryStatus), m.content)
    {
      var content := m.content;
      if StartsWith(content, "DELIVERED:") {
        var messageId := content[10..];
        deliveryStatus := deliveryStatus[messageId := Delivered];
      }
    }

    method HandleReadReceipt(m: Message)
      modifies this`deliveryStatus
      ensures deliveryStatus == MarkRead(old(deliveryStatus), m.content)
    {
      var content := m.content;
      if StartsWith(content, "READ:") {
        var messageId := content[5..];
        deliveryStatus := deliveryStatus[messageId := Read];
      }
    }

    /** The SYSTEM branch: a pairing notice fills the recipient field and enables the chat; an end notice clears both. */
    method HandleSystemMessage(m: Message)
      modifies this`recipientField, this`chatEnabled
      ensures var change := SystemNotice(m.content);
              && recipientField == FieldAfter(old(recipientField), change)
              && chatEnabled == (if change.Connected? then true else if change.NotConnected? then false else old(chatEnabled))
    {
      match SystemNotice(m.content)
      case Connected(name) =>
        recipientField := name;
        chatEnabled := true;
      case NotConnected =>
        recipientField := "";
        chatEnabled := false;
      case _ =>
    }
  }
}
