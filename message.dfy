/**
 * The wire record `utils.Message`: a typed envelope with sender, receiver, payload and the
 * protocol-specific fields. The Java class is a mutable bean; here it is a datatype, and each
 * setter is a function returning the record with that one field replaced.
 */
module Messages {
  import opened Wrappers

  newtype byte = x: int | 0 <= x < 256

  /** `Message.MessageType`, a closed enumeration of twenty kinds. */
  datatype MessageType =
    | Text | File | Join | Leave | ClearChat | ClearLocalChat | DestroyChat | SetTimer
    | TimerUpdate | TimerExpired
    | ConnectRequest | ConnectAccept | ConnectReject | DisconnectRequest
    | System | Heartbeat
    | TypingStart | TypingStop | DeliveryReceipt | ReadReceipt

  /** `Message.DeliveryStatus`. */
  datatype DeliveryStatus = Sent | Delivered | Read

  /** Every message type, in declaration order. */
  const AllMessageTypes: seq<MessageType> := [
    Text, File, Join, Leave, ClearChat, ClearLocalChat, DestroyChat, SetTimer,
    TimerUpdate, TimerExpired,
    ConnectRequest, ConnectAccept, ConnectReject, DisconnectRequest,
    System, Heartbeat,
    TypingStart, TypingStop, DeliveryReceipt, ReadReceipt]

  lemma MessageTypeIsClosed(t: MessageType)
    ensures t in AllMessageTypes
    ensures |AllMessageTypes| == 20
    ensures forall i, j :: 0 <= i < j < |AllMessageTypes| ==> AllMessageTypes[i] != AllMessageTypes[j]
  {
  }

  lemma DeliveryStatusIsClosed(d: DeliveryStatus)
    ensures d == Sent || d == Delivered || d == Read
  {
  }

  /**
   * The fields of a message. Timestamps (`timestamp`, `deliveredAt`, `readAt`) are not kept;
   * string and array fields that Java leaves `null` are empty here, the signature fields keep
   * their absence because the relay tests for it.
   */
  datatype Message = Message(
    sender: string,
    receiver: string,
    content: string,
    messageType: MessageType,
    fileName: string,
    fileData: seq<byte>,
    fileSize: int,
    messageId: string,
    timerDuration: int,
    digitalSignature: Option<seq<byte>>,
    signerPublicKey: Option<string>,
    deliveryStatus: DeliveryStatus,
    isTyping: bool)
  {
    function WithSender(v: string): (r: Message)
      ensures r.sender == v && r.(sender := sender) == this
    {
      this.(sender := v)
    }

    function WithReceiver(v: string): (r: Message)
      ensures r.receiver == v && r.(receiver := receiver) == this
    {
      this.(receiver := v)
    }

    function WithContent(v: string): (r: Message)
      ensures r.content == v && r.(content := content) == this
    {
      this.(content := v)
    }

    function WithType(v: MessageType): (r: Message)
      ensures r.messageType == v && r.(messageType := messageType) == this
    {
      this.(messageType := v)
    }

    function WithFileName(v: string): (r: Message)
      ensures r.fileName == v && r.(fileName := fileName) == this
    {
      this.(fileName := v)
    }

    function WithFileData(v: seq<byte>): (r: Message)
      ensures r.fileData == v && r.(fileData := fileData) == this
    {
      this.(fileData := v)
    }

    function WithFileSize(v: int): (r: Message)
      ensures r.fileSize == v && r.(fileSize := fileSize) == this
    {
      this.(fileSize := v)
    }

    function WithMessageId(v: string): (r: Message)
      ensures r.messageId == v && r.(messageId := messageId) == this
    {
      this.(messageId := v)
    }

    function WithTimerDuration(v: int): (r: Message)
      ensures r.timerDuration == v && r.(timerDuration := timerDuration) == this
    {
      this.(timerDuration := v)
    }

    function WithDigitalSignature(v: Option<seq<byte>>): (r: Message)
      ensures r.digitalSignature == v && r.(digitalSignature := digitalSignature) == this
    {
      this.(digitalSignature := v)
    }

    function WithSignerPublicKey(v: Option<string>): (r: Message)
      ensures r.signerPublicKey == v && r.(signerPublicKey := signerPublicKey) == this
    {
      this.(signerPublicKey := v)
    }

    function WithDeliveryStatus(v: DeliveryStatus): (r: Message)
      ensures r.deliveryStatus == v && r.(deliveryStatus := deliveryStatus) == this
    {
      this.(deliveryStatus := v)
    }

    function WithTyping(v: bool): (r: Message)
      ensures r.isTyping == v && r.(isTyping := isTyping) == this
    {
      this.(isTyping := v)
    }
  }

  /**
   * `new Message(sender, receiver, content, type)`, which first runs the no-argument
   * constructor: a fresh `messageId` (supplied by the caller), status SENT, not typing,
   * and no file, timer or signature data.
   */
  function Create(sender: string, receiver: string, content: string, t: MessageType, id: string): (m: Message)
    ensures m.sender == sender && m.receiver == receiver && m.content == content && m.messageType == t
    ensures m.messageId == id && m.deliveryStatus == Sent && !m.isTyping
    ensures m.fileName == "" && m.fileData == [] && m.fileSize == 0 && m.timerDuration == 0
    ensures m.digitalSignature == None && m.signerPublicKey == None
  {
    Message(sender, receiver, content, t, "", [], 0, id, 0, None, None, Sent, false)
  }
}
