/** The shared vocabulary of the chat client: message kinds, directions and
    statuses, and the records for conversations, messages and users. */
module Types {
  import opened Outcomes

  /** The five element kinds of the messaging SDK. */
  datatype MessageType = Text | Image | Audio | Video | Custom

  /** The SDK tag of each element kind. */
  function MessageTypeTag(t: MessageType): string {
    match t
    case Text => "TIMTextElem"
    case Image => "TIMImageElem"
    case Audio => "TIMSoundElem"
    case Video => "TIMVideoFileElem"
    case Custom => "TIMCustomElem"
  }

  /** Reads a tag back; a string is a tag of exactly one kind or of none, so the
      five tags are pairwise distinct. */
  function ParseMessageType(tag: string): (r: Option<MessageType>)
    ensures forall t :: r == Some(t) <==> tag == MessageTypeTag(t)
  {
    if tag == "TIMTextElem" then Some(Text)
    else if tag == "TIMImageElem" then Some(Image)
    else if tag == "TIMSoundElem" then Some(Audio)
    else if tag == "TIMVideoFileElem" then Some(Video)
    else if tag == "TIMCustomElem" then Some(Custom)
    else None
  }

  /** Whether a message was sent by the local user or received from a peer. */
  datatype Direction = Sent | Received

  function DirectionTag(d: Direction): string {
    match d
    case Sent => "sent"
    case Received => "received"
  }

  function ParseDirection(tag: string): (r: Option<Direction>)
    ensures forall d :: r == Some(d) <==> tag == DirectionTag(d)
  {
    if tag == "sent" then Some(Direction.Sent)
    else if tag == "received" then Some(Received)
    else None
  }

  /** Delivery state of a message: optimistic, confirmed, or failed. */
  datatype MessageStatus = Sending | Sent | Failed

  function MessageStatusTag(s: MessageStatus): string {
    match s
    case Sending => "sending"
    case Sent => "sent"
    case Failed => "failed"
  }

  function ParseMessageStatus(tag: string): (r: Option<MessageStatus>)
    ensures forall s :: r == Some(s) <==> tag == MessageStatusTag(s)
  {
    if tag == "sending" then Some(Sending)
    else if tag == "sent" then Some(MessageStatus.Sent)
    else if tag == "failed" then Some(Failed)
    else None
  }

  /** Connection state of the session as the chat store records it. */
  datatype SessionStatus = Init | Ready | KickedOut | Error

  /** A conversation; `avatar`, `lastMessage` and `lastMessageTime` may be absent. */
  datatype Conversation = Conversation(
    conversationID: string,
    convType: string,
    name: string,
    avatar: Option<string>,
    lastMessage: Option<string>,
    lastMessageTime: Option<int>,
    unreadCount: int)

  /** A message as the user interface shows it; `isStreaming` may be absent. */
  datatype Message = Message(
    id: string,
    conversationID: string,
    from: string,
    to: string,
    msgType: MessageType,
    content: string,
    direction: Direction,
    timestamp: int,
    status: MessageStatus,
    isStreaming: Option<bool>)

  datatype User = User(userID: string, nickName: Option<string>, avatar: Option<string>)

  datatype LoginConfig = LoginConfig(sdkAppID: int, userID: string, userSig: string)

  /** One chunk of a streamed reply. */
  datatype StreamChunk = StreamChunk(content: string, isEnd: bool)
}
