/** The gateway to the messaging SDK: one process-wide SDK handle with an
    initialisation flag, read paths that degrade to empty results, write and
    authentication paths that raise, the normalisers that turn provider payloads
    into `Message` and `Conversation` values, and a registry of listeners that
    receive provider pushes in registration order.

    The SDK is not modelled: every provider call becomes a `Reply` passed in. */
module TimService {
  import opened Outcomes
  import opened Types

  // ---------------------------------------------------------------------------
  // Provider payloads and replies
  // ---------------------------------------------------------------------------

  /** A message object as the SDK delivers it; `text` is `payload.text`. */
  datatype ProviderMessage = ProviderMessage(
    id: string,
    conversationID: string,
    from: string,
    to: string,
    msgType: MessageType,
    text: Option<string>,
    time: int)

  /** The peer profile attached to a provider conversation. */
  datatype ProviderProfile = ProviderProfile(
    nickName: Option<string>,
    userID: Option<string>,
    avatar: Option<string>)

  /** The last message attached to a provider conversation. */
  datatype ProviderLastMessage = ProviderLastMessage(text: Option<string>, lastTime: Option<int>)

  datatype ProviderConversation = ProviderConversation(
    conversationID: string,
    convType: string,
    userProfile: Option<ProviderProfile>,
    lastMessage: Option<ProviderLastMessage>,
    unreadCount: int)

  /** A user profile as the SDK returns it. */
  datatype ProviderUser = ProviderUser(userID: string, nickName: Option<string>, avatar: Option<string>)

  /** One page of message history; `isCompleted` is absent when no SDK exists. */
  datatype MessagePage = MessagePage(
    messageList: seq<ProviderMessage>,
    nextReqMessageID: string,
    isCompleted: Option<bool>)

  /** The number of messages each history request asks for. */
  const PageSize: nat := 20

  /** The history request sent to the provider. */
  datatype MessageQuery = MessageQuery(conversationID: string, count: nat, nextReqMessageID: Option<string>)

  /** A history call: the request sent to the provider, if any, and the page returned. */
  datatype HistoryCall = HistoryCall(request: Option<MessageQuery>, page: MessagePage)

  /** A profile call: the user ids asked for, if a request was sent, and the users returned. */
  datatype ProfileCall = ProfileCall(request: Option<seq<string>>, users: seq<User>)

  /** The credentials a login sends to the provider. */
  datatype LoginRequest = LoginRequest(userID: string, userSig: string)

  /** `TIM.TYPES.CONV_C2C`: the SDK's one-to-one conversation type, which every
      text message is created with. */
  const ConvC2C: string := "C2C"

  /** What a text message is created from: recipient, conversation type and text. */
  datatype TextRequest = TextRequest(to: string, conversationType: string, text: string)

  /** A send: the message requested, if an instance existed, and how it settled. */
  datatype SendCall = SendCall(request: Option<TextRequest>, result: Result<Message>)

  /** What a provider call came back with: a result code and data, or a rejection. */
  datatype Reply<T> = Resolved(code: int, data: T) | Rejected {
    predicate Succeeded() {
      Resolved? && code == 0
    }
  }

  /** The SDK instance created by `TIM.create` for an application id. */
  datatype Handle = Handle(sdkAppID: int, instance: nat)

  /** The SDK events the gateway binds a callback to. */
  datatype SdkEvent = SdkMessageReceived | SdkConversationListUpdated | SdkReady | SdkKickedOut | SdkError

  /** The bindings made once per SDK instance, in binding order. */
  const SdkBindings: seq<SdkEvent> :=
    [SdkMessageReceived, SdkConversationListUpdated, SdkReady, SdkKickedOut, SdkError]

  // ---------------------------------------------------------------------------
  // Normalisers
  // ---------------------------------------------------------------------------

  /** JavaScript truthiness of an optional string: present and non-empty. */
  predicate Truthy(s: Option<string>) {
    s.Some? && s.value != ""
  }

  /** `text || ''`: the text when present, otherwise the empty string. */
  function TextOrEmpty(text: Option<string>): (r: string)
    ensures text.None? ==> r == ""
    ensures text.Some? ==> r == text.value
  {
    match text
    case None => ""
    case Some(t) => t
  }

  /** The display name of a conversation: the nickname, else the user id, else
      "Unknown"; an empty string counts as absent. */
  function DisplayName(profile: Option<ProviderProfile>): (r: string)
    ensures r != ""
    ensures profile.Some? && Truthy(profile.value.nickName) ==> r == profile.value.nickName.value
    ensures (profile.Some? && !Truthy(profile.value.nickName) && Truthy(profile.value.userID))
              ==> r == profile.value.userID.value
    ensures (profile.None? || (!Truthy(profile.value.nickName) && !Truthy(profile.value.userID)))
              ==> r == "Unknown"
  {
    match profile
    case None => "Unknown"
    case Some(p) =>
      if Truthy(p.nickName) then p.nickName.value
      else if Truthy(p.userID) then p.userID.value
      else "Unknown"
  }

  /** A provider conversation as a `Conversation`. */
  function NormaliseConversation(c: ProviderConversation): (r: Conversation)
    ensures r.conversationID == c.conversationID && r.convType == c.convType
    ensures r.unreadCount == c.unreadCount
    ensures r.name == DisplayName(c.userProfile) && r.name != ""
    ensures r.avatar == if c.userProfile.Some? then c.userProfile.value.avatar else None
    ensures r.lastMessage.Some? && r.lastMessageTime.Some?
    ensures c.lastMessage.None? ==> r.lastMessage == Some("") && r.lastMessageTime == Some(0)
    ensures c.lastMessage.Some? ==> r.lastMessage == Some(TextOrEmpty(c.lastMessage.value.text))
    ensures (c.lastMessage.Some? && c.lastMessage.value.lastTime.Some?)
              ==> r.lastMessageTime == c.lastMessage.value.lastTime
    ensures (c.lastMessage.Some? && c.lastMessage.value.lastTime.None?)
              ==> r.lastMessageTime == Some(0)
  {
    var lastText := match c.lastMessage
      case None => ""
      case Some(m) => TextOrEmpty(m.text);
    var lastTime := match c.lastMessage
      case None => 0
      case Some(m) => if m.lastTime.Some? then m.lastTime.value else 0;
    Conversation(
      c.conversationID,
      c.convType,
      DisplayName(c.userProfile),
      if c.userProfile.Some? then c.userProfile.value.avatar else None,
      Some(lastText),
      Some(lastTime),
      c.unreadCount)
  }

  function NormaliseConversations(cs: seq<ProviderConversation>): seq<Conversation> {
    seq(|cs|, i requires 0 <= i < |cs| => NormaliseConversation(cs[i]))
  }

  /** A pushed provider message as a `Message`: always received and sent. */
  function ReceivedMessage(m: ProviderMessage): (r: Message)
    ensures r.direction == Received && r.status == MessageStatus.Sent && r.isStreaming.None?
    ensures m.text.None? ==> r.content == ""
    ensures m.text.Some? ==> r.content == m.text.value
    ensures r.id == m.id && r.conversationID == m.conversationID
    ensures r.from == m.from && r.to == m.to && r.msgType == m.msgType && r.timestamp == m.time
  {
    Message(m.id, m.conversationID, m.from, m.to, m.msgType, TextOrEmpty(m.text),
            Received, m.time, MessageStatus.Sent, None)
  }

  function ReceivedMessages(ms: seq<ProviderMessage>): seq<Message> {
    seq(|ms|, i requires 0 <= i < |ms| => ReceivedMessage(ms[i]))
  }

  predicate HasProfiles(cs: seq<ProviderConversation>) {
    forall i :: 0 <= i < |cs| ==> cs[i].userProfile.Some?
  }

  // ---------------------------------------------------------------------------
  // Listener registry
  // ---------------------------------------------------------------------------

  /** A subscribed callback, identified opaquely. */
  type HandlerId = int

  /** The three independent subscriber lists. */
  datatype ListenerKind = MessageListeners | ConversationListeners | StatusListeners

  /** `Array.prototype.indexOf`: the first position holding `h`, or -1. */
  function IndexOf(s: seq<HandlerId>, h: HandlerId): (k: int)
    ensures -1 <= k < |s|
    ensures k == -1 <==> h !in s
    ensures 0 <= k ==> s[k] == h && h !in s[..k]
  {
    if s == [] then -1
    else if s[0] == h then 0
    else
      var k := IndexOf(s[1..], h);
      if k < 0 then -1 else k + 1
  }

  /** `off*`: removes the first registration of `h`, keeping the others in order. */
  function RemoveFirst(s: seq<HandlerId>, h: HandlerId): (r: seq<HandlerId>)
    ensures h !in s ==> r == s
    ensures h in s ==> |r| == |s| - 1
  {
    var k := IndexOf(s, h);
    if k < 0 then s else s[..k] + s[k + 1..]
  }

  /** Removing a handler takes away exactly one of its registrations. */
  lemma RemoveFirstCount(s: seq<HandlerId>, h: HandlerId)
    ensures multiset(RemoveFirst(s, h)) == multiset(s) - multiset{h}
  {
    var k := IndexOf(s, h);
    if k >= 0 {
      assert s == s[..k] + [h] + s[k + 1..];
    }
  }

  /** The registrations before the removed one are kept, and so are those after. */
  lemma RemoveFirstKeepsOrder(s: seq<HandlerId>, h: HandlerId)
    requires h in s
    ensures var k := IndexOf(s, h);
      s[k] == h && h !in s[..k] && RemoveFirst(s, h) == s[..k] + s[k + 1..]
  {
  }

  /** Unsubscribing right after a first subscription restores the list. */
  lemma OffUndoesOn(s: seq<HandlerId>, h: HandlerId)
    requires h !in s
    ensures RemoveFirst(s + [h], h) == s
  {
  }

  /** With an earlier registration present, unsubscribing removes that one and
      keeps the newest. */
  lemma OffRemovesEarliest(s: seq<HandlerId>, h: HandlerId)
    requires h in s
    ensures RemoveFirst(s + [h], h) == RemoveFirst(s, h) + [h]
  {
    var t := s + [h];
    var k, k' := IndexOf(s, h), IndexOf(t, h);
    // Both searches stop at the same place: neither list holds `h` before its
    // own match, and the two agree on every position of `s`.
    assert forall j :: 0 <= j < k' ==> t[..k'][j] != h;
    assert forall j :: 0 <= j < k ==> s[..k][j] != h;
    assert t[k] == h && t[k'] == h;
    assert k' == k;
    assert t[..k] == s[..k];
    assert t[k + 1..] == s[k + 1..] + [h];
  }

  // ---------------------------------------------------------------------------
  // Fan-out
  // ---------------------------------------------------------------------------

  /** One call of `listener` with `payload`. */
  datatype Delivery<T> = Delivery(listener: HandlerId, payload: T)

  /** `listeners.forEach(l => l(payload))`: one call per registration, in order. */
  function Broadcast<T>(payload: T, listeners: seq<HandlerId>): (r: seq<Delivery<T>>)
    ensures |r| == |listeners|
    ensures forall j :: 0 <= j < |listeners| ==> r[j] == Delivery(listeners[j], payload)
  {
    if listeners == [] then []
    else Broadcast(payload, listeners[..|listeners| - 1]) + [Delivery(listeners[|listeners| - 1], payload)]
  }

  /** Every payload broadcast to every listener, payload by payload. */
  function FanOut<T>(payloads: seq<T>, listeners: seq<HandlerId>): (r: seq<Delivery<T>>)
    ensures |r| == |payloads| * |listeners|
  {
    if payloads == [] then []
    else
      var n := |payloads|;
      assert n * |listeners| == (n - 1) * |listeners| + |listeners|;
      FanOut(payloads[..n - 1], listeners) + Broadcast(payloads[n - 1], listeners)
  }

  /** Payload `i` reaches listener `j` at position `i * |listeners| + j`: payloads
      in order, and for each payload the listeners in registration order. */
  lemma {:induction false} FanOutAt<T>(payloads: seq<T>, listeners: seq<HandlerId>, i: nat, j: nat)
    requires i < |payloads| && j < |listeners|
    ensures i * |listeners| + j < |FanOut(payloads, listeners)|
    ensures FanOut(payloads, listeners)[i * |listeners| + j] == Delivery(listeners[j], payloads[i])
  {
    var n, m := |payloads|, |listeners|;
    var init := payloads[..n - 1];
    assert n * m == (n - 1) * m + m;
    if i < n - 1 {
      FanOutAt(init, listeners, i, j);
    } else {
      assert i * m + j == (n - 1) * m + j;
    }
  }

  function Recipients<T>(log: seq<Delivery<T>>): seq<HandlerId> {
    seq(|log|, k requires 0 <= k < |log| => log[k].listener)
  }

  /** A handler registered twice more than before is called twice more per event. */
  lemma RegisteredTwiceCalledTwice<T>(listeners: seq<HandlerId>, h: HandlerId, payload: T)
    ensures multiset(Recipients(Broadcast(payload, listeners + [h] + [h])))[h]
              == multiset(listeners)[h] + 2
  {
    var l := listeners + [h] + [h];
    assert Recipients(Broadcast(payload, l)) == l;
  }

  /** `listeners.forEach(l => l(payload))`. */
  method Deliver<T>(payload: T, listeners: seq<HandlerId>) returns (log: seq<Delivery<T>>)
    ensures log == Broadcast(payload, listeners)
  {
    log := [];
    var j := 0;
    while j < |listeners|
      invariant 0 <= j <= |listeners|
      invariant log == Broadcast(payload, listeners[..j])
    {
      assert listeners[..j + 1][..j] == listeners[..j];
      log := log + [Delivery(listeners[j], payload)];
      j := j + 1;
    }
    assert listeners[..j] == listeners;
  }

  // ---------------------------------------------------------------------------
  // The gateway
  // ---------------------------------------------------------------------------

  /** The module-level state of the gateway: the SDK handle, the initialisation
      flag, the SDK callbacks bound on the handle, and the three listener lists. */
  class Gateway {
    var tim: Option<Handle>
    var isInitialized: bool
    var sdkBindings: seq<SdkEvent>
    var messageListeners: seq<HandlerId>
    var conversationListeners: seq<HandlerId>
    var statusListeners: seq<HandlerId>

    /** The handle exists exactly when the gateway is initialised, and then its
        callbacks are bound exactly once. */
    ghost predicate Valid()
      reads this
    {
      && isInitialized == tim.Some?
      && sdkBindings == (if isInitialized then SdkBindings else [])
    }

    constructor ()
      ensures Valid() && tim == None
      ensures messageListeners == [] && conversationListeners == [] && statusListeners == []
    {
      tim := None;
      isInitialized := false;
      sdkBindings := [];
      messageListeners := [];
      conversationListeners := [];
      statusListeners := [];
    }

    function Listeners(kind: ListenerKind): seq<HandlerId>
      reads this
    {
      match kind
      case MessageListeners => messageListeners
      case ConversationListeners => conversationListeners
      case StatusListeners => statusListeners
    }

    /** `initTIM`: creates the SDK instance and binds its callbacks once; later
        calls hand back the existing instance. `instance` names the instance the
        SDK would create. */
    method InitTIM(config: LoginConfig, instance: nat) returns (h: Handle)
      requires Valid()
      modifies this
      ensures Valid() && isInitialized
      ensures old(isInitialized) ==> h == old(tim).value && tim == old(tim) && sdkBindings == old(sdkBindings)
      ensures !old(isInitialized) ==> h == Handle(config.sdkAppID, instance) && tim == Some(h)
      ensures messageListeners == old(messageListeners)
      ensures conversationListeners == old(conversationListeners)
      ensures statusListeners == old(statusListeners)
    {
      if isInitialized {
        return tim.value;
      }
      h := Handle(config.sdkAppID, instance);
      tim := Some(h);
      sdkBindings := SdkBindings;
      isInitialized := true;
    }

    /** `login`: creates the instance only when none exists, then fails unless the
        provider answers with result code 0. */
    method Login(config: LoginConfig, instance: nat, reply: Reply<()>)
      returns (request: LoginRequest, r: Result<()>)
      requires Valid()
      modifies this
      ensures Valid() && isInitialized
      ensures request == LoginRequest(config.userID, config.userSig)
      ensures old(tim).Some? ==> tim == old(tim) && sdkBindings == old(sdkBindings)
      ensures old(tim).None? ==> tim == Some(Handle(config.sdkAppID, instance))
      ensures r.Ok? <==> reply.Succeeded()
      ensures reply.Rejected? ==> r == Err(ProviderRejected)
      ensures reply.Resolved? && reply.code != 0 ==> r == Err(LoginFailed)
      ensures messageListeners == old(messageListeners)
      ensures conversationListeners == old(conversationListeners)
      ensures statusListeners == old(statusListeners)
    {
      if tim.None? {
        var _ := InitTIM(config, instance);
      }
      request := LoginRequest(config.userID, config.userSig);
      match reply
      case Rejected => r := Err(ProviderRejected);
      case Resolved(code, _) => r := if code != 0 then Err(LoginFailed) else Ok(());
    }

    /** `logout`: nothing to do without an instance; otherwise only a rejected
        call raises, and the result code is not inspected. */
    function Logout(reply: Reply<()>): (r: Result<()>)
      reads this
      ensures tim.None? ==> r == Ok(())
      ensures r.Err? <==> tim.Some? && reply.Rejected?
      ensures r.Err? ==> r.error == ProviderRejected
    {
      if tim.None? then Ok(())
      else if reply.Rejected? then Err(ProviderRejected)
      else Ok(())
    }

    /** `getConversationList`: never raises; without an instance, on any provider
        error, or when a conversation lacks its profile (a dereference of
        `undefined` inside the guarded block), the result is empty. */
    function GetConversationList(reply: Reply<seq<ProviderConversation>>): (r: seq<Conversation>)
      reads this
      ensures tim.None? || !reply.Succeeded() ==> r == []
      ensures tim.Some? && reply.Succeeded() && !HasProfiles(reply.data) ==> r == []
      ensures tim.Some? && reply.Succeeded() && HasProfiles(reply.data) ==>
                |r| == |reply.data| &&
                forall i :: 0 <= i < |r| ==> r[i] == NormaliseConversation(reply.data[i])
    {
      if tim.None? || !reply.Succeeded() || !HasProfiles(reply.data) then []
      else NormaliseConversations(reply.data)
    }

    /** `getMessageList`: without an instance nothing is requested and the page is
        empty with no completion flag; otherwise a page of `PageSize` messages is
        requested at the caller's cursor and `reply` is the provider's answer.
        Never raises: a provider error gives an empty page marked complete. */
    function GetMessageList(conversationID: string, nextReqMessageID: Option<string>,
                            reply: Reply<MessagePage>): (r: HistoryCall)
      reads this
      ensures r.request.None? <==> tim.None?
      ensures r.request.Some? ==>
                r.request.value.conversationID == conversationID &&
                r.request.value.count == 20 &&
                r.request.value.nextReqMessageID == nextReqMessageID
      ensures tim.None? ==> r.page == MessagePage([], "", None)
      ensures tim.Some? && !reply.Succeeded() ==> r.page == MessagePage([], "", Some(true))
      ensures tim.Some? && reply.Succeeded() ==> r.page == reply.data
      ensures !(tim.Some? && reply.Succeeded()) ==> r.page.messageList == []
    {
      if tim.None? then HistoryCall(None, MessagePage([], "", None))
      else
        var request := MessageQuery(conversationID, PageSize, nextReqMessageID);
        HistoryCall(Some(request), if reply.Succeeded() then reply.data else MessagePage([], "", Some(true)))
    }

    /** `getUserProfile`: never raises; empty without an instance or on error. */
    function GetUserProfile(userIDs: seq<string>, reply: Reply<seq<ProviderUser>>): (r: ProfileCall)
      reads this
      ensures r.request.None? <==> tim.None?
      ensures r.request.Some? ==> r.request.value == userIDs
      ensures tim.None? || !reply.Succeeded() ==> r.users == []
      ensures tim.Some? && reply.Succeeded() ==>
                |r.users| == |reply.data| &&
                forall i :: 0 <= i < |r.users| ==>
                  r.users[i].userID == reply.data[i].userID &&
                  r.users[i].nickName == reply.data[i].nickName &&
                  r.users[i].avatar == reply.data[i].avatar
    {
      if tim.None? then ProfileCall(None, [])
      else if !reply.Succeeded() then ProfileCall(Some(userIDs), [])
      else
        var ps := reply.data;
        ProfileCall(Some(userIDs),
                    seq(|ps|, i requires 0 <= i < |ps| => User(ps[i].userID, ps[i].nickName, ps[i].avatar)))
    }

    /** `sendTextMessage`: with an instance, a one-to-one text message for `to`
        is requested; `created` is the message object the SDK built from that
        request (its id, conversation, sender and time are the SDK's) and `reply`
        the provider's answer to sending it. Raises without an instance, on
        rejection and on a non-zero result code; on success the message carries
        the sent text, is outgoing and confirmed. */
    function SendTextMessage(to: string, text: string, created: ProviderMessage, reply: Reply<()>): (r: SendCall)
      reads this
      ensures r.request.None? <==> tim.None?
      ensures r.request.Some? ==> r.request.value == TextRequest(to, ConvC2C, text)
      ensures tim.None? ==> r.result == Err(NotInitialised)
      ensures tim.Some? && reply.Rejected? ==> r.result == Err(ProviderRejected)
      ensures tim.Some? && reply.Resolved? && reply.code != 0 ==> r.result == Err(SendFailed)
      ensures r.result.Ok? <==> tim.Some? && reply.Succeeded()
      ensures r.result.Ok? ==>
                var m := r.result.value;
                m.content == text && m.direction == Direction.Sent &&
                m.status == MessageStatus.Sent && m.id == created.id &&
                m.conversationID == created.conversationID &&
                m.timestamp == created.time && m.isStreaming.None? &&
                m.from == created.from && m.to == created.to &&
                m.msgType == created.msgType
    {
      if tim.None? then SendCall(None, Err(NotInitialised))
      else
        var request := TextRequest(to, ConvC2C, text);
        match reply
        case Rejected => SendCall(Some(request), Err(ProviderRejected))
        case Resolved(code, _) =>
          if code != 0 then SendCall(Some(request), Err(SendFailed))
          else SendCall(Some(request),
                        Ok(Message(created.id, created.conversationID, created.from, created.to,
                                   created.msgType, text, Direction.Sent, created.time,
                                   MessageStatus.Sent, None)))
    }

    /** `isTIMReady`: initialised and the SDK reports itself ready. The handle is
        stored before the flag is set, so a ready gateway always has a handle and
        a send that follows a readiness check does not meet the missing-instance
        error. */
    function IsTIMReady(sdkReady: bool): (r: bool)
      requires Valid()
      reads this
      ensures r <==> isInitialized && sdkReady
      ensures r ==> tim.Some?
    {
      isInitialized && sdkReady
    }

    /** `onMessageReceived`: each pushed message, normalised, goes to every message
        listener; messages in push order, listeners in registration order. */
    method OnMessageReceived(events: seq<ProviderMessage>) returns (log: seq<Delivery<Message>>)
      ensures log == FanOut(ReceivedMessages(events), messageListeners)
    {
      log := [];
      var i := 0;
      while i < |events|
        invariant 0 <= i <= |events|
        invariant log == FanOut(ReceivedMessages(events[..i]), messageListeners)
      {
        var msg := ReceivedMessage(events[i]);
        var delivered := Deliver(msg, messageListeners);
        assert ReceivedMessages(events[..i + 1])[..i] == ReceivedMessages(events[..i]);
        log := log + delivered;
        i := i + 1;
      }
      assert events[..i] == events;
    }

    /** `onConversationListUpdated`: the normalised list goes to every
        conversation listener in registration order. */
    method OnConversationListUpdated(dtos: seq<ProviderConversation>) returns (log: seq<Delivery<seq<Conversation>>>)
      ensures |log| == |conversationListeners|
      ensures forall j :: 0 <= j < |log| ==>
                log[j].listener == conversationListeners[j] &&
                |log[j].payload| == |dtos| &&
                forall i :: 0 <= i < |dtos| ==> log[j].payload[i] == NormaliseConversation(dtos[i])
    {
      var conversations := NormaliseConversations(dtos);
      log := Deliver(conversations, conversationListeners);
    }

    /** `onSDKReady`: every status listener receives `ready`. */
    method OnSdkReady() returns (log: seq<Delivery<SessionStatus>>)
      ensures Recipients(log) == statusListeners
      ensures forall j :: 0 <= j < |log| ==> log[j].payload == Ready
    {
      log := Deliver(Ready, statusListeners);
    }

    /** `onKickedOut`: every status listener receives `kicked_out`. */
    method OnKickedOut() returns (log: seq<Delivery<SessionStatus>>)
      ensures Recipients(log) == statusListeners
      ensures forall j :: 0 <= j < |log| ==> log[j].payload == KickedOut
    {
      log := Deliver(SessionStatus.KickedOut, statusListeners);
    }

    /** `onError`: every status listener receives `error`. */
    method OnError() returns (log: seq<Delivery<SessionStatus>>)
      ensures Recipients(log) == statusListeners
      ensures forall j :: 0 <= j < |log| ==> log[j].payload == Error
    {
      log := Deliver(Error, statusListeners);
    }

    /** `onMessage`, `onConversation`, `onStatus`: append without deduplication. */
    method On(kind: ListenerKind, handler: HandlerId)
      modifies this
      ensures Listeners(kind) == old(Listeners(kind)) + [handler]
      ensures forall k :: k != kind ==> Listeners(k) == old(Listeners(k))
      ensures tim == old(tim) && isInitialized == old(isInitialized) && sdkBindings == old(sdkBindings)
    {
      Replace(kind, Listeners(kind) + [handler]);
    }

    /** `offMessage`, `offConversation`, `offStatus`: remove the first
        registration of the handler, if any. */
    method Off(kind: ListenerKind, handler: HandlerId)
      modifies this
      ensures Listeners(kind) == RemoveFirst(old(Listeners(kind)), handler)
      ensures forall k :: k != kind ==> Listeners(k) == old(Listeners(k))
      ensures tim == old(tim) && isInitialized == old(isInitialized) && sdkBindings == old(sdkBindings)
    {
      Replace(kind, RemoveFirst(Listeners(kind), handler));
    }

    /** Reassigns one of the three listener arrays. */
    method Replace(kind: ListenerKind, listeners: seq<HandlerId>)
      modifies this
      ensures Listeners(kind) == listeners
      ensures forall k :: k != kind ==> Listeners(k) == old(Listeners(k))
      ensures tim == old(tim) && isInitialized == old(isInitialized) && sdkBindings == old(sdkBindings)
    {
      match kind
      case MessageListeners => messageListeners := listeners;
      case ConversationListeners => conversationListeners := listeners;
      case StatusListeners => statusListeners := listeners;
    }
  }

  /** A send that follows a successful readiness check never fails for want of
      an instance: it fails only when the provider rejects it or answers with a
      non-zero code. */
  lemma ReadyGatewayHasInstance(g: Gateway, sdkReady: bool, to: string, text: string,
                                created: ProviderMessage, reply: Reply<()>)
    requires g.Valid() && g.IsTIMReady(sdkReady)
    ensures g.SendTextMessage(to, text, created, reply).request == Some(TextRequest(to, ConvC2C, text))
    ensures g.SendTextMessage(to, text, created, reply).result.Ok? <==> reply.Succeeded()
    ensures g.SendTextMessage(to, text, created, reply).result != Err(NotInitialised)
  {
  }
}
