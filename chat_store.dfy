/** The chat store: the client-side state that reconciles provider data with
    what the user interface shows. It holds the selected conversation, the
    conversation list, one message list per conversation id, the session status
    and the login flag.

    The `ChatStore` class carries this state in fields. Each state-changing
    method's new state is given exactly, by an effect function on the
    `ChatState` value or inline; `InitListeners` changes the gateway's listener
    lists, not the store, and `CurrentMessages` only reads. Results of gateway calls
    (readiness, conversation lists, message pages, send, login and logout
    outcomes) and clock readings are parameters. */
module Chat {
  import opened Outcomes
  import opened Types
  import opened TimService

  // ---------------------------------------------------------------------------
  // List helpers
  // ---------------------------------------------------------------------------

  /** `Array.prototype.reverse`. */
  function Reversed<T>(s: seq<T>): (r: seq<T>)
    ensures |r| == |s|
  {
    if s == [] then [] else [s[|s| - 1]] + Reversed(s[..|s| - 1])
  }

  /** Position `k` of the reversed sequence holds position `|s| - 1 - k`. */
  lemma {:induction false} ReversedAt<T>(s: seq<T>, k: nat)
    requires k < |s|
    ensures Reversed(s)[k] == s[|s| - 1 - k]
  {
    if k > 0 {
      ReversedAt(s[..|s| - 1], k - 1);
    }
  }

  /** `messages[id] || []`: the list of a conversation, empty when never loaded. */
  function Lookup(messages: map<string, seq<Message>>, id: string): seq<Message> {
    if id in messages then messages[id] else []
  }

  /** `findIndex(m => m.id === id)`: the first position with that id, or -1. */
  function FindMessage(list: seq<Message>, id: string): (k: int)
    ensures -1 <= k < |list|
    ensures k == -1 <==> forall j :: 0 <= j < |list| ==> list[j].id != id
    ensures 0 <= k ==> list[k].id == id && forall j :: 0 <= j < k ==> list[j].id != id
  {
    if list == [] then -1
    else if list[0].id == id then 0
    else
      var k := FindMessage(list[1..], id);
      if k < 0 then -1 else k + 1
  }

  /** Overwriting an entry with one of the same id keeps it the first match. */
  lemma FindMessageAfterUpdate(list: seq<Message>, id: string, m: Message)
    requires 0 <= FindMessage(list, id) && m.id == id
    ensures FindMessage(list[FindMessage(list, id) := m], id) == FindMessage(list, id)
  {
    var k := FindMessage(list, id);
    var list' := list[k := m];
    assert list'[k].id == id;
  }

  // ---------------------------------------------------------------------------
  // Temporary ids
  // ---------------------------------------------------------------------------

  predicate IsDigit(c: char) {
    '0' <= c <= '9'
  }

  function DigitChar(d: nat): (c: char)
    requires d < 10
    ensures IsDigit(c)
  {
    ('0' as int + d) as char
  }

  /** The decimal spelling of a clock reading, as a template string prints it. */
  function Decimal(n: nat): (r: string)
    ensures |r| >= 1
    ensures forall k :: 0 <= k < |r| ==> IsDigit(r[k])
  {
    if n < 10 then [DigitChar(n)] else Decimal(n / 10) + [DigitChar(n % 10)]
  }

  /** The value of a string of decimal digits. */
  function DecimalValue(s: string): int {
    if s == [] then 0 else DecimalValue(s[..|s| - 1]) * 10 + (s[|s| - 1] as int - '0' as int)
  }

  /** Reading back the decimal spelling of a number gives the number. */
  lemma {:induction false} DecimalRoundTrip(n: nat)
    ensures DecimalValue(Decimal(n)) == n
  {
    if n >= 10 {
      DecimalRoundTrip(n / 10);
      var prefix := Decimal(n / 10);
      assert (prefix + [DigitChar(n % 10)])[..|prefix|] == prefix;
    }
  }

  /** `temp_${Date.now()}`. */
  function TempId(clock: nat): (r: string)
    ensures |r| > 5 && r[..5] == "temp_"
    ensures forall k :: 5 <= k < |r| ==> IsDigit(r[k])
  {
    "temp_" + Decimal(clock)
  }

  /** Different clock readings give different temporary ids. */
  lemma TempIdInjective(a: nat, b: nat)
    requires TempId(a) == TempId(b)
    ensures a == b
  {
    assert TempId(a)[5..] == Decimal(a);
    assert TempId(b)[5..] == Decimal(b);
    DecimalRoundTrip(a);
    DecimalRoundTrip(b);
  }

  // ---------------------------------------------------------------------------
  // Normalising a history page
  // ---------------------------------------------------------------------------

  /** A history message as the store keeps it: outgoing exactly when sent by the
      literal user "user", always confirmed. */
  function StoreMessage(m: ProviderMessage): (r: Message)
    ensures r.direction == Direction.Sent <==> m.from == "user"
    ensures r.status == MessageStatus.Sent && r.isStreaming.None?
    ensures m.text.None? ==> r.content == ""
    ensures m.text.Some? ==> r.content == m.text.value
    ensures r.id == m.id && r.conversationID == m.conversationID && r.timestamp == m.time
    ensures r.from == m.from && r.to == m.to && r.msgType == m.msgType
  {
    Message(m.id, m.conversationID, m.from, m.to, m.msgType, TextOrEmpty(m.text),
            if m.from == "user" then Direction.Sent else Received,
            m.time, MessageStatus.Sent, None)
  }

  function StoreMessages(page: seq<ProviderMessage>): seq<Message> {
    seq(|page|, i requires 0 <= i < |page| => StoreMessage(page[i]))
  }

  // ---------------------------------------------------------------------------
  // The state and the effect of each operation
  // ---------------------------------------------------------------------------

  datatype ChatState = ChatState(
    currentConversation: Option<Conversation>,
    conversations: seq<Conversation>,
    messages: map<string, seq<Message>>,
    isLogin: bool,
    status: SessionStatus)

  /** A new state together with what the operation returned or raised. */
  datatype Step = Step(state: ChatState, outcome: Result<()>)

  const InitialState: ChatState := ChatState(None, [], map[], false, Init)

  /** `loadMessages`: a no-op when not ready; otherwise the page, reversed to
      oldest-first, becomes the list on a first load and is put in front of the
      list on later loads. */
  function LoadMessagesEffect(s: ChatState, id: string, ready: bool, page: MessagePage): (r: ChatState)
    ensures !ready ==> r == s
    ensures ready ==> r == s.(messages := r.messages)
    ensures ready ==> r.messages.Keys == s.messages.Keys + {id}
    ensures ready ==> forall k :: k in s.messages && k != id ==> r.messages[k] == s.messages[k]
    ensures ready && id !in s.messages ==> r.messages[id] == Reversed(StoreMessages(page.messageList))
    ensures ready && id in s.messages ==>
              |r.messages[id]| == |page.messageList| + |s.messages[id]| &&
              r.messages[id][..|page.messageList|] == Reversed(StoreMessages(page.messageList)) &&
              r.messages[id][|page.messageList|..] == s.messages[id]
  {
    if !ready then s
    else
      var older := Reversed(StoreMessages(page.messageList));
      var merged := if id in s.messages then older + s.messages[id] else older;
      s.(messages := s.messages[id := merged])
  }

  /** `selectConversation`: selects, and loads the messages only when the
      conversation has no list yet. */
  function SelectConversationEffect(s: ChatState, conv: Conversation, ready: bool, page: MessagePage): (r: ChatState)
    ensures r.currentConversation == Some(conv)
    ensures r.conversations == s.conversations && r.isLogin == s.isLogin && r.status == s.status
    ensures conv.conversationID in s.messages ==> r.messages == s.messages
    ensures conv.conversationID !in s.messages ==>
              r.messages == LoadMessagesEffect(s, conv.conversationID, ready, page).messages
  {
    var selected := s.(currentConversation := Some(conv));
    if conv.conversationID in s.messages then selected
    else LoadMessagesEffect(selected, conv.conversationID, ready, page)
  }

  /** `loadConversations`: a no-op when not ready; otherwise replaces the list and
      selects its first entry when nothing is selected yet. */
  function LoadConversationsEffect(s: ChatState, ready: bool, convList: seq<Conversation>, page: MessagePage): (r: ChatState)
    ensures !ready ==> r == s
    ensures ready ==> r.conversations == convList && r.isLogin == s.isLogin && r.status == s.status
    ensures ready && |convList| > 0 && s.currentConversation.None? ==>
              r.currentConversation == Some(convList[0])
    ensures (|convList| == 0 || s.currentConversation.Some?) ==>
              r.currentConversation == s.currentConversation && r.messages == s.messages
    ensures forall k :: k in s.messages ==> k in r.messages && r.messages[k] == s.messages[k]
    ensures ready && |convList| > 0 && s.currentConversation.None? ==>
              r.messages == SelectConversationEffect(s, convList[0], ready, page).messages
  {
    if !ready then s
    else
      var replaced := s.(conversations := convList);
      if |convList| > 0 && s.currentConversation.None? then
        SelectConversationEffect(replaced, convList[0], ready, page)
      else replaced
  }

  /** `login`: a failed gateway login is re-raised and changes nothing;
      otherwise the store is logged in and loads the conversations. */
  function LoginEffect(s: ChatState, outcome: Result<()>, ready: bool,
                       convList: seq<Conversation>, page: MessagePage): (r: Step)
    ensures outcome.Err? ==> r == Step(s, outcome)
    ensures outcome.Ok? ==> r.outcome == Ok(()) && r.state.isLogin
    ensures outcome.Ok? && ready ==> r.state.conversations == convList
    ensures outcome.Ok? && !ready ==> r.state == s.(isLogin := true)
    ensures outcome.Ok? ==>
              r.state.status == s.status &&
              forall k :: k in s.messages ==> k in r.state.messages && r.state.messages[k] == s.messages[k]
    ensures outcome.Ok? && ready ==>
              r.state.currentConversation ==
                (if |convList| > 0 && s.currentConversation.None? then Some(convList[0])
                 else s.currentConversation)
    ensures outcome.Ok? ==>
              r.state.messages.Keys <= s.messages.Keys + (if ready && |convList| > 0 && s.currentConversation.None? then {convList[0].conversationID} else {})
    ensures (outcome.Ok? && ready && |convList| > 0 && s.currentConversation.None? &&
             convList[0].conversationID !in s.messages) ==>
              convList[0].conversationID in r.state.messages &&
              r.state.messages[convList[0].conversationID] == Reversed(StoreMessages(page.messageList))
  {
    match outcome
    case Err(e) => Step(s, Err(e))
    case Ok(_) => Step(LoadConversationsEffect(s.(isLogin := true), ready, convList, page), Ok(()))
  }

  /** `logout`: only after the gateway logout succeeds, everything is reset. */
  function LogoutEffect(s: ChatState, outcome: Result<()>): (r: Step)
    ensures outcome.Err? ==> r == Step(s, outcome)
    ensures outcome.Ok? ==>
              r.outcome == Ok(()) && r.state.currentConversation.None? &&
              r.state.conversations == [] && r.state.messages == map[] &&
              !r.state.isLogin && r.state.status == Init
  {
    match outcome
    case Err(e) => Step(s, Err(e))
    case Ok(_) => Step(InitialState, Ok(()))
  }

  /** The optimistic entry `sendMessage` appends. */
  function TempMessage(conversationID: string, text: string, idClock: nat, stamp: int): (m: Message)
    ensures m.id == TempId(idClock) && m.id[..5] == "temp_"
    ensures m.status == Sending && m.msgType == Text && m.content == text
    ensures m.direction == Direction.Sent && m.from == "user"
    ensures m.conversationID == conversationID && m.to == conversationID && m.timestamp == stamp
    ensures m.isStreaming.None?
  {
    Message(TempId(idClock), conversationID, "user", conversationID, Text, text,
            Direction.Sent, stamp, Sending, None)
  }

  /** The first half of `sendMessage`, up to the gateway call: raise without a
      selection or readiness, otherwise append the optimistic entry. */
  function OptimisticEffect(s: ChatState, text: string, ready: bool, idClock: nat, stamp: int): (r: Step)
    ensures s.currentConversation.None? || !ready ==> r == Step(s, Err(InvalidState))
    ensures s.currentConversation.Some? && ready ==>
              var id := s.currentConversation.value.conversationID;
              var before := Lookup(s.messages, id);
              && r.outcome == Ok(())
              && r.state == s.(messages := r.state.messages)
              && r.state.messages.Keys == s.messages.Keys + {id}
              && (forall k :: k in s.messages && k != id ==> r.state.messages[k] == s.messages[k])
              && |r.state.messages[id]| == |before| + 1
              && r.state.messages[id][..|before|] == before
              && r.state.messages[id][|before|] == TempMessage(id, text, idClock, stamp)
  {
    if s.currentConversation.None? || !ready then Step(s, Err(InvalidState))
    else
      var id := s.currentConversation.value.conversationID;
      var appended := Lookup(s.messages, id) + [TempMessage(id, text, idClock, stamp)];
      Step(s.(messages := s.messages[id := appended]), Ok(()))
  }

  /** The second half of `sendMessage`: the first entry with the temporary id is
      replaced by the confirmed message, or marked failed and the error re-raised. */
  function SettleEffect(s: ChatState, id: string, tempId: string, outcome: Result<Message>): (r: Step)
    ensures r.outcome == if outcome.Ok? then Ok(()) else Err(outcome.error)
    ensures r.state == s.(messages := r.state.messages)
    ensures FindMessage(Lookup(s.messages, id), tempId) < 0 ==> r.state == s
    ensures 0 <= FindMessage(Lookup(s.messages, id), tempId) ==>
              var list := s.messages[id];
              var k := FindMessage(list, tempId);
              && r.state.messages.Keys == s.messages.Keys
              && (forall c :: c in s.messages && c != id ==> r.state.messages[c] == s.messages[c])
              && |r.state.messages[id]| == |list|
              && (forall j :: 0 <= j < |list| && j != k ==> r.state.messages[id][j] == list[j])
              && (outcome.Ok? ==> r.state.messages[id][k] == outcome.value)
              && (outcome.Err? ==> r.state.messages[id][k] == list[k].(status := Failed))
  {
    var list := Lookup(s.messages, id);
    var k := FindMessage(list, tempId);
    match outcome
    case Ok(sent) =>
      Step(if k < 0 then s else s.(messages := s.messages[id := list[k := sent]]), Ok(()))
    case Err(e) =>
      Step(if k < 0 then s else s.(messages := s.messages[id := list[k := list[k].(status := Failed)]]), Err(e))
  }

  /** `sendMessage`: the optimistic append, then the settlement by the gateway's
      outcome. The list grows by exactly one entry; the outcome lands on the
      first entry carrying the temporary id, every other position is unchanged. */
  function SendMessageEffect(s: ChatState, text: string, ready: bool, idClock: nat, stamp: int,
                             outcome: Result<Message>): (r: Step)
    ensures s.currentConversation.None? || !ready ==> r == Step(s, Err(InvalidState))
    ensures s.currentConversation.Some? && ready ==>
              var id := s.currentConversation.value.conversationID;
              var temp := TempMessage(id, text, idClock, stamp);
              var appended := Lookup(s.messages, id) + [temp];
              var k := FindMessage(appended, temp.id);
              && r.outcome == (if outcome.Ok? then Ok(()) else Err(outcome.error))
              && r.state == s.(messages := r.state.messages)
              && r.state.messages.Keys == s.messages.Keys + {id}
              && (forall c :: c in s.messages && c != id ==> r.state.messages[c] == s.messages[c])
              && 0 <= k < |appended|
              && |r.state.messages[id]| == |appended|
              && (forall j :: 0 <= j < |appended| && j != k ==> r.state.messages[id][j] == appended[j])
              && (outcome.Ok? ==> r.state.messages[id][k] == outcome.value)
              && (outcome.Err? ==> r.state.messages[id][k] == appended[k].(status := Failed))
  {
    var begun := OptimisticEffect(s, text, ready, idClock, stamp);
    if begun.outcome.Err? then begun
    else
      var id := s.currentConversation.value.conversationID;
      var temp := TempMessage(id, text, idClock, stamp);
      var appended := Lookup(s.messages, id) + [temp];
      assert begun.state.messages[id] == appended;
      assert appended[|appended| - 1].id == temp.id;
      SettleEffect(begun.state, id, TempId(idClock), outcome)
  }

  /** `updateStreamingMessage`: without a selection nothing happens; a selected
      conversation without a list raises; otherwise the first message with the id
      in the selected conversation gets the new content, and is marked as no
      longer streaming when `isEnd`. An unknown id changes nothing. */
  function UpdateStreamingEffect(s: ChatState, messageId: string, content: string, isEnd: bool): (r: Step)
    ensures s.currentConversation.None? ==> r == Step(s, Ok(()))
    ensures s.currentConversation.Some? && s.currentConversation.value.conversationID !in s.messages ==>
              r == Step(s, Err(MissingMessageList))
    ensures s.currentConversation.Some? && s.currentConversation.value.conversationID in s.messages ==>
              var id := s.currentConversation.value.conversationID;
              var list := s.messages[id];
              var k := FindMessage(list, messageId);
              && r.outcome == Ok(())
              && (k < 0 ==> r.state == s)
              && (0 <= k ==>
                    && id in r.state.messages
                    && r.state == s.(messages := s.messages[id := r.state.messages[id]])
                    && |r.state.messages[id]| == |list|
                    && (forall j :: 0 <= j < |list| && j != k ==> r.state.messages[id][j] == list[j])
                    && r.state.messages[id][k].content == content
                    && r.state.messages[id][k].isStreaming == (if isEnd then Some(false) else list[k].isStreaming)
                    && r.state.messages[id][k] == list[k].(content := r.state.messages[id][k].content,
                                                           isStreaming := r.state.messages[id][k].isStreaming))
  {
    if s.currentConversation.None? then Step(s, Ok(()))
    else
      var id := s.currentConversation.value.conversationID;
      if id !in s.messages then Step(s, Err(MissingMessageList))
      else
        var list := s.messages[id];
        var k := FindMessage(list, messageId);
        if k < 0 then Step(s, Ok(()))
        else
          var updated := list[k].(content := content,
                                  isStreaming := if isEnd then Some(false) else list[k].isStreaming);
          Step(s.(messages := s.messages[id := list[k := updated]]), Ok(()))
  }

  /** The message listener of `initListeners`: append the pushed message to its
      conversation's list (creating it), then reload the conversations. */
  function MessagePushEffect(s: ChatState, msg: Message, ready: bool,
                             convList: seq<Conversation>, page: MessagePage): (r: ChatState)
    ensures Lookup(r.messages, msg.conversationID) == Lookup(s.messages, msg.conversationID) + [msg]
    ensures forall k :: k in s.messages && k != msg.conversationID ==>
              k in r.messages && r.messages[k] == s.messages[k]
    ensures ready ==> r.conversations == convList
    ensures !ready ==> r.conversations == s.conversations && r.currentConversation == s.currentConversation
    ensures r.status == s.status && r.isLogin == s.isLogin
    ensures ready ==>
              r.currentConversation ==
                (if |convList| > 0 && s.currentConversation.None? then Some(convList[0])
                 else s.currentConversation)
    ensures r.messages.Keys <= s.messages.Keys + {msg.conversationID} + (if ready && |convList| > 0 && s.currentConversation.None? then {convList[0].conversationID} else {})
    ensures (ready && |convList| > 0 && s.currentConversation.None? &&
             convList[0].conversationID !in s.messages && convList[0].conversationID != msg.conversationID) ==>
              convList[0].conversationID in r.messages &&
              r.messages[convList[0].conversationID] == Reversed(StoreMessages(page.messageList))
  {
    var id := msg.conversationID;
    var appended := s.(messages := s.messages[id := Lookup(s.messages, id) + [msg]]);
    LoadConversationsEffect(appended, ready, convList, page)
  }

  // ---------------------------------------------------------------------------
  // Properties relating several operations
  // ---------------------------------------------------------------------------

  /** Selecting the same conversation again loads nothing more: a conversation's
      messages are fetched at most once. */
  lemma SelectTwiceLoadsOnce(s: ChatState, conv: Conversation, ready: bool, page1: MessagePage, page2: MessagePage)
    ensures var once := SelectConversationEffect(s, conv, ready, page1);
            SelectConversationEffect(once, conv, ready, page2) == once
  {
  }

  /** Position `i` of a list after a load: the page, reversed, then the old list. */
  lemma LoadedAt(s: ChatState, id: string, page: MessagePage, i: nat)
    requires i < |Lookup(LoadMessagesEffect(s, id, true, page).messages, id)|
    ensures var pl := page.messageList;
            var list := Lookup(LoadMessagesEffect(s, id, true, page).messages, id);
            && |list| == |pl| + |Lookup(s.messages, id)|
            && (i < |pl| ==> list[i] == StoreMessage(pl[|pl| - 1 - i]))
            && (|pl| <= i ==> list[i] == Lookup(s.messages, id)[i - |pl|])
  {
    var pl := page.messageList;
    if i < |pl| {
      ReversedAt(StoreMessages(pl), i);
    }
  }

  predicate OldestFirst(list: seq<Message>) {
    forall i, j :: 0 <= i < j < |list| ==> list[i].timestamp <= list[j].timestamp
  }

  predicate NewestFirst(page: seq<ProviderMessage>) {
    forall i, j :: 0 <= i < j < |page| ==> page[i].time >= page[j].time
  }

  /** A newest-first page of messages no newer than the loaded ones keeps the
      list ordered oldest to newest. */
  lemma PaginationKeepsOldestFirst(s: ChatState, id: string, page: MessagePage)
    requires NewestFirst(page.messageList)
    requires OldestFirst(Lookup(s.messages, id))
    requires forall i, j :: 0 <= i < |page.messageList| && 0 <= j < |Lookup(s.messages, id)| ==>
               page.messageList[i].time <= Lookup(s.messages, id)[j].timestamp
    ensures OldestFirst(Lookup(LoadMessagesEffect(s, id, true, page).messages, id))
  {
    var list := Lookup(LoadMessagesEffect(s, id, true, page).messages, id);
    forall i, j | 0 <= i < j < |list|
      ensures list[i].timestamp <= list[j].timestamp
    {
      LoadedAt(s, id, page, i);
      LoadedAt(s, id, page, j);
    }
  }

  predicate DistinctIds(list: seq<Message>) {
    forall i, j :: 0 <= i < j < |list| ==> list[i].id != list[j].id
  }

  /** A page of fresh, pairwise distinct ids keeps the ids of the list distinct. */
  lemma PaginationKeepsIdsDistinct(s: ChatState, id: string, page: MessagePage)
    requires forall i, j :: 0 <= i < j < |page.messageList| ==> page.messageList[i].id != page.messageList[j].id
    requires DistinctIds(Lookup(s.messages, id))
    requires forall i, j :: 0 <= i < |page.messageList| && 0 <= j < |Lookup(s.messages, id)| ==>
               page.messageList[i].id != Lookup(s.messages, id)[j].id
    ensures DistinctIds(Lookup(LoadMessagesEffect(s, id, true, page).messages, id))
  {
    var list := Lookup(LoadMessagesEffect(s, id, true, page).messages, id);
    forall i, j | 0 <= i < j < |list|
      ensures list[i].id != list[j].id
    {
      LoadedAt(s, id, page, i);
      LoadedAt(s, id, page, j);
    }
  }

  /** When no earlier entry carries the temporary id, the outcome of a send lands
      on the entry it appended: the earlier entries are kept and the new last
      entry is the confirmed message or the failed optimistic one. */
  lemma SendSettlesOwnEntry(s: ChatState, text: string, ready: bool, idClock: nat, stamp: int,
                            outcome: Result<Message>)
    requires s.currentConversation.Some? && ready
    requires forall m :: m in Lookup(s.messages, s.currentConversation.value.conversationID) ==>
               m.id != TempId(idClock)
    ensures var id := s.currentConversation.value.conversationID;
            var before := Lookup(s.messages, id);
            var after := SendMessageEffect(s, text, ready, idClock, stamp, outcome).state.messages[id];
            && after[..|before|] == before
            && (outcome.Ok? ==> after[|before|] == outcome.value)
            && (outcome.Err? ==> after[|before|] == TempMessage(id, text, idClock, stamp).(status := Failed))
  {
  }

  /** Streaming a partial and then a final chunk into a message of the selected
      conversation leaves the final content and marks the stream ended. */
  lemma StreamPartialThenFinal(s: ChatState, messageId: string, partial: string, final: string)
    requires s.currentConversation.Some?
    requires s.currentConversation.value.conversationID in s.messages
    requires 0 <= FindMessage(s.messages[s.currentConversation.value.conversationID], messageId)
    ensures var id := s.currentConversation.value.conversationID;
            var list := s.messages[id];
            var k := FindMessage(list, messageId);
            var first := UpdateStreamingEffect(s, messageId, partial, false);
            var second := UpdateStreamingEffect(first.state, messageId, final, true);
            && first.outcome == Ok(()) && second.outcome == Ok(())
            && |second.state.messages[id]| == |list|
            && second.state.messages[id][k] == list[k].(content := final, isStreaming := Some(false))
            && (forall j :: 0 <= j < |list| && j != k ==> second.state.messages[id][j] == list[j])
  {
  }

  // ---------------------------------------------------------------------------
  // The store
  // ---------------------------------------------------------------------------

  class ChatStore {
    var currentConversation: Option<Conversation>
    var conversations: seq<Conversation>
    var messages: map<string, seq<Message>>
    var isLogin: bool
    var status: SessionStatus

    function State(): ChatState
      reads this
    {
      ChatState(currentConversation, conversations, messages, isLogin, status)
    }

    constructor ()
      ensures State() == InitialState
    {
      currentConversation := None;
      conversations := [];
      messages := map[];
      isLogin := false;
      status := Init;
    }

    /** `currentMessages`: the selected conversation's list, or empty. */
    function CurrentMessages(): (r: seq<Message>)
      reads this
      ensures currentConversation.None? ==> r == []
      ensures currentConversation.Some? && currentConversation.value.conversationID !in messages ==> r == []
      ensures currentConversation.Some? && currentConversation.value.conversationID in messages ==>
                r == messages[currentConversation.value.conversationID]
    {
      if currentConversation.None? then []
      else Lookup(messages, currentConversation.value.conversationID)
    }

    /** `login`: `outcome` is what the gateway login settled with. */
    method Login(outcome: Result<()>, ready: bool, convList: seq<Conversation>, page: MessagePage)
      returns (r: Result<()>)
      modifies this
      ensures Step(State(), r) == LoginEffect(old(State()), outcome, ready, convList, page)
    {
      if outcome.Err? {
        return Err(outcome.error);
      }
      isLogin := true;
      LoadConversations(ready, convList, page);
      r := Ok(());
    }

    /** `logout`: `outcome` is what the gateway logout settled with. */
    method Logout(outcome: Result<()>) returns (r: Result<()>)
      modifies this
      ensures Step(State(), r) == LogoutEffect(old(State()), outcome)
    {
      if outcome.Err? {
        return Err(outcome.error);
      }
      isLogin := false;
      currentConversation := None;
      conversations := [];
      messages := map[];
      status := Init;
      r := Ok(());
    }

    /** `loadConversations`: `convList` is the gateway's conversation list and
        `page` the history page a resulting selection would load. */
    method LoadConversations(ready: bool, convList: seq<Conversation>, page: MessagePage)
      modifies this
      ensures State() == LoadConversationsEffect(old(State()), ready, convList, page)
    {
      if !ready {
        return;
      }
      conversations := convList;
      if |convList| > 0 && currentConversation.None? {
        SelectConversation(convList[0], ready, page);
      }
    }

    /** `selectConversation`. */
    method SelectConversation(conv: Conversation, ready: bool, page: MessagePage)
      modifies this
      ensures State() == SelectConversationEffect(old(State()), conv, ready, page)
    {
      currentConversation := Some(conv);
      if conv.conversationID !in messages {
        LoadMessages(conv.conversationID, ready, page);
      }
    }

    /** `loadMessages`: `page` is the gateway's history page for the request. */
    method LoadMessages(id: string, ready: bool, page: MessagePage)
      modifies this
      ensures State() == LoadMessagesEffect(old(State()), id, ready, page)
    {
      if !ready {
        return;
      }
      var messageList := StoreMessages(page.messageList);
      if id !in messages {
        messages := messages[id := Reversed(messageList)];
      } else {
        messages := messages[id := Reversed(messageList) + messages[id]];
      }
    }

    /** `sendMessage`: `idClock` and `stamp` are the two clock readings, `outcome`
        what the gateway send settled with. */
    method SendMessage(text: string, ready: bool, idClock: nat, stamp: int, outcome: Result<Message>)
      returns (r: Result<()>)
      modifies this
      ensures Step(State(), r) == SendMessageEffect(old(State()), text, ready, idClock, stamp, outcome)
    {
      if currentConversation.None? || !ready {
        return Err(InvalidState);
      }
      var id := currentConversation.value.conversationID;
      var temp := TempMessage(id, text, idClock, stamp);
      if id !in messages {
        messages := messages[id := []];
      }
      messages := messages[id := messages[id] + [temp]];
      ghost var begun := OptimisticEffect(old(State()), text, ready, idClock, stamp);
      assert State() == begun.state;
      assert SendMessageEffect(old(State()), text, ready, idClock, stamp, outcome)
          == SettleEffect(begun.state, id, temp.id, outcome);
      // The gateway call is awaited here; `outcome` is how it settled.
      var msgList := messages[id];
      var index := FindMessage(msgList, temp.id);
      match outcome {
        case Ok(sent) =>
          if index > -1 {
            messages := messages[id := msgList[index := sent]];
          }
          r := Ok(());
        case Err(e) =>
          if index > -1 {
            messages := messages[id := msgList[index := msgList[index].(status := Failed)]];
          }
          r := Err(e);
      }
    }

    /** `updateStreamingMessage`. */
    method UpdateStreamingMessage(messageId: string, content: string, isEnd: bool) returns (r: Result<()>)
      modifies this
      ensures Step(State(), r) == UpdateStreamingEffect(old(State()), messageId, content, isEnd)
    {
      if currentConversation.None? {
        return Ok(());
      }
      var id := currentConversation.value.conversationID;
      if id !in messages {
        return Err(MissingMessageList);
      }
      var msgList := messages[id];
      var index := FindMessage(msgList, messageId);
      if index >= 0 {
        var message := msgList[index].(content := content);
        if isEnd {
          message := message.(isStreaming := Some(false));
        }
        messages := messages[id := msgList[index := message]];
      }
      r := Ok(());
    }

    /** `initListeners`: subscribes the store's three push handlers, named by
        the ids it is given; every call subscribes them again. */
    method InitListeners(gateway: Gateway, onMessage: HandlerId, onConversation: HandlerId, onStatus: HandlerId)
      modifies gateway
      ensures gateway.messageListeners == old(gateway.messageListeners) + [onMessage]
      ensures gateway.conversationListeners == old(gateway.conversationListeners) + [onConversation]
      ensures gateway.statusListeners == old(gateway.statusListeners) + [onStatus]
      ensures gateway.tim == old(gateway.tim) && gateway.isInitialized == old(gateway.isInitialized)
      ensures gateway.sdkBindings == old(gateway.sdkBindings)
    {
      gateway.On(MessageListeners, onMessage);
      gateway.On(ConversationListeners, onConversation);
      gateway.On(StatusListeners, onStatus);
    }

    /** The message handler subscribed by `initListeners`. */
    method HandleMessagePush(msg: Message, ready: bool, convList: seq<Conversation>, page: MessagePage)
      modifies this
      ensures State() == MessagePushEffect(old(State()), msg, ready, convList, page)
    {
      var id := msg.conversationID;
      if id !in messages {
        messages := messages[id := []];
      }
      messages := messages[id := messages[id] + [msg]];
      assert State() == old(State()).(messages := old(messages)[id := Lookup(old(messages), id) + [msg]]);
      LoadConversations(ready, convList, page);
    }

    /** The conversation handler subscribed by `initListeners`: replaces the list. */
    method HandleConversationPush(convList: seq<Conversation>)
      modifies this
      ensures State() == old(State()).(conversations := convList)
    {
      conversations := convList;
    }

    /** The status handler subscribed by `initListeners`. */
    method HandleStatusPush(newStatus: SessionStatus)
      modifies this
      ensures State() == old(State()).(status := newStatus)
    {
      status := newStatus;
    }
  }
}
