/**
 * The client's chat store: the Svelte state `{isConnected, messages, conversations,
 * activeChatId, error}`, its pure update callbacks, and the STOMP client around it with its
 * reconnect counter. The socket, the timers and the broker are left to the caller, who
 * invokes the connect, failure and receive callbacks of the client object.
 */
module MessageStore {
  import opened Wrappers

  type UserId = string

  /** A chat message as the client holds it: the server's saved message, or an optimistic one without an id. */
  datatype ClientMessage = ClientMessage(id: Option<string>, senderId: UserId, receiverId: UserId, content: string)

  datatype ChatState = ChatState(
    isConnected: bool,
    messages: seq<ClientMessage>,                    // the active chat
    conversations: map<UserId, seq<ClientMessage>>,  // history per other participant
    activeChatId: Option<UserId>,
    error: Option<string>)

  const InitialState := ChatState(false, [], map[], None, None)

  /** `conversations.get(u) || []` */
  function Conversation(s: ChatState, u: UserId): seq<ClientMessage> {
    if u in s.conversations then s.conversations[u] else []
  }

  /** The participant a message is filed under, seen from `userId`: the receiver when the user sent it, else the sender. */
  function OtherParticipant(userId: UserId, m: ClientMessage): (other: UserId)
    ensures m.senderId == userId ==> other == m.receiverId
    ensures m.senderId != userId ==> other == m.senderId
  {
    if m.senderId == userId then m.receiverId else m.senderId
  }

  /** Appends a message to one conversation, and to the active list when that conversation is open. */
  function Appended(s: ChatState, other: UserId, m: ClientMessage): (r: ChatState)
    ensures r.conversations.Keys == s.conversations.Keys + {other}
    ensures Conversation(r, other) == Conversation(s, other) + [m]
    ensures forall u :: u != other ==> Conversation(r, u) == Conversation(s, u)
    ensures r.messages == if s.activeChatId == Some(other) then s.messages + [m] else s.messages
    ensures r.isConnected == s.isConnected && r.activeChatId == s.activeChatId && r.error == s.error
  {
    s.(conversations := s.conversations[other := Conversation(s, other) + [m]],
       messages := if s.activeChatId == Some(other) then s.messages + [m] else s.messages)
  }

  /** The subscription callback of the user `userId`: the message lands in the other participant's conversation. */
  function OnReceived(s: ChatState, userId: UserId, m: ClientMessage): (r: ChatState)
    ensures var other := OtherParticipant(userId, m);
      && Conversation(r, other) == Conversation(s, other) + [m]
      && (forall u :: u != other ==> Conversation(r, u) == Conversation(s, u))
      && (|r.messages| > |s.messages| <==> s.activeChatId == Some(other))
  {
    Appended(s, OtherParticipant(userId, m), m)
  }

  /** The optimistic update of sendMessage: the sent message joins the receiver's conversation at once. */
  function Optimistic(s: ChatState, senderId: UserId, receiverId: UserId, content: string): (r: ChatState)
    ensures Conversation(r, receiverId) == Conversation(s, receiverId) + [ClientMessage(None, senderId, receiverId, content)]
    ensures forall u :: u != receiverId ==> Conversation(r, u) == Conversation(s, u)
    ensures |r.messages| > |s.messages| <==> s.activeChatId == Some(receiverId)
  {
    Appended(s, receiverId, ClientMessage(None, senderId, receiverId, content))
  }

  /** setActiveChat: the chosen conversation becomes the active list, or an empty one. */
  function WithActiveChat(s: ChatState, u: Option<UserId>): (r: ChatState)
    ensures r.activeChatId == u
    ensures r.messages == if u.Some? then Conversation(s, u.value) else []
    ensures r.conversations == s.conversations && r.isConnected == s.isConnected
  {
    s.(activeChatId := u, messages := if u.Some? then Conversation(s, u.value) else [])
  }

  /** The disconnect callback: not connected, and the chat history forgotten. */
  function Cleared(s: ChatState): (r: ChatState)
    ensures !r.isConnected && r.messages == [] && r.conversations == map[] && r.activeChatId == None
    ensures r.error == s.error
  {
    s.(isConnected := false, messages := [], conversations := map[], activeChatId := None)
  }

  /** The active list mirrors the active conversation. */
  predicate InSync(s: ChatState) {
    s.activeChatId.Some? ==> s.messages == Conversation(s, s.activeChatId.value)
  }

  /** Opening a chat synchronises, and every update keeps the active list and its conversation in step. */
  lemma InSyncKept(s: ChatState, userId: UserId, m: ClientMessage, receiverId: UserId, content: string, u: Option<UserId>)
    ensures InSync(WithActiveChat(s, u))
    ensures InSync(Cleared(s))
    ensures InSync(s) ==> InSync(OnReceived(s, userId, m))
    ensures InSync(s) ==> InSync(Optimistic(s, userId, receiverId, content))
  {
  }

  /**
   * The sender's echo: a message sent optimistically and then delivered back to its sender by
   * the server appears twice in the receiver's conversation, and twice in the open chat.
   */
  lemma SenderSeesOwnMessageTwice(s: ChatState, me: UserId, receiverId: UserId, content: string, echo: ClientMessage)
    requires echo.senderId == me && echo.receiverId == receiverId
    ensures var after := OnReceived(Optimistic(s, me, receiverId, content), me, echo);
      && Conversation(after, receiverId) == Conversation(s, receiverId) + [ClientMessage(None, me, receiverId, content), echo]
      && (s.activeChatId == Some(receiverId) ==> after.messages == s.messages + [ClientMessage(None, me, receiverId, content), echo])
  {
    var sent := ClientMessage(None, me, receiverId, content);
    assert Conversation(s, receiverId) + [sent] + [echo] == Conversation(s, receiverId) + [sent, echo];
    assert s.messages + [sent] + [echo] == s.messages + [sent, echo];
  }

  const MaxReconnectAttempts := 5

  function Pow2(n: nat): nat {
    if n == 0 then 1 else 2 * Pow2(n - 1)
  }

  /** The backoff after a failed attempt, given the attempts already counted: `2 ** n * 1000` ms for the n-th retry, none past the fifth. */
  function Backoff(attempts: nat): (r: Option<nat>)
    ensures attempts < MaxReconnectAttempts <==> r.Some?
  {
    if attempts < MaxReconnectAttempts then Some(Pow2(attempts + 1) * 1000) else None
  }

  /** The retries scheduled by k failures in a row, starting from `attempts` counted. */
  function RetryDelays(attempts: nat, k: nat): seq<nat>
    decreases k
  {
    if k == 0 then []
    else match Backoff(attempts)
      case Some(d) => [d] + RetryDelays(attempts + 1, k - 1)
      case None => RetryDelays(attempts, k - 1)
  }

  const Schedule: seq<nat> := [2000, 4000, 8000, 16000, 32000]

  /** From `attempts` counted, k failures schedule the next entries of the doubling schedule, stopping after the fifth. */
  lemma {:induction false} RetryDelaysFollowSchedule(attempts: nat, k: nat)
    requires attempts <= MaxReconnectAttempts
    ensures var stop := if attempts + k < MaxReconnectAttempts then attempts + k else MaxReconnectAttempts;
      RetryDelays(attempts, k) == Schedule[attempts..stop]
    decreases k
  {
    if k > 0 && attempts < MaxReconnectAttempts {
      RetryDelaysFollowSchedule(attempts + 1, k - 1);
      assert Pow2(attempts + 1) * 1000 == Schedule[attempts] by {
        assert Pow2(1) == 2 && Pow2(2) == 4 && Pow2(3) == 8 && Pow2(4) == 16 && Pow2(5) == 32;
      }
      var stop := if attempts + k < MaxReconnectAttempts then attempts + k else MaxReconnectAttempts;
      assert Schedule[attempts..stop] == [Schedule[attempts]] + Schedule[attempts + 1..stop];
    } else if k > 0 {
      RetryDelaysFollowSchedule(attempts, k - 1);
    }
  }

  /** From a fresh counter, any run of failures schedules at most five retries, at 2, 4, 8, 16 and 32 seconds. */
  lemma AtMostFiveRetries(k: nat)
    ensures |RetryDelays(0, k)| <= MaxReconnectAttempts
    ensures k >= MaxReconnectAttempts ==> RetryDelays(0, k) == Schedule
  {
    RetryDelaysFollowSchedule(0, k);
  }

  /** The module's client: the store's state, the connection, the subscription and the reconnect counter. */
  class ChatClient {
    var state: ChatState
    var connected: bool                     // stompClient.connected
    var subscribedAs: Option<UserId>        // the user whose private queue is subscribed
    var reconnectAttempts: nat
    var scheduled: seq<nat>                 // the delays passed to setTimeout, in order
    var published: seq<ClientMessage>       // the frames sent to /app/chat.sendMessage

    /** The counter stays within its cap, and only a connected client has a live subscription. */
    ghost predicate Valid()
      reads this
    {
      && reconnectAttempts <= MaxReconnectAttempts
      && (!connected ==> subscribedAs == None)
    }

    constructor ()
      ensures Valid()
      ensures state == InitialState && !connected && subscribedAs == None
      ensures reconnectAttempts == 0 && scheduled == [] && published == []
    {
      state := InitialState;
      connected := false;
      subscribedAs := None;
      reconnectAttempts := 0;
      scheduled := [];
      published := [];
    }

    /**
     * connectWebSocket's guards: without a token only the error is set; an open connection is
     * left as it is; otherwise a fresh STOMP client replaces the old one, with no subscription yet.
     */
    method Connect(token: Option<string>) returns (opening: bool)
      requires Valid()
      modifies this`state, this`subscribedAs
      ensures Valid()
      ensures (token.None? || token.value == "") ==>
        (!opening && state == old(state).(error := Some("Authentication token not available. Cannot connect to WebSocket.")))
      ensures token.Some? && token.value != "" ==> opening == !connected && state == old(state)
      ensures subscribedAs == if opening then None else old(subscribedAs)
    {
      if token.None? || token.value == "" {
        state := state.(error := Some("Authentication token not available. Cannot connect to WebSocket."));
        return false;
      }
      opening := !connected;
      if opening {
        subscribedAs := None;
      }
    }

    /**
     * The connect callback: connected, the counter reset, and the user's queue subscribed when
     * a user id is known; without one the fresh client has no subscription.
     */
    method OnConnect(userId: Option<UserId>)
      requires Valid()
      modifies this`state, this`connected, this`reconnectAttempts, this`subscribedAs
      ensures Valid()
      ensures connected && reconnectAttempts == 0
      ensures state == old(state).(isConnected := true, error := None)
      ensures subscribedAs == if userId.Some? && userId.value != "" then userId else None
    {
      connected := true;
      state := state.(isConnected := true, error := None);
      reconnectAttempts := 0;
      subscribedAs := if userId.Some? && userId.value != "" then userId else None;
    }

    /**
     * The error callback: a failed state, no live subscription, and, below five attempts, one
     * more retry at the doubled delay.
     */
    method OnConnectError()
      requires Valid()
      modifies this`state, this`connected, this`reconnectAttempts, this`scheduled, this`subscribedAs
      ensures Valid()
      ensures !connected && state == old(state).(isConnected := false, error := Some("WebSocket connection failed."))
      ensures subscribedAs == None
      ensures scheduled == old(scheduled) + RetryDelays(old(reconnectAttempts), 1)
      ensures reconnectAttempts == if old(reconnectAttempts) < MaxReconnectAttempts then old(reconnectAttempts) + 1
                                   else old(reconnectAttempts)
    {
      connected := false;
      subscribedAs := None;
      state := state.(isConnected := false, error := Some("WebSocket connection failed."));
      if reconnectAttempts < MaxReconnectAttempts {
        reconnectAttempts := reconnectAttempts + 1;
        scheduled := scheduled + [Pow2(reconnectAttempts) * 1000];
      }
    }

    /** A frame on the subscribed queue; a client without a connection has none to receive on. */
    method Receive(m: ClientMessage)
      requires Valid()
      modifies this`state
      ensures Valid()
      ensures !connected ==> state == old(state)
      ensures state == if subscribedAs.Some? then OnReceived(old(state), subscribedAs.value, m) else old(state)
    {
      if subscribedAs.Some? {
        state := OnReceived(state, subscribedAs.value, m);
      }
    }

    /** sendMessage: nothing without a connection or a sender id; otherwise publish, then the optimistic update. */
    method Send(senderId: Option<UserId>, receiverId: UserId, content: string)
      modifies this`state, this`published
      ensures !connected || senderId.None? || senderId.value == "" ==>
        state == old(state) && published == old(published)
      ensures connected && senderId.Some? && senderId.value != "" ==>
        && published == old(published) + [ClientMessage(None, senderId.value, receiverId, content)]
        && state == Optimistic(old(state), senderId.value, receiverId, content)
    {
      if !connected || senderId.None? || senderId.value == "" {
        return;
      }
      published := published + [ClientMessage(None, senderId.value, receiverId, content)];
      state := Optimistic(state, senderId.value, receiverId, content);
    }

    method SetActiveChat(u: Option<UserId>)
      modifies this`state
      ensures state == WithActiveChat(old(state), u)
    {
      state := WithActiveChat(state, u);
    }

    /**
     * disconnectWebSocket: only an open connection is closed, ending its subscription, and its
     * history cleared.
     */
    method Disconnect()
      requires Valid()
      modifies this`state, this`connected, this`subscribedAs
      ensures Valid() && !connected && subscribedAs == None
      ensures state == if old(connected) then Cleared(old(state)) else old(state)
    {
      if connected {
        connected := false;
        subscribedAs := None;
        state := Cleared(state);
      }
    }
  }
}
