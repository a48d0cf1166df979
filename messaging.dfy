/**
 * The message service: saving a direct message, the conversation query between two users and
 * the bulk mark-as-read, over the message collection of the store.
 */
module MessageService {
  import opened Wrappers
  import opened Sorting
  import opened Model

  /** saveMessage: stamped with the current time, unread, and stored under its id (an upsert). */
  method SaveMessage(st: Store, m: Message, now: Instant) returns (saved: Message)
    requires st.Valid()
    modifies st`messages
    ensures st.Valid()
    ensures saved == m.(timestamp := now, read := false)
    ensures st.messages == old(st.messages)[m.id := saved]
  {
    saved := m.(timestamp := now, read := false);
    st.messages := st.messages[m.id := saved];
  }

  /** One criterion of a derived query: the given sender and the given receiver. */
  predicate SentBy(m: Message, sender: UserId, receiver: UserId) {
    m.senderId == sender && m.receiverId == receiver
  }

  /** The messages that meet `(sender = sender1 AND receiver = receiver1) OR (receiver = receiver2 AND sender = sender2)`, in scan order. */
  function Matching(scan: seq<Message>, sender1: UserId, receiver1: UserId, receiver2: UserId, sender2: UserId)
    : (r: seq<Message>)
    ensures forall m :: m in r <==> m in scan && (SentBy(m, sender1, receiver1) || SentBy(m, sender2, receiver2))
  {
    if scan == [] then []
    else
      var init := Matching(scan[..|scan| - 1], sender1, receiver1, receiver2, sender2);
      var last := scan[|scan| - 1];
      assert scan == scan[..|scan| - 1] + [last];
      if SentBy(last, sender1, receiver1) || SentBy(last, sender2, receiver2) then init + [last] else init
  }

  function TimestampKey(m: Message): int {
    m.timestamp
  }

  /**
   * findBySenderAndReceiverOrReceiverAndSenderOrderByTimestampAsc: the parameters bind, in
   * order, the first sender, the first receiver, the second receiver and the second sender.
   */
  function FindBySenderAndReceiverOrReceiverAndSender(scan: seq<Message>, sender1: UserId, receiver1: UserId,
                                                      receiver2: UserId, sender2: UserId): (r: seq<Message>)
    ensures forall m :: m in r <==> m in scan && (SentBy(m, sender1, receiver1) || SentBy(m, sender2, receiver2))
    ensures multiset(r) == multiset(Matching(scan, sender1, receiver1, receiver2, sender2))
    ensures SortedBy(r, TimestampKey)
  {
    var matching := Matching(scan, sender1, receiver1, receiver2, sender2);
    SortByMembers(matching, TimestampKey);
    SortBy(matching, TimestampKey)
  }

  /**
   * getMessagesBetweenUsers as written: the call binds (user1, user2, user2, user1), so both
   * criteria read "sent by user1 to user2" and the replies are never returned.
   */
  function GetMessagesBetweenUsersAsWritten(scan: seq<Message>, user1: UserId, user2: UserId): (r: seq<Message>)
    ensures forall m :: m in r <==> m in scan && SentBy(m, user1, user2)
    ensures SortedBy(r, TimestampKey)
  {
    FindBySenderAndReceiverOrReceiverAndSender(scan, user1, user2, user2, user1)
  }

  /** getMessagesBetweenUsers as documented: the binding (user1, user2, user1, user2) gives both directions. */
  function GetMessagesBetweenUsers(scan: seq<Message>, user1: UserId, user2: UserId): (r: seq<Message>)
    ensures forall m :: m in r <==> m in scan && (SentBy(m, user1, user2) || SentBy(m, user2, user1))
    ensures SortedBy(r, TimestampKey)
  {
    FindBySenderAndReceiverOrReceiverAndSender(scan, user1, user2, user1, user2)
  }

  /** A reply from user2 to user1 is in the intended conversation but not in the one returned as written. */
  lemma ReplyMissingAsWritten(scan: seq<Message>, user1: UserId, user2: UserId, reply: Message)
    requires user1 != user2 && reply in scan && SentBy(reply, user2, user1)
    ensures reply !in GetMessagesBetweenUsersAsWritten(scan, user1, user2)
    ensures reply in GetMessagesBetweenUsers(scan, user1, user2)
  {
  }

  /** The two criteria, swapped, select the same messages in the same order. */
  lemma {:induction false} MatchingSwapped(scan: seq<Message>, user1: UserId, user2: UserId)
    ensures Matching(scan, user1, user2, user1, user2) == Matching(scan, user2, user1, user2, user1)
  {
    if scan != [] {
      MatchingSwapped(scan[..|scan| - 1], user1, user2);
    }
  }

  /** The intended conversation is the same whichever participant asks: the same messages, equally often. */
  lemma ConversationSymmetric(scan: seq<Message>, user1: UserId, user2: UserId)
    ensures multiset(GetMessagesBetweenUsers(scan, user1, user2)) == multiset(GetMessagesBetweenUsers(scan, user2, user1))
  {
    MatchingSwapped(scan, user1, user2);
  }

  /** Whether markMessagesAsRead flips this id: an existing message for the receiver that is still unread. */
  predicate Flips(messages: map<MessageId, Message>, id: MessageId, receiverId: UserId) {
    id in messages && messages[id].receiverId == receiverId && !messages[id].read
  }

  /** One step of the loop. */
  function MarkOne(messages: map<MessageId, Message>, id: MessageId, receiverId: UserId): map<MessageId, Message> {
    if Flips(messages, id, receiverId) then messages[id := messages[id].(read := true)] else messages
  }

  /** The loop over the ids, as a function of the ids seen so far. */
  function MarkRead(messages: map<MessageId, Message>, ids: seq<MessageId>, receiverId: UserId): map<MessageId, Message> {
    if ids == [] then messages
    else MarkOne(MarkRead(messages, ids[..|ids| - 1], receiverId), ids[|ids| - 1], receiverId)
  }

  /** How many saves the loop makes: the steps that flip a message. */
  function FlipCount(messages: map<MessageId, Message>, ids: seq<MessageId>, receiverId: UserId): nat {
    if ids == [] then 0
    else
      var before := MarkRead(messages, ids[..|ids| - 1], receiverId);
      FlipCount(messages, ids[..|ids| - 1], receiverId) + if Flips(before, ids[|ids| - 1], receiverId) then 1 else 0
  }

  /**
   * What the whole loop does: exactly the listed messages addressed to the receiver are read
   * afterwards; unknown ids add nothing and every other message is unchanged.
   */
  lemma {:induction false} MarkReadClosedForm(messages: map<MessageId, Message>, ids: seq<MessageId>, receiverId: UserId)
    ensures MarkRead(messages, ids, receiverId).Keys == messages.Keys
    ensures forall id :: id in messages ==>
      (MarkRead(messages, ids, receiverId)[id] ==
       if id in ids && messages[id].receiverId == receiverId then messages[id].(read := true) else messages[id])
  {
    if ids != [] {
      var init := ids[..|ids| - 1];
      var last := ids[|ids| - 1];
      MarkReadClosedForm(messages, init, receiverId);
      assert ids == init + [last];
      forall id | id in messages
        ensures id in ids <==> id in init || id == last
      {
      }
    }
  }

  /** Marking twice with the same arguments changes nothing more. */
  lemma MarkReadIdempotent(messages: map<MessageId, Message>, ids: seq<MessageId>, receiverId: UserId)
    ensures MarkRead(MarkRead(messages, ids, receiverId), ids, receiverId) == MarkRead(messages, ids, receiverId)
  {
    var once := MarkRead(messages, ids, receiverId);
    MarkReadClosedForm(messages, ids, receiverId);
    MarkReadClosedForm(once, ids, receiverId);
  }

  /** The loop keeps every message under its own id. */
  lemma MarkReadKeepsKeyed(messages: map<MessageId, Message>, ids: seq<MessageId>, receiverId: UserId)
    requires MessagesKeyed(messages)
    ensures MessagesKeyed(MarkRead(messages, ids, receiverId))
  {
    MarkReadClosedForm(messages, ids, receiverId);
  }

  /** The ids the loop flips: the distinct listed ids of unread messages addressed to the receiver. */
  function FlippedIds(messages: map<MessageId, Message>, ids: seq<MessageId>, receiverId: UserId): set<MessageId> {
    set id | id in ids && Flips(messages, id, receiverId)
  }

  /** The number of saves is the number of distinct unread messages for the receiver among the ids. */
  lemma {:induction false} FlipCountIsFlippedIds(messages: map<MessageId, Message>, ids: seq<MessageId>, receiverId: UserId)
    ensures FlipCount(messages, ids, receiverId) == |FlippedIds(messages, ids, receiverId)|
  {
    if ids != [] {
      var init := ids[..|ids| - 1];
      var last := ids[|ids| - 1];
      FlipCountIsFlippedIds(messages, init, receiverId);
      MarkReadClosedForm(messages, init, receiverId);
      assert ids == init + [last];
      var before := FlippedIds(messages, init, receiverId);
      var after := FlippedIds(messages, ids, receiverId);
      var flipsNow := Flips(MarkRead(messages, init, receiverId), last, receiverId);
      assert flipsNow <==> Flips(messages, last, receiverId) && last !in init;
      if flipsNow {
        assert after == before + {last};
        assert last !in before;
      } else {
        assert after == before;
      }
    }
  }

  /** Whether the loop's step for this id throws: the message exists and its receiver has been deleted. */
  predicate DanglingReceiver(messages: map<MessageId, Message>, users: map<UserId, User>, id: MessageId) {
    id in messages && messages[id].receiverId !in users
  }

  /**
   * How many ids the loop gets through: up to, not including, the first id whose message has
   * a null receiver reference; all of them when there is none.
   */
  function Reached(messages: map<MessageId, Message>, users: map<UserId, User>, ids: seq<MessageId>): (k: nat)
    ensures k <= |ids|
    ensures forall j :: 0 <= j < k ==> !DanglingReceiver(messages, users, ids[j])
    ensures k < |ids| ==> DanglingReceiver(messages, users, ids[k])
  {
    if ids == [] then 0
    else if DanglingReceiver(messages, users, ids[0]) then 0
    else 1 + Reached(messages, users, ids[1..])
  }

  /** At step i the loop throws exactly when it has reached the first id with a null receiver. */
  lemma ReachedStep(messages: map<MessageId, Message>, users: map<UserId, User>, ids: seq<MessageId>,
                    i: nat, receiverId: UserId)
    requires i < |ids| && i <= Reached(messages, users, ids)
    ensures DanglingReceiver(MarkRead(messages, ids[..i], receiverId), users, ids[i])
            <==> i == Reached(messages, users, ids)
  {
    MarkReadClosedForm(messages, ids[..i], receiverId);
  }

  /**
   * markMessagesAsRead as written: the messages are marked, but the count it returns is never
   * incremented. A listed message whose receiver has been deleted throws on the null reference;
   * the messages saved before it stay saved.
   */
  method MarkMessagesAsRead(st: Store, messageIds: seq<MessageId>, receiverId: UserId) returns (r: Result<int, Exn>)
    requires st.Valid()
    modifies st`messages
    ensures st.Valid()
    ensures var k := Reached(old(st.messages), st.users, messageIds);
      && st.messages == MarkRead(old(st.messages), messageIds[..k], receiverId)
      && r == if k < |messageIds| then Err(NullPointer(ReceiverIsNull)) else Ok(0)
  {
    var updatedCount := 0;
    ghost var k := Reached(old(st.messages), st.users, messageIds);
    var i := 0;
    while i < |messageIds|
      invariant 0 <= i <= k
      invariant st.messages == MarkRead(old(st.messages), messageIds[..i], receiverId)
      invariant MessagesKeyed(st.messages)
    {
      assert messageIds[..i + 1][..i] == messageIds[..i];
      ReachedStep(old(st.messages), st.users, messageIds, i, receiverId);
      var id := messageIds[i];
      if id in st.messages {
        var message := st.messages[id];
        if message.receiverId !in st.users {
          return Err(NullPointer(ReceiverIsNull));
        }
        if message.receiverId == receiverId && !message.read {
          st.messages := st.messages[id := message.(read := true)];
        }
      }
      i := i + 1;
    }
    assert messageIds[..i] == messageIds;
    r := Ok(updatedCount);
  }

  /**
   * markMessagesAsRead as documented: the same updates, and the count of messages actually
   * updated; the same failure on a deleted receiver.
   */
  method MarkMessagesAsReadCounted(st: Store, messageIds: seq<MessageId>, receiverId: UserId) returns (r: Result<int, Exn>)
    requires st.Valid()
    modifies st`messages
    ensures st.Valid()
    ensures var k := Reached(old(st.messages), st.users, messageIds);
      && st.messages == MarkRead(old(st.messages), messageIds[..k], receiverId)
      && r == if k < |messageIds| then Err(NullPointer(ReceiverIsNull))
              else Ok(|FlippedIds(old(st.messages), messageIds, receiverId)|)
  {
    var updatedCount := 0;
    ghost var k := Reached(old(st.messages), st.users, messageIds);
    var i := 0;
    while i < |messageIds|
      invariant 0 <= i <= k
      invariant st.messages == MarkRead(old(st.messages), messageIds[..i], receiverId)
      invariant updatedCount == FlipCount(old(st.messages), messageIds[..i], receiverId)
      invariant MessagesKeyed(st.messages)
    {
      assert messageIds[..i + 1][..i] == messageIds[..i];
      ReachedStep(old(st.messages), st.users, messageIds, i, receiverId);
      var id := messageIds[i];
      if id in st.messages {
        var message := st.messages[id];
        if message.receiverId !in st.users {
          return Err(NullPointer(ReceiverIsNull));
        }
        if message.receiverId == receiverId && !message.read {
          st.messages := st.messages[id := message.(read := true)];
          updatedCount := updatedCount + 1;
        }
      }
      i := i + 1;
    }
    assert messageIds[..i] == messageIds;
    FlipCountIsFlippedIds(old(st.messages), messageIds, receiverId);
    r := Ok(updatedCount);
  }

  /** One unread message for the receiver: the documented count is 1 where the code as written answers 0. */
  lemma OneUnreadCountsOne(messages: map<MessageId, Message>, id: MessageId, receiverId: UserId)
    requires Flips(messages, id, receiverId)
    ensures |FlippedIds(messages, [id], receiverId)| == 1
  {
    assert FlippedIds(messages, [id], receiverId) == {id};
  }
}

/**
 * The STOMP handler for /app/chat.sendMessage: the sender comes from the session's principal,
 * the receiver from the payload; the saved message is delivered to both users' private queues.
 */
module WebSocketMessageController {
  import opened Wrappers
  import opened Model
  import opened MessageService

  /** The private queue both deliveries go to (as /user/{id}/queue/messages). */
  const MessageQueue := "/queue/messages"

  /** One convertAndSendToUser call. */
  datatype Delivery = Delivery(userId: UserId, destination: string, payload: Message)

  /** The incoming payload: what the client may set; sender, timestamp and read are overwritten. */
  datatype ChatPayload = ChatPayload(id: Option<MessageId>, receiverId: UserId, content: string)

  /**
   * sendMessage: when the principal's username and the payload's receiver id both resolve,
   * the message is saved once, unread, and delivered to the receiver and then to the sender;
   * otherwise nothing is saved or sent.
   */
  method SendMessage(st: Store, principalName: string, payload: ChatPayload, now: Instant, newId: MessageId)
    returns (deliveries: seq<Delivery>)
    requires st.Valid() && newId !in st.messages
    modifies st`messages
    ensures st.Valid()
    ensures FindByUsername(st.users, principalName).None? || payload.receiverId !in st.users ==>
      deliveries == [] && st.messages == old(st.messages)
    ensures FindByUsername(st.users, principalName).Some? && payload.receiverId in st.users ==>
      var sender := FindByUsername(st.users, principalName).value;
      var saved := Message(payload.id.GetOr(newId), sender.id, payload.receiverId, payload.content, now, false);
      && st.messages == old(st.messages)[saved.id := saved]
      && deliveries == [Delivery(payload.receiverId, MessageQueue, saved), Delivery(sender.id, MessageQueue, saved)]
  {
    var senderOpt := FindByUsername(st.users, principalName);
    if senderOpt.None? || payload.receiverId !in st.users {
      return [];
    }
    var sender := senderOpt.value;
    var receiver := st.users[payload.receiverId];
    var chatMessage := Message(payload.id.GetOr(newId), sender.id, receiver.id, payload.content, now, false);
    var savedMessage := SaveMessage(st, chatMessage, now);
    deliveries := [Delivery(receiver.id, MessageQueue, savedMessage)];
    deliveries := deliveries + [Delivery(sender.id, MessageQueue, savedMessage)];
  }
}
