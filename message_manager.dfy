/** `MessageManager` of js/message-manager.js: the in-memory conversation
    engine. Timers, `Math.random` and `Date` are parameters: `now` is the
    clock, `networkOk` and `accessDenied` are the outcomes of the random
    draws, `fires` is one listener tick's draw, and the index parameters
    stand for the random picks from the sample texts. One method call is one
    settled operation. */
module MessageManagerModel {
  import opened Wrappers
  import opened Conversation
  import opened Text
  import opened MessageStore
  import opened Batch

  /** `messageText.length > 1000` is rejected. */
  const MaxMessageLength: nat := 1000
  /** `userId.length < 3` is rejected. */
  const MinUserIdLength: nat := 3
  /** Mock messages are five minutes (in milliseconds) apart. */
  const MockSpacing: nat := 300000

  const SampleMessages: seq<string> := [
    "Hey there! How are you doing?",
    "I'm doing great, thanks for asking!",
    "What are you up to today?",
    "Just working on some projects. You?",
    "Same here! This async demo is pretty cool.",
    "Yeah, it really shows the different patterns well.",
    "I love how callbacks, promises, and async/await are demonstrated.",
    "The UI is really smooth too!",
    "Want to grab coffee later?",
    "Sounds good! Let me know when."
  ]

  const Responses: seq<string> := [
    "That's really interesting!",
    "I see what you mean.",
    "Thanks for sharing that with me.",
    "Tell me more about that.",
    "That sounds amazing!",
    "I completely agree.",
    "What do you think about this?",
    "This async demo is working great!",
    "The real-time updates are smooth.",
    "I love the modern UI design."
  ]

  /** `Math.floor(Math.random() * 8)`. */
  type MockDraw = d: nat | d < 8
  /** `Math.floor(Math.random() * sampleMessages.length)`. */
  type SampleIndex = i: nat | i < 10
  /** `Math.floor(Math.random() * responses.length)`. */
  type ResponseIndex = i: nat | i < 10

  /** The rejections of the two send operations. */
  datatype SendError =
    | EmptyMessage    // 'Message cannot be empty'
    | MessageTooLong  // 'Message too long'
    | ServerError     // 'Failed to send message: Server error'
    | NetworkError    // 'Network error: Failed to send message'

  /** `validateUser` fails with 'Invalid user ID'. */
  datatype ChatError = InvalidUserId

  /** `validateUserAccess` fails with 'Invalid user or conversation ID' or
      'Access denied'. */
  datatype LoadError = InvalidAccess | AccessDenied

  /** One element of the array given to `batchSendMessages`. */
  datatype OutgoingItem = OutgoingItem(text: string, senderId: string, receiverId: string)

  /** The closure an interval timer of `setupMessageListener` runs. */
  datatype ListenerTimer = ListenerTimer(userId: string, partnerId: string, conversationId: string)

  /** The cleanup closure `setupMessageListener` returns: it captures the
      interval and the conversation id. */
  datatype CleanupHandle = CleanupHandle(timer: nat, conversationId: string)

  // ---------------------------------------------------------------------
  // Validation and the send lifecycle as specification functions

  /** The two checks of `sendMessage`, in source order. Validation only
      ever rejects as empty or as too long. */
  function ValidateText(text: string): (e: Option<SendError>)
    ensures e.Some? ==> e.value == EmptyMessage || e.value == MessageTooLong
    ensures e == Some(MessageTooLong) ==> |text| > MaxMessageLength
  {
    if Trim(text, IsJsSpace) == [] then Some(EmptyMessage)
    else if |text| > MaxMessageLength then Some(MessageTooLong)
    else None
  }

  /** Text is rejected as empty exactly when it is all JavaScript white
      space, as too long exactly when it has content but over 1000 code
      units, and accepted otherwise. */
  lemma ValidateTextCases(text: string)
    ensures ValidateText(text) == Some(EmptyMessage) <==> Blank(text, IsJsSpace)
    ensures ValidateText(text) == Some(MessageTooLong) <==> !Blank(text, IsJsSpace) && |text| > MaxMessageLength
    ensures ValidateText(text) == None <==> !Blank(text, IsJsSpace) && |text| <= MaxMessageLength
  {
    TrimEmptyIffBlank(text, IsJsSpace);
  }

  /** `!userId || userId.length < 3` is the failure of `validateUser`. */
  predicate ValidUserId(userId: string) {
    userId != [] && |userId| >= MinUserIdLength
  }

  /** The message object `sendMessage` builds before validating. */
  function Outgoing(id: nat, text: string, senderId: string, receiverId: string, now: int): Message {
    Message(id, text, senderId, Some(receiverId), now, ConversationId(senderId, receiverId),
            Some(Sending), None, false)
  }

  /** What the promise of `sendMessage` settles with, given the id it drew
      and the network's outcome: it resolves exactly when validation passes
      and the network succeeds, with the delivered message of the inputs,
      addressed to their conversation; otherwise it rejects with the
      validation error, or the server error when validation passed. */
  function SendOutcome(text: string, senderId: string, receiverId: string, id: nat, now: int,
                       networkOk: bool): (r: Result<Message, SendError>)
    ensures r.Success? <==> ValidateText(text).None? && networkOk
    ensures r.Success? ==>
      && r.value.text == text && r.value.senderId == senderId
      && r.value.receiverId == Some(receiverId)
      && r.value.conversationId == ConversationId(receiverId, senderId)
      && r.value.status == Some(Delivered) && r.value.id == id
    ensures r.Failure? ==>
      r.error == if ValidateText(text).Some? then ValidateText(text).value else ServerError
  {
    ConversationIdSymmetric(receiverId, senderId);
    match ValidateText(text)
    case Some(e) => Failure(e)
    case None =>
      if networkOk then Success(Outgoing(id, text, senderId, receiverId, now).(status := Some(Delivered)))
      else Failure(ServerError)
  }

  /** The same in terms of the text itself: a send resolves exactly when
      the text has a non-space character, is at most 1000 code units long,
      and the network succeeds; a rejection names the first check that
      failed, or the server. */
  lemma SendOutcomeSpec(text: string, senderId: string, receiverId: string, id: nat, now: int,
                        networkOk: bool)
    ensures var r := SendOutcome(text, senderId, receiverId, id, now, networkOk);
      && (r.Success? <==> !Blank(text, IsJsSpace) && |text| <= MaxMessageLength && networkOk)
      && (r.Failure? ==>
            r.error == (if Blank(text, IsJsSpace) then EmptyMessage
                        else if |text| > MaxMessageLength then MessageTooLong
                        else ServerError))
  {
    ValidateTextCases(text);
  }

  /** The outcomes of a batch, one per input item, in input order: item i
      drew the i-th fresh id. */
  function BatchOutcomes(items: seq<OutgoingItem>, firstId: nat, now: int,
                         networkOk: nat -> bool): (outs: seq<Result<Message, SendError>>)
    ensures |outs| == |items|
  {
    seq(|items|, i requires 0 <= i < |items| =>
      SendOutcome(items[i].text, items[i].senderId, items[i].receiverId, firstId + i, now, networkOk(i)))
  }

  /** The batch counts add up and each entry is the outcome of the same
      input item, for every completion order. */
  lemma BatchResultShape(items: seq<OutgoingItem>, firstId: nat, now: int, networkOk: nat -> bool)
    ensures var b := Aggregate(BatchOutcomes(items, firstId, now, networkOk));
      && b.successful + b.failed == |items| && |b.results| == |items|
      && forall i :: 0 <= i < |items| ==>
           b.results[i] == SendOutcome(items[i].text, items[i].senderId, items[i].receiverId,
                                       firstId + i, now, networkOk(i))
  {
  }

  /** A batch where one item has blank text and every other item is valid
      and reaches the server reports one failure, and every other entry is
      delivered. */
  lemma BatchPartialFailure(items: seq<OutgoingItem>, k: nat, firstId: nat, now: int,
                            networkOk: nat -> bool)
    requires k < |items| && Blank(items[k].text, IsJsSpace)
    requires forall i :: 0 <= i < |items| && i != k ==>
      ValidateText(items[i].text) == None && networkOk(i)
    ensures var b := Aggregate(BatchOutcomes(items, firstId, now, networkOk));
      && b.failed == 1 && b.successful == |items| - 1
      && b.results[k] == Failure(EmptyMessage)
      && forall i :: 0 <= i < |items| && i != k ==>
           b.results[i].Success? && b.results[i].value.status == Some(Delivered)
  {
    var outs := BatchOutcomes(items, firstId, now, networkOk);
    BlankSendFails(items[k], firstId + k, now, networkOk(k));
    assert outs[k] == Failure(EmptyMessage);
    forall i | 0 <= i < |items| && i != k
      ensures outs[i].Success? && outs[i].value.status == Some(Delivered)
    {
      ValidSendDelivered(items[i], firstId + i, now, networkOk(i));
    }
    SingleFailure(outs, k);
    var b := Aggregate(outs);
    assert b.results == outs;
  }

  lemma BlankSendFails(item: OutgoingItem, id: nat, now: int, ok: bool)
    requires Blank(item.text, IsJsSpace)
    ensures SendOutcome(item.text, item.senderId, item.receiverId, id, now, ok) == Failure(EmptyMessage)
  {
    ValidateTextCases(item.text);
  }

  lemma ValidSendDelivered(item: OutgoingItem, id: nat, now: int, ok: bool)
    requires ValidateText(item.text) == None && ok
    ensures var r := SendOutcome(item.text, item.senderId, item.receiverId, id, now, ok);
      r.Success? && r.value.status == Some(Delivered)
  {
  }

  /** The sends that got through, in the order the promises settled. */
  function DeliveredInOrder(outs: seq<Result<Message, SendError>>, order: seq<nat>): seq<Message>
    requires forall j :: 0 <= j < |order| ==> order[j] < |outs|
    decreases |order|
  {
    if order == [] then []
    else
      var last := outs[order[|order| - 1]];
      DeliveredInOrder(outs, order[..|order| - 1]) + (if last.Success? then [last.value] else [])
  }

  /** `order` lists every index below `n` exactly once: the order in which
      the `n` promises of a batch settle. */
  predicate IsCompletionOrder(order: seq<nat>, n: nat) {
    && |order| == n
    && (forall j :: 0 <= j < |order| ==> order[j] < n)
    && (forall i :: 0 <= i < n ==> i in order)
    && (forall j, k :: 0 <= j < k < |order| ==> order[j] != order[k])
  }

  // ---------------------------------------------------------------------
  // Mock history

  /** The i-th message `generateMockChatHistory` builds out of `count`. */
  function MockMessage(conversationId: string, userId: string, partnerId: string, now: int,
                       count: nat, i: nat, isFromUser: bool, sample: SampleIndex, firstId: nat): Message
  {
    Message(firstId + i, SampleMessages[sample],
            if isFromUser then userId else partnerId,
            Some(if isFromUser then partnerId else userId),
            now - (count - i) * MockSpacing, conversationId, None, None, false)
  }

  /** What a mock history promises: 2 to 9 messages of the conversation,
      each exchanged between the two participants, with fresh consecutive
      ids, sample texts and strictly increasing timestamps in the past. */
  ghost predicate IsMockHistory(ms: seq<Message>, conversationId: string, userId: string,
                                partnerId: string, now: int, firstId: nat)
  {
    && 2 <= |ms| <= 9
    && (forall i :: 0 <= i < |ms| ==>
          && ms[i].conversationId == conversationId
          && ms[i].id == firstId + i
          && ms[i].text in SampleMessages
          && ms[i].timestamp < now
          && ((ms[i].senderId == userId && ms[i].receiverId == Some(partnerId))
              || (ms[i].senderId == partnerId && ms[i].receiverId == Some(userId))))
    && (forall i, j :: 0 <= i < j < |ms| ==> ms[i].timestamp < ms[j].timestamp)
  }

  /** `generateMockChatHistory`: `fromUser(i)` and `pick(i)` are the two
      random draws of iteration i; ids are drawn from `firstId` on. */
  method GenerateMockChatHistory(conversationId: string, userId: string, partnerId: string,
                                 now: int, countDraw: MockDraw, fromUser: nat -> bool,
                                 pick: nat -> SampleIndex, firstId: nat)
    returns (mock: seq<Message>)
    ensures |mock| == countDraw + 2
    ensures forall i :: 0 <= i < |mock| ==>
      mock[i] == MockMessage(conversationId, userId, partnerId, now, |mock|, i, fromUser(i), pick(i), firstId)
    ensures IsMockHistory(mock, conversationId, userId, partnerId, now, firstId)
  {
    var messageCount: nat := countDraw + 2;
    mock := [];
    for i := 0 to messageCount
      invariant |mock| == i
      invariant forall j :: 0 <= j < i ==>
        mock[j] == MockMessage(conversationId, userId, partnerId, now, messageCount, j, fromUser(j), pick(j), firstId)
    {
      var isFromUser := fromUser(i);
      var message := MockMessage(conversationId, userId, partnerId, now, messageCount, i, isFromUser, pick(i), firstId);
      mock := mock + [message];
    }
  }

  /** The welcome message of `createNewChat`. */
  function WelcomeMessage(id: nat, userId: string, partnerId: string, now: int): Message {
    Message(id, "Chat started between " + userId + " and " + partnerId, "system", None, now,
            ConversationId(userId, partnerId), None, Some(SystemKind), false)
  }

  // ---------------------------------------------------------------------
  // The manager

  class MessageManager {
    /** `this.messages`. */
    var messages: Store
    /** `this.listeners`: conversation id to the interval registered for it. */
    var listeners: map<string, nat>
    /** The intervals `setInterval` started and `clearInterval` has not
        cleared, with the closure each one runs. */
    var running: map<nat, ListenerTimer>
    /** Fresh-id counter standing for `generateMessageId`. */
    var nextId: nat
    /** Fresh-id counter standing for the ids `setInterval` returns. */
    var nextTimer: nat
    /** The cleanup closures handed out so far. */
    ghost var handles: set<CleanupHandle>

    ghost predicate Valid()
      reads this
    {
      && IdsBelow(messages, nextId)
      && (forall c :: c in listeners ==>
            listeners[c] in running && running[listeners[c]].conversationId == c)
      && (forall t :: t in running ==> t < nextTimer)
      && (forall h :: h in handles ==>
            h.timer < nextTimer && (h.timer in running ==> running[h.timer].conversationId == h.conversationId))
    }

    constructor ()
      ensures Valid()
      ensures messages == map[] && listeners == map[] && running == map[]
      ensures nextId == 0 && nextTimer == 0 && handles == {}
    {
      messages := map[];
      listeners := map[];
      running := map[];
      nextId := 0;
      nextTimer := 0;
      handles := {};
    }

    /** `generateMessageId`. */
    method GenerateMessageId() returns (id: nat)
      requires Valid()
      modifies this`nextId
      ensures Valid() && id == old(nextId) && nextId == id + 1
    {
      id := nextId;
      nextId := nextId + 1;
    }

    /** `storeMessage`. */
    method StoreMessage(conversationId: string, message: Message)
      requires Valid() && message.id < nextId
      modifies this`messages
      ensures Valid()
      ensures messages == Append(old(messages), conversationId, message)
    {
      AppendKeepsIdsBelow(messages, conversationId, message, nextId);
      if conversationId !in messages {
        messages := messages[conversationId := []];
      }
      messages := messages[conversationId := messages[conversationId] + [message]];
    }

    /** `checkChatExists`: a present key counts, even with an empty list. */
    method CheckChatExists(userId: string, partnerId: string) returns (found: bool)
      ensures found <==> ConversationId(userId, partnerId) in messages
    {
      var conversationId := ConversationId(userId, partnerId);
      found := conversationId in messages;
    }

    /** The synchronous part of `sendMessage` (the promise executor): build
        the message with status 'sending', then validate the text. */
    method StartSend(text: string, senderId: string, receiverId: string, now: int)
      returns (start: Result<Message, SendError>)
      requires Valid()
      modifies this`nextId
      ensures Valid() && nextId == old(nextId) + 1
      ensures ValidateText(text).Some? ==> start == Failure(ValidateText(text).value)
      ensures ValidateText(text).None? ==> start == Success(Outgoing(old(nextId), text, senderId, receiverId, now))
    {
      var id := GenerateMessageId();
      var message := Outgoing(id, text, senderId, receiverId, now);
      if Trim(text, IsJsSpace) == [] {
        start := Failure(EmptyMessage);
        return;
      }
      if |text| > MaxMessageLength {
        start := Failure(MessageTooLong);
        return;
      }
      start := Success(message);
    }

    /** The timer part of `sendMessage`: on success the message becomes
        'sent', is stored, and becomes 'delivered'; the stored entry is the
        same object, so it is delivered too. On failure it becomes 'failed'
        and is not stored. `trace` lists the statuses it passes through. */
    method SettleSend(message: Message, networkOk: bool)
      returns (r: Result<Message, SendError>, trace: seq<Status>)
      requires Valid() && message.id < nextId
      modifies this`messages
      ensures Valid()
      ensures networkOk ==>
        && r == Success(message.(status := Some(Delivered)))
        && messages == Append(old(messages), message.conversationId, r.value)
        && trace == [Sent, Delivered]
      ensures !networkOk ==> r == Failure(ServerError) && messages == old(messages) && trace == [Failed]
    {
      var m := message;
      if networkOk {
        m := m.(status := Some(Sent));
        trace := [Sent];
        StoreMessage(m.conversationId, m);
        m := m.(status := Some(Delivered));
        trace := trace + [Delivered];
        var stored := messages[m.conversationId];
        ReplaceLastAppended(old(messages), m.conversationId, m.(status := Some(Sent)), m);
        messages := messages[m.conversationId := stored[..|stored| - 1] + [m]];
        AppendKeepsIdsBelow(old(messages), m.conversationId, m, nextId);
        r := Success(m);
      } else {
        m := m.(status := Some(Failed));
        trace := [Failed];
        r := Failure(ServerError);
      }
    }

    /** `sendMessage`, settled. */
    method SendMessage(text: string, senderId: string, receiverId: string, now: int, networkOk: bool)
      returns (r: Result<Message, SendError>, trace: seq<Status>)
      requires Valid()
      modifies this`messages, this`nextId
      ensures Valid() && nextId == old(nextId) + 1
      ensures r == SendOutcome(text, senderId, receiverId, old(nextId), now, networkOk)
      ensures r.Success? ==> messages == Append(old(messages), ConversationId(senderId, receiverId), r.value)
      ensures r.Failure? ==> messages == old(messages)
      ensures trace == if ValidateText(text).Some? then [Sending]
                       else if networkOk then [Sending, Sent, Delivered]
                       else [Sending, Failed]
    {
      var start := StartSend(text, senderId, receiverId, now);
      if start.Failure? {
        r := Failure(start.error);
        trace := [Sending];
        return;
      }
      var settled;
      r, settled := SettleSend(start.value, networkOk);
      trace := [Sending] + settled;
    }

    /** `sendMessageWithCallback`: no validation and no status field; the
        callback receives the stored message or a network error. */
    method SendMessageWithCallback(text: string, senderId: string, receiverId: string, now: int,
                                   networkOk: bool)
      returns (r: Result<Message, SendError>)
      requires Valid()
      modifies this`messages, this`nextId
      ensures Valid() && nextId == old(nextId) + 1
      ensures networkOk ==>
        && r == Success(Message(old(nextId), text, senderId, Some(receiverId), now,
                                ConversationId(senderId, receiverId), None, None, false))
        && messages == Append(old(messages), ConversationId(senderId, receiverId), r.value)
      ensures !networkOk ==> r == Failure(NetworkError) && messages == old(messages)
    {
      var conversationId := ConversationId(senderId, receiverId);
      var id := GenerateMessageId();
      var message := Message(id, text, senderId, Some(receiverId), now, conversationId, None, None, false);
      if networkOk {
        StoreMessage(conversationId, message);
        r := Success(message);
      } else {
        r := Failure(NetworkError);
      }
    }

    /** `createNewChat`: validate both ids, then overwrite the conversation
        with an empty list and store the welcome message. */
    method CreateNewChat(userId: string, partnerId: string, now: int)
      returns (r: Result<string, ChatError>)
      requires Valid()
      modifies this`messages, this`nextId
      ensures Valid()
      ensures !(ValidUserId(userId) && ValidUserId(partnerId)) ==>
        r == Failure(InvalidUserId) && messages == old(messages) && nextId == old(nextId)
      ensures ValidUserId(userId) && ValidUserId(partnerId) ==>
        && r == Success(ConversationId(userId, partnerId))
        && nextId == old(nextId) + 1
        && messages == old(messages)[r.value := [WelcomeMessage(old(nextId), userId, partnerId, now)]]
      ensures r.Success? ==>
        && |messages[r.value]| == 1
        && messages[r.value][0].kind == Some(SystemKind)
        && messages[r.value][0].senderId == "system"
        && messages[r.value][0].receiverId == None
    {
      if !ValidUserId(userId) {
        r := Failure(InvalidUserId);
        return;
      }
      if !ValidUserId(partnerId) {
        r := Failure(InvalidUserId);
        return;
      }
      var conversationId := ConversationId(userId, partnerId);
      messages := messages[conversationId := []];
      var id := GenerateMessageId();
      var welcome := Message(id, "Chat started between " + userId + " and " + partnerId, "system",
                             None, now, conversationId, None, Some(SystemKind), false);
      StoreMessage(conversationId, welcome);
      assert welcome == WelcomeMessage(id, userId, partnerId, now);
      assert [] + [welcome] == [welcome];
      r := Success(conversationId);
    }

    /** `loadChatHistory`: check access, replace an absent or empty history
        by a mock one, and return the history flagged as decrypted. */
    method LoadChatHistory(userId: string, partnerId: string, accessDenied: bool, now: int,
                           countDraw: MockDraw, fromUser: nat -> bool, pick: nat -> SampleIndex)
      returns (r: Result<seq<Message>, LoadError>)
      requires Valid()
      modifies this`messages, this`nextId
      ensures Valid()
      ensures userId == [] ==> r == Failure(InvalidAccess)
      ensures userId != [] && accessDenied ==> r == Failure(AccessDenied)
      ensures r.Failure? ==> messages == old(messages) && nextId == old(nextId)
      ensures userId != [] && !accessDenied ==> r.Success?
      ensures var conversationId := ConversationId(userId, partnerId);
        r.Success? ==>
          && conversationId in messages
          && r.value == Decrypt(messages[conversationId])
          && (old(History(messages, conversationId)) != [] ==>
                messages == old(messages) && nextId == old(nextId))
          && (old(History(messages, conversationId)) == [] ==>
                && messages == old(messages)[conversationId := messages[conversationId]]
                && |messages[conversationId]| == countDraw + 2
                && (forall i :: 0 <= i < countDraw + 2 ==>
                      messages[conversationId][i] == MockMessage(conversationId, userId, partnerId, now,
                                                                 countDraw + 2, i, fromUser(i), pick(i), old(nextId)))
                && IsMockHistory(messages[conversationId], conversationId, userId, partnerId, now, old(nextId))
                && nextId == old(nextId) + countDraw + 2)
    {
      var conversationId := ConversationId(userId, partnerId);
      if userId == [] || conversationId == [] {
        r := Failure(InvalidAccess);
        return;
      }
      if accessDenied {
        r := Failure(AccessDenied);
        return;
      }
      var history := History(messages, conversationId);
      if |history| == 0 {
        history := GenerateMockChatHistory(conversationId, userId, partnerId, now, countDraw,
                                           fromUser, pick, nextId);
        MockKeepsIdsBelow(messages, conversationId, history, userId, partnerId, now, nextId);
        nextId := nextId + |history|;
        messages := messages[conversationId := history];
      }
      r := Success(Decrypt(history));
    }

    /** `setupMessageListener`: start an interval for the conversation and
        record it in `listeners`, overwriting (not clearing) any earlier
        interval of the same conversation. */
    method SetupMessageListener(userId: string, partnerId: string) returns (cleanup: CleanupHandle)
      requires Valid()
      modifies this`listeners, this`running, this`nextTimer, this`handles
      ensures Valid() && handles == old(handles) + {cleanup}
      ensures cleanup == CleanupHandle(old(nextTimer), ConversationId(userId, partnerId))
      ensures cleanup.timer !in old(running)
      ensures running == old(running)[cleanup.timer := ListenerTimer(userId, partnerId, cleanup.conversationId)]
      ensures listeners == old(listeners)[cleanup.conversationId := cleanup.timer]
    {
      var conversationId := ConversationId(userId, partnerId);
      var interval := nextTimer;
      nextTimer := nextTimer + 1;
      running := running[interval := ListenerTimer(userId, partnerId, conversationId)];
      listeners := listeners[conversationId := interval];
      cleanup := CleanupHandle(interval, conversationId);
      handles := handles + {cleanup};
    }

    /** One tick of interval `timer`. A cleared interval never ticks; a
        running one that fires stores a message from the partner to the
        user and then hands that same message to the callback. */
    method ListenerTick(timer: nat, fires: bool, pick: ResponseIndex, now: int)
      returns (delivered: Option<Message>)
      requires Valid()
      modifies this`messages, this`nextId
      ensures Valid()
      ensures delivered.Some? <==> timer in running && fires
      ensures delivered.Some? ==>
        && delivered.value == Message(old(nextId), Responses[pick], running[timer].partnerId,
                                      Some(running[timer].userId), now,
                                      running[timer].conversationId, None, None, false)
        && nextId == old(nextId) + 1
        && messages == Append(old(messages), running[timer].conversationId, delivered.value)
      ensures delivered.None? ==> messages == old(messages) && nextId == old(nextId)
    {
      if timer in running && fires {
        var closure := running[timer];
        var id := GenerateMessageId();
        var mockMessage := Message(id, Responses[pick], closure.partnerId, Some(closure.userId), now,
                                   closure.conversationId, None, None, false);
        StoreMessage(closure.conversationId, mockMessage);
        delivered := Some(mockMessage);
      } else {
        delivered := None;
      }
    }

    /** The cleanup closure: clear its interval and delete its conversation's
        entry, whichever interval that entry now names. */
    method Cleanup(cleanup: CleanupHandle)
      requires Valid() && cleanup in handles
      modifies this`listeners, this`running
      ensures Valid()
      ensures running == old(running) - {cleanup.timer}
      ensures listeners == old(listeners) - {cleanup.conversationId}
    {
      running := running - {cleanup.timer};
      listeners := listeners - {cleanup.conversationId};
    }

    /** `batchSendMessages`: every send starts at once (in input order, each
        drawing its id and validating), then the promises settle in
        `order`, each successful one storing its message when it settles. */
    method BatchSendMessages(items: seq<OutgoingItem>, now: int, networkOk: nat -> bool, order: seq<nat>)
      returns (b: BatchResult<Message, SendError>)
      requires Valid() && IsCompletionOrder(order, |items|)
      modifies this`messages, this`nextId
      ensures Valid() && nextId == old(nextId) + |items|
      ensures b == Aggregate(BatchOutcomes(items, old(nextId), now, networkOk))
      ensures messages == AppendAll(old(messages),
                                    DeliveredInOrder(BatchOutcomes(items, old(nextId), now, networkOk), order))
    {
      ghost var outs := BatchOutcomes(items, nextId, now, networkOk);
      var starts := StartAll(items, now, networkOk);
      var results := SettleAll(starts, outs, networkOk, order);
      b := BatchResult(CountFulfilled(results), CountRejected(results), results);
    }

    /** The synchronous half of a batch: `messages.map(msg => this.sendMessage(...))`
        runs every executor, in input order. */
    method StartAll(items: seq<OutgoingItem>, now: int, networkOk: nat -> bool)
      returns (starts: seq<Result<Message, SendError>>)
      requires Valid()
      modifies this`nextId
      ensures Valid() && nextId == old(nextId) + |items| && |starts| == |items|
      ensures forall j :: 0 <= j < |items| ==>
        StartLeadsTo(starts[j], BatchOutcomes(items, old(nextId), now, networkOk)[j], networkOk(j), nextId)
    {
      ghost var outs := BatchOutcomes(items, nextId, now, networkOk);
      ghost var bound := nextId + |items|;
      starts := [];
      for i := 0 to |items|
        invariant Valid() && nextId == old(nextId) + i
        invariant |starts| == i
        invariant forall j :: 0 <= j < i ==> StartLeadsTo(starts[j], outs[j], networkOk(j), bound)
      {
        ghost var id := nextId;
        var start := StartSend(items[i].text, items[i].senderId, items[i].receiverId, now);
        StartSendLeadsTo(items[i].text, items[i].senderId, items[i].receiverId, id, now,
                         networkOk(i), start, bound);
        starts := starts + [start];
      }
    }

    /** Settles one started send of a batch. */
    method SettleStarted(start: Result<Message, SendError>, ghost out: Result<Message, SendError>, ok: bool)
      returns (outcome: Result<Message, SendError>)
      requires Valid() && StartLeadsTo(start, out, ok, nextId)
      modifies this`messages
      ensures Valid() && outcome == out
      ensures messages == if out.Success? then Append(old(messages), out.value.conversationId, out.value)
                          else old(messages)
    {
      if start.Failure? {
        outcome := start;
      } else {
        var trace;
        outcome, trace := SettleSend(start.value, ok);
      }
    }

    /** The timer half of a batch: the started sends settle in `order`. */
    method SettleAll(starts: seq<Result<Message, SendError>>, ghost outs: seq<Result<Message, SendError>>,
                     networkOk: nat -> bool, order: seq<nat>)
      returns (results: seq<Result<Message, SendError>>)
      requires Valid() && |starts| == |outs| && IsCompletionOrder(order, |outs|)
      requires forall j :: 0 <= j < |outs| ==> StartLeadsTo(starts[j], outs[j], networkOk(j), nextId)
      modifies this`messages
      ensures Valid() && results == outs
      ensures messages == AppendAll(old(messages), DeliveredInOrder(outs, order))
    {
      var settled: seq<Option<Result<Message, SendError>>> := seq(|starts|, _ => None);
      for k := 0 to |order|
        invariant Valid()
        invariant SettledUpTo(settled, outs, order, k)
        invariant messages == AppendAll(old(messages), DeliveredInOrder(outs, order[..k]))
      {
        var index := order[k];
        ghost var before := messages;
        var outcome := SettleStarted(starts[index], outs[index], networkOk(index));
        SettleStepStore(old(messages), outs, order, k, before, messages);
        MarkSettled(settled, outs, order, k);
        settled := settled[index := Some(outcome)];
      }
      AllSettled(settled, outs, order);
      assert order[..|order|] == order;
      results := seq(|starts|, i requires 0 <= i < |starts| => settled[i].value);
    }
  }

  /** After the first `k` settlements of `order`, exactly the sends they
      name have settled, each with its outcome. */
  predicate SettledUpTo(settled: seq<Option<Result<Message, SendError>>>,
                        outs: seq<Result<Message, SendError>>, order: seq<nat>, k: nat)
  {
    && k <= |order|
    && |settled| == |outs|
    && forall i :: 0 <= i < |outs| ==> settled[i] == if i in order[..k] then Some(outs[i]) else None
  }

  lemma MarkSettled(settled: seq<Option<Result<Message, SendError>>>,
                    outs: seq<Result<Message, SendError>>, order: seq<nat>, k: nat)
    requires IsCompletionOrder(order, |outs|) && k < |order| && SettledUpTo(settled, outs, order, k)
    ensures SettledUpTo(settled[order[k] := Some(outs[order[k]])], outs, order, k + 1)
  {
    assert order[..k + 1] == order[..k] + [order[k]];
  }

  lemma AllSettled(settled: seq<Option<Result<Message, SendError>>>,
                   outs: seq<Result<Message, SendError>>, order: seq<nat>)
    requires IsCompletionOrder(order, |outs|) && SettledUpTo(settled, outs, order, |order|)
    ensures |settled| == |outs| && forall i :: 0 <= i < |outs| ==> settled[i] == Some(outs[i])
  {
    assert order[..|order|] == order;
  }

  /** Settling the k-th send of the completion order extends the store by
      what that send delivered. */
  lemma SettleStepStore(base: Store, outs: seq<Result<Message, SendError>>, order: seq<nat>, k: nat,
                        before: Store, after: Store)
    requires k < |order| && forall j :: 0 <= j < |order| ==> order[j] < |outs|
    requires before == AppendAll(base, DeliveredInOrder(outs, order[..k]))
    requires after == if outs[order[k]].Success?
                      then Append(before, outs[order[k]].value.conversationId, outs[order[k]].value)
                      else before
    ensures after == AppendAll(base, DeliveredInOrder(outs, order[..k + 1]))
  {
    DeliveredInOrderStep(outs, order, k);
    var delivered := DeliveredInOrder(outs, order[..k]);
    if outs[order[k]].Success? {
      AppendAllSnoc(base, delivered, outs[order[k]].value);
    } else {
      assert delivered + [] == delivered;
    }
  }

  lemma DeliveredInOrderStep(outs: seq<Result<Message, SendError>>, order: seq<nat>, k: nat)
    requires k < |order| && forall j :: 0 <= j < |order| ==> order[j] < |outs|
    ensures DeliveredInOrder(outs, order[..k + 1]) ==
      DeliveredInOrder(outs, order[..k]) + (if outs[order[k]].Success? then [outs[order[k]].value] else [])
  {
    assert order[..k + 1][..k] == order[..k];
  }

  lemma StartSendLeadsTo(text: string, senderId: string, receiverId: string, id: nat, now: int,
                         ok: bool, start: Result<Message, SendError>, bound: nat)
    requires id < bound
    requires ValidateText(text).Some? ==> start == Failure(ValidateText(text).value)
    requires ValidateText(text).None? ==> start == Success(Outgoing(id, text, senderId, receiverId, now))
    ensures StartLeadsTo(start, SendOutcome(text, senderId, receiverId, id, now, ok), ok, bound)
  {
  }

  /** A started send (a rejection, or a message in 'sending' state with an
      id below `bound`) settles with `out` when the network answers `ok`. */
  predicate StartLeadsTo(start: Result<Message, SendError>, out: Result<Message, SendError>,
                         ok: bool, bound: nat)
  {
    && (start.Failure? ==> out == start)
    && (start.Success? ==>
          && start.value.id < bound
          && out == (if ok then Success(start.value.(status := Some(Delivered))) else Failure(ServerError)))
  }

  lemma MockKeepsIdsBelow(store: Store, conversationId: string, mock: seq<Message>, userId: string,
                          partnerId: string, now: int, firstId: nat)
    requires IdsBelow(store, firstId)
    requires IsMockHistory(mock, conversationId, userId, partnerId, now, firstId)
    ensures IdsBelow(store[conversationId := mock], firstId + |mock|)
  {
    var r: Store := store[conversationId := mock];
    forall k: string, j: int | k in r && 0 <= j < |r[k]| ensures r[k][j].id < firstId + |mock| {
      if k == conversationId {
        assert r[k][j] == mock[j];
      } else {
        assert r[k][j] == store[k][j];
      }
    }
  }
}
