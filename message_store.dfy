/** The message record of `MessageManager` and the store it keeps in
    `this.messages`: a map from conversation id to the messages of that
    conversation, in the order they were pushed. */
module MessageStore {
  import opened Wrappers

  /** The values `sendMessage` gives a message's `status` field. */
  datatype Status = Sending | Sent | Delivered | Failed

  /** The only `type` a message is ever given is 'system' (the welcome message). */
  datatype MessageKind = SystemKind

  /** One message object. Fields the source leaves off an object are `None`
      (`status` on listener, mock and welcome messages, `type` on all but the
      welcome message); `decrypted` is the flag `decryptMessages` adds.
      `id` stands for the string of `generateMessageId`, `timestamp` for
      the `Date` it was created at. */
  datatype Message = Message(
    id: nat,
    text: string,
    senderId: string,
    receiverId: Option<string>,
    timestamp: int,
    conversationId: string,
    status: Option<Status>,
    kind: Option<MessageKind>,
    decrypted: bool)

  type Store = map<string, seq<Message>>

  /** `this.messages.get(conversationId) || []`. */
  function History(store: Store, conversationId: string): seq<Message> {
    if conversationId in store then store[conversationId] else []
  }

  /** `storeMessage`: create an empty list if the key is absent, then push. */
  function Append(store: Store, conversationId: string, m: Message): (r: Store)
    ensures r.Keys == store.Keys + {conversationId}
    ensures r[conversationId] == History(store, conversationId) + [m]
    ensures forall k :: k in store && k != conversationId ==> r[k] == store[k]
  {
    if conversationId in store then store[conversationId := store[conversationId] + [m]]
    else store[conversationId := [] + [m]]
  }

  /** Appending never removes or reorders a stored message: every history
      before is a prefix of the same history after. */
  lemma AppendExtendsEveryHistory(store: Store, conversationId: string, m: Message, k: string)
    ensures var before := History(store, k);
      var after := History(Append(store, conversationId, m), k);
      |before| <= |after| && after[..|before|] == before
  {
  }

  /** Reading any conversation after a store: the stored one has the
      message at its end, every other one reads as before. */
  lemma HistoryAfterAppend(store: Store, conversationId: string, m: Message, k: string)
    ensures History(Append(store, conversationId, m), k) ==
      if k == conversationId then History(store, k) + [m] else History(store, k)
  {
  }

  /** Overwriting the message just appended is appending the new one. */
  lemma ReplaceLastAppended(store: Store, conversationId: string, first: Message, second: Message)
    ensures var s := Append(store, conversationId, first);
      s[conversationId := s[conversationId][..|s[conversationId]| - 1] + [second]]
        == Append(store, conversationId, second)
  {
    var s := Append(store, conversationId, first);
    assert s[conversationId][..|s[conversationId]| - 1] == History(store, conversationId);
  }

  /** Appends each message to its own conversation, left to right. */
  function AppendAll(store: Store, ms: seq<Message>): Store
    decreases |ms|
  {
    if ms == [] then store
    else AppendAll(Append(store, ms[0].conversationId, ms[0]), ms[1..])
  }

  lemma {:induction false} AppendAllSnoc(store: Store, ms: seq<Message>, m: Message)
    ensures AppendAll(store, ms + [m]) == Append(AppendAll(store, ms), m.conversationId, m)
    decreases |ms|
  {
    if ms == [] {
      assert [] + [m] == [m];
      assert [m][1..] == [];
    } else {
      assert (ms + [m])[1..] == ms[1..] + [m];
      AppendAllSnoc(Append(store, ms[0].conversationId, ms[0]), ms[1..], m);
    }
  }

  /** Every stored message has an id below `bound`: ids drawn from a
      counter at `bound` or above are fresh. */
  ghost predicate IdsBelow(store: Store, bound: nat) {
    forall k, j :: k in store && 0 <= j < |store[k]| ==> store[k][j].id < bound
  }

  lemma AppendKeepsIdsBelow(store: Store, conversationId: string, m: Message, bound: nat)
    requires IdsBelow(store, bound) && m.id < bound
    ensures IdsBelow(Append(store, conversationId, m), bound)
  {
    var r: Store := Append(store, conversationId, m);
    forall k: string, j: int | k in r && 0 <= j < |r[k]| ensures r[k][j].id < bound {
      if k == conversationId && j == |r[k]| - 1 {
        assert r[k][j] == m;
      } else if k == conversationId {
        assert r[k][j] == store[k][j];
      }
    }
  }

  /** `decryptMessages`: each message copied with `decrypted: true`, in
      the same order. */
  function Decrypt(ms: seq<Message>): (r: seq<Message>)
    ensures |r| == |ms|
    ensures forall i :: 0 <= i < |ms| ==> r[i] == ms[i].(decrypted := true)
    decreases |ms|
  {
    if ms == [] then [] else [ms[0].(decrypted := true)] + Decrypt(ms[1..])
  }
}
