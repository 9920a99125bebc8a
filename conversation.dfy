/** The conversation key of `MessageManager.getConversationId`: the two
    participant ids, sorted the way `Array.prototype.sort` sorts strings by
    default (code unit by code unit), joined with `_`. */
module Conversation {

  /** `a` sorts no later than `b` under JavaScript's default string order:
      lexicographic comparison of code units, a proper prefix first. */
  predicate CodeUnitLe(a: string, b: string)
    decreases |a|
  {
    if a == [] then true
    else if b == [] then false
    else if a[0] != b[0] then a[0] < b[0]
    else CodeUnitLe(a[1..], b[1..])
  }

  lemma {:induction false} CodeUnitLeTotal(a: string, b: string)
    ensures CodeUnitLe(a, b) || CodeUnitLe(b, a)
    decreases |a|
  {
    if a != [] && b != [] && a[0] == b[0] {
      CodeUnitLeTotal(a[1..], b[1..]);
    }
  }

  lemma {:induction false} CodeUnitLeAntisymmetric(a: string, b: string)
    requires CodeUnitLe(a, b) && CodeUnitLe(b, a)
    ensures a == b
    decreases |a|
  {
    if a != [] {
      CodeUnitLeAntisymmetric(a[1..], b[1..]);
      assert a == [a[0]] + a[1..] && b == [b[0]] + b[1..];
    }
  }

  const Separator: char := '_'

  /** `[userId1, userId2].sort().join('_')`. */
  function ConversationId(userId1: string, userId2: string): (id: string)
    ensures |id| == |userId1| + |userId2| + 1
  {
    if CodeUnitLe(userId1, userId2)
    then userId1 + [Separator] + userId2
    else userId2 + [Separator] + userId1
  }

  /** Both call orders name the same conversation. */
  lemma ConversationIdSymmetric(a: string, b: string)
    ensures ConversationId(a, b) == ConversationId(b, a)
  {
    if CodeUnitLe(a, b) && CodeUnitLe(b, a) {
      CodeUnitLeAntisymmetric(a, b);
    } else {
      CodeUnitLeTotal(a, b);
    }
  }

  /** The key is the smaller id, then `_`, then the larger id. */
  lemma ConversationIdShape(a: string, b: string)
    ensures var id := ConversationId(a, b);
      || (CodeUnitLe(a, b) && id == a + "_" + b)
      || (CodeUnitLe(b, a) && id == b + "_" + a)
  {
    CodeUnitLeTotal(a, b);
  }

  /** The key is never empty, so the `!conversationId` guard of
      `validateUserAccess` never fires. */
  lemma ConversationIdNonEmpty(a: string, b: string)
    ensures ConversationId(a, b) != []
  {
  }

  /** The separator is ambiguous: two different pairs share one key. */
  lemma ConversationIdCollides()
    ensures ConversationId("a_b", "c") == ConversationId("a", "b_c")
    ensures ["a_b", "c"] != ["a", "b_c"]
  {
    assert CodeUnitLe("a_b", "c");
    assert CodeUnitLe("a", "b_c");
  }

  /** The end-to-end example pair. */
  lemma AliceBobId()
    ensures ConversationId("alice", "bob") == "alice_bob"
    ensures ConversationId("bob", "alice") == "alice_bob"
  {
    assert CodeUnitLe("alice", "bob");
    ConversationIdSymmetric("alice", "bob");
  }
}
