/** `MessageRestController` of the Java back end: a log of `ChatMessage`s
    that `sendMessage` validates and appends to, and that `getMessages`
    returns as a copy sorted by timestamp with the stable `Collections.sort`.
    `LocalDateTime` values are modelled as integer instants, which keeps
    their order; `LocalDateTime.now()` is the parameter `now`. */
module RestController {
  import opened Wrappers
  import opened Text

  /** `ChatMessage`: every field may be `null` in a request body. */
  datatype ChatMessage = ChatMessage(sender: Option<string>, content: Option<string>, timestamp: Option<int>)

  datatype HttpStatus = Ok | Created | BadRequest

  /** A `ResponseEntity`: status and (possibly absent) body. */
  datatype Response<T> = Response(status: HttpStatus, body: Option<T>)

  /** `s == null || s.trim().isEmpty()`. */
  predicate MissingOrBlank(s: Option<string>)
    ensures MissingOrBlank(s) <==> s.None? || Blank(s.value, IsJavaSpace)
  {
    if s.None? then true
    else TrimEmptyIffBlank(s.value, IsJavaSpace); Trim(s.value, IsJavaSpace) == []
  }

  /** The guard of `sendMessage`: a request is refused exactly when its
      sender or its content is absent or made only of code units up to
      U+0020. */
  function IsBadRequest(m: ChatMessage): (bad: bool)
    ensures bad <==>
      || m.sender.None? || Blank(m.sender.value, IsJavaSpace)
      || m.content.None? || Blank(m.content.value, IsJavaSpace)
  {
    MissingOrBlank(m.sender) || MissingOrBlank(m.content)
  }

  /** The sort key of `Comparator.comparing(ChatMessage::getTimestamp)`.
      Every message in the log has a timestamp, so the default is never used. */
  function Key(m: ChatMessage): int {
    m.timestamp.GetOr(0)
  }

  predicate SortedByTime(s: seq<ChatMessage>) {
    forall i, j :: 0 <= i < j < |s| ==> Key(s[i]) <= Key(s[j])
  }

  /** The messages of `s` stamped `t`, in their order in `s`. */
  function WithTime(s: seq<ChatMessage>, t: int): seq<ChatMessage>
    decreases |s|
  {
    if s == [] then []
    else (if Key(s[0]) == t then [s[0]] else []) + WithTime(s[1..], t)
  }

  /** Stability: for every instant, the messages stamped with it appear in
      the same order in `a` as in `b`. */
  ghost predicate SameOrderPerTime(a: seq<ChatMessage>, b: seq<ChatMessage>) {
    forall t :: WithTime(a, t) == WithTime(b, t)
  }

  lemma {:induction false} WithTimeConcat(a: seq<ChatMessage>, b: seq<ChatMessage>, t: int)
    ensures WithTime(a + b, t) == WithTime(a, t) + WithTime(b, t)
    decreases |a|
  {
    if a == [] {
      assert a + b == b;
    } else {
      var ab := a + b;
      assert ab != [] && ab[0] == a[0] && ab[1..] == a[1..] + b;
      var h := if Key(a[0]) == t then [a[0]] else [];
      assert WithTime(ab, t) == h + WithTime(a[1..] + b, t);
      WithTimeConcat(a[1..], b, t);
      assert h + (WithTime(a[1..], t) + WithTime(b, t)) == (h + WithTime(a[1..], t)) + WithTime(b, t);
    }
  }

  /** Swapping two neighbours with different timestamps keeps every
      per-instant order. */
  lemma SwapNeighboursKeepsOrder(s: seq<ChatMessage>, j: nat)
    requires 0 < j < |s| && Key(s[j - 1]) != Key(s[j])
    ensures SameOrderPerTime(s[j - 1 := s[j]][j := s[j - 1]], s)
  {
    var swapped := s[j - 1 := s[j]][j := s[j - 1]];
    var front, back := s[..j - 1], s[j + 1..];
    assert s == front + [s[j - 1], s[j]] + back;
    assert swapped == front + [s[j], s[j - 1]] + back;
    forall t ensures WithTime(swapped, t) == WithTime(s, t) {
      WithTimeConcat(front + [s[j - 1], s[j]], back, t);
      WithTimeConcat(front, [s[j - 1], s[j]], t);
      WithTimeConcat(front + [s[j], s[j - 1]], back, t);
      WithTimeConcat(front, [s[j], s[j - 1]], t);
      assert [s[j - 1], s[j]][1..] == [s[j]];
      assert [s[j], s[j - 1]][1..] == [s[j - 1]];
    }
  }

  /** A message stamped `t` occurs wherever `WithTime` finds one. */
  lemma {:induction false} TimeOccurs(s: seq<ChatMessage>, t: int) returns (i: nat)
    requires WithTime(s, t) != []
    ensures i < |s| && Key(s[i]) == t
    decreases |s|
  {
    if Key(s[0]) == t {
      i := 0;
    } else {
      var k := TimeOccurs(s[1..], t);
      i := k + 1;
    }
  }

  /** Two sorted sequences with the same per-instant orders start alike. */
  lemma SortedHeadsAgree(a: seq<ChatMessage>, b: seq<ChatMessage>)
    requires a != [] && b != [] && SortedByTime(a) && SortedByTime(b) && SameOrderPerTime(a, b)
    ensures a[0] == b[0]
  {
    var ka, kb := Key(a[0]), Key(b[0]);
    assert WithTime(a, ka) == [a[0]] + WithTime(a[1..], ka);
    assert WithTime(b, kb) == [b[0]] + WithTime(b[1..], kb);
    var i := TimeOccurs(b, ka);
    var j := TimeOccurs(a, kb);
    assert kb <= Key(b[i]) && ka <= Key(a[j]);
    assert WithTime(a, ka)[0] == a[0] && WithTime(b, ka)[0] == b[0];
  }

  /** Dropping a common first message keeps the per-instant orders equal. */
  lemma SameHeadSameTails(a: seq<ChatMessage>, b: seq<ChatMessage>)
    requires a != [] && b != [] && a[0] == b[0] && SameOrderPerTime(a, b)
    ensures SameOrderPerTime(a[1..], b[1..])
  {
    forall t ensures WithTime(a[1..], t) == WithTime(b[1..], t) {
      var h := if Key(a[0]) == t then [a[0]] else [];
      assert WithTime(a, t) == h + WithTime(a[1..], t);
      assert WithTime(b, t) == h + WithTime(b[1..], t);
      assert (h + WithTime(a[1..], t))[|h|..] == WithTime(a[1..], t);
      assert (h + WithTime(b[1..], t))[|h|..] == WithTime(b[1..], t);
    }
  }

  /** Sortedness and stability pin the result down: two sorted sequences
      with the same per-instant orders are equal. So the specification of
      `getMessages` below admits exactly one answer. */
  lemma {:induction false} StableSortUnique(a: seq<ChatMessage>, b: seq<ChatMessage>)
    requires SortedByTime(a) && SortedByTime(b) && SameOrderPerTime(a, b)
    ensures a == b
    decreases |a|
  {
    if a != [] && b != [] {
      SortedHeadsAgree(a, b);
      SameHeadSameTails(a, b);
      StableSortUnique(a[1..], b[1..]);
      assert a == [a[0]] + a[1..] && b == [b[0]] + b[1..];
    } else {
      HeadHasTime(a);
      HeadHasTime(b);
    }
  }

  lemma HeadHasTime(a: seq<ChatMessage>)
    ensures a != [] ==> WithTime(a, Key(a[0])) != []
  {
  }

  /** `Collections.sort(list, Comparator.comparing(ChatMessage::getTimestamp))`
      on the array behind the copy: an insertion sort by swaps of
      neighbours, which, like the library's merge sort, is stable. */
  method SortByTimestamp(a: array<ChatMessage>)
    modifies a
    ensures SortedByTime(a[..])
    ensures multiset(a[..]) == multiset(old(a[..]))
    ensures SameOrderPerTime(a[..], old(a[..]))
  {
    for i := 0 to a.Length
      invariant forall p, q :: 0 <= p < q < i ==> Key(a[p]) <= Key(a[q])
      invariant multiset(a[..]) == multiset(old(a[..]))
      invariant SameOrderPerTime(a[..], old(a[..]))
    {
      InsertLast(a, i);
    }
  }

  /** One pass of the insertion sort: `a[i]` moves left past every
      message stamped later, leaving `a[..i + 1]` sorted. */
  method InsertLast(a: array<ChatMessage>, i: nat)
    requires i < a.Length
    requires forall p, q :: 0 <= p < q < i ==> Key(a[p]) <= Key(a[q])
    modifies a
    ensures forall p, q :: 0 <= p < q <= i ==> Key(a[p]) <= Key(a[q])
    ensures multiset(a[..]) == multiset(old(a[..]))
    ensures SameOrderPerTime(a[..], old(a[..]))
  {
    var j := i;
    while j > 0 && Key(a[j - 1]) > Key(a[j])
      invariant 0 <= j <= i
      invariant forall p, q :: 0 <= p < q <= i && p != j && q != j ==> Key(a[p]) <= Key(a[q])
      invariant forall q :: j < q <= i ==> Key(a[j]) < Key(a[q])
      invariant multiset(a[..]) == multiset(old(a[..]))
      invariant SameOrderPerTime(a[..], old(a[..]))
    {
      SwapNeighbours(a, j);
      j := j - 1;
    }
  }

  /** Swaps `a[j - 1]` and `a[j]`, which carry different timestamps. */
  method SwapNeighbours(a: array<ChatMessage>, j: nat)
    requires 0 < j < a.Length && Key(a[j - 1]) != Key(a[j])
    modifies a
    ensures a[j - 1] == old(a[j]) && a[j] == old(a[j - 1])
    ensures forall k :: 0 <= k < a.Length && k != j - 1 && k != j ==> a[k] == old(a[k])
    ensures multiset(a[..]) == multiset(old(a[..]))
    ensures SameOrderPerTime(a[..], old(a[..]))
  {
    ghost var before := a[..];
    SwapNeighboursKeepsOrder(before, j);
    a[j - 1], a[j] := a[j], a[j - 1];
    assert a[..] == before[j - 1 := before[j]][j := before[j - 1]];
  }

  class MessageRestController {
    /** The `messages` list. */
    var messages: seq<ChatMessage>

    /** Every logged message was stamped by `sendMessage`. */
    ghost predicate Valid()
      reads this
    {
      forall i :: 0 <= i < |messages| ==> messages[i].timestamp.Some?
    }

    constructor ()
      ensures Valid() && messages == []
    {
      messages := [];
    }

    /** `POST /api/messages`. */
    method SendMessage(chatMessage: ChatMessage, now: int) returns (response: Response<ChatMessage>)
      requires Valid()
      modifies this
      ensures Valid()
      ensures IsBadRequest(chatMessage) ==>
        response == Response(BadRequest, None) && messages == old(messages)
      ensures !IsBadRequest(chatMessage) ==>
        && response == Response(Created, Some(chatMessage.(timestamp := Some(now))))
        && messages == old(messages) + [response.body.value]
    {
      if MissingOrBlank(chatMessage.sender) || MissingOrBlank(chatMessage.content) {
        response := Response(BadRequest, None);
        return;
      }
      var stamped := chatMessage.(timestamp := Some(now));
      messages := messages + [stamped];
      response := Response(Created, Some(stamped));
    }

    /** `GET /api/messages`: a sorted copy; the log itself is not touched. */
    method GetMessages() returns (response: Response<seq<ChatMessage>>)
      requires Valid()
      ensures response.status == Ok && response.body.Some?
      ensures multiset(response.body.value) == multiset(messages)
      ensures SortedByTime(response.body.value)
      ensures SameOrderPerTime(response.body.value, messages)
    {
      var snapshot := messages;
      var sortedMessages := new ChatMessage[|snapshot|](i requires 0 <= i < |snapshot| => snapshot[i]);
      assert sortedMessages[..] == snapshot;
      SortByTimestamp(sortedMessages);
      response := Response(Ok, Some(sortedMessages[..]));
    }
  }
}
