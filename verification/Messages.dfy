/** The canonical messages of a conversation and the call/result protocol they must follow. */
module Messages {
  import opened Results

  datatype ToolCall = ToolCall(id: string, name: string, argumentsRaw: string)

  datatype ProviderContinuation = ProviderContinuation(wireApi: string, itemId: string, encryptedContent: string,
                                                       summary: seq<string>)

  datatype AttachmentRef = AttachmentRef(id: string, filename: string, mediaType: string, kind: string, sizeBytes: int,
                                         sha256: string)

  datatype Message =
    | SystemMessage(content: string)
    | UserMessage(content: string, source: string, attachments: seq<AttachmentRef>)
    | AssistantMessage(text: string, toolCalls: seq<ToolCall>, reasoning: Option<string>,
                       continuations: seq<ProviderContinuation>)
    | ToolMessage(toolCallId: string, content: string, toolName: string, ok: bool, resourceKey: string,
                  isReadSuccess: bool, filePath: Option<string>)

  function Ids(calls: seq<ToolCall>): seq<string> {
    seq(|calls|, i requires 0 <= i < |calls| => calls[i].id)
  }

  /** The calls a message opens. */
  function Opens(m: Message): seq<string> {
    if m.AssistantMessage? then Ids(m.toolCalls) else []
  }

  /** A result has to answer the first call still open, and only a result may follow an open call. */
  function Next(owed: Option<seq<string>>, m: Message): Option<seq<string>> {
    if owed.None? then None
    else if m.ToolMessage? then
      if owed.value != [] && owed.value[0] == m.toolCallId then Some(owed.value[1..]) else None
    else if owed.value == [] then Some(Opens(m))
    else None
  }

  /** The results still owed after a history, in order; nothing when the protocol was broken. */
  function Awaited(h: seq<Message>): Option<seq<string>> {
    if h == [] then Some([]) else Next(Awaited(h[..|h| - 1]), h[|h| - 1])
  }

  lemma AwaitedSnoc(h: seq<Message>, m: Message)
    ensures Awaited(h + [m]) == Next(Awaited(h), m)
  {
    assert (h + [m])[..|h|] == h;
  }

  /** Nothing is owed: every group of calls has all its results. */
  predicate Paired(h: seq<Message>) {
    Awaited(h) == Some([])
  }

  // ---------------------------------------------------------------- what pairing means

  /** Message `j` is the result of the matching call of message `i`. */
  ghost predicate Answers(h: seq<Message>, i: nat, j: nat)
    requires i < |h| && i < j <= i + |Opens(h[i])|
  {
    j < |h| && h[j].ToolMessage? && h[j].toolCallId == Opens(h[i])[j - i - 1]
  }

  /** The calls of message `i` are answered by the messages right behind it, in order. */
  ghost predicate AnsweredAt(h: seq<Message>, i: nat)
    requires i < |h|
  {
    forall j {:trigger Answers(h, i, j)} :: i < j <= i + |Opens(h[i])| ==> Answers(h, i, j)
  }

  /** The result at `j` belongs to the group that message `i` opens. */
  predicate Covers(h: seq<Message>, i: nat, j: nat)
    requires i < |h|
  {
    i < j <= i + |Opens(h[i])|
  }

  ghost predicate Owed(h: seq<Message>, j: nat) {
    exists i {:trigger Covers(h, i, j)} :: 0 <= i < j && i < |h| && Covers(h, i, j)
  }

  /** Every call has exactly its result, right behind the message, in order; every result has its call. */
  ghost predicate WellGrouped(h: seq<Message>) {
    && (forall i {:trigger AnsweredAt(h, i)} :: 0 <= i < |h| ==> AnsweredAt(h, i))
    && (forall j {:trigger Owed(h, j)} :: 0 <= j < |h| && h[j].ToolMessage? ==> Owed(h, j))
  }

  /** After `n` messages the group of message `i` still misses its last answers, `ids`. */
  ghost predicate OpenGroup(h: seq<Message>, n: nat, ids: seq<string>, i: nat) {
    i < n <= |h| && |ids| <= |Opens(h[i])| && i + 1 + |Opens(h[i])| == n + |ids| && ids == Opens(h[i])[n - 1 - i..]
  }

  /** The state of the automaton after `n` messages, described without it. */
  ghost predicate OwesAfter(h: seq<Message>, n: nat, ids: seq<string>)
    requires n <= |h|
  {
    if ids == [] then forall i {:trigger Covers(h, i, n)} :: 0 <= i < n ==> !Covers(h, i, n)
    else exists i :: OpenGroup(h, n, ids, i)
  }

  /** Groups do not overlap: only one can reach over the end of `n` messages. */
  lemma OneOpenGroup(h: seq<Message>, n: nat, i: nat)
    requires n <= |h| && 0 <= i < n - 1 && Covers(h, i, n - 1)
    requires forall a, b {:trigger Covers(h, a, b)} :: 0 <= a < b < n && Covers(h, a, b) ==> h[b].ToolMessage?
    ensures forall x {:trigger Covers(h, x, n)} :: 0 <= x < n && x != i ==> !Covers(h, x, n)
  {
    forall x | 0 <= x < n && x != i ensures !Covers(h, x, n) {
      assert x < i && Covers(h, x, n) ==> Covers(h, x, i);
      assert i < x && Covers(h, x, n) ==> Covers(h, i, x);
    }
  }

  lemma NoOpenGroup(h: seq<Message>, n: nat)
    requires 0 < n <= |h| && Opens(h[n - 1]) == []
    requires forall x {:trigger Covers(h, x, n - 1)} :: 0 <= x < n - 1 ==> !Covers(h, x, n - 1)
    ensures forall x {:trigger Covers(h, x, n)} :: 0 <= x < n ==> !Covers(h, x, n)
  {
    forall x | 0 <= x < n ensures !Covers(h, x, n) {
      if x < n - 1 { assert !Covers(h, x, n - 1); }
    }
  }

  lemma GroupsHoldResults(h: seq<Message>)
    requires WellGrouped(h)
    ensures forall a, b {:trigger Covers(h, a, b)} :: 0 <= a < b && a < |h| && Covers(h, a, b) ==>
      b < |h| && h[b].ToolMessage?
  {
    forall a, b | 0 <= a < b && a < |h| && Covers(h, a, b) ensures b < |h| && h[b].ToolMessage? {
      assert AnsweredAt(h, a) && Answers(h, a, b);
    }
  }

  lemma {:induction false} GroupedIsAwaited(h: seq<Message>, n: nat)
    requires WellGrouped(h) && n <= |h|
    ensures Awaited(h[..n]).Some? && OwesAfter(h, n, Awaited(h[..n]).value)
    decreases n
  {
    if n > 0 {
      GroupedIsAwaited(h, n - 1);
      assert h[..n] == h[..n - 1] + [h[n - 1]];
      AwaitedSnoc(h[..n - 1], h[n - 1]);
      GroupedStep(h, n, Awaited(h[..n - 1]).value);
    }
  }

  lemma GroupedStep(h: seq<Message>, n: nat, ids: seq<string>)
    requires WellGrouped(h) && 0 < n <= |h| && OwesAfter(h, n - 1, ids)
    ensures var next := Next(Some(ids), h[n - 1]); next.Some? && OwesAfter(h, n, next.value)
  {
    var m := h[n - 1];
    if ids != [] {
      var i: nat :| OpenGroup(h, n - 1, ids, i);
      assert AnsweredAt(h, i) && Answers(h, i, n - 1);
      GroupsHoldResults(h);
      OneOpenGroup(h, n, i);
      if ids[1..] != [] { assert OpenGroup(h, n, ids[1..], i); }
    } else {
      assert m.ToolMessage? ==> Owed(h, n - 1);
      if Opens(m) != [] {
        assert OpenGroup(h, n, Opens(m), n - 1);
      } else {
        NoOpenGroup(h, n);
      }
    }
  }

  /** The history respects the protocol as far as it goes, and owes `ids`. */
  ghost predicate GroupedSoFar(h: seq<Message>, ids: seq<string>) {
    && (forall i, j {:trigger Covers(h, i, j)} :: 0 <= i < j < |h| && Covers(h, i, j) ==> Answers(h, i, j))
    && (forall j {:trigger Owed(h, j)} :: 0 <= j < |h| && h[j].ToolMessage? ==> Owed(h, j))
    && OwesAfter(h, |h|, ids)
  }

  lemma CoversInit(h: seq<Message>, m: Message)
    ensures forall i, j :: 0 <= i < |h| ==> (Covers(h + [m], i, j) <==> Covers(h, i, j))
    ensures forall i, j :: 0 <= i < j < |h| && Covers(h, i, j) ==> (Answers(h + [m], i, j) <==> Answers(h, i, j))
    ensures forall j :: 0 <= j <= |h| ==> (Owed(h + [m], j) <==> Owed(h, j))
    ensures forall n: nat, ids, i: nat :: n <= |h| ==> (OpenGroup(h + [m], n, ids, i) <==> OpenGroup(h, n, ids, i))
  {
    forall j | 0 <= j <= |h| ensures Owed(h + [m], j) <==> Owed(h, j) {
      if i :| 0 <= i < j && i < |h| && Covers(h, i, j) { assert Covers(h + [m], i, j); }
      if i :| 0 <= i < j && i < |h + [m]| && Covers(h + [m], i, j) { assert Covers(h, i, j); }
    }
  }

  lemma GroupedSnoc(h: seq<Message>, ids: seq<string>, m: Message)
    requires GroupedSoFar(h, ids) && Next(Some(ids), m).Some?
    ensures GroupedSoFar(h + [m], Next(Some(ids), m).value)
  {
    var n, hm, next := |h|, h + [m], Next(Some(ids), m).value;
    CoversInit(h, m);
    if ids != [] {
      var i: nat :| OpenGroup(h, n, ids, i);
      ResultSnoc(h, ids, m, i);
    } else if next != [] {
      assert OpenGroup(hm, n + 1, next, n);
    } else {
      NoOpenGroup(hm, n + 1);
    }
  }

  lemma ResultSnoc(h: seq<Message>, ids: seq<string>, m: Message, i: nat)
    requires GroupedSoFar(h, ids) && ids != [] && Next(Some(ids), m).Some?
    requires OpenGroup(h, |h|, ids, i)
    ensures GroupedSoFar(h + [m], ids[1..])
  {
    var n, hm := |h|, h + [m];
    CoversInit(h, m);
    ResultAnswers(h, ids, m, i);
    assert Covers(hm, i, n) && Owed(hm, n);
    forall x, j | 0 <= x < j < n + 1 && Covers(hm, x, j) ensures Answers(hm, x, j) {
      if j == n { OnlyOpenGroup(h, i, x); } else { assert Answers(h, x, j); }
    }
    ResultOwes(h, ids, m, i);
  }

  lemma ResultAnswers(h: seq<Message>, ids: seq<string>, m: Message, i: nat)
    requires ids != [] && Next(Some(ids), m).Some? && OpenGroup(h, |h|, ids, i)
    ensures Covers(h, i, |h|) && Answers(h + [m], i, |h|)
  {
    assert Opens(h[i])[|h| - 1 - i] == ids[0];
  }

  lemma ResultOwes(h: seq<Message>, ids: seq<string>, m: Message, i: nat)
    requires ids != [] && OpenGroup(h, |h|, ids, i)
    requires forall a, b {:trigger Covers(h + [m], a, b)} :: 0 <= a < b < |h| + 1 && Covers(h + [m], a, b) ==>
      (h + [m])[b].ToolMessage?
    ensures OwesAfter(h + [m], |h| + 1, ids[1..])
  {
    var n, hm := |h|, h + [m];
    assert hm[i] == h[i] && Covers(hm, i, n);
    OneOpenGroup(hm, n + 1, i);
    if ids[1..] != [] { assert OpenGroup(hm, n + 1, ids[1..], i); }
  }

  lemma OnlyOpenGroup(h: seq<Message>, i: nat, x: nat)
    requires forall a, b {:trigger Covers(h, a, b)} :: 0 <= a < b < |h| && Covers(h, a, b) ==> Answers(h, a, b)
    requires i < |h| && x < |h| && Covers(h, i, |h|) && Covers(h, x, |h|)
    ensures i == x
  {
    assert x < i ==> Covers(h, x, i);
    assert i < x ==> Covers(h, i, x);
  }

  lemma {:induction false} AwaitedIsGrouped(h: seq<Message>)
    requires Awaited(h).Some?
    ensures GroupedSoFar(h, Awaited(h).value)
  {
    if h != [] {
      var init, m := h[..|h| - 1], h[|h| - 1];
      assert h == init + [m];
      AwaitedIsGrouped(init);
      GroupedSnoc(init, Awaited(init).value, m);
    }
  }

  /** The automaton accepts exactly the well grouped histories. */
  lemma PairedIff(h: seq<Message>)
    ensures Paired(h) <==> WellGrouped(h)
  {
    if Paired(h) {
      AwaitedIsGrouped(h);
      forall i | 0 <= i < |h| ensures AnsweredAt(h, i) {
        assert !Covers(h, i, |h|);
        forall j | i < j <= i + |Opens(h[i])| ensures Answers(h, i, j) { assert Covers(h, i, j); }
      }
    }
    if WellGrouped(h) {
      GroupedIsAwaited(h, |h|);
      assert h[..|h|] == h;
      forall i | 0 <= i < |h| ensures !Covers(h, i, |h|) {
        assert AnsweredAt(h, i);
        assert Covers(h, i, |h|) ==> Answers(h, i, |h|);
      }
      assert forall ids, i: nat :: ids != [] && OpenGroup(h, |h|, ids, i) ==> Covers(h, i, |h|);
    }
  }
}
