/** What a request view keeps of the conversation, and when there is one. */
module ContextLaws {
  import opened Results
  import opened Messages
  import opened Context

  // ---------------------------------------------------------------- characters add up

  lemma {:induction false} CharsUpdate(h: Host, view: seq<Provider>, i: nat, p: Provider)
    requires i < |view|
    ensures CharsOf(h, view[i := p]) + h.size(view[i]) == CharsOf(h, view) + h.size(p)
    decreases |view|
  {
    var n := |view| - 1;
    if i < n {
      CharsUpdate(h, view[..n], i, p);
      assert view[i := p][..n] == view[..n][i := p];
    } else {
      assert view[i := p][..n] == view[..n];
    }
  }

  lemma {:induction false} CharsCons(h: Host, p: Provider, view: seq<Provider>)
    ensures CharsOf(h, [p] + view) == h.size(p) + CharsOf(h, view)
    decreases |view|
  {
    if view == [] {
      assert [p] + view == [p];
    } else {
      CharsCons(h, p, view[..|view| - 1]);
      assert ([p] + view)[..|view|] == [p] + view[..|view| - 1];
    }
  }

  lemma CountIsChars(h: Host, messages: seq<Message>, o: Overrides, prefix: string)
    ensures CharsOf(h, Rendered(h, messages, o, prefix)) == Count(h, messages, o, prefix)
  {
    CharsCons(h, SystemView(prefix), Body(h, messages, o));
  }

  lemma CountUpdate(h: Host, messages: seq<Message>, o: Overrides, prefix: string, i: nat, p: Provider)
    requires i < |messages|
    ensures Count(h, messages, o[i := p], prefix) + h.size(RenderAt(h, messages, o, i)) ==
      Count(h, messages, o, prefix) + h.size(p)
  {
    CharsUpdate(h, Body(h, messages, o), i, p);
    assert Body(h, messages, o[i := p]) == Body(h, messages, o)[i := p];
  }

  // ---------------------------------------------------------------- the order of phase 3

  ghost predicate Before(h: Host, messages: seq<Message>, i: nat, j: nat)
    requires i < |messages| && j < |messages|
  {
    Saving(h, messages[i]) > Saving(h, messages[j]) || (Saving(h, messages[i]) == Saving(h, messages[j]) && i < j)
  }

  ghost predicate BySaving(h: Host, messages: seq<Message>, r: seq<nat>) {
    && (forall k :: 0 <= k < |r| ==> r[k] < |messages|)
    && forall a, b :: 0 <= a < b < |r| ==> Before(h, messages, r[a], r[b])
  }

  lemma {:induction false} InsertOrders(h: Host, messages: seq<Message>, sorted: seq<nat>, i: nat)
    requires i < |messages| && BySaving(h, messages, sorted) && forall k :: 0 <= k < |sorted| ==> sorted[k] < i
    ensures BySaving(h, messages, InsertBySaving(h, messages, sorted, i))
    decreases |sorted|
  {
    if sorted != [] {
      var init, last := sorted[..|sorted| - 1], sorted[|sorted| - 1];
      InsertOrders(h, messages, init, i);
      var r := InsertBySaving(h, messages, init, i);
      assert forall k :: 0 <= k < |r| ==> r[k] in r;
      forall k | 0 <= k < |init| ensures Before(h, messages, init[k], last) { assert init[k] == sorted[k]; }
    }
  }

  lemma SortStep(h: Host, messages: seq<Message>, rest: seq<nat>, i: nat)
    requires i < |messages| && (forall k :: 0 <= k < |rest| ==> rest[k] < i)
    requires BySaving(h, messages, SortBySaving(h, messages, rest))
    ensures BySaving(h, messages, SortBySaving(h, messages, rest + [i]))
  {
    assert (rest + [i])[..|rest|] == rest;
    var sorted := SortBySaving(h, messages, rest);
    forall k | 0 <= k < |sorted| ensures sorted[k] < i { assert sorted[k] in rest; }
    InsertOrders(h, messages, sorted, i);
  }

  ghost predicate SortedBelow(h: Host, messages: seq<Message>, n: nat)
    requires n <= |messages|
  {
    BySaving(h, messages, SortBySaving(h, messages, CandidatesBelow(messages, n)))
  }

  lemma {:induction false} SortOrders(h: Host, messages: seq<Message>, n: nat)
    requires n <= |messages|
    ensures SortedBelow(h, messages, n)
  {
    if n > 0 {
      SortOrders(h, messages, n - 1);
      if IsCandidate(messages, n - 1) {
        SortStep(h, messages, CandidatesBelow(messages, n - 1), n - 1);
        assert CandidatesBelow(messages, n) == CandidatesBelow(messages, n - 1) + [n - 1];
      } else {
        assert CandidatesBelow(messages, n) == CandidatesBelow(messages, n - 1);
      }
    }
  }

  /** Old assistant messages are shortened in the order of what they save, the older first among equals. */
  lemma CandidatesAreBySaving(h: Host, messages: seq<Message>)
    ensures BySaving(h, messages, Candidates(h, messages))
  {
    SortOrders(h, messages, |messages|);
  }

  // ---------------------------------------------------------------- what phase 3 chooses

  /** The candidates in `r` that save anything, shortened. */
  function Shorts(h: Host, messages: seq<Message>, r: seq<nat>): Overrides {
    map i: nat | i in r && i < |messages| && messages[i].AssistantMessage? && Saving(h, messages[i]) > 0 ::
        Shortened(messages[i])
  }

  lemma ShortsSnoc(h: Host, messages: seq<Message>, r: seq<nat>, i: nat)
    requires i < |messages| && messages[i].AssistantMessage?
    ensures Shorts(h, messages, r + [i]) ==
      if Saving(h, messages[i]) > 0 then Shorts(h, messages, r)[i := Shortened(messages[i])] else Shorts(h, messages, r)
  {}

  lemma ShortsAdd(h: Host, messages: seq<Message>, o: Overrides, r: seq<nat>, i: nat)
    requires i < |messages| && messages[i].AssistantMessage? && Saving(h, messages[i]) > 0
    ensures o + Shorts(h, messages, r + [i]) == (o + Shorts(h, messages, r))[i := Shortened(messages[i])]
  {
    ShortsSnoc(h, messages, r, i);
  }

  lemma ShortAtSaves(h: Host, messages: seq<Message>, o: Overrides, r: seq<nat>, i: nat)
    requires i < |messages| && messages[i].AssistantMessage? && i !in o && Saving(h, messages[i]) > 0
    ensures h.size(RenderAt(h, messages, o + Shorts(h, messages, r), i)) >= h.size(Shortened(messages[i]))
  {
    assert i in Shorts(h, messages, r) ==> (o + Shorts(h, messages, r))[i] == Shortened(messages[i]);
  }

  /** One more candidate never makes the view longer. */
  lemma ShortsShrink(h: Host, messages: seq<Message>, o: Overrides, r: seq<nat>, i: nat, prefix: string)
    requires i < |messages| && messages[i].AssistantMessage? && i !in o
    ensures Count(h, messages, o + Shorts(h, messages, r + [i]), prefix) <=
      Count(h, messages, o + Shorts(h, messages, r), prefix)
  {
    if Saving(h, messages[i]) > 0 {
      ShortsAdd(h, messages, o, r, i);
      ShortAtSaves(h, messages, o, r, i);
      CountUpdate(h, messages, o + Shorts(h, messages, r), prefix, i, Shortened(messages[i]));
    } else {
      ShortsSnoc(h, messages, r, i);
    }
  }

  lemma {:induction false} FirstWithinIsFirst(cost: nat -> nat, budget: nat, n: nat, k: nat)
    requires k <= n
    ensures var r := FirstWithin(cost, budget, n, k);
      (r < n ==> cost(r) <= budget) && forall i: nat :: k <= i < r ==> cost(i) > budget
    decreases n - k
  {
    if k < n && cost(k) > budget { FirstWithinIsFirst(cost, budget, n, k + 1); }
  }

  lemma SomeWithin(cost: nat -> nat, budget: nat, n: nat)
    ensures cost(FirstWithin(cost, budget, n, 0)) <= budget <==> exists k: nat :: k <= n && cost(k) <= budget
  {
    FirstWithinIsFirst(cost, budget, n, 0);
  }

  /** All replaceable results compacted, and the first `j` candidates shortened where that saves anything. */
  function ShortenedUpTo(c: Config, messages: seq<Message>, j: nat): Overrides
    requires j <= |Candidates(c.host, messages)|
  {
    MarkersUpTo(c, messages, |Replaceable(messages)|) + Shorts(c.host, messages, Candidates(c.host, messages)[..j])
  }

  function ShortCost(c: Config, messages: seq<Message>, prefix: string): nat -> nat {
    (j: nat) =>
      if j <= |Candidates(c.host, messages)| then Count(c.host, messages, ShortenedUpTo(c, messages, j), prefix)
      else 0
  }

  /** Phase 3 stops at the first number of candidates that fits. */
  function FirstShort(c: Config, messages: seq<Message>, prefix: string): nat {
    FirstWithin(ShortCost(c, messages, prefix), c.charBudget, |Candidates(c.host, messages)|, 0)
  }

  /** One candidate of phase 3: shortened when it saves anything. */
  lemma ShortenedNext(c: Config, messages: seq<Message>, j: nat)
    requires j < |Candidates(c.host, messages)|
    ensures var i := Candidates(c.host, messages)[j];
      ShortenedUpTo(c, messages, j + 1) ==
        if Saving(c.host, messages[i]) > 0 then ShortenedUpTo(c, messages, j)[i := Shortened(messages[i])]
        else ShortenedUpTo(c, messages, j)
  {
    var cs := Candidates(c.host, messages);
    assert cs[..j + 1] == cs[..j] + [cs[j]];
    ShortsSnoc(c.host, messages, cs[..j], cs[j]);
    if Saving(c.host, messages[cs[j]]) > 0 {
      ShortsAdd(c.host, messages, MarkersUpTo(c, messages, |Replaceable(messages)|), cs[..j], cs[j]);
    }
  }

  lemma {:induction false} ShortenStopsAtFirst(c: Config, messages: seq<Message>, prefix: string, j: nat)
    requires j <= |Candidates(c.host, messages)|
    ensures var cs := Candidates(c.host, messages);
      ShortenWhileOver(c, messages, ShortenedUpTo(c, messages, j), cs[j..], prefix)
      == ShortenedUpTo(c, messages, FirstWithin(ShortCost(c, messages, prefix), c.charBudget, |cs|, j))
    decreases |Candidates(c.host, messages)| - j
  {
    var cs := Candidates(c.host, messages);
    if j < |cs| && ShortCost(c, messages, prefix)(j) > c.charBudget {
      assert cs[j..][1..] == cs[j + 1..];
      ShortenedNext(c, messages, j);
      ShortenStopsAtFirst(c, messages, prefix, j + 1);
    }
  }

  lemma Phase3Choice(c: Config, messages: seq<Message>, prefix: string)
    ensures ShortenWhileOver(c, messages, MarkersUpTo(c, messages, |Replaceable(messages)|),
                             Candidates(c.host, messages), prefix)
      == ShortenedUpTo(c, messages, FirstShort(c, messages, prefix))
  {
    ShortenStopsAtFirst(c, messages, prefix, 0);
    assert Candidates(c.host, messages)[0..] == Candidates(c.host, messages);
    assert ShortenedUpTo(c, messages, 0) == MarkersUpTo(c, messages, |Replaceable(messages)|);
  }

  // ---------------------------------------------------------------- no further than needed

  /**
   The oldest `k` replaceable results are compacted, `k` as small as possible; the memory block goes only when
   all of them were not enough and the view without it fits; assistants are shortened, in order of their
   savings and as few as possible, only when neither was enough.
   */
  lemma NoFurtherThanNeeded(c: Config, messages: seq<Message>, prefix: string)
    ensures var choice := Chosen(c, messages, prefix); var k := FirstFit(c, messages, prefix);
      && (forall i: nat :: i < k ==> MarkedCost(c, messages, prefix)(i) > c.charBudget)
      && (if MarkedCost(c, messages, prefix)(k) <= c.charBudget then
            choice == Choice(MarkersUpTo(c, messages, k), prefix)
          else if prefix != "" && MarkedCost(c, messages, "")(k) <= c.charBudget then
            k == |Replaceable(messages)| && choice == Choice(MarkersUpTo(c, messages, k), "")
          else
            var n := FirstShort(c, messages, prefix);
            && k == |Replaceable(messages)| && choice == Choice(ShortenedUpTo(c, messages, n), prefix)
            && forall i: nat :: i < n ==> ShortCost(c, messages, prefix)(i) > c.charBudget)
  {
    FirstWithinIsFirst(MarkedCost(c, messages, prefix), c.charBudget, |Replaceable(messages)|, 0);
    FirstWithinIsFirst(ShortCost(c, messages, prefix), c.charBudget, |Candidates(c.host, messages)|, 0);
    Phase3Choice(c, messages, prefix);
  }

  // ---------------------------------------------------------------- when there is a view

  /** Some number of compacted results fits, or the memory block can go, or the smallest view fits. */
  ghost predicate CanFit(c: Config, messages: seq<Message>, prefix: string) {
    || (exists k: nat :: k <= |Replaceable(messages)| && MarkedCost(c, messages, prefix)(k) <= c.charBudget)
    || (prefix != "" && MarkedCost(c, messages, "")(|Replaceable(messages)|) <= c.charBudget)
    || ShortCost(c, messages, prefix)(|Candidates(c.host, messages)|) <= c.charBudget
  }

  predicate OverChars(r: Result<RequestView, Overflow>) {
    r.Err? && r.error.metric.InputChars?
  }

  lemma NextShortFits(c: Config, messages: seq<Message>, prefix: string, j: nat)
    requires j < |Candidates(c.host, messages)|
    ensures ShortCost(c, messages, prefix)(j + 1) <= ShortCost(c, messages, prefix)(j)
  {
    var cs := Candidates(c.host, messages);
    assert cs[..j + 1] == cs[..j] + [cs[j]];
    ShortsShrink(c.host, messages, MarkersUpTo(c, messages, |Replaceable(messages)|), cs[..j], cs[j], prefix);
  }

  lemma {:induction false} AllShortsFitBest(c: Config, messages: seq<Message>, prefix: string, j: nat)
    requires j <= |Candidates(c.host, messages)|
    ensures ShortCost(c, messages, prefix)(|Candidates(c.host, messages)|) <= ShortCost(c, messages, prefix)(j)
    decreases |Candidates(c.host, messages)| - j
  {
    if j < |Candidates(c.host, messages)| {
      NextShortFits(c, messages, prefix, j);
      AllShortsFitBest(c, messages, prefix, j + 1);
    }
  }

  lemma OverIsCount(c: Config, messages: seq<Message>, memory: Option<string>)
    ensures var choice := Chosen(c, messages, memory.GetOr(""));
      OverChars(Build(c, messages, memory)) <==> Count(c.host, messages, choice.overrides, choice.prefix) > c.charBudget
  {
    var choice := Chosen(c, messages, memory.GetOr(""));
    CountIsChars(c.host, messages, choice.overrides, choice.prefix);
  }

  /** The request overflows its character budget exactly when none of the three reductions can fit. */
  lemma OverflowIff(c: Config, messages: seq<Message>, memory: Option<string>)
    ensures OverChars(Build(c, messages, memory)) <==> !CanFit(c, messages, memory.GetOr(""))
  {
    var prefix := memory.GetOr("");
    OverIsCount(c, messages, memory);
    NoFurtherThanNeeded(c, messages, prefix);
    SomeWithin(MarkedCost(c, messages, prefix), c.charBudget, |Replaceable(messages)|);
    SomeWithin(ShortCost(c, messages, prefix), c.charBudget, |Candidates(c.host, messages)|);
    AllShortsFitBest(c, messages, prefix, FirstShort(c, messages, prefix));
  }

  /**
   An overflow does not mean that the memory block had to stay: shortening assistants is only tried with it.
   One old assistant message shows it, with the program's measure and whatever the other open parts are.
   */
  lemma MemoryCouldHaveGone(h: Host)
    requires h.size == Chars
    ensures exists c: Config, messages ::
      && c.host == h && OverChars(Build(c, messages, Some("m")))
      && ShortCost(c, messages, "")(|Candidates(c.host, messages)|) <= c.charBudget
  {
    var m := AssistantMessage(seq(5000, _ => 'a'), [], None, []);
    var c := Config(h, |"assistant"| + MAX_ASSISTANT_TEXT_CHARS + |TEXT_CUT|, 0, None);
    OneMessage(c, m, "m");
    OneMessage(c, m, "");
    OverflowIff(c, [m], Some("m"));
    assert OverChars(Build(c, [m], Some("m"))) && ShortCost(c, [m], "")(|Candidates(h, [m])|) <= c.charBudget;
  }

  lemma OneMessage(c: Config, m: Message, prefix: string)
    requires c.host.size == Chars && m == AssistantMessage(seq(5000, _ => 'a'), [], None, [])
    ensures var memory := if prefix == "" then 0 else |"system"| + |prefix|;
      && |Replaceable([m])| == 0 && MarkedCost(c, [m], prefix)(0) == memory + |"assistant"| + 5000
      && |Candidates(c.host, [m])| == 1
      && ShortCost(c, [m], prefix)(1) == memory + |"assistant"| + MAX_ASSISTANT_TEXT_CHARS + |TEXT_CUT|
  {
    OneMessageChoices(c.host, m);
    assert Candidates(c.host, [m])[..1] == [0];
    OneMessageChars(c, m, MarkersUpTo(c, [m], 0), prefix);
    OneMessageChars(c, m, ShortenedUpTo(c, [m], 1), prefix);
  }

  lemma OneMessageChoices(h: Host, m: Message)
    requires m.AssistantMessage? && m.toolCalls == []
    ensures Replaceable([m]) == [] && Candidates(h, [m]) == [0]
  {
    assert Openers([m]) == [] && IsCandidate([m], 0);
    assert ReplaceableBelow([m], 0) == [] && !IsReplaceable([m], 0);
    assert CandidatesBelow([m], 1) == [0];
  }

  lemma OneMessageChars(c: Config, m: Message, o: Overrides, prefix: string)
    requires c.host.size == Chars
    ensures Count(c.host, [m], o, prefix) ==
      (if prefix == "" then 0 else |"system"| + |prefix|) + Chars(RenderAt(c.host, [m], o, 0))
  {
    var body := Body(c.host, [m], o);
    assert body == [RenderAt(c.host, [m], o, 0)] && CharsOf(c.host, body[..0]) == 0;
    assert c.host.size(body[0]) == Chars(body[0]) && c.host.size(SystemView(prefix)) == Chars(SystemView(prefix));
  }
}
