/** The context manager: its loops compute exactly the view that is specified. */
module Manager {
  import opened Results
  import opened Messages
  import opened Context
  import opened ContextLaws
  import opened ContextViews

  datatype Step = Step(assistant: nat, tools: seq<nat>)

  // ---------------------------------------------------------------- logical steps

  lemma {:induction false} OpenersInOrder(h: seq<Message>)
    ensures forall k :: 0 <= k < |Openers(h)| ==> Openers(h)[k] < |h| && IsOpener(h[Openers(h)[k]])
    ensures forall a, b :: 0 <= a < b < |Openers(h)| ==> Openers(h)[a] < Openers(h)[b]
  {
    if h != [] { OpenersInOrder(h[..|h| - 1]); }
  }

  lemma FollowsSnoc(h: seq<Message>, m: Message, a: nat, i: nat)
    requires a < |h|
    ensures Follows(h + [m], a, i) <==>
      Follows(h, a, i) || (i == |h| && m.ToolMessage? && (a == |h| - 1 || Follows(h, a, |h| - 1)))
  {
    if Follows(h, a, i) {
      forall j | a < j <= i ensures (h + [m])[j].ToolMessage? { assert (h + [m])[j] == h[j]; }
    }
    if Follows(h + [m], a, i) {
      assert (h + [m])[|h|] == m;
      forall j | a < j <= i && j < |h| ensures h[j].ToolMessage? { assert (h + [m])[j] == h[j]; }
    }
  }

  /** The steps as the code collects them: one for each opener, with the results that follow it. */
  ghost predicate StepAt(h: seq<Message>, steps: seq<Step>, k: nat)
    requires k < |steps| && k < |Openers(h)|
  {
    steps[k].assistant == Openers(h)[k] && forall i: nat :: i in steps[k].tools <==> Follows(h, Openers(h)[k], i)
  }

  ghost predicate StepsOf(h: seq<Message>, steps: seq<Step>) {
    |steps| == |Openers(h)| && forall k: nat :: k < |steps| ==> StepAt(h, steps, k)
  }

  /** The last step still takes results. */
  ghost predicate StepOpen(h: seq<Message>) {
    Openers(h) != [] && (var a := Openers(h)[|Openers(h)| - 1]; a == |h| - 1 || Follows(h, a, |h| - 1))
  }

  /** Only the last step can be open: the next opener ends every earlier one. */
  lemma EarlierStepsAreClosed(h: seq<Message>, k: nat)
    requires k + 1 < |Openers(h)|
    ensures Openers(h)[k] != |h| - 1 && !Follows(h, Openers(h)[k], |h| - 1)
  {
    OpenersInOrder(h);
    assert IsOpener(h[Openers(h)[k + 1]]);
  }

  lemma StepKeeps(h: seq<Message>, m: Message, steps: seq<Step>, k: nat)
    requires StepsOf(h, steps) && k < |steps| && !(m.ToolMessage? && StepOpen(h) && k == |steps| - 1)
    ensures forall i: nat :: i in steps[k].tools <==> Follows(h + [m], Openers(h)[k], i)
  {
    OpenersInOrder(h);
    assert StepAt(h, steps, k);
    if k + 1 < |steps| { EarlierStepsAreClosed(h, k); }
    forall i: nat ensures i in steps[k].tools <==> Follows(h + [m], Openers(h)[k], i) {
      FollowsSnoc(h, m, Openers(h)[k], i);
    }
  }

  lemma OpenersSnoc(h: seq<Message>, m: Message)
    ensures Openers(h + [m]) == if IsOpener(m) then Openers(h) + [|h|] else Openers(h)
  {
    assert (h + [m])[..|h|] == h;
  }

  lemma OpenerSnoc(h: seq<Message>, m: Message, steps: seq<Step>)
    requires StepsOf(h, steps) && IsOpener(m)
    ensures StepsOf(h + [m], steps + [Step(|h|, [])]) && StepOpen(h + [m])
  {
    OpenersSnoc(h, m);
    forall k: nat | k < |steps| ensures StepAt(h + [m], steps + [Step(|h|, [])], k) {
      assert StepAt(h, steps, k);
      StepKeeps(h, m, steps, k);
    }
  }

  lemma ResultSnoc(h: seq<Message>, m: Message, steps: seq<Step>)
    requires StepsOf(h, steps) && m.ToolMessage? && StepOpen(h)
    ensures var n := |steps| - 1;
      StepsOf(h + [m], steps[n := Step(steps[n].assistant, steps[n].tools + [|h|])]) && StepOpen(h + [m])
  {
    var n := |steps| - 1;
    var last := Step(steps[n].assistant, steps[n].tools + [|h|]);
    OpenersSnoc(h, m);
    OpenersInOrder(h);
    assert StepAt(h, steps, n);
    forall i: nat ensures i in last.tools <==> Follows(h + [m], Openers(h)[n], i) {
      FollowsSnoc(h, m, Openers(h)[n], i);
    }
    var steps1 := steps[n := last];
    forall k: nat | k < n ensures StepAt(h + [m], steps1, k) {
      assert StepAt(h, steps, k);
      StepKeeps(h, m, steps, k);
    }
    FollowsSnoc(h, m, Openers(h)[n], |h|);
  }

  lemma OtherSnoc(h: seq<Message>, m: Message, steps: seq<Step>)
    requires StepsOf(h, steps) && !IsOpener(m) && !(m.ToolMessage? && StepOpen(h))
    ensures StepsOf(h + [m], steps) && !StepOpen(h + [m])
  {
    OpenersSnoc(h, m);
    OpenersInOrder(h);
    forall k: nat | k < |steps| ensures StepAt(h + [m], steps, k) {
      assert StepAt(h, steps, k);
      StepKeeps(h, m, steps, k);
    }
    if steps != [] { FollowsSnoc(h, m, Openers(h)[|steps| - 1], |h|); }
  }

  method SegmentSteps(messages: seq<Message>) returns (steps: seq<Step>)
    ensures StepsOf(messages, steps)
  {
    steps := [];
    var open := false;
    for i := 0 to |messages|
      invariant StepsOf(messages[..i], steps) && (open <==> StepOpen(messages[..i]))
    {
      var m := messages[i];
      assert messages[..i + 1] == messages[..i] + [m];
      if m.AssistantMessage? && m.toolCalls != [] {
        OpenerSnoc(messages[..i], m, steps);
        open := true;
        steps := steps + [Step(i, [])];
      } else if m.ToolMessage? && open {
        ResultSnoc(messages[..i], m, steps);
        var last := steps[|steps| - 1];
        steps := steps[|steps| - 1 := Step(last.assistant, last.tools + [i])];
      } else {
        OtherSnoc(messages[..i], m, steps);
        open := false;
      }
    }
    assert messages[..|messages|] == messages;
  }

  method RecentIndices(messages: seq<Message>, steps: seq<Step>) returns (recent: set<nat>)
    requires StepsOf(messages, steps)
    ensures forall i: nat :: i in recent <==> IsRecent(messages, i)
  {
    recent := {};
    var first := if |steps| < RECENT_STEPS_TO_KEEP then 0 else |steps| - RECENT_STEPS_TO_KEEP;
    for k := first to |steps|
      invariant forall i: nat :: i in recent <==> exists j: nat :: j < k && InRecentStep(messages, i, j)
    {
      assert StepAt(messages, steps, k);
      ghost var before := recent;
      recent := recent + {steps[k].assistant} + (set i | i in steps[k].tools);
      forall i: nat ensures i in recent <==> i in before || InRecentStep(messages, i, k) {}
    }
  }

  method LatestReads(messages: seq<Message>) returns (latest: map<string, nat>)
    ensures forall i: nat :: IsLatestRead(messages, i) <==>
      i < |messages| && messages[i].ToolMessage? && messages[i].filePath.Some? && messages[i].filePath.value in latest
          && latest[messages[i].filePath.value] == i
  {
    latest := map[];
    for n := 0 to |messages|
      invariant forall p :: p in latest ==> latest[p] < n && IsRead(messages[latest[p]], p)
      invariant forall p, j {:trigger IsRead(messages[j], p)} :: 0 <= j < n && IsRead(messages[j], p) ==>
        p in latest && j <= latest[p]
    {
      var m := messages[n];
      if m.ToolMessage? && m.isReadSuccess && m.filePath.Some? {
        latest := latest[m.filePath.value := n];
      }
    }
    forall i: nat | i < |messages| && messages[i].ToolMessage? && messages[i].filePath.Some?
      ensures IsLatestRead(messages, i) <==>
        messages[i].filePath.value in latest && latest[messages[i].filePath.value] == i
    {
      var path := messages[i].filePath.value;
      if IsLatestRead(messages, i) {
        assert IsRead(messages[i], path);
        assert IsRead(messages[latest[path]], path);
      }
    }
  }

  method ReplaceableResults(messages: seq<Message>, recent: set<nat>, latest: map<string, nat>) returns (r: seq<nat>)
    requires forall i: nat :: i in recent <==> IsRecent(messages, i)
    requires forall i: nat :: IsLatestRead(messages, i) <==>
      i < |messages| && messages[i].ToolMessage? && messages[i].filePath.Some? && messages[i].filePath.value in latest
          && latest[messages[i].filePath.value] == i
    ensures r == Replaceable(messages)
  {
    r := [];
    for i := 0 to |messages|
      invariant r == ReplaceableBelow(messages, i)
    {
      var m := messages[i];
      if m.ToolMessage? {
        var latestForFile := m.filePath.Some? && m.filePath.value in latest && latest[m.filePath.value] == i;
        if i in recent || !m.ok || latestForFile {
          continue;
        }
        r := r + [i];
      }
    }
  }

  /** The old assistant messages, in the order in which they are shortened. */
  method OldAssistants(h: Host, messages: seq<Message>, recent: set<nat>) returns (sorted: seq<nat>)
    requires forall i: nat :: i in recent <==> IsRecent(messages, i)
    ensures sorted == Candidates(h, messages)
  {
    var r: seq<nat> := [];
    for i := 0 to |messages|
      invariant r == CandidatesBelow(messages, i)
    {
      if messages[i].AssistantMessage? && i !in recent {
        r := r + [i];
      }
    }
    assert forall k :: 0 <= k < |r| ==> r[k] in r && r[k] < |messages|;
    sorted := SortBySaving(h, messages, r);
  }

  // ---------------------------------------------------------------- rendering

  method LatestAttachmentIndex(messages: seq<Message>) returns (latest: int)
    ensures latest == LatestAttachment(messages)
  {
    latest := -1;
    for i := 0 to |messages|
      invariant latest == LatestAttachment(messages[..i])
    {
      assert messages[..i + 1][..i] == messages[..i];
      if messages[i].UserMessage? && messages[i].attachments != [] {
        latest := i;
      }
    }
    assert messages[..|messages|] == messages;
  }

  method Render(h: Host, messages: seq<Message>, overrides: Overrides, prefix: string) returns (rendered: seq<Provider>)
    ensures rendered == Rendered(h, messages, overrides, prefix)
  {
    var latest := LatestAttachmentIndex(messages);
    rendered := [];
    if prefix != "" {
      rendered := [SystemView(prefix)];
    }
    ghost var front := rendered;
    for i := 0 to |messages|
      invariant rendered == front + Body(h, messages, overrides)[..i]
    {
      var shown := if i in overrides then overrides[i] else ToProvider(h, messages[i], i == latest);
      rendered := rendered + [shown];
    }
    assert Body(h, messages, overrides)[..|messages|] == Body(h, messages, overrides);
  }

  method Measure(h: Host, rendered: seq<Provider>) returns (count: nat)
    ensures count == CharsOf(h, rendered)
  {
    count := 0;
    for i := 0 to |rendered|
      invariant count == CharsOf(h, rendered[..i])
    {
      assert rendered[..i + 1][..i] == rendered[..i];
      count := count + h.size(rendered[i]);
    }
    assert rendered[..|rendered|] == rendered;
  }

  method RenderAndMeasure(h: Host, messages: seq<Message>, overrides: Overrides, prefix: string)
    returns (rendered: seq<Provider>, count: nat)
    ensures rendered == Rendered(h, messages, overrides, prefix)
    ensures count == CharsOf(h, rendered) == Count(h, messages, overrides, prefix)
  {
    rendered := Render(h, messages, overrides, prefix);
    count := Measure(h, rendered);
    CountIsChars(h, messages, overrides, prefix);
  }

  // ---------------------------------------------------------------- the three phases

  lemma MarkersNext(c: Config, messages: seq<Message>, k: nat)
    requires k < |Replaceable(messages)|
    ensures var i := Replaceable(messages)[k];
      && IsReplaceable(messages, i)
      && MarkersUpTo(c, messages, k + 1) == MarkersUpTo(c, messages, k)[i := Marked(c.host, messages[i])]
  {
    var r := Replaceable(messages);
    assert r[k] in r && r[..k + 1] == r[..k] + [r[k]];
  }

  method CompactResults(c: Config, messages: seq<Message>, results: seq<nat>, prefix: string)
    returns (overrides: Overrides, count: nat)
    requires results == Replaceable(messages)
    ensures overrides == MarkersUpTo(c, messages, FirstFit(c, messages, prefix))
    ensures count == Count(c.host, messages, overrides, prefix)
  {
    overrides := map[];
    var rendered;
    rendered, count := RenderAndMeasure(c.host, messages, overrides, prefix);
    ghost var cost := MarkedCost(c, messages, prefix);
    for k := 0 to |results|
      invariant overrides == MarkersUpTo(c, messages, k)
      invariant count == Count(c.host, messages, overrides, prefix)
      invariant FirstWithin(cost, c.charBudget, |results|, k) == FirstFit(c, messages, prefix)
    {
      assert cost(k) == count;
      if count <= c.charBudget {
        return;
      }
      MarkersNext(c, messages, k);
      overrides := overrides[results[k] := Marked(c.host, messages[results[k]])];
      rendered, count := RenderAndMeasure(c.host, messages, overrides, prefix);
    }
  }

  method ShortenAssistants(c: Config, messages: seq<Message>, candidates: seq<nat>, prefix: string, start: Overrides)
    returns (overrides: Overrides, count: nat)
    requires AllAssistants(messages, candidates)
    ensures overrides == ShortenWhileOver(c, messages, start, candidates, prefix)
    ensures count == Count(c.host, messages, overrides, prefix)
  {
    overrides := start;
    var rendered;
    rendered, count := RenderAndMeasure(c.host, messages, overrides, prefix);
    for k := 0 to |candidates|
      invariant count == Count(c.host, messages, overrides, prefix)
      invariant ShortenWhileOver(c, messages, overrides, candidates[k..], prefix) ==
        ShortenWhileOver(c, messages, start, candidates, prefix)
    {
      assert candidates[k..][1..] == candidates[k + 1..];
      if count <= c.charBudget {
        return;
      }
      var i := candidates[k];
      if Saving(c.host, messages[i]) == 0 {
        continue;
      }
      overrides := overrides[i := Shortened(messages[i])];
      rendered, count := RenderAndMeasure(c.host, messages, overrides, prefix);
    }
  }

  /** What may be compacted: the recent messages, and the old results that no later read replaces. */
  method Classify(messages: seq<Message>) returns (recent: set<nat>, results: seq<nat>)
    ensures (forall i: nat :: i in recent <==> IsRecent(messages, i)) && results == Replaceable(messages)
  {
    var steps := SegmentSteps(messages);
    recent := RecentIndices(messages, steps);
    var latest := LatestReads(messages);
    results := ReplaceableResults(messages, recent, latest);
  }

  /** Results first, then the memory block as a whole, then old assistant text. */
  method Choose(c: Config, messages: seq<Message>, prefix: string) returns (choice: Choice)
    ensures choice == Chosen(c, messages, prefix)
  {
    var recent, results := Classify(messages);
    var overrides, count := CompactResults(c, messages, results, prefix);
    if count <= c.charBudget {
      return Choice(overrides, prefix);
    }
    if prefix != "" {
      var rendered, without := RenderAndMeasure(c.host, messages, overrides, "");
      if without <= c.charBudget {
        return Choice(overrides, "");
      }
    }
    var candidates := OldAssistants(c.host, messages, recent);
    overrides, count := ShortenAssistants(c, messages, candidates, prefix, overrides);
    choice := Choice(overrides, prefix);
  }

  class ContextManager {
    const config: Config
    var loaded: bool
    var memory: Option<string>
    var committed: bool
    ghost var commits: nat  // how often the use of the memory was recorded

    constructor (config: Config)
      ensures this.config == config && !loaded && Valid()
    {
      this.config, loaded, memory, committed, commits := config, false, None, false, 0;
    }

    ghost predicate Valid()
      reads this
    {
      commits == if committed then 1 else 0
    }

    /** The memory is asked for once; later requests of the turn see the same block. */
    method GetMemory(provided: Option<string>) returns (m: Option<string>)
      modifies `loaded, `memory
      ensures loaded && memory == m == if old(loaded) then old(memory) else provided
    {
      if !loaded {
        loaded := true;
        memory := provided;
      }
      m := memory;
    }

    /** Builds the specified view; the use of the memory is recorded once, with the first view that shows it. */
    method BuildRequest(messages: seq<Message>, provided: Option<string>) returns (r: Result<RequestView, Overflow>)
      requires Valid()
      modifies this
      ensures Valid() && loaded && memory == if old(loaded) then old(memory) else provided
      ensures r == Build(config, messages, memory)
      ensures committed <==> old(committed) || (r.Ok? && Front(r.value) == 1)
    {
      var projection := GetMemory(provided);
      var choice := Choose(config, messages, projection.GetOr(""));
      if choice.prefix != projection.GetOr("") {
        projection := None;
      }
      var view := Render(config.host, messages, choice.overrides, choice.prefix);
      r := Checked(config, view, projection);
      if r.Ok? && projection.GetOr("") != "" && !committed {
        commits := commits + 1;
        committed := true;
      }
    }
  }
}
