/** The two stateful objects of a streamed request: the provider adapter and the turn accumulator. */
module TurnStream {
  import opened Results
  import opened Messages
  import opened Streaming
  import R = Responses

  class TurnStreamAccumulator {
    var textParts: map<Key, string>
    var reasoningParts: map<Key, string>
    var summaryParts: map<Key, string>
    var tools: map<Key, Draft>
    var toolOrder: seq<Key>
    var refusalParts: string
    var continuations: seq<ProviderContinuation>
    var finishReason: Option<string>
    var started: bool
    var completed: bool
    var hasOutput: bool

    ghost function State(): Buffers
      reads this
    {
      Buffers(textParts, reasoningParts, summaryParts, tools, toolOrder, refusalParts, continuations, finishReason,
              started, completed, hasOutput)
    }

    /** Every draft is listed once. */
    ghost predicate Valid()
      reads this
    {
      && (forall k: Key :: k in toolOrder <==> k in tools)
      && (forall i, j :: 0 <= i < j < |toolOrder| ==> toolOrder[i] != toolOrder[j])
    }

    constructor ()
      ensures Valid() && State() == EMPTY
    {
      textParts, reasoningParts, summaryParts, tools, toolOrder := map[], map[], map[], map[], [];
      refusalParts, continuations, finishReason := "", [], None;
      started, completed, hasOutput := false, false, false;
    }

    method StartTool(key: Key, callId: string, name: string) returns (failure: Option<Failure>)
      requires Valid()
      modifies `tools, `toolOrder, `hasOutput
      ensures Valid()
      ensures match OpenTool(old(State()), key, callId, name)
        case Ok(b) => failure == None && State() == b
        case Err(f) => failure == Some(f) && State() == old(State())
    {
      if key !in tools {
        tools := tools[key := Draft(callId, name, "")];
        toolOrder := toolOrder + [key];
      } else {
        var draft := tools[key];
        if callId != "" && draft.callId != "" && callId != draft.callId {
          return Some(Failure(false));
        }
        if name != "" && draft.name != "" && name != draft.name {
          return Some(Failure(false));
        }
        tools := tools[key := Draft(Or(draft.callId, callId), Or(draft.name, name), draft.arguments)];
      }
      hasOutput := true;
      failure := None;
    }

    method ExtendTool(key: Key, delta: string) returns (failure: Option<Failure>)
      requires Valid()
      modifies `tools, `hasOutput
      ensures Valid()
      ensures match AddArguments(old(State()), key, delta)
        case Ok(b) => failure == None && State() == b
        case Err(f) => failure == Some(f) && State() == old(State())
    {
      if key !in tools {
        return Some(Failure(false));
      }
      var draft := tools[key];
      tools := tools[key := draft.(arguments := draft.arguments + delta)];
      hasOutput := true;
      failure := None;
    }

    /** Takes one event, or refuses it and stays as it was. */
    method AbsorbEvent(e: Neutral) returns (failure: Option<Failure>)
      requires Valid()
      modifies this
      ensures Valid()
      ensures match Absorb(old(State()), e)
        case Ok(b) => failure == None && State() == b
        case Err(f) => failure == Some(f) && State() == old(State())
    {
      failure := Some(Failure(false));
      if completed {
        return;
      }
      if e.StreamStarted? {
        if started {
          return;
        }
        started := true;
        return None;
      }
      if !started {
        return;
      }
      failure := None;
      match e
      case TextDelta(i, delta) =>
        if i < 0 { return Some(Failure(false)); }
        textParts := Appended(textParts, (i as nat, 0), delta);
        hasOutput := true;
      case ReasoningDelta(i, delta) =>
        if i < 0 { return Some(Failure(false)); }
        reasoningParts := Appended(reasoningParts, (i as nat, 0), delta);
        hasOutput := true;
      case SummaryDelta(i, part, delta) =>
        if i < 0 || part < 0 { return Some(Failure(false)); }
        summaryParts := Appended(summaryParts, (i as nat, part as nat), delta);
        hasOutput := true;
      case ToolCallStarted(i, tool, callId, name) =>
        if i < 0 || tool < 0 { return Some(Failure(false)); }
        failure := StartTool((i as nat, tool as nat), callId, name);
      case ArgumentsDelta(i, tool, delta) =>
        if i < 0 || tool < 0 { return Some(Failure(false)); }
        failure := ExtendTool((i as nat, tool as nat), delta);
      case RefusalDelta(i, delta) =>
        if i < 0 { return Some(Failure(false)); }
        refusalParts := refusalParts + delta;
        hasOutput := true;
      case UsageReceived =>
      case ContinuationReceived(c) =>
        if c.itemId == "" || c.encryptedContent == "" { return Some(Failure(false)); }
        continuations := continuations + [c];
      case StreamCompleted(reason) =>
        if reason !in {"stop", "tool_calls", "refusal"} { return Some(Failure(false)); }
        finishReason := Some(reason);
        completed := true;
      case StreamFailed(retryable) =>
        failure := Some(Failure(retryable));
    }

    method AbsorbEvents(events: seq<Neutral>) returns (failure: Option<Failure>)
      requires Valid()
      modifies this
      ensures Valid()
      ensures match AbsorbAll(old(State()), events)
        case Ok(b) => failure == None && State() == b
        case Err(f) => failure == Some(f)
    {
      for i := 0 to |events|
        invariant Valid() && AbsorbAll(State(), events[i..]) == AbsorbAll(old(State()), events)
      {
        assert events[i..][1..] == events[i + 1..];
        failure := AbsorbEvent(events[i]);
        if failure.Some? {
          return;
        }
      }
      failure := None;
    }

    method MakeTurn(blank: string -> bool) returns (r: Result<Turn, Failure>)
      requires Valid()
      ensures r == ToTurn(State(), blank)
    {
      if !completed || finishReason.None? {
        return Err(Failure(false));
      }
      if finishReason.value == "tool_calls" && tools == map[] {
        return Err(Failure(false));
      }
      var toolCalls := MakeCalls(tools, toolOrder);
      if toolCalls.Err? {
        return Err(toolCalls.error);
      }
      var text := Join(textParts);
      if finishReason.value != "refusal" && toolCalls.value == [] && blank(text) && refusalParts == "" {
        return Err(Failure(false));
      }
      var reasoning := Join(reasoningParts);
      var summary := Join(summaryParts);
      r := Ok(Turn(Or(text, refusalParts), toolCalls.value, NonEmpty(Or(reasoning, summary)), continuations));
    }
  }

  lemma CallsNext(tools: map<Key, Draft>, keys: seq<Key>, i: nat)
    requires i < |keys| && CallsOf(tools, keys[..i]).Ok? && keys[i] in tools
    ensures var d := tools[keys[i]];
      if d.callId == "" || d.name == "" then CallsOf(tools, keys) == Err(Failure(false))
      else CallsOf(tools, keys[..i + 1]) == Ok(CallsOf(tools, keys[..i]).value + [CallOf(d)])
  {
    var d := tools[keys[i]];
    if d.callId == "" || d.name == "" {
      MissingIdentity(tools, keys, i);
    } else {
      assert keys[..i + 1][..i] == keys[..i];
    }
  }

  lemma {:induction false} MissingIdentity(tools: map<Key, Draft>, keys: seq<Key>, i: nat)
    requires i < |keys| && CallsOf(tools, keys[..i]).Ok? && keys[i] in tools
    requires tools[keys[i]].callId == "" || tools[keys[i]].name == ""
    ensures CallsOf(tools, keys) == Err(Failure(false))
    decreases |keys|
  {
    var init := keys[..|keys| - 1];
    if i < |keys| - 1 {
      assert init[..i] == keys[..i];
      MissingIdentity(tools, init, i);
    } else {
      assert init == keys[..i];
    }
  }

  /** The calls in order; every draft needs an id and a name by now. */
  method MakeCalls(tools: map<Key, Draft>, toolOrder: seq<Key>) returns (r: Result<seq<ToolCall>, Failure>)
    requires forall k: Key :: k in toolOrder <==> k in tools
    requires forall i, j :: 0 <= i < j < |toolOrder| ==> toolOrder[i] != toolOrder[j]
    ensures r == CallsOf(tools, Listing(tools.Keys))
  {
    var keys := Sorted(toolOrder);
    ListingIsUnique(keys, Listing(tools.Keys), tools.Keys);
    var toolCalls: seq<ToolCall> := [];
    for i := 0 to |keys|
      invariant CallsOf(tools, keys[..i]) == Ok(toolCalls)
    {
      assert keys[i] in keys;
      CallsNext(tools, keys, i);
      var draft := tools[keys[i]];
      if draft.callId == "" || draft.name == "" {
        return Err(Failure(false));
      }
      toolCalls := toolCalls + [CallOf(draft)];
    }
    assert keys[..|keys|] == keys;
    r := Ok(toolCalls);
  }

  ghost function Among(keys: seq<Key>): set<Key> {
    set k | k in keys
  }

  method Sorted(keys: seq<Key>) returns (sorted: seq<Key>)
    requires forall i, j :: 0 <= i < j < |keys| ==> keys[i] != keys[j]
    ensures Ordered(sorted) && forall k: Key :: k in sorted <==> k in keys
  {
    sorted := [];
    for i := 0 to |keys|
      invariant Lists(sorted, Among(keys[..i]))
    {
      assert keys[..i + 1] == keys[..i] + [keys[i]];
      InsertLists(sorted, Among(keys[..i]), keys[i]);
      assert Among(keys[..i + 1]) == Among(keys[..i]) + {keys[i]};
      sorted := InsertKey(sorted, keys[i]);
    }
    assert keys[..|keys|] == keys;
  }

  /** The fragments of all buffers, in the order of their keys. */
  method Join(parts: map<Key, string>) returns (s: string)
    ensures s == Joined(parts, Listing(parts.Keys))
  {
    var keys: seq<Key> := [];
    var rest := parts.Keys;
    while rest != {}
      invariant rest <= parts.Keys && Lists(keys, parts.Keys - rest)
      decreases rest
    {
      var k :| k in rest;
      InsertLists(keys, parts.Keys - rest, k);
      assert parts.Keys - rest + {k} == parts.Keys - (rest - {k});
      keys := InsertKey(keys, k);
      rest := rest - {k};
    }
    assert parts.Keys - rest == parts.Keys;
    ListingIsUnique(keys, Listing(parts.Keys), parts.Keys);
    s := "";
    for i := 0 to |keys|
      invariant s == Joined(parts, keys[..i])
    {
      assert keys[..i + 1][..i] == keys[..i];
      s := s + At(parts, keys[i]);
    }
    assert keys[..|keys|] == keys;
  }

  // ---------------------------------------------------------------- the adapter

  ghost function Prefixed(out: seq<Neutral>, rest: Result<seq<Neutral>, Failure>): Result<seq<Neutral>, Failure> {
    if rest.Ok? then Ok(out + rest.value) else rest
  }

  /** The state of one Responses stream. */
  class ResponsesStream {
    var toolIndices: map<R.ItemKey, nat>
    var toolMeta: map<R.ItemKey, (string, string)>
    var toolArguments: map<R.ItemKey, string>
    var textParts: map<Key, string>
    var summaryParts: map<Key, string>
    var nextToolIndex: map<nat, nat>
    var completed: bool

    ghost function State(): R.Adapter
      reads this
    {
      R.Adapter(toolIndices, toolMeta, toolArguments, textParts, summaryParts, nextToolIndex, completed)
    }

    constructor ()
      ensures State() == R.IDLE
    {
      toolIndices, toolMeta, toolArguments := map[], map[], map[];
      textParts, summaryParts, nextToolIndex, completed := map[], map[], map[], false;
    }

    method BeginCall(i: nat, item: R.Item) returns (r: Result<seq<Neutral>, Failure>)
      requires item.FunctionCall?
      modifies this
      ensures match R.StartCall(old(State()), i, item)
        case Ok(step) => r == Ok(step.out) && State() == step.adapter
        case Err(f) => r == Err(f)
    {
      var itemId := R.ItemId(item);
      if itemId == "" || (i, itemId) in toolIndices {
        return Err(Failure(false));
      }
      var tool := if i in nextToolIndex then nextToolIndex[i] else 0;
      nextToolIndex := nextToolIndex[i := tool + 1];
      toolIndices := toolIndices[(i, itemId) := tool];
      toolMeta := toolMeta[(i, itemId) := R.Identity(item)];
      toolArguments := toolArguments[(i, itemId) := ""];
      r := Ok([ToolCallStarted(i, tool, Or(item.callId, item.id), item.name)]);
    }

    /** A finished call: it has to be the one that started, and repeats what was streamed or delivers it at once. */
    method EndCall(i: nat, item: R.Item) returns (r: Result<seq<Neutral>, Failure>)
      requires item.FunctionCall?
      ensures match R.FinishCall(State(), i, item)
        case Ok(step) => r == Ok(step.out) && State() == step.adapter
        case Err(f) => r == Err(f)
    {
      var key := (i, R.ItemId(item));
      if key !in toolIndices || key !in toolMeta || R.Identity(item) != toolMeta[key] {
        return Err(Failure(false));
      }
      var streamed := At(toolArguments, key);
      if item.arguments.Some? && streamed != "" && item.arguments.value != streamed {
        return Err(Failure(false));
      }
      if item.arguments.Some? && item.arguments.value != "" && streamed == "" {
        return Ok([ArgumentsDelta(i, toolIndices[key], item.arguments.value)]);
      }
      r := Ok([]);
    }

    /** A finished thought: the summary parts that were not streamed, then the continuation if there is one. */
    method EndReasoning(i: nat, item: R.Item) returns (r: Result<seq<Neutral>, Failure>)
      requires item.Reasoning?
      ensures match R.FinishReasoning(State(), i, item)
        case Ok(step) => r == Ok(step.out) && State() == step.adapter
        case Err(f) => r == Err(f)
    {
      var out: seq<Neutral> := [];
      ghost var whole := R.FinishSummary(State(), i, item.summary, 0);
      assert whole.Ok? ==> [] + whole.value == whole.value;
      for k := 0 to |item.summary|
        invariant whole == Prefixed(out, R.FinishSummary(State(), i, item.summary, k))
      {
        var streamed := At(summaryParts, (i, k));
        if streamed != "" && item.summary[k] != streamed {
          return Err(Failure(false));
        }
        if item.summary[k] != "" && streamed == "" {
          var added := out + [SummaryDelta(i, k, item.summary[k])];
          assert forall rest: seq<Neutral> :: added + rest == out + ([SummaryDelta(i, k, item.summary[k])] + rest);
          out := added;
        }
      }
      assert out + [] == out;
      if item.id != "" && item.encrypted != "" {
        out := out + [ContinuationReceived(ProviderContinuation(R.WIRE_API, item.id, item.encrypted, item.summary))];
      }
      r := Ok(out);
    }

    method EndItem(i: nat, item: R.Item) returns (r: Result<seq<Neutral>, Failure>)
      ensures match R.Translate(State(), R.ItemDone(i, item))
        case Ok(step) => r == Ok(step.out) && State() == step.adapter
        case Err(f) => r == Err(f)
    {
      match item
      case FunctionCall(_, _, _, _) =>
        r := EndCall(i, item);
      case MessageItem(texts, _) =>
        var final, streamed := R.Concat(texts), At(textParts, (i, 0));
        if streamed != "" && final != streamed {
          return Err(Failure(false));
        }
        r := Ok(if final != "" && streamed == "" then [TextDelta(i, final)] else []);
      case Reasoning(_, _, _) =>
        r := EndReasoning(i, item);
      case OtherItem =>
        r := Ok([]);
    }

    method TranslateEvent(e: R.Event) returns (r: Result<seq<Neutral>, Failure>)
      modifies this
      ensures match R.Translate(old(State()), e)
        case Ok(step) => r == Ok(step.out) && State() == step.adapter
        case Err(f) => r == Err(f)
    {
      match e
      case ItemAdded(i, item) =>
        if item.FunctionCall? {
          r := BeginCall(i, item);
        } else {
          r := Ok([]);
        }
      case ItemDone(i, item) =>
        r := EndItem(i, item);
      case CallArguments(i, itemId, delta) =>
        if (i, itemId) !in toolIndices {
          return Err(Failure(false));
        }
        if delta.None? || delta.value == "" {
          return Ok([]);
        }
        toolArguments := toolArguments[(i, itemId) := At(toolArguments, (i, itemId)) + delta.value];
        r := Ok([ArgumentsDelta(i, toolIndices[(i, itemId)], delta.value)]);
      case OutputText(i, delta) =>
        if delta.None? {
          return Ok([]);
        }
        if delta.value != "" {
          textParts := Appended(textParts, (i, 0), delta.value);
        }
        r := Ok([TextDelta(i, delta.value)]);
      case SummaryText(i, part, delta) =>
        if delta.None? {
          return Ok([]);
        }
        if delta.value != "" {
          summaryParts := Appended(summaryParts, (i, part), delta.value);
        }
        r := Ok([SummaryDelta(i, 0, delta.value)]);
      case Refusal(i, delta) =>
        r := Ok(if delta.Some? then [RefusalDelta(i, delta.value)] else []);
      case ResponseCompleted(status, hasUsage) =>
        if status != "completed" {
          return Ok([StreamFailed(false)]);
        }
        completed := true;
        r := Ok(if hasUsage then [UsageReceived, StreamCompleted("stop")] else [StreamCompleted("stop")]);
      case ResponseIncomplete =>
        r := Ok([StreamFailed(false)]);
      case ResponseFailed(retryable) =>
        r := Ok([StreamFailed(retryable)]);
      case ResponseCancelled =>
        r := Ok([StreamFailed(false)]);
      case OtherEvent =>
        r := Ok([]);
    }
  }

  /** One streamed request, from the first event to the turn. */
  method Request(events: seq<R.Event>, blank: string -> bool) returns (r: Result<Turn, Failure>)
    ensures r == R.Receive(events, blank)
  {
    var stream := new ResponsesStream();
    var accumulator := new TurnStreamAccumulator();
    var refused := accumulator.AbsorbEvent(StreamStarted);
    for i := 0 to |events|
      invariant accumulator.Valid() && R.FeedAll(R.OPEN, events[..i]) == Ok(R.Pipe(stream.State(), accumulator.State()))
    {
      assert events[..i + 1][..i] == events[..i];
      var out := stream.TranslateEvent(events[i]);
      if out.Err? {
        FeedFails(events, i);
        return Err(out.error);
      }
      var failure := accumulator.AbsorbEvents(out.value);
      if failure.Some? {
        FeedFails(events, i);
        return Err(failure.value);
      }
    }
    assert events[..|events|] == events;
    if !stream.completed {
      return Err(Failure(true));
    }
    r := accumulator.MakeTurn(blank);
  }

  lemma {:induction false} FeedFails(events: seq<R.Event>, i: nat)
    requires i < |events| && R.FeedAll(R.OPEN, events[..i + 1]).Err?
    ensures R.FeedAll(R.OPEN, events) == R.FeedAll(R.OPEN, events[..i + 1])
    decreases |events|
  {
    if i + 1 < |events| {
      var init := events[..|events| - 1];
      assert init[..i + 1] == events[..i + 1];
      FeedFails(init, i);
    } else {
      assert events[..i + 1] == events;
    }
  }
}
