/** The adapter of the Responses stream: item events become neutral events, and no content is delivered twice. */
module Responses {
  import opened Results
  import opened Messages
  import opened Streaming

  const WIRE_API := "openai_responses"

  /**
   An output item; missing strings are "". A message has the texts of its output-text parts and those of its refusal
   parts.
   */
  datatype Item =
    | FunctionCall(id: string, callId: string, name: string, arguments: Option<string>)
    | MessageItem(texts: seq<string>, refusals: seq<string>)
    | Reasoning(id: string, encrypted: string, summary: seq<string>)
    | OtherItem

  /** A provider event; a delta is absent when it is no string. */
  datatype Event =
    | ItemAdded(index: nat, item: Item)
    | ItemDone(index: nat, item: Item)
    | CallArguments(index: nat, itemId: string, delta: Option<string>)
    | OutputText(index: nat, delta: Option<string>)
    | SummaryText(index: nat, part: nat, delta: Option<string>)
    | Refusal(index: nat, delta: Option<string>)
    | ResponseCompleted(status: string, hasUsage: bool)
    | ResponseIncomplete
    | ResponseFailed(retryable: bool)
    | ResponseCancelled
    | OtherEvent

  type ItemKey = (nat, string)

  /** What the adapter remembers of the items of one stream. */
  datatype Adapter = Adapter(
    tools: map<ItemKey, nat>, meta: map<ItemKey, (string, string)>, arguments: map<ItemKey, string>,
    text: map<Key, string>, summary: map<Key, string>, nextTool: map<nat, nat>, completed: bool)

  const IDLE := Adapter(map[], map[], map[], map[], map[], map[], false)

  datatype Step = Step(adapter: Adapter, out: seq<Neutral>)

  function ItemId(item: Item): string
    requires item.FunctionCall?
  {
    Or(item.id, item.callId)
  }

  function Identity(item: Item): (string, string)
    requires item.FunctionCall?
  {
    (Or(item.callId, item.id), item.name)
  }

  function Concat(parts: seq<string>): string {
    if parts == [] then "" else Concat(parts[..|parts| - 1]) + parts[|parts| - 1]
  }

  function StartCall(a: Adapter, i: nat, item: Item): Result<Step, Failure>
    requires item.FunctionCall?
  {
    var key := (i, ItemId(item));
    if ItemId(item) == "" || key in a.tools then Err(Failure(false))
    else
      var t := if i in a.nextTool then a.nextTool[i] else 0;
      Ok(Step(a.(nextTool := a.nextTool[i := t + 1], tools := a.tools[key := t], meta := a.meta[key := Identity(item)],
                 arguments := a.arguments[key := ""]),
              [ToolCallStarted(i, t, Identity(item).0, item.name)]))
  }

  function ArgumentDelta(a: Adapter, i: nat, itemId: string, delta: string): Result<Step, Failure> {
    var key := (i, itemId);
    if key !in a.tools then Err(Failure(false))
    else if delta == "" then Ok(Step(a, []))
    else Ok(Step(a.(arguments := a.arguments[key := At(a.arguments, key) + delta]),
                 [ArgumentsDelta(i, a.tools[key], delta)]))
  }

  /** The final call has to be the one that started; its arguments count only when none were streamed. */
  function FinishCall(a: Adapter, i: nat, item: Item): Result<Step, Failure>
    requires item.FunctionCall?
  {
    var key := (i, ItemId(item));
    if key !in a.tools || key !in a.meta || Identity(item) != a.meta[key] then Err(Failure(false))
    else
      var streamed, final := At(a.arguments, key), item.arguments.GetOr("");
      if item.arguments.Some? && streamed != "" && final != streamed then Err(Failure(false))
      else Ok(Step(a, if final != "" && streamed == "" then [ArgumentsDelta(i, a.tools[key], final)] else []))
  }

  function FinishMessage(a: Adapter, i: nat, final: string): Result<Step, Failure> {
    var streamed := At(a.text, (i, 0));
    if streamed != "" && final != streamed then Err(Failure(false))
    else Ok(Step(a, if final != "" && streamed == "" then [TextDelta(i, final)] else []))
  }

  /** The parts of a final summary that were not streamed, after checking those that were. */
  function FinishSummary(a: Adapter, i: nat, summary: seq<string>, k: nat): Result<seq<Neutral>, Failure>
    requires k <= |summary|
    decreases |summary| - k
  {
    if k == |summary| then Ok([])
    else
      var streamed := At(a.summary, (i, k));
      if streamed != "" && summary[k] != streamed then Err(Failure(false))
      else
        var rest := FinishSummary(a, i, summary, k + 1);
        if rest.Err? then rest
        else Ok(if summary[k] != "" && streamed == "" then [SummaryDelta(i, k, summary[k])] + rest.value
                else rest.value)
  }

  function FinishReasoning(a: Adapter, i: nat, item: Item): Result<Step, Failure>
    requires item.Reasoning?
  {
    var parts := FinishSummary(a, i, item.summary, 0);
    if parts.Err? then Err(parts.error)
    else if item.id == "" || item.encrypted == "" then Ok(Step(a, parts.value))
    else
      var continuation := ProviderContinuation(WIRE_API, item.id, item.encrypted, item.summary);
      Ok(Step(a, parts.value + [ContinuationReceived(continuation)]))
  }

  /** One provider event: what the adapter remembers, and the neutral events it stands for. */
  function Translate(a: Adapter, e: Event): Result<Step, Failure> {
    match e
    case ItemAdded(i, item) => if item.FunctionCall? then StartCall(a, i, item) else Ok(Step(a, []))
    case CallArguments(i, itemId, delta) => ArgumentDelta(a, i, itemId, delta.GetOr(""))
    case ItemDone(i, item) =>
      (match item
       case FunctionCall(_, _, _, _) => FinishCall(a, i, item)
       case MessageItem(texts, _) => FinishMessage(a, i, Concat(texts))
       case Reasoning(_, _, _) => FinishReasoning(a, i, item)
       case OtherItem => Ok(Step(a, [])))
    case OutputText(i, delta) =>
      if delta.None? then Ok(Step(a, []))
      else Ok(Step(if delta.value == "" then a
                   else a.(text := Appended(a.text, (i, 0), delta.value)), [TextDelta(i, delta.value)]))
    case SummaryText(i, part, delta) =>
      if delta.None? then Ok(Step(a, []))
      else Ok(Step(if delta.value == "" then a
                   else a.(summary := Appended(a.summary, (i, part), delta.value)), [SummaryDelta(i, 0, delta.value)]))
    case Refusal(i, delta) => Ok(Step(a, if delta.Some? then [RefusalDelta(i, delta.value)] else []))
    case ResponseCompleted(status, hasUsage) =>
      if status != "completed" then Ok(Step(a, [StreamFailed(false)]))
      else Ok(Step(a.(completed := true), if hasUsage then [UsageReceived, StreamCompleted("stop")]
                   else [StreamCompleted("stop")]))
    case ResponseIncomplete => Ok(Step(a, [StreamFailed(false)]))
    case ResponseFailed(retryable) => Ok(Step(a, [StreamFailed(retryable)]))
    case ResponseCancelled => Ok(Step(a, [StreamFailed(false)]))
    case OtherEvent => Ok(Step(a, []))
  }

  // ---------------------------------------------------------------- adapter and accumulator together

  datatype Pipe = Pipe(adapter: Adapter, buffers: Buffers)

  function Feed(p: Pipe, e: Event): Result<Pipe, Failure> {
    var step := Translate(p.adapter, e);
    if step.Err? then Err(step.error)
    else
      var b := AbsorbAll(p.buffers, step.value.out);
      if b.Err? then Err(b.error) else Ok(Pipe(step.value.adapter, b.value))
  }

  function FeedAll(p: Pipe, events: seq<Event>): Result<Pipe, Failure> {
    if events == [] then Ok(p)
    else
      var r := FeedAll(p, events[..|events| - 1]);
      if r.Err? then r else Feed(r.value, events[|events| - 1])
  }

  const OPEN := Pipe(IDLE, EMPTY.(started := true))

  /** A whole response: the stream has to reach its completion event. */
  ghost function Receive(events: seq<Event>, blank: string -> bool): Result<Turn, Failure> {
    var p := FeedAll(OPEN, events);
    if p.Err? then Err(p.error)
    else if !p.value.adapter.completed then Err(Failure(true))
    else ToTurn(p.value.buffers, blank)
  }
}
