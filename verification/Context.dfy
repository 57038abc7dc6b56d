/**
 The request view of a conversation: old tool results, the memory block and old assistant text give way, in
 this order and no further than needed, until the view fits its budget.
 */
module Context {
  import opened Results
  import opened Messages

  const RECENT_STEPS_TO_KEEP := 2
  const MAX_REASONING_CHARS := 800
  const MAX_ASSISTANT_TEXT_CHARS := 4000
  const REASONING_CUT := "\n\U{2026}[reasoning truncated by context manager]"
  const TEXT_CUT := "\n\U{2026}[text truncated by context manager]"

  /** A message as the provider gets it; of an attachment only the strings that count as characters matter. */
  datatype Provider =
    | SystemView(content: string)
    | UserView(content: string)
    | UserParts(strings: seq<string>)
    | AssistantView(text: Option<string>, reasoning: Option<string>, continuations: seq<ProviderContinuation>,
                    calls: seq<ToolCall>)
    | ToolView(callId: string, content: string)

  /**
   What the laws leave open: the measure of a message, for which the program takes `Chars`, the marker and
   attachment texts, and the byte and token estimates.
   */
  datatype Host = Host(
    size: Provider -> nat,
    marker: Message -> string, sourcePrefix: string -> string,
    named: (string, seq<AttachmentRef>) -> string, inlined: (string, seq<AttachmentRef>) -> seq<string>,
    bytes: seq<Provider> -> nat, tokens: seq<Provider> -> nat)

  datatype Config = Config(host: Host, charBudget: nat, byteBudget: nat, tokenBudget: Option<nat>)

  // ---------------------------------------------------------------- characters

  function Total(strings: seq<string>): nat {
    if strings == [] then 0 else Total(strings[..|strings| - 1]) + |strings[|strings| - 1]|
  }

  function CallChars(calls: seq<ToolCall>): nat {
    if calls == [] then 0
    else
      var c := calls[|calls| - 1];
      CallChars(calls[..|calls| - 1]) + |c.id| + |"function"| + |c.name| + |c.argumentsRaw|
  }

  function ContinuationChars(items: seq<ProviderContinuation>): nat {
    if items == [] then 0
    else
      var c := items[|items| - 1];
      ContinuationChars(items[..|items| - 1]) + |c.wireApi| + |c.itemId| + |c.encryptedContent| + Total(c.summary)
  }

  function Length(s: Option<string>): nat {
    if s.Some? then |s.value| else 0
  }

  function Chars(p: Provider): nat {
    match p
    case SystemView(content) => |"system"| + |content|
    case UserView(content) => |"user"| + |content|
    case UserParts(strings) => |"user"| + Total(strings)
    case AssistantView(text, reasoning, continuations, calls) =>
      |"assistant"| + Length(text) + Length(reasoning) + ContinuationChars(continuations) + CallChars(calls)
    case ToolView(callId, content) => |"tool"| + |callId| + |content|
  }

  /** The size of a view is the sum of its messages. */
  function CharsOf(h: Host, view: seq<Provider>): nat {
    if view == [] then 0 else CharsOf(h, view[..|view| - 1]) + h.size(view[|view| - 1])
  }

  // ---------------------------------------------------------------- rendering

  function ToProvider(h: Host, m: Message, inline: bool): Provider {
    match m
    case SystemMessage(content) => SystemView(content)
    case UserMessage(content, source, attachments) =>
      var text := h.sourcePrefix(source) + content;
      if attachments == [] then UserView(text)
      else if inline then UserParts(h.inlined(text, attachments))
      else UserView(h.named(text, attachments))
    case AssistantMessage(text, calls, reasoning, continuations) =>
      AssistantView(if text == "" then None else Some(text), reasoning, continuations, calls)
    case ToolMessage(id, content, _, _, _, _, _) => ToolView(id, content)
  }

  predicate HasAttachments(m: Message) {
    m.UserMessage? && m.attachments != []
  }

  /** Only the newest message with attachments carries them. */
  function LatestAttachment(messages: seq<Message>): int {
    if messages == [] then -1
    else if HasAttachments(messages[|messages| - 1]) then |messages| - 1
    else LatestAttachment(messages[..|messages| - 1])
  }

  type Overrides = map<nat, Provider>

  function RenderAt(h: Host, messages: seq<Message>, o: Overrides, i: nat): Provider
    requires i < |messages|
  {
    if i in o then o[i] else ToProvider(h, messages[i], i == LatestAttachment(messages))
  }

  function Body(h: Host, messages: seq<Message>, o: Overrides): (view: seq<Provider>)
    ensures |view| == |messages| && forall i: nat :: i < |messages| ==> view[i] == RenderAt(h, messages, o, i)
  {
    seq(|messages|, i requires 0 <= i < |messages| => RenderAt(h, messages, o, i))
  }

  /** The memory block stands before everything else. */
  function Rendered(h: Host, messages: seq<Message>, o: Overrides, prefix: string): seq<Provider> {
    if prefix == "" then Body(h, messages, o) else [SystemView(prefix)] + Body(h, messages, o)
  }

  /** The size of a rendered view. */
  function Count(h: Host, messages: seq<Message>, o: Overrides, prefix: string): nat {
    if prefix == "" then CharsOf(h, Body(h, messages, o))
    else h.size(SystemView(prefix)) + CharsOf(h, Body(h, messages, o))
  }

  // ---------------------------------------------------------------- what is protected

  predicate IsOpener(m: Message) {
    m.AssistantMessage? && m.toolCalls != []
  }

  /** The positions of the assistant messages with calls, in order. */
  function Openers(messages: seq<Message>): seq<nat> {
    if messages == [] then []
    else if IsOpener(messages[|messages| - 1]) then Openers(messages[..|messages| - 1]) + [|messages| - 1]
    else Openers(messages[..|messages| - 1])
  }

  /** Message `i` belongs to the step that message `a` opens: only tool results in between. */
  predicate Follows(messages: seq<Message>, a: nat, i: nat) {
    a < i < |messages| && forall j :: a < j <= i ==> messages[j].ToolMessage?
  }

  predicate InRecentStep(messages: seq<Message>, i: nat, k: nat) {
    k < |Openers(messages)| && k + RECENT_STEPS_TO_KEEP >= |Openers(messages)|
    && (i == Openers(messages)[k] || Follows(messages, Openers(messages)[k], i))
  }

  /** The last two logical steps. */
  predicate IsRecent(messages: seq<Message>, i: nat) {
    exists k: nat :: k < |Openers(messages)| && InRecentStep(messages, i, k)
  }

  predicate IsRead(m: Message, path: string) {
    m.ToolMessage? && m.isReadSuccess && m.filePath == Some(path)
  }

  /** The newest successful read of a file. */
  predicate IsLatestRead(messages: seq<Message>, i: nat) {
    && i < |messages| && messages[i].ToolMessage? && messages[i].isReadSuccess && messages[i].filePath.Some?
    && forall j :: i < j < |messages| ==> !IsRead(messages[j], messages[i].filePath.value)
  }

  predicate IsReplaceable(messages: seq<Message>, i: nat) {
    && i < |messages| && messages[i].ToolMessage? && messages[i].ok
    && !IsRecent(messages, i) && !IsLatestRead(messages, i)
  }

  function ReplaceableBelow(messages: seq<Message>, n: nat): (r: seq<nat>)
    ensures forall i: nat :: i in r <==> i < n && IsReplaceable(messages, i)
    ensures forall a, b :: 0 <= a < b < |r| ==> r[a] < r[b]
  {
    if n == 0 then []
    else
      var r := ReplaceableBelow(messages, n - 1);
      assert forall a :: 0 <= a < |r| ==> r[a] in r;
      if IsReplaceable(messages, n - 1) then r + [n - 1] else r
  }

  /** The replaceable results, oldest first. */
  function Replaceable(messages: seq<Message>): seq<nat> {
    ReplaceableBelow(messages, |messages|)
  }

  // ---------------------------------------------------------------- compaction

  function Marked(h: Host, m: Message): Provider
    requires m.ToolMessage?
  {
    ToolView(m.toolCallId, h.marker(m))
  }

  function Markers(h: Host, messages: seq<Message>, r: seq<nat>): Overrides {
    map i: nat | i in r && i < |messages| && messages[i].ToolMessage? :: Marked(h, messages[i])
  }

  /** The first number of reductions, from `k` on and up to `n`, whose result is within the budget. */
  function FirstWithin(cost: nat -> nat, budget: nat, n: nat, k: nat): (r: nat)
    requires k <= n
    ensures k <= r <= n
    decreases n - k
  {
    if k == n || cost(k) <= budget then k else FirstWithin(cost, budget, n, k + 1)
  }

  function MarkersUpTo(c: Config, messages: seq<Message>, k: nat): Overrides
    requires k <= |Replaceable(messages)|
  {
    Markers(c.host, messages, Replaceable(messages)[..k])
  }

  /** The size of the view with the first results compacted. */
  function MarkedCost(c: Config, messages: seq<Message>, prefix: string): nat -> nat {
    (k: nat) => if k <= |Replaceable(messages)| then Count(c.host, messages, MarkersUpTo(c, messages, k), prefix) else 0
  }

  /** Phase 1 stops at the first number of compacted results that fits. */
  function FirstFit(c: Config, messages: seq<Message>, prefix: string): nat {
    FirstWithin(MarkedCost(c, messages, prefix), c.charBudget, |Replaceable(messages)|, 0)
  }

  function CutReasoning(reasoning: Option<string>): Option<string> {
    if Length(reasoning) > MAX_REASONING_CHARS then Some(reasoning.value[..MAX_REASONING_CHARS] + REASONING_CUT)
    else reasoning
  }

  function CutText(text: string): Option<string> {
    if text == "" then None
    else if |text| > MAX_ASSISTANT_TEXT_CHARS then Some(text[..MAX_ASSISTANT_TEXT_CHARS] + TEXT_CUT)
    else Some(text)
  }

  /** Bounded text and reasoning; calls and continuations stay, and nothing changes below the bounds. */
  function Shortened(m: Message): Provider
    requires m.AssistantMessage?
  {
    AssistantView(CutText(m.text), CutReasoning(m.reasoning), m.continuations, m.toolCalls)
  }

  predicate CanShorten(m: Message) {
    m.AssistantMessage? && (Length(m.reasoning) > MAX_REASONING_CHARS || |m.text| > MAX_ASSISTANT_TEXT_CHARS)
  }

  function Saving(h: Host, m: Message): nat {
    if !CanShorten(m) then 0
    else if h.size(ToProvider(h, m, false)) <= h.size(Shortened(m)) then 0
    else h.size(ToProvider(h, m, false)) - h.size(Shortened(m))
  }

  predicate IsCandidate(messages: seq<Message>, i: nat) {
    i < |messages| && messages[i].AssistantMessage? && !IsRecent(messages, i)
  }

  function CandidatesBelow(messages: seq<Message>, n: nat): (r: seq<nat>)
    ensures forall k :: 0 <= k < |r| ==> r[k] < n
    ensures forall i: nat :: i in r <==> i < n && IsCandidate(messages, i)
  {
    if n == 0 then []
    else if IsCandidate(messages, n - 1) then CandidatesBelow(messages, n - 1) + [n - 1]
    else CandidatesBelow(messages, n - 1)
  }

  /** The order of phase 3: the largest saving first, the older message first among equals. */
  function InsertBySaving(h: Host, messages: seq<Message>, sorted: seq<nat>, i: nat): (r: seq<nat>)
    requires i < |messages| && forall k :: 0 <= k < |sorted| ==> sorted[k] < |messages|
    ensures forall k :: 0 <= k < |r| ==> r[k] < |messages|
    ensures forall j: nat :: j in r <==> j in sorted || j == i
  {
    if sorted == [] then [i]
    else
      var init, last := sorted[..|sorted| - 1], sorted[|sorted| - 1];
      assert sorted == init + [last];
      if Saving(h, messages[last]) >= Saving(h, messages[i]) then sorted + [i]
      else InsertBySaving(h, messages, init, i) + [last]
  }

  function SortBySaving(h: Host, messages: seq<Message>, r: seq<nat>): (sorted: seq<nat>)
    requires forall k :: 0 <= k < |r| ==> r[k] < |messages|
    ensures forall k :: 0 <= k < |sorted| ==> sorted[k] < |messages|
    ensures forall j: nat :: j in sorted <==> j in r
  {
    if r == [] then []
    else
      assert r == r[..|r| - 1] + [r[|r| - 1]];
      InsertBySaving(h, messages, SortBySaving(h, messages, r[..|r| - 1]), r[|r| - 1])
  }

  function Candidates(h: Host, messages: seq<Message>): (r: seq<nat>)
    ensures forall i: nat :: i in r <==> IsCandidate(messages, i)
    ensures AllAssistants(messages, r)
  {
    var r := CandidatesBelow(messages, |messages|);
    var sorted := SortBySaving(h, messages, r);
    assert forall k :: 0 <= k < |sorted| ==> sorted[k] in sorted && IsCandidate(messages, sorted[k]);
    sorted
  }

  predicate AllAssistants(messages: seq<Message>, r: seq<nat>) {
    forall k :: 0 <= k < |r| ==> r[k] < |messages| && messages[r[k]].AssistantMessage?
  }

  /** Phase 3 shortens candidates, while the view is over budget, and skips those that save nothing. */
  function ShortenWhileOver(c: Config, messages: seq<Message>, o: Overrides, candidates: seq<nat>,
                            prefix: string): Overrides
    requires AllAssistants(messages, candidates)
    decreases |candidates|
  {
    if candidates == [] || Count(c.host, messages, o, prefix) <= c.charBudget then o
    else if Saving(c.host, messages[candidates[0]]) == 0 then
      ShortenWhileOver(c, messages, o, candidates[1..], prefix)
    else
      ShortenWhileOver(c, messages, o[candidates[0] := Shortened(messages[candidates[0]])], candidates[1..], prefix)
  }

  // ---------------------------------------------------------------- the request

  datatype Metric = InputChars | RequestBytes | EstimatedTokens

  datatype Overflow = Overflow(metric: Metric, count: nat, budget: nat)

  datatype RequestView = RequestView(messages: seq<Provider>, charCount: nat, tokens: nat, bytes: nat,
                                     memory: Option<string>)

  /** The overrides and the memory block that a request ends up with. */
  datatype Choice = Choice(overrides: Overrides, prefix: string)

  function Chosen(c: Config, messages: seq<Message>, prefix: string): Choice {
    var o := MarkersUpTo(c, messages, FirstFit(c, messages, prefix));
    if Count(c.host, messages, o, prefix) <= c.charBudget then Choice(o, prefix)
    else if prefix != "" && Count(c.host, messages, o, "") <= c.charBudget then Choice(o, "")
    else Choice(ShortenWhileOver(c, messages, o, Candidates(c.host, messages), prefix), prefix)
  }

  /** A view over any of the three limits is refused. */
  function Checked(c: Config, view: seq<Provider>, memory: Option<string>): Result<RequestView, Overflow> {
    if CharsOf(c.host, view) > c.charBudget then Err(Overflow(InputChars, CharsOf(c.host, view), c.charBudget))
    else if c.host.bytes(view) > c.byteBudget then Err(Overflow(RequestBytes, c.host.bytes(view), c.byteBudget))
    else if c.tokenBudget.Some? && c.host.tokens(view) > c.tokenBudget.value then
      Err(Overflow(EstimatedTokens, c.host.tokens(view), c.tokenBudget.value))
    else Ok(RequestView(view, CharsOf(c.host, view), c.host.tokens(view), c.host.bytes(view), memory))
  }

  function Build(c: Config, messages: seq<Message>, memory: Option<string>): Result<RequestView, Overflow> {
    var choice := Chosen(c, messages, memory.GetOr(""));
    Checked(c, Rendered(c.host, messages, choice.overrides, choice.prefix),
            if choice.prefix == memory.GetOr("") then memory else None)
  }
}
