/** What a request view shows of each message, and that it keeps the call/result protocol. */
module ContextViews {
  import opened Results
  import opened Messages
  import opened Context
  import opened ContextLaws

  /** A message is shown in full, as the marker of an old result, or as a shortened old assistant message. */
  ghost predicate ShownAs(h: Host, messages: seq<Message>, i: nat, p: Provider)
    requires i < |messages|
  {
    var full := ToProvider(h, messages[i], i == LatestAttachment(messages));
    || p == full
    || (IsReplaceable(messages, i) && p == Marked(h, messages[i]))
    || (IsCandidate(messages, i) && p == Shortened(messages[i]) && h.size(p) < h.size(full))
  }

  ghost predicate ReductionsOnly(h: Host, messages: seq<Message>, o: Overrides) {
    forall i: nat :: i in o ==> i < |messages| && ShownAs(h, messages, i, o[i])
  }

  lemma MarkersReduce(c: Config, messages: seq<Message>, k: nat)
    requires k <= |Replaceable(messages)|
    ensures ReductionsOnly(c.host, messages, MarkersUpTo(c, messages, k))
  {
    forall i: nat | i in MarkersUpTo(c, messages, k)
      ensures i < |messages| && ShownAs(c.host, messages, i, MarkersUpTo(c, messages, k)[i]) {
      assert i in Replaceable(messages);
    }
  }

  lemma ShortsReduce(c: Config, messages: seq<Message>, j: nat)
    requires j <= |Candidates(c.host, messages)|
    ensures ReductionsOnly(c.host, messages, ShortenedUpTo(c, messages, j))
  {
    MarkersReduce(c, messages, |Replaceable(messages)|);
    var o := ShortenedUpTo(c, messages, j);
    var shorts := Shorts(c.host, messages, Candidates(c.host, messages)[..j]);
    forall i: nat | i in o ensures i < |messages| && ShownAs(c.host, messages, i, o[i]) {
      if i in shorts {
        assert i in Candidates(c.host, messages);
        assert ToProvider(c.host, messages[i], true) == ToProvider(c.host, messages[i], false);
      }
    }
  }

  lemma ChosenReduces(c: Config, messages: seq<Message>, prefix: string)
    ensures ReductionsOnly(c.host, messages, Chosen(c, messages, prefix).overrides)
  {
    NoFurtherThanNeeded(c, messages, prefix);
    MarkersReduce(c, messages, FirstFit(c, messages, prefix));
    ShortsReduce(c, messages, FirstShort(c, messages, prefix));
  }

  /** The memory block, if it stayed, takes one place in front. */
  function Front(v: RequestView): nat {
    if v.memory.GetOr("") == "" then 0 else 1
  }

  /** The part of the view that shows the conversation. */
  function Shown(v: RequestView): seq<Provider> {
    if Front(v) == 1 && v.messages != [] then v.messages[1..] else v.messages
  }

  lemma ViewParts(c: Config, messages: seq<Message>, memory: Option<string>)
    requires Build(c, messages, memory).Ok?
    ensures var v := Build(c, messages, memory).value;
      && (v.memory == memory || v.memory == None)
      && v.messages == Rendered(c.host, messages, Chosen(c, messages, memory.GetOr("")).overrides, v.memory.GetOr(""))
      && Shown(v) == Body(c.host, messages, Chosen(c, messages, memory.GetOr("")).overrides)
  {}

  /**
   Every accepted view is within all three limits and shows every message in its place, after at most the
   memory block.
   */
  lemma ViewShowsAll(c: Config, messages: seq<Message>, memory: Option<string>)
    requires Build(c, messages, memory).Ok?
    ensures var v := Build(c, messages, memory).value;
      && v.charCount == CharsOf(c.host, v.messages) <= c.charBudget
      && v.bytes == c.host.bytes(v.messages) <= c.byteBudget
      && v.tokens == c.host.tokens(v.messages) && (c.tokenBudget.Some? ==> v.tokens <= c.tokenBudget.value)
      && (v.memory == memory || v.memory == None)
      && v.messages == (if Front(v) == 1 then [SystemView(memory.GetOr(""))] + Shown(v) else Shown(v))
      && |Shown(v)| == |messages|
      && forall i: nat :: i < |messages| ==> ShownAs(c.host, messages, i, Shown(v)[i])
  {
    ViewParts(c, messages, memory);
    ChosenReduces(c, messages, memory.GetOr(""));
    BodyShowsAll(c.host, messages, Chosen(c, messages, memory.GetOr("")).overrides);
  }

  lemma BodyShowsAll(h: Host, messages: seq<Message>, o: Overrides)
    requires ReductionsOnly(h, messages, o)
    ensures forall i: nat :: i < |messages| ==> ShownAs(h, messages, i, Body(h, messages, o)[i])
  {}

  /** System and user messages, errors, the latest read of a file and the last two steps. */
  predicate IsProtected(messages: seq<Message>, i: nat)
    requires i < |messages|
  {
    || messages[i].SystemMessage? || messages[i].UserMessage?
    || (messages[i].ToolMessage? && !messages[i].ok)
    || IsLatestRead(messages, i) || IsRecent(messages, i)
  }

  /** Protected messages are shown in full, whatever had to give way. */
  lemma ProtectedStays(c: Config, messages: seq<Message>, memory: Option<string>, i: nat)
    requires Build(c, messages, memory).Ok? && i < |messages| && IsProtected(messages, i)
    ensures var v := Build(c, messages, memory).value;
      |Shown(v)| == |messages| && Shown(v)[i] == ToProvider(c.host, messages[i], i == LatestAttachment(messages))
  {
    ViewShowsAll(c, messages, memory);
    var v := Build(c, messages, memory).value;
    assert ShownAs(c.host, messages, i, Shown(v)[i]);
  }

  // ---------------------------------------------------------------- the protocol

  /** The role, calls and call id that a provider sees. */
  function AsMessage(p: Provider): Message {
    match p
    case SystemView(content) => SystemMessage(content)
    case UserView(content) => UserMessage(content, "user", [])
    case UserParts(_) => UserMessage("", "user", [])
    case AssistantView(text, reasoning, continuations, calls) => AssistantMessage(text.GetOr(""), calls, reasoning,
        continuations)
    case ToolView(callId, content) => ToolMessage(callId, content, "", true, "", false, None)
  }

  function AsMessages(view: seq<Provider>): (h: seq<Message>)
    ensures |h| == |view| && forall i :: 0 <= i < |view| ==> h[i] == AsMessage(view[i])
  {
    seq(|view|, i requires 0 <= i < |view| => AsMessage(view[i]))
  }

  predicate SameProtocol(a: Message, b: Message) {
    && a.SystemMessage? == b.SystemMessage? && a.UserMessage? == b.UserMessage? && a.ToolMessage? == b.ToolMessage?
    && (a.AssistantMessage? && b.AssistantMessage? ==> a.toolCalls == b.toolCalls && a.continuations == b.continuations)
    && (a.ToolMessage? && b.ToolMessage? ==> a.toolCallId == b.toolCallId)
  }

  lemma {:induction false} SameAwaited(a: seq<Message>, b: seq<Message>)
    requires |a| == |b| && forall i :: 0 <= i < |a| ==> SameProtocol(a[i], b[i])
    ensures Awaited(a) == Awaited(b)
  {
    if a != [] {
      SameAwaited(a[..|a| - 1], b[..|b| - 1]);
      assert SameProtocol(a[|a| - 1], b[|b| - 1]);
    }
  }

  lemma {:induction false} SystemFirst(m: Message, h: seq<Message>)
    requires m.SystemMessage?
    ensures Awaited([m] + h) == Awaited(h)
    decreases |h|
  {
    if h == [] {
      assert [m] + h == [] + [m];
      AwaitedSnoc([], m);
    } else {
      SystemFirst(m, h[..|h| - 1]);
      assert [m] + h == [m] + h[..|h| - 1] + [h[|h| - 1]];
      AwaitedSnoc([m] + h[..|h| - 1], h[|h| - 1]);
    }
  }

  lemma ShownKeepsProtocol(h: Host, messages: seq<Message>, i: nat, p: Provider)
    requires i < |messages| && ShownAs(h, messages, i, p)
    ensures SameProtocol(AsMessage(p), messages[i])
  {}

  lemma FrontIsSilent(view: seq<Provider>, rest: seq<Provider>, memory: string)
    requires view == [SystemView(memory)] + rest
    ensures Awaited(AsMessages(view)) == Awaited(AsMessages(rest))
  {
    assert AsMessages(view) == [SystemMessage(memory)] + AsMessages(rest);
    SystemFirst(SystemMessage(memory), AsMessages(rest));
  }

  lemma ShownIsAwaited(h: Host, messages: seq<Message>, view: seq<Provider>)
    requires |view| == |messages| && forall i: nat :: i < |messages| ==> ShownAs(h, messages, i, view[i])
    ensures forall i: nat :: i < |messages| ==> SameProtocol(AsMessages(view)[i], messages[i])
    ensures Awaited(AsMessages(view)) == Awaited(messages)
  {
    forall i: nat | i < |messages| ensures SameProtocol(AsMessages(view)[i], messages[i]) {
      ShownKeepsProtocol(h, messages, i, view[i]);
    }
    SameAwaited(AsMessages(view), messages);
  }

  /** Roles, call ids, calls and continuations survive, so a view is paired exactly when its conversation is. */
  lemma ViewKeepsProtocol(c: Config, messages: seq<Message>, memory: Option<string>)
    requires Build(c, messages, memory).Ok?
    ensures var v := Build(c, messages, memory).value;
      && |Shown(v)| == |messages|
      && (forall i: nat :: i < |messages| ==> SameProtocol(AsMessages(Shown(v))[i], messages[i]))
      && (WellGrouped(AsMessages(v.messages)) <==> WellGrouped(messages))
  {
    ViewShowsAll(c, messages, memory);
    var v := Build(c, messages, memory).value;
    ShownIsAwaited(c.host, messages, Shown(v));
    if Front(v) == 1 { FrontIsSilent(v.messages, Shown(v), memory.GetOr("")); }
    PairedIff(AsMessages(v.messages));
    PairedIff(messages);
  }
}
