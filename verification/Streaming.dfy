/** Stream events that no longer depend on a provider, and how they are gathered into one assistant turn. */
module Streaming {
  import opened Results
  import opened Messages

  /** A missing string and an empty one mean the same to the program; both are "" here. */
  datatype Neutral =
    | StreamStarted
    | TextDelta(index: int, delta: string)
    | ReasoningDelta(index: int, delta: string)
    | SummaryDelta(index: int, part: int, delta: string)
    | ToolCallStarted(index: int, tool: int, callId: string, name: string)
    | ArgumentsDelta(index: int, tool: int, delta: string)
    | RefusalDelta(index: int, delta: string)
    | UsageReceived
    | ContinuationReceived(continuation: ProviderContinuation)
    | StreamCompleted(reason: string)
    | StreamFailed(retryable: bool)

  datatype Failure = Failure(retryable: bool)

  datatype Draft = Draft(callId: string, name: string, arguments: string)

  type Key = (nat, nat)

  /** The buffers of the accumulator: fragments are kept joined, and text and reasoning use part 0 of their output. */
  datatype Buffers = Buffers(
    text: map<Key, string>, reasoning: map<Key, string>, summary: map<Key, string>,
    tools: map<Key, Draft>, toolOrder: seq<Key>, refusal: string, continuations: seq<ProviderContinuation>,
    reason: Option<string>, started: bool, completed: bool, hasOutput: bool)

  const EMPTY := Buffers(map[], map[], map[], map[], [], "", [], None, false, false, false)

  datatype Turn = Turn(text: string, toolCalls: seq<ToolCall>, reasoning: Option<string>,
                       continuations: seq<ProviderContinuation>)

  function Appended<K>(m: map<K, string>, k: K, s: string): map<K, string> {
    m[k := (if k in m then m[k] else "") + s]
  }

  function At<K>(m: map<K, string>, k: K): string {
    if k in m then m[k] else ""
  }

  /** The first of two strings that is not empty. */
  function Or(a: string, b: string): string {
    if a != "" then a else b
  }

  function OpenTool(b: Buffers, key: Key, callId: string, name: string): Result<Buffers, Failure> {
    if key !in b.tools then
      Ok(b.(tools := b.tools[key := Draft(callId, name, "")], toolOrder := b.toolOrder + [key], hasOutput := true))
    else
      var d := b.tools[key];
      if (callId != "" && d.callId != "" && callId != d.callId) || (name != "" && d.name != "" && name != d.name) then
        Err(Failure(false))
      else Ok(b.(tools := b.tools[key := Draft(Or(d.callId, callId), Or(d.name, name), d.arguments)],
                 hasOutput := true))
  }

  function AddArguments(b: Buffers, key: Key, delta: string): Result<Buffers, Failure> {
    if key !in b.tools then Err(Failure(false))
    else
      var d := b.tools[key];
      Ok(b.(tools := b.tools[key := d.(arguments := d.arguments + delta)], hasOutput := true))
  }

  function AddContinuation(b: Buffers, c: ProviderContinuation): Result<Buffers, Failure> {
    if c.itemId == "" || c.encryptedContent == "" then Err(Failure(false))
    else Ok(b.(continuations := b.continuations + [c]))
  }

  /** One event: only between start and completion, with valid indexes. */
  function Absorb(b: Buffers, e: Neutral): Result<Buffers, Failure> {
    if b.completed then Err(Failure(false))
    else if e.StreamStarted? then if b.started then Err(Failure(false)) else Ok(b.(started := true))
    else if !b.started then Err(Failure(false))
    else
      match e
      case TextDelta(i, delta) =>
        if i < 0 then Err(Failure(false)) else Ok(b.(text := Appended(b.text, (i as nat, 0), delta), hasOutput := true))
      case ReasoningDelta(i, delta) =>
        if i < 0 then Err(Failure(false))
        else Ok(b.(reasoning := Appended(b.reasoning, (i as nat, 0), delta), hasOutput := true))
      case SummaryDelta(i, k, delta) =>
        if i < 0 || k < 0 then Err(Failure(false))
        else Ok(b.(summary := Appended(b.summary, (i as nat, k as nat), delta), hasOutput := true))
      case ToolCallStarted(i, t, callId, name) =>
        if i < 0 || t < 0 then Err(Failure(false)) else OpenTool(b, (i as nat, t as nat), callId, name)
      case ArgumentsDelta(i, t, delta) =>
        if i < 0 || t < 0 then Err(Failure(false)) else AddArguments(b, (i as nat, t as nat), delta)
      case RefusalDelta(i, delta) =>
        if i < 0 then Err(Failure(false)) else Ok(b.(refusal := b.refusal + delta, hasOutput := true))
      case UsageReceived => Ok(b)
      case ContinuationReceived(c) => AddContinuation(b, c)
      case StreamCompleted(reason) =>
        if reason !in {"stop", "tool_calls", "refusal"} then Err(Failure(false))
        else Ok(b.(reason := Some(reason), completed := true))
      case StreamFailed(retryable) => Err(Failure(retryable))
  }

  function AbsorbAll(b: Buffers, events: seq<Neutral>): Result<Buffers, Failure>
    decreases |events|
  {
    if events == [] then Ok(b)
    else
      var r := Absorb(b, events[0]);
      if r.Ok? then AbsorbAll(r.value, events[1..]) else r
  }

  // ---------------------------------------------------------------- the turn

  predicate Less(a: Key, b: Key) {
    a.0 < b.0 || (a.0 == b.0 && a.1 < b.1)
  }

  predicate Ordered(keys: seq<Key>) {
    forall i, j :: 0 <= i < j < |keys| ==> Less(keys[i], keys[j])
  }

  function InsertKey(sorted: seq<Key>, k: Key): seq<Key> {
    if sorted == [] || Less(sorted[|sorted| - 1], k) then sorted + [k]
    else InsertKey(sorted[..|sorted| - 1], k) + [sorted[|sorted| - 1]]
  }

  /** The buffers joined in the order of their keys. */
  function Joined(m: map<Key, string>, keys: seq<Key>): string {
    if keys == [] then "" else Joined(m, keys[..|keys| - 1]) + At(m, keys[|keys| - 1])
  }

  /** The elements of a set in order. */
  ghost predicate Lists(keys: seq<Key>, s: set<Key>) {
    Ordered(keys) && forall k: Key :: k in keys <==> k in s
  }

  lemma {:induction false} InsertLists(sorted: seq<Key>, s: set<Key>, k: Key)
    requires Lists(sorted, s) && k !in s
    ensures Lists(InsertKey(sorted, k), s + {k})
    decreases |sorted|
  {
    if sorted != [] && !Less(sorted[|sorted| - 1], k) {
      var init, last := sorted[..|sorted| - 1], sorted[|sorted| - 1];
      assert sorted == init + [last] && last in sorted;
      forall x: Key ensures x in init <==> x in s - {last} { assert x in init ==> Less(x, last); }
      InsertLists(init, s - {last}, k);
      var r := InsertKey(init, k);
      forall x: Key | x in r ensures Less(x, last) { assert x in init ==> Less(x, last); }
    } else {
      forall x: Key | x in sorted ensures Less(x, k) {
        assert x == sorted[|sorted| - 1] || Less(x, sorted[|sorted| - 1]);
      }
    }
  }

  ghost function Listing(s: set<Key>): (keys: seq<Key>)
    ensures Lists(keys, s)
  {
    if s == {} then []
    else
      var k :| k in s;
      InsertLists(Listing(s - {k}), s - {k}, k);
      assert s - {k} + {k} == s;
      InsertKey(Listing(s - {k}), k)
  }

  lemma {:induction false} ListsSize(a: seq<Key>, s: set<Key>)
    requires Lists(a, s)
    ensures |a| == |s|
    decreases |a|
  {
    if a == [] {
      assert s == {};
    } else {
      LastIsGreatest(a, s);
      InitLists(a, s);
      ListsSize(a[..|a| - 1], s - {a[|a| - 1]});
    }
  }

  lemma {:induction false} ListingIsUnique(a: seq<Key>, b: seq<Key>, s: set<Key>)
    requires Lists(a, s) && Lists(b, s)
    ensures a == b
    decreases |a|
  {
    ListsSize(a, s);
    ListsSize(b, s);
    if a != [] {
      LastIsGreatest(a, s);
      LastIsGreatest(b, s);
      var last := a[|a| - 1];
      InitLists(a, s);
      InitLists(b, s);
      ListingIsUnique(a[..|a| - 1], b[..|b| - 1], s - {last});
      assert a == a[..|a| - 1] + [last] && b == b[..|b| - 1] + [last];
    }
  }

  lemma LastIsGreatest(a: seq<Key>, s: set<Key>)
    requires Lists(a, s) && a != []
    ensures a[|a| - 1] in s && forall k :: k in s ==> k == a[|a| - 1] || Less(k, a[|a| - 1])
  {
    assert a[|a| - 1] in a;
  }

  lemma InitLists(a: seq<Key>, s: set<Key>)
    requires Lists(a, s) && a != []
    ensures Lists(a[..|a| - 1], s - {a[|a| - 1]})
  {
    var init, last := a[..|a| - 1], a[|a| - 1];
    assert a == init + [last];
    forall k: Key ensures k in init <==> k in s - {last} { assert k in init ==> Less(k, last); }
  }

  function CallOf(d: Draft): ToolCall {
    ToolCall(d.callId, d.name, if d.arguments == "" then "{}" else d.arguments)
  }

  /** The calls in order of their keys; every one needs an id and a name. */
  function CallsOf(tools: map<Key, Draft>, keys: seq<Key>): Result<seq<ToolCall>, Failure> {
    if keys == [] then Ok([])
    else
      var rest := CallsOf(tools, keys[..|keys| - 1]);
      var key := keys[|keys| - 1];
      if rest.Err? || key !in tools then rest
      else if tools[key].callId == "" || tools[key].name == "" then Err(Failure(false))
      else Ok(rest.value + [CallOf(tools[key])])
  }

  function NonEmpty(s: string): Option<string> {
    if s == "" then None else Some(s)
  }

  /** The turn of a completed stream: text and calls in the order of their outputs, never an empty answer. */
  ghost function ToTurn(b: Buffers, blank: string -> bool): Result<Turn, Failure> {
    if !b.completed || b.reason.None? then Err(Failure(false))
    else if b.reason.value == "tool_calls" && b.tools == map[] then Err(Failure(false))
    else
      var calls := CallsOf(b.tools, Listing(b.tools.Keys));
      var text := Joined(b.text, Listing(b.text.Keys));
      if calls.Err? then Err(calls.error)
      else if b.reason.value != "refusal" && calls.value == [] && blank(text) && b.refusal == "" then
        Err(Failure(false))
      else
        var reasoning := Or(Joined(b.reasoning, Listing(b.reasoning.Keys)), Joined(b.summary, Listing(b.summary.Keys)));
        Ok(Turn(Or(text, b.refusal), calls.value, NonEmpty(reasoning), b.continuations))
  }

  // ---------------------------------------------------------------- what the accumulator guarantees

  /** Every turn that is accepted carries only complete continuations, calls with ids and names, and arguments. */
  ghost predicate Complete(t: Turn) {
    && (forall i :: 0 <= i < |t.continuations| ==>
        t.continuations[i].itemId != "" && t.continuations[i].encryptedContent != "")
    && (forall i :: 0 <= i < |t.toolCalls| ==>
        t.toolCalls[i].id != "" && t.toolCalls[i].name != "" && t.toolCalls[i].argumentsRaw != "")
    && t.reasoning != Some("")
  }

  ghost predicate ContinuationsOk(b: Buffers) {
    forall i :: 0 <= i < |b.continuations| ==>
        b.continuations[i].itemId != "" && b.continuations[i].encryptedContent != ""
  }

  lemma {:induction false} AbsorbKeepsContinuations(b: Buffers, events: seq<Neutral>)
    requires ContinuationsOk(b)
    ensures AbsorbAll(b, events).Ok? ==> ContinuationsOk(AbsorbAll(b, events).value)
    decreases |events|
  {
    if events != [] && Absorb(b, events[0]).Ok? { AbsorbKeepsContinuations(Absorb(b, events[0]).value, events[1..]); }
  }

  lemma {:induction false} CallsAreComplete(tools: map<Key, Draft>, keys: seq<Key>)
    requires CallsOf(tools, keys).Ok?
    ensures forall i :: 0 <= i < |CallsOf(tools, keys).value| ==>
      var c := CallsOf(tools, keys).value[i]; c.id != "" && c.name != "" && c.argumentsRaw != ""
  {
    if keys != [] {
      var rest := CallsOf(tools, keys[..|keys| - 1]);
      if rest.Ok? { CallsAreComplete(tools, keys[..|keys| - 1]); }
    }
  }

  /** Whatever a stream contains, a turn made from it is complete. */
  lemma TurnsAreComplete(events: seq<Neutral>, blank: string -> bool)
    requires AbsorbAll(EMPTY, events).Ok? && ToTurn(AbsorbAll(EMPTY, events).value, blank).Ok?
    ensures Complete(ToTurn(AbsorbAll(EMPTY, events).value, blank).value)
  {
    var b := AbsorbAll(EMPTY, events).value;
    AbsorbKeepsContinuations(EMPTY, events);
    CallsAreComplete(b.tools, Listing(b.tools.Keys));
  }
}
