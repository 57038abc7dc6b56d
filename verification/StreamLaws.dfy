/** What the pipe makes of a stream whose events fit the items of a turn. */
module StreamLaws {
  import opened Results
  import opened Messages
  import opened Streaming
  import opened Responses

  /** What the model says at one output index; items of other kinds are let pass. */
  datatype Content =
    | Says(text: string, refusal: string)
    | Calls(id: string, callId: string, name: string, arguments: string)
    | Thinks(id: string, encrypted: string, summary: seq<string>)
    | Other

  predicate WellFormed(t: seq<Content>) {
    forall i :: 0 <= i < |t| && t[i].Calls? ==> Or(t[i].id, t[i].callId) != "" && t[i].name != ""
  }

  /**
   How far the delivery of one item is: `sent` is what has been handed on, `streamed` what deltas brought of each
   part.
   */
  datatype Progress = Progress(started: bool, sent: string, streamed: map<nat, string>, refused: string, done: bool)

  const FRESH := Progress(false, "", map[], "", false)

  function KeyOf(c: Content): string
    requires c.Calls?
  {
    Or(c.id, c.callId)
  }

  function IdentityOf(c: Content): (string, string)
    requires c.Calls?
  {
    (Or(c.callId, c.id), c.name)
  }

  function Whole(c: Content): string
    requires c.Says? || c.Calls?
  {
    if c.Says? then c.text else c.arguments
  }

  function Part(summary: seq<string>, k: nat): string {
    if k < |summary| then summary[k] else ""
  }

  /** A chunk has to continue what was sent. */
  function Chunk(pr: Progress, c: Content, delta: string): Option<Progress>
    requires c.Says? || c.Calls?
  {
    if pr.sent + delta <= Whole(c) then Some(pr.(sent := pr.sent + delta)) else None
  }

  /** A chunk of a summary has to continue its own part, unless the summary has no such part; it is sent right away. */
  function SummaryChunk(pr: Progress, c: Content, k: nat, delta: string): Option<Progress>
    requires c.Thinks?
  {
    if k < |c.summary| ==> At(pr.streamed, k) + delta <= c.summary[k] then
      Some(pr.(sent := pr.sent + delta, streamed := Appended(pr.streamed, k, delta)))
    else None
  }

  function RefusalChunk(pr: Progress, c: Content, delta: string): Option<Progress>
    requires c.Says?
  {
    if pr.refused + delta <= c.refusal then Some(pr.(refused := pr.refused + delta)) else None
  }

  /** The events that may deliver an item, each item done at most once; nothing may follow its final object. */
  function Advance(pr: Progress, c: Content, e: Event): Option<Progress> {
    if pr.done then None
    else
      match e
      case ItemAdded(_, item) =>
        if c.Calls? then
          if item.FunctionCall? && !pr.started && ItemId(item) == KeyOf(c) && Identity(item) == IdentityOf(c) then
            Some(pr.(started := true))
          else None
        else if item.FunctionCall? then None
        else Some(pr)
      case OutputText(_, delta) =>
        if delta.None? then Some(pr) else if c.Says? then Chunk(pr, c, delta.value) else None
      case Refusal(_, delta) =>
        if delta.None? then Some(pr) else if c.Says? then RefusalChunk(pr, c, delta.value) else None
      case SummaryText(_, k, delta) =>
        if delta.None? then Some(pr) else if c.Thinks? then SummaryChunk(pr, c, k, delta.value) else None
      case CallArguments(_, itemId, delta) =>
        if c.Calls? && pr.started && itemId == KeyOf(c) && delta.Some? then Chunk(pr, c, delta.value) else None
      case ItemDone(_, item) => if FinalOk(pr, c, item) then Some(Finished(pr, c)) else None
      case _ => None
  }

  function Finished(pr: Progress, c: Content): Progress {
    if c.Says? || c.Calls? then pr.(sent := Whole(c), done := true) else pr.(done := true)
  }

  /** The final object is that of the item, and whatever was streamed of a text, a call or a part was streamed whole. */
  predicate FinalOk(pr: Progress, c: Content, item: Item) {
    match c
    case Says(text, refusal) =>
      pr.sent in {"", text} && item.MessageItem? && Concat(item.texts) == text && Concat(item.refusals) == refusal
    case Calls(_, _, _, arguments) =>
      && pr.sent in {"", arguments}
      && item.FunctionCall? && pr.started && ItemId(item) == KeyOf(c) && Identity(item) == IdentityOf(c)
      && (item.arguments == Some(arguments) || (item.arguments == None && pr.sent == arguments))
    case Thinks(id, encrypted, summary) => item == Reasoning(id, encrypted, summary) && PartsFit(pr, summary)
    case Other => item.OtherItem?
  }

  predicate PartsFit(pr: Progress, summary: seq<string>) {
    forall k: nat :: k < |summary| ==> At(pr.streamed, k) == "" || At(pr.streamed, k) == summary[k]
  }

  function IndexOf(e: Event): Option<nat> {
    match e
    case ItemAdded(i, _) => Some(i)
    case ItemDone(i, _) => Some(i)
    case CallArguments(i, _, _) => Some(i)
    case OutputText(i, _) => Some(i)
    case SummaryText(i, _, _) => Some(i)
    case Refusal(i, _) => Some(i)
    case _ => None
  }

  /** The progress of all items, as long as every event fits its own item. */
  function Track(t: seq<Content>, events: seq<Event>): (r: Option<seq<Progress>>)
    ensures r.Some? ==> |r.value| == |t|
  {
    if events == [] then Some(seq(|t|, _ => FRESH))
    else
      var ps := Track(t, events[..|events| - 1]);
      if ps.None? then None else TrackOne(t, ps.value, events[|events| - 1])
  }

  function TrackOne(t: seq<Content>, ps: seq<Progress>, e: Event): (r: Option<seq<Progress>>)
    requires |ps| == |t|
    ensures r.Some? ==> |r.value| == |t|
  {
    if e.OtherEvent? then Some(ps)
    else
      var i := IndexOf(e);
      if i.None? || i.value >= |t| then None
      else
        var next := Advance(ps[i.value], t[i.value], e);
        if next.None? then None else Some(ps[i.value := next.value])
  }

  /**
   A text or call has arrived; a refusal may be left to the final object, and a thought needs its own for the
   continuation.
   */
  predicate Delivered(c: Content, pr: Progress) {
    match c
    case Says(text, refusal) => pr.sent == text && (pr.done || pr.refused == refusal)
    case Calls(_, _, _, arguments) => pr.sent == arguments && pr.started
    case Thinks(_, _, _) => pr.done
    case Other => true
  }

  predicate Delivers(t: seq<Content>, events: seq<Event>) {
    var ps := Track(t, events);
    ps.Some? && forall i :: 0 <= i < |t| ==> Delivered(t[i], ps.value[i])
  }

  /** The continuations in the order in which their thoughts were finished. */
  function DoneOrder(events: seq<Event>): seq<ProviderContinuation> {
    if events == [] then []
    else
      var e := events[|events| - 1];
      if e.ItemDone? && e.item.Reasoning? && e.item.id != "" && e.item.encrypted != "" then
        DoneOrder(events[..|events| - 1])
        + [ProviderContinuation(WIRE_API, e.item.id, e.item.encrypted, e.item.summary)]
      else DoneOrder(events[..|events| - 1])
  }

  /** Everything that was streamed of refusals, in the order in which it arrived. */
  function RefusalHeard(events: seq<Event>): string {
    if events == [] then ""
    else
      var e := events[|events| - 1];
      if e.Refusal? && e.delta.Some? then RefusalHeard(events[..|events| - 1]) + e.delta.value
      else RefusalHeard(events[..|events| - 1])
  }

  // ---------------------------------------------------------------- the turn itself

  function TextOf(t: seq<Content>): string {
    if t == [] then "" else TextOf(t[..|t| - 1]) + if t[|t| - 1].Says? then t[|t| - 1].text else ""
  }

  function RefusalOf(t: seq<Content>): string {
    if t == [] then "" else RefusalOf(t[..|t| - 1]) + if t[|t| - 1].Says? then t[|t| - 1].refusal else ""
  }

  function SummaryOf(t: seq<Content>): string {
    if t == [] then "" else SummaryOf(t[..|t| - 1]) + if t[|t| - 1].Thinks? then Concat(t[|t| - 1].summary) else ""
  }

  function ToolCallOf(c: Content): ToolCall
    requires c.Calls?
  {
    ToolCall(IdentityOf(c).0, c.name, if c.arguments == "" then "{}" else c.arguments)
  }

  function CallsIn(t: seq<Content>): seq<ToolCall> {
    if t == [] then []
    else if t[|t| - 1].Calls? then CallsIn(t[..|t| - 1]) + [ToolCallOf(t[|t| - 1])]
    else CallsIn(t[..|t| - 1])
  }

  /** What the final object adds to one part: all of it when nothing of it was streamed. */
  function Late(summary: seq<string>, pr: Progress, k: nat): string {
    if pr.done && At(pr.streamed, k) == "" then Part(summary, k) else ""
  }

  function LateUpTo(summary: seq<string>, pr: Progress, n: nat): string {
    if n == 0 then "" else LateUpTo(summary, pr, n - 1) + Late(summary, pr, n - 1)
  }

  /** What is kept of a thought: its deltas in the order of their arrival, then the parts that were not streamed. */
  function Heard(summary: seq<string>, pr: Progress): string {
    pr.sent + LateUpTo(summary, pr, |summary|)
  }

  function ReasoningHeard(t: seq<Content>, ps: seq<Progress>): string
    requires |t| == |ps|
  {
    if t == [] then ""
    else
      var n := |t| - 1;
      ReasoningHeard(t[..n], ps[..n]) + if t[n].Thinks? then Heard(t[n].summary, ps[n]) else ""
  }

  /** The turn with a given refusal, reasoning and order of the continuations. */
  function Told(t: seq<Content>, refusal: string, reasoning: string, continuations: seq<ProviderContinuation>,
                blank: string -> bool): Result<Turn, Failure> {
    if CallsIn(t) == [] && blank(TextOf(t)) && refusal == "" then Err(Failure(false))
    else Ok(Turn(Or(TextOf(t), refusal), CallsIn(t), NonEmpty(reasoning), continuations))
  }

  // ---------------------------------------------------------------- what the pipe knows of each item

  ghost predicate TextLane(pr: Progress, streamed: map<Key, string>, text: map<Key, string>, i: nat) {
    At(text, (i, 0)) == pr.sent && (!pr.done ==> At(streamed, (i, 0)) == pr.sent)
  }

  /** The buffer of one part of a thought: all deltas are in the first one. */
  function BufferOf(summary: seq<string>, pr: Progress, k: nat): string {
    if k == 0 then pr.sent + Late(summary, pr, 0) else Late(summary, pr, k)
  }

  ghost predicate ThoughtLane(summary: seq<string>, pr: Progress, streamed: map<Key, string>, buffers: map<Key, string>,
                              i: nat) {
    && (!pr.done ==> forall k: nat :: At(streamed, (i, k)) == At(pr.streamed, k))
    && forall k: nat :: At(buffers, (i, k)) == BufferOf(summary, pr, k)
  }

  ghost predicate CallLane(c: Content, pr: Progress, a: Adapter, tools: map<Key, Draft>, i: nat)
    requires c.Calls?
  {
    var key := (i, KeyOf(c));
    if pr.started then
      && (i, 0) in tools && tools[(i, 0)] == Draft(IdentityOf(c).0, c.name, pr.sent)
      && key in a.tools && a.tools[key] == 0 && key in a.meta && a.meta[key] == IdentityOf(c)
      && (!pr.done ==> At(a.arguments, key) == pr.sent)
    else pr.sent == "" && !pr.done && i !in a.nextTool && key !in a.tools && (i, 0) !in tools
  }

  /** The state of the pipe for one item. */
  ghost predicate LaneOk(c: Content, pr: Progress, a: Adapter, b: Buffers, i: nat) {
    match c
    case Says(_, _) => TextLane(pr, a.text, b.text, i)
    case Thinks(_, _, summary) => ThoughtLane(summary, pr, a.summary, b.summary, i)
    case Calls(_, _, _, _) => CallLane(c, pr, a, b.tools, i)
    case Other => true
  }

  /** One buffer for a text, one for each part of a thought. */
  function Width(t: seq<Content>, i: nat): nat {
    if i < |t| && t[i].Thinks? && |t[i].summary| > 0 then |t[i].summary| else 1
  }

  /** Every buffer belongs to an item of its kind. */
  ghost predicate Confined(t: seq<Content>, b: Buffers) {
    && (forall k: Key :: k in b.text ==> k.1 == 0 && k.0 < |t| && t[k.0].Says?)
    && (forall k: Key :: k in b.summary ==> k.0 < |t| && t[k.0].Thinks? && k.1 < Width(t, k.0))
    && (forall k: Key :: k in b.tools ==> k.1 == 0 && k.0 < |t| && t[k.0].Calls?)
    && b.reasoning == map[] && b.started && !b.completed
  }

  ghost predicate InStep(t: seq<Content>, ps: seq<Progress>, p: Pipe) {
    && |ps| == |t| && Confined(t, p.buffers) && !p.adapter.completed
    && forall i: nat {:trigger ps[i]} :: i < |t| ==> LaneOk(t[i], ps[i], p.adapter, p.buffers, i)
  }

  lemma StartInStep(t: seq<Content>)
    ensures InStep(t, seq(|t|, _ => FRESH), OPEN)
  {}

  // ---------------------------------------------------------------- one event

  lemma AbsorbOne(b: Buffers, e: Neutral)
    ensures AbsorbAll(b, [e]) == Absorb(b, e)
  {
    assert Absorb(b, e).Ok? ==> AbsorbAll(Absorb(b, e).value, []) == Absorb(b, e);
  }

  lemma AbsorbFirst(b: Buffers, e: Neutral, rest: seq<Neutral>)
    ensures AbsorbAll(b, [e] + rest) == if Absorb(b, e).Ok? then AbsorbAll(Absorb(b, e).value, rest) else Absorb(b, e)
  {
    assert ([e] + rest)[1..] == rest;
  }

  lemma {:induction false} AbsorbConcat(b: Buffers, xs: seq<Neutral>, ys: seq<Neutral>)
    ensures AbsorbAll(b, xs + ys) ==
      if AbsorbAll(b, xs).Ok? then AbsorbAll(AbsorbAll(b, xs).value, ys) else AbsorbAll(b, xs)
    decreases |xs|
  {
    if xs == [] {
      assert xs + ys == ys;
    } else {
      assert (xs + ys)[1..] == xs[1..] + ys;
      if Absorb(b, xs[0]).Ok? { AbsorbConcat(Absorb(b, xs[0]).value, xs[1..], ys); }
    }
  }

  /** The continuations and the refusal after one more event. */
  function Continued(continuations: seq<ProviderContinuation>, e: Event): seq<ProviderContinuation> {
    if e.ItemDone? && e.item.Reasoning? && e.item.id != "" && e.item.encrypted != "" then
      continuations + [ProviderContinuation(WIRE_API, e.item.id, e.item.encrypted, e.item.summary)]
    else continuations
  }

  function Refused(refusal: string, e: Event): string {
    if e.Refusal? && e.delta.Some? then refusal + e.delta.value else refusal
  }

  /** The pipe accepts the event, is in step again, and has collected what belongs to no single item. */
  ghost predicate Moved(t: seq<Content>, ps: seq<Progress>, p: Pipe, e: Event) {
    var r := Feed(p, e);
    && r.Ok? && InStep(t, ps, r.value)
    && r.value.buffers.continuations == Continued(p.buffers.continuations, e)
    && r.value.buffers.refusal == Refused(p.buffers.refusal, e)
  }

  /** A step of one text touches only its own buffer. */
  lemma TextMoved(t: seq<Content>, ps: seq<Progress>, p: Pipe, i: nat, pr: Progress, q: Pipe)
    requires InStep(t, ps, p) && i < |t| && t[i].Says?
    requires q.adapter == p.adapter.(text := q.adapter.text)
    requires q.buffers == p.buffers.(text := q.buffers.text, hasOutput := q.buffers.hasOutput)
    requires forall k: Key :: k.0 != i ==>
      At(q.adapter.text, k) == At(p.adapter.text, k) && At(q.buffers.text, k) == At(p.buffers.text, k)
    requires forall k: Key :: k in q.buffers.text ==> k in p.buffers.text || k == (i, 0)
    requires TextLane(pr, q.adapter.text, q.buffers.text, i)
    ensures InStep(t, ps[i := pr], q)
  {
    forall j: nat | j < |t| && j != i ensures LaneOk(t[j], ps[j], q.adapter, q.buffers, j) {
      assert LaneOk(t[j], ps[j], p.adapter, p.buffers, j);
    }
  }

  lemma TextInStep(t: seq<Content>, ps: seq<Progress>, p: Pipe, i: nat, delta: string)
    requires InStep(t, ps, p) && i < |t| && t[i].Says? && !ps[i].done && Chunk(ps[i], t[i], delta).Some?
    ensures Moved(t, ps[i := Chunk(ps[i], t[i], delta).value], p, OutputText(i, Some(delta)))
  {
    var a := if delta == "" then p.adapter else p.adapter.(text := Appended(p.adapter.text, (i, 0), delta));
    var b := p.buffers.(text := Appended(p.buffers.text, (i, 0), delta), hasOutput := true);
    AbsorbOne(p.buffers, TextDelta(i, delta));
    assert Feed(p, OutputText(i, Some(delta))) == Ok(Pipe(a, b));
    assert LaneOk(t[i], ps[i], p.adapter, p.buffers, i);
    TextMoved(t, ps, p, i, Chunk(ps[i], t[i], delta).value, Pipe(a, b));
  }

  lemma RefusalInStep(t: seq<Content>, ps: seq<Progress>, p: Pipe, i: nat, delta: string)
    requires InStep(t, ps, p) && i < |t| && t[i].Says? && !ps[i].done && RefusalChunk(ps[i], t[i], delta).Some?
    ensures Moved(t, ps[i := RefusalChunk(ps[i], t[i], delta).value], p, Refusal(i, Some(delta)))
  {
    assert LaneOk(t[i], ps[i], p.adapter, p.buffers, i);
    AbsorbOne(p.buffers, RefusalDelta(i, delta));
    assert Feed(p, Refusal(i, Some(delta))) ==
        Ok(Pipe(p.adapter, p.buffers.(refusal := p.buffers.refusal + delta, hasOutput := true)));
  }

  /** A step of one thought touches only its own summary. */
  lemma ThoughtMoved(t: seq<Content>, ps: seq<Progress>, p: Pipe, i: nat, pr: Progress, q: Pipe)
    requires InStep(t, ps, p) && i < |t| && t[i].Thinks?
    requires q.adapter == p.adapter.(summary := q.adapter.summary)
    requires q.buffers == p.buffers.(summary := q.buffers.summary, continuations := q.buffers.continuations,
                                     hasOutput := q.buffers.hasOutput)
    requires forall k: Key :: k.0 != i ==>
      At(q.adapter.summary, k) == At(p.adapter.summary, k) && At(q.buffers.summary, k) == At(p.buffers.summary, k)
    requires forall k: Key :: k in q.buffers.summary ==> k in p.buffers.summary || (k.0 == i && k.1 < Width(t, i))
    requires ThoughtLane(t[i].summary, pr, q.adapter.summary, q.buffers.summary, i)
    ensures InStep(t, ps[i := pr], q)
  {
    forall j: nat | j < |t| && j != i ensures LaneOk(t[j], ps[j], q.adapter, q.buffers, j) {
      assert LaneOk(t[j], ps[j], p.adapter, p.buffers, j);
    }
  }

  lemma AtAppended<K>(m: map<K, string>, k: K, s: string, q: K)
    ensures At(Appended(m, k, s), q) == if q == k then At(m, k) + s else At(m, q)
    ensures s == "" ==> At(Appended(m, k, s), q) == At(m, q)
    ensures q in Appended(m, k, s) <==> q in m || q == k
  {
    assert At(m, k) + "" == At(m, k);
  }

  /** The pipe with one more chunk of a summary. */
  function WithSummary(p: Pipe, i: nat, part: nat, delta: string): Pipe {
    Pipe(if delta == "" then p.adapter else p.adapter.(summary := Appended(p.adapter.summary, (i, part), delta)),
         p.buffers.(summary := Appended(p.buffers.summary, (i, 0), delta), hasOutput := true))
  }

  lemma SummaryFeed(p: Pipe, i: nat, part: nat, delta: string)
    requires p.buffers.started && !p.buffers.completed
    ensures Feed(p, SummaryText(i, part, Some(delta))) == Ok(WithSummary(p, i, part, delta))
  {
    AbsorbOne(p.buffers, SummaryDelta(i, 0, delta));
  }

  lemma SummaryElsewhere(p: Pipe, i: nat, part: nat, delta: string, k: Key)
    ensures var q := WithSummary(p, i, part, delta);
      && (k.0 != i ==>
            && At(q.adapter.summary, k) == At(p.adapter.summary, k)
            && At(q.buffers.summary, k) == At(p.buffers.summary, k))
      && (k in q.buffers.summary ==> k in p.buffers.summary || k == (i, 0))
  {
    AtAppended(p.adapter.summary, (i, part), delta, k);
    AtAppended(p.buffers.summary, (i, 0), delta, k);
  }

  lemma PartGrows(p: Pipe, pr: Progress, i: nat, part: nat, delta: string, k: nat)
    requires At(p.adapter.summary, (i, k)) == At(pr.streamed, k)
    ensures At(WithSummary(p, i, part, delta).adapter.summary, (i, k)) == At(Appended(pr.streamed, part, delta), k)
  {
    AtAppended(p.adapter.summary, (i, part), delta, (i, k));
    AtAppended(pr.streamed, part, delta, k);
  }

  lemma SummaryLane(summary: seq<string>, pr: Progress, p: Pipe, i: nat, part: nat, delta: string)
    requires ThoughtLane(summary, pr, p.adapter.summary, p.buffers.summary, i) && !pr.done
    ensures var q := WithSummary(p, i, part, delta);
      ThoughtLane(summary, pr.(sent := pr.sent + delta, streamed := Appended(pr.streamed, part, delta)),
                  q.adapter.summary, q.buffers.summary, i)
  {
    var q, pr1 := WithSummary(p, i, part, delta),
        pr.(sent := pr.sent + delta, streamed := Appended(pr.streamed, part, delta));
    forall k: nat ensures At(q.adapter.summary, (i, k)) == At(pr1.streamed, k) { PartGrows(p, pr, i, part, delta, k); }
    forall k: nat ensures At(q.buffers.summary, (i, k)) == BufferOf(summary, pr1, k) {
      assert At(p.buffers.summary, (i, k)) == BufferOf(summary, pr, k);
      AtAppended(p.buffers.summary, (i, 0), delta, (i, k));
      assert pr.sent + "" == pr.sent && pr1.sent + "" == pr1.sent;
    }
  }

  lemma SummaryInStep(t: seq<Content>, ps: seq<Progress>, p: Pipe, i: nat, part: nat, delta: string)
    requires InStep(t, ps, p) && i < |t| && t[i].Thinks? && !ps[i].done && SummaryChunk(ps[i], t[i], part, delta).Some?
    ensures Moved(t, ps[i := SummaryChunk(ps[i], t[i], part, delta).value], p, SummaryText(i, part, Some(delta)))
  {
    assert LaneOk(t[i], ps[i], p.adapter, p.buffers, i);
    var q := WithSummary(p, i, part, delta);
    SummaryFeed(p, i, part, delta);
    forall k: Key
      ensures k.0 != i ==>
        && At(q.adapter.summary, k) == At(p.adapter.summary, k)
        && At(q.buffers.summary, k) == At(p.buffers.summary, k)
      ensures k in q.buffers.summary ==> k in p.buffers.summary || k == (i, 0)
    {
      SummaryElsewhere(p, i, part, delta, k);
    }
    SummaryLane(t[i].summary, ps[i], p, i, part, delta);
    ThoughtMoved(t, ps, p, i, SummaryChunk(ps[i], t[i], part, delta).value, q);
  }

  /** A step of one call touches the drafts and the adapter only at this call. */
  ghost predicate TouchesOnly(p: Pipe, q: Pipe, i: nat) {
    && q.buffers == p.buffers.(tools := q.buffers.tools, toolOrder := q.buffers.toolOrder,
                               hasOutput := q.buffers.hasOutput)
    && q.adapter.text == p.adapter.text && q.adapter.summary == p.adapter.summary
    && q.adapter.completed == p.adapter.completed
    && (forall k: Key :: k != (i, 0) ==>
        (k in q.buffers.tools <==> k in p.buffers.tools)
            && (k in p.buffers.tools ==> q.buffers.tools[k] == p.buffers.tools[k]))
    && (forall k: ItemKey :: k.0 != i ==>
        (k in q.adapter.tools <==> k in p.adapter.tools)
            && (k in p.adapter.tools ==> q.adapter.tools[k] == p.adapter.tools[k]))
    && (forall k: ItemKey :: k.0 != i ==>
        (k in q.adapter.meta <==> k in p.adapter.meta)
            && (k in p.adapter.meta ==> q.adapter.meta[k] == p.adapter.meta[k]))
    && (forall k: ItemKey :: k.0 != i ==> At(q.adapter.arguments, k) == At(p.adapter.arguments, k))
    && (forall k :: k != i ==> (k in q.adapter.nextTool <==> k in p.adapter.nextTool))
  }

  lemma CallMoved(t: seq<Content>, ps: seq<Progress>, p: Pipe, i: nat, pr: Progress, q: Pipe)
    requires InStep(t, ps, p) && i < |t| && t[i].Calls? && TouchesOnly(p, q, i)
    requires LaneOk(t[i], pr, q.adapter, q.buffers, i)
    ensures InStep(t, ps[i := pr], q)
  {
    forall k: Key | k in q.buffers.tools ensures k.1 == 0 && k.0 < |t| && t[k.0].Calls? {
      assert k == (i, 0) || k in p.buffers.tools;
    }
    forall j: nat | j < |t| && j != i ensures LaneOk(t[j], ps[j], q.adapter, q.buffers, j) {
      assert LaneOk(t[j], ps[j], p.adapter, p.buffers, j);
    }
  }

  /** The pipe with the call of an item just started. */
  function Opened(p: Pipe, i: nat, c: Content): Pipe
    requires c.Calls?
  {
    var key := (i, KeyOf(c));
    Pipe(p.adapter.(nextTool := p.adapter.nextTool[i := 1], tools := p.adapter.tools[key := 0],
                    meta := p.adapter.meta[key := IdentityOf(c)], arguments := p.adapter.arguments[key := ""]),
         p.buffers.(tools := p.buffers.tools[(i, 0) := Draft(IdentityOf(c).0, c.name, "")],
                    toolOrder := p.buffers.toolOrder + [(i, 0)], hasOutput := true))
  }

  lemma OpenFeed(p: Pipe, i: nat, c: Content, item: Item)
    requires c.Calls? && item.FunctionCall? && KeyOf(c) != "" && ItemId(item) == KeyOf(c)
    requires Identity(item) == IdentityOf(c)
    requires p.buffers.started && !p.buffers.completed
    requires i !in p.adapter.nextTool && (i, KeyOf(c)) !in p.adapter.tools && (i, 0) !in p.buffers.tools
    ensures Feed(p, ItemAdded(i, item)) == Ok(Opened(p, i, c))
  {
    AbsorbOne(p.buffers, ToolCallStarted(i, 0, IdentityOf(c).0, item.name));
  }

  lemma OpenedLane(p: Pipe, i: nat, c: Content, pr: Progress)
    requires c.Calls? && !pr.started && CallLane(c, pr, p.adapter, p.buffers.tools, i)
    ensures TouchesOnly(p, Opened(p, i, c), i)
    ensures CallLane(c, pr.(started := true), Opened(p, i, c).adapter, Opened(p, i, c).buffers.tools, i)
  {}

  lemma CallStartInStep(t: seq<Content>, ps: seq<Progress>, p: Pipe, i: nat, item: Item)
    requires InStep(t, ps, p) && WellFormed(t) && i < |t| && t[i].Calls? && item.FunctionCall? && !ps[i].started
    requires !ps[i].done
    requires ItemId(item) == KeyOf(t[i]) && Identity(item) == IdentityOf(t[i])
    ensures Moved(t, ps[i := ps[i].(started := true)], p, ItemAdded(i, item))
  {
    assert LaneOk(t[i], ps[i], p.adapter, p.buffers, i);
    OpenFeed(p, i, t[i], item);
    OpenedLane(p, i, t[i], ps[i]);
    CallMoved(t, ps, p, i, ps[i].(started := true), Opened(p, i, t[i]));
  }

  lemma DraftGrows(b: Buffers, i: nat, d: Draft, delta: string)
    requires b.started && !b.completed && (i, 0) in b.tools && b.tools[(i, 0)] == d
    ensures AbsorbAll(b, [ArgumentsDelta(i, 0, delta)])
      == Ok(b.(tools := b.tools[(i, 0) := d.(arguments := d.arguments + delta)], hasOutput := true))
  {
    AbsorbOne(b, ArgumentsDelta(i, 0, delta));
  }

  function WithArguments(p: Pipe, i: nat, id: string, delta: string): Pipe
    requires (i, 0) in p.buffers.tools
  {
    var d := p.buffers.tools[(i, 0)];
    Pipe(p.adapter.(arguments := p.adapter.arguments[(i, id) := At(p.adapter.arguments, (i, id)) + delta]),
         p.buffers.(tools := p.buffers.tools[(i, 0) := d.(arguments := d.arguments + delta)], hasOutput := true))
  }

  lemma ArgumentsFeed(p: Pipe, i: nat, id: string, delta: string)
    requires p.buffers.started && !p.buffers.completed && (i, 0) in p.buffers.tools && (i, id) in p.adapter.tools
    requires p.adapter.tools[(i, id)] == 0
    ensures Feed(p, CallArguments(i, id, Some(delta))) == Ok(if delta == "" then p else WithArguments(p, i, id, delta))
  {
    DraftGrows(p.buffers, i, p.buffers.tools[(i, 0)], delta);
  }

  lemma ArgumentsLane(p: Pipe, i: nat, c: Content, pr: Progress, delta: string)
    requires c.Calls? && pr.started && !pr.done && CallLane(c, pr, p.adapter, p.buffers.tools, i)
    ensures var q := WithArguments(p, i, KeyOf(c), delta);
      TouchesOnly(p, q, i) && CallLane(c, pr.(sent := pr.sent + delta), q.adapter, q.buffers.tools, i)
  {}

  lemma ArgumentsInStep(t: seq<Content>, ps: seq<Progress>, p: Pipe, i: nat, delta: string)
    requires InStep(t, ps, p) && i < |t| && t[i].Calls? && ps[i].started && !ps[i].done
    requires Chunk(ps[i], t[i], delta).Some?
    ensures Moved(t, ps[i := Chunk(ps[i], t[i], delta).value], p, CallArguments(i, KeyOf(t[i]), Some(delta)))
  {
    assert LaneOk(t[i], ps[i], p.adapter, p.buffers, i);
    ArgumentsFeed(p, i, KeyOf(t[i]), delta);
    if delta == "" {
      assert ps[i].sent + delta == ps[i].sent;
      assert ps[i := Chunk(ps[i], t[i], delta).value] == ps;
    } else {
      ArgumentsLane(p, i, t[i], ps[i], delta);
      CallMoved(t, ps, p, i, Chunk(ps[i], t[i], delta).value, WithArguments(p, i, KeyOf(t[i]), delta));
    }
  }

  lemma MessageDoneInStep(t: seq<Content>, ps: seq<Progress>, p: Pipe, i: nat, item: Item)
    requires InStep(t, ps, p) && i < |t| && t[i].Says? && !ps[i].done && FinalOk(ps[i], t[i], item)
    ensures Moved(t, ps[i := Finished(ps[i], t[i])], p, ItemDone(i, item))
  {
    assert LaneOk(t[i], ps[i], p.adapter, p.buffers, i);
    var text := t[i].text;
    if text != "" && ps[i].sent == "" {
      AbsorbOne(p.buffers, TextDelta(i, text));
      var b := p.buffers.(text := Appended(p.buffers.text, (i, 0), text), hasOutput := true);
      assert Feed(p, ItemDone(i, item)) == Ok(Pipe(p.adapter, b));
      TextMoved(t, ps, p, i, Finished(ps[i], t[i]), Pipe(p.adapter, b));
    } else {
      assert Feed(p, ItemDone(i, item)) == Ok(p);
    }
  }

  lemma CallDoneInStep(t: seq<Content>, ps: seq<Progress>, p: Pipe, i: nat, item: Item)
    requires InStep(t, ps, p) && i < |t| && t[i].Calls? && !ps[i].done && FinalOk(ps[i], t[i], item)
    ensures Moved(t, ps[i := Finished(ps[i], t[i])], p, ItemDone(i, item))
  {
    assert LaneOk(t[i], ps[i], p.adapter, p.buffers, i);
    var arguments := t[i].arguments;
    if arguments != "" && ps[i].sent == "" {
      var d := p.buffers.tools[(i, 0)];
      DraftGrows(p.buffers, i, d, arguments);
      var b := p.buffers.(tools := p.buffers.tools[(i, 0) := d.(arguments := d.arguments + arguments)],
                          hasOutput := true);
      assert Feed(p, ItemDone(i, item)) == Ok(Pipe(p.adapter, b));
    } else {
      assert Feed(p, ItemDone(i, item)) == Ok(p);
    }
  }

  /** Nothing of part `q.1` was streamed, so the final object from part `from` on hands it on whole. */
  predicate Adds(a: Adapter, i: nat, summary: seq<string>, from: nat, q: Key) {
    q.0 == i && from <= q.1 < |summary| && At(a.summary, q) == ""
  }

  lemma {:induction false} FinishFits(a: Adapter, i: nat, summary: seq<string>, k: nat)
    requires k <= |summary| && forall j: nat :: k <= j < |summary| ==>
      At(a.summary, (i, j)) == "" || At(a.summary, (i, j)) == summary[j]
    ensures FinishSummary(a, i, summary, k).Ok?
    decreases |summary| - k
  {
    if k < |summary| { FinishFits(a, i, summary, k + 1); }
  }

  /** The buffers after the parts from `k` on have arrived, each in its own. */
  ghost predicate Arrived(m: map<Key, string>, m1: map<Key, string>, a: Adapter, i: nat, summary: seq<string>, k: nat) {
    && (forall q: Key :: At(m1, q) == if Adds(a, i, summary, k, q) then At(m, q) + summary[q.1] else At(m, q))
    && (forall q: Key :: q in m1 ==> q in m || Adds(a, i, summary, k, q))
  }

  lemma ArrivedStep(m: map<Key, string>, m1: map<Key, string>, a: Adapter, i: nat, summary: seq<string>, k: nat)
    requires k < |summary| && (At(a.summary, (i, k)) != "" || summary[k] == "") && Arrived(m, m1, a, i, summary, k + 1)
    ensures Arrived(m, m1, a, i, summary, k)
  {
    forall q: Key ensures At(m1, q) == if Adds(a, i, summary, k, q) then At(m, q) + summary[q.1] else At(m, q) {
      assert Adds(a, i, summary, k, q) <==> Adds(a, i, summary, k + 1, q) || (q == (i, k) && At(a.summary, q) == "");
      assert At(m, q) + "" == At(m, q);
    }
  }

  lemma ArrivedPart(m: map<Key, string>, m1: map<Key, string>, a: Adapter, i: nat, summary: seq<string>, k: nat)
    requires k < |summary| && At(a.summary, (i, k)) == ""
    requires Arrived(Appended(m, (i, k), summary[k]), m1, a, i, summary, k + 1)
    ensures Arrived(m, m1, a, i, summary, k)
  {
    forall q: Key
      ensures At(m1, q) == if Adds(a, i, summary, k, q) then At(m, q) + summary[q.1] else At(m, q)
      ensures q in m1 ==> q in m || Adds(a, i, summary, k, q)
    {
      assert Adds(a, i, summary, k, q) <==> Adds(a, i, summary, k + 1, q) || q == (i, k);
      AtAppended(m, (i, k), summary[k], q);
    }
  }

  /** The parts that the final object adds arrive each in its own buffer. */
  lemma {:induction false} AbsorbParts(b: Buffers, a: Adapter, i: nat, summary: seq<string>, k: nat)
    requires k <= |summary| && b.started && !b.completed && FinishSummary(a, i, summary, k).Ok?
    ensures var r := AbsorbAll(b, FinishSummary(a, i, summary, k).value);
      && r.Ok? && r.value == b.(summary := r.value.summary, hasOutput := r.value.hasOutput)
      && Arrived(b.summary, r.value.summary, a, i, summary, k)
    decreases |summary| - k
  {
    if k < |summary| {
      var rest := FinishSummary(a, i, summary, k + 1).value;
      if summary[k] != "" && At(a.summary, (i, k)) == "" {
        var d := SummaryDelta(i, k, summary[k]);
        var b1 := b.(summary := Appended(b.summary, (i, k), summary[k]), hasOutput := true);
        AbsorbFirst(b, d, rest);
        AbsorbParts(b1, a, i, summary, k + 1);
        ArrivedPart(b.summary, AbsorbAll(b1, rest).value.summary, a, i, summary, k);
      } else {
        AbsorbParts(b, a, i, summary, k + 1);
        ArrivedStep(b.summary, AbsorbAll(b, rest).value.summary, a, i, summary, k);
      }
    }
  }

  /** What the final object of a thought is handed on as. */
  lemma ThoughtFeed(p: Pipe, i: nat, item: Item)
    requires p.buffers.started && !p.buffers.completed && item.Reasoning?
    requires FinishSummary(p.adapter, i, item.summary, 0).Ok?
    ensures var b := AbsorbAll(p.buffers, FinishSummary(p.adapter, i, item.summary, 0).value);
      b.Ok? && Feed(p, ItemDone(i, item)) ==
          Ok(Pipe(p.adapter, b.value.(continuations := Continued(b.value.continuations, ItemDone(i, item)))))
  {
    var parts := FinishSummary(p.adapter, i, item.summary, 0).value;
    var c := ContinuationReceived(ProviderContinuation(WIRE_API, item.id, item.encrypted, item.summary));
    AbsorbParts(p.buffers, p.adapter, i, item.summary, 0);
    var b := AbsorbAll(p.buffers, parts).value;
    AbsorbConcat(p.buffers, parts, [c]);
    AbsorbOne(b, c);
  }

  lemma FinishedLane(summary: seq<string>, pr: Progress, a: Adapter, b: map<Key, string>, b1: map<Key, string>, i: nat)
    requires ThoughtLane(summary, pr, a.summary, b, i) && !pr.done
    requires Arrived(b, b1, a, i, summary, 0)
    ensures ThoughtLane(summary, pr.(done := true), a.summary, b1, i)
  {
    forall k: nat ensures At(b1, (i, k)) == BufferOf(summary, pr.(done := true), k) {
      assert At(b, (i, k)) == BufferOf(summary, pr, k) && At(a.summary, (i, k)) == At(pr.streamed, k);
      assert pr.sent + "" == pr.sent;
      assert "" + Part(summary, k) == Part(summary, k);
    }
  }

  lemma ThoughtDoneInStep(t: seq<Content>, ps: seq<Progress>, p: Pipe, i: nat, item: Item)
    requires InStep(t, ps, p) && i < |t| && t[i].Thinks? && !ps[i].done && FinalOk(ps[i], t[i], item)
    ensures Moved(t, ps[i := Finished(ps[i], t[i])], p, ItemDone(i, item))
  {
    assert LaneOk(t[i], ps[i], p.adapter, p.buffers, i);
    var summary := t[i].summary;
    forall k: nat | k < |summary|
      ensures At(p.adapter.summary, (i, k)) == "" || At(p.adapter.summary, (i, k)) == summary[k] {
      assert At(p.adapter.summary, (i, k)) == At(ps[i].streamed, k);
    }
    FinishFits(p.adapter, i, summary, 0);
    ThoughtFeed(p, i, item);
    AbsorbParts(p.buffers, p.adapter, i, summary, 0);
    var q := Feed(p, ItemDone(i, item)).value;
    FinishedLane(summary, ps[i], p.adapter, p.buffers.summary, q.buffers.summary, i);
    ThoughtMoved(t, ps, p, i, Finished(ps[i], t[i]), q);
  }

  /** Every event that fits its item keeps the pipe in step with all items. */
  lemma EventInStep(t: seq<Content>, ps: seq<Progress>, p: Pipe, e: Event)
    requires WellFormed(t) && InStep(t, ps, p) && TrackOne(t, ps, e).Some?
    ensures Moved(t, TrackOne(t, ps, e).value, p, e)
  {
    match e
    case OutputText(i, delta) =>
      if delta.Some? { TextInStep(t, ps, p, i, delta.value); } else { assert ps[i := ps[i]] == ps; }
    case Refusal(i, delta) =>
      if delta.Some? { RefusalInStep(t, ps, p, i, delta.value); } else { assert ps[i := ps[i]] == ps; }
    case SummaryText(i, k, delta) =>
      if delta.Some? { SummaryInStep(t, ps, p, i, k, delta.value); } else { assert ps[i := ps[i]] == ps; }
    case CallArguments(i, _, delta) => ArgumentsInStep(t, ps, p, i, delta.value);
    case ItemAdded(i, item) =>
      if item.FunctionCall? {
        CallStartInStep(t, ps, p, i, item);
      } else {
        assert ps[i := ps[i]] == ps;
      }
    case ItemDone(i, item) =>
      match t[i] {
        case Says(_, _) => MessageDoneInStep(t, ps, p, i, item);
        case Calls(_, _, _, _) => CallDoneInStep(t, ps, p, i, item);
        case Thinks(_, _, _) => ThoughtDoneInStep(t, ps, p, i, item);
        case Other => assert Feed(p, e) == Ok(p);
      }
    case OtherEvent =>
  }

  lemma {:induction false} StreamInStep(t: seq<Content>, events: seq<Event>)
    requires WellFormed(t) && Track(t, events).Some?
    ensures var r := FeedAll(OPEN, events);
      && r.Ok? && InStep(t, Track(t, events).value, r.value)
      && r.value.buffers.continuations == DoneOrder(events) && r.value.buffers.refusal == RefusalHeard(events)
  {
    if events == [] {
      StartInStep(t);
    } else {
      var init, e := events[..|events| - 1], events[|events| - 1];
      StreamInStep(t, init);
      EventInStep(t, Track(t, init).value, FeedAll(OPEN, init).value, e);
    }
  }

  // ---------------------------------------------------------------- the whole turn

  /** The buffers of one item, joined in order of their parts. */
  function Row(m: map<Key, string>, i: nat, w: nat): string {
    if w == 0 then "" else Row(m, i, w - 1) + At(m, (i, w - 1))
  }

  function Rows(m: map<Key, string>, width: nat -> nat, n: nat): string {
    if n == 0 then "" else Rows(m, width, n - 1) + Row(m, n - 1, width(n - 1))
  }

  /** The keys of the first `n` items, and of the first `w` parts of the next one, in an ordered listing. */
  ghost predicate ListsBelow<V>(keys: seq<Key>, m: map<Key, V>, n: nat, w: nat) {
    Ordered(keys) && forall k: Key :: k in keys <==> k in m && (k.0 < n || (k.0 == n && k.1 < w))
  }

  lemma ListsBelowStep<V>(keys: seq<Key>, m: map<Key, V>, n: nat, w: nat)
    requires ListsBelow(keys, m, n, w) && w > 0
    ensures (n, w - 1) in m ==>
      && keys != [] && keys[|keys| - 1] == (n, w - 1)
      && ListsBelow(keys[..|keys| - 1], m, n, w - 1)
    ensures (n, w - 1) !in m ==> ListsBelow(keys, m, n, w - 1)
  {
    if (n, w - 1) in m {
      assert (n, w - 1) in keys;
      var init, last := keys[..|keys| - 1], keys[|keys| - 1];
      assert last in keys && keys == init + [last];
      forall k: Key ensures k in init <==> k in m && (k.0 < n || (k.0 == n && k.1 < w - 1)) {
        assert k in init ==> Less(k, last);
      }
    }
  }

  lemma NothingBelow<V>(keys: seq<Key>, m: map<Key, V>)
    requires ListsBelow(keys, m, 0, 0)
    ensures keys == []
  {
    assert Lists(keys, {});
    ListsSize(keys, {});
  }

  lemma ListsBelowRow<V>(keys: seq<Key>, m: map<Key, V>, n: nat, w: nat)
    requires ListsBelow(keys, m, n + 1, 0) && forall k: Key :: k in m && k.0 == n ==> k.1 < w
    ensures ListsBelow(keys, m, n, w)
  {
    forall k: Key ensures k in keys <==> k in m && (k.0 < n || (k.0 == n && k.1 < w)) {}
  }

  lemma {:induction false} JoinedIsRows(m: map<Key, string>, width: nat -> nat, keys: seq<Key>, n: nat, w: nat)
    requires ListsBelow(keys, m, n, w) && forall k: Key :: k in m ==> k.1 < width(k.0)
    ensures Joined(m, keys) == Rows(m, width, n) + Row(m, n, w)
    decreases n, w
  {
    if w > 0 {
      ListsBelowStep(keys, m, n, w);
      var listed := (n, w - 1) in m;
      JoinedIsRows(m, width, if listed then keys[..|keys| - 1] else keys, n, w - 1);
      RowSnoc(Rows(m, width, n), Row(m, n, w - 1), At(m, (n, w - 1)));
    } else if n > 0 {
      ListsBelowRow(keys, m, n - 1, width(n - 1));
      JoinedIsRows(m, width, keys, n - 1, width(n - 1));
    } else {
      NothingBelow(keys, m);
    }
  }

  lemma RowSnoc(a: string, b: string, c: string)
    ensures a + (b + c) == (a + b) + c && (c == "" ==> a + (b + c) == a + b)
  {}

  const ONE: nat -> nat := (_: nat) => 1

  lemma OneBuffer(m: map<Key, string>, i: nat)
    ensures Row(m, i, 1) == At(m, (i, 0))
  {
    assert Row(m, i, 1) == Row(m, i, 0) + At(m, (i, 0));
  }

  lemma TextOfFirst(t: seq<Content>, n: nat)
    requires 0 < n <= |t|
    ensures TextOf(t[..n]) == TextOf(t[..n - 1]) + if t[n - 1].Says? then t[n - 1].text else ""
  {
    assert t[..n][..n - 1] == t[..n - 1];
  }

  lemma {:induction false} TextRows(t: seq<Content>, ps: seq<Progress>, p: Pipe, n: nat)
    requires InStep(t, ps, p) && n <= |t| && forall i :: 0 <= i < |t| ==> Delivered(t[i], ps[i])
    ensures Rows(p.buffers.text, ONE, n) == TextOf(t[..n])
  {
    if n > 0 {
      TextRows(t, ps, p, n - 1);
      TextOfFirst(t, n);
      OneBuffer(p.buffers.text, n - 1);
      assert LaneOk(t[n - 1], ps[n - 1], p.adapter, p.buffers, n - 1);
    }
  }

  lemma {:induction false} ThoughtRow(summary: seq<string>, pr: Progress, streamed: map<Key, string>,
                                      buffers: map<Key, string>, i: nat, w: nat)
    requires ThoughtLane(summary, pr, streamed, buffers, i) && w > 0
    ensures Row(buffers, i, w) == pr.sent + LateUpTo(summary, pr, w)
  {
    assert At(buffers, (i, w - 1)) == BufferOf(summary, pr, w - 1);
    if w > 1 {
      ThoughtRow(summary, pr, streamed, buffers, i, w - 1);
    } else {
      OneBuffer(buffers, i);
      assert LateUpTo(summary, pr, 1) == LateUpTo(summary, pr, 0) + Late(summary, pr, 0);
    }
  }

  lemma {:induction false} ThoughtRows(t: seq<Content>, ps: seq<Progress>, p: Pipe, n: nat)
    requires InStep(t, ps, p) && n <= |t|
    ensures Rows(p.buffers.summary, i => Width(t, i), n) == ReasoningHeard(t[..n], ps[..n])
  {
    if n > 0 {
      var c, pr := t[n - 1], ps[n - 1];
      ThoughtRows(t, ps, p, n - 1);
      assert t[..n][..n - 1] == t[..n - 1] && ps[..n][..n - 1] == ps[..n - 1];
      assert LaneOk(c, pr, p.adapter, p.buffers, n - 1);
      var w := Width(t, n - 1);
      if c.Thinks? {
        ThoughtRow(c.summary, pr, p.adapter.summary, p.buffers.summary, n - 1, w);
        if c.summary == [] { assert LateUpTo([], pr, 1) == LateUpTo([], pr, 0) + Late([], pr, 0); }
      } else {
        OneBuffer(p.buffers.summary, n - 1);
      }
    }
  }

  lemma {:induction false} CallRows(t: seq<Content>, ps: seq<Progress>, p: Pipe, keys: seq<Key>, n: nat)
    requires WellFormed(t) && InStep(t, ps, p) && n <= |t| && forall i :: 0 <= i < |t| ==> Delivered(t[i], ps[i])
    requires ListsBelow(keys, p.buffers.tools, n, 0)
    ensures CallsOf(p.buffers.tools, keys) == Ok(CallsIn(t[..n]))
    decreases n
  {
    if n == 0 {
      NothingBelow(keys, p.buffers.tools);
    } else {
      assert t[..n][..n - 1] == t[..n - 1];
      assert LaneOk(t[n - 1], ps[n - 1], p.adapter, p.buffers, n - 1);
      assert ListsBelow(keys, p.buffers.tools, n - 1, 1);
      ListsBelowStep(keys, p.buffers.tools, n - 1, 1);
      CallRows(t, ps, p, if (n - 1, 0) in p.buffers.tools then keys[..|keys| - 1] else keys, n - 1);
    }
  }

  lemma RowsAreTurn(t: seq<Content>, ps: seq<Progress>, p: Pipe)
    requires WellFormed(t) && InStep(t, ps, p) && forall i :: 0 <= i < |t| ==> Delivered(t[i], ps[i])
    ensures CallsOf(p.buffers.tools, Listing(p.buffers.tools.Keys)) == Ok(CallsIn(t))
    ensures Joined(p.buffers.text, Listing(p.buffers.text.Keys)) == TextOf(t)
    ensures Joined(p.buffers.summary, Listing(p.buffers.summary.Keys)) == ReasoningHeard(t, ps)
  {
    var n := |t|;
    assert t[..n] == t && ps[..n] == ps;
    CallRows(t, ps, p, Listing(p.buffers.tools.Keys), n);
    JoinedWhole(p.buffers.text, ONE, n);
    TextRows(t, ps, p, n);
    JoinedWhole(p.buffers.summary, i => Width(t, i), n);
    ThoughtRows(t, ps, p, n);
  }

  lemma JoinedWhole(m: map<Key, string>, width: nat -> nat, n: nat)
    requires forall k: Key :: k in m ==> k.0 < n && k.1 < width(k.0)
    ensures Joined(m, Listing(m.Keys)) == Rows(m, width, n)
  {
    JoinedIsRows(m, width, Listing(m.Keys), n, 0);
    assert Rows(m, width, n) + Row(m, n, 0) == Rows(m, width, n);
  }

  /** A completed stream with these calls, text, summary and refusal, and nothing else. */
  lemma TurnFrom(b: Buffers, calls: seq<ToolCall>, text: string, summary: string, blank: string -> bool)
    requires b.completed && b.reason == Some("stop") && b.reasoning == map[]
    requires CallsOf(b.tools, Listing(b.tools.Keys)) == Ok(calls)
    requires Joined(b.text, Listing(b.text.Keys)) == text && Joined(b.summary, Listing(b.summary.Keys)) == summary
    ensures ToTurn(b, blank) ==
      if calls == [] && blank(text) && b.refusal == "" then Err(Failure(false))
      else Ok(Turn(Or(text, b.refusal), calls, NonEmpty(summary), b.continuations))
  {
    ListsSize(Listing(b.reasoning.Keys), b.reasoning.Keys);
  }

  /** Completing a stream only marks it complete. */
  lemma CompletionFeeds(p: Pipe, hasUsage: bool)
    requires p.buffers.started && !p.buffers.completed
    ensures Feed(p, ResponseCompleted("completed", hasUsage))
      == Ok(Pipe(p.adapter.(completed := true), p.buffers.(reason := Some("stop"), completed := true)))
  {
    AbsorbOne(p.buffers, StreamCompleted("stop"));
    AbsorbConcat(p.buffers, [UsageReceived], [StreamCompleted("stop")]);
    AbsorbOne(p.buffers, UsageReceived);
    assert [UsageReceived] + [StreamCompleted("stop")] == [UsageReceived, StreamCompleted("stop")];
  }

  /**
   A stream that delivers a turn gives exactly its text and calls, the refusal as it was streamed, for each
   thought its deltas in the order of their arrival and then its other parts, and the continuations in the order
   in which the thoughts were finished.
   */
  lemma StreamGivesTurn(t: seq<Content>, events: seq<Event>, hasUsage: bool, blank: string -> bool)
    requires WellFormed(t) && Delivers(t, events)
    ensures Receive(events + [ResponseCompleted("completed", hasUsage)], blank) ==
      Told(t, RefusalHeard(events), ReasoningHeard(t, Track(t, events).value), DoneOrder(events), blank)
  {
    var whole := events + [ResponseCompleted("completed", hasUsage)];
    assert whole[..|whole| - 1] == events;
    StreamInStep(t, events);
    var ps, p := Track(t, events).value, FeedAll(OPEN, events).value;
    CompletionFeeds(p, hasUsage);
    RowsAreTurn(t, ps, p);
    TurnFrom(p.buffers.(reason := Some("stop"), completed := true), CallsIn(t), TextOf(t), ReasoningHeard(t, ps),
             blank);
  }
}
