/** The stored form of canonical messages: encoding, fail-closed decoding, and when the two are inverse. */
module Codec {
  import opened Results
  import opened Messages
  import Streaming

  datatype Json = Null | Bool(b: bool) | Num(n: int) | Str(s: string) | Arr(items: seq<Json>)
    | Obj(fields: map<string, Json>)

  type Fields = map<string, Json>

  /** Conversions of the host language for values of other types: to a string, and to an integer if possible. */
  datatype Host = Host(str: Json -> string, integer: Json -> Option<int>)

  datatype Invalid = Invalid

  // ---------------------------------------------------------------- encoding

  function Strings(s: seq<string>): Json {
    Arr(seq(|s|, i requires 0 <= i < |s| => Str(s[i])))
  }

  function EncodeAttachment(a: AttachmentRef): Json {
    Obj(map["id" := Str(a.id), "filename" := Str(a.filename), "media_type" := Str(a.mediaType), "kind" := Str(a.kind),
            "size_bytes" := Num(a.sizeBytes), "sha256" := Str(a.sha256)])
  }

  function EncodeContinuation(c: ProviderContinuation): Json {
    Obj(map["wire_api" := Str(c.wireApi), "item_id" := Str(c.itemId), "encrypted_content" := Str(c.encryptedContent),
        "summary" := Strings(c.summary)])
  }

  function EncodeCall(c: ToolCall): Json {
    Obj(map["id" := Str(c.id), "name" := Str(c.name), "arguments_raw" := Str(c.argumentsRaw)])
  }

  function EncodeAll<T>(encode: T -> Json, values: seq<T>): (items: seq<Json>)
    ensures |items| == |values| && forall i :: 0 <= i < |values| ==> items[i] == encode(values[i])
  {
    seq(|values|, i requires 0 <= i < |values| => encode(values[i]))
  }

  function Optional(s: Option<string>): Json {
    if s.Some? then Str(s.value) else Null
  }

  function Encode(m: Message): Fields {
    match m
    case SystemMessage(content) => map["type" := Str("system"), "content" := Str(content)]
    case UserMessage(content, source, attachments) =>
      map["type" := Str("user"), "content" := Str(content), "source" := Str(source),
          "attachments" := Arr(EncodeAll(EncodeAttachment, attachments))]
    case AssistantMessage(text, calls, reasoning, continuations) =>
      map["type" := Str("assistant"), "text" := Str(text), "reasoning" := Optional(reasoning),
          "continuations" := Arr(EncodeAll(EncodeContinuation, continuations)),
          "tool_calls" := Arr(EncodeAll(EncodeCall, calls))]
    case ToolMessage(id, content, name, ok, key, read, path) =>
      map["type" := Str("tool"), "tool_call_id" := Str(id), "content" := Str(content), "tool_name" := Str(name),
          "ok" := Bool(ok),
          "resource_key" := Str(key), "is_read_success" := Bool(read), "file_path" := Optional(path)]
  }

  // ---------------------------------------------------------------- decoding

  function Field(f: Fields, key: string, default: Json): Json {
    if key in f then f[key] else default
  }

  function Text(h: Host, j: Json): string {
    if j.Str? then j.s else h.str(j)
  }

  function Integer(h: Host, j: Json): Option<int> {
    if j.Num? then Some(j.n) else h.integer(j)
  }

  predicate Truthy(j: Json) {
    match j
    case Null => false
    case Bool(b) => b
    case Num(n) => n != 0
    case Str(s) => s != ""
    case Arr(items) => items != []
    case Obj(fields) => fields != map[]
  }

  predicate AttachmentOk(a: AttachmentRef) {
    a.id != "" && a.filename != "" && a.kind in {"image", "file"} && a.sizeBytes >= 0 && |a.sha256| == 64
  }

  function DecodeAttachment(h: Host, j: Json): Result<AttachmentRef, Invalid> {
    if !j.Obj? || !({"id", "filename", "media_type", "kind", "size_bytes", "sha256"} <= j.fields.Keys) then Err(Invalid)
    else
      var f := j.fields;
      var size := Integer(h, f["size_bytes"]);
      if size.None? then Err(Invalid)
      else
        var a := AttachmentRef(Text(h, f["id"]), Text(h, f["filename"]), Text(h, f["media_type"]), Text(h, f["kind"]),
                               size.value, Text(h, f["sha256"]));
        if AttachmentOk(a) then Ok(a) else Err(Invalid)
  }

  function AttachmentDecoder(h: Host): Json -> Result<AttachmentRef, Invalid> {
    (j: Json) => DecodeAttachment(h, j)
  }

  predicate ContinuationOk(c: ProviderContinuation) {
    c.itemId != "" && c.encryptedContent != ""
  }

  predicate AllStrings(items: seq<Json>) {
    forall i :: 0 <= i < |items| ==> items[i].Str?
  }

  function DecodeContinuation(j: Json): Result<ProviderContinuation, Invalid> {
    if !j.Obj? then Err(Invalid)
    else
      var f := j.fields;
      var api, id, encrypted, summary := Field(f, "wire_api", Null), Field(f, "item_id", Null),
          Field(f, "encrypted_content", Null), Field(f, "summary", Arr([]));
      if !api.Str? || !id.Str? || id.s == "" || !encrypted.Str? || encrypted.s == "" || !summary.Arr?
          || !AllStrings(summary.items) then Err(Invalid)
      else Ok(ProviderContinuation(api.s, id.s, encrypted.s,
                                   seq(|summary.items|, i requires 0 <= i < |summary.items| => summary.items[i].s)))
  }

  function DecodeCall(h: Host, j: Json): Result<ToolCall, Invalid> {
    if !j.Obj? || !({"id", "name", "arguments_raw"} <= j.fields.Keys) then Err(Invalid)
    else Ok(ToolCall(Text(h, j.fields["id"]), Text(h, j.fields["name"]), Text(h, j.fields["arguments_raw"])))
  }

  function CallDecoder(h: Host): Json -> Result<ToolCall, Invalid> {
    (j: Json) => DecodeCall(h, j)
  }

  /** Decodes item by item; the first invalid one makes the whole list invalid. */
  function DecodeAll<T>(decode: Json -> Result<T, Invalid>, items: seq<Json>): Result<seq<T>, Invalid> {
    if items == [] then Ok([])
    else
      var rest := DecodeAll(decode, items[..|items| - 1]);
      if rest.Err? then rest
      else
        var last := decode(items[|items| - 1]);
        if last.Err? then Err(Invalid) else Ok(rest.value + [last.value])
  }

  function DecodeUser(h: Host, f: Fields): Result<Message, Invalid> {
    var content, source, raw := Field(f, "content", Null), Field(f, "source", Str("user")),
        Field(f, "attachments", Arr([]));
    if !content.Str? || !source.Str? || !raw.Arr? then Err(Invalid)
    else
      var attachments := DecodeAll(AttachmentDecoder(h), raw.items);
      if attachments.Err? then Err(Invalid) else Ok(UserMessage(content.s, source.s, attachments.value))
  }

  function DecodeAssistant(h: Host, f: Fields): Result<Message, Invalid> {
    var text, rawCalls, reasoning, raw := Field(f, "text", Str("")), Field(f, "tool_calls", Arr([])),
        Field(f, "reasoning", Null), Field(f, "continuations", Arr([]));
    if !text.Str? || !rawCalls.Arr? || !raw.Arr? then Err(Invalid)
    else
      var calls := DecodeAll(CallDecoder(h), rawCalls.items);
      var continuations := DecodeAll(DecodeContinuation, raw.items);
      if calls.Err? || continuations.Err? then Err(Invalid)
      else
        var thought := if reasoning.Str? then Some(reasoning.s) else None;
        Ok(AssistantMessage(text.s, calls.value, thought, continuations.value))
  }

  function DecodeTool(h: Host, f: Fields): Result<Message, Invalid> {
    if !({"tool_call_id", "content", "tool_name", "ok"} <= f.Keys) then Err(Invalid)
    else
      var path := Field(f, "file_path", Null);
      Ok(ToolMessage(Text(h, f["tool_call_id"]), Text(h, f["content"]), Text(h, f["tool_name"]), Truthy(f["ok"]),
                     Text(h, Field(f, "resource_key", Str(""))), Truthy(Field(f, "is_read_success", Bool(false))),
                     if path == Null then None else Some(Text(h, path))))
  }

  function Decode(h: Host, f: Fields): Result<Message, Invalid> {
    var kind := Field(f, "type", Null);
    if kind == Str("system") then
      if Field(f, "content", Null).Str? then Ok(SystemMessage(Field(f, "content", Null).s)) else Err(Invalid)
    else if kind == Str("user") then DecodeUser(h, f)
    else if kind == Str("assistant") then DecodeAssistant(h, f)
    else if kind == Str("tool") then DecodeTool(h, f)
    else Err(Invalid)
  }

  // ---------------------------------------------------------------- round trips

  /** What decoding demands of a message: complete attachments and complete continuations. */
  predicate Storable(m: Message) {
    match m
    case UserMessage(_, _, attachments) => forall i :: 0 <= i < |attachments| ==> AttachmentOk(attachments[i])
    case AssistantMessage(_, _, _, continuations) => forall i :: 0 <= i < |continuations| ==>
        ContinuationOk(continuations[i])
    case _ => true
  }

  /** A list decodes exactly when every item does, and then item by item. */
  lemma {:induction false} DecodeAllItems<T>(decode: Json -> Result<T, Invalid>, items: seq<Json>)
    ensures var r := DecodeAll(decode, items);
      && (r.Ok? <==> forall i :: 0 <= i < |items| ==> decode(items[i]).Ok?)
      && (r.Err? ==> r == Err(Invalid))
      && (r.Ok? ==> |r.value| == |items| && forall i :: 0 <= i < |items| ==> decode(items[i]) == Ok(r.value[i]))
  {
    if items != [] {
      var init := items[..|items| - 1];
      DecodeAllItems(decode, init);
      assert forall i :: 0 <= i < |init| ==> init[i] == items[i];
    }
  }

  /** Decoding a list of encoded values gives the values back, exactly when each of them comes back. */
  lemma BackAndForth<T>(encode: T -> Json, decode: Json -> Result<T, Invalid>, good: T -> bool, values: seq<T>)
    requires forall i :: 0 <= i < |values| ==>
      decode(encode(values[i])) == if good(values[i]) then Ok(values[i]) else Err(Invalid)
    ensures DecodeAll(decode, EncodeAll(encode, values)) ==
      if (forall i :: 0 <= i < |values| ==> good(values[i])) then Ok(values) else Err(Invalid)
  {
    var items := EncodeAll(encode, values);
    DecodeAllItems(decode, items);
    var r := DecodeAll(decode, items);
    assert forall i :: 0 <= i < |values| ==> items[i] == encode(values[i]);
    if r.Ok? { assert r.value == values; }
  }

  lemma AttachmentBack(h: Host, a: AttachmentRef)
    ensures DecodeAttachment(h, EncodeAttachment(a)) == if AttachmentOk(a) then Ok(a) else Err(Invalid)
  {}

  lemma ContinuationBack(c: ProviderContinuation)
    ensures DecodeContinuation(EncodeContinuation(c)) == if ContinuationOk(c) then Ok(c) else Err(Invalid)
  {
    var f := EncodeContinuation(c).fields;
    var items := Strings(c.summary).items;
    assert Field(f, "summary", Arr([])) == Arr(items) && AllStrings(items);
    assert seq(|items|, i requires 0 <= i < |items| => items[i].s) == c.summary;
  }

  lemma AttachmentsBack(h: Host, values: seq<AttachmentRef>)
    ensures DecodeAll(AttachmentDecoder(h), EncodeAll(EncodeAttachment, values)) ==
      if (forall i :: 0 <= i < |values| ==> AttachmentOk(values[i])) then Ok(values) else Err(Invalid)
  {
    forall i | 0 <= i < |values| ensures AttachmentDecoder(h)(EncodeAttachment(values[i])) ==
        if AttachmentOk(values[i]) then Ok(values[i]) else Err(Invalid) {
      AttachmentBack(h, values[i]);
    }
    BackAndForth(EncodeAttachment, AttachmentDecoder(h), AttachmentOk, values);
  }

  lemma ContinuationsBack(values: seq<ProviderContinuation>)
    ensures DecodeAll(DecodeContinuation, EncodeAll(EncodeContinuation, values)) ==
      if (forall i :: 0 <= i < |values| ==> ContinuationOk(values[i])) then Ok(values) else Err(Invalid)
  {
    forall i | 0 <= i < |values| ensures DecodeContinuation(EncodeContinuation(values[i])) ==
        if ContinuationOk(values[i]) then Ok(values[i]) else Err(Invalid) {
      ContinuationBack(values[i]);
    }
    BackAndForth(EncodeContinuation, DecodeContinuation, ContinuationOk, values);
  }

  lemma CallsBack(h: Host, values: seq<ToolCall>)
    ensures DecodeAll(CallDecoder(h), EncodeAll(EncodeCall, values)) == Ok(values)
  {
    BackAndForth(EncodeCall, CallDecoder(h), (c: ToolCall) => true, values);
  }

  lemma UserFrom(h: Host, f: Fields, m: Message)
    requires m.UserMessage? && Field(f, "type", Null) == Str("user")
    requires Field(f, "content", Null) == Str(m.content) && Field(f, "source", Str("user")) == Str(m.source)
    requires Field(f, "attachments", Arr([])) == Arr(EncodeAll(EncodeAttachment, m.attachments))
    ensures Decode(h, f) == if Storable(m) then Ok(m) else Err(Invalid)
  {
    AttachmentsBack(h, m.attachments);
  }

  lemma AssistantFrom(h: Host, f: Fields, m: Message)
    requires m.AssistantMessage? && Field(f, "type", Null) == Str("assistant")
    requires Field(f, "text", Str("")) == Str(m.text) && Field(f, "reasoning", Null) == Optional(m.reasoning)
    requires Field(f, "continuations", Arr([])) == Arr(EncodeAll(EncodeContinuation, m.continuations))
    requires Field(f, "tool_calls", Arr([])) == Arr(EncodeAll(EncodeCall, m.toolCalls))
    ensures Decode(h, f) == if Storable(m) then Ok(m) else Err(Invalid)
  {
    ContinuationsBack(m.continuations);
    CallsBack(h, m.toolCalls);
  }

  /** Decoding an encoded message gives the message back when it is storable, and refuses it otherwise. */
  lemma RoundTrip(h: Host, m: Message)
    ensures Decode(h, Encode(m)) == if Storable(m) then Ok(m) else Err(Invalid)
  {
    match m
    case SystemMessage(_) =>
    case UserMessage(_, _, _) => UserFrom(h, Encode(m), m);
    case AssistantMessage(_, _, _, _) => AssistantFrom(h, Encode(m), m);
    case ToolMessage(_, _, _, _, _, _, _) =>
  }

  lemma DecodedUser(h: Host, f: Fields)
    requires DecodeUser(h, f).Ok?
    ensures Storable(DecodeUser(h, f).value)
  {
    DecodeAllItems(AttachmentDecoder(h), Field(f, "attachments", Arr([])).items);
  }

  lemma DecodedAssistant(h: Host, f: Fields)
    requires DecodeAssistant(h, f).Ok?
    ensures Storable(DecodeAssistant(h, f).value)
  {
    DecodeAllItems(DecodeContinuation, Field(f, "continuations", Arr([])).items);
  }

  /** Nothing that decoding accepts is unstorable: what was read can be written and read again. */
  lemma DecodedIsStorable(h: Host, f: Fields)
    requires Decode(h, f).Ok?
    ensures Storable(Decode(h, f).value) && Decode(h, Encode(Decode(h, f).value)) == Decode(h, f)
  {
    if DecodeUser(h, f).Ok? { DecodedUser(h, f); }
    if DecodeAssistant(h, f).Ok? { DecodedAssistant(h, f); }
    RoundTrip(h, Decode(h, f).value);
  }

  /** Different storable messages are stored differently. */
  lemma EncodingIsInjective(h: Host, a: Message, b: Message)
    requires Storable(a) && Storable(b) && Encode(a) == Encode(b)
    ensures a == b
  {
    RoundTrip(h, a);
    RoundTrip(h, b);
  }

  /** The assistant message of a turn that the accumulator accepted survives being stored. */
  lemma StreamedTurnsAreStorable(h: Host, events: seq<Streaming.Neutral>, blank: string -> bool)
    requires Streaming.AbsorbAll(Streaming.EMPTY, events).Ok?
    requires Streaming.ToTurn(Streaming.AbsorbAll(Streaming.EMPTY, events).value, blank).Ok?
    ensures var t := Streaming.ToTurn(Streaming.AbsorbAll(Streaming.EMPTY, events).value, blank).value;
      var m := AssistantMessage(t.text, t.toolCalls, t.reasoning, t.continuations);
      Decode(h, Encode(m)) == Ok(m)
  {
    Streaming.TurnsAreComplete(events, blank);
    var t := Streaming.ToTurn(Streaming.AbsorbAll(Streaming.EMPTY, events).value, blank).value;
    RoundTrip(h, AssistantMessage(t.text, t.toolCalls, t.reasoning, t.continuations));
  }

  // ---------------------------------------------------------------- the loops of the decoder

  method AttachmentsFrom(h: Host, items: seq<Json>) returns (r: Result<seq<AttachmentRef>, Invalid>)
    ensures r == DecodeAll(AttachmentDecoder(h), items)
  {
    ghost var decode := AttachmentDecoder(h);
    DecodeAllItems(decode, items);
    var attachments: seq<AttachmentRef> := [];
    for i := 0 to |items|
      invariant |attachments| == i && forall k :: 0 <= k < i ==> decode(items[k]) == Ok(attachments[k])
    {
      var item := DecodeAttachment(h, items[i]);
      assert decode(items[i]) == item;
      if item.Err? {
        return Err(Invalid);
      }
      attachments := attachments + [item.value];
    }
    assert attachments == DecodeAll(decode, items).value;
    r := Ok(attachments);
  }

  method ContinuationsFrom(items: seq<Json>) returns (r: Result<seq<ProviderContinuation>, Invalid>)
    ensures r == DecodeAll(DecodeContinuation, items)
  {
    DecodeAllItems(DecodeContinuation, items);
    var continuations: seq<ProviderContinuation> := [];
    for i := 0 to |items|
      invariant |continuations| == i && forall k :: 0 <= k < i ==> DecodeContinuation(items[k]) == Ok(continuations[k])
    {
      var item := DecodeContinuation(items[i]);
      if item.Err? {
        return Err(Invalid);
      }
      continuations := continuations + [item.value];
    }
    assert continuations == DecodeAll(DecodeContinuation, items).value;
    r := Ok(continuations);
  }
}
