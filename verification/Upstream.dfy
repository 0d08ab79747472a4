/**
 The upstream protocol from the sender's side: the events an Anthropic-style server means
 to send, and every way of writing them that says so in the fields the decoder reads. The
 decoder reads back exactly what was meant.
 */
module Upstream {
  import opened Wrappers
  import opened Json
  import opened Sse
  import opened Events

  datatype Sent =
    | SentStart(inputTokens: int)
    | SentBlock
    | SentText(text: string)
    | SentThinking(thinking: string)
    | SentToolUse(index: int, id: string, name: string)
    | SentToolJson(index: int, partial: string)
    | SentDelta(outputTokens: int, stopReason: string)
    | SentStop
    | SentError(msg: string)
    | SentPing
    | SentDone
    | SentOther(typ: string)

  /** The types under which the event can be sent. */
  function TypesOf(u: Sent): set<string> {
    match u
    case SentStart(_) => {"message_start"}
    case SentBlock => {"content_block_start"}
    case SentText(_) => {"content_block_delta"}
    case SentThinking(_) => {"content_block_delta"}
    case SentToolUse(_, _, _) => {"content_block_start"}
    case SentToolJson(_, _) => {"content_block_delta"}
    case SentDelta(_, _) => {"message_delta"}
    case SentStop => {"message_stop"}
    case SentError(_) => {"error", "stream_error"}
    case SentPing => {"ping", "heartbeat"}
    case SentDone => {}
    case SentOther(typ) => {typ}
  }

  function ErrorEvent(msg: string): StreamEvent {
    StreamEvent("error", errMsg := if msg == "" then "upstream stream error" else msg, done := true)
  }

  /** The semantic event that was meant; a ping means nothing. */
  function EventFor(u: Sent): Option<StreamEvent> {
    match u
    case SentStart(n) => Some(StreamEvent("message_start", inputTokens := n))
    case SentBlock => Some(StreamEvent("content_block_start"))
    case SentText(text) => Some(StreamEvent("text", text := text))
    case SentThinking(thinking) => Some(StreamEvent("reasoning", reasoning := thinking))
    case SentToolUse(i, id, name) => Some(StreamEvent("tool_start", toolIndex := i, toolId := id, toolName := name))
    case SentToolJson(i, partial) => Some(StreamEvent("tool_args", toolIndex := i, toolArgs := partial))
    case SentDelta(n, reason) => Some(StreamEvent("message_delta", outputTokens := n, stopReason := reason))
    case SentStop => Some(StreamEvent("message_stop", done := true))
    case SentError(msg) => Some(ErrorEvent(msg))
    case SentPing => None
    case SentDone => Some(StreamEvent("done", done := true))
    case SentOther(typ) => Some(StreamEvent(typ))
  }

  /** The types the decoder knows. */
  const KNOWN := {"heartbeat", "ping", "stream_error", "error", "message_start", "content_block_start",
                  "content_block_delta", "message_delta", "message_stop"}

  /**
   The numbers sent fit the decoder's 64-bit integers, and an event of another type, such
   as the end of a block, does not go by a name that the translator uses itself.
   */
  predicate InRange(u: Sent) {
    match u
    case SentStart(n) => MIN_INT64 <= n <= MAX_INT64
    case SentToolUse(i, _, _) => MIN_INT64 <= i <= MAX_INT64
    case SentToolJson(i, _) => MIN_INT64 <= i <= MAX_INT64
    case SentDelta(n, _) => MIN_INT64 <= n <= MAX_INT64
    case SentOther(typ) => typ != "" && typ !in KNOWN && KindOf(typ) == Other
    case _ => true
  }

  // ----- What an object says -----

  predicate HasString(obj: Object, key: string, s: string) {
    key in obj && obj[key] == JStr(s)
  }

  predicate HasInt(obj: Object, key: string, n: int) {
    key in obj && obj[key] == JInt(n)
  }

  /** The object under a key; the empty object if there is none. */
  function Under(obj: Object, key: string): Object {
    if key in obj && obj[key].JObj? then obj[key].fields else map[]
  }

  /** The content block, under either of its names. */
  function BlockIn(obj: Object): Object {
    Under(obj, if "content_block" in obj then "content_block" else "content")
  }

  /** The object says what was meant, whatever other fields it carries. */
  predicate Says(obj: Object, u: Sent) {
    match u
    case SentStart(n) => HasInt(Under(Under(obj, "message"), "usage"), "input_tokens", n)
    case SentBlock => "type" in BlockIn(obj) && BlockIn(obj)["type"] != JStr("tool_use")
    case SentText(text) =>
      HasString(Under(obj, "delta"), "type", "text_delta") && HasString(Under(obj, "delta"), "text", text)
    case SentThinking(thinking) =>
      HasString(Under(obj, "delta"), "type", "thinking_delta") && HasString(Under(obj, "delta"), "thinking", thinking)
    case SentToolUse(i, id, name) =>
      && HasInt(obj, "index", i) && HasString(BlockIn(obj), "type", "tool_use")
      && HasString(BlockIn(obj), "id", id) && HasString(BlockIn(obj), "name", name)
    case SentToolJson(i, partial) => HasInt(obj, "index", i) && SaysArguments(Under(obj, "delta"), partial)
    case SentDelta(n, reason) =>
      HasInt(Under(obj, "usage"), "output_tokens", n) && HasString(Under(obj, "delta"), "stop_reason", reason)
    case SentError(msg) => HasString(Under(obj, "error"), "message", msg)
    case _ => true
  }

  /** Arguments come under either of their names. */
  predicate SaysArguments(delta: Object, partial: string) {
    && (HasString(delta, "type", "input_json_delta") || HasString(delta, "type", "arguments_delta"))
    && if "partial_json" in delta then
         HasString(delta, "partial_json", partial) && (partial == "" ==> "arguments" !in delta)
       else HasString(delta, "arguments", partial)
  }

  /** The type is in the object, whatever the event line says, or else on the event line. */
  predicate Typed(line: string, obj: Object, u: Sent) {
    if "type" in obj then obj["type"].JStr? && obj["type"].s in TypesOf(u) else line in TypesOf(u)
  }

  /** One event as it is written: its object, and the lines of its frame. */
  datatype Wire = Wire(meaning: Sent, obj: Object, fields: seq<FieldLine>)

  /** The name on the event line, "" for none. */
  function LineOf(w: Wire): string {
    WithFields(EMPTY, w.fields).event
  }

  /** The object says what was meant, and the data lines, together, are its text; the end marker has no object. */
  predicate Faithful(codec: Codec, w: Wire) {
    && GoodFields(w.fields)
    && if w.meaning.SentDone? then WithFields(EMPTY, w.fields).data == "[DONE]"
       else
         && InRange(w.meaning) && Says(w.obj, w.meaning) && Typed(LineOf(w), w.obj, w.meaning)
         && WithFields(EMPTY, w.fields).data == codec.print_(JObj(w.obj))
  }

  // ----- What the decoder reads -----

  lemma UnderIs(obj: Object, key: string)
    requires Under(obj, key) != map[]
    ensures AsObject(Field(obj, key)) == Some(Under(obj, key)) && key in obj
  {
  }

  lemma StartDecodes(obj: Object, n: int)
    requires InRange(SentStart(n)) && Says(obj, SentStart(n))
    ensures DecodeMessageStart(obj) == StreamEvent("message_start", inputTokens := n)
  {
    var m := Under(obj, "message");
    assert Under(m, "usage") != map[];
    UnderIs(obj, "message");
    UnderIs(m, "usage");
  }

  lemma BlockDecodes(obj: Object)
    requires BlockIn(obj) != map[]
    ensures var bm := BlockIn(obj);
            DecodeBlockStart(obj) ==
            if AsString(Field(bm, "type")) == "tool_use" then
              StreamEvent("tool_start", toolIndex := AsInt(Field(obj, "index")), toolId := AsString(Field(bm, "id")),
                          toolName := AsString(Field(bm, "name")))
            else StreamEvent("content_block_start")
  {
    UnderIs(obj, if "content_block" in obj then "content_block" else "content");
  }

  lemma ToolUseDecodes(obj: Object, i: int, id: string, name: string)
    requires InRange(SentToolUse(i, id, name)) && Says(obj, SentToolUse(i, id, name))
    ensures DecodeBlockStart(obj) == StreamEvent("tool_start", toolIndex := i, toolId := id, toolName := name)
  {
    BlockDecodes(obj);
    hide BlockIn, DecodeBlockStart;
  }

  lemma PlainBlockDecodes(obj: Object)
    requires Says(obj, SentBlock)
    ensures DecodeBlockStart(obj) == StreamEvent("content_block_start")
  {
    BlockDecodes(obj);
    hide BlockIn, DecodeBlockStart;
  }

  lemma TextDecodes(obj: Object, text: string)
    requires Says(obj, SentText(text))
    ensures DecodeBlockDelta(obj) == StreamEvent("text", text := text)
  {
    UnderIs(obj, "delta");
    hide Under;
  }

  lemma ThinkingDecodes(obj: Object, thinking: string)
    requires Says(obj, SentThinking(thinking))
    ensures DecodeBlockDelta(obj) == StreamEvent("reasoning", reasoning := thinking)
  {
    UnderIs(obj, "delta");
    hide Under;
  }

  lemma ToolJsonDecodes(obj: Object, i: int, partial: string)
    requires InRange(SentToolJson(i, partial)) && Says(obj, SentToolJson(i, partial))
    ensures DecodeBlockDelta(obj) == StreamEvent("tool_args", toolIndex := i, toolArgs := partial)
  {
    UnderIs(obj, "delta");
    hide Under;
  }

  lemma MessageDeltaDecodes(obj: Object, n: int, reason: string)
    requires InRange(SentDelta(n, reason)) && Says(obj, SentDelta(n, reason))
    ensures DecodeMessageDelta(obj) == StreamEvent("message_delta", outputTokens := n, stopReason := reason)
  {
    UnderIs(obj, "delta");
    UnderIs(obj, "usage");
    hide Under;
  }

  lemma ErrorDecodes(obj: Object, msg: string)
    requires Says(obj, SentError(msg))
    ensures DecodeError(obj) == ErrorEvent(msg)
  {
    UnderIs(obj, "error");
    hide Under;
  }

  /** The part of an object decoding that its wire type selects. */
  lemma Dispatch(line: string, obj: Object, t: string)
    requires WireType(line, obj) == t
    ensures t == "message_start" ==> DecodeEvent(line, obj) == Some(DecodeMessageStart(obj))
    ensures t == "content_block_start" ==> DecodeEvent(line, obj) == Some(DecodeBlockStart(obj))
    ensures t == "content_block_delta" ==> DecodeEvent(line, obj) == Some(DecodeBlockDelta(obj))
    ensures t == "message_delta" ==> DecodeEvent(line, obj) == Some(DecodeMessageDelta(obj))
    ensures t == "message_stop" ==> DecodeEvent(line, obj) == Some(StreamEvent(t, done := true))
    ensures t in {"error", "stream_error"} ==> DecodeEvent(line, obj) == Some(DecodeError(obj))
    ensures t in {"ping", "heartbeat"} ==> DecodeEvent(line, obj) == None
    ensures t !in KNOWN ==> DecodeEvent(line, obj) == Some(StreamEvent(t))
  {
    hide WireType, DecodeBlockDelta, DecodeMessageStart, DecodeBlockStart, DecodeMessageDelta, DecodeError;
  }

  lemma TypeRead(line: string, obj: Object, u: Sent)
    requires Typed(line, obj, u) && InRange(u)
    ensures WireType(line, obj) in TypesOf(u)
  {
  }

  /**
   Every event is decoded as it was meant, however it is written: with its type in the
   object, whatever the event line says, or only on the event line; under either name where
   there are two; and with any further fields.
   */
  lemma DecodesAsMeant(u: Sent, line: string, obj: Object)
    requires InRange(u) && Says(obj, u) && Typed(line, obj, u)
    ensures DecodeEvent(line, obj) == EventFor(u)
  {
    var t := WireType(line, obj);
    TypeRead(line, obj, u);
    hide Says, Typed, WireType, DecodeEvent,
      DecodeBlockDelta, DecodeMessageStart, DecodeBlockStart, DecodeMessageDelta, DecodeError;
    Dispatch(line, obj, t);
    match u {
      case SentStart(n) => StartDecodes(obj, n);
      case SentBlock => PlainBlockDecodes(obj);
      case SentText(text) => TextDecodes(obj, text);
      case SentThinking(thinking) => ThinkingDecodes(obj, thinking);
      case SentToolUse(i, id, name) => ToolUseDecodes(obj, i, id, name);
      case SentToolJson(i, partial) => ToolJsonDecodes(obj, i, partial);
      case SentDelta(n, reason) => MessageDeltaDecodes(obj, n, reason);
      case SentStop =>
      case SentError(msg) => ErrorDecodes(obj, msg);
      case SentPing =>
      case SentDone =>
      case SentOther(_) =>
    }
  }

  // ----- What does not fit -----

  /** A number that is no 64-bit integer counts as none, and a block delta of another type says nothing. */
  lemma Misfits(line: string, obj: Object)
    ensures Typed(line, obj, SentStart(0)) && HasOutsize(Under(Under(obj, "message"), "usage"), "input_tokens") ==>
              DecodeEvent(line, obj) == Some(StreamEvent("message_start"))
    ensures Typed(line, obj, SentText("")) && "type" in Under(obj, "delta")
            && Under(obj, "delta")["type"] !in {JStr("text_delta"), JStr("thinking_delta"), JStr("input_json_delta"),
                                                JStr("arguments_delta")} ==>
              DecodeEvent(line, obj) == Some(StreamEvent("content_block_delta"))
  {
    hide DecodeEvent, WireType;
    if Typed(line, obj, SentStart(0)) {
      TypeRead(line, obj, SentStart(0));
      Dispatch(line, obj, "message_start");
      if HasOutsize(Under(Under(obj, "message"), "usage"), "input_tokens") {
        OutsizeStart(obj);
      }
    }
    if Typed(line, obj, SentText("")) {
      TypeRead(line, obj, SentText(""));
      Dispatch(line, obj, "content_block_delta");
      if Under(obj, "delta") != map[] {
        UnderIs(obj, "delta");
      }
    }
    hide DecodeMessageStart, Under, HasOutsize;
  }

  /** The value under the key is a number, but no 64-bit integer. */
  predicate HasOutsize(obj: Object, key: string) {
    key in obj &&
    (obj[key].JDecimal? || (obj[key].JInt? && !(-0x8000_0000_0000_0000 <= obj[key].n < 0x8000_0000_0000_0000)))
  }

  lemma OutsizeStart(obj: Object)
    requires HasOutsize(Under(Under(obj, "message"), "usage"), "input_tokens")
    ensures DecodeMessageStart(obj) == StreamEvent("message_start")
  {
    var m := Under(obj, "message");
    assert Under(m, "usage") != map[];
    UnderIs(obj, "message");
    UnderIs(m, "usage");
  }

  // ----- Whole streams -----

  function Bytes(w: Wire): string {
    PrintFields(w.fields) + "\n"
  }

  function EventsFor(u: Sent): seq<StreamEvent> {
    match EventFor(u)
    case Some(ev) => [ev]
    case None => []
  }

  function Sending(ws: seq<Wire>): string {
    if ws == [] then "" else Bytes(ws[0]) + Sending(ws[1..])
  }

  function Meant(us: seq<Sent>): seq<StreamEvent> {
    if us == [] then [] else EventsFor(us[0]) + Meant(us[1..])
  }

  function Meanings(ws: seq<Wire>): seq<Sent> {
    seq(|ws|, k requires 0 <= k < |ws| => ws[k].meaning)
  }

  lemma DecodeOne(parse: string -> Option<Value>, fr: Frame)
    ensures DecodeFrames(parse, [fr]) == match DecodeFrame(parse, fr) case Some(ev) => [ev] case None => []
  {
    hide DecodeFrame;
    assert [fr][1..] == [];
    assert DecodeFrames(parse, []) == [];
  }

  lemma OneFrame(w: Wire)
    requires GoodFields(w.fields) && WithFields(EMPTY, w.fields).data != ""
    ensures AtFrameBoundary(Bytes(w)) && Frames(Bytes(w)) == [WithFields(EMPTY, w.fields)]
  {
    assert Frames("") == [];
    hide Frames, AtFrameBoundary, GoodFields, WithFields, PrintFields;
    FramesOfFields(w.fields, "");
    FieldsBoundary(w.fields);
    assert "\n" + "" == "\n" && [WithFields(EMPTY, w.fields)] + [] == [WithFields(EMPTY, w.fields)];
  }

  lemma DoneMeans()
    ensures EventFor(SentDone) == Some(StreamEvent("done", done := true))
  {
  }

  lemma OneDecodes(codec: Codec, w: Wire)
    requires codec.Sound() && Faithful(codec, w)
    ensures AtFrameBoundary(Bytes(w)) && EventsOf(codec.parse, Bytes(w)) == EventsFor(w.meaning)
  {
    hide EventFor, DecodeEvent, Frames, AtFrameBoundary, DecodeFrames, InRange, Says, Typed, GoodFields, WithFields,
      Bytes;
    assert codec.SoundAt(JObj(w.obj));
    if !w.meaning.SentDone? {
      DecodesAsMeant(w.meaning, LineOf(w), w.obj);
    } else {
      assert EventFor(SentDone) == Some(StreamEvent("done", done := true)) by {
        DoneMeans();
      }
    }
    OneFrame(w);
    DecodeOne(codec.parse, WithFields(EMPTY, w.fields));
  }

  lemma SendingCons(ws: seq<Wire>, rest: string)
    requires ws != []
    ensures Sending(ws) + rest == Bytes(ws[0]) + (Sending(ws[1..]) + rest)
  {
    hide Bytes;
  }

  lemma MeantCons(ws: seq<Wire>)
    requires ws != []
    ensures Meant(Meanings(ws)) == EventsFor(ws[0].meaning) + Meant(Meanings(ws[1..]))
  {
    assert Meanings(ws)[1..] == Meanings(ws[1..]);
  }

  /** Sending then decoding gives back the meant events, in order, whatever follows. */
  lemma {:induction false} SendThenDecode(codec: Codec, ws: seq<Wire>, rest: string)
    requires codec.Sound() && forall w :: w in ws ==> Faithful(codec, w)
    ensures EventsOf(codec.parse, Sending(ws) + rest) == Meant(Meanings(ws)) + EventsOf(codec.parse, rest)
    decreases |ws|
  {
    if ws == [] {
      assert Sending(ws) + rest == rest;
    } else {
      assert Faithful(codec, ws[0]) && forall w :: w in ws[1..] ==> Faithful(codec, w) by {
        assert ws[0] in ws && forall w :: w in ws[1..] ==> w in ws;
        hide Faithful;
      }
      hide *;
      OneDecodes(codec, ws[0]);
      SendThenDecode(codec, ws[1..], rest);
      SendingCons(ws, rest);
      MeantCons(ws);
      EventsConcat(codec.parse, Bytes(ws[0]), Sending(ws[1..]) + rest);
      Regroup(EventsFor(ws[0].meaning), Meant(Meanings(ws[1..])), EventsOf(codec.parse, rest));
    }
  }

  // ----- A real event -----

  /** The start of a message as it is sent: with an id, a role and more usage than the decoder reads. */
  function RealStart(id: string, n: int): Object {
    map["type" := JStr("message_start"),
        "message" := JObj(map["id" := JStr(id), "role" := JStr("assistant"),
                              "usage" := JObj(map["input_tokens" := JInt(n), "output_tokens" := JInt(1)])])]
  }

  /** Its frame, without a space after the colons. */
  function RealFields(codec: Codec, obj: Object): seq<FieldLine> {
    [EventField("message_start", true), DataField(codec.print_(JObj(obj)), true)]
  }

  lemma RealStartFaithful(codec: Codec, id: string, n: int)
    requires MIN_INT64 <= n <= MAX_INT64 && codec.Sound() && !(" " <= codec.print_(JObj(RealStart(id, n))))
    ensures Faithful(codec, Wire(SentStart(n), RealStart(id, n), RealFields(codec, RealStart(id, n))))
  {
    var obj := RealStart(id, n);
    assert codec.SoundAt(JObj(obj));
    var payload := codec.print_(JObj(obj));
    assert payload[|payload| - 1] in payload;
    RealFieldsRead(payload);
    assert Says(obj, SentStart(n)) && Typed("message_start", obj, SentStart(n));
    hide Says, Typed, RealStart, GoodFields, WithFields;
  }

  lemma RealFieldsRead(payload: string)
    requires payload != "" && '\n' !in payload && payload[0] != ' ' && payload[|payload| - 1] != '\r'
    ensures var fs := [EventField("message_start", true), DataField(payload, true)];
            GoodFields(fs) && WithFields(EMPTY, fs) == Frame("message_start", payload)
  {
    var fs := [EventField("message_start", true), DataField(payload, true)];
    assert GoodField(fs[0]) && GoodField(fs[1]);
    hide GoodField;
    WithFieldsCons(EMPTY, fs);
    assert fs[1..] == [fs[1]] && [fs[1]][1..] == [] && [fs[0]][1..] == [];
    assert "" + payload == payload;
    assert forall x :: WithFields(x, []) == x;
  }
}
