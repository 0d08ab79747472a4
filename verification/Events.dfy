/**
 From frames to the semantic events of the upstream hybrid stream
 (message_start, content blocks, message_delta, message_stop, errors).
 */
module Events {
  import opened Wrappers
  import opened Json
  import opened Sse

  datatype StreamEvent = StreamEvent(
    typ: string,
    nameonly text: string := "",
    nameonly reasoning: string := "",
    nameonly toolIndex: int := 0,
    nameonly toolId: string := "",
    nameonly toolName: string := "",
    nameonly toolArgs: string := "",
    nameonly inputTokens: int := 0,
    nameonly outputTokens: int := 0,
    nameonly stopReason: string := "",
    nameonly errMsg: string := "",
    nameonly done: bool := false)

  /** The event types the translator tells apart. */
  datatype Kind = Error | MessageStart | Text | Reasoning | ToolStart | ToolArgs | MessageDelta | Other

  function KindOf(typ: string): Kind {
    if typ == "error" then Error
    else if typ == "message_start" then MessageStart
    else if typ == "text" then Text
    else if typ == "reasoning" then Reasoning
    else if typ == "tool_start" then ToolStart
    else if typ == "tool_args" then ToolArgs
    else if typ == "message_delta" then MessageDelta
    else Other
  }

  function UsageTokens(v: Option<Value>): (int, int) {
    match AsObject(v)
    case None => (0, 0)
    case Some(m) => (AsInt(Field(m, "input_tokens")), AsInt(Field(m, "output_tokens")))
  }

  const DEFAULT_ERROR := "upstream stream error"

  function DecodeError(obj: Object): StreamEvent {
    var msg := match AsObject(Field(obj, "error"))
               case Some(em) => AsString(Field(em, "message"))
               case None => "";
    StreamEvent("error", errMsg := if msg == "" then DEFAULT_ERROR else msg, done := true)
  }

  function DecodeMessageStart(obj: Object): StreamEvent {
    var in_ := match AsObject(Field(obj, "message"))
               case Some(mm) => if "usage" in mm then UsageTokens(Some(mm["usage"])).0 else 0
               case None => 0;
    StreamEvent("message_start", inputTokens := in_)
  }

  function DecodeBlockStart(obj: Object): StreamEvent {
    var block := if "content_block" in obj then Field(obj, "content_block") else Field(obj, "content");
    match AsObject(block)
    case Some(bm) =>
      if AsString(Field(bm, "type")) == "tool_use" then
        StreamEvent("tool_start",
                    toolIndex := AsInt(Field(obj, "index")),
                    toolId := AsString(Field(bm, "id")),
                    toolName := AsString(Field(bm, "name")))
      else StreamEvent("content_block_start")
    case None => StreamEvent("content_block_start")
  }

  function DecodeBlockDelta(obj: Object): StreamEvent {
    match AsObject(Field(obj, "delta"))
    case None => StreamEvent("content_block_delta")
    case Some(d) =>
      var t := AsString(Field(d, "type"));
      if t == "text_delta" then StreamEvent("text", text := AsString(Field(d, "text")))
      else if t == "thinking_delta" then StreamEvent("reasoning", reasoning := AsString(Field(d, "thinking")))
      else if t == "input_json_delta" || t == "arguments_delta" then
        var partial := AsString(Field(d, "partial_json"));
        StreamEvent("tool_args",
                    toolIndex := AsInt(Field(obj, "index")),
                    toolArgs := if partial == "" then AsString(Field(d, "arguments")) else partial)
      else StreamEvent("content_block_delta")
  }

  function DecodeMessageDelta(obj: Object): StreamEvent {
    var out := if "usage" in obj then UsageTokens(Some(obj["usage"])).1 else 0;
    var reason := match AsObject(Field(obj, "delta"))
                  case Some(dm) => AsString(Field(dm, "stop_reason"))
                  case None => "";
    StreamEvent("message_delta", outputTokens := out, stopReason := reason)
  }

  /** The type on the wire: the object's own, or else the frame's event name. */
  function WireType(eventName: string, obj: Object): string {
    var t := AsString(Field(obj, "type"));
    if t == "" then eventName else t
  }

  /** One decoded frame; heartbeats give nothing. */
  function DecodeEvent(eventName: string, obj: Object): Option<StreamEvent> {
    var t := WireType(eventName, obj);
    if t == "heartbeat" || t == "ping" then None
    else if t == "stream_error" || t == "error" then Some(DecodeError(obj))
    else if t == "message_start" then Some(DecodeMessageStart(obj))
    else if t == "content_block_start" then Some(DecodeBlockStart(obj))
    else if t == "content_block_delta" then Some(DecodeBlockDelta(obj))
    else if t == "message_delta" then Some(DecodeMessageDelta(obj))
    else if t == "message_stop" then Some(StreamEvent(t, done := true))
    else Some(StreamEvent(t))
  }

  /** What one frame means; frames without data, with undecodable data, and heartbeats mean nothing. */
  function DecodeFrame(parse: string -> Option<Value>, fr: Frame): Option<StreamEvent> {
    if fr.data == DONE then Some(StreamEvent("done", done := true))
    else if fr.data == "" then None
    else
      match AsObject(parse(fr.data))
      case None => None
      case Some(obj) => DecodeEvent(fr.event, obj)
  }

  function DecodeFrames(parse: string -> Option<Value>, frames: seq<Frame>): seq<StreamEvent> {
    if frames == [] then []
    else
      var rest := DecodeFrames(parse, frames[1..]);
      match DecodeFrame(parse, frames[0])
      case Some(ev) => [ev] + rest
      case None => rest
  }

  /** All the events of a byte stream. */
  function EventsOf(parse: string -> Option<Value>, s: string): seq<StreamEvent> {
    DecodeFrames(parse, Frames(s))
  }

  lemma {:induction false} DecodeFramesConcat(parse: string -> Option<Value>, a: seq<Frame>, b: seq<Frame>)
    ensures DecodeFrames(parse, a + b) == DecodeFrames(parse, a) + DecodeFrames(parse, b)
  {
    if a == [] {
      assert a + b == b;
    } else {
      assert (a + b)[1..] == a[1..] + b;
      DecodeFramesConcat(parse, a[1..], b);
    }
  }

  lemma {:induction false} DecodeFramesSilent(parse: string -> Option<Value>, frames: seq<Frame>)
    requires forall fr :: fr in frames ==> DecodeFrame(parse, fr) == None
    ensures DecodeFrames(parse, frames) == []
  {
    if frames != [] {
      assert frames[0] in frames;
      DecodeFramesSilent(parse, frames[1..]);
    }
  }

  /** The events of a stream are compositional at frame boundaries. */
  lemma EventsConcat(parse: string -> Option<Value>, a: string, b: string)
    requires AtFrameBoundary(a)
    ensures EventsOf(parse, a + b) == EventsOf(parse, a) + EventsOf(parse, b)
  {
    FramesConcat(a, b);
    DecodeFramesConcat(parse, Frames(a), Frames(b));
  }

  /** Frames without data, with data that is no JSON object, and heartbeats. */
  predicate Silent(parse: string -> Option<Value>, fr: Frame) {
    fr.data != DONE &&
    match if fr.data == "" then None else AsObject(parse(fr.data))
    case None => true
    case Some(obj) => WireType(fr.event, obj) in {"heartbeat", "ping"}
  }

  /** Exactly the silent frames mean nothing. */
  lemma SilentFrames(parse: string -> Option<Value>, fr: Frame)
    ensures DecodeFrame(parse, fr) == None <==> Silent(parse, fr)
  {
    hide DecodeError, DecodeMessageStart, DecodeBlockStart, DecodeBlockDelta, DecodeMessageDelta;
  }

  /** Silent frames can be inserted at any frame boundary: the events stay the same. */
  lemma SilentFramesInvisible(parse: string -> Option<Value>, a: string, noise: string, b: string)
    requires AtFrameBoundary(a) && AtFrameBoundary(noise)
    requires forall fr :: fr in Frames(noise) ==> Silent(parse, fr)
    ensures EventsOf(parse, a + noise + b) == EventsOf(parse, a + b)
  {
    forall fr | fr in Frames(noise) ensures DecodeFrame(parse, fr) == None {
      SilentFrames(parse, fr);
    }
    hide DecodeFrame, Silent, AtFrameBoundary;
    var tail := noise + b;
    assert a + noise + b == a + tail;
    EventsConcat(parse, a, tail);
    assert EventsOf(parse, tail) == EventsOf(parse, b) by {
      DecodeFramesSilent(parse, Frames(noise));
      EventsConcat(parse, noise, b);
    }
    EventsConcat(parse, a, b);
  }

  /** Facts about every decoded event that the translators rely on. */
  ghost predicate WellFormed(ev: StreamEvent) {
    && (ev.typ == "error" ==> ev.done && ev.errMsg != "")
    && (ev.done ==> ev.typ in {"error", "done", "message_stop"})
  }

  lemma DecodedWellFormed(parse: string -> Option<Value>, fr: Frame)
    ensures var ev := DecodeFrame(parse, fr); ev.Some? ==> WellFormed(ev.value)
  {
  }

  lemma {:induction false} EventsWellFormed(parse: string -> Option<Value>, frames: seq<Frame>)
    ensures forall ev :: ev in DecodeFrames(parse, frames) ==> WellFormed(ev)
  {
    if frames != [] {
      DecodedWellFormed(parse, frames[0]);
      EventsWellFormed(parse, frames[1..]);
    }
  }
}
