/**
 The OpenAI side of the translation: the chunks of a streamed response, the JSON
 object of an aggregated one, and how each event turns into chunks.
 */
module Chunks {
  import opened Wrappers
  import opened Json
  import opened Sse
  import opened Events
  import opened Decoder
  import opened Meaning

  /** What every chunk of one response repeats. */
  datatype Envelope = Envelope(id: string, created: int, model: string)

  /** The varying part of a chunk. */
  datatype Piece = Piece(delta: Object, finish: Option<string>)

  function ChunkValue(env: Envelope, piece: Piece): Value {
    JObj(map[
      "id" := JStr(env.id),
      "object" := JStr("chat.completion.chunk"),
      "created" := JInt(env.created),
      "model" := JStr(env.model),
      "choices" := JArr([JObj(map[
        "index" := JInt(0),
        "delta" := JObj(piece.delta),
        "finish_reason" := if piece.finish.Some? then JStr(piece.finish.value) else JNull
      ])])
    ])
  }

  function TextPiece(text: string, withRole: bool): Piece {
    var delta: Object := map["content" := JStr(text)];
    Piece(if withRole then delta["role" := JStr("assistant")] else delta, None)
  }

  function StartPiece(index: int, id: string, name: string): Piece {
    Piece(map["tool_calls" := JArr([JObj(map[
      "index" := JInt(index),
      "id" := JStr(id),
      "type" := JStr("function"),
      "function" := JObj(map["name" := JStr(name), "arguments" := JStr("")])
    ])])], None)
  }

  function ArgsPiece(index: int, args: string): Piece {
    Piece(map["tool_calls" := JArr([JObj(map[
      "index" := JInt(index),
      "function" := JObj(map["arguments" := JStr(args)])
    ])])], None)
  }

  function ReasoningPiece(reasoning: string): Piece {
    Piece(map["reasoning_content" := JStr(reasoning)], None)
  }

  function FinishPiece(finish: string): Piece {
    Piece(map[], Some(finish))
  }

  /** What is streamed for event `ev` when `before` has been seen. */
  function PieceOf(newId: nat -> string, before: seq<StreamEvent>, ev: StreamEvent): seq<Piece> {
    match KindAt(ev)
    case Text => if ev.text == "" then [] else [TextPiece(ev.text, TextOf(before) == "")]
    case ToolStart => [StartPiece(ev.toolIndex, StartId(newId, before, ev), ev.toolName)]
    case ToolArgs => if ev.toolArgs == "" then [] else [ArgsPiece(ev.toolIndex, ev.toolArgs)]
    case _ => []
  }

  function Pieces(newId: nat -> string, evs: seq<StreamEvent>): seq<Piece> {
    if evs == [] then [] else Pieces(newId, Init(evs)) + PieceOf(newId, Init(evs), Last(evs))
  }

  /** What is streamed once the events are over. */
  function Closing(evs: seq<StreamEvent>): seq<Piece> {
    (if ReasoningOf(evs) == "" then [] else [ReasoningPiece(ReasoningOf(evs))]) + [FinishPiece(FinishOf(evs))]
  }

  function Payload(codec: Codec, env: Envelope, piece: Piece): string {
    codec.print_(ChunkValue(env, piece))
  }

  function Payloads(codec: Codec, env: Envelope, pieces: seq<Piece>): seq<string> {
    seq(|pieces|, k requires 0 <= k < |pieces| => Payload(codec, env, pieces[k]))
  }

  lemma PiecesSnoc(newId: nat -> string, evs: seq<StreamEvent>, ev: StreamEvent)
    ensures Pieces(newId, evs + [ev]) == Pieces(newId, evs) + PieceOf(newId, evs, ev)
  {
    Snoc(evs, ev);
  }

  lemma PayloadsAppend(codec: Codec, env: Envelope, a: seq<Piece>, b: seq<Piece>)
    ensures Payloads(codec, env, a + b) == Payloads(codec, env, a) + Payloads(codec, env, b)
  {
  }

  /** The bytes written for a sequence of pieces. */
  function Wire(codec: Codec, env: Envelope, pieces: seq<Piece>): string {
    PrintAll(Payloads(codec, env, pieces))
  }

  lemma WireAppend(codec: Codec, env: Envelope, a: seq<Piece>, b: seq<Piece>)
    ensures Wire(codec, env, a + b) == Wire(codec, env, a) + Wire(codec, env, b)
  {
    PayloadsAppend(codec, env, a, b);
    PrintAllAppend(Payloads(codec, env, a), Payloads(codec, env, b));
  }

  lemma WireNil(codec: Codec, env: Envelope)
    ensures Wire(codec, env, []) == ""
  {
  }

  lemma WireSingle(codec: Codec, env: Envelope, piece: Piece)
    ensures Wire(codec, env, [piece]) == DataFrame(Payload(codec, env, piece))
  {
    var p := Payload(codec, env, piece);
    assert Payloads(codec, env, [piece]) == [p];
    assert PrintAll([p]) == DataFrame(p) + PrintAll([]);
  }

  /** Everything a translator needs besides the bytes: the JSON library, the envelope, the id source. */
  datatype Context = Context(codec: Codec, env: Envelope, newId: nat -> string)

  function Used(ctx: Context, s: string): seq<StreamEvent> {
    Consumed(EventsOf(ctx.codec.parse, s))
  }

  function Outcome(ctx: Context, s: string, terminal: Terminal): Ending {
    EndingOf(EventsOf(ctx.codec.parse, s), terminal)
  }

  /** The payloads a streaming translation of `s` writes, one data frame each. */
  function StreamPayloads(ctx: Context, s: string, terminal: Terminal): seq<string> {
    var evs := Used(ctx, s);
    var body := Payloads(ctx.codec, ctx.env, Pieces(ctx.newId, evs));
    match Outcome(ctx, s, terminal)
    case Completed => body + Payloads(ctx.codec, ctx.env, Closing(evs)) + [DONE]
    case Failed(_) => body
  }

  lemma {:induction false} StreamedBytes(ctx: Context, base: string, s: string, terminal: Terminal)
    ensures base + PrintAll(StreamPayloads(ctx, s, terminal)) ==
            var written := base + Wire(ctx.codec, ctx.env, Pieces(ctx.newId, Used(ctx, s)));
            if Outcome(ctx, s, terminal) == Completed
            then written + Wire(ctx.codec, ctx.env, Closing(Used(ctx, s))) + DoneFrame()
            else written
  {
    if Outcome(ctx, s, terminal) == Completed {
      PrintAllThree(base, Payloads(ctx.codec, ctx.env, Pieces(ctx.newId, Used(ctx, s))),
                    Payloads(ctx.codec, ctx.env, Closing(Used(ctx, s))), [DONE]);
      PrintDone();
      hide PrintAll, DoneFrame, Pieces, Closing, Payloads, Used, Outcome;
    }
  }

  lemma PrintDone()
    ensures PrintAll([DONE]) == DoneFrame()
  {
    assert PrintAll([DONE]) == DataFrame(DONE) + PrintAll([]);
  }

  lemma PrintAllThree(base: string, a: seq<string>, b: seq<string>, c: seq<string>)
    ensures base + PrintAll(a + b + c) == base + PrintAll(a) + PrintAll(b) + PrintAll(c)
  {
    hide PrintAll;
    PrintAllAppend(a + b, c);
    PrintAllAppend(a, b);
    var x, y, z := PrintAll(a), PrintAll(b), PrintAll(c);
    assert base + (x + y + z) == base + x + y + z;
  }

  function CallValue(call: Call): Value {
    JObj(map[
      "id" := JStr(call.id),
      "type" := JStr("function"),
      "function" := JObj(map["name" := JStr(call.name), "arguments" := JStr(call.args)])
    ])
  }

  function CallValues(calls: seq<Call>): seq<Value> {
    seq(|calls|, k requires 0 <= k < |calls| => CallValue(calls[k]))
  }

  function MessageValue(content: string, reasoning: string, calls: seq<Call>): Object {
    var plain: Object := map["role" := JStr("assistant"), "content" := if content == "" then JNull else JStr(content)];
    var reasoned := if reasoning == "" then plain else plain["reasoning_content" := JStr(reasoning)];
    if calls == [] then reasoned else reasoned["tool_calls" := JArr(CallValues(calls))]
  }

  /** The aggregated response object. */
  function CompletionValue(env: Envelope, message: Object, finish: string, usage: Usage): Value {
    JObj(map[
      "id" := JStr(env.id),
      "object" := JStr("chat.completion"),
      "created" := JInt(env.created),
      "model" := JStr(env.model),
      "choices" := JArr([JObj(map[
        "index" := JInt(0),
        "finish_reason" := JStr(finish),
        "message" := JObj(message)
      ])]),
      "usage" := JObj(map[
        "prompt_tokens" := JInt(usage.input),
        "completion_tokens" := JInt(usage.output),
        "total_tokens" := JInt(usage.input + usage.output)
      ])
    ])
  }

  function Completion(ctx: Context, s: string): Value {
    var evs := Used(ctx, s);
    CompletionValue(ctx.env, MessageValue(TextOf(evs), ReasoningOf(evs), CallList(ctx.newId, evs)),
                    FinishOf(evs), UsageOf(evs))
  }

  function ErrorValue(msg: string): Value {
    JObj(map["error" := JObj(map["message" := JStr(msg), "type" := JStr("upstream_error")])])
  }

  /** All the payloads of a streamed response: a failing stream gets an error payload and the end marker. */
  function ResponsePayloads(ctx: Context, s: string, terminal: Terminal): seq<string> {
    StreamPayloads(ctx, s, terminal) +
    match Outcome(ctx, s, terminal)
    case Completed => []
    case Failed(msg) => [ctx.codec.print_(ErrorValue(msg)), DONE]
  }
}
