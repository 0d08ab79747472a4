/** What a client reads around the message: whose object it is, of what kind, from when, by which model. */
module Heads {
  import opened Wrappers
  import opened Json
  import opened Sse
  import opened Events
  import opened Decoder
  import opened Meaning
  import opened Chunks
  import opened Client
  import opened Agreement
  import opened Server

  lemma ChunkHead(env: Envelope, piece: Piece)
    ensures var v := ChunkValue(env, piece);
      && HeadOf(v) == Head(env.id, "chat.completion.chunk", env.created, env.model)
      && OneChoice(v) && ErrorIn(v) == None && DeltaOf(v) == piece.delta
  {
  }

  lemma {:induction false} PiecesTyped(newId: nat -> string, evs: seq<StreamEvent>)
    ensures forall p :: p in Pieces(newId, evs) ==> FunctionEntries(p.delta)
  {
    if evs != [] {
      PiecesTyped(newId, Init(evs));
      var before, ev := Init(evs), Last(evs);
      forall p | p in PieceOf(newId, before, ev) ensures FunctionEntries(p.delta) {
        if KindAt(ev) == ToolStart {
          StartTyped(ev.toolIndex, StartId(newId, before, ev), ev.toolName);
        } else if KindAt(ev) == ToolArgs {
          ArgsTyped(ev.toolIndex, ev.toolArgs);
        }
        hide StartId, KindOf, TextOf, StartPiece, ArgsPiece;
      }
      hide PieceOf, FunctionEntries;
    }
  }

  lemma StartTyped(index: int, id: string, name: string)
    ensures FunctionEntries(StartPiece(index, id, name).delta)
  {
    assert ItemsOf(Field(StartPiece(index, id, name).delta, "tool_calls")) ==
           [StartPiece(index, id, name).delta["tool_calls"].items[0]];
    assert FunctionEntry(StartPiece(index, id, name).delta["tool_calls"].items[0]);
  }

  lemma ArgsTyped(index: int, args: string)
    ensures FunctionEntries(ArgsPiece(index, args).delta)
  {
    assert ItemsOf(Field(ArgsPiece(index, args).delta, "tool_calls")) ==
           [ArgsPiece(index, args).delta["tool_calls"].items[0]];
    assert FunctionEntry(ArgsPiece(index, args).delta["tool_calls"].items[0]);
  }

  lemma ClosingTyped(evs: seq<StreamEvent>)
    ensures forall p :: p in Closing(evs) ==> FunctionEntries(p.delta)
  {
    hide ReasoningOf, FinishOf;
  }

  /** What the client reads from payloads and the end marker: the values that were printed. */
  lemma {:induction false} PrintedValues(codec: Codec, vs: seq<Value>)
    requires codec.Sound()
    ensures ReadValues(codec.parse, Unnamed(Printed(codec, vs) + [DONE])) == Some(vs)
    decreases |vs|
  {
    if vs == [] {
      assert Printed(codec, vs) + [DONE] == [DONE] && Unnamed([DONE])[0] == Frame("", DONE);
    } else {
      var p, more := codec.print_(vs[0]), Printed(codec, vs[1..]) + [DONE];
      assert codec.SoundAt(vs[0]);
      PrintedValues(codec, vs[1..]);
      assert (Printed(codec, vs) + [DONE])[0] == p && (Printed(codec, vs) + [DONE])[1..] == more;
      var frames := Unnamed(Printed(codec, vs) + [DONE]);
      assert frames == [Frame("", p)] + Unnamed(more);
      assert frames[0] == Frame("", p) && frames[1..] == Unnamed(more);
      hide Unnamed, Printed;
      assert vs == [vs[0]] + vs[1..];
    }
  }

  function Printed(codec: Codec, vs: seq<Value>): seq<string> {
    seq(|vs|, k requires 0 <= k < |vs| => codec.print_(vs[k]))
  }

  function ChunkValues(env: Envelope, pieces: seq<Piece>): seq<Value> {
    seq(|pieces|, k requires 0 <= k < |pieces| => ChunkValue(env, pieces[k]))
  }

  /** The values of a response, in order. */
  function ResponseValues(ctx: Context, s: string, terminal: Terminal): seq<Value> {
    var evs := Used(ctx, s);
    match Chunks.Outcome(ctx, s, terminal)
    case Completed => ChunkValues(ctx.env, Pieces(ctx.newId, evs) + Closing(evs))
    case Failed(msg) => ChunkValues(ctx.env, Pieces(ctx.newId, evs)) + [ErrorValue(msg)]
  }

  lemma ResponsePrinted(ctx: Context, s: string, terminal: Terminal)
    ensures ResponsePayloads(ctx, s, terminal) == Printed(ctx.codec, ResponseValues(ctx, s, terminal)) + [DONE]
  {
    hide Pieces, Closing, Used, Chunks.Outcome, ErrorValue, ChunkValue;
  }

  lemma ResponseRead(ctx: Context, s: string, terminal: Terminal)
    requires ctx.codec.Sound()
    ensures ReadValues(ctx.codec.parse, Frames(PrintAll(ResponsePayloads(ctx, s, terminal)))) ==
            Some(ResponseValues(ctx, s, terminal))
  {
    var vs := ResponseValues(ctx, s, terminal);
    var ps := Printed(ctx.codec, vs) + [DONE];
    forall p | p in ps ensures Printable(p) {
      if p != DONE {
        var k :| 0 <= k < |vs| && p == ctx.codec.print_(vs[k]);
        assert ctx.codec.SoundAt(vs[k]);
      }
    }
    hide *;
    ResponsePrinted(ctx, s, terminal);
    PrintedValues(ctx.codec, vs);
    WireFrames(ps);
  }

  /** What every payload of a streamed response says around its delta. */
  predicate ChunkReads(v: Value, env: Envelope) {
    && HeadOf(v) == Head(env.id, "chat.completion.chunk", env.created, env.model)
    && OneChoice(v) && FunctionEntries(DeltaOf(v))
  }

  /**
   Every payload a client reads from the bytes of a streamed response is a chunk with the
   response's id, time and model, one choice, and function entries, except that a response
   that fails ends with one payload that reports the error.
   */
  lemma ResponseHeads(ctx: Context, s: string, terminal: Terminal)
    requires ctx.codec.Sound()
    ensures var read := ReadValues(ctx.codec.parse, Frames(PrintAll(ResponsePayloads(ctx, s, terminal))));
      && read.Some?
      && match Chunks.Outcome(ctx, s, terminal)
         case Completed => forall v :: v in read.value ==> ChunkReads(v, ctx.env) && ErrorIn(v) == None
         case Failed(msg) =>
           && read.value != [] && ErrorIn(Last(read.value)) == Some((msg, "upstream_error", ""))
           && forall v :: v in Init(read.value) ==> ChunkReads(v, ctx.env) && ErrorIn(v) == None
  {
    var evs := Used(ctx, s);
    ResponseRead(ctx, s, terminal);
    PiecesTyped(ctx.newId, evs);
    ClosingTyped(evs);
    var body := Pieces(ctx.newId, evs);
    ChunksRead(ctx.env, body);
    ChunksRead(ctx.env, body + Closing(evs));
    match Chunks.Outcome(ctx, s, terminal) {
      case Completed =>
      case Failed(msg) =>
        ErrorReads(msg);
        assert Init(ChunkValues(ctx.env, body) + [ErrorValue(msg)]) == ChunkValues(ctx.env, body);
    }
    hide Pieces, Closing, Used, ChunkReads, ChunkValues, ReadValues, Frames, PrintAll, ResponsePayloads, ErrorIn,
        ErrorValue;
  }

  lemma ErrorReads(msg: string)
    ensures ErrorIn(ErrorValue(msg)) == Some((msg, "upstream_error", ""))
  {
  }

  lemma ChunksRead(env: Envelope, pieces: seq<Piece>)
    requires forall p :: p in pieces ==> FunctionEntries(p.delta)
    ensures forall v :: v in ChunkValues(env, pieces) ==> ChunkReads(v, env) && ErrorIn(v) == None
  {
    forall k | 0 <= k < |pieces|
      ensures ChunkReads(ChunkValue(env, pieces[k]), env) && ErrorIn(ChunkValue(env, pieces[k])) == None {
      ChunkHead(env, pieces[k]);
      hide ChunkValue, FunctionEntries, HeadOf, OneChoice, ErrorIn, DeltaOf;
      assert pieces[k] in pieces;
    }
  }

  /** What the completion object says around its message. */
  lemma CompletionHead(ctx: Context, s: string)
    ensures var v := Completion(ctx, s);
      && HeadOf(v) == Head(ctx.env.id, "chat.completion", ctx.env.created, ctx.env.model)
      && OneChoice(v) && ErrorIn(v) == None
      && AsString(Field(MessageOf(v), "role")) == "assistant" && FunctionEntries(MessageOf(v))
      && (TextOf(Used(ctx, s)) == "" ==> Field(MessageOf(v), "content") == Some(JNull))
  {
    var evs := Used(ctx, s);
    MessageTyped(TextOf(evs), ReasoningOf(evs), CallList(ctx.newId, evs));
    hide TextOf, ReasoningOf, CallList, FinishOf, UsageOf, Used, MessageValue, FunctionEntries;
  }

  lemma MessageTyped(content: string, reasoning: string, calls: seq<Call>)
    ensures var m := MessageValue(content, reasoning, calls);
      && AsString(Field(m, "role")) == "assistant" && FunctionEntries(m)
      && (content == "" ==> Field(m, "content") == Some(JNull))
  {
    forall k | 0 <= k < |calls| ensures FunctionEntry(CallValue(calls[k])) {
    }
    hide FunctionEntry, CallValue;
  }

  // ----- Error replies -----

  /** The body of an error reply is one line that a client reads as the message with its code. */
  lemma ErrorBodyReads(ctx: Context, code: string, msg: string)
    requires ctx.codec.Sound()
    ensures var body := ErrorBody(ctx, code, msg);
      && body != "" && body[|body| - 1] == '\n'
      && var v := ctx.codec.parse(body[..|body| - 1]);
         v.Some? && ErrorIn(v.value) == Some((msg, code, code))
  {
    var v := JObj(map["error" := JObj(map[
      "message" := JStr(msg), "type" := JStr(code), "param" := JNull, "code" := JStr(code)])]);
    assert ctx.codec.SoundAt(v);
    var text := ctx.codec.print_(v);
    assert (text + "\n")[..|text|] == text;
    ErrorFieldsRead(code, msg);
  }

  lemma ErrorFieldsRead(code: string, msg: string)
    ensures ErrorIn(JObj(map["error" := JObj(map[
              "message" := JStr(msg), "type" := JStr(code), "param" := JNull, "code" := JStr(code)])]))
         == Some((msg, code, code))
  {
  }
}
