/**
 The reader's side: how an OpenAI client folds streamed chunks into a message, and
 how it reads an aggregated completion. Both are written from the field names of the
 API, independently of the translator.
 */
module Client {
  import opened Wrappers
  import opened Json
  import opened Sse
  import opened Meaning
  import opened Chunks

  function ObjectOf(v: Option<Value>): Object {
    match AsObject(v)
    case Some(fields) => fields
    case None => map[]
  }

  function ItemsOf(v: Option<Value>): seq<Value> {
    match v
    case Some(JArr(items)) => items
    case _ => []
  }

  function IntOf(v: Option<Value>): int {
    match v
    case Some(JInt(n)) => n
    case _ => 0
  }

  function First(items: seq<Value>): Option<Value> {
    if items == [] then None else Some(items[0])
  }

  // ----- Streamed chunks -----

  /** What a client has put together so far. */
  datatype Reader = Reader(
    content: string,
    reasoning: string,
    calls: map<int, Call>,
    order: seq<int>,
    roles: seq<string>,
    finishes: seq<string>,
    error: Option<string>)

  const FRESH := Reader("", "", map[], [], [], [], None)

  /** One entry of a `tool_calls` delta: an id begins the entry afresh, otherwise arguments are appended. */
  function AbsorbCall(r: Reader, v: Value): Reader {
    var entry := ObjectOf(Some(v));
    var fn := ObjectOf(Field(entry, "function"));
    var i := IntOf(Field(entry, "index"));
    var args := AsString(Field(fn, "arguments"));
    var old_ := if i in r.calls then r.calls[i] else Call("", "", "");
    var call := if "id" in entry
                then Call(AsString(Field(entry, "id")), AsString(Field(fn, "name")), args)
                else old_.(args := old_.args + args);
    r.(calls := r.calls[i := call], order := if i in r.calls then r.order else r.order + [i])
  }

  function AbsorbCalls(r: Reader, items: seq<Value>): Reader
    decreases |items|
  {
    if items == [] then r else AbsorbCalls(AbsorbCall(r, items[0]), items[1..])
  }

  /** One chunk. */
  function Absorb(r: Reader, v: Value): Reader {
    var chunk := ObjectOf(Some(v));
    if "error" in chunk then
      r.(error := Some(AsString(Field(ObjectOf(Field(chunk, "error")), "message"))))
    else
      var choice := ObjectOf(First(ItemsOf(Field(chunk, "choices"))));
      var delta := ObjectOf(Field(choice, "delta"));
      var finish := Field(choice, "finish_reason");
      AbsorbCalls(
        r.(content := r.content + AsString(Field(delta, "content")),
           reasoning := r.reasoning + AsString(Field(delta, "reasoning_content")),
           roles := r.roles + (if "role" in delta then [AsString(Field(delta, "role"))] else []),
           finishes := r.finishes + (if finish.Some? && finish.value.JStr? then [finish.value.s] else [])),
        ItemsOf(Field(delta, "tool_calls")))
  }

  /** The frames of a response, up to the end marker; none if the marker or a chunk is missing. */
  function ReadFrames(parse: string -> Option<Value>, r: Reader, frames: seq<Frame>): Option<Reader>
    decreases |frames|
  {
    if frames == [] then None
    else if frames[0].data == DONE then Some(r)
    else
      match parse(frames[0].data)
      case None => None
      case Some(v) => ReadFrames(parse, Absorb(r, v), frames[1..])
  }

  /** A whole streamed response, from its bytes. */
  function ReadStream(parse: string -> Option<Value>, bytes: string): Option<Reader> {
    ReadFrames(parse, FRESH, Frames(bytes))
  }

  function ReadPieces(env: Envelope, r: Reader, pieces: seq<Piece>): Reader
    decreases |pieces|
  {
    if pieces == [] then r else ReadPieces(env, Absorb(r, ChunkValue(env, pieces[0])), pieces[1..])
  }

  /** The tool calls of a reader, in the order they first appeared. */
  function ReaderCalls(r: Reader): seq<Call> {
    seq(|r.order|, k requires 0 <= k < |r.order| => if r.order[k] in r.calls then r.calls[r.order[k]]
        else Call("", "", ""))
  }

  // ----- Aggregated completions -----

  datatype Message = Message(content: string, reasoning: string, calls: seq<Call>, finish: string, usage: Usage,
                             total: int)

  function ReadCall(v: Value): Call {
    var entry := ObjectOf(Some(v));
    var fn := ObjectOf(Field(entry, "function"));
    Call(AsString(Field(entry, "id")), AsString(Field(fn, "name")), AsString(Field(fn, "arguments")))
  }

  function ReadCalls(items: seq<Value>): seq<Call> {
    seq(|items|, k requires 0 <= k < |items| => ReadCall(items[k]))
  }

  function ReadCompletion(v: Value): Message {
    var obj := ObjectOf(Some(v));
    var choice := ObjectOf(First(ItemsOf(Field(obj, "choices"))));
    var msg := ObjectOf(Field(choice, "message"));
    var usage := ObjectOf(Field(obj, "usage"));
    Message(AsString(Field(msg, "content")), AsString(Field(msg, "reasoning_content")),
            ReadCalls(ItemsOf(Field(msg, "tool_calls"))), AsString(Field(choice, "finish_reason")),
            Usage(IntOf(Field(usage, "prompt_tokens")), IntOf(Field(usage, "completion_tokens"))),
            IntOf(Field(usage, "total_tokens")))
  }

  // ----- What stands around the message -----

  /** The fields that say what an object is and whose. */
  datatype Head = Head(id: string, kind: string, created: int, model: string)

  function HeadOf(v: Value): Head {
    var obj := ObjectOf(Some(v));
    Head(AsString(Field(obj, "id")), AsString(Field(obj, "object")), IntOf(Field(obj, "created")),
         AsString(Field(obj, "model")))
  }

  function ChoicesOf(v: Value): seq<Value> {
    ItemsOf(Field(ObjectOf(Some(v)), "choices"))
  }

  /** The only choice of a chunk or a completion, and it has index 0. */
  predicate OneChoice(v: Value) {
    |ChoicesOf(v)| == 1 && Field(ObjectOf(Some(ChoicesOf(v)[0])), "index") == Some(JInt(0))
  }

  /** The error a payload reports, if it reports one: its message, its type and its code. */
  function ErrorIn(v: Value): Option<(string, string, string)> {
    if "error" !in ObjectOf(Some(v)) then None
    else
      var e := ObjectOf(Field(ObjectOf(Some(v)), "error"));
      Some((AsString(Field(e, "message")), AsString(Field(e, "type")), AsString(Field(e, "code"))))
  }

  /** A tool entry that begins a call says that it is a function. */
  predicate FunctionEntry(v: Value) {
    var entry := ObjectOf(Some(v));
    "id" in entry ==> AsString(Field(entry, "type")) == "function"
  }

  predicate FunctionEntries(holder: Object) {
    forall v :: v in ItemsOf(Field(holder, "tool_calls")) ==> FunctionEntry(v)
  }

  function DeltaOf(v: Value): Object {
    ObjectOf(Field(ObjectOf(First(ChoicesOf(v))), "delta"))
  }

  function MessageOf(v: Value): Object {
    ObjectOf(Field(ObjectOf(First(ChoicesOf(v))), "message"))
  }

  /** The payloads of a response, up to the end marker; none if the marker or a payload is missing. */
  function ReadValues(parse: string -> Option<Value>, frames: seq<Frame>): Option<seq<Value>>
    decreases |frames|
  {
    if frames == [] then None
    else if frames[0].data == DONE then Some([])
    else
      match parse(frames[0].data)
      case None => None
      case Some(v) =>
        match ReadValues(parse, frames[1..])
        case None => None
        case Some(vs) => Some([v] + vs)
  }

  // ----- What each kind of chunk does to a reader -----

  lemma {:induction false} ReadPiecesAppend(env: Envelope, r: Reader, a: seq<Piece>, b: seq<Piece>)
    ensures ReadPieces(env, r, a + b) == ReadPieces(env, ReadPieces(env, r, a), b)
    decreases |a|
  {
    hide Absorb, ChunkValue;
    if a == [] {
      assert a + b == b;
    } else {
      assert (a + b)[1..] == a[1..] + b;
      ReadPiecesAppend(env, Absorb(r, ChunkValue(env, a[0])), a[1..], b);
    }
  }

  lemma ReadPiece(env: Envelope, r: Reader, piece: Piece)
    ensures ReadPieces(env, r, [piece]) == Absorb(r, ChunkValue(env, piece))
  {
    hide Absorb, ChunkValue;
    assert [piece][1..] == [];
  }

  /** The choice inside a chunk. */
  lemma AbsorbPiece(env: Envelope, r: Reader, piece: Piece)
    ensures Absorb(r, ChunkValue(env, piece)) ==
            AbsorbCalls(
              r.(content := r.content + AsString(Field(piece.delta, "content")),
                 reasoning := r.reasoning + AsString(Field(piece.delta, "reasoning_content")),
                 roles := r.roles + (if "role" in piece.delta then [AsString(Field(piece.delta, "role"))] else []),
                 finishes := r.finishes + (if piece.finish.Some? then [piece.finish.value] else [])),
              ItemsOf(Field(piece.delta, "tool_calls")))
  {
    hide AbsorbCalls;
  }

  lemma AbsorbText(env: Envelope, r: Reader, text: string, withRole: bool)
    ensures Absorb(r, ChunkValue(env, TextPiece(text, withRole))) ==
            r.(content := r.content + text, roles := r.roles + if withRole then ["assistant"] else [])
  {
    AbsorbPiece(env, r, TextPiece(text, withRole));
    hide Absorb, ChunkValue;
  }

  lemma AbsorbReasoning(env: Envelope, r: Reader, reasoning: string)
    ensures Absorb(r, ChunkValue(env, ReasoningPiece(reasoning))) == r.(reasoning := r.reasoning + reasoning)
  {
    AbsorbPiece(env, r, ReasoningPiece(reasoning));
    hide Absorb, ChunkValue;
  }

  lemma AbsorbFinish(env: Envelope, r: Reader, finish: string)
    ensures Absorb(r, ChunkValue(env, FinishPiece(finish))) == r.(finishes := r.finishes + [finish])
  {
    AbsorbPiece(env, r, FinishPiece(finish));
    hide Absorb, ChunkValue;
  }

  lemma AbsorbTool(env: Envelope, r: Reader, entry: Value)
    ensures Absorb(r, ChunkValue(env, Piece(map["tool_calls" := JArr([entry])], None))) == AbsorbCall(r, entry)
  {
    var piece := Piece(map["tool_calls" := JArr([entry])], None);
    assert AbsorbCalls(r, [entry]) == AbsorbCall(r, entry) by {
      hide AbsorbCall;
      assert [entry][1..] == [];
    }
    AbsorbPiece(env, r, piece);
    hide Absorb, ChunkValue, AbsorbCalls, AbsorbCall;
    assert r.(content := r.content + "", reasoning := r.reasoning + "", roles := r.roles + [],
              finishes := r.finishes + []) == r;
  }

  /** The fields of a start entry, one by one. */
  lemma StartEntry(i: int, id: string, name: string)
    ensures var entry := ObjectOf(Some(StartPiece(i, id, name).delta["tool_calls"].items[0]));
            var fn := ObjectOf(Field(entry, "function"));
      && "id" in entry && AsString(Field(entry, "id")) == id
      && IntOf(Field(entry, "index")) == i
      && AsString(Field(fn, "name")) == name && AsString(Field(fn, "arguments")) == ""
  {
  }

  lemma AbsorbStart(env: Envelope, r: Reader, i: int, id: string, name: string)
    ensures Absorb(r, ChunkValue(env, StartPiece(i, id, name))) ==
            r.(calls := r.calls[i := Call(id, name, "")], order := if i in r.calls then r.order else r.order + [i])
  {
    StartEntry(i, id, name);
    var entry := StartPiece(i, id, name).delta["tool_calls"].items[0];
    assert StartPiece(i, id, name) == Piece(map["tool_calls" := JArr([entry])], None);
    hide Absorb, ChunkValue, StartPiece, AsString, IntOf, ObjectOf;
    AbsorbTool(env, r, entry);
  }

  /** The fields of an arguments entry, one by one. */
  lemma ArgsEntry(i: int, args: string)
    ensures var entry := ObjectOf(Some(ArgsPiece(i, args).delta["tool_calls"].items[0]));
            var fn := ObjectOf(Field(entry, "function"));
            "id" !in entry && IntOf(Field(entry, "index")) == i && AsString(Field(fn, "arguments")) == args
  {
  }

  lemma AbsorbArgs(env: Envelope, r: Reader, i: int, args: string)
    ensures Absorb(r, ChunkValue(env, ArgsPiece(i, args))) ==
            var call := if i in r.calls then r.calls[i] else Call("", "", "");
            r.(calls := r.calls[i := call.(args := call.args + args)],
               order := if i in r.calls then r.order else r.order + [i])
  {
    ArgsEntry(i, args);
    var entry := ArgsPiece(i, args).delta["tool_calls"].items[0];
    assert ArgsPiece(i, args) == Piece(map["tool_calls" := JArr([entry])], None);
    hide Absorb, ChunkValue, ArgsPiece, AsString, IntOf, ObjectOf;
    AbsorbTool(env, r, entry);
  }

  /** The completion object reads back as exactly what was put in. */
  lemma CompletionReads(env: Envelope, content: string, reasoning: string, calls: seq<Call>, finish: string,
                        usage: Usage)
    ensures ReadCompletion(CompletionValue(env, MessageValue(content, reasoning, calls), finish, usage)) ==
            Message(content, reasoning, calls, finish, usage, usage.input + usage.output)
  {
    MessageReads(content, reasoning, calls);
    hide MessageValue, ReadCalls;
  }

  lemma MessageReads(content: string, reasoning: string, calls: seq<Call>)
    ensures var msg := MessageValue(content, reasoning, calls);
            && AsString(Field(msg, "content")) == content
            && AsString(Field(msg, "reasoning_content")) == reasoning
            && ReadCalls(ItemsOf(Field(msg, "tool_calls"))) == calls
  {
    CallsRead(calls);
    hide CallValues, ReadCalls;
  }

  lemma CallsRead(calls: seq<Call>)
    ensures ReadCalls(CallValues(calls)) == calls
    ensures ReadCalls([]) == []
  {
    forall k | 0 <= k < |calls| ensures ReadCall(CallValue(calls[k])) == calls[k] {
    }
  }
}
