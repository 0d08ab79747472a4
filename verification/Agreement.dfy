/**
 What a client makes of the streamed chunks: its state follows the meaning of the events
 chunk by chunk, and the bytes of a response are read as the chunks that were written.

 Tool calls need care: arguments that arrive for an index that was never started are
 streamed without an id, and empty ones are not streamed at all.
 */
module Agreement {
  import opened Wrappers
  import opened Json
  import opened Sse
  import opened Events
  import opened Decoder
  import opened Meaning
  import opened Chunks
  import opened Client

  /** Some event of `evs` starts a tool call at index `i`. */
  predicate Started(evs: seq<StreamEvent>, i: int) {
    exists ev :: ev in evs && KindAt(ev) == ToolStart && ev.toolIndex == i
  }

  predicate AllStarted(evs: seq<StreamEvent>) {
    forall ev :: ev in evs && IsTool(ev) ==> Started(evs, ev.toolIndex)
  }

  /** A tool event that puts something on the wire. */
  predicate IsVisibleTool(ev: StreamEvent) {
    KindAt(ev) == ToolStart || (KindAt(ev) == ToolArgs && ev.toolArgs != "")
  }

  /** The tool indices in the order they first appear on the wire. */
  function VisibleOrder(evs: seq<StreamEvent>): seq<int> {
    if evs == [] then []
    else
      var order, ev := VisibleOrder(Init(evs)), Last(evs);
      if IsVisibleTool(ev) && ev.toolIndex !in order then order + [ev.toolIndex] else order
  }

  /** Every argument event comes after a start for its index: what a well-behaved upstream sends. */
  predicate ArgsFollowStarts(evs: seq<StreamEvent>) {
    forall k :: 0 <= k < |evs| && KindAt(evs[k]) == ToolArgs ==> Started(evs[..k], evs[k].toolIndex)
  }

  function CallIds(calls: seq<Call>): seq<string> {
    seq(|calls|, k requires 0 <= k < |calls| => calls[k].id)
  }

  // ----- The reader's state as the chunks arrive -----

  /** How a reader's tool calls relate to the accumulated ones. */
  ghost predicate CallsTrack(newId: nat -> string, evs: seq<StreamEvent>, r: Reader) {
    && r.order == VisibleOrder(evs)
    && forall i :: CallTracksAt(newId, evs, r, i)
  }

  ghost predicate CallTracksAt(newId: nat -> string, evs: seq<StreamEvent>, r: Reader, i: int) {
    var calls, started := Calls(newId, evs), Started(evs, i);
    && (i in r.calls <==> i in r.order)
    && (i in r.calls ==> i in calls)
    && (started ==> i in r.calls)
    && (i in calls ==> calls[i].id != "")
    && (i in calls ==>
          if i in r.calls then CallTracks(calls[i], r.calls[i], started)
          else calls[i].args == "" && calls[i].name == "")
  }

  ghost predicate CallTracks(call: Call, read: Call, started: bool) {
    && read.name == call.name
    && read.args == call.args
    && read.id == (if started then call.id else "")
    && (!started ==> call.name == "")
  }

  ghost predicate Tracks(newId: nat -> string, evs: seq<StreamEvent>, r: Reader) {
    && r.content == TextOf(evs)
    && r.reasoning == ""
    && r.roles == (if TextOf(evs) == "" then [] else ["assistant"])
    && r.finishes == []
    && r.error == None
    && CallsTrack(newId, evs, r)
  }

  lemma StartedSnoc(evs: seq<StreamEvent>, ev: StreamEvent, i: int)
    ensures Started(evs + [ev], i) <==> Started(evs, i) || (KindAt(ev) == ToolStart && ev.toolIndex == i)
  {
    if Started(evs, i) {
      var e :| e in evs && KindAt(e) == ToolStart && e.toolIndex == i;
      assert e in evs + [ev];
    }
    assert ev in evs + [ev];
  }

  lemma {:induction false} VisibleOrderDistinct(evs: seq<StreamEvent>)
    ensures Distinct(VisibleOrder(evs))
    ensures forall i :: i in VisibleOrder(evs) ==> i in Order(evs)
  {
    if evs != [] {
      VisibleOrderDistinct(Init(evs));
    }
  }

  lemma VisibleOrderSnoc(evs: seq<StreamEvent>, ev: StreamEvent)
    ensures VisibleOrder(evs + [ev]) ==
            if IsVisibleTool(ev) && ev.toolIndex !in VisibleOrder(evs)
            then VisibleOrder(evs) + [ev.toolIndex] else VisibleOrder(evs)
  {
    Snoc(evs, ev);
  }

  /** What one event's chunks do to a reader, whatever the event. */
  function ReadEvent(newId: nat -> string, evs: seq<StreamEvent>, ev: StreamEvent, r: Reader): Reader {
    var i := ev.toolIndex;
    var order := if i in r.calls then r.order else r.order + [i];
    match KindAt(ev)
    case Text =>
      if ev.text == "" then r
      else r.(content := r.content + ev.text, roles := r.roles + if TextOf(evs) == "" then ["assistant"] else [])
    case ToolStart =>
      r.(calls := r.calls[i := Call(StartId(newId, evs, ev), ev.toolName, "")], order := order)
    case ToolArgs =>
      if ev.toolArgs == "" then r
      else
        var call := if i in r.calls then r.calls[i] else Call("", "", "");
        r.(calls := r.calls[i := call.(args := call.args + ev.toolArgs)], order := order)
    case _ => r
  }

  lemma {:induction false} ReadEventPieces(env: Envelope, newId: nat -> string, evs: seq<StreamEvent>,
                                           ev: StreamEvent, r: Reader)
    ensures ReadPieces(env, r, PieceOf(newId, evs, ev)) == ReadEvent(newId, evs, ev, r)
  {
    assert ReadPieces(env, r, []) == r;
    var pieces := PieceOf(newId, evs, ev);
    if pieces != [] {
      ReadPiece(env, r, pieces[0]);
      match KindAt(ev) {
        case Text => AbsorbText(env, r, ev.text, TextOf(evs) == "");
        case ToolStart => AbsorbStart(env, r, ev.toolIndex, StartId(newId, evs, ev), ev.toolName);
        case ToolArgs => AbsorbArgs(env, r, ev.toolIndex, ev.toolArgs);
        case _ =>
      }
    }
    hide Absorb, ChunkValue, ReadPieces, TextOf;
  }

  /** The only entry an event touches is the one at its own index. */
  lemma CallsElsewhere(newId: nat -> string, evs: seq<StreamEvent>, ev: StreamEvent, i: int)
    requires !IsTool(ev) || ev.toolIndex != i
    ensures var was, now := Calls(newId, evs), Calls(newId, evs + [ev]);
            && (i in now <==> i in was) && (i in was ==> now[i] == was[i])
            && (Started(evs + [ev], i) <==> Started(evs, i))
  {
    StartedSnoc(evs, ev, i);
    ToolsSnoc(newId, evs, ev);
    hide Calls, Order, Minted, Started, StartId, CallId;
  }

  lemma CallsHere(newId: nat -> string, evs: seq<StreamEvent>, ev: StreamEvent)
    requires IsTool(ev)
    ensures var was, now, i := Calls(newId, evs), Calls(newId, evs + [ev]), ev.toolIndex;
            && i in now
            && now[i] == (if KindAt(ev) == ToolStart then Call(StartId(newId, evs, ev), ev.toolName, "")
                          else if i in was then was[i].(args := was[i].args + ev.toolArgs)
                          else Call(CallId(newId, Minted(evs)), "", ev.toolArgs))
            && (Started(evs + [ev], i) <==> Started(evs, i) || KindAt(ev) == ToolStart)
  {
    StartedSnoc(evs, ev, ev.toolIndex);
    ToolsSnoc(newId, evs, ev);
    hide Calls, Order, Minted, Started, StartId, CallId;
  }

  lemma CallTracksAtStep(newId: nat -> string, evs: seq<StreamEvent>, ev: StreamEvent, r: Reader, i: int)
    requires CallTracksAt(newId, evs, r, i)
    ensures CallTracksAt(newId, evs + [ev], ReadEvent(newId, evs, ev, r), i)
  {
    hide Calls, Order, Minted, Started, TextOf, StartId, CallId, KindOf;
    if !IsTool(ev) || ev.toolIndex != i {
      CallsElsewhere(newId, evs, ev, i);
    } else {
      CallsHere(newId, evs, ev);
      assert "" + ev.toolArgs == ev.toolArgs;
    }
  }

  lemma CallsTrackStep(newId: nat -> string, evs: seq<StreamEvent>, ev: StreamEvent, r: Reader)
    requires CallsTrack(newId, evs, r)
    ensures CallsTrack(newId, evs + [ev], ReadEvent(newId, evs, ev, r))
  {
    forall i ensures CallTracksAt(newId, evs + [ev], ReadEvent(newId, evs, ev, r), i) {
      CallTracksAtStep(newId, evs, ev, r, i);
    }
    VisibleOrderSnoc(evs, ev);
    assert CallTracksAt(newId, evs, r, ev.toolIndex);
    hide VisibleOrder, TextOf, StartId, Calls;
  }

  lemma TracksStep(newId: nat -> string, evs: seq<StreamEvent>, ev: StreamEvent, r: Reader)
    requires Tracks(newId, evs, r)
    ensures Tracks(newId, evs + [ev], ReadEvent(newId, evs, ev, r))
  {
    CallsTrackStep(newId, evs, ev, r);
    MeaningSnoc(evs, ev);
    hide CallsTrack, TextOf, ReasoningOf, UsageOf, StopsForTools, StartId;
  }

  lemma {:induction false} ReaderTracks(env: Envelope, newId: nat -> string, evs: seq<StreamEvent>)
    ensures Tracks(newId, evs, ReadPieces(env, FRESH, Pieces(newId, evs)))
  {
    if evs == [] {
    } else {
      var before, ev := Init(evs), Last(evs);
      assert evs == before + [ev];
      ReaderTracks(env, newId, before);
      PiecesSnoc(newId, before, ev);
      hide *;
      var r := ReadPieces(env, FRESH, Pieces(newId, before));
      ReadPiecesAppend(env, FRESH, Pieces(newId, before), PieceOf(newId, before, ev));
      ReadEventPieces(env, newId, before, ev, r);
      TracksStep(newId, before, ev, r);
    }
  }

  lemma ReadClosing(env: Envelope, evs: seq<StreamEvent>, r: Reader)
    requires r.reasoning == "" && r.finishes == []
    ensures ReadPieces(env, r, Closing(evs)) == r.(reasoning := ReasoningOf(evs), finishes := [FinishOf(evs)])
  {
    var thought, finish := ReasoningPiece(ReasoningOf(evs)), FinishPiece(FinishOf(evs));
    AbsorbReasoning(env, r, ReasoningOf(evs));
    AbsorbFinish(env, r, FinishOf(evs));
    AbsorbFinish(env, r.(reasoning := ReasoningOf(evs)), FinishOf(evs));
    ReadPiece(env, r, thought);
    ReadPiece(env, r, finish);
    ReadPiece(env, r.(reasoning := ReasoningOf(evs)), finish);
    ReadPiecesAppend(env, r, [thought], [finish]);
    hide ReadPieces, Absorb, ChunkValue, ReasoningOf, FinishOf;
    assert r.(reasoning := "", finishes := []) == r && "" + ReasoningOf(evs) == ReasoningOf(evs);
    assert [] + [FinishOf(evs)] == [FinishOf(evs)];
    assert Closing(evs) == if ReasoningOf(evs) == "" then [finish] else [thought] + [finish];
  }

  // ----- From bytes -----

  lemma ReadFramesCons(codec: Codec, env: Envelope, r: Reader, piece: Piece, tail: seq<Frame>)
    requires codec.Sound()
    ensures ReadFrames(codec.parse, r, [Frame("", Payload(codec, env, piece))] + tail)
         == ReadFrames(codec.parse, Absorb(r, ChunkValue(env, piece)), tail)
  {
    var v := ChunkValue(env, piece);
    assert codec.SoundAt(v);
    hide Absorb, ChunkValue;
    var frames := [Frame("", codec.print_(v))] + tail;
    assert frames[0] == Frame("", codec.print_(v)) && frames[1..] == tail;
  }

  lemma UnnamedCons(codec: Codec, env: Envelope, pieces: seq<Piece>)
    requires pieces != []
    ensures Unnamed(Payloads(codec, env, pieces)) ==
            [Frame("", Payload(codec, env, pieces[0]))] + Unnamed(Payloads(codec, env, pieces[1..]))
  {
    hide Payload;
    var payloads := Payloads(codec, env, pieces);
    assert payloads[1..] == Payloads(codec, env, pieces[1..]);
  }

  lemma {:induction false} ReadFramesOfPieces(codec: Codec, env: Envelope, r: Reader, pieces: seq<Piece>,
                                              tail: seq<Frame>)
    requires codec.Sound()
    ensures ReadFrames(codec.parse, r, Unnamed(Payloads(codec, env, pieces)) + tail)
         == ReadFrames(codec.parse, ReadPieces(env, r, pieces), tail)
    decreases |pieces|
  {
    if pieces == [] {
      assert Unnamed(Payloads(codec, env, pieces)) + tail == tail;
    } else {
      assert ReadPieces(env, r, pieces) == ReadPieces(env, Absorb(r, ChunkValue(env, pieces[0])), pieces[1..]);
      hide *;
      var more := Unnamed(Payloads(codec, env, pieces[1..]));
      UnnamedCons(codec, env, pieces);
      Regroup([Frame("", Payload(codec, env, pieces[0]))], more, tail);
      ReadFramesCons(codec, env, r, pieces[0], more + tail);
      ReadFramesOfPieces(codec, env, Absorb(r, ChunkValue(env, pieces[0])), pieces[1..], tail);
    }
  }

  /** What a client gets from the bytes of a completed stream. */
  lemma StreamReads(ctx: Context, s: string, terminal: Terminal)
    requires ctx.codec.Sound() && Outcome(ctx, s, terminal) == Completed
    ensures ReadStream(ctx.codec.parse, PrintAll(StreamPayloads(ctx, s, terminal)))
         == Some(ReadPieces(ctx.env, FRESH, Pieces(ctx.newId, Used(ctx, s)) + Closing(Used(ctx, s))))
  {
    var pieces := Pieces(ctx.newId, Used(ctx, s)) + Closing(Used(ctx, s));
    PayloadsAppend(ctx.codec, ctx.env, Pieces(ctx.newId, Used(ctx, s)), Closing(Used(ctx, s)));
    WholeReads(ctx.codec, ctx.env, pieces);
    hide Payloads, Pieces, Closing, Used, PrintAll, ReadStream;
  }

  lemma PayloadsPrintable(codec: Codec, env: Envelope, pieces: seq<Piece>)
    requires codec.Sound()
    ensures forall p :: p in Payloads(codec, env, pieces) ==> Printable(p) && p != DONE
  {
    var payloads := Payloads(codec, env, pieces);
    forall k | 0 <= k < |payloads| ensures Printable(payloads[k]) && payloads[k] != DONE {
      assert codec.SoundAt(ChunkValue(env, pieces[k]));
    }
  }

  lemma WholeReads(codec: Codec, env: Envelope, pieces: seq<Piece>)
    requires codec.Sound()
    ensures ReadStream(codec.parse, PrintAll(Payloads(codec, env, pieces) + [DONE])) ==
        Some(ReadPieces(env, FRESH, pieces))
  {
    var payloads := Payloads(codec, env, pieces);
    PayloadsPrintable(codec, env, pieces);
    assert Printable(DONE);
    WireFrames(payloads + [DONE]);
    UnnamedAppend(payloads, [DONE]);
    ReadFramesOfPieces(codec, env, FRESH, pieces, Unnamed([DONE]));
    assert Unnamed([DONE])[0] == Frame("", DONE);
    hide Frames, Payloads, PrintAll, ReadPieces, Unnamed;
  }

  /** The frames of a response are its payloads. */
  lemma WireFrames(payloads: seq<string>)
    requires forall p :: p in payloads ==> Printable(p)
    ensures Frames(PrintAll(payloads)) == Unnamed(payloads)
  {
    PrintThenRead(payloads, "");
    assert Frames("") == [];
    hide Frames, PrintAll, Unnamed;
    assert PrintAll(payloads) + "" == PrintAll(payloads);
  }

  lemma {:induction false} UnnamedAppend(a: seq<string>, b: seq<string>)
    ensures Unnamed(a + b) == Unnamed(a) + Unnamed(b)
  {
    if a == [] {
      assert a + b == b;
    } else {
      assert (a + b)[1..] == a[1..] + b;
      UnnamedAppend(a[1..], b);
    }
  }

  /** What a client has once the chunks of the events themselves have arrived. */
  function BodyReader(env: Envelope, newId: nat -> string, evs: seq<StreamEvent>): Reader {
    ReadPieces(env, FRESH, Pieces(newId, evs))
  }

  /** The closing chunks add the reasoning and the finish reason, and nothing else. */
  lemma FinalReader(env: Envelope, newId: nat -> string, evs: seq<StreamEvent>)
    ensures ReadPieces(env, FRESH, Pieces(newId, evs) + Closing(evs))
         == BodyReader(env, newId, evs).(reasoning := ReasoningOf(evs), finishes := [FinishOf(evs)])
    ensures Tracks(newId, evs, BodyReader(env, newId, evs))
  {
    ReaderTracks(env, newId, evs);
    ReadPiecesAppend(env, FRESH, Pieces(newId, evs), Closing(evs));
    ReadClosing(env, evs, BodyReader(env, newId, evs));
    hide ReadPieces, Pieces, Closing, TextOf, ReasoningOf, FinishOf, CallsTrack;
  }
}
