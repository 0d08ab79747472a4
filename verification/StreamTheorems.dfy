/**
 The main results about translation: when the streamed and the aggregated form agree, and
 the shape of a streamed response. For tool calls `ToolCallsAgree` is the exact condition.
 */
module StreamTheorems {
  import opened Wrappers
  import opened Json
  import opened Sse
  import opened Events
  import opened Decoder
  import opened Meaning
  import opened Chunks
  import opened Client
  import opened Agreement

  // ----- Agreement of the two forms -----

  /** The tool calls a client ends up with after the chunks of `evs`. */
  function StreamedCalls(env: Envelope, newId: nat -> string, evs: seq<StreamEvent>): seq<Call> {
    ReaderCalls(BodyReader(env, newId, evs))
  }

  /**
   Text, reasoning, finish reason and token counts agree on every completed stream,
   read from the bytes of the streamed response on one side and from the aggregated
   object on the other; both lists of tool calls are as the events determine them.
   */
  lemma StreamAgreesWithAggregate(ctx: Context, s: string, terminal: Terminal)
    requires ctx.codec.Sound() && Outcome(ctx, s, terminal) == Completed
    ensures var streamed := ReadStream(ctx.codec.parse, PrintAll(StreamPayloads(ctx, s, terminal)));
            var whole := ReadCompletion(Completion(ctx, s));
            && streamed.Some?
            && streamed.value.content == whole.content
            && streamed.value.reasoning == whole.reasoning
            && streamed.value.finishes == [whole.finish]
            && streamed.value.error == None
            && whole.usage == UsageOf(Used(ctx, s)) && whole.total == whole.usage.input + whole.usage.output
            && whole.calls == CallList(ctx.newId, Used(ctx, s))
            && ReaderCalls(streamed.value) == StreamedCalls(ctx.env, ctx.newId, Used(ctx, s))
  {
    var evs := Used(ctx, s);
    StreamReads(ctx, s, terminal);
    FinalReader(ctx.env, ctx.newId, evs);
    CompletionReads(ctx.env, TextOf(evs), ReasoningOf(evs), CallList(ctx.newId, evs), FinishOf(evs), UsageOf(evs));
    hide ReadStream, StreamPayloads, PrintAll, ReadPieces, Pieces, Closing, Used, TextOf, ReasoningOf, UsageOf,
         FinishOf, ReadCompletion, CompletionValue, MessageValue, Outcome, CallList, CallsTrack, BodyReader;
  }

  /** What the two call lists look like, entry by entry. */
  lemma StreamedCallsAt(env: Envelope, newId: nat -> string, evs: seq<StreamEvent>, k: nat)
    requires k < |VisibleOrder(evs)|
    ensures |StreamedCalls(env, newId, evs)| == |VisibleOrder(evs)|
    ensures var i, calls := VisibleOrder(evs)[k], Calls(newId, evs);
            && i in calls
            && CallTracks(calls[i], StreamedCalls(env, newId, evs)[k], Started(evs, i))
            && calls[i].id != ""
  {
    ReaderTracks(env, newId, evs);
    assert CallTracksAt(newId, evs, BodyReader(env, newId, evs), VisibleOrder(evs)[k]);
    hide Calls, VisibleOrder, Started, ReadPieces, Pieces;
  }

  lemma {:induction false} StreamedCallsLength(env: Envelope, newId: nat -> string, evs: seq<StreamEvent>)
    ensures |StreamedCalls(env, newId, evs)| == |VisibleOrder(evs)|
  {
    ReaderTracks(env, newId, evs);
    hide Calls, VisibleOrder, Started, ReadPieces, Pieces;
  }

  lemma AllStartedInOrder(evs: seq<StreamEvent>)
    ensures AllStarted(evs) <==> forall i :: i in Order(evs) ==> Started(evs, i)
  {
    OrderDistinct(evs);
    hide Order, Started, IsTool;
    if AllStarted(evs) {
      forall i | i in Order(evs) ensures Started(evs, i) {
        var ev :| ev in evs && IsTool(ev) && ev.toolIndex == i;
      }
    }
  }

  /** If every index was started and the wire shows them in the same order, the calls agree. */
  lemma {:induction false} ToolCallsAgreeIf(env: Envelope, newId: nat -> string, evs: seq<StreamEvent>)
    requires AllStarted(evs) && VisibleOrder(evs) == Order(evs)
    ensures StreamedCalls(env, newId, evs) == CallList(newId, evs)
  {
    AllStartedInOrder(evs);
    StreamedCallsLength(env, newId, evs);
    hide StreamedCalls, Order, VisibleOrder, Calls, Started, AllStarted, InOrder;
    forall k | 0 <= k < |Order(evs)| ensures StreamedCalls(env, newId, evs)[k] == CallList(newId, evs)[k] {
      StreamedCallsAt(env, newId, evs, k);
      assert Order(evs)[k] in Order(evs);
    }
  }

  lemma DistinctSubset(a: seq<int>, b: seq<int>)
    requires Distinct(a) && forall x :: x in a ==> x in b
    ensures |a| <= |b|
    ensures |a| == |b| ==> forall x :: x in b ==> x in a
  {
    if a != [] {
      var x := a[|a| - 1];
      assert x in b;
      var k :| 0 <= k < |b| && b[k] == x;
      var front, rest := a[..|a| - 1], b[..k] + b[k + 1..];
      assert a == front + [x];
      assert b == b[..k] + [x] + b[k + 1..];
      forall y | y in front ensures y in rest {
        assert y in b && y != x;
      }
      DistinctSubset(front, rest);
    }
  }

  lemma AgreeingEntry(env: Envelope, newId: nat -> string, evs: seq<StreamEvent>, k: nat)
    requires StreamedCalls(env, newId, evs) == CallList(newId, evs)
    requires k < |VisibleOrder(evs)|
    ensures |Order(evs)| == |VisibleOrder(evs)|
    ensures Started(evs, VisibleOrder(evs)[k])
    ensures VisibleOrder(evs)[k] in Calls(newId, evs)
    ensures Calls(newId, evs)[VisibleOrder(evs)[k]].id == CallIds(CallList(newId, evs))[k]
  {
    StreamedCallsAt(env, newId, evs, k);
    hide StreamedCalls, Order, VisibleOrder, Calls, Started, InOrder;
    assert Order(evs)[k] in Order(evs);
    IdsNonEmpty(newId, evs, Order(evs)[k]);
  }

  /** Conversely, agreement forces every index to have been started, and every call made to be shown. */
  lemma ToolCallsAgreeOnlyIf(env: Envelope, newId: nat -> string, evs: seq<StreamEvent>)
    requires StreamedCalls(env, newId, evs) == CallList(newId, evs)
    ensures AllStarted(evs)
    ensures forall i :: i in Order(evs) <==> i in VisibleOrder(evs)
    ensures Distinct(CallIds(CallList(newId, evs))) ==> VisibleOrder(evs) == Order(evs)
  {
    var order, shown := Order(evs), VisibleOrder(evs);
    StreamedCallsLength(env, newId, evs);
    VisibleOrderDistinct(evs);
    OrderDistinct(evs);
    AllStartedInOrder(evs);
    hide StreamedCalls, Order, VisibleOrder, Calls, Started, AllStarted, InOrder;
    DistinctSubset(shown, order);
    forall i | i in order ensures Started(evs, i) {
      var k :| 0 <= k < |shown| && shown[k] == i;
      AgreeingEntry(env, newId, evs, k);
    }
    if Distinct(CallIds(CallList(newId, evs))) {
      forall k | 0 <= k < |shown| ensures shown[k] == order[k] {
        AgreeingEntry(env, newId, evs, k);
        assert shown[k] in order;
        var j :| 0 <= j < |order| && order[j] == shown[k];
        assert CallIds(CallList(newId, evs))[j] == Calls(newId, evs)[order[j]].id;
      }
    }
  }

  lemma {:induction false} IdsNonEmpty(newId: nat -> string, evs: seq<StreamEvent>, i: int)
    requires i in Order(evs)
    ensures i in Calls(newId, evs) && Calls(newId, evs)[i].id != ""
  {
    if evs != [] && i in Order(Init(evs)) {
      IdsNonEmpty(newId, Init(evs), i);
    }
  }

  /**
   When call ids are distinct, the tool calls of the two forms agree exactly if every
   index was started and no index was first mentioned silently out of turn.
   */
  lemma ToolCallsAgree(env: Envelope, newId: nat -> string, evs: seq<StreamEvent>)
    requires Distinct(CallIds(CallList(newId, evs)))
    ensures StreamedCalls(env, newId, evs) == CallList(newId, evs)
            <==> AllStarted(evs) && VisibleOrder(evs) == Order(evs)
  {
    if StreamedCalls(env, newId, evs) == CallList(newId, evs) {
      ToolCallsAgreeOnlyIf(env, newId, evs);
    }
    if AllStarted(evs) && VisibleOrder(evs) == Order(evs) {
      ToolCallsAgreeIf(env, newId, evs);
    }
  }

  lemma {:induction false} ArgsFollowStartsOrder(evs: seq<StreamEvent>)
    requires ArgsFollowStarts(evs)
    ensures VisibleOrder(evs) == Order(evs)
    ensures forall i :: Started(evs, i) ==> i in VisibleOrder(evs)
    ensures forall i :: i in Order(evs) ==> Started(evs, i)
  {
    if evs != [] {
      var before, ev := Init(evs), Last(evs);
      assert evs == before + [ev];
      forall k | 0 <= k < |before| && KindAt(before[k]) == ToolArgs
        ensures Started(before[..k], before[k].toolIndex)
      {
        assert evs[..k] == before[..k] && evs[k] == before[k];
      }
      ArgsFollowStartsOrder(before);
      if KindAt(ev) == ToolArgs {
        assert evs[..|before|] == before && evs[|before|] == ev;
      }
      forall i ensures Started(evs, i) <==> Started(before, i) || (KindAt(ev) == ToolStart && ev.toolIndex == i) {
        StartedSnoc(before, ev, i);
      }
      hide Started;
    }
  }

  /** A well-behaved upstream, which starts every call before sending arguments for it, meets the condition. */
  lemma WellBehavedAgrees(env: Envelope, newId: nat -> string, evs: seq<StreamEvent>)
    requires ArgsFollowStarts(evs)
    ensures StreamedCalls(env, newId, evs) == CallList(newId, evs)
  {
    ArgsFollowStartsOrder(evs);
    AllStartedInOrder(evs);
    ToolCallsAgreeIf(env, newId, evs);
  }

  /** The naive claim fails: an argument event without a start, empty or not. */
  lemma OrphanDisagrees(env: Envelope, newId: nat -> string, args: string)
    ensures var evs := [StreamEvent("tool_args", toolArgs := args)];
            && StreamedCalls(env, newId, evs) != CallList(newId, evs)
            && (args == "" ==> StreamedCalls(env, newId, evs) == [] && |CallList(newId, evs)| == 1)
  {
    var ev := StreamEvent("tool_args", toolArgs := args);
    var evs := [ev];
    assert Init(evs) == [] && Last(evs) == ev && KindAt(ev) == ToolArgs;
    assert KindAt(evs[0]) != ToolStart;
    assert forall i :: !Started(evs, i);
    assert ev in evs && IsTool(ev);
    assert !AllStarted(evs);
    assert Order([]) == [] && Order(evs) == [0];
    StreamedCallsLength(env, newId, evs);
    if StreamedCalls(env, newId, evs) == CallList(newId, evs) {
      ToolCallsAgreeOnlyIf(env, newId, evs);
    }
    hide StreamedCalls, AllStarted;
  }

  // ----- The shape of a streamed response -----

  /** On the wire there is exactly one end marker, and it is last, whether the stream completes or fails. */
  lemma OneEndMarker(ctx: Context, s: string, terminal: Terminal)
    requires ctx.codec.Sound()
    ensures var ps := ResponsePayloads(ctx, s, terminal);
            && ps != [] && ps[|ps| - 1] == DONE && DONE !in ps[..|ps| - 1]
            && Frames(PrintAll(ps)) == Unnamed(ps)
  {
    ResponseSplits(ctx, s, terminal);
    assert Printable(DONE);
    var ps := ResponsePayloads(ctx, s, terminal);
    hide ResponsePayloads, PrintAll, Frames;
    var front := ps[..|ps| - 1];
    assert ps == front + [DONE];
    WireFrames(ps);
  }

  /** Everything before the end marker is printable and not itself an end marker. */
  lemma {:induction false} ResponseSplits(ctx: Context, s: string, terminal: Terminal)
    requires ctx.codec.Sound()
    ensures var ps := ResponsePayloads(ctx, s, terminal);
      && ps != [] && ps[|ps| - 1] == DONE
      && forall p :: p in ps[..|ps| - 1] ==> Printable(p) && p != DONE
  {
    var evs := Used(ctx, s);
    var body, closing := Payloads(ctx.codec, ctx.env, Pieces(ctx.newId, evs)),
        Payloads(ctx.codec, ctx.env, Closing(evs));
    PayloadsPrintable(ctx.codec, ctx.env, Pieces(ctx.newId, evs));
    PayloadsPrintable(ctx.codec, ctx.env, Closing(evs));
    hide Payloads, Pieces, Closing, Used, Chunks.Outcome, ErrorValue;
    var ps := ResponsePayloads(ctx, s, terminal);
    match Chunks.Outcome(ctx, s, terminal) {
      case Completed =>
        assert ps == body + closing + [DONE];
        assert ps[..|ps| - 1] == body + closing;
      case Failed(msg) =>
        assert ctx.codec.SoundAt(ErrorValue(msg));
        assert ps == body + [ctx.codec.print_(ErrorValue(msg))] + [DONE];
        assert ps[..|ps| - 1] == body + [ctx.codec.print_(ErrorValue(msg))];
    }
  }

  /**
   A client reading the bytes of a response finds one finish reason if the stream
   completed and none, with the error message, if it failed; and the role is announced
   exactly when some text was sent.
   */
  lemma ResponseReads(ctx: Context, s: string, terminal: Terminal)
    requires ctx.codec.Sound()
    ensures var read, evs := ReadStream(ctx.codec.parse, PrintAll(ResponsePayloads(ctx, s, terminal))), Used(ctx, s);
            && read.Some?
            && read.value.content == TextOf(evs)
            && read.value.roles == (if TextOf(evs) == "" then [] else ["assistant"])
            && read.value.finishes == (if Outcome(ctx, s, terminal) == Completed then [FinishOf(evs)] else [])
            && read.value.error == ErrorOf(Outcome(ctx, s, terminal))
  {
    var evs := Used(ctx, s);
    FinalReader(ctx.env, ctx.newId, evs);
    match Outcome(ctx, s, terminal) {
      case Completed =>
        assert ResponsePayloads(ctx, s, terminal) == StreamPayloads(ctx, s, terminal);
        StreamReads(ctx, s, terminal);
      case Failed(msg) =>
        FailureReads(ctx.codec, ctx.env, Pieces(ctx.newId, evs), msg);
        assert ResponsePayloads(ctx, s, terminal) ==
               Payloads(ctx.codec, ctx.env, Pieces(ctx.newId, evs)) + [ctx.codec.print_(ErrorValue(msg)), DONE];
        AbsorbError(BodyReader(ctx.env, ctx.newId, evs), msg);
    }
    hide Used, Outcome, Pieces, Closing, Payloads, PrintAll, ReadStream, TextOf, FinishOf, CallsTrack,
         StreamPayloads, ResponsePayloads, ReadPieces, Absorb, ErrorValue;
  }

  lemma AbsorbError(r: Reader, msg: string)
    ensures Absorb(r, ErrorValue(msg)) == r.(error := Some(msg))
  {
  }

  lemma ErrorTailReads(codec: Codec, r: Reader, msg: string)
    requires codec.Sound()
    ensures ReadFrames(codec.parse, r, Unnamed([codec.print_(ErrorValue(msg)), DONE]))
         == Some(Absorb(r, ErrorValue(msg)))
  {
    var first := codec.print_(ErrorValue(msg));
    assert codec.SoundAt(ErrorValue(msg));
    hide Absorb, ErrorValue;
    assert [first, DONE][1..] == [DONE] && [DONE][1..] == [];
    var frames := Unnamed([first, DONE]);
    assert Unnamed([DONE]) == [Frame("", DONE)] + Unnamed([]);
    assert frames == [Frame("", first)] + Unnamed([DONE]);
    assert frames[1..] == Unnamed([DONE]);
  }

  lemma FailureReads(codec: Codec, env: Envelope, pieces: seq<Piece>, msg: string)
    requires codec.Sound()
    ensures ReadStream(codec.parse, PrintAll(Payloads(codec, env, pieces) + [codec.print_(ErrorValue(msg)), DONE]))
         == Some(Absorb(ReadPieces(env, FRESH, pieces), ErrorValue(msg)))
  {
    var payloads, tail := Payloads(codec, env, pieces), [codec.print_(ErrorValue(msg)), DONE];
    PayloadsPrintable(codec, env, pieces);
    assert codec.SoundAt(ErrorValue(msg));
    assert Printable(DONE);
    hide Frames, Payloads, PrintAll, ReadPieces, Unnamed, Absorb, ErrorValue, ReadFrames;
    WireFrames(payloads + tail);
    UnnamedAppend(payloads, tail);
    ReadFramesOfPieces(codec, env, FRESH, pieces, Unnamed(tail));
    ErrorTailReads(codec, ReadPieces(env, FRESH, pieces), msg);
  }

  predicate HasContent(p: Piece) {
    "content" in p.delta
  }

  predicate HasRole(p: Piece) {
    "role" in p.delta
  }

  /** The role is on the first text chunk and on no other. */
  predicate RoleOnFirstText(pieces: seq<Piece>) {
    forall k :: 0 <= k < |pieces| ==>
      (HasRole(pieces[k]) <==> HasContent(pieces[k]) && forall j :: 0 <= j < k ==> !HasContent(pieces[j]))
  }

  lemma {:induction false} RoleInPieces(newId: nat -> string, evs: seq<StreamEvent>)
    ensures RoleOnFirstText(Pieces(newId, evs))
    ensures TextOf(evs) != "" <==> exists k :: 0 <= k < |Pieces(newId, evs)| && HasContent(Pieces(newId, evs)[k])
  {
    if evs != [] {
      var before, ev := Init(evs), Last(evs);
      RoleInPieces(newId, before);
      var pieces, more := Pieces(newId, before), PieceOf(newId, before, ev);
      assert Pieces(newId, evs) == pieces + more;
      assert forall k :: 0 <= k < |pieces| ==> (pieces + more)[k] == pieces[k];
      if more != [] {
        assert more == [more[0]] && (pieces + more)[|pieces|] == more[0];
        assert HasContent(more[0]) <==> KindAt(ev) == Text;
        assert HasRole(more[0]) <==> KindAt(ev) == Text && TextOf(before) == "";
      }
      hide Pieces, PieceOf, HasContent, HasRole;
    }
  }

  lemma RoleInResponse(newId: nat -> string, evs: seq<StreamEvent>)
    ensures RoleOnFirstText(Pieces(newId, evs) + Closing(evs))
  {
    RoleInPieces(newId, evs);
    var pieces, closing := Pieces(newId, evs), Closing(evs);
    assert forall k :: 0 <= k < |closing| ==> !HasContent(closing[k]) && !HasRole(closing[k]);
    assert forall k :: 0 <= k < |pieces| ==> (pieces + closing)[k] == pieces[k];
    hide Pieces, Closing, HasContent, HasRole;
  }
}
