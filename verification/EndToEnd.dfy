/** What a client gets from the handler for one upstream stream, streamed or whole. */
module EndToEnd {
  import opened Wrappers
  import opened Json
  import opened Sse
  import opened Decoder
  import opened Meaning
  import opened Chunks
  import opened Client
  import opened Agreement
  import opened StreamTheorems
  import opened Server
  import opened Events
  import opened Upstream

  /**
   For every upstream byte stream that completes, the bytes written to a streaming client
   and the bytes written to any other client are read as the same message; and if the
   upstream starts every tool call before sending its arguments, as the same tool calls.
   */
  lemma FormsAgree(ctx: Context, bytes: string, terminal: Terminal)
    requires ctx.codec.Sound() && Chunks.Outcome(ctx, bytes, terminal) == Completed
    ensures var streamed := RelayWritten(ctx, true, bytes, terminal);
            var whole := RelayWritten(ctx, false, bytes, terminal);
            var reader, value := ReadStream(ctx.codec.parse, streamed.body), ctx.codec.parse(whole.body);
      && streamed.status == 200 && whole.status == 200
      && reader.Some? && value.Some?
      && var message := ReadCompletion(value.value);
         && reader.value.content == message.content
         && reader.value.reasoning == message.reasoning
         && reader.value.finishes == [message.finish]
         && message.usage == Usage(RelayResult(ctx, bytes, terminal).tokensIn,
                                   RelayResult(ctx, bytes, terminal).tokensOut)
         && (ArgsFollowStarts(Used(ctx, bytes)) ==> ReaderCalls(reader.value) == message.calls)
  {
    StreamAgreesWithAggregate(ctx, bytes, terminal);
    CompletedBytes(ctx, bytes, terminal);
    assert ctx.codec.SoundAt(Completion(ctx, bytes));
    if ArgsFollowStarts(Used(ctx, bytes)) {
      WellBehavedAgrees(ctx.env, ctx.newId, Used(ctx, bytes));
    }
    hide ReadStream, PrintAll, StreamPayloads, ResponsePayloads, Completion, Used, Chunks.Outcome, ReadCompletion,
         ReaderCalls, StreamedCalls, CallList, ArgsFollowStarts, UsageOf;
  }

  /** A stream that fails: the streaming client still gets a closed response with the error, the other a status 502. */
  lemma FailureReported(ctx: Context, bytes: string, terminal: Terminal, msg: string)
    requires ctx.codec.Sound() && Chunks.Outcome(ctx, bytes, terminal) == Failed(msg)
    ensures var streamed := RelayWritten(ctx, true, bytes, terminal);
            var reader := ReadStream(ctx.codec.parse, streamed.body);
      && streamed.status == 200 && RelayWritten(ctx, false, bytes, terminal).status == 502
      && reader.Some? && reader.value.error == Some(msg) && reader.value.finishes == []
      && reader.value.content == TextOf(Used(ctx, bytes))
      && !RelayResult(ctx, bytes, terminal).ok
  {
    ResponseReads(ctx, bytes, terminal);
    hide ReadStream, PrintAll, ResponsePayloads, Used, Chunks.Outcome, TextOf, FinishOf, ErrorBody;
  }

  // ----- An upstream that speaks the protocol -----

  predicate Opened(us: seq<Sent>, i: int) {
    exists u :: u in us && u.SentToolUse? && u.index == i
  }

  /** Arguments are only sent for a tool call that has been started. */
  predicate StartsFirst(us: seq<Sent>) {
    forall k :: 0 <= k < |us| && us[k].SentToolJson? ==> Opened(us[..k], us[k].index)
  }

  lemma {:induction false} MeantSnoc(us: seq<Sent>, u: Sent)
    ensures Meant(us + [u]) == Meant(us) + EventsFor(u)
  {
    hide EventsFor;
    if us == [] {
      assert [u][1..] == [] && [] + [u] == [u];
    } else {
      assert (us + [u])[1..] == us[1..] + [u];
      MeantSnoc(us[1..], u);
      Regroup(EventsFor(us[0]), Meant(us[1..]), EventsFor(u));
    }
  }

  lemma FollowsSnoc(evs: seq<StreamEvent>, ev: StreamEvent)
    requires ArgsFollowStarts(evs) && (KindAt(ev) == ToolArgs ==> Started(evs, ev.toolIndex))
    ensures ArgsFollowStarts(evs + [ev])
  {
    hide Started, KindOf;
    var more := evs + [ev];
    forall k | 0 <= k < |more| && KindAt(more[k]) == ToolArgs ensures Started(more[..k], more[k].toolIndex) {
      assert k < |evs| ==> more[..k] == evs[..k];
      assert more[..|evs|] == evs;
    }
  }

  lemma {:induction false} StartsFirstFollows(us: seq<Sent>)
    requires StartsFirst(us) && forall u :: u in us ==> InRange(u)
    ensures ArgsFollowStarts(Meant(us))
    ensures forall i :: Opened(us, i) ==> Started(Meant(us), i)
  {
    if us != [] {
      var before, u := us[..|us| - 1], us[|us| - 1];
      assert us == before + [u];
      forall k | 0 <= k < |before| && before[k].SentToolJson? ensures Opened(before[..k], before[k].index) {
        assert us[..k] == before[..k] && us[k] == before[k];
      }
      StartsFirstFollows(before);
      MeantSnoc(before, u);
      assert u.SentToolJson? ==> Opened(us[..|before|], u.index);
      FollowsOne(before, u);
      hide Meant, ArgsFollowStarts, Started, EventsFor;
      forall i | Opened(us, i) ensures Started(Meant(us), i) {
        var x :| x in us && x.SentToolUse? && x.index == i;
        assert x in before ==> Opened(before, i);
      }
    }
  }

  lemma FollowsOne(us: seq<Sent>, u: Sent)
    requires InRange(u) && ArgsFollowStarts(Meant(us)) && (u.SentToolJson? ==> Opened(us, u.index))
    requires forall i :: Opened(us, i) ==> Started(Meant(us), i)
    ensures var more := Meant(us) + EventsFor(u);
      && ArgsFollowStarts(more)
      && (forall i :: Started(Meant(us), i) ==> Started(more, i))
      && (u.SentToolUse? ==> Started(more, u.index))
  {
    var evs := Meant(us);
    if EventFor(u) == None {
      assert evs + [] == evs;
    } else {
      var ev := EventFor(u).value;
      assert KindAt(ev) == ToolArgs <==> u.SentToolJson?;
      assert KindAt(ev) == ToolStart <==> u.SentToolUse?;
      hide Meant, KindOf, Opened;
      FollowsSnoc(evs, ev);
      forall i ensures Started(evs + [ev], i) <==> Started(evs, i) || (KindAt(ev) == ToolStart && ev.toolIndex == i) {
        StartedSnoc(evs, ev, i);
      }
    }
  }
}
