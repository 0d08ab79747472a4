/**
 From what the upstream means to send to what the two kinds of client read, with everything
 in between, and told only in terms of what was sent: texts, thoughts, tool calls, token
 counts and how it ended.
 */
module Delivery {
  import opened Wrappers
  import opened Json
  import opened Sse
  import opened Events
  import opened Decoder
  import opened Meaning
  import opened Chunks
  import opened Client
  import opened Agreement
  import opened StreamTheorems
  import opened Server
  import opened Upstream
  import opened EndToEnd

  // ----- What was sent -----

  /** Up to the first event that ends the stream. */
  function UntilStop(us: seq<Sent>): seq<Sent> {
    if us == [] then []
    else [us[0]] + if us[0].SentStop? || us[0].SentDone? || us[0].SentError? then [] else UntilStop(us[1..])
  }

  /** How it ends: with a stop or the end marker it completes, with an error it fails, else as the transport does. */
  function Ends(us: seq<Sent>, terminal: Terminal): Ending {
    if us == [] then if terminal.Eof? then Completed else Ending.Failed(terminal.msg)
    else if us[0].SentStop? || us[0].SentDone? then Completed
    else if us[0].SentError? then Ending.Failed(if us[0].msg == "" then "upstream stream error" else us[0].msg)
    else Ends(us[1..], terminal)
  }

  function TextSent(us: seq<Sent>): string {
    if us == [] then "" else TextSent(Init(us)) + if Last(us).SentText? then Last(us).text else ""
  }

  function ThinkingSent(us: seq<Sent>): string {
    if us == [] then "" else ThinkingSent(Init(us)) + if Last(us).SentThinking? then Last(us).thinking else ""
  }

  /** The last positive count of input tokens. */
  function InputSent(us: seq<Sent>): int {
    if us == [] then 0
    else if Last(us).SentStart? && Last(us).inputTokens > 0 then Last(us).inputTokens
    else InputSent(Init(us))
  }

  function OutputSent(us: seq<Sent>): int {
    if us == [] then 0
    else if Last(us).SentDelta? && Last(us).outputTokens > 0 then Last(us).outputTokens
    else OutputSent(Init(us))
  }

  predicate IsToolEvent(u: Sent) {
    u.SentToolUse? || u.SentToolJson?
  }

  predicate AsksForTools(us: seq<Sent>) {
    exists u :: u in us && (IsToolEvent(u) || (u.SentDelta? && u.stopReason == "tool_use"))
  }

  /** Tool calls by index, the indices as they came up, and how many ids had to be generated. */
  datatype Made = Made(order: seq<int>, calls: map<int, Call>, minted: nat)

  /** A start begins the call afresh, under an id of its own if it brings none; arguments are appended. */
  function OneMore(newId: nat -> string, m: Made, u: Sent): Made {
    match u
    case SentToolUse(i, id, name) =>
      Made(if i in m.order then m.order else m.order + [i],
           m.calls[i := Call(if id == "" then "call_" + newId(m.minted) else id, name, "")],
           if id == "" then m.minted + 1 else m.minted)
    case SentToolJson(i, partial) =>
      if i in m.calls then m.(calls := m.calls[i := m.calls[i].(args := m.calls[i].args + partial)])
      else Made(m.order + [i], m.calls[i := Call("call_" + newId(m.minted), "", partial)], m.minted + 1)
    case _ => m
  }

  function MadeBy(newId: nat -> string, us: seq<Sent>): (m: Made)
    ensures forall i :: i in m.order <==> i in m.calls
  {
    if us == [] then Made([], map[], 0) else OneMore(newId, MadeBy(newId, Init(us)), Last(us))
  }

  function CallsSent(newId: nat -> string, us: seq<Sent>): seq<Call> {
    var m := MadeBy(newId, us);
    seq(|m.order|, k requires 0 <= k < |m.order| => m.calls[m.order[k]])
  }

  // ----- What the events mean is what was sent -----

  lemma {:induction false} ConsumedSent(us: seq<Sent>)
    ensures Consumed(Meant(us)) == Meant(UntilStop(us))
  {
    if us != [] {
      ConsumedSent(us[1..]);
      var u, more := us[0], us[1..];
      assert Meant(us) == EventsFor(u) + Meant(more);
      assert UntilStop(us)[0] == u;
      assert UntilStop(us)[1..] == if u.SentStop? || u.SentDone? || u.SentError? then [] else UntilStop(more);
      assert Meant([]) == [];
      if EventFor(u).Some? {
        var ev := EventFor(u).value;
        assert ev.done <==> u.SentStop? || u.SentDone? || u.SentError?;
        assert ([ev] + Meant(more))[0] == ev && ([ev] + Meant(more))[1..] == Meant(more);
        assert [ev] + [] == [ev];
      } else {
        assert [] + Meant(more) == Meant(more) && [] + Meant(UntilStop(more)) == Meant(UntilStop(more));
      }
    }
  }

  lemma {:induction false} EndsSent(us: seq<Sent>, terminal: Terminal)
    ensures EndingOf(Meant(us), terminal) == Ends(us, terminal)
  {
    if us != [] {
      EndsSent(us[1..], terminal);
      var u, more := us[0], us[1..];
      assert Meant(us) == EventsFor(u) + Meant(more);
      hide Meant;
      if EventFor(u).Some? {
        var ev := EventFor(u).value;
        assert ([ev] + Meant(more))[0] == ev && ([ev] + Meant(more))[1..] == Meant(more);
      } else {
        assert [] + Meant(more) == Meant(more);
      }
    }
  }

  ghost predicate Agrees(newId: nat -> string, us: seq<Sent>, evs: seq<StreamEvent>) {
    && AgreesOnTexts(us, evs)
    && (Order(evs) != [] || StopsForTools(evs) <==> AsksForTools(us))
    && AgreesOnCalls(newId, us, evs)
  }

  ghost predicate AgreesOnTexts(us: seq<Sent>, evs: seq<StreamEvent>) {
    && TextOf(evs) == TextSent(us) && ReasoningOf(evs) == ThinkingSent(us)
    && UsageOf(evs) == Usage(InputSent(us), OutputSent(us))
  }

  ghost predicate AgreesOnCalls(newId: nat -> string, us: seq<Sent>, evs: seq<StreamEvent>) {
    MadeBy(newId, us) == Made(Order(evs), Calls(newId, evs), Minted(evs))
  }

  lemma AsksSnoc(us: seq<Sent>, u: Sent)
    ensures AsksForTools(us + [u]) <==>
            AsksForTools(us) || IsToolEvent(u) || (u.SentDelta? && u.stopReason == "tool_use")
  {
    assert u in us + [u] && forall x :: x in us ==> x in us + [u];
  }

  /** The kind of the event that was meant. */
  lemma KindSent(u: Sent)
    requires InRange(u) && EventFor(u).Some?
    ensures var k := KindAt(EventFor(u).value);
      && (k == Text <==> u.SentText?) && (k == Reasoning <==> u.SentThinking?)
      && (k == MessageStart <==> u.SentStart?) && (k == MessageDelta <==> u.SentDelta?)
      && (k == ToolStart <==> u.SentToolUse?) && (k == ToolArgs <==> u.SentToolJson?)
  {
  }

  lemma SentSnoc(newId: nat -> string, us: seq<Sent>, u: Sent)
    ensures TextSent(us + [u]) == TextSent(us) + if u.SentText? then u.text else ""
    ensures ThinkingSent(us + [u]) == ThinkingSent(us) + if u.SentThinking? then u.thinking else ""
    ensures InputSent(us + [u]) == if u.SentStart? && u.inputTokens > 0 then u.inputTokens else InputSent(us)
    ensures OutputSent(us + [u]) == if u.SentDelta? && u.outputTokens > 0 then u.outputTokens else OutputSent(us)
    ensures !IsToolEvent(u) ==> MadeBy(newId, us + [u]) == MadeBy(newId, us)
  {
    assert Init(us + [u]) == us && Last(us + [u]) == u;
  }

  lemma TextsStep(newId: nat -> string, us: seq<Sent>, evs: seq<StreamEvent>, u: Sent)
    requires InRange(u) && AgreesOnTexts(us, evs)
    ensures AgreesOnTexts(us + [u], evs + EventsFor(u))
  {
    SentSnoc(newId, us, u);
    if EventFor(u) == None {
      assert evs + [] == evs && TextSent(us) + "" == TextSent(us) && ThinkingSent(us) + "" == ThinkingSent(us);
    } else {
      KindSent(u);
      MeaningSnoc(evs, EventFor(u).value);
    }
    hide KindOf, TextOf, ReasoningOf, UsageOf, StopsForTools, TextSent, ThinkingSent, InputSent, OutputSent, InRange;
  }

  lemma ToolsStep(newId: nat -> string, us: seq<Sent>, evs: seq<StreamEvent>, u: Sent)
    requires InRange(u) && (Order(evs) != [] || StopsForTools(evs) <==> AsksForTools(us))
    ensures var more := evs + EventsFor(u);
            Order(more) != [] || StopsForTools(more) <==> AsksForTools(us + [u])
  {
    AsksSnoc(us, u);
    if EventFor(u) == None {
      assert evs + [] == evs;
    } else {
      KindSent(u);
      MeaningSnoc(evs, EventFor(u).value);
      ToolsSnoc(newId, evs, EventFor(u).value);
    }
    hide KindOf, TextOf, ReasoningOf, UsageOf, StopsForTools, Order, AsksForTools, Calls, Minted, InRange;
  }

  lemma AgreesStep(newId: nat -> string, us: seq<Sent>, evs: seq<StreamEvent>, u: Sent)
    requires InRange(u) && Agrees(newId, us, evs)
    ensures Agrees(newId, us + [u], evs + EventsFor(u))
  {
    hide AgreesOnTexts, AgreesOnCalls, Order, StopsForTools, AsksForTools, InRange, EventsFor;
    TextsStep(newId, us, evs, u);
    ToolsStep(newId, us, evs, u);
    CallsStepAgrees(newId, us, evs, u);
  }

  lemma CallsStepAgrees(newId: nat -> string, us: seq<Sent>, evs: seq<StreamEvent>, u: Sent)
    requires InRange(u) && AgreesOnCalls(newId, us, evs)
    ensures AgreesOnCalls(newId, us + [u], evs + EventsFor(u))
  {
    if !IsToolEvent(u) {
      SentSnoc(newId, us, u);
      if EventFor(u) == None {
        assert evs + [] == evs;
      } else {
        KindSent(u);
        ToolsSnoc(newId, evs, EventFor(u).value);
      }
      hide KindOf, Order, Calls, Minted, MadeBy, InRange;
    } else {
      ToolEventAgrees(newId, us, evs, u);
    }
  }

  lemma ToolEventAgrees(newId: nat -> string, us: seq<Sent>, evs: seq<StreamEvent>, u: Sent)
    requires IsToolEvent(u) && AgreesOnCalls(newId, us, evs)
    ensures AgreesOnCalls(newId, us + [u], evs + EventsFor(u))
  {
    assert Init(us + [u]) == us && Last(us + [u]) == u;
    assert MadeBy(newId, us + [u]) == OneMore(newId, MadeBy(newId, us), u);
    var ev := EventFor(u).value;
    hide MadeBy, KindOf, Order, Calls, Minted, CallsStep, OneMore, Mints, IsTool;
    ToolsSnoc(newId, evs, ev);
    StepAgrees(newId, evs, u);
  }

  lemma StepAgrees(newId: nat -> string, evs: seq<StreamEvent>, u: Sent)
    requires IsToolEvent(u)
    ensures var ev := EventFor(u).value;
            OneMore(newId, Made(Order(evs), Calls(newId, evs), Minted(evs)), u) ==
            Made(if IsTool(ev) && ev.toolIndex !in Order(evs) then Order(evs) + [ev.toolIndex] else Order(evs),
                 CallsStep(newId, evs, ev), Minted(evs) + if Mints(evs, ev) then 1 else 0)
  {
    var ev := EventFor(u).value;
    assert KindAt(ev) == if u.SentToolUse? then ToolStart else ToolArgs;
    hide KindOf, Order, Calls, Minted;
  }

  lemma {:induction false} MeansWhatWasSent(newId: nat -> string, us: seq<Sent>)
    requires forall u :: u in us ==> InRange(u)
    ensures Agrees(newId, us, Meant(us))
  {
    if us == [] {
      assert Calls(newId, []) == map[];
    } else {
      var before, u := Init(us), Last(us);
      assert us == before + [u] && forall x :: x in before ==> x in us;
      MeansWhatWasSent(newId, before);
      MeantSnoc(before, u);
      AgreesStep(newId, before, Meant(before), u);
      hide *;
    }
  }

  // ----- What the clients read -----

  lemma CallListSent(newId: nat -> string, us: seq<Sent>, evs: seq<StreamEvent>)
    requires AgreesOnCalls(newId, us, evs)
    ensures CallList(newId, evs) == CallsSent(newId, us)
  {
    hide Order, Calls, Minted, MadeBy;
  }

  lemma UntilStopIn(us: seq<Sent>)
    ensures forall u :: u in UntilStop(us) ==> u in us
  {
    if us != [] && !(us[0].SentStop? || us[0].SentDone? || us[0].SentError?) {
      UntilStopIn(us[1..]);
    }
  }

  /** What the decoder makes of the bytes. */
  lemma BytesMean(ctx: Context, ws: seq<Wire>, terminal: Terminal)
    requires ctx.codec.Sound() && forall w :: w in ws ==> Faithful(ctx.codec, w)
    ensures var us := Meanings(ws);
      && Chunks.Outcome(ctx, Sending(ws), terminal) == Ends(us, terminal)
      && Used(ctx, Sending(ws)) == Meant(UntilStop(us))
      && Agrees(ctx.newId, UntilStop(us), Meant(UntilStop(us)))
  {
    var us := Meanings(ws);
    SendThenDecode(ctx.codec, ws, "");
    assert Sending(ws) + "" == Sending(ws) && EventsOf(ctx.codec.parse, "") == [] && Meant(us) + [] == Meant(us);
    forall u | u in us ensures InRange(u) {
      var k :| 0 <= k < |us| && us[k] == u;
      assert ws[k] in ws;
    }
    hide Sending, Meant, EventsOf, Consumed, EndingOf, UntilStop, Ends, Agrees, Meanings, InRange, Faithful;
    UntilStopIn(us);
    ConsumedSent(us);
    EndsSent(us, terminal);
    MeansWhatWasSent(ctx.newId, UntilStop(us));
  }

  function FinishSent(us: seq<Sent>): string {
    if AsksForTools(us) then "tool_calls" else "stop"
  }

  /** The streaming client has read what was sent. */
  predicate StreamHeard(r: Reader, us: seq<Sent>) {
    && r.content == TextSent(us) && r.reasoning == ThinkingSent(us)
    && r.roles == (if TextSent(us) == "" then [] else ["assistant"])
    && r.finishes == [FinishSent(us)] && r.error == None
  }

  /** Any other client has read what was sent. */
  predicate WholeHeard(newId: nat -> string, m: Client.Message, us: seq<Sent>) {
    && m.content == TextSent(us) && m.reasoning == ThinkingSent(us) && m.calls == CallsSent(newId, us)
    && m.finish == FinishSent(us) && m.usage == Usage(InputSent(us), OutputSent(us))
    && m.total == InputSent(us) + OutputSent(us)
  }

  /**
   A stream that completes: what either client reads from the bytes it gets is what was
   sent, however it was written, up to the first event that ended the stream; the tool calls
   of the streaming client too, if calls were started before their arguments.
   */
  lemma CompletedDelivered(ctx: Context, ws: seq<Wire>, terminal: Terminal)
    requires ctx.codec.Sound() && (forall w :: w in ws ==> Faithful(ctx.codec, w))
    requires Ends(Meanings(ws), terminal) == Completed
    ensures var us := UntilStop(Meanings(ws));
            var streamed := RelayWritten(ctx, true, Sending(ws), terminal);
            var whole := RelayWritten(ctx, false, Sending(ws), terminal);
            var reader, value := ReadStream(ctx.codec.parse, streamed.body), ctx.codec.parse(whole.body);
      && streamed.status == 200 && whole.status == 200 && reader.Some? && value.Some?
      && StreamHeard(reader.value, us) && WholeHeard(ctx.newId, ReadCompletion(value.value), us)
      && (StartsFirst(us) ==> ReaderCalls(reader.value) == CallsSent(ctx.newId, us))
  {
    hide *;
    var us, evs := UntilStop(Meanings(ws)), Meant(UntilStop(Meanings(ws)));
    BytesMean(ctx, ws, terminal);
    CompletedReads(ctx, Sending(ws), terminal);
    var streamed, whole := RelayWritten(ctx, true, Sending(ws), terminal),
        RelayWritten(ctx, false, Sending(ws), terminal);
    var reader, value := ReadStream(ctx.codec.parse, streamed.body), ctx.codec.parse(whole.body);
    Heard(ctx.newId, us, evs, reader.value, ReadCompletion(value.value));
    if StartsFirst(us) {
      CallsFollow(ctx, ws, us);
    }
  }

  /** From what the events mean to what was sent. */
  lemma Heard(newId: nat -> string, us: seq<Sent>, evs: seq<StreamEvent>, r: Reader, m: Client.Message)
    requires Agrees(newId, us, evs)
    requires r.content == TextOf(evs) && r.reasoning == ReasoningOf(evs)
    requires r.roles == (if TextOf(evs) == "" then [] else ["assistant"])
    requires r.finishes == [FinishOf(evs)] && r.error == None
    requires m == Client.Message(TextOf(evs), ReasoningOf(evs), CallList(newId, evs), FinishOf(evs), UsageOf(evs),
                                 UsageOf(evs).input + UsageOf(evs).output)
    ensures StreamHeard(r, us) && WholeHeard(newId, m, us) && CallList(newId, evs) == CallsSent(newId, us)
  {
    CallListSent(newId, us, evs);
    hide TextOf, ReasoningOf, CallList, UsageOf, MadeBy, Order, StopsForTools, AsksForTools, CallsSent, TextSent,
      ThinkingSent, InputSent, OutputSent, AgreesOnCalls;
  }

  lemma CallsFollow(ctx: Context, ws: seq<Wire>, us: seq<Sent>)
    requires (forall w :: w in ws ==> Faithful(ctx.codec, w)) && us == UntilStop(Meanings(ws)) && StartsFirst(us)
    ensures StreamedCalls(ctx.env, ctx.newId, Meant(us)) == CallList(ctx.newId, Meant(us))
  {
    hide *;
    SentInRange(ctx.codec, ws);
    StartsFirstFollows(us);
    WellBehavedAgrees(ctx.env, ctx.newId, Meant(us));
  }

  lemma SentInRange(codec: Codec, ws: seq<Wire>)
    requires forall w :: w in ws ==> Faithful(codec, w)
    ensures forall u :: u in UntilStop(Meanings(ws)) ==> InRange(u)
  {
    UntilStopIn(Meanings(ws));
    forall u | u in Meanings(ws) ensures InRange(u) {
      var k :| 0 <= k < |Meanings(ws)| && Meanings(ws)[k] == u;
      assert ws[k] in ws;
    }
  }

  /** What both clients read from the bytes of a completed stream, in terms of its events. */
  lemma CompletedReads(ctx: Context, bytes: string, terminal: Terminal)
    requires ctx.codec.Sound() && Chunks.Outcome(ctx, bytes, terminal) == Completed
    ensures var streamed := RelayWritten(ctx, true, bytes, terminal);
            var whole := RelayWritten(ctx, false, bytes, terminal);
            var reader, value := ReadStream(ctx.codec.parse, streamed.body), ctx.codec.parse(whole.body);
            var evs := Used(ctx, bytes);
      && streamed.status == 200 && whole.status == 200 && reader.Some? && value.Some?
      && reader.value.content == TextOf(evs) && reader.value.reasoning == ReasoningOf(evs)
      && reader.value.roles == (if TextOf(evs) == "" then [] else ["assistant"])
      && reader.value.finishes == [FinishOf(evs)] && reader.value.error == None
      && ReaderCalls(reader.value) == StreamedCalls(ctx.env, ctx.newId, evs)
      && ReadCompletion(value.value) ==
         Client.Message(TextOf(evs), ReasoningOf(evs), CallList(ctx.newId, evs), FinishOf(evs), UsageOf(evs),
                        UsageOf(evs).input + UsageOf(evs).output)
  {
    var evs := Used(ctx, bytes);
    StreamAgreesWithAggregate(ctx, bytes, terminal);
    ResponseReads(ctx, bytes, terminal);
    CompletedBytes(ctx, bytes, terminal);
    assert ctx.codec.SoundAt(Completion(ctx, bytes));
    CompletionReads(ctx.env, TextOf(evs), ReasoningOf(evs), CallList(ctx.newId, evs), FinishOf(evs), UsageOf(evs));
    hide ReadStream, PrintAll, StreamPayloads, ResponsePayloads, Used, Chunks.Outcome, ReadCompletion, ReaderCalls,
      StreamedCalls, CallList, UsageOf, TextOf, ReasoningOf, FinishOf, MessageValue, CompletionValue;
  }

  /** A stream that fails: the streaming client has what was sent until then, and the error; the other gets a 502. */
  lemma FailedDelivered(ctx: Context, ws: seq<Wire>, terminal: Terminal, msg: string)
    requires ctx.codec.Sound() && (forall w :: w in ws ==> Faithful(ctx.codec, w))
    requires Ends(Meanings(ws), terminal) == Ending.Failed(msg)
    ensures var streamed := RelayWritten(ctx, true, Sending(ws), terminal);
            var reader := ReadStream(ctx.codec.parse, streamed.body);
      && streamed.status == 200 && RelayWritten(ctx, false, Sending(ws), terminal).status == 502
      && reader.Some? && reader.value.error == Some(msg) && reader.value.finishes == []
      && reader.value.content == TextSent(UntilStop(Meanings(ws)))
  {
    BytesMean(ctx, ws, terminal);
    FailureReported(ctx, Sending(ws), terminal, msg);
    hide Sending, ReadStream, RelayWritten, TextOf, UntilStop, Meant, Meanings, TextSent, RelayResult, AgreesOnCalls,
        UsageOf, ReasoningOf;
  }
}
