/** Events that leave no trace in either form of the translation. */
module Invisible {
  import opened Wrappers
  import opened Json
  import opened Sse
  import opened Events
  import opened Decoder
  import opened Meaning
  import opened Chunks

  /** An event no part of the meaning looks at. */
  predicate Inert(ev: StreamEvent) {
    && !ev.done
    && match KindAt(ev)
       case Other => true
       case Text => ev.text == ""
       case Reasoning => ev.reasoning == ""
       case _ => false
  }

  function Effective(evs: seq<StreamEvent>): seq<StreamEvent> {
    if evs == [] then []
    else Effective(Init(evs)) + if Inert(Last(evs)) then [] else [Last(evs)]
  }

  /** Two event sequences that neither form of the translation can tell apart. */
  ghost predicate SameMeaning(newId: nat -> string, a: seq<StreamEvent>, b: seq<StreamEvent>) {
    && TextOf(a) == TextOf(b) && ReasoningOf(a) == ReasoningOf(b) && UsageOf(a) == UsageOf(b)
    && (StopsForTools(a) <==> StopsForTools(b))
    && Order(a) == Order(b) && Minted(a) == Minted(b) && Calls(newId, a) == Calls(newId, b)
    && Pieces(newId, a) == Pieces(newId, b)
  }

  lemma SameMeaningInert(newId: nat -> string, a: seq<StreamEvent>, b: seq<StreamEvent>, ev: StreamEvent)
    requires SameMeaning(newId, a, b) && Inert(ev)
    ensures SameMeaning(newId, a + [ev], b)
  {
    MeaningSnoc(a, ev);
    ToolsSnoc(newId, a, ev);
    PiecesSnoc(newId, a, ev);
    hide TextOf, ReasoningOf, UsageOf, StopsForTools, Order, Minted, Calls, Pieces, CallId, StartId;
  }

  lemma SameMeaningStep(newId: nat -> string, a: seq<StreamEvent>, b: seq<StreamEvent>, ev: StreamEvent)
    requires SameMeaning(newId, a, b)
    ensures SameMeaning(newId, a + [ev], b + [ev])
  {
    MeaningSnoc(a, ev);
    MeaningSnoc(b, ev);
    assert StartId(newId, a, ev) == StartId(newId, b, ev) && (Mints(a, ev) <==> Mints(b, ev));
    assert CallsStep(newId, a, ev) == CallsStep(newId, b, ev);
    assert PieceOf(newId, a, ev) == PieceOf(newId, b, ev);
    ToolsSnoc(newId, a, ev);
    ToolsSnoc(newId, b, ev);
    PiecesSnoc(newId, a, ev);
    PiecesSnoc(newId, b, ev);
    hide TextOf, ReasoningOf, UsageOf, StopsForTools, Order, Minted, Calls, Pieces, CallId, StartId, CallsStep, PieceOf;
  }

  /** Everything both translators write is determined by the effective events. */
  lemma {:induction false} EffectiveMeans(newId: nat -> string, evs: seq<StreamEvent>)
    ensures SameMeaning(newId, evs, Effective(evs))
  {
    if evs != [] {
      var before, ev := Init(evs), Last(evs);
      assert evs == before + [ev];
      assert Effective(evs) == Effective(before) + if Inert(ev) then [] else [ev];
      EffectiveMeans(newId, before);
      hide SameMeaning, Effective;
      if Inert(ev) {
        assert Effective(evs) == Effective(before);
        SameMeaningInert(newId, before, Effective(before), ev);
      } else {
        SameMeaningStep(newId, before, Effective(before), ev);
      }
    }
  }

  lemma {:induction false} EffectiveConcat(a: seq<StreamEvent>, b: seq<StreamEvent>)
    ensures Effective(a + b) == Effective(a) + Effective(b)
  {
    if b == [] {
      assert a + b == a;
    } else {
      assert Init(a + b) == a + Init(b) && Last(a + b) == Last(b);
      EffectiveConcat(a, Init(b));
    }
  }

  lemma {:induction false} EffectiveCons(ev: StreamEvent, rest: seq<StreamEvent>)
    ensures Effective([ev] + rest) == (if Inert(ev) then [] else [ev]) + Effective(rest)
  {
    EffectiveConcat([ev], rest);
    assert Init([ev]) == [] && Last([ev]) == ev;
    hide Inert;
  }

  lemma {:induction false} EffectiveConsumed(evs: seq<StreamEvent>, t: Terminal)
    ensures Effective(Consumed(evs)) == Consumed(Effective(evs))
    ensures EndingOf(evs, t) == EndingOf(Effective(evs), t)
    decreases |evs|
  {
    assert Effective([]) == [];
    if evs != [] {
      var ev, rest := evs[0], evs[1..];
      assert evs == [ev] + rest;
      EffectiveCons(ev, rest);
      EffectiveCons(ev, Consumed(rest));
      EffectiveCons(ev, []);
      EffectiveConsumed(rest, t);
      assert ev.done ==> !Inert(ev);
      hide Effective, Inert;
      assert [ev] + [] == [ev];
      assert ([ev] + Effective(rest))[1..] == Effective(rest);
      assert [] + Effective(rest) == Effective(rest);
      assert [] + Effective(Consumed(rest)) == Effective(Consumed(rest));
    }
  }

  /**
   Two byte streams with the same effective events are translated to the same bytes,
   the same object, the same usage and the same outcome.
   */
  lemma SameEffectSameOutput(ctx: Context, s: string, s': string, t: Terminal)
    requires Effective(EventsOf(ctx.codec.parse, s)) == Effective(EventsOf(ctx.codec.parse, s'))
    ensures StreamPayloads(ctx, s, t) == StreamPayloads(ctx, s', t)
    ensures Completion(ctx, s) == Completion(ctx, s')
    ensures UsageOf(Used(ctx, s)) == UsageOf(Used(ctx, s'))
    ensures Outcome(ctx, s, t) == Outcome(ctx, s', t)
  {
    var a, b := EventsOf(ctx.codec.parse, s), EventsOf(ctx.codec.parse, s');
    EffectiveConsumed(a, t);
    EffectiveConsumed(b, t);
    EffectiveMeans(ctx.newId, Consumed(a));
    EffectiveMeans(ctx.newId, Consumed(b));
    hide Effective, EventsOf, Consumed, EndingOf, TextOf, ReasoningOf, UsageOf, StopsForTools, Order, Minted, Calls,
         Pieces, CompletionValue, MessageValue, InOrder, Payloads;
  }

  // ----- What is inert on the wire -----

  predicate KnownType(t: string) {
    t in {"heartbeat", "ping", "stream_error", "error", "message_start", "content_block_start",
          "content_block_delta", "message_delta", "message_stop"}
  }

  /**
   A frame whose wire type the decoder does not know is invisible, unless that type is
   literally the name of one of the decoder's own tool events: then it makes a tool call.
   */
  lemma UnknownTypeInvisible(eventName: string, obj: Object)
    requires !KnownType(WireType(eventName, obj))
    ensures var t, ev := WireType(eventName, obj), DecodeEvent(eventName, obj);
            && ev.Some?
            && (Inert(ev.value) <==> t != "tool_start" && t != "tool_args")
            && (!Inert(ev.value) ==> Order([ev.value]) == [0])
  {
    var ev := DecodeEvent(eventName, obj).value;
    assert Init([ev]) == [] && Last([ev]) == ev;
  }

  /** Inserting frames that are silent or inert at a frame boundary changes nothing either form writes. */
  lemma NoiseInvisible(ctx: Context, a: string, noise: string, b: string, t: Terminal)
    requires AtFrameBoundary(a) && AtFrameBoundary(noise)
    requires forall ev :: ev in EventsOf(ctx.codec.parse, noise) ==> Inert(ev)
    ensures StreamPayloads(ctx, a + noise + b, t) == StreamPayloads(ctx, a + b, t)
    ensures Completion(ctx, a + noise + b) == Completion(ctx, a + b)
    ensures Outcome(ctx, a + noise + b, t) == Outcome(ctx, a + b, t)
  {
    var parse := ctx.codec.parse;
    AllInert(EventsOf(parse, noise));
    hide StreamPayloads, Completion, Outcome, Inert, Effective, EventsOf;
    var tail := noise + b;
    assert a + noise + b == a + tail;
    EventsConcat(parse, a, tail);
    EventsConcat(parse, noise, b);
    EventsConcat(parse, a, b);
    EffectiveConcat(EventsOf(parse, a), EventsOf(parse, tail));
    EffectiveConcat(EventsOf(parse, noise), EventsOf(parse, b));
    EffectiveConcat(EventsOf(parse, a), EventsOf(parse, b));
    assert [] + Effective(EventsOf(parse, b)) == Effective(EventsOf(parse, b));
    SameEffectSameOutput(ctx, a + tail, a + b, t);
  }

  lemma {:induction false} AllInert(evs: seq<StreamEvent>)
    requires forall ev :: ev in evs ==> Inert(ev)
    ensures Effective(evs) == []
  {
    if evs != [] {
      AllInert(Init(evs));
    }
  }

  /** Nothing after the first terminal event changes anything. */
  lemma AfterTerminalInvisible(ctx: Context, a: string, later: string, t: Terminal)
    requires AtFrameBoundary(a)
    requires exists ev :: ev in EventsOf(ctx.codec.parse, a) && ev.done
    ensures StreamPayloads(ctx, a + later, t) == StreamPayloads(ctx, a, t)
    ensures Completion(ctx, a + later) == Completion(ctx, a)
    ensures Outcome(ctx, a + later, t) == Outcome(ctx, a, t)
  {
    EventsConcat(ctx.codec.parse, a, later);
    ConsumedStops(EventsOf(ctx.codec.parse, a), EventsOf(ctx.codec.parse, later));
    hide EventsOf, Consumed, EndingOf;
  }
}
