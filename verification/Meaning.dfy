/**
 What an upstream event stream means, independently of how it is translated:
 which events count, the text and reasoning they carry, their token usage, and
 the tool calls they make. Both translation loops are proved against this.
 */
module Meaning {
  import opened Wrappers
  import opened Events
  import opened Decoder
  import Json
  import Sse

  datatype Usage = Usage(input: int, output: int)

  /** A tool call as it is accumulated. */
  datatype Call = Call(id: string, name: string, args: string)

  /** A stream either completes or fails with a message. */
  datatype Ending = Completed | Failed(msg: string)

  /** The events up to and including the first one that ends the stream. */
  function Consumed(evs: seq<StreamEvent>): seq<StreamEvent> {
    if evs == [] then []
    else if evs[0].done then [evs[0]]
    else [evs[0]] + Consumed(evs[1..])
  }

  function ErrorOf(ending: Ending): Option<string> {
    match ending
    case Completed => None
    case Failed(msg) => Some(msg)
  }

  /** How the stream ends: at its first terminal event, or else as the transport does. */
  function EndingOf(evs: seq<StreamEvent>, terminal: Terminal): Ending {
    if evs == [] then
      match terminal
      case Eof => Completed
      case Fault(msg) => Failed(msg)
    else if evs[0].done then
      if evs[0].typ == "error" then Failed(evs[0].errMsg) else Completed
    else EndingOf(evs[1..], terminal)
  }

  function KindAt(ev: StreamEvent): Kind {
    KindOf(ev.typ)
  }

  function TextOf(evs: seq<StreamEvent>): string {
    if evs == [] then ""
    else TextOf(Init(evs)) + if KindAt(Last(evs)) == Text then Last(evs).text else ""
  }

  function ReasoningOf(evs: seq<StreamEvent>): string {
    if evs == [] then ""
    else ReasoningOf(Init(evs)) + if KindAt(Last(evs)) == Reasoning then Last(evs).reasoning else ""
  }

  /** The last positive counts reported. */
  function UsageOf(evs: seq<StreamEvent>): (u: Usage)
    ensures u.input >= 0 && u.output >= 0
  {
    if evs == [] then Usage(0, 0)
    else
      var u, ev := UsageOf(Init(evs)), Last(evs);
      if KindAt(ev) == MessageStart && ev.inputTokens > 0 then u.(input := ev.inputTokens)
      else if KindAt(ev) == MessageDelta && ev.outputTokens > 0 then u.(output := ev.outputTokens)
      else u
  }

  predicate StopsForTools(evs: seq<StreamEvent>) {
    exists ev :: ev in evs && KindAt(ev) == MessageDelta && ev.stopReason == "tool_use"
  }

  predicate IsTool(ev: StreamEvent) {
    KindAt(ev) == ToolStart || KindAt(ev) == ToolArgs
  }

  /** The tool indices in the order they are first mentioned. */
  function Order(evs: seq<StreamEvent>): seq<int> {
    if evs == [] then []
    else
      var order, ev := Order(Init(evs)), Last(evs);
      if IsTool(ev) && ev.toolIndex !in order then order + [ev.toolIndex] else order
  }

  /** Whether `ev`, coming after `before`, needs a generated call id. */
  predicate Mints(before: seq<StreamEvent>, ev: StreamEvent) {
    || (KindAt(ev) == ToolStart && ev.toolId == "")
    || (KindAt(ev) == ToolArgs && ev.toolIndex !in Order(before))
  }

  function Minted(evs: seq<StreamEvent>): nat {
    if evs == [] then 0
    else Minted(Init(evs)) + if Mints(Init(evs), Last(evs)) then 1 else 0
  }

  /** The n-th generated call id. */
  function CallId(newId: nat -> string, n: nat): (id: string)
    ensures id != ""
  {
    "call_" + newId(n)
  }

  function StartId(newId: nat -> string, before: seq<StreamEvent>, ev: StreamEvent): (id: string)
    ensures id != ""
  {
    if ev.toolId == "" then CallId(newId, Minted(before)) else ev.toolId
  }

  /** The calls made so far: a start begins its entry afresh, arguments are appended. */
  function Calls(newId: nat -> string, evs: seq<StreamEvent>): (calls: map<int, Call>)
    ensures forall i :: i in calls <==> i in Order(evs)
    decreases |evs|, 1
  {
    if evs == [] then map[] else CallsStep(newId, Init(evs), Last(evs))
  }

  function CallsStep(newId: nat -> string, before: seq<StreamEvent>, ev: StreamEvent): map<int, Call>
    decreases |before|, 2
  {
    var calls, i := Calls(newId, before), ev.toolIndex;
    match KindAt(ev)
    case ToolStart => calls[i := Call(StartId(newId, before, ev), ev.toolName, "")]
    case ToolArgs =>
      if i in calls then calls[i := calls[i].(args := calls[i].args + ev.toolArgs)]
      else calls[i := Call(CallId(newId, Minted(before)), "", ev.toolArgs)]
    case _ => calls
  }

  /** The calls in the order they were first mentioned. */
  function InOrder(order: seq<int>, calls: map<int, Call>): (result: seq<Call>)
    requires forall k :: 0 <= k < |order| ==> order[k] in calls
    ensures |result| == |order|
    ensures forall k :: 0 <= k < |order| ==> result[k] == calls[order[k]]
  {
    if order == [] then [] else [calls[order[0]]] + InOrder(order[1..], calls)
  }

  function CallList(newId: nat -> string, evs: seq<StreamEvent>): seq<Call> {
    InOrder(Order(evs), Calls(newId, evs))
  }

  function FinishOf(evs: seq<StreamEvent>): string {
    if Order(evs) != [] || StopsForTools(evs) then "tool_calls" else "stop"
  }

  // ----- Lemmas -----

  lemma Snoc(evs: seq<StreamEvent>, ev: StreamEvent)
    ensures evs + [ev] != [] && Init(evs + [ev]) == evs && Last(evs + [ev]) == ev
  {
  }

  /** One more event: text, reasoning, usage and stop reason. */
  lemma MeaningSnoc(evs: seq<StreamEvent>, ev: StreamEvent)
    ensures var more := evs + [ev];
      && TextOf(more) == TextOf(evs) + (if KindAt(ev) == Text then ev.text else "")
      && ReasoningOf(more) == ReasoningOf(evs) + (if KindAt(ev) == Reasoning then ev.reasoning else "")
      && UsageOf(more) ==
         (if KindAt(ev) == MessageStart && ev.inputTokens > 0 then UsageOf(evs).(input := ev.inputTokens)
          else if KindAt(ev) == MessageDelta && ev.outputTokens > 0 then UsageOf(evs).(output := ev.outputTokens)
          else UsageOf(evs))
      && (StopsForTools(more) <==>
          StopsForTools(evs) || (KindAt(ev) == MessageDelta && ev.stopReason == "tool_use"))
  {
    Snoc(evs, ev);
    StopsForToolsSnoc(evs, ev);
  }

  /** One more event: the tool calls. */
  lemma ToolsSnoc(newId: nat -> string, evs: seq<StreamEvent>, ev: StreamEvent)
    ensures var more := evs + [ev];
      && Calls(newId, more) == CallsStep(newId, evs, ev)
      && Minted(more) == Minted(evs) + (if Mints(evs, ev) then 1 else 0)
      && Order(more) ==
         (if IsTool(ev) && ev.toolIndex !in Order(evs) then Order(evs) + [ev.toolIndex] else Order(evs))
  {
    Snoc(evs, ev);
  }

  lemma StopsForToolsSnoc(evs: seq<StreamEvent>, ev: StreamEvent)
    ensures StopsForTools(evs + [ev]) <==>
            StopsForTools(evs) || (KindAt(ev) == MessageDelta && ev.stopReason == "tool_use")
  {
    if StopsForTools(evs) {
      var e :| e in evs && KindAt(e) == MessageDelta && e.stopReason == "tool_use";
      assert e in evs + [ev];
    }
    assert ev in evs + [ev];
  }

  lemma {:induction false} OrderDistinct(evs: seq<StreamEvent>)
    ensures forall j, k :: 0 <= j < k < |Order(evs)| ==> Order(evs)[j] != Order(evs)[k]
    ensures forall i :: i in Order(evs) <==> exists ev :: ev in evs && IsTool(ev) && ev.toolIndex == i
  {
    if evs != [] {
      OrderDistinct(Init(evs));
      assert evs == Init(evs) + [Last(evs)];
    }
  }

  /** Nothing after the first terminal event is looked at. */
  lemma {:induction false} ConsumedStops(evs: seq<StreamEvent>, later: seq<StreamEvent>)
    requires exists ev :: ev in evs && ev.done
    ensures Consumed(evs + later) == Consumed(evs)
    ensures forall t :: EndingOf(evs + later, t) == EndingOf(evs, t)
  {
    assert (evs + later)[1..] == evs[1..] + later;
    if !evs[0].done {
      ConsumedStops(evs[1..], later);
    }
  }

  /** Partway through a stream: `seen` has been handled, `left` is still to be read. */
  ghost predicate Progress(all: seq<StreamEvent>, seen: seq<StreamEvent>, left: seq<StreamEvent>) {
    && Consumed(all) == seen + Consumed(left)
    && (forall t :: EndingOf(all, t) == EndingOf(left, t))
    && (forall ev :: ev in left ==> WellFormed(ev))
  }

  lemma {:induction false} ProgressStart(parse: string -> Option<Json.Value>, s: string)
    ensures Progress(EventsOf(parse, s), [], EventsOf(parse, s))
  {
    EventsWellFormed(parse, Sse.Frames(s));
  }

  lemma ProgressStep(all: seq<StreamEvent>, seen: seq<StreamEvent>, ev: StreamEvent, left: seq<StreamEvent>)
    requires Progress(all, seen, [ev] + left)
    ensures WellFormed(ev)
    ensures !ev.done ==> Progress(all, seen + [ev], left)
    ensures ev.done ==> Consumed(all) == seen + [ev]
    ensures ev.done ==> forall t :: EndingOf(all, t) == if ev.typ == "error" then Failed(ev.errMsg) else Completed
  {
    assert ([ev] + left)[0] == ev && ([ev] + left)[1..] == left;
    assert seen + [ev] + Consumed(left) == seen + ([ev] + Consumed(left));
  }

  lemma ProgressEnd(all: seq<StreamEvent>, seen: seq<StreamEvent>, t: Terminal)
    requires Progress(all, seen, [])
    ensures Consumed(all) == seen
    ensures EndingOf(all, t) == if t.Eof? then Completed else Failed(t.msg)
  {
  }
}
