/** The two translation loops, each proved against the meaning of the stream. */
module Translate {
  import opened Wrappers
  import opened Json
  import opened Sse
  import opened Events
  import opened Decoder
  import opened Meaning
  import opened Chunks

  /** The HTTP response being written: the status lines sent and the body so far. */
  class Response {
    var statuses: seq<int>
    var body: string

    constructor ()
      ensures statuses == [] && body == ""
    {
      statuses, body := [], "";
    }

    method WriteHeader(status: int)
      modifies this`statuses
      ensures statuses == old(statuses) + [status]
    {
      statuses := statuses + [status];
    }

    method Write(bytes: string)
      modifies this`body
      ensures body == old(body) + bytes
    {
      body := body + bytes;
    }
  }

  /** The local variables of the streaming loop. */
  datatype Streaming = Streaming(
    usage: Usage, reasoning: string, tools: map<int, Call>, toolOrder: seq<int>,
    finish: string, roleSent: bool, minted: nat)

  /** The local variables of the aggregating loop. */
  datatype Aggregating = Aggregating(
    usage: Usage, content: string, reasoning: string, tools: map<int, Call>, toolOrder: seq<int>,
    finish: string, minted: nat)

  ghost predicate ToolsMatch(newId: nat -> string, seen: seq<StreamEvent>,
                             tools: map<int, Call>, toolOrder: seq<int>, minted: nat) {
    tools == Calls(newId, seen) && toolOrder == Order(seen) && minted == Minted(seen)
  }

  ghost predicate StreamingMatches(newId: nat -> string, seen: seq<StreamEvent>, st: Streaming) {
    && st.usage == UsageOf(seen)
    && st.reasoning == ReasoningOf(seen)
    && ToolsMatch(newId, seen, st.tools, st.toolOrder, st.minted)
    && st.finish == (if StopsForTools(seen) then "tool_calls" else "stop")
    && (st.roleSent <==> TextOf(seen) != "")
  }

  ghost predicate AggregatingMatches(newId: nat -> string, seen: seq<StreamEvent>, st: Aggregating) {
    && st.usage == UsageOf(seen)
    && st.content == TextOf(seen)
    && st.reasoning == ReasoningOf(seen)
    && ToolsMatch(newId, seen, st.tools, st.toolOrder, st.minted)
    && st.finish == (if StopsForTools(seen) then "tool_calls" else "stop")
  }

  class Translator {
    const dec: SSEDecoder
    const ctx: Context

    constructor (dec: SSEDecoder, ctx: Context)
      requires dec.parse == ctx.codec.parse
      ensures this.dec == dec && this.ctx == ctx
    {
      this.dec := dec;
      this.ctx := ctx;
    }

    ghost predicate Valid() {
      dec.parse == ctx.codec.parse
    }

    function Chunk(delta: Object, finish: Option<string>): string {
      DataFrame(ctx.codec.print_(ChunkValue(ctx.env, Piece(delta, finish))))
    }

    ghost function WireOf(pieces: seq<Piece>): string {
      Wire(ctx.codec, ctx.env, pieces)
    }

    /** The response body, `base` to begin with, once `seen` has been translated. */
    ghost function Written(base: string, seen: seq<StreamEvent>): string {
      base + WireOf(Pieces(ctx.newId, seen))
    }

    lemma WrittenSnoc(base: string, seen: seq<StreamEvent>, ev: StreamEvent)
      ensures Written(base, seen + [ev]) == Written(base, seen) + WireOf(PieceOf(ctx.newId, seen, ev))
    {
      PiecesSnoc(ctx.newId, seen, ev);
      WireAppend(ctx.codec, ctx.env, Pieces(ctx.newId, seen), PieceOf(ctx.newId, seen, ev));
      hide Wire, Pieces, PieceOf;
    }

    /** The streaming loop's tool cases. */
    method StreamTool(w: Response, st: Streaming, ev: StreamEvent, ghost seen: seq<StreamEvent>)
      returns (r: Streaming)
      requires IsTool(ev) && ToolsMatch(ctx.newId, seen, st.tools, st.toolOrder, st.minted)
      modifies w`body
      ensures ToolsMatch(ctx.newId, seen + [ev], r.tools, r.toolOrder, r.minted)
      ensures r == st.(tools := r.tools, toolOrder := r.toolOrder, minted := r.minted)
      ensures w.body == old(w.body) + WireOf(PieceOf(ctx.newId, seen, ev))
    {
      r := st;
      ToolsSnoc(ctx.newId, seen, ev);
      WireNil(ctx.codec, ctx.env);
      hide Wire, PrintAll, Payloads, Calls, Order, Minted, TextOf;
      if ev.typ == "tool_start" {
        if ev.toolIndex !in r.tools {
          r := r.(toolOrder := r.toolOrder + [ev.toolIndex]);
        }
        var id := ev.toolId;
        if id == "" {
          id := "call_" + ctx.newId(r.minted);
          r := r.(minted := r.minted + 1);
        }
        r := r.(tools := r.tools[ev.toolIndex := Call(id, ev.toolName, "")]);
        var delta: Object := map["tool_calls" := JArr([JObj(map[
          "index" := JInt(ev.toolIndex),
          "id" := JStr(id),
          "type" := JStr("function"),
          "function" := JObj(map["name" := JStr(ev.toolName), "arguments" := JStr("")])
        ])])];
        w.Write(Chunk(delta, None));
        WireSingle(ctx.codec, ctx.env, Piece(delta, None));
      } else {
        if ev.toolIndex !in r.tools {
          r := r.(tools := r.tools[ev.toolIndex := Call("call_" + ctx.newId(r.minted), "", "")],
                  minted := r.minted + 1,
                  toolOrder := r.toolOrder + [ev.toolIndex]);
        }
        var ta := r.tools[ev.toolIndex];
        assert "" + ev.toolArgs == ev.toolArgs;
        r := r.(tools := r.tools[ev.toolIndex := ta.(args := ta.args + ev.toolArgs)]);
        if ev.toolArgs != "" {
          var delta: Object := map["tool_calls" := JArr([JObj(map[
            "index" := JInt(ev.toolIndex),
            "function" := JObj(map["arguments" := JStr(ev.toolArgs)])
          ])])];
          w.Write(Chunk(delta, None));
          WireSingle(ctx.codec, ctx.env, Piece(delta, None));
        }
      }
    }

    /** The streaming loop's switch. */
    method StreamOne(w: Response, st: Streaming, ev: StreamEvent, ghost seen: seq<StreamEvent>)
      returns (r: Streaming)
      requires StreamingMatches(ctx.newId, seen, st)
      modifies w`body
      ensures StreamingMatches(ctx.newId, seen + [ev], r)
      ensures w.body == old(w.body) + WireOf(PieceOf(ctx.newId, seen, ev))
    {
      r := st;
      MeaningSnoc(seen, ev);
      ToolsSnoc(ctx.newId, seen, ev);
      match KindOf(ev.typ) {
        case MessageStart =>
          if ev.inputTokens > 0 {
            r := r.(usage := r.usage.(input := ev.inputTokens));
          }
        case Text =>
          if ev.text != "" {
            var delta: Object := map["content" := JStr(ev.text)];
            if !r.roleSent {
              delta := delta["role" := JStr("assistant")];
              r := r.(roleSent := true);
            }
            w.Write(Chunk(delta, None));
            WireSingle(ctx.codec, ctx.env, Piece(delta, None));
          }
        case Reasoning =>
          r := r.(reasoning := r.reasoning + ev.reasoning);
        case ToolStart =>
          r := StreamTool(w, r, ev, seen);
        case ToolArgs =>
          r := StreamTool(w, r, ev, seen);
        case MessageDelta =>
          if ev.outputTokens > 0 {
            r := r.(usage := r.usage.(output := ev.outputTokens));
          }
          if ev.stopReason == "tool_use" {
            r := r.(finish := "tool_calls");
          }
        case _ =>
      }
    }

    /** The streaming loop: every event up to the end of the stream is translated as it comes. */
    method StreamLoop(w: Response) returns (st: Streaming, err: Option<string>)
      requires Valid()
      modifies dec`rest, w`body
      ensures StreamingMatches(ctx.newId, Used(ctx, old(dec.rest)), st)
      ensures err == ErrorOf(Outcome(ctx, old(dec.rest), dec.terminal))
      ensures w.body == Written(old(w.body), Used(ctx, old(dec.rest)))
    {
      st := Streaming(Usage(0, 0), "", map[], [], "stop", false, 0);
      ghost var seen: seq<StreamEvent> := [];
      ghost var all := EventsOf(dec.parse, dec.rest);
      assert Written(w.body, []) == w.body;
      assert StreamingMatches(ctx.newId, [], st);
      ProgressStart(dec.parse, dec.rest);
      hide *;
      while true
        invariant Progress(all, seen, EventsOf(dec.parse, dec.rest))
        invariant StreamingMatches(ctx.newId, seen, st)
        invariant w.body == Written(old(w.body), seen)
        decreases |dec.rest|
      {
        var ev, fault := dec.Next();
        if fault != None {
          ProgressEnd(all, seen, dec.terminal);
          return st, if fault == Some(Eof) then None else Some(fault.value.msg);
        }
        ProgressStep(all, seen, ev, EventsOf(dec.parse, dec.rest));
        st := StreamOne(w, st, ev, seen);
        WrittenSnoc(old(w.body), seen, ev);
        seen := seen + [ev];
        if ev.typ == "error" {
          return st, Some(ev.errMsg);
        }
        if ev.done {
          return st, None;
        }
      }
    }

    /** What follows the loop: reasoning, finish chunk, end marker. */
    method StreamEnd(w: Response, st: Streaming, ghost seen: seq<StreamEvent>)
      requires StreamingMatches(ctx.newId, seen, st)
      modifies w`body
      ensures w.body == old(w.body) + WireOf(Closing(seen)) + DoneFrame()
    {
      WireNil(ctx.codec, ctx.env);
      WireSingle(ctx.codec, ctx.env, ReasoningPiece(st.reasoning));
      hide Wire, PrintAll, Payloads, ReasoningOf, Order, TextOf, Calls, UsageOf, Minted, StopsForTools;
      var finish := st.finish;
      if st.reasoning != "" {
        w.Write(Chunk(map["reasoning_content" := JStr(st.reasoning)], None));
      }
      if st.toolOrder != [] {
        finish := "tool_calls";
      }
      w.Write(Chunk(map[], Some(finish)));
      w.Write(DoneFrame());
      WireSingle(ctx.codec, ctx.env, ReasoningPiece(st.reasoning));
      WireSingle(ctx.codec, ctx.env, FinishPiece(finish));
      WireAppend(ctx.codec, ctx.env, [ReasoningPiece(st.reasoning)], [FinishPiece(finish)]);
      assert finish == FinishOf(seen);
      assert Closing(seen) ==
             if st.reasoning == "" then [FinishPiece(finish)]
                 else [ReasoningPiece(st.reasoning)] + [FinishPiece(finish)];
    }

    /**
     Translates event by event, then closes with the reasoning, the finish chunk and
     the end marker. A failing stream leaves only what was written before it failed.
     */
    method StreamTo(w: Response) returns (usage: Usage, err: Option<string>)
      requires Valid()
      modifies dec`rest, w`body
      ensures w.body == old(w.body) + PrintAll(StreamPayloads(ctx, old(dec.rest), dec.terminal))
      ensures usage == UsageOf(Used(ctx, old(dec.rest)))
      ensures err == ErrorOf(Outcome(ctx, old(dec.rest), dec.terminal))
    {
      StreamedBytes(ctx, w.body, dec.rest, dec.terminal);
      hide Wire, Pieces, Closing, PrintAll, DoneFrame, StreamPayloads, Used, Outcome, ToolsMatch, EndingOf,
          StopsForTools, UsageOf, TextOf;
      var st;
      st, err := StreamLoop(w);
      if err == None {
        StreamEnd(w, st, Used(ctx, old(dec.rest)));
      }
      usage := st.usage;
    }

    /** The aggregating loop's tool cases. */
    method AggregateTool(st: Aggregating, ev: StreamEvent, ghost seen: seq<StreamEvent>)
      returns (r: Aggregating)
      requires IsTool(ev) && ToolsMatch(ctx.newId, seen, st.tools, st.toolOrder, st.minted)
      ensures ToolsMatch(ctx.newId, seen + [ev], r.tools, r.toolOrder, r.minted)
      ensures r == st.(tools := r.tools, toolOrder := r.toolOrder, minted := r.minted)
    {
      r := st;
      ToolsSnoc(ctx.newId, seen, ev);
      hide Calls, Order, Minted;
      if ev.typ == "tool_start" {
        if ev.toolIndex !in r.tools {
          r := r.(toolOrder := r.toolOrder + [ev.toolIndex]);
        }
        var ta := Call(ev.toolId, ev.toolName, "");
        if ta.id == "" {
          ta := ta.(id := "call_" + ctx.newId(r.minted));
          r := r.(minted := r.minted + 1);
        }
        r := r.(tools := r.tools[ev.toolIndex := ta]);
      } else {
        if ev.toolIndex !in r.tools {
          r := r.(tools := r.tools[ev.toolIndex := Call("call_" + ctx.newId(r.minted), "", "")],
                  minted := r.minted + 1,
                  toolOrder := r.toolOrder + [ev.toolIndex]);
        }
        var ta := r.tools[ev.toolIndex];
        assert "" + ev.toolArgs == ev.toolArgs;
        r := r.(tools := r.tools[ev.toolIndex := ta.(args := ta.args + ev.toolArgs)]);
      }
    }

    /** The aggregating loop's switch. */
    method AggregateOne(st: Aggregating, ev: StreamEvent, ghost seen: seq<StreamEvent>)
      returns (r: Aggregating)
      requires AggregatingMatches(ctx.newId, seen, st)
      ensures AggregatingMatches(ctx.newId, seen + [ev], r)
    {
      r := st;
      MeaningSnoc(seen, ev);
      ToolsSnoc(ctx.newId, seen, ev);
      match KindOf(ev.typ) {
        case MessageStart =>
          if ev.inputTokens > 0 {
            r := r.(usage := r.usage.(input := ev.inputTokens));
          }
        case Text =>
          r := r.(content := r.content + ev.text);
        case Reasoning =>
          r := r.(reasoning := r.reasoning + ev.reasoning);
        case ToolStart =>
          r := AggregateTool(r, ev, seen);
        case ToolArgs =>
          r := AggregateTool(r, ev, seen);
        case MessageDelta =>
          if ev.outputTokens > 0 {
            r := r.(usage := r.usage.(output := ev.outputTokens));
          }
          if ev.stopReason == "tool_use" {
            r := r.(finish := "tool_calls");
          }
        case _ =>
      }
    }

    /** The aggregating loop: every event up to the end of the stream is added up. */
    method AggregateLoop() returns (st: Aggregating, err: Option<string>)
      requires Valid()
      modifies dec`rest
      ensures AggregatingMatches(ctx.newId, Used(ctx, old(dec.rest)), st)
      ensures err == ErrorOf(Outcome(ctx, old(dec.rest), dec.terminal))
    {
      st := Aggregating(Usage(0, 0), "", "", map[], [], "stop", 0);
      ghost var seen: seq<StreamEvent> := [];
      ghost var all := EventsOf(dec.parse, dec.rest);
      assert AggregatingMatches(ctx.newId, [], st);
      ProgressStart(dec.parse, dec.rest);
      hide *;
      while true
        invariant Progress(all, seen, EventsOf(dec.parse, dec.rest))
        invariant AggregatingMatches(ctx.newId, seen, st)
        decreases |dec.rest|
      {
        var ev, fault := dec.Next();
        if fault != None {
          ProgressEnd(all, seen, dec.terminal);
          return st, if fault == Some(Eof) then None else Some(fault.value.msg);
        }
        ProgressStep(all, seen, ev, EventsOf(dec.parse, dec.rest));
        st := AggregateOne(st, ev, seen);
        seen := seen + [ev];
        if ev.typ == "error" {
          return st, Some(ev.errMsg);
        }
        if ev.done {
          return st, None;
        }
      }
    }

    /** The message object of the aggregated response. */
    method BuildMessage(st: Aggregating) returns (msg: Object, finish: string)
      requires forall k :: 0 <= k < |st.toolOrder| ==> st.toolOrder[k] in st.tools
      ensures msg == MessageValue(st.content, st.reasoning, InOrder(st.toolOrder, st.tools))
      ensures finish == if st.toolOrder != [] then "tool_calls" else st.finish
    {
      finish := st.finish;
      msg := map["role" := JStr("assistant")];
      if st.content != "" {
        msg := msg["content" := JStr(st.content)];
      } else {
        msg := msg["content" := JNull];
      }
      if st.reasoning != "" {
        msg := msg["reasoning_content" := JStr(st.reasoning)];
      }
      if st.toolOrder != [] {
        var calls := [];
        for k := 0 to |st.toolOrder|
          invariant calls == CallValues(InOrder(st.toolOrder, st.tools))[..k]
        {
          var ta := st.tools[st.toolOrder[k]];
          calls := calls + [JObj(map[
            "id" := JStr(ta.id),
            "type" := JStr("function"),
            "function" := JObj(map["name" := JStr(ta.name), "arguments" := JStr(ta.args)])
          ])];
        }
        assert calls == CallValues(InOrder(st.toolOrder, st.tools));
        msg := msg["tool_calls" := JArr(calls)];
        finish := "tool_calls";
      }
    }

    /** Consumes the whole stream and builds one completion object; a failing stream gives none. */
    method Aggregate() returns (bytes: Option<string>, usage: Usage, err: Option<string>)
      requires Valid()
      modifies dec`rest
      ensures usage == UsageOf(Used(ctx, old(dec.rest)))
      ensures err == ErrorOf(Outcome(ctx, old(dec.rest), dec.terminal))
      ensures bytes == if err == None then Some(ctx.codec.print_(Completion(ctx, old(dec.rest)))) else None
    {
      var st;
      st, err := AggregateLoop();
      usage := st.usage;
      if err != None {
        return None, usage, err;
      }
      assert st.toolOrder == Order(Used(ctx, old(dec.rest)));
      var msg, finish := BuildMessage(st);
      bytes := Some(ctx.codec.print_(CompletionValue(ctx.env, msg, finish, usage)));
    }
  }
}
