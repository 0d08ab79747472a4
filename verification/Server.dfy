/**
 The chat completion handler: it drives the pool and the account store through the
 failover loop and the translator through the relay, and writes one response.
 */
module Server {
  import opened Wrappers
  import opened Json
  import opened Sse
  import opened Decoder
  import opened Meaning
  import opened Chunks
  import opened Translate
  import opened PoolModel
  import opened Sticky
  import opened Pool
  import opened Failover
  import opened Normalise
  import Store

  /** The request as far as the handler looks at it before the loop. */
  datatype Incoming = NotPost | UnreadableBody | BadJson | Chat(msgs: seq<Message>, stream: bool)

  /** The request gets as far as the loop. */
  predicate Accepted(req: Incoming) {
    req.Chat? && req.msgs != []
  }

  /** What the upstream call gives: an error, or a stream of bytes and how it ends. */
  datatype Answer = Refusal(e: UpstreamError) | Stream(bytes: string, terminal: Terminal)

  /** The inputs of one attempt, before translation. */
  datatype Inputs = Inputs(
    before: seq<Meddle>,
    selectAt: Instant,
    draw: real,
    uniform: nat,
    ask: Store.Ask,
    buildError: Option<string>,
    answer: Answer,
    between: seq<Meddle>,
    recordAt: Instant)

  /** What a relayed stream counts as: a success with its token usage, or a transient failure. */
  function RelayResult(ctx: Context, bytes: string, terminal: Terminal): (r: Result)
    ensures r.tokensIn >= 0 && r.tokensOut >= 0
    ensures r.ok <==> Chunks.Outcome(ctx, bytes, terminal) == Completed
  {
    match Chunks.Outcome(ctx, bytes, terminal)
    case Completed => Result(true, ClassOther, "", UsageOf(Used(ctx, bytes)).input, UsageOf(Used(ctx, bytes)).output)
    case Failed(msg) => Result(false, Transient, msg, 0, 0)
  }

  function TurnOf(ctx: Context, stream: bool, canFlush: bool, i: Inputs): Turn {
    Turn(i.before, i.selectAt, i.draw, i.ask, i.buildError,
         match i.answer
         case Refusal(e) => Upstream.Failed(e)
         case Stream(bytes, terminal) =>
           if stream && !canFlush then NoFlusher else Relayed(RelayResult(ctx, bytes, terminal)),
         i.between, i.recordAt)
  }

  function TurnsOf(ctx: Context, stream: bool, canFlush: bool, inputs: seq<Inputs>): (turns: seq<Turn>)
    ensures |turns| == |inputs|
    ensures forall k :: 0 <= k < |inputs| ==> turns[k] == TurnOf(ctx, stream, canFlush, inputs[k])
  {
    seq(|inputs|, k requires 0 <= k < |inputs| => TurnOf(ctx, stream, canFlush, inputs[k]))
  }

  // ----- The sticky key -----

  /** The key of a conversation: the hash of its first user message; "" if there is none. */
  function StickyKey(parse: string -> Option<Value>, hash: string -> string, msgs: seq<Message>): string {
    if msgs == [] then ""
    else if msgs[0].role != "user" then StickyKey(parse, hash, msgs[1..])
    else
      match parse(msgs[0].content)
      case Some(JStr(s)) => hash(if s != "" then s else msgs[0].content)
      case _ => hash(msgs[0].content)
  }

  /** A conversation keeps its key however it goes on: the docs promise it sticks to one account. */
  lemma {:induction false} ConversationKeepsKey(parse: string -> Option<Value>, hash: string -> string,
                                                msgs: seq<Message>, more: seq<Message>)
    requires exists m :: m in msgs && m.role == "user"
    ensures StickyKey(parse, hash, msgs + more) == StickyKey(parse, hash, msgs)
  {
    assert (msgs + more)[0] == msgs[0] && (msgs + more)[1..] == msgs[1..] + more;
    if msgs[0].role != "user" {
      ConversationKeepsKey(parse, hash, msgs[1..], more);
    }
  }

  /** The loop over the messages. */
  method FindKey(parse: string -> Option<Value>, hash: string -> string, msgs: seq<Message>) returns (key: string)
    ensures key == StickyKey(parse, hash, msgs)
  {
    assert msgs[0..] == msgs && msgs[|msgs|..] == [];
    for k := 0 to |msgs|
      invariant StickyKey(parse, hash, msgs) == StickyKey(parse, hash, msgs[k..])
    {
      assert msgs[k..][0] == msgs[k] && msgs[k..][1..] == msgs[k + 1..];
      if msgs[k].role != "user" {
        continue;
      }
      var content := parse(msgs[k].content);
      if content.Some? && content.value.JStr? && content.value.s != "" {
        return hash(content.value.s);
      }
      return hash(msgs[k].content);
    }
    return "";
  }

  // ----- The response -----

  function MapStatus(upstream: int): int {
    if upstream == 401 || upstream == 403 then 401
    else if upstream == 402 then 402
    else if upstream == 429 then 429
    else 502
  }

  function StatusOf(last: Option<LastError>): int {
    match last
    case Some(CallFailed(Http(status, _))) => MapStatus(status)
    case _ => 502
  }

  /** The body of an error reply. */
  function ErrorBody(ctx: Context, code: string, msg: string): string {
    ctx.codec.print_(JObj(map["error" := JObj(map[
      "message" := JStr(msg), "type" := JStr(code), "param" := JNull, "code" := JStr(code)])])) + "\n"
  }

  function Decimal(n: nat): string {
    if n < 10 then [('0' as int + n) as char] else Decimal(n / 10) + [('0' as int + n % 10) as char]
  }

  function Number(n: int): string {
    if n < 0 then "-" + Decimal(-n) else Decimal(n)
  }

  function ErrorText(last: Option<LastError>): string {
    match last
    case None => "all attempts failed"
    case Some(TokenFailed(msg)) => msg
    case Some(CallFailed(Transport(msg))) => msg
    case Some(CallFailed(Http(status, body))) =>
      "upstream " + Number(status) + ": " + if |body| > 300 then body[..300] + "..." else body
  }

  /** A status line and a body. */
  datatype Written = Written(status: int, body: string)

  /** What the client gets when a stream is relayed. */
  function RelayWritten(ctx: Context, stream: bool, bytes: string, terminal: Terminal): Written {
    if stream then Written(200, PrintAll(ResponsePayloads(ctx, bytes, terminal)))
    else
      match Chunks.Outcome(ctx, bytes, terminal)
      case Completed => Written(200, ctx.codec.print_(Completion(ctx, bytes)))
      case Failed(msg) => Written(502, ErrorBody(ctx, "upstream_error", msg))
  }

  const UNAVAILABLE := "all accounts unavailable (cooldown/disabled). Run login or check /status"

  /** What the client gets for each way the loop can end; `i` is the last attempt's input. */
  function ReplyWritten(ctx: Context, stream: bool, reply: Reply, i: Inputs): Written {
    match reply
    case NoHealthyAccount => Written(503, ErrorBody(ctx, "no_healthy_account", UNAVAILABLE))
    case BuildFailed(msg) => Written(500, ErrorBody(ctx, "build_body_failed", msg))
    case FlusherMissing => Written(500, ErrorBody(ctx, "no_flusher", "streaming unsupported"))
    case Relay(_) => (match i.answer
                      case Stream(bytes, terminal) => RelayWritten(ctx, stream, bytes, terminal)
                      case Refusal(_) => Written(502, ""))
    case GaveUp(last, _) => Written(StatusOf(last), ErrorBody(ctx, "upstream_error", ErrorText(last)))
  }

  method WriteErr(w: Response, ctx: Context, status: int, code: string, msg: string)
    modifies w
    ensures w.statuses == old(w.statuses) + [status]
    ensures w.body == old(w.body) + ErrorBody(ctx, code, msg)
  {
    w.WriteHeader(status);
    w.Write(ErrorBody(ctx, code, msg));
  }

  // ----- The handler -----

  ghost function SchedOf(pool: AccountPool, store: Store.AccountStore): Sched
    reads pool, pool.file, store
  {
    Sched(pool.Value(), pool.sticky, store.accounts)
  }

  ghost function SettingOf(pool: AccountPool, key: string): Setting {
    Setting(pool.cfg, pool.persist, key)
  }

  /** Other requests run inside this process: they never rebuild the pool from the file. */
  predicate InProcess(ms: seq<Meddle>) {
    forall k :: 0 <= k < |ms| && ms[k].DoOp? ==> !ms[k].op.Restart?
  }

  /** What other requests do to the pool in the meantime. */
  method Interfere(pool: AccountPool, store: Store.AccountStore, ms: seq<Meddle>, key: string)
    requires pool.Valid() && InProcess(ms)
    modifies pool`states, pool`order, pool`sticky, pool.file, store
    ensures pool.Valid()
    ensures SchedOf(pool, store) == Meddled(SettingOf(pool, key), old(SchedOf(pool, store)), ms)
  {
    assert ms[0..] == ms;
    for k := 0 to |ms|
      invariant pool.Valid()
      invariant Meddled(SettingOf(pool, key), SchedOf(pool, store), ms[k..]) ==
          Meddled(SettingOf(pool, key), old(SchedOf(pool, store)), ms)
    {
      assert ms[k..][1..] == ms[k + 1..] && ms[k..][0] == ms[k];
      Disturb(pool, store, ms[k], key);
    }
    assert ms[|ms|..] == [];
  }

  method Disturb(pool: AccountPool, store: Store.AccountStore, m: Meddle, key: string)
    requires pool.Valid() && (m.DoOp? ==> !m.op.Restart?)
    modifies pool`states, pool`order, pool`sticky, pool.file, store
    ensures pool.Valid()
    ensures SchedOf(pool, store) == MeddledOnce(SettingOf(pool, key), old(SchedOf(pool, store)), m)
  {
    hide Apply, SelectOnce, Consistent, Store.After, Store.Reloaded;
    match m {
      case DoSelect(k, now, draw) =>
        var _ := pool.Select(k, now, draw, 0);
      case DoChange(change) => store.Apply(change);
      case DoReload(read) => var _ := store.Reload(read);
      case DoOp(op) =>
        match op {
          case Record(id, r, now) => pool.Record(id, r, now);
          case Revive(id) => var _ := pool.Revive(id);
          case Refresh(ids) => pool.Refresh(ids);
        }
    }
  }

  /** Translates the upstream stream to the client and says how it went. */
  method RelayStream(w: Response, ctx: Context, bytes: string, terminal: Terminal, stream: bool) returns (r: Result)
    modifies w
    ensures r == RelayResult(ctx, bytes, terminal)
    ensures var out := RelayWritten(ctx, stream, bytes, terminal);
            w.statuses == old(w.statuses) + [out.status] && w.body == old(w.body) + out.body
  {
    var dec := new SSEDecoder(bytes, terminal, ctx.codec.parse);
    var tr := new Translator(dec, ctx);
    if stream {
      w.WriteHeader(200);
      var usage, err := tr.StreamTo(w);
      if err.Some? {
        w.Write(DataFrame(ctx.codec.print_(ErrorValue(err.value))));
        w.Write(DoneFrame());
        FailureBytes(ctx, old(w.body), bytes, terminal, err.value);
        return Result(false, Transient, err.value, 0, 0);
      }
      CompletedBytes(ctx, bytes, terminal);
      return Result(true, ClassOther, "", usage.input, usage.output);
    }
    var obj, usage, err := tr.Aggregate();
    if err.Some? {
      WriteErr(w, ctx, 502, "upstream_error", err.value);
      return Result(false, Transient, err.value, 0, 0);
    }
    w.WriteHeader(200);
    w.Write(obj.value);
    return Result(true, ClassOther, "", usage.input, usage.output);
  }

  lemma CompletedBytes(ctx: Context, bytes: string, terminal: Terminal)
    requires Chunks.Outcome(ctx, bytes, terminal) == Completed
    ensures ResponsePayloads(ctx, bytes, terminal) == StreamPayloads(ctx, bytes, terminal)
  {
  }

  lemma {:induction false} FailureBytes(ctx: Context, base: string, bytes: string, terminal: Terminal, msg: string)
    requires Chunks.Outcome(ctx, bytes, terminal) == Ending.Failed(msg)
    ensures base + PrintAll(ResponsePayloads(ctx, bytes, terminal)) ==
            base + PrintAll(StreamPayloads(ctx, bytes, terminal))
            + DataFrame(ctx.codec.print_(ErrorValue(msg))) + DoneFrame()
  {
    var first := ctx.codec.print_(ErrorValue(msg));
    var sent := StreamPayloads(ctx, bytes, terminal);
    assert ResponsePayloads(ctx, bytes, terminal) == sent + [first] + [DONE];
    PrintDone();
    assert PrintAll([first]) == DataFrame(first) + PrintAll([]);
    PrintAllThree(base, sent, [first], [DONE]);
    hide PrintAll, StreamPayloads, ResponsePayloads, ErrorValue, DataFrame;
  }

  /** The outcome of the attempts from the `k`-th on. */
  ghost function Ahead(st: Setting, turns: seq<Turn>, k: nat, s: Sched, tried: seq<string>,
                       last: Option<LastError>): Failover.Outcome
    requires k <= |turns|
  {
    Attempts(st, turns[k..], s, tried, last)
  }

  lemma AheadStep(st: Setting, turns: seq<Turn>, k: nat, s: Sched, tried: seq<string>, last: Option<LastError>)
    requires k < |turns|
    ensures var o := Ahead(st, turns, k, s, tried, last);
            match Attempt(st, turns[k], s, tried, last)
            case Stop(stopped) => o == stopped
            case Retry(id, r, t, err) =>
              var rest := Ahead(st, turns, k + 1, t, tried + [id], Some(err));
              o.reply == rest.reply && o.sched == rest.sched && o.tried == [id] + rest.tried
  {
    assert turns[k..][0] == turns[k] && turns[k..][1..] == turns[k + 1..];
    AttemptsUnroll(st, turns[k..], s, tried, last);
    hide Attempts, Attempt;
  }

  /** The two steps of an attempt around the calls it makes. */
  lemma AttemptSteps(st: Setting, turn: Turn, s: Sched, tried: seq<string>, last: Option<LastError>)
    ensures var t := Meddled(st, s, turn.before);
            var (cache, selected) := SelectOnce(t.cache, Request(st.key, turn.selectAt, t.accounts, turn.draw));
            var u := t.(cache := cache);
            Attempt(st, turn, s, tried, last) ==
            match selected
            case None => Stop(Outcome([], [], u, if last.Some? then GaveUp(last, NoneLeft) else NoHealthyAccount))
            case Some(id) => if id in tried then Stop(Outcome([], [], u, GaveUp(last, Repeated(id))))
                else TryAccount(st, turn, u, id)
  {
    hide Meddled, SelectOnce, TryAccount;
  }

  /** One attempt against the live pool. */
  method AttemptOnce(w: Response, pool: AccountPool, store: Store.AccountStore, ctx: Context, key: string,
                     stream: bool, canFlush: bool, i: Inputs, tried: seq<string>, last: Option<LastError>)
    returns (reply: Option<Reply>, id: string, err: Option<LastError>)
    requires pool.Valid() && InProcess(i.before) && InProcess(i.between)
    modifies w, pool`states, pool`order, pool`sticky, pool.file, store
    ensures pool.Valid()
    ensures match Attempt(SettingOf(pool, key), TurnOf(ctx, stream, canFlush, i), old(SchedOf(pool, store)), tried,
                          last)
            case Stop(o) => reply == Some(o.reply) && SchedOf(pool, store) == o.sched
                && (o.reply.Relay? ==> |o.tried| == 1)
            case Retry(x, _, t, e) => reply == None && id == x && err == Some(e) && SchedOf(pool, store) == t
    ensures match reply
            case None => w.statuses == old(w.statuses) && w.body == old(w.body)
            case Some(rep) =>
              if rep.GaveUp? then w.statuses == old(w.statuses) && w.body == old(w.body)
              else
                var out := ReplyWritten(ctx, stream, rep, i);
                w.statuses == old(w.statuses) + [out.status] && w.body == old(w.body) + out.body
  {
    ghost var st, turn := SettingOf(pool, key), TurnOf(ctx, stream, canFlush, i);
    AttemptSteps(st, turn, SchedOf(pool, store), tried, last);
    hide Attempt, Meddled, SelectOnce, Apply, Consistent, RelayResult, RelayWritten, ErrorBody, Classify;
    id, err := "", last;
    Interfere(pool, store, i.before, key);
    var selected := pool.Select(key, i.selectAt, i.draw, i.uniform);
    if selected == None {
      if last.Some? {
        return Some(GaveUp(last, NoneLeft)), id, err;
      }
      WriteErr(w, ctx, 503, "no_healthy_account", UNAVAILABLE);
      return Some(NoHealthyAccount), id, err;
    }
    id := selected.value;
    if id in tried {
      return Some(GaveUp(last, Repeated(id))), id, err;
    }
    ghost var chosen := SchedOf(pool, store);
    Interfere(pool, store, i.between, key);
    reply, err := UseAccount(w, pool, store, ctx, key, stream, canFlush, i, id, chosen);
  }

  /** What the handler does with the account it was given. */
  method UseAccount(w: Response, pool: AccountPool, store: Store.AccountStore, ctx: Context, key: string,
                    stream: bool, canFlush: bool, i: Inputs, id: string, ghost chosen: Sched)
    returns (reply: Option<Reply>, err: Option<LastError>)
    requires pool.Valid() && SchedOf(pool, store) == Meddled(SettingOf(pool, key), chosen, i.between)
    modifies w, pool`states, pool`order, pool`sticky, pool.file, store
    ensures pool.Valid()
    ensures match TryAccount(SettingOf(pool, key), TurnOf(ctx, stream, canFlush, i), chosen, id)
            case Stop(o) => reply == Some(o.reply) && SchedOf(pool, store) == o.sched
                && (o.reply.Relay? ==> |o.tried| == 1)
            case Retry(_, _, t, e) => reply == None && err == Some(e) && SchedOf(pool, store) == t
    ensures match reply
            case None => w.statuses == old(w.statuses) && w.body == old(w.body)
            case Some(rep) =>
              !rep.GaveUp? &&
              var out := ReplyWritten(ctx, stream, rep, i);
              w.statuses == old(w.statuses) + [out.status] && w.body == old(w.body) + out.body
  {
    hide Meddled, Apply, Consistent, RelayResult, RelayWritten, ErrorBody, Classify, Store.AfterToken, Store.TokenError,
      Store.Usable, Store.Position, Store.AccountId, UsageOf;
    err := None;
    var credentials := Store.TokenFor(store, id, i.ask);
    if credentials.NoToken? {
      pool.Record(id, Result(false, AuthDead, credentials.msg, 0, 0), i.recordAt);
      return None, Some(TokenFailed(credentials.msg));
    }
    if i.buildError.Some? {
      WriteErr(w, ctx, 500, "build_body_failed", i.buildError.value);
      return Some(BuildFailed(i.buildError.value)), err;
    }
    match i.answer {
      case Refusal(e) =>
        var (cls, msg) := Classify(e);
        pool.Record(id, Result(false, cls, msg, 0, 0), i.recordAt);
        return None, Some(CallFailed(e));
      case Stream(bytes, terminal) =>
        if stream && !canFlush {
          WriteErr(w, ctx, 500, "no_flusher", "streaming unsupported");
          return Some(FlusherMissing), err;
        }
        var r := RelayStream(w, ctx, bytes, terminal, stream);
        pool.Record(id, r, i.recordAt);
        return Some(Relay(id)), err;
    }
  }

  /**
   The whole handler. Exactly one status is written on every path, the pool ends as the
   failover loop leaves it, and the reply is the one the loop's outcome calls for.
   */
  method ChatCompletions(w: Response, pool: AccountPool, store: Store.AccountStore, ctx: Context,
                         hash: string -> string, req: Incoming, canFlush: bool, inputs: seq<Inputs>)
    returns (reply: Option<Reply>, last: nat)
    requires pool.Valid() && |inputs| == 3
    requires forall k :: 0 <= k < 3 ==> InProcess(inputs[k].before) && InProcess(inputs[k].between)
    modifies w, pool`states, pool`order, pool`sticky, pool.file, store
    ensures pool.Valid()
    ensures !Accepted(req) ==> reply == None && SchedOf(pool, store) == old(SchedOf(pool, store))
    ensures !Accepted(req) ==> w.statuses == old(w.statuses) + [if req.NotPost? then 405 else 400]
    ensures req.NotPost? ==> w.body == old(w.body) + ErrorBody(ctx, "method_not_allowed", "POST required")
    ensures req.UnreadableBody? ==> w.body == old(w.body) + ErrorBody(ctx, "bad_request", "read body failed")
    ensures req.BadJson? ==> w.body == old(w.body) + ErrorBody(ctx, "bad_request", "invalid JSON body")
    ensures req.Chat? && req.msgs == [] ==> w.body == old(w.body) + ErrorBody(ctx, "bad_request", "messages required")
    ensures Accepted(req) ==>
              var o := Serve(SettingOf(pool, StickyKey(ctx.codec.parse, hash, req.msgs)),
                             TurnsOf(ctx, req.stream, canFlush, inputs), old(SchedOf(pool, store)));
              && reply == Some(o.reply) && SchedOf(pool, store) == o.sched
              && last < 3 && (o.reply.Relay? ==> |o.tried| == last + 1)
              && var out := ReplyWritten(ctx, req.stream, o.reply, inputs[last]);
                 w.statuses == old(w.statuses) + [out.status] && w.body == old(w.body) + out.body
  {
    hide Serve, TurnsOf, ErrorBody, ErrorText, StatusOf, InProcess;
    last := 0;
    match req {
      case NotPost =>
        WriteErr(w, ctx, 405, "method_not_allowed", "POST required");
        return None, 0;
      case UnreadableBody =>
        WriteErr(w, ctx, 400, "bad_request", "read body failed");
        return None, 0;
      case BadJson =>
        WriteErr(w, ctx, 400, "bad_request", "invalid JSON body");
        return None, 0;
      case Chat(msgs, stream) =>
        if |msgs| == 0 {
          WriteErr(w, ctx, 400, "bad_request", "messages required");
          return None, 0;
        }
        var key := FindKey(ctx.codec.parse, hash, msgs);
        reply, last := RunLoop(w, pool, store, ctx, key, stream, canFlush, inputs);
        if reply.value.GaveUp? {
          WriteErr(w, ctx, StatusOf(reply.value.last), "upstream_error", ErrorText(reply.value.last));
        }
    }
  }

  /** The failover loop: three attempts at most, on accounts not tried before. */
  method RunLoop(w: Response, pool: AccountPool, store: Store.AccountStore, ctx: Context, key: string, stream: bool,
                 canFlush: bool, inputs: seq<Inputs>)
    returns (reply: Option<Reply>, last: nat)
    requires pool.Valid() && |inputs| == 3
    requires forall k :: 0 <= k < 3 ==> InProcess(inputs[k].before) && InProcess(inputs[k].between)
    modifies w, pool`states, pool`order, pool`sticky, pool.file, store
    ensures pool.Valid() && reply.Some? && last < 3
    ensures var o := Serve(SettingOf(pool, key), TurnsOf(ctx, stream, canFlush, inputs), old(SchedOf(pool, store)));
            reply == Some(o.reply) && SchedOf(pool, store) == o.sched && (o.reply.Relay? ==> |o.tried| == last + 1)
    ensures if reply.value.GaveUp? then w.statuses == old(w.statuses) && w.body == old(w.body)
            else var out := ReplyWritten(ctx, stream, reply.value, inputs[last]);
                 w.statuses == old(w.statuses) + [out.status] && w.body == old(w.body) + out.body
  {
    var tried: seq<string> := [];
    var lastErr: Option<LastError> := None;
    ghost var st, turns := SettingOf(pool, key), TurnsOf(ctx, stream, canFlush, inputs);
    ghost var whole := Serve(st, turns, SchedOf(pool, store));
    assert turns[0..] == turns && turns[3..] == [];
    assert forall s, t, e :: Attempts(st, [], s, t, e) == Outcome([], [], s, GaveUp(e, ThreeTried));
    hide Attempts, Attempt, TurnOf, TurnsOf, ReplyWritten, Consistent;
    for attempt := 0 to 3
      invariant pool.Valid()
      invariant w.statuses == old(w.statuses) && w.body == old(w.body)
      invariant var o := Ahead(st, turns, attempt, SchedOf(pool, store), tried, lastErr);
                o.reply == whole.reply && o.sched == whole.sched && |whole.tried| == attempt + |o.tried|
    {
      AheadStep(st, turns, attempt, SchedOf(pool, store), tried, lastErr);
      var stopped, id, err := AttemptOnce(w, pool, store, ctx, key, stream, canFlush, inputs[attempt], tried, lastErr);
      if stopped.Some? {
        return stopped, attempt;
      }
      tried := tried + [id];
      lastErr := err;
    }
    return Some(GaveUp(lastErr, ThreeTried)), 2;
  }
}
