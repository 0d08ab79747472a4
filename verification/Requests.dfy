/**
 Whole requests against the pool: what a request amounts to in the pool's own history, when
 an attempt disables its account, and that a conversation comes back to its account.
 */
module Requests {
  import opened Wrappers
  import opened Json
  import opened PoolModel
  import opened Selection
  import opened Sticky
  import opened Chunks
  import opened Meaning
  import opened Decoder
  import opened Failover
  import opened Server
  import opened Normalise
  import PoolHistory
  import Store

  // ----- A request as operations on the pool -----

  /** An operation on the pool, by this request or by others. */
  datatype Entered = Mine(op: Op) | Theirs(op: Op)

  function OpsIn(ms: seq<Meddle>): seq<Entered> {
    if ms == [] then [] else (if ms[0].DoOp? then [Theirs(ms[0].op)] else []) + OpsIn(ms[1..])
  }

  function Rest(o: Failover.Outcome): Failover.Outcome
    requires o.tried != [] && o.recorded != []
  {
    o.(tried := o.tried[1..], recorded := o.recorded[1..])
  }

  /**
   What a request and the others do to the pool, in order: in each turn the others' operations
   before the selection and, if an account is tried, those while it is in use, and then one
   record if the request makes one.
   */
  function Log(turns: seq<Turn>, o: Failover.Outcome): seq<Entered>
    decreases |turns|
  {
    if turns == [] then []
    else
      OpsIn(turns[0].before)
      + if o.tried == [] then []
        else
          OpsIn(turns[0].between)
          + if o.recorded == [] then []
            else
              [Mine(Record(o.recorded[0].0, o.recorded[0].1, turns[0].recordAt))]
              + if o.reply.Relay? && |o.tried| == 1 then [] else Log(turns[1..], Rest(o))
  }

  function Ops(log: seq<Entered>): seq<Op> {
    seq(|log|, k requires 0 <= k < |log| => log[k].op)
  }

  function ApplyAll(st: Setting, a: Accounts, log: seq<Entered>): Accounts
    decreases |log|
  {
    if log == [] then a else ApplyAll(st, Apply(st.cfg, st.persist, a, log[0].op), log[1..])
  }

  lemma {:induction false} ApplyAllConcat(st: Setting, a: Accounts, x: seq<Entered>, y: seq<Entered>)
    ensures ApplyAll(st, a, x + y) == ApplyAll(st, ApplyAll(st, a, x), y)
    decreases |x|
  {
    hide Apply;
    if x == [] {
      assert x + y == y;
    } else {
      assert (x + y)[0] == x[0] && (x + y)[1..] == x[1..] + y;
      ApplyAllConcat(st, Apply(st.cfg, st.persist, a, x[0].op), x[1..], y);
    }
  }

  lemma ApplyOne(st: Setting, a: Accounts, e: Entered)
    ensures ApplyAll(st, a, [e]) == Apply(st.cfg, st.persist, a, e.op)
  {
    hide Apply;
    assert [e][1..] == [] && ApplyAll(st, Apply(st.cfg, st.persist, a, e.op), []) == Apply(st.cfg, st.persist, a, e.op);
  }

  lemma {:induction false} MeddledAccounts(st: Setting, s: Sched, ms: seq<Meddle>)
    ensures Meddled(st, s, ms).accounts == ApplyAll(st, s.accounts, OpsIn(ms))
    decreases |ms|
  {
    if ms == [] {
    } else {
      var t := MeddledOnce(st, s, ms[0]);
      MeddledAccounts(st, t, ms[1..]);
      hide Apply, SelectOnce, Store.After, Store.Reloaded;
      if ms[0].DoOp? {
        ApplyOne(st, s.accounts, Theirs(ms[0].op));
        ApplyAllConcat(st, s.accounts, [Theirs(ms[0].op)], OpsIn(ms[1..]));
      } else {
        assert OpsIn(ms) == OpsIn(ms[1..]) by {
          assert [] + OpsIn(ms[1..]) == OpsIn(ms[1..]);
        }
      }
    }
  }

  /** What one attempt does to the pool. */
  ghost predicate AttemptLogged(st: Setting, turn: Turn, a: Accounts, step: Failover.Step) {
    var first, second := OpsIn(turn.before), OpsIn(turn.between);
    match step
    case Stop(o) =>
      if o.tried == [] then o.recorded == [] && !o.reply.Relay? && o.sched.accounts == ApplyAll(st, a, first)
      else if o.recorded == [] then
        |o.tried| == 1 && !o.reply.Relay? && o.sched.accounts == ApplyAll(st, ApplyAll(st, a, first), second)
      else
        && |o.tried| == |o.recorded| == 1 && o.reply.Relay?
        && o.sched.accounts == Apply(st.cfg, st.persist, ApplyAll(st, ApplyAll(st, a, first), second),
                                     Record(o.recorded[0].0, o.recorded[0].1, turn.recordAt))
    case Retry(id, r, t, _) =>
      t.accounts == Apply(st.cfg, st.persist, ApplyAll(st, ApplyAll(st, a, first), second),
                          Record(id, r, turn.recordAt))
  }

  lemma SelectedLogged(st: Setting, turn: Turn, s: Sched)
    ensures Selected(st, turn, s).0.accounts == ApplyAll(st, s.accounts, OpsIn(turn.before))
  {
    MeddledAccounts(st, s, turn.before);
    hide Meddled, SelectOnce, ApplyAll;
  }

  lemma TryLogged(st: Setting, turn: Turn, s: Sched, t: Sched, id: string)
    requires t.accounts == ApplyAll(st, s.accounts, OpsIn(turn.before))
    ensures AttemptLogged(st, turn, s.accounts, TryAccount(st, turn, t, id))
  {
    MeddledAccounts(st, t, turn.between);
    hide Meddled, Apply, ApplyAll, OpsIn, Classify, Store.TokenError, Store.AfterToken;
  }

  lemma AttemptIsLogged(st: Setting, turn: Turn, s: Sched, tried: seq<string>, last: Option<LastError>)
    ensures AttemptLogged(st, turn, s.accounts, Attempt(st, turn, s, tried, last))
  {
    SelectedLogged(st, turn, s);
    var (t, selected) := Selected(st, turn, s);
    if selected.Some? && selected.value !in tried {
      TryLogged(st, turn, s, t, selected.value);
      assert Attempt(st, turn, s, tried, last) == TryAccount(st, turn, t, selected.value) by {
        hide Selected, TryAccount;
      }
      hide *;
    } else {
      hide Selected, TryAccount, ApplyAll, OpsIn, Apply;
    }
  }

  lemma LogStop(st: Setting, turns: seq<Turn>, a: Accounts, o: Failover.Outcome)
    requires turns != [] && AttemptLogged(st, turns[0], a, Stop(o))
    ensures o.sched.accounts == ApplyAll(st, a, Log(turns, o))
  {
    var first, second := OpsIn(turns[0].before), OpsIn(turns[0].between);
    hide ApplyAll, Apply, OpsIn;
    if o.tried == [] {
      assert Log(turns, o) == first + [] == first;
    } else if o.recorded == [] {
      assert Log(turns, o) == first + (second + []) == first + second;
      ApplyAllConcat(st, a, first, second);
    } else {
      var e := Mine(Record(o.recorded[0].0, o.recorded[0].1, turns[0].recordAt));
      assert Log(turns, o) == first + (second + ([e] + [])) == first + (second + [e]);
      ApplyAllConcat(st, a, first, second + [e]);
      ApplyAllConcat(st, ApplyAll(st, a, first), second, [e]);
      ApplyOne(st, ApplyAll(st, ApplyAll(st, a, first), second), e);
    }
  }

  lemma LogRetry(st: Setting, turns: seq<Turn>, a: Accounts, id: string, r: Result, t: Sched, err: LastError,
                 o: Failover.Outcome)
    requires turns != [] && AttemptLogged(st, turns[0], a, Retry(id, r, t, err))
    requires o.reply.Relay? ==> o.tried != []
    requires o.sched.accounts == ApplyAll(st, t.accounts, Log(turns[1..], o))
    ensures o.sched.accounts == ApplyAll(st, a, Log(turns, Prepend(id, r, o)))
  {
    var first, second, more := OpsIn(turns[0].before), OpsIn(turns[0].between), Log(turns[1..], o);
    var e, p := Mine(Record(id, r, turns[0].recordAt)), Prepend(id, r, o);
    assert p.tried[1..] == o.tried && p.recorded[1..] == o.recorded && Rest(p) == o;
    hide ApplyAll, Apply, OpsIn;
    assert Log(turns, p) == first + (second + ([e] + more));
    ApplyAllConcat(st, a, first, second + ([e] + more));
    ApplyAllConcat(st, ApplyAll(st, a, first), second, [e] + more);
    ApplyAllConcat(st, ApplyAll(st, ApplyAll(st, a, first), second), [e], more);
    ApplyOne(st, ApplyAll(st, ApplyAll(st, a, first), second), e);
  }

  lemma {:induction false} AttemptsLogged(st: Setting, turns: seq<Turn>, s: Sched, tried: seq<string>,
                                          last: Option<LastError>)
    ensures var o := Attempts(st, turns, s, tried, last);
      && o.sched.accounts == ApplyAll(st, s.accounts, Log(turns, o))
      && (o.reply.Relay? ==> o.tried != [])
    decreases |turns|
  {
    if turns == [] {
      NoTurns(st, s, tried, last);
    } else {
      hide *;
      AttemptsUnroll(st, turns, s, tried, last);
      AttemptIsLogged(st, turns[0], s, tried, last);
      match Attempt(st, turns[0], s, tried, last) {
        case Stop(o) =>
          LogStop(st, turns, s.accounts, o);
          StopRelays(st, turns[0], s.accounts, o);
        case Retry(id, r, t, err) =>
          var o := Attempts(st, turns[1..], t, tried + [id], Some(err));
          AttemptsLogged(st, turns[1..], t, tried + [id], Some(err));
          LogRetry(st, turns, s.accounts, id, r, t, err, o);
          PrependLength(id, r, o);
          assert |Prepend(id, r, o).tried| > 0;
      }
    }
  }

  lemma StopRelays(st: Setting, turn: Turn, a: Accounts, o: Failover.Outcome)
    requires AttemptLogged(st, turn, a, Stop(o))
    ensures o.reply.Relay? ==> o.tried != []
  {
    hide ApplyAll, Apply, OpsIn;
  }

  /** The request's own entries of a log. */
  function MineOf(log: seq<Entered>): seq<Op> {
    if log == [] then [] else (if log[0].Mine? then [log[0].op] else []) + MineOf(log[1..])
  }

  lemma {:induction false} MineOfConcat(x: seq<Entered>, y: seq<Entered>)
    ensures MineOf(x + y) == MineOf(x) + MineOf(y)
    decreases |x|
  {
    if x == [] {
      assert x + y == y;
    } else {
      assert (x + y)[0] == x[0] && (x + y)[1..] == x[1..] + y;
      MineOfConcat(x[1..], y);
    }
  }

  lemma {:induction false} NoneMine(ms: seq<Meddle>)
    ensures MineOf(OpsIn(ms)) == []
    decreases |ms|
  {
    if ms != [] {
      NoneMine(ms[1..]);
      MineOfConcat(if ms[0].DoOp? then [Theirs(ms[0].op)] else [], OpsIn(ms[1..]));
    }
  }

  function RecordsOf(turns: seq<Turn>, records: seq<(string, Result)>): seq<Op>
    requires |records| <= |turns|
  {
    seq(|records|, k requires 0 <= k < |records| => Record(records[k].0, records[k].1, turns[k].recordAt))
  }

  lemma LogUnroll(turns: seq<Turn>, o: Failover.Outcome)
    requires turns != []
    ensures var first, second := OpsIn(turns[0].before), OpsIn(turns[0].between);
      && (o.tried == [] ==> Log(turns, o) == first)
      && (o.tried != [] && o.recorded == [] ==> Log(turns, o) == first + second)
      && (o.tried != [] && o.recorded != [] ==>
            Log(turns, o) ==
            first + (second + ([Mine(Record(o.recorded[0].0, o.recorded[0].1, turns[0].recordAt))]
                               + if o.reply.Relay? && |o.tried| == 1 then [] else Log(turns[1..], Rest(o)))))
  {
    var first, second := OpsIn(turns[0].before), OpsIn(turns[0].between);
    assert first + [] == first && second + [] == second;
    hide OpsIn, Rest;
  }

  lemma RecordsCons(turns: seq<Turn>, records: seq<(string, Result)>)
    requires records != [] && |records| <= |turns|
    ensures RecordsOf(turns, records) ==
            [Record(records[0].0, records[0].1, turns[0].recordAt)] + RecordsOf(turns[1..], records[1..])
  {
  }

  lemma NoRecords(turns: seq<Turn>)
    ensures RecordsOf(turns, []) == [] && MineOf([]) == [] && forall o :: Log([], o) == []
  {
  }

  lemma {:induction false} LogMine(turns: seq<Turn>, o: Failover.Outcome)
    requires |o.recorded| <= |o.tried| <= |turns|
    ensures MineOf(Log(turns, o)) == RecordsOf(turns, o.recorded)
    decreases |turns|
  {
    hide *;
    NoRecords(turns);
    if turns != [] {
      var first, second := OpsIn(turns[0].before), OpsIn(turns[0].between);
      NoneMine(turns[0].before);
      NoneMine(turns[0].between);
      LogUnroll(turns, o);
      if o.tried != [] && o.recorded == [] {
        MineOfConcat(first, second);
      } else if o.tried != [] {
        var e := Mine(Record(o.recorded[0].0, o.recorded[0].1, turns[0].recordAt));
        var more := if o.reply.Relay? && |o.tried| == 1 then [] else Log(turns[1..], Rest(o));
        RestIs(o);
        LogMine(turns[1..], Rest(o));
        RecordsCons(turns, o.recorded);
        NoRecords(turns[1..]);
        MineOfTurn(first, second, e, more);
      }
    }
  }

  lemma RestIs(o: Failover.Outcome)
    requires o.tried != [] && o.recorded != []
    ensures Rest(o).recorded == o.recorded[1..] && |Rest(o).tried| == |o.tried| - 1
  {
  }

  lemma MineOfTurn(first: seq<Entered>, second: seq<Entered>, e: Entered, more: seq<Entered>)
    requires MineOf(first) == [] && MineOf(second) == [] && e.Mine?
    ensures MineOf(first + (second + ([e] + more))) == [e.op] + MineOf(more)
  {
    assert MineOf([e]) == [e.op] by {
      assert [e][1..] == [];
    }
    hide MineOf;
    MineOfConcat(first, second + ([e] + more));
    MineOfConcat(second, [e] + more);
    MineOfConcat([e], more);
  }

  lemma {:induction false} IdsLength(records: seq<(string, Result)>)
    ensures |Ids(records)| == |records|
  {
    if records != [] {
      IdsLength(records[1..]);
    }
  }

  /**
   Recording exactly once, whatever others do to the pool meanwhile: the pool a request
   leaves is the pool it found with a list of operations applied, in which its own are one
   record for each account it owes one to, in the order they were tried, and all others
   are the others'.
   */
  lemma RequestIsLogged(st: Setting, turns: seq<Turn>, s: Sched)
    requires |turns| == 3
    ensures var o := Serve(st, turns, s);
      && o.sched.accounts == ApplyAll(st, s.accounts, Log(turns, o))
      && Ids(o.recorded) == Owed(o) && |o.recorded| <= 3
      && MineOf(Log(turns, o)) == RecordsOf(turns, o.recorded)
  {
    ServeIs(st, turns, s);
    AttemptsLogged(st, turns, s, [], None);
    ServeProper(st, turns, s);
    var o := Serve(st, turns, s);
    IdsLength(o.recorded);
    assert |Owed(o)| <= |o.tried|;
    LogMine(turns, o);
    hide *;
  }

  lemma {:induction false} RunThen(st: Setting, ops: seq<Op>, log: seq<Entered>)
    ensures Run(st.cfg, st.persist, ops + Ops(log)) == ApplyAll(st, Run(st.cfg, st.persist, ops), log)
    decreases |log|
  {
    if log == [] {
      assert ops + Ops(log) == ops;
    } else {
      var next := ops + [log[0].op];
      assert next[..|next| - 1] == ops;
      assert ops + Ops(log) == next + Ops(log[1..]);
      RunThen(st, next, log[1..]);
      hide Apply;
    }
  }

  /** So what is true of every run of the pool stays true of a pool that requests have driven. */
  lemma RequestKeepsHistory(st: Setting, turns: seq<Turn>, s: Sched, ops: seq<Op>, id: string)
    requires |turns| == 3 && s.accounts == Run(st.cfg, st.persist, ops)
    ensures var o := Serve(st, turns, s);
            var all := ops + Ops(Log(turns, o));
      && o.sched.accounts == Run(st.cfg, st.persist, all)
      && (id in o.sched.accounts.states ==>
            && PoolHistory.InPool(st.persist, all, id)
            && PoolHistory.Describes(st.cfg, PoolHistory.Live(st.persist, all, id).value, o.sched.accounts.states[id]))
  {
    RequestIsLogged(st, turns, s);
    var log := Log(turns, Serve(st, turns, s));
    hide *;
    RunThen(st, ops, log);
    PoolHistory.EveryRecordDescribed(st.cfg, st.persist, ops + Ops(log), id);
    InPoolMeans(st.persist, ops + Ops(log), id);
  }

  lemma InPoolMeans(persist: bool, ops: seq<Op>, id: string)
    ensures PoolHistory.InPool(persist, ops, id) <==> PoolHistory.Live(persist, ops, id).Some?
  {
  }

  // ----- When an attempt disables its account -----

  function AfterStep(step: Failover.Step): Sched {
    match step
    case Stop(o) => o.sched
    case Retry(_, _, t, _) => t
  }

  /** Upstream does not accept the credentials. */
  predicate RefusesLogin(answer: Answer) {
    answer.Refusal? && answer.e.Http? && answer.e.status in {401, 403}
  }

  /** What one record does to the flag of its account. */
  lemma RecordDisables(cfg: Config, persist: bool, a: Accounts, id: string, r: Result, now: Instant)
    requires id in a.states && !a.states[id].disabled
    ensures var b := Apply(cfg, persist, a, Record(id, r, now));
            id in b.states && (b.states[id].disabled <==> !r.ok && r.class_ == AuthDead)
  {
    hide Snapshot, TruncateErr;
  }

  lemma RelayNeverDisables(ctx: Context, bytes: string, terminal: Terminal)
    ensures var r := RelayResult(ctx, bytes, terminal); r.ok || r.class_ == Transient
  {
    hide Chunks.Outcome;
  }

  /** What an undisturbed attempt does to the flag of its account, whatever is relayed. */
  lemma TryDisables(st: Setting, turn: Turn, s: Sched, id: string)
    requires turn.between == [] && id in s.accounts.states && !s.accounts.states[id].disabled
    ensures var after := AfterStep(TryAccount(st, turn, s, id)).accounts;
      && id in after.states
      && (after.states[id].disabled <==>
            || Store.TokenError(s.list, id, turn.ask).Some?
            || (turn.buildError == None &&
                match turn.upstream
                case Failed(e) => Classify(e).0 == AuthDead
                case NoFlusher => false
                case Relayed(r) => !r.ok && r.class_ == AuthDead))
  {
    assert Meddled(st, s, []) == s;
    hide Meddled, Classify, Store.TokenError, Store.AfterToken, Apply;
    match TryAccount(st, turn, s, id) {
      case Stop(o) =>
        if o.recorded != [] {
          RecordDisables(st.cfg, st.persist, s.accounts, id, o.recorded[0].1, turn.recordAt);
        }
      case Retry(_, r, _, _) =>
        RecordDisables(st.cfg, st.persist, s.accounts, id, r, turn.recordAt);
    }
  }

  /**
   An attempt disables its account exactly if there is no token for it, or upstream answers
   401 or 403; nothing else does, and nothing is tried first.
   */
  lemma DisablesIff(ctx: Context, st: Setting, stream: bool, canFlush: bool, i: Inputs, s: Sched, id: string)
    requires i.between == [] && id in s.accounts.states && !s.accounts.states[id].disabled
    ensures var after := AfterStep(TryAccount(st, TurnOf(ctx, stream, canFlush, i), s, id)).accounts;
      && id in after.states
      && (after.states[id].disabled <==>
            Store.TokenError(s.list, id, i.ask).Some? || (i.buildError == None && RefusesLogin(i.answer)))
  {
    TryDisables(st, TurnOf(ctx, stream, canFlush, i), s, id);
    hide TryAccount, Classify, Store.TokenError, RelayResult, AfterStep;
    match i.answer {
      case Refusal(e) => AuthDeadIff(e);
      case Stream(bytes, terminal) => RelayNeverDisables(ctx, bytes, terminal);
    }
  }

  // ----- What upstream errors mean -----

  /** The character is this letter, small or capital; two capitals outside ASCII have ASCII small letters. */
  predicate SameLetter(c: char, small: char) {
    || c == small
    || ('a' <= small <= 'z' && c as int + 32 == small as int)
    || (c == '\U{130}' && small == 'i') || (c == '\U{212A}' && small == 'k')
  }

  predicate WordAt(body: string, word: string, k: int) {
    0 <= k && k + |word| <= |body| && forall j :: 0 <= j < |word| ==> SameLetter(body[k + j], word[j])
  }

  /** The word occurs in the body, in small letters or capitals. */
  ghost predicate Mentions(body: string, word: string) {
    exists k :: WordAt(body, word, k)
  }

  predicate SmallWord(word: string) {
    forall j :: 0 <= j < |word| ==> 'a' <= word[j] <= 'z' || '0' <= word[j] <= '9'
  }

  lemma ContainsMeans(body: string, word: string)
    requires SmallWord(word)
    ensures Contains(ToLower(body), word) <==> Mentions(body, word)
  {
    var low := ToLower(body);
    forall k | 0 <= k <= |low| - |word| ensures word <= low[k..] <==> WordAt(body, word, k) {
      forall j | 0 <= j < |word| ensures low[k..][j] == word[j] <==> SameLetter(body[k + j], word[j]) {
        assert low[k..][j] == LowerChar(body[k + j]);
      }
      hide SameLetter, ToLower;
      assert word <= low[k..] <==> forall j :: 0 <= j < |word| ==> low[k..][j] == word[j];
    }
    hide WordAt, ToLower;
    if Mentions(body, word) {
      var k :| WordAt(body, word, k);
      assert 0 <= k <= |low| - |word| by {
        WordFits(body, word, k);
      }
    }
  }

  lemma WordFits(body: string, word: string, k: int)
    requires WordAt(body, word, k)
    ensures 0 <= k <= |ToLower(body)| - |word|
  {
  }

  ghost predicate RateWords(body: string) {
    Mentions(body, "20004") || Mentions(body, "rate")
  }

  ghost predicate CreditWords(body: string) {
    Mentions(body, "insufficient") || Mentions(body, "quota") || Mentions(body, "credit") || Mentions(body, "30001")
  }

  /** The answer says that the account is out of credit. */
  ghost predicate OutOfCredit(e: UpstreamError) {
    e.Http? && (e.status == 402 || (e.status !in {401, 403, 429} && !RateWords(e.body) && CreditWords(e.body)))
  }

  /** The answer says that there are too many requests. */
  ghost predicate TooMany(e: UpstreamError) {
    e.Http? && (e.status == 429 || (e.status !in {401, 402, 403} && RateWords(e.body)))
  }

  lemma ClassifyMeans(e: UpstreamError)
    ensures var (c, msg) := Classify(e);
      && (c == AuthDead <==> e.Http? && e.status in {401, 403})
      && (c == NoCredit <==> OutOfCredit(e)) && (c == RateLimited <==> TooMany(e))
      && msg == if e.Http? then e.body else e.msg
  {
    if e.Http? {
      ContainsMeans(e.body, "20004");
      ContainsMeans(e.body, "rate");
      ContainsMeans(e.body, "insufficient");
      ContainsMeans(e.body, "quota");
      ContainsMeans(e.body, "credit");
      ContainsMeans(e.body, "30001");
    }
    hide Contains, ToLower, Mentions;
  }

  /** The failure of an attempt, if it fails: its class of consequences is told by the answer. */
  predicate FailsOtherwise(ctx: Context, i: Inputs) {
    match i.answer
    case Refusal(_) => true
    case Stream(bytes, terminal) => Chunks.Outcome(ctx, bytes, terminal) != Completed
  }

  lemma AuthDeadIff(e: UpstreamError)
    ensures Classify(e).0 == AuthDead <==> e.Http? && e.status in {401, 403}
  {
    ClassifyMeans(e);
    hide Classify;
  }

  /** What one failure does to the deadline of its account. */
  lemma RecordDeadline(cfg: Config, persist: bool, a: Accounts, id: string, r: Result, now: Instant)
    requires id in a.states
    ensures var b := Apply(cfg, persist, a, Record(id, r, now));
      && id in b.states
      && b.states[id].cooldownUntil ==
           if r.ok || r.class_ == AuthDead then a.states[id].cooldownUntil
           else if r.class_ == NoCredit then now + cfg.creditCooldown
           else if r.class_ == RateLimited then now + cfg.rateCooldown
           else if a.states[id].errCount + 1 >= cfg.errThreshold then now + cfg.errCooldown
           else a.states[id].cooldownUntil
  {
    hide Snapshot, TruncateErr;
  }

  /**
   What an undisturbed attempt does to the deadline of its account. A call refused for credit
   rests it for the credit cooldown, one refused for too many requests for the rate cooldown,
   any other failure but refused credentials for the error cooldown if it makes the error run
   reach the threshold; nothing else touches the deadline.
   */
  lemma DeadlineIff(ctx: Context, st: Setting, stream: bool, i: Inputs, s: Sched, id: string)
    requires i.between == [] && id in s.accounts.states
    ensures var before := s.accounts.states[id];
            var after := AfterStep(TryAccount(st, TurnOf(ctx, stream, true, i), s, id)).accounts;
      && id in after.states
      && after.states[id].cooldownUntil ==
           if Store.TokenError(s.list, id, i.ask).Some? || i.buildError.Some? || RefusesLogin(i.answer) then
             before.cooldownUntil
           else if i.answer.Refusal? && OutOfCredit(i.answer.e) then i.recordAt + st.cfg.creditCooldown
           else if i.answer.Refusal? && TooMany(i.answer.e) then i.recordAt + st.cfg.rateCooldown
           else if FailsOtherwise(ctx, i) && before.errCount + 1 >= st.cfg.errThreshold then
             i.recordAt + st.cfg.errCooldown
           else before.cooldownUntil
  {
    var turn := TurnOf(ctx, stream, true, i);
    var step := TryAccount(st, turn, s, id);
    assert Meddled(st, s, []) == s;
    if i.answer.Refusal? {
      ClassifyMeans(i.answer.e);
    } else {
      RelayNeverDisables(ctx, i.answer.bytes, i.answer.terminal);
    }
    hide Meddled, Classify, Store.TokenError, Store.AfterToken, Apply, RelayResult, OutOfCredit, TooMany,
        Chunks.Outcome;
    match step {
      case Stop(o) =>
        if o.recorded != [] {
          RecordDeadline(st.cfg, st.persist, s.accounts, id, o.recorded[0].1, turn.recordAt);
        }
      case Retry(_, r, _, _) =>
        RecordDeadline(st.cfg, st.persist, s.accounts, id, r, turn.recordAt);
    }
  }

  /** What a served attempt adds to the counts of its account: a success with its tokens, or a failure. */
  lemma ServedCounts(ctx: Context, st: Setting, stream: bool, i: Inputs, s: Sched, id: string)
    requires i.between == [] && id in s.accounts.states && i.buildError == None && i.answer.Stream?
    requires Store.TokenError(s.list, id, i.ask) == None
    ensures var before := s.accounts.states[id];
            var after := AfterStep(TryAccount(st, TurnOf(ctx, stream, true, i), s, id)).accounts;
      && id in after.states
      && var t, evs := after.states[id], Used(ctx, i.answer.bytes);
         && t.reqCount == before.reqCount + 1 && t.lastUsed == i.recordAt
         && if Chunks.Outcome(ctx, i.answer.bytes, i.answer.terminal) == Completed then
              && t.okCount == before.okCount + 1 && t.errCount == 0
              && t.totalIn == before.totalIn + UsageOf(evs).input && t.totalOut == before.totalOut + UsageOf(evs).output
            else
              && t.okCount == before.okCount && t.errCount == before.errCount + 1
              && t.totalIn == before.totalIn && t.totalOut == before.totalOut && t.lastErrAt == i.recordAt
              && t.lastErr == TruncateErr(Chunks.Outcome(ctx, i.answer.bytes, i.answer.terminal).msg)
  {
    TryServed(ctx, st, stream, i, s, id);
    hide TryAccount, TurnOf, AfterStep, Snapshot, TruncateErr, UsageOf, Chunks.Outcome, Used, Store.TokenError;
  }

  lemma TryServed(ctx: Context, st: Setting, stream: bool, i: Inputs, s: Sched, id: string)
    requires i.between == [] && i.buildError == None && i.answer.Stream?
    requires Store.TokenError(s.list, id, i.ask) == None
    ensures AfterStep(TryAccount(st, TurnOf(ctx, stream, true, i), s, id)).accounts ==
            Apply(st.cfg, st.persist, s.accounts,
                  Record(id, RelayResult(ctx, i.answer.bytes, i.answer.terminal), i.recordAt))
  {
    assert Meddled(st, s, []) == s;
    hide Meddled, Store.TokenError, Store.AfterToken, Apply, RelayResult;
  }

  /** What a refused call, or an account without a token, leaves in the record: one more failure, and what was said. */
  lemma RefusedCounts(ctx: Context, st: Setting, stream: bool, i: Inputs, s: Sched, id: string)
    requires i.between == [] && id in s.accounts.states
    requires Store.TokenError(s.list, id, i.ask).Some? || (i.buildError == None && i.answer.Refusal?)
    ensures var before := s.accounts.states[id];
            var after := AfterStep(TryAccount(st, TurnOf(ctx, stream, true, i), s, id)).accounts;
            var said := match Store.TokenError(s.list, id, i.ask)
                        case Some(msg) => msg
                        case None => if i.answer.e.Http? then i.answer.e.body else i.answer.e.msg;
      && id in after.states
      && var t := after.states[id];
         && t.reqCount == before.reqCount + 1 && t.okCount == before.okCount && t.errCount == before.errCount + 1
         && t.lastUsed == i.recordAt && t.lastErrAt == i.recordAt && t.lastErr == TruncateErr(said)
         && (t.disabled && !before.disabled ==> t.disabledReason == "auth_dead: " + TruncateErr(said))
  {
    assert Meddled(st, s, []) == s;
    if i.answer.Refusal? {
      ClassifyMeans(i.answer.e);
    }
    hide Meddled, Store.TokenError, Store.AfterToken, Snapshot, TruncateErr, Classify, OutOfCredit, TooMany;
  }

  /** How an attempt ends, step by step: without a token, without a body, refused, without a flusher, or relayed. */
  lemma TryEnds(ctx: Context, st: Setting, stream: bool, canFlush: bool, i: Inputs, s: Sched, id: string)
    requires i.between == []
    ensures match TryAccount(st, TurnOf(ctx, stream, canFlush, i), s, id)
            case Retry(x, _, _, err) =>
              && x == id
              && (match Store.TokenError(s.list, id, i.ask)
                  case Some(msg) => err == TokenFailed(msg)
                  case None => i.buildError == None && i.answer.Refusal? && err == CallFailed(i.answer.e))
            case Stop(o) =>
              && o.tried == [id] && Store.TokenError(s.list, id, i.ask) == None
              && (match i.buildError
                  case Some(msg) => o.reply == BuildFailed(msg) && o.recorded == []
                  case None =>
                    i.answer.Stream? &&
                    if stream && !canFlush then o.reply == FlusherMissing && o.recorded == [] && o.sched.accounts ==
                        s.accounts
                    else o.reply == Relay(id) && |o.recorded| == 1 && o.recorded[0].0 == id)
  {
    assert Meddled(st, s, []) == s;
    hide Meddled, Store.TokenError, Store.AfterToken, Apply, Classify, RelayResult;
  }

  // ----- The error a request gives up with -----

  /** The record is of this error. */
  predicate RecordOf(r: Result, e: LastError) {
    match e
    case TokenFailed(msg) => r.message == msg && r.class_ == AuthDead
    case CallFailed(Http(_, body)) => r.message == body
    case CallFailed(Transport(msg)) => r.message == msg && r.class_ == Transient
  }

  lemma TryRecords(st: Setting, turn: Turn, s: Sched, id: string)
    ensures match TryAccount(st, turn, s, id)
            case Stop(o) => !o.reply.GaveUp?
            case Retry(_, r, _, err) => RecordOf(r, err)
  {
    if turn.upstream.Failed? {
      ClassifyMeans(turn.upstream.e);
      TransportTransient(turn.upstream.e);
    }
    hide Meddled, RecordedIn, Classify, Store.TokenError, Store.AfterToken, OutOfCredit, TooMany;
  }

  lemma TransportTransient(e: UpstreamError)
    ensures e.Transport? ==> Classify(e).0 == Transient
  {
  }

  lemma RetryRecords(st: Setting, turn: Turn, s: Sched, tried: seq<string>, last: Option<LastError>)
    ensures match Attempt(st, turn, s, tried, last)
            case Stop(o) => o.reply.GaveUp? ==> o.recorded == [] && o.reply.last == last
            case Retry(_, r, _, err) => RecordOf(r, err)
  {
    hide Selected, TryAccount, RecordOf;
    var (t, selected) := Selected(st, turn, s);
    if selected.Some? && selected.value !in tried {
      TryRecords(st, turn, t, selected.value);
    }
  }

  /** A request that gives up does so with the error of the account it tried last. */
  lemma {:induction false} LastErrorIsLatest(st: Setting, turns: seq<Turn>, s: Sched, tried: seq<string>,
                                             last: Option<LastError>)
    ensures var o := Attempts(st, turns, s, tried, last);
            o.reply.GaveUp? ==>
              if o.recorded == [] then o.reply.last == last
              else o.reply.last.Some? && RecordOf(Last(o.recorded).1, o.reply.last.value)
    decreases |turns|
  {
    hide *;
    if turns == [] {
      NoTurns(st, s, tried, last);
    } else {
      AttemptsUnroll(st, turns, s, tried, last);
      RetryRecords(st, turns[0], s, tried, last);
      match Attempt(st, turns[0], s, tried, last) {
        case Stop(_) =>
        case Retry(id, r, t, err) =>
          var o := Attempts(st, turns[1..], t, tried + [id], Some(err));
          LastErrorIsLatest(st, turns[1..], t, tried + [id], Some(err));
          PrependLength(id, r, o);
          LastRecord(id, r, o);
      }
    }
  }

  lemma LastRecord(id: string, r: Result, o: Failover.Outcome)
    ensures var p := Prepend(id, r, o);
            p.recorded != [] && Last(p.recorded) == if o.recorded == [] then (id, r) else Last(o.recorded)
  {
  }

  /**
   The original promises that an account is disabled on a 401 only if its token cannot be
   refreshed. The code does not try: an account whose token looks usable is disabled on the
   spot although a refresh would have given a new token, and its old token stays.
   */
  lemma UnauthorisedNotRefreshed(ctx: Context, st: Setting, stream: bool, canFlush: bool, i: Inputs, s: Sched, k: nat)
    requires i.between == [] && i.buildError == None && i.answer.Refusal? && i.answer.e.Http? && i.answer.e.status ==
        401
    requires i.ask.outcome.Refreshed?
    requires k < |s.list| && Store.Usable(s.list[k], i.ask.nowMs)
        && Store.Position(s.list, Store.AccountId(s.list[k])) == k
    requires Store.AccountId(s.list[k]) in s.accounts.states
    requires !s.accounts.states[Store.AccountId(s.list[k])].disabled
    ensures var id := Store.AccountId(s.list[k]);
            var after := AfterStep(TryAccount(st, TurnOf(ctx, stream, canFlush, i), s, id));
      && id in after.accounts.states && after.accounts.states[id].disabled
      && |after.list| == |s.list| && after.list[k].token == s.list[k].token
  {
    var id := Store.AccountId(s.list[k]);
    DisablesIff(ctx, st, stream, canFlush, i, s, id);
    assert Store.AfterToken(s.list, id, i.ask) == Store.After(s.list, Store.EnsureDevice(id, i.ask.random));
    TryLeavesList(st, TurnOf(ctx, stream, canFlush, i), s, id);
    hide TryAccount, TurnOf, Store.AccountId, Store.Usable;
  }

  lemma NotMeddled(st: Setting, s: Sched)
    ensures Meddled(st, s, []) == s
  {
  }

  lemma TryLeavesList(st: Setting, turn: Turn, s: Sched, id: string)
    requires turn.between == []
    ensures AfterStep(TryAccount(st, turn, s, id)).list == Store.AfterToken(s.list, id, turn.ask)
  {
    hide *;
    NotMeddled(st, s);
    TryFrom(st, turn, s, id);
    match TryAccount(st, turn, s, id) {
      case Stop(_) => StepSched(TryAccount(st, turn, s, id));
      case Retry(_, _, _, _) => StepSched(TryAccount(st, turn, s, id));
    }
  }

  lemma StepSched(step: Failover.Step)
    ensures AfterStep(step) == match step case Stop(o) => o.sched case Retry(_, _, t, _) => t
  {
  }

  /** After the token has been asked for only the pool still changes. */
  lemma TryFrom(st: Setting, turn: Turn, s: Sched, id: string)
    requires Meddled(st, s, turn.between) == s
    ensures var list := Store.AfterToken(s.list, id, turn.ask);
            match TryAccount(st, turn, s, id)
            case Stop(o) => o.sched.list == list
            case Retry(_, _, t, _) => t.list == list
  {
    hide Meddled, Classify, Store.TokenError, Store.AfterToken, Apply;
  }

  // ----- A conversation comes back to its account -----

  /** In nanoseconds. */
  const THIRTY_MINUTES := 30 * 60 * 1_000_000_000

  /** Others leave the entry alone: they select for other keys, and not so late that it would be swept. */
  predicate Quiet(ms: seq<Meddle>, key: string, from: Instant) {
    forall k :: 0 <= k < |ms| && ms[k].DoSelect? ==> ms[k].key != key && ms[k].now <= from + THIRTY_MINUTES
  }

  lemma SelectLeaves(c: Cache, q: Request, key: string)
    requires key in c && q.key != key && !Expired(c[key], q.now)
    ensures key in SelectOnce(c, q).0 && SelectOnce(c, q).0[key] == c[key]
  {
    hide Choose, Healthy;
  }

  lemma {:induction false} QuietLeaves(st: Setting, s: Sched, ms: seq<Meddle>, e: Entry)
    requires st.key in s.cache && s.cache[st.key] == e && Quiet(ms, st.key, e.lastSeen)
    ensures st.key in Meddled(st, s, ms).cache && Meddled(st, s, ms).cache[st.key] == e
    decreases |ms|
  {
    if ms != [] {
      if ms[0].DoSelect? {
        SelectLeaves(s.cache, Request(ms[0].key, ms[0].now, s.accounts, ms[0].draw), st.key);
      }
      hide SelectOnce, Apply, Store.After, Store.Reloaded;
      assert forall k :: 0 <= k < |ms[1..]| ==> ms[1..][k] == ms[k + 1];
      QuietLeaves(st, MeddledOnce(st, s, ms[0]), ms[1..], e);
    }
  }

  predicate AllQuiet(turns: seq<Turn>, key: string) {
    forall k :: 0 <= k < |turns| ==> Quiet(turns[k].between, key, turns[k].selectAt)
  }

  lemma TryRemembers(st: Setting, turn: Turn, t: Sched, id: string)
    requires st.key in t.cache && t.cache[st.key] == Entry(id, turn.selectAt)
    requires Quiet(turn.between, st.key, turn.selectAt)
    ensures match TryAccount(st, turn, t, id)
            case Stop(o) => o.reply.Relay? ==>
                              o.reply.id == id && st.key in o.sched.cache && o.sched.cache[st.key].id == id
            case Retry(_, _, _, _) => true
  {
    QuietLeaves(st, t, turn.between, Entry(id, turn.selectAt));
    hide Meddled, Apply, Classify, Store.TokenError, Store.AfterToken;
  }

  lemma AttemptRemembers(st: Setting, turn: Turn, s: Sched, tried: seq<string>, last: Option<LastError>)
    requires st.key != "" && Quiet(turn.between, st.key, turn.selectAt)
    ensures match Attempt(st, turn, s, tried, last)
            case Stop(o) => o.reply.Relay? ==> st.key in o.sched.cache && o.sched.cache[st.key].id == o.reply.id
            case Retry(_, _, _, _) => true
  {
    var (t, selected) := Selected(st, turn, s);
    if selected.Some? && selected.value !in tried {
      var u := Meddled(st, s, turn.before);
      RemembersSelected(u.cache, Request(st.key, turn.selectAt, u.accounts, turn.draw), selected.value);
      TryRemembers(st, turn, t, selected.value);
      assert Attempt(st, turn, s, tried, last) == TryAccount(st, turn, t, selected.value) by {
        hide Selected, TryAccount;
      }
      hide *;
    } else {
      hide Selected, TryAccount;
    }
  }

  /** A request that is relayed leaves its key with the account that served it. */
  lemma {:induction false} RelayRemembers(st: Setting, turns: seq<Turn>, s: Sched, tried: seq<string>,
                                          last: Option<LastError>)
    requires st.key != "" && AllQuiet(turns, st.key)
    ensures var o := Attempts(st, turns, s, tried, last);
            o.reply.Relay? ==> st.key in o.sched.cache && o.sched.cache[st.key].id == o.reply.id
    decreases |turns|
  {
    if turns == [] {
      NoTurns(st, s, tried, last);
    } else {
      assert Quiet(turns[0].between, st.key, turns[0].selectAt);
      assert AllQuiet(turns[1..], st.key);
      hide *;
      AttemptsUnroll(st, turns, s, tried, last);
      AttemptRemembers(st, turns[0], s, tried, last);
      match Attempt(st, turns[0], s, tried, last) {
        case Stop(_) =>
        case Retry(id, r, t, err) =>
          RelayRemembers(st, turns[1..], t, tried + [id], Some(err));
          PrependLength(id, r, Attempts(st, turns[1..], t, tried + [id], Some(err)));
      }
    }
  }

  /** Whatever others do, the entry does not expire and the account is healthy whenever the key is selected. */
  predicate Kept(st: Setting, s: Sched, ms: seq<Meddle>, id: string)
    decreases |ms|
  {
    ms == [] ||
    (&& (ms[0].DoSelect? ==>
           && st.key in s.cache && ms[0].now - s.cache[st.key].lastSeen <= THIRTY_MINUTES
           && (ms[0].key == st.key ==> id in s.accounts.states && Healthy(s.accounts.states[id], ms[0].now)))
     && Kept(st, MeddledOnce(st, s, ms[0]), ms[1..], id))
  }

  lemma SelectKeeps(c: Cache, q: Request, id: string)
    requires q.key != "" && id != "" && q.key in c && c[q.key].id == id && !Expired(c[q.key], q.now)
    requires HealthyIn(q.accounts, id, q.now)
    ensures q.key in SelectOnce(c, q).0 && SelectOnce(c, q).0[q.key].id == id
  {
    hide Choose;
  }

  lemma {:induction false} KeptHolds(st: Setting, s: Sched, ms: seq<Meddle>, id: string)
    requires st.key != "" && id != "" && st.key in s.cache && s.cache[st.key].id == id && Kept(st, s, ms, id)
    ensures var t := Meddled(st, s, ms); st.key in t.cache && t.cache[st.key].id == id
    decreases |ms|
  {
    if ms != [] {
      if ms[0].DoSelect? {
        var q := Request(ms[0].key, ms[0].now, s.accounts, ms[0].draw);
        if ms[0].key == st.key {
          SelectKeeps(s.cache, q, id);
        } else {
          SelectLeaves(s.cache, q, st.key);
        }
      }
      hide SelectOnce, Apply, Store.After, Store.Reloaded, Expired, Healthy;
      KeptHolds(st, MeddledOnce(st, s, ms[0]), ms[1..], id);
    }
  }

  lemma FreshEntry(c: Cache, key: string, now: Instant)
    requires key in c && now - c[key].lastSeen <= THIRTY_MINUTES
    ensures !Expired(c[key], now)
  {
  }

  /** With a fresh entry for a healthy account that account is tried first. */
  lemma TriedFirst(st: Setting, turns: seq<Turn>, s: Sched, id: string)
    requires |turns| == 3 && st.key != "" && id != ""
    requires var t := Meddled(st, s, turns[0].before);
      && st.key in t.cache && t.cache[st.key].id == id && !Expired(t.cache[st.key], turns[0].selectAt)
      && HealthyIn(t.accounts, id, turns[0].selectAt)
    ensures Serve(st, turns, s).tried != [] && Serve(st, turns, s).tried[0] == id
  {
    var t := Meddled(st, s, turns[0].before);
    StickyDecides(t.cache, Request(st.key, turns[0].selectAt, t.accounts, turns[0].draw), id);
    var u := Selected(st, turns[0], s).0;
    assert Selected(st, turns[0], s).1 == Some(id);
    assert Attempt(st, turns[0], s, [], None) == TryAccount(st, turns[0], u, id) by {
      hide Selected, TryAccount;
    }
    TriesIt(st, turns[0], u, id);
    hide *;
    ServeIs(st, turns, s);
    AttemptsUnroll(st, turns, s, [], None);
    match Attempt(st, turns[0], s, [], None) {
      case Stop(_) =>
      case Retry(x, r, v, err) => PrependTried(x, r, Attempts(st, turns[1..], v, [] + [x], Some(err)));
    }
  }

  lemma TriesIt(st: Setting, turn: Turn, s: Sched, id: string)
    ensures match TryAccount(st, turn, s, id)
            case Stop(o) => o.tried == [id]
            case Retry(x, _, _, _) => x == id
  {
    hide Meddled, Apply, Classify, Store.TokenError, Store.AfterToken;
  }

  /**
   The promise of the usage guide: after a request of a conversation has been served, the
   next one, however the conversation has gone on, first tries the account that served it,
   as long as the key's entry does not expire and that account is healthy whenever the key
   is selected. Selections follow one another here; for those that overlap, the condition
   is that none of them is past the cache with anything else.
   */
  lemma ConversationReturns(parse: string -> Option<Value>, hash: string -> string, msgs: seq<Message>,
                            more: seq<Message>,
                            cfg: Config, persist: bool, turns: seq<Turn>, s: Sched, next: seq<Turn>)
    requires (exists m :: m in msgs && m.role == "user") && StickyKey(parse, hash, msgs) != ""
    requires |turns| == |next| == 3 && AllQuiet(turns, StickyKey(parse, hash, msgs))
    requires var st := Setting(cfg, persist, StickyKey(parse, hash, msgs));
             var o := Serve(st, turns, s);
      && o.reply.Relay? && o.reply.id != "" && Kept(st, o.sched, next[0].before, o.reply.id)
      && var t := Meddled(st, o.sched, next[0].before);
         (st.key in t.cache ==> next[0].selectAt - t.cache[st.key].lastSeen <= THIRTY_MINUTES)
         && HealthyIn(t.accounts, o.reply.id, next[0].selectAt)
    ensures var served := Serve(Setting(cfg, persist, StickyKey(parse, hash, msgs)), turns, s);
            var then_ := Serve(Setting(cfg, persist, StickyKey(parse, hash, msgs + more)), next, served.sched);
            then_.tried != [] && then_.tried[0] == served.reply.id
  {
    hide *;
    ConversationKeepsKey(parse, hash, msgs, more);
    var st := Setting(cfg, persist, StickyKey(parse, hash, msgs));
    ServeIs(st, turns, s);
    RelayRemembers(st, turns, s, [], None);
    var o := Serve(st, turns, s);
    KeptHolds(st, o.sched, next[0].before, o.reply.id);
    FreshEntry(Meddled(st, o.sched, next[0].before).cache, st.key, next[0].selectAt);
    TriedFirst(st, next, o.sched, o.reply.id);
  }
}
