/**
 The failover loop of a chat request: select an account, get its token, build the body,
 call upstream, relay or record the failure and try the next account, three times at most.

 Everything the loop does not decide is an input: the clock readings, the random draws,
 the outcomes of the calls it makes, and what others do to the pool and the account store
 in between.
 */
module Failover {
  import opened Wrappers
  import opened PoolModel
  import opened Selection
  import opened Sticky
  import Store
  import Text

  // ----- Upstream errors -----

  datatype UpstreamError = Transport(msg: string) | Http(status: int, body: string)

  /** Lower case, as far as it can produce an ASCII letter. */
  function LowerChar(c: char): char {
    if 'A' <= c <= 'Z' then (c as int + 32) as char
    else if c == '\U{130}' then 'i'
    else if c == '\U{212A}' then 'k'
    else c
  }

  function ToLower(s: string): string {
    seq(|s|, k requires 0 <= k < |s| => LowerChar(s[k]))
  }

  predicate Contains(s: string, word: string) {
    exists k :: 0 <= k <= |s| - |word| && word <= s[k..]
  }

  /** Which class a failed call belongs to, and the message recorded for it. */
  function Classify(e: UpstreamError): (Class, string) {
    match e
    case Transport(msg) => (Transient, msg)
    case Http(status, body) =>
      var low := ToLower(body);
      if status == 401 || status == 403 then (AuthDead, body)
      else if status == 402 then (NoCredit, body)
      else if status == 429 || Contains(low, "20004") || Contains(low, "rate") then (RateLimited, body)
      else if Contains(low, "insufficient") || Contains(low, "quota") || Contains(low, "credit") || Contains(low,
            "30001")
      then (NoCredit, body)
      else if status >= 500 then (Transient, body)
      else (ClassOther, body)
  }

  // ----- Inputs -----

  /** What others do to the pool and the account store meanwhile. */
  datatype Meddle =
    | DoOp(op: Op)
    | DoSelect(key: string, now: Instant, draw: real)
    | DoChange(change: Store.Change)
    | DoReload(read: Store.DiskRead)

  /** What upstream did: an error, or a stream that was relayed with the given result. */
  datatype Upstream = Failed(e: UpstreamError) | Relayed(result: Result) | NoFlusher

  /** The inputs of one attempt. */
  datatype Turn = Turn(
    before: seq<Meddle>,            // meddling before the selection
    selectAt: Instant,
    draw: real,
    ask: Store.Ask,                 // what asking for a token depends on
    buildError: Option<string>,
    upstream: Upstream,
    between: seq<Meddle>,           // meddling between selection and record
    recordAt: Instant)

  /** The scheduler's state: the pool, its sticky cache, and the list of login accounts. */
  datatype Sched = Sched(accounts: Accounts, cache: Cache, list: seq<Store.Account>)

  /** The pool's fixed settings and the request's sticky key. */
  datatype Setting = Setting(cfg: Config, persist: bool, key: string)

  // ----- Outputs -----

  datatype LastError = TokenFailed(msg: string) | CallFailed(e: UpstreamError)

  datatype Why = ThreeTried | Repeated(id: string) | NoneLeft

  datatype Reply =
    | NoHealthyAccount
    | BuildFailed(msg: string)
    | Relay(id: string)
    | FlusherMissing
    | GaveUp(last: Option<LastError>, why: Why)

  /** The whole request: accounts tried, results recorded, final state, and the reply. */
  datatype Outcome = Outcome(tried: seq<string>, recorded: seq<(string, Result)>, sched: Sched, reply: Reply)

  // ----- The loop -----

  function MeddledOnce(st: Setting, s: Sched, m: Meddle): Sched {
    match m
    case DoOp(op) => s.(accounts := Apply(st.cfg, st.persist, s.accounts, op))
    case DoSelect(key, now, draw) => s.(cache := SelectOnce(s.cache, Request(key, now, s.accounts, draw)).0)
    case DoChange(change) => s.(list := Store.After(s.list, change))
    case DoReload(read) => s.(list := Store.Reloaded(s.list, read))
  }

  function Meddled(st: Setting, s: Sched, ms: seq<Meddle>): Sched
    decreases |ms|
  {
    if ms == [] then s else Meddled(st, MeddledOnce(st, s, ms[0]), ms[1..])
  }

  function RecordedIn(st: Setting, s: Sched, id: string, r: Result, now: Instant): Sched {
    s.(accounts := Apply(st.cfg, st.persist, s.accounts, Record(id, r, now)))
  }

  function Prepend(id: string, r: Result, o: Outcome): Outcome {
    o.(tried := [id] + o.tried, recorded := [(id, r)] + o.recorded)
  }

  /** One attempt either ends the request or records a failure and asks for another. */
  datatype Step = Stop(outcome: Outcome) | Retry(id: string, result: Result, sched: Sched, error: LastError)

  /** What happens once account `id` has been selected. */
  function TryAccount(st: Setting, turn: Turn, s: Sched, id: string): Step {
    var t := Meddled(st, s, turn.between);
    var u := t.(list := Store.AfterToken(t.list, id, turn.ask));
    match Store.TokenError(t.list, id, turn.ask)
    case Some(msg) =>
      var r := Result(false, AuthDead, msg, 0, 0);
      Retry(id, r, RecordedIn(st, u, id, r, turn.recordAt), TokenFailed(msg))
    case None =>
      if turn.buildError.Some? then Stop(Outcome([id], [], u, BuildFailed(turn.buildError.value)))
      else
        match turn.upstream
        case Failed(e) =>
          var r := Result(false, Classify(e).0, Classify(e).1, 0, 0);
          Retry(id, r, RecordedIn(st, u, id, r, turn.recordAt), CallFailed(e))
        case NoFlusher => Stop(Outcome([id], [], u, FlusherMissing))
        case Relayed(r) => Stop(Outcome([id], [(id, r)], RecordedIn(st, u, id, r, turn.recordAt), Relay(id)))
  }

  /** The scheduler after the selection of an attempt, and what was selected. */
  function Selected(st: Setting, turn: Turn, s: Sched): (Sched, Option<string>) {
    var t := Meddled(st, s, turn.before);
    var (cache, id) := SelectOnce(t.cache, Request(st.key, turn.selectAt, t.accounts, turn.draw));
    (t.(cache := cache), id)
  }

  function Attempt(st: Setting, turn: Turn, s: Sched, tried: seq<string>, last: Option<LastError>): Step {
    var (t, selected) := Selected(st, turn, s);
    match selected
    case None => Stop(Outcome([], [], t, if last.Some? then GaveUp(last, NoneLeft) else NoHealthyAccount))
    case Some(id) =>
      if id in tried then Stop(Outcome([], [], t, GaveUp(last, Repeated(id))))
      else TryAccount(st, turn, t, id)
  }

  /** The attempts still allowed, one for each turn; `tried` and `last` are what the earlier ones left. */
  function Attempts(st: Setting, turns: seq<Turn>, s: Sched, tried: seq<string>, last: Option<LastError>): Outcome
    decreases |turns|
  {
    if turns == [] then Outcome([], [], s, GaveUp(last, ThreeTried))
    else
      match Attempt(st, turns[0], s, tried, last)
      case Stop(o) => o
      case Retry(id, r, t, err) => Prepend(id, r, Attempts(st, turns[1..], t, tried + [id], Some(err)))
  }

  lemma AttemptsUnroll(st: Setting, turns: seq<Turn>, s: Sched, tried: seq<string>, last: Option<LastError>)
    requires turns != []
    ensures Attempts(st, turns, s, tried, last) ==
            match Attempt(st, turns[0], s, tried, last)
            case Stop(o) => o
            case Retry(id, r, t, err) => Prepend(id, r, Attempts(st, turns[1..], t, tried + [id], Some(err)))
  {
    hide Attempt, Prepend;
  }

  /** A request has three turns. */
  function Serve(st: Setting, turns: seq<Turn>, s: Sched): Outcome
    requires |turns| == 3
  {
    Attempts(st, turns, s, [], None)
  }

  // ----- What every request satisfies -----

  function Ids(records: seq<(string, Result)>): seq<string> {
    if records == [] then [] else [records[0].0] + Ids(records[1..])
  }

  /** The exits on which the last account tried is not recorded. */
  predicate Unrecorded(reply: Reply) {
    reply.BuildFailed? || reply.FlusherMissing?
  }

  /** The accounts that owe a record. */
  function Owed(o: Outcome): seq<string> {
    if Unrecorded(o.reply) && o.tried != [] then o.tried[..|o.tried| - 1] else o.tried
  }

  /** How the rest of a request relates to what was tried before it. */
  ghost predicate Proper(tried: seq<string>, o: Outcome) {
    && Distinct(tried + o.tried)
    && Ids(o.recorded) == Owed(o)
    && (Unrecorded(o.reply) ==> o.tried != [])
    && (o.reply.GaveUp? ==> o.reply.last.Some?)
    && (o.reply.NoHealthyAccount? ==> tried == [] && o.tried == [])
  }

  lemma TryProper(st: Setting, turn: Turn, t: Sched, tried: seq<string>, id: string)
    requires Distinct(tried) && id !in tried
    ensures match TryAccount(st, turn, t, id)
            case Stop(o) => |o.tried| <= 1 && Proper(tried, o)
            case Retry(x, r, _, _) => x == id && !r.ok
  {
    hide Meddled, RecordedIn, Classify, Store.TokenError, Store.AfterToken;
    assert Distinct(tried + [id]);
    assert forall x: string, r: Result :: Ids([(x, r)]) == [x] + Ids([(x, r)][1..]);
  }

  lemma AttemptProper(st: Setting, turn: Turn, s: Sched, tried: seq<string>, last: Option<LastError>)
    requires Distinct(tried) && (tried != [] <==> last.Some?)
    ensures match Attempt(st, turn, s, tried, last)
            case Stop(o) => |o.tried| <= 1 && Proper(tried, o)
            case Retry(id, _, _, _) => id !in tried
  {
    hide Selected, TryAccount;
    assert tried + [] == tried;
    var (t, selected) := Selected(st, turn, s);
    if selected.Some? && selected.value !in tried {
      TryProper(st, turn, t, tried, selected.value);
    }
  }

  lemma PrependProper(id: string, r: Result, tried: seq<string>, o: Outcome)
    requires Proper(tried + [id], o)
    ensures Proper(tried, Prepend(id, r, o))
  {
    var p := Prepend(id, r, o);
    assert tried + p.tried == tried + [id] + o.tried;
    assert p.recorded[1..] == o.recorded;
  }

  lemma {:induction false} AttemptsProper(st: Setting, turns: seq<Turn>, s: Sched, tried: seq<string>,
                                          last: Option<LastError>)
    requires Distinct(tried) && (tried != [] <==> last.Some?) && (turns == [] ==> tried != [])
    ensures var o := Attempts(st, turns, s, tried, last);
            |o.tried| <= |turns| && Proper(tried, o)
    decreases |turns|
  {
    if turns == [] {
      assert tried + [] == tried;
    } else {
      AttemptProper(st, turns[0], s, tried, last);
      AttemptsUnroll(st, turns, s, tried, last);
      hide Attempts, Attempt, Proper, Prepend;
      match Attempt(st, turns[0], s, tried, last) {
        case Stop(_) =>
        case Retry(id, r, t, err) =>
          hide *;
          var rest := Attempts(st, turns[1..], t, tried + [id], Some(err));
          DistinctSnoc(tried, id);
          AttemptsProper(st, turns[1..], t, tried + [id], Some(err));
          PrependProper(id, r, tried, rest);
          PrependLength(id, r, rest);
      }
    }
  }

  lemma DistinctSnoc(ids: seq<string>, id: string)
    requires Distinct(ids) && id !in ids
    ensures Distinct(ids + [id])
  {
  }

  lemma PrependLength(id: string, r: Result, o: Outcome)
    ensures |Prepend(id, r, o).tried| == 1 + |o.tried|
    ensures Prepend(id, r, o).reply == o.reply && Prepend(id, r, o).sched == o.sched
  {
  }

  /**
   Every request tries at most three accounts, all different; records exactly the accounts
   it tried, once each and in order, except the last one when the body cannot be built or
   the response cannot be flushed; and gives up only with an error in hand.
   */
  lemma ServeProper(st: Setting, turns: seq<Turn>, s: Sched)
    requires |turns| == 3
    ensures var o := Serve(st, turns, s);
      && |o.tried| <= 3 && Distinct(o.tried)
      && Ids(o.recorded) == Owed(o)
      && (o.reply.GaveUp? ==> o.reply.last.Some?)
      && (o.reply.NoHealthyAccount? ==> o.tried == [])
  {
    AttemptsProper(st, turns, s, [], None);
    hide Attempts;
    assert [] + Serve(st, turns, s).tried == Serve(st, turns, s).tried;
  }

  // ----- Without interference -----

  predicate Undisturbed(turns: seq<Turn>) {
    forall k :: 0 <= k < |turns| ==> turns[k].before == [] && turns[k].between == []
  }

  /** A selection leaves the accounts alone, returns a healthy one, and fails only if there is none. */
  lemma SelectOnceSound(c: Cache, q: Request)
    requires Consistent(q.accounts)
    ensures var id := SelectOnce(c, q).1;
      && (id.Some? ==> HealthyIn(q.accounts, id.value, q.now))
      && (id == None ==> forall x :: !HealthyIn(q.accounts, x, q.now))
  {
    ChooseSound(q.accounts, q.now, q.draw);
    hide Choose, Lookup, Remember, Consistent, Healthy;
  }

  lemma SelectedSound(st: Setting, turn: Turn, s: Sched)
    requires turn.before == [] && Consistent(s.accounts)
    ensures var (t, id) := Selected(st, turn, s);
      && t.accounts == s.accounts
      && (id.Some? ==> HealthyIn(s.accounts, id.value, turn.selectAt))
      && (id == None ==> forall x :: !HealthyIn(s.accounts, x, turn.selectAt))
  {
    assert Meddled(st, s, []) == s;
    hide SelectOnce, Consistent, Healthy, Meddled;
    SelectOnceSound(s.cache, Request(st.key, turn.selectAt, s.accounts, turn.draw));
  }

  /** What an undisturbed attempt does to the accounts. */
  ghost predicate AttemptEffect(st: Setting, turn: Turn, a: Accounts, step: Step) {
    match step
    case Stop(o) =>
      && (Unrecorded(o.reply) ==> o.tried != [])
      && if o.recorded == [] then o.sched.accounts == a && Owed(o) == []
      else
        && |o.recorded| == 1 && |Owed(o)| == 1
        && o.recorded[0].0 in a.states
        && o.sched.accounts == Apply(st.cfg, st.persist, a, Record(o.recorded[0].0, o.recorded[0].1, turn.recordAt))
    case Retry(id, r, t, _) =>
      && HealthyIn(a, id, turn.selectAt)
      && t.accounts == Apply(st.cfg, st.persist, a, Record(id, r, turn.recordAt))
  }

  lemma TryAccountEffect(st: Setting, turn: Turn, t: Sched, id: string)
    requires turn.between == [] && HealthyIn(t.accounts, id, turn.selectAt)
    ensures AttemptEffect(st, turn, t.accounts, TryAccount(st, turn, t, id))
  {
    assert Meddled(st, t, []) == t;
    hide Meddled, Apply, Classify, Healthy;
  }

  lemma AttemptUndisturbed(st: Setting, turn: Turn, s: Sched, tried: seq<string>, last: Option<LastError>)
    requires turn.before == [] && turn.between == [] && Consistent(s.accounts)
    ensures AttemptEffect(st, turn, s.accounts, Attempt(st, turn, s, tried, last))
  {
    hide Selected, Apply, TryAccount, HealthyIn, Consistent;
    SelectedSound(st, turn, s);
    var (t, selected) := Selected(st, turn, s);
    if selected.Some? && selected.value !in tried {
      hide AttemptEffect;
      TryAccountEffect(st, turn, t, selected.value);
      assert Attempt(st, turn, s, tried, last) == TryAccount(st, turn, t, selected.value);
    }
  }

  /** The number of requests recorded over all accounts. */
  function Requests(states: States, order: seq<string>): int {
    if order == [] then 0
    else Requests(states, order[..|order| - 1]) + if order[|order| - 1] in states then
        states[order[|order| - 1]].reqCount else 0
  }

  lemma {:induction false} RequestsUpdate(states: States, order: seq<string>, id: string, s: State)
    requires Ordering.Sorted(order) && id in states && s.reqCount == states[id].reqCount + 1
    ensures Requests(states[id := s], order) == Requests(states, order) + if id in order then 1 else 0
  {
    if order != [] {
      var n := |order| - 1;
      assert order == order[..n] + [order[n]];
      RequestsUpdate(states, order[..n], id, s);
      if order[n] == id && id in order[..n] {
        var j :| 0 <= j < n && order[j] == id;
        Ordering.LessTotal(order[j], order[n]);
      }
    }
  }

  function TotalRequests(a: Accounts): int {
    Requests(a.states, a.order)
  }

  lemma RecordCounts(cfg: Config, persist: bool, a: Accounts, id: string, r: Result, now: Instant)
    requires Consistent(a) && id in a.states
    ensures TotalRequests(Apply(cfg, persist, a, Record(id, r, now))) == TotalRequests(a) + 1
  {
    RequestsUpdate(a.states, a.order, id, Recorded(cfg, a.states[id], r, now));
    hide Requests, Snapshot, TruncateErr;
  }

  lemma EffectCounts(st: Setting, turn: Turn, a: Accounts, step: Step)
    requires Consistent(a) && AttemptEffect(st, turn, a, step)
    ensures match step
            case Stop(o) => TotalRequests(o.sched.accounts) == TotalRequests(a) + |Owed(o)|
            case Retry(id, _, t, _) => TotalRequests(t.accounts) == TotalRequests(a) + 1 && Consistent(t.accounts)
  {
    match step {
      case Stop(o) =>
        if o.recorded != [] {
          RecordCounts(st.cfg, st.persist, a, o.recorded[0].0, o.recorded[0].1, turn.recordAt);
        }
      case Retry(id, r, t, _) =>
        RecordCounts(st.cfg, st.persist, a, id, r, turn.recordAt);
        ApplyConsistent(st.cfg, st.persist, a, Record(id, r, turn.recordAt));
    }
    hide Apply, TotalRequests, Consistent, Healthy;
  }

  lemma {:induction false} AttemptsCount(st: Setting, turns: seq<Turn>, s: Sched, tried: seq<string>,
                                         last: Option<LastError>)
    requires Undisturbed(turns) && Consistent(s.accounts)
    ensures var o := Attempts(st, turns, s, tried, last);
            && TotalRequests(o.sched.accounts) == TotalRequests(s.accounts) + |Owed(o)|
            && (Unrecorded(o.reply) ==> o.tried != [])
    decreases |turns|
  {
    if turns != [] {
      assert turns[0].before == [] && turns[0].between == [] && Undisturbed(turns[1..]);
      hide Attempts, Attempt, Undisturbed, TotalRequests, Consistent, Prepend, Apply, HealthyIn, AttemptEffect;
      var step := Attempt(st, turns[0], s, tried, last);
      AttemptsUnroll(st, turns, s, tried, last);
      AttemptUndisturbed(st, turns[0], s, tried, last);
      EffectCounts(st, turns[0], s.accounts, step);
      match step {
        case Stop(o) => StopTried(st, turns[0], s.accounts, o);
        case Retry(id, r, t, err) =>
          hide Owed;
          AttemptsCount(st, turns[1..], t, tried + [id], Some(err));
          OwedPrepend(id, r, Attempts(st, turns[1..], t, tried + [id], Some(err)));
          PrependLength(id, r, Attempts(st, turns[1..], t, tried + [id], Some(err)));
      }
    }
  }

  lemma StopTried(st: Setting, turn: Turn, a: Accounts, o: Outcome)
    requires AttemptEffect(st, turn, a, Stop(o))
    ensures Unrecorded(o.reply) ==> o.tried != []
  {
    hide Apply;
  }

  lemma OwedPrepend(id: string, r: Result, o: Outcome)
    requires Unrecorded(o.reply) ==> o.tried != []
    ensures |Owed(Prepend(id, r, o))| == 1 + |Owed(o)|
  {
  }

  /**
   Recording is exactly once: without interference the total of the request counters grows
   by the number of accounts tried, less the one left unrecorded on the two early exits.
   */
  lemma ServeCounts(st: Setting, turns: seq<Turn>, s: Sched)
    requires |turns| == 3 && Undisturbed(turns) && Consistent(s.accounts)
    ensures var o := Serve(st, turns, s);
            TotalRequests(o.sched.accounts) - TotalRequests(s.accounts) ==
            |o.tried| - if Unrecorded(o.reply) then 1 else 0
  {
    AttemptsCount(st, turns, s, [], None);
    hide Attempts, TotalRequests;
  }

  // ----- When the loop gives up -----

  /**
   A failure that leaves its account in service: it is not an authorisation, credit or rate
   failure, and it keeps the error run below the threshold.
   */
  predicate Mild(cfg: Config, s: State, r: Result) {
    !r.ok && r.class_ !in {AuthDead, NoCredit, RateLimited} && s.errCount + 1 < cfg.errThreshold
  }

  /** The `k`-th attempt of the request failed mildly; `a` are the accounts before the request. */
  predicate MildAt(cfg: Config, a: Accounts, o: Outcome, k: int) {
    && 0 <= k < |o.recorded| && k < |o.tried| && (o.reply.Relay? ==> k < |o.recorded| - 1)
    && o.recorded[k].0 in a.states && Mild(cfg, a.states[o.recorded[k].0], o.recorded[k].1)
  }

  /** The whole request happens by `deadline`, before any cooldown it causes runs out. */
  predicate Timely(cfg: Config, turns: seq<Turn>, deadline: Instant) {
    forall k :: 0 <= k < |turns| ==> TimelyTurn(cfg, turns[k], deadline)
  }

  predicate TimelyTurn(cfg: Config, turn: Turn, deadline: Instant) {
    && 0 <= turn.selectAt <= deadline
    && deadline < turn.recordAt + cfg.rateCooldown
    && deadline < turn.recordAt + cfg.creditCooldown
    && deadline < turn.recordAt + cfg.errCooldown
  }

  /** The account cannot be selected until the deadline. */
  ghost predicate Blocked(a: Accounts, id: string, deadline: Instant) {
    forall now :: 0 <= now <= deadline ==> !HealthyIn(a, id, now)
  }

  /** Every account tried cannot be selected until the deadline, save the lenient ones. */
  ghost predicate AllBlocked(a: Accounts, tried: seq<string>, lenient: set<string>, deadline: Instant) {
    forall id :: id in tried && id !in lenient ==> Blocked(a, id, deadline)
  }

  /** An account whose failure is not mild is blocked; other accounts stay as they are. */
  lemma FailureBlocks(st: Setting, turn: Turn, a: Accounts, tried: seq<string>, lenient: set<string>, id: string,
                      r: Result, deadline: Instant)
    requires AllBlocked(a, tried, lenient, deadline) && id !in tried && id in a.states
    requires TimelyTurn(st.cfg, turn, deadline) && !r.ok
    ensures var b := Apply(st.cfg, st.persist, a, Record(id, r, turn.recordAt));
            AllBlocked(b, tried + [id], if Mild(st.cfg, a.states[id], r) then lenient + {id} else lenient, deadline)
  {
    hide Snapshot, TruncateErr;
    var b := Apply(st.cfg, st.persist, a, Record(id, r, turn.recordAt));
    forall x | x in tried && x !in lenient ensures Blocked(b, x, deadline) {
      assert Blocked(a, x, deadline);
      forall now | 0 <= now <= deadline ensures !HealthyIn(b, x, now) {
        assert !HealthyIn(a, x, now);
      }
    }
    if !Mild(st.cfg, a.states[id], r) {
      forall now | 0 <= now <= deadline ensures !HealthyIn(b, id, now) {
      }
    }
  }

  /** A retry comes with a failure of an account that was not tried before. */
  lemma RetryFails(st: Setting, turn: Turn, s: Sched, tried: seq<string>, last: Option<LastError>)
    ensures match Attempt(st, turn, s, tried, last)
            case Stop(_) => true
            case Retry(id, r, _, _) => id !in tried && !r.ok
  {
    hide Selected, Meddled, RecordedIn, Classify;
  }

  /** Why an undisturbed attempt can stop the request without relaying. */
  lemma StopReason(st: Setting, turn: Turn, s: Sched, tried: seq<string>, last: Option<LastError>, lenient: set<string>,
                   deadline: Instant)
    requires turn.before == [] && Consistent(s.accounts)
    requires AllBlocked(s.accounts, tried, lenient, deadline) && 0 <= turn.selectAt <= deadline
    ensures match Attempt(st, turn, s, tried, last)
            case Stop(o) =>
              o.reply.GaveUp? || o.reply.NoHealthyAccount? ==>
                o.tried == [] &&
                if o.reply.GaveUp? && o.reply.why.Repeated? then o.reply.why.id in lenient
                else !(o.reply.GaveUp? && o.reply.why.ThreeTried?)
                     && forall id :: !HealthyIn(o.sched.accounts, id, turn.selectAt)
            case Retry(_, _, _, _) => true
  {
    hide Selected, TryAccount, HealthyIn, Consistent;
    SelectedSound(st, turn, s);
    var (t, selected) := Selected(st, turn, s);
    if selected.Some? {
      assert !Blocked(s.accounts, selected.value, deadline);
      TryAccountReply(st, turn, t, selected.value);
    }
  }

  lemma TryAccountReply(st: Setting, turn: Turn, t: Sched, id: string)
    ensures match TryAccount(st, turn, t, id)
            case Stop(o) => !o.reply.GaveUp? && !o.reply.NoHealthyAccount?
            case Retry(_, _, _, _) => true
  {
    hide Meddled, RecordedIn, Classify;
  }

  /**
   What giving up means: every turn was used, or at the last selection no account was
   healthy, or that selection led back to an account that had failed mildly.
   */
  ghost predicate Exhausted(cfg: Config, a: Accounts, lenient: set<string>, turns: seq<Turn>, o: Outcome) {
    o.reply.GaveUp? || o.reply.NoHealthyAccount? ==>
      if o.reply.GaveUp? && o.reply.why.ThreeTried? then |o.tried| == |turns|
      else
        |o.tried| < |turns| &&
        if o.reply.GaveUp? && o.reply.why.Repeated? then
          o.reply.why.id in lenient || exists k :: MildAt(cfg, a, o, k) && o.recorded[k].0 == o.reply.why.id
        else forall id :: !HealthyIn(o.sched.accounts, id, turns[|o.tried|].selectAt)
  }

  lemma {:induction false} RecordedFresh(st: Setting, turns: seq<Turn>, s: Sched, tried: seq<string>,
                                         last: Option<LastError>, k: nat)
    requires k < |Attempts(st, turns, s, tried, last).recorded|
    ensures Attempts(st, turns, s, tried, last).recorded[k].0 !in tried
    decreases |turns|
  {
    hide *;
    if turns == [] {
      NoTurns(st, s, tried, last);
    } else {
      AttemptsUnroll(st, turns, s, tried, last);
      StopFresh(st, turns[0], s, tried, last);
      RetryFails(st, turns[0], s, tried, last);
      match Attempt(st, turns[0], s, tried, last) {
        case Stop(_) =>
        case Retry(id, r, t, err) =>
          PrependRecorded(id, r, Attempts(st, turns[1..], t, tried + [id], Some(err)));
          if k > 0 {
            RecordedFresh(st, turns[1..], t, tried + [id], Some(err), k - 1);
          }
      }
    }
  }

  lemma NoTurns(st: Setting, s: Sched, tried: seq<string>, last: Option<LastError>)
    ensures Attempts(st, [], s, tried, last) == Outcome([], [], s, GaveUp(last, ThreeTried))
  {
  }

  lemma PrependRecorded(id: string, r: Result, o: Outcome)
    ensures |Prepend(id, r, o).recorded| == 1 + |o.recorded| && Prepend(id, r, o).recorded[0] == (id, r)
    ensures forall k :: 0 <= k < |o.recorded| ==> Prepend(id, r, o).recorded[k + 1] == o.recorded[k]
  {
  }

  lemma StopFresh(st: Setting, turn: Turn, s: Sched, tried: seq<string>, last: Option<LastError>)
    ensures match Attempt(st, turn, s, tried, last)
            case Stop(o) => (forall k :: 0 <= k < |o.recorded| ==> o.recorded[k].0 !in tried)
                            && (o.recorded != [] ==> |o.recorded| == 1 && o.reply.Relay?)
            case Retry(_, _, _, _) => true
  {
    hide Selected, Meddled, RecordedIn, Classify;
  }

  /** A mild failure later in the request is judged by the state the account had before the request. */
  lemma MildAtPrepend(cfg: Config, a: Accounts, b: Accounts, id: string, r: Result, o: Outcome, k: int)
    requires id in a.states && id in b.states && b.states == a.states[id := b.states[id]]
    requires 0 <= k < |o.recorded| && o.recorded[k].0 != id
    ensures MildAt(cfg, b, o, k) <==> MildAt(cfg, a, Prepend(id, r, o), k + 1)
    ensures Prepend(id, r, o).recorded[k + 1] == o.recorded[k]
  {
    hide Mild;
  }

  lemma ExhaustedPrepend(cfg: Config, a: Accounts, b: Accounts, lenient: set<string>, turns: seq<Turn>, id: string,
                         r: Result, o: Outcome)
    requires turns != [] && !r.ok && id in a.states && id in b.states && b.states == a.states[id := b.states[id]]
    requires forall k :: 0 <= k < |o.recorded| ==> o.recorded[k].0 != id
    requires Exhausted(cfg, b, if Mild(cfg, a.states[id], r) then lenient + {id} else lenient, turns[1..], o)
    requires o.reply.Relay? ==> o.recorded != []
    ensures Exhausted(cfg, a, lenient, turns, Prepend(id, r, o))
  {
    var p := Prepend(id, r, o);
    assert |o.tried| < |turns[1..]| ==> turns[1..][|o.tried|] == turns[|p.tried|];
    hide Healthy, HealthyIn, Mild;
    if o.reply.GaveUp? && o.reply.why.Repeated? && o.reply.why.id !in lenient {
      if o.reply.why.id == id && Mild(cfg, a.states[id], r) {
        assert MildAt(cfg, a, p, 0);
      } else {
        var k :| MildAt(cfg, b, o, k) && o.recorded[k].0 == o.reply.why.id;
        MildAtPrepend(cfg, a, b, id, r, o, k);
      }
    }
  }

  /** A request that ends by relaying has recorded the account it relayed. */
  lemma {:induction false} RelayRecorded(st: Setting, turns: seq<Turn>, s: Sched, tried: seq<string>,
                                         last: Option<LastError>)
    ensures var o := Attempts(st, turns, s, tried, last); o.reply.Relay? ==> o.recorded != []
    decreases |turns|
  {
    hide Selected, Meddled, RecordedIn, Classify;
    if turns != [] {
      AttemptsUnroll(st, turns, s, tried, last);
    }
  }

  lemma RecordedElsewhere(st: Setting, a: Accounts, id: string, r: Result, now: Instant)
    requires id in a.states
    ensures var b := Apply(st.cfg, st.persist, a, Record(id, r, now));
            id in b.states && b.states == a.states[id := b.states[id]]
  {
    hide Snapshot, Recorded;
  }

  lemma {:induction false} AttemptsExhaust(st: Setting, turns: seq<Turn>, s: Sched, tried: seq<string>,
                                           last: Option<LastError>, lenient: set<string>, deadline: Instant)
    requires Undisturbed(turns) && Consistent(s.accounts)
    requires Timely(st.cfg, turns, deadline)
    requires AllBlocked(s.accounts, tried, lenient, deadline)
    ensures Exhausted(st.cfg, s.accounts, lenient, turns, Attempts(st, turns, s, tried, last))
    decreases |turns|
  {
    if turns != [] {
      var turn, rest, a := turns[0], turns[1..], s.accounts;
      assert turn.before == [] && turn.between == [] && Undisturbed(rest);
      assert TimelyTurn(st.cfg, turn, deadline) && Timely(st.cfg, rest, deadline);
      hide Attempts, Attempt, Undisturbed, Timely, Consistent, AllBlocked, Prepend, TotalRequests, Apply, Mild;
      AttemptsUnroll(st, turns, s, tried, last);
      AttemptUndisturbed(st, turn, s, tried, last);
      EffectCounts(st, turn, a, Attempt(st, turn, s, tried, last));
      RetryFails(st, turn, s, tried, last);
      StopReason(st, turn, s, tried, last, lenient, deadline);
      match Attempt(st, turn, s, tried, last) {
        case Stop(_) =>
        case Retry(id, r, t, err) =>
          hide TimelyTurn, Exhausted, Healthy;
          var o := Attempts(st, rest, t, tried + [id], Some(err));
          FailureBlocks(st, turn, a, tried, lenient, id, r, deadline);
          AttemptsExhaust(st, rest, t, tried + [id], Some(err),
                          if Mild(st.cfg, a.states[id], r) then lenient + {id} else lenient, deadline);
          forall k | 0 <= k < |o.recorded| ensures o.recorded[k].0 != id {
            RecordedFresh(st, rest, t, tried + [id], Some(err), k);
          }
          RelayRecorded(st, rest, t, tried + [id], Some(err));
          RecordedElsewhere(st, a, id, r, turn.recordAt);
          ExhaustedPrepend(st.cfg, a, t.accounts, lenient, turns, id, r, o);
      }
    }
  }

  /**
   Completeness of failover: if nobody else touches the pool and the request is over before
   the cooldowns it causes, the loop gives up only after three accounts have failed, or when
   no account is healthy, or because it was led back to an account that had failed mildly.
   */
  lemma GivesUpOnlyWhenExhausted(st: Setting, turns: seq<Turn>, s: Sched, deadline: Instant)
    requires |turns| == 3 && Undisturbed(turns) && Consistent(s.accounts)
    requires Timely(st.cfg, turns, deadline)
    ensures Exhausted(st.cfg, s.accounts, {}, turns, Serve(st, turns, s))
  {
    AttemptsExhaust(st, turns, s, [], None, {}, deadline);
    hide Attempts, Exhausted;
  }

  // ----- Sticky requests -----

  /** The clock never goes back and the sticky entry does not expire from one turn to the next. */
  predicate Steady(turns: seq<Turn>) {
    forall k :: 0 <= k < |turns| - 1 ==> turns[k].selectAt <= turns[k + 1].selectAt <= turns[k].selectAt + TTL
  }

  lemma MildKeepsHealthy(st: Setting, a: Accounts, id: string, r: Result, at: Instant, now: Instant, later: Instant)
    requires HealthyIn(a, id, now) && now <= later && Mild(st.cfg, a.states[id], r)
    ensures HealthyIn(Apply(st.cfg, st.persist, a, Record(id, r, at)), id, later)
  {
    hide Snapshot, TruncateErr;
  }

  /** A sticky entry that is fresh and whose account is healthy decides the selection. */
  lemma StickyDecides(c: Cache, q: Request, id: string)
    requires q.key != "" && id != "" && q.key in c && c[q.key].id == id && !Expired(c[q.key], q.now)
    requires HealthyIn(q.accounts, id, q.now)
    ensures SelectOnce(c, q).1 == Some(id)
  {
    hide Choose;
  }

  /** A failed attempt of a sticky request leaves the sticky entry at the account that failed. */
  lemma RetryRemembers(st: Setting, turn: Turn, s: Sched, tried: seq<string>, last: Option<LastError>)
    requires turn.before == [] && turn.between == [] && st.key != ""
    ensures match Attempt(st, turn, s, tried, last)
            case Stop(_) => true
            case Retry(id, _, t, _) => st.key in t.cache && t.cache[st.key] == Entry(id, turn.selectAt)
  {
    assert Meddled(st, s, []) == s;
    var q := Request(st.key, turn.selectAt, s.accounts, turn.draw);
    var (t, selected) := Selected(st, turn, s);
    assert selected == SelectOnce(s.cache, q).1 && t == s.(cache := SelectOnce(s.cache, q).0);
    hide *;
    if selected.Some? {
      RemembersSelected(s.cache, q, selected.value);
      TryKeepsCache(st, turn, t, selected.value);
      AttemptTries(st, turn, s, tried, last);
    } else {
      AttemptTries(st, turn, s, tried, last);
    }
  }

  lemma TryKeepsCache(st: Setting, turn: Turn, t: Sched, id: string)
    requires turn.between == []
    ensures match TryAccount(st, turn, t, id)
            case Stop(_) => true
            case Retry(x, _, u, _) => x == id && u.cache == t.cache
  {
    assert Meddled(st, t, []) == t;
    hide Meddled, Classify, Apply;
  }

  lemma AttemptTries(st: Setting, turn: Turn, s: Sched, tried: seq<string>, last: Option<LastError>)
    ensures var chosen := Selected(st, turn, s);
            Attempt(st, turn, s, tried, last).Stop? ||
            (chosen.1.Some? && Attempt(st, turn, s, tried, last) == TryAccount(st, turn, chosen.0, chosen.1.value))
  {
    hide Selected, TryAccount;
    var (t, selected) := Selected(st, turn, s);
  }

  /** The next selection of a sticky request goes to the account of the sticky entry, if it is healthy. */
  lemma Repeats(st: Setting, turn: Turn, t: Sched, tried: seq<string>, id: string, last: Option<LastError>)
    requires turn.before == [] && st.key != "" && id != "" && id in tried
    requires st.key in t.cache && t.cache[st.key].id == id && !Expired(t.cache[st.key], turn.selectAt)
    requires HealthyIn(t.accounts, id, turn.selectAt)
    ensures var step := Attempt(st, turn, t, tried, last);
            step.Stop? && step.outcome.tried == [] && step.outcome.recorded == []
            && step.outcome.reply == GaveUp(last, Repeated(id)) && step.outcome.sched.accounts == t.accounts
  {
    assert Meddled(st, t, []) == t;
    StickyDecides(t.cache, Request(st.key, turn.selectAt, t.accounts, turn.draw), id);
    hide Meddled, SelectOnce, HealthyIn;
  }

  lemma SteadyRest(turns: seq<Turn>)
    requires turns != [] && Steady(turns)
    ensures Steady(turns[1..])
  {
    forall k | 0 <= k < |turns[1..]| - 1
      ensures turns[1..][k].selectAt <= turns[1..][k + 1].selectAt <= turns[1..][k].selectAt + TTL
    {
      var j := k + 1;
      assert turns[j].selectAt <= turns[j + 1].selectAt <= turns[j].selectAt + TTL;
    }
  }

  /** After a mild failure a sticky request is led back to the account that failed. */
  lemma MildThenRepeats(st: Setting, turn: Turn, next: Turn, s: Sched, tried: seq<string>, last: Option<LastError>)
    requires turn.before == [] && turn.between == [] && next.before == [] && Consistent(s.accounts)
    requires st.key != "" && "" !in s.accounts.states
    requires turn.selectAt <= next.selectAt <= turn.selectAt + TTL
    ensures match Attempt(st, turn, s, tried, last)
            case Stop(_) => true
            case Retry(id, r, t, err) =>
              id in s.accounts.states && (Mild(st.cfg, s.accounts.states[id], r) ==>
                var then_ := Attempt(st, next, t, tried + [id], Some(err));
                then_.Stop? && then_.outcome.tried == [] && then_.outcome.recorded == []
                && then_.outcome.reply == GaveUp(Some(err), Repeated(id)) && then_.outcome.sched.accounts == t.accounts)
  {
    AttemptUndisturbed(st, turn, s, tried, last);
    hide Attempt, Consistent, Apply, Healthy, Mild;
    RetryRemembers(st, turn, s, tried, last);
    match Attempt(st, turn, s, tried, last) {
      case Stop(_) =>
      case Retry(id, r, t, err) =>
        if Mild(st.cfg, s.accounts.states[id], r) {
          hide AttemptEffect;
          MildKeepsHealthy(st, s.accounts, id, r, turn.recordAt, turn.selectAt, next.selectAt);
          Repeats(st, next, t, tried + [id], id, Some(err));
        }
    }
  }

  /** The accounts of the pool after an undisturbed attempt that failed. */
  lemma RetryAccounts(st: Setting, turn: Turn, s: Sched, tried: seq<string>, last: Option<LastError>)
    requires turn.before == [] && turn.between == [] && Consistent(s.accounts)
    ensures match Attempt(st, turn, s, tried, last)
            case Stop(_) => true
            case Retry(id, _, t, _) =>
              && id in s.accounts.states && id in t.accounts.states && Consistent(t.accounts)
              && t.accounts.states == s.accounts.states[id := t.accounts.states[id]]
  {
    AttemptUndisturbed(st, turn, s, tried, last);
    hide Attempt, Consistent, Apply, Healthy;
    match Attempt(st, turn, s, tried, last) {
      case Stop(_) =>
      case Retry(id, r, t, _) =>
        RecordedElsewhere(st, s.accounts, id, r, turn.recordAt);
        ApplyConsistent(st.cfg, st.persist, s.accounts, Record(id, r, turn.recordAt));
    }
  }

  lemma TurnFacts(turns: seq<Turn>)
    requires Undisturbed(turns) && Steady(turns) && |turns| > 1
    ensures Undisturbed(turns[1..]) && Steady(turns[1..])
    ensures turns[0].before == [] && turns[0].between == [] && turns[1..][0].before == []
    ensures turns[0].selectAt <= turns[1..][0].selectAt <= turns[0].selectAt + TTL
  {
    SteadyRest(turns);
    assert turns[1..][0] == turns[1];
  }

  /** What decides how an attempt fails: the account selected has no token, or upstream refuses the call. */
  predicate Fails(st: Setting, turn: Turn, s: Sched) {
    var (t, id) := Selected(st, turn, s);
    && id.Some?
    && (Store.TokenError(t.list, id.value, turn.ask).Some? || (turn.buildError == None && turn.upstream.Failed?))
  }

  /**
   The account selected has a token, and upstream refuses the call for a reason that is no
   authorisation, credit or rate failure, while the account is still below the threshold.
   */
  predicate FailsMildly(st: Setting, turn: Turn, s: Sched) {
    var (t, id) := Selected(st, turn, s);
    && id.Some? && id.value in s.accounts.states
    && Store.TokenError(t.list, id.value, turn.ask) == None && turn.buildError == None && turn.upstream.Failed?
    && Classify(turn.upstream.e).0 !in {AuthDead, NoCredit, RateLimited}
    && s.accounts.states[id.value].errCount + 1 < st.cfg.errThreshold
  }

  /** The scheduler after the selected account has been tried. */
  function AfterTry(st: Setting, turn: Turn, s: Sched): Sched {
    var (t, id) := Selected(st, turn, s);
    match id
    case None => t
    case Some(x) =>
      match TryAccount(st, turn, t, x)
      case Stop(o) => o.sched
      case Retry(_, _, u, _) => u
  }

  /** Some attempt but the last one allowed fails mildly, and those before it fail otherwise. */
  predicate LedBack(st: Setting, turns: seq<Turn>, s: Sched)
    decreases |turns|
  {
    && |turns| > 1 && Fails(st, turns[0], s)
    && (FailsMildly(st, turns[0], s) || LedBack(st, turns[1..], AfterTry(st, turns[0], s)))
  }

  /** An undisturbed attempt at an account not tried before asks for another exactly if it fails. */
  lemma AttemptFails(st: Setting, turn: Turn, s: Sched, tried: seq<string>, last: Option<LastError>)
    requires turn.between == []
    requires var id := Selected(st, turn, s).1; id.Some? ==> id.value !in tried
    ensures match Attempt(st, turn, s, tried, last)
            case Stop(_) => !Fails(st, turn, s)
            case Retry(id, r, t, _) =>
              && Fails(st, turn, s) && t == AfterTry(st, turn, s)
              && (id in s.accounts.states ==> (FailsMildly(st, turn, s) <==> Mild(st.cfg, s.accounts.states[id], r)))
  {
    var t := Selected(st, turn, s).0;
    assert Meddled(st, t, []) == t;
    hide Selected, Meddled, RecordedIn, Classify, Store.TokenError, Store.AfterToken;
  }

  /** With every account tried out of service, the selection leads to a new one. */
  lemma SelectsAnew(st: Setting, turn: Turn, s: Sched, tried: seq<string>, deadline: Instant)
    requires turn.before == [] && Consistent(s.accounts) && AllBlocked(s.accounts, tried, {}, deadline)
    requires 0 <= turn.selectAt <= deadline
    ensures var id := Selected(st, turn, s).1; id.Some? ==> id.value !in tried
  {
    SelectedSound(st, turn, s);
    hide Selected, HealthyIn, Consistent;
    var id := Selected(st, turn, s).1;
    assert id.Some? && id.value in tried ==> Blocked(s.accounts, id.value, deadline);
  }

  predicate EndsRepeated(o: Outcome) {
    o.reply.GaveUp? && o.reply.why.Repeated?
  }

  lemma EndsRepeatedMeans(o: Outcome)
    ensures EndsRepeated(o) <==> o.reply.GaveUp? && o.reply.why.Repeated?
  {
  }

  lemma LedBackUnroll(st: Setting, turns: seq<Turn>, s: Sched)
    ensures LedBack(st, turns, s) <==>
            && |turns| > 1 && Fails(st, turns[0], s)
            && (FailsMildly(st, turns[0], s) || LedBack(st, turns[1..], AfterTry(st, turns[0], s)))
  {
    hide Fails, FailsMildly, AfterTry;
  }

  lemma FirstTurn(st: Setting, turns: seq<Turn>, deadline: Instant)
    requires turns != [] && Undisturbed(turns) && Steady(turns) && Timely(st.cfg, turns, deadline)
    ensures turns[0].before == [] && turns[0].between == [] && TimelyTurn(st.cfg, turns[0], deadline)
    ensures 0 <= turns[0].selectAt <= deadline
    ensures Undisturbed(turns[1..]) && Steady(turns[1..]) && Timely(st.cfg, turns[1..], deadline)
  {
    SteadyRest(turns);
    hide Steady;
  }

  /** A failure that is not mild takes its account out of service. */
  lemma RetryBlocks(st: Setting, turn: Turn, s: Sched, tried: seq<string>, last: Option<LastError>, deadline: Instant)
    requires turn.before == [] && turn.between == [] && TimelyTurn(st.cfg, turn, deadline) && Consistent(s.accounts)
    requires AllBlocked(s.accounts, tried, {}, deadline) && !FailsMildly(st, turn, s)
    requires var id := Selected(st, turn, s).1; id.Some? ==> id.value !in tried
    ensures match Attempt(st, turn, s, tried, last)
            case Stop(_) => true
            case Retry(id, _, t, _) => AllBlocked(t.accounts, tried + [id], {}, deadline)
  {
    AttemptUndisturbed(st, turn, s, tried, last);
    hide Attempt, Selected, FailsMildly, Fails, AfterTry, TimelyTurn, AllBlocked, Consistent, Apply, Mild, Healthy;
    AttemptFails(st, turn, s, tried, last);
    RetryFails(st, turn, s, tried, last);
    match Attempt(st, turn, s, tried, last) {
      case Stop(_) =>
      case Retry(id, r, _, _) => FailureBlocks(st, turn, s.accounts, tried, {}, id, r, deadline);
    }
  }

  lemma {:induction false} AttemptsLedBack(st: Setting, turns: seq<Turn>, s: Sched, tried: seq<string>,
                                           last: Option<LastError>, deadline: Instant)
    requires Undisturbed(turns) && Steady(turns) && Consistent(s.accounts) && st.key != "" && "" !in s.accounts.states
    requires Timely(st.cfg, turns, deadline) && AllBlocked(s.accounts, tried, {}, deadline)
    ensures EndsRepeated(Attempts(st, turns, s, tried, last)) <==> LedBack(st, turns, s)
    decreases |turns|
  {
    hide *;
    LedBackUnroll(st, turns, s);
    EndsRepeatedMeans(Attempts(st, turns, s, tried, last));
    if turns == [] {
      NoTurns(st, s, tried, last);
    } else {
      var turn, rest := turns[0], turns[1..];
      FirstTurn(st, turns, deadline);
      AttemptsUnroll(st, turns, s, tried, last);
      SelectsAnew(st, turn, s, tried, deadline);
      AttemptFails(st, turn, s, tried, last);
      match Attempt(st, turn, s, tried, last) {
        case Stop(_) => StopReason(st, turn, s, tried, last, {}, deadline);
        case Retry(id, r, t, err) =>
          RetryAccounts(st, turn, s, tried, last);
          PrependLength(id, r, Attempts(st, rest, t, tried + [id], Some(err)));
          if rest == [] {
            NoTurns(st, t, tried + [id], Some(err));
          } else if FailsMildly(st, turn, s) {
            AttemptsUnroll(st, rest, t, tried + [id], Some(err));
            TurnFacts(turns);
            MildThenRepeats(st, turn, rest[0], s, tried, last);
          } else {
            RetryBlocks(st, turn, s, tried, last, deadline);
            AttemptsLedBack(st, rest, t, tried + [id], Some(err), deadline);
            EndsRepeatedMeans(Attempts(st, rest, t, tried + [id], Some(err)));
          }
      }
    }
  }

  /**
   The limit of failover, exactly: an undisturbed sticky request that is over before the
   cooldowns it causes is led back to an account it has already tried if and only if its
   first attempt fails mildly, or fails otherwise and its second attempt fails mildly.
   */
  lemma MildFailureStops(st: Setting, turns: seq<Turn>, s: Sched, deadline: Instant)
    requires |turns| == 3 && Undisturbed(turns) && Steady(turns) && Consistent(s.accounts)
    requires st.key != "" && "" !in s.accounts.states && Timely(st.cfg, turns, deadline)
    ensures EndsRepeated(Serve(st, turns, s)) <==> LedBack(st, turns, s)
  {
    AttemptsLedBack(st, turns, s, [], None, deadline);
    hide Attempts, LedBack;
  }

  /** If the first attempt fails mildly it stays the only one, and the reply is its error. */
  lemma FirstMildFailure(st: Setting, turns: seq<Turn>, s: Sched)
    requires |turns| == 3 && Undisturbed(turns) && Steady(turns) && Consistent(s.accounts)
    requires st.key != "" && "" !in s.accounts.states && FailsMildly(st, turns[0], s)
    ensures var o, id := Serve(st, turns, s), Selected(st, turns[0], s).1.value;
      && o.tried == [id]
      && o.reply == GaveUp(Some(CallFailed(turns[0].upstream.e)), Repeated(id))
      && forall x :: x != id && x in s.accounts.states ==>
           x in o.sched.accounts.states && o.sched.accounts.states[x] == s.accounts.states[x]
  {
    hide *;
    var turn, rest := turns[0], turns[1..];
    ServeIs(st, turns, s);
    TurnFacts(turns);
    MildError(st, turn, s);
    AttemptFails(st, turn, s, [], None);
    AttemptsUnroll(st, turns, s, [], None);
    RetryAccounts(st, turn, s, [], None);
    MildThenRepeats(st, turn, rest[0], s, [], None);
    match Attempt(st, turn, s, [], None) {
      case Stop(_) =>
      case Retry(id, r, t, err) =>
        AttemptsUnroll(st, rest, t, [] + [id], Some(err));
        PrependLength(id, r, Attempts(st, rest, t, [] + [id], Some(err)));
        PrependTried(id, r, Attempts(st, rest, t, [] + [id], Some(err)));
    }
  }

  lemma ServeIs(st: Setting, turns: seq<Turn>, s: Sched)
    requires |turns| == 3
    ensures Serve(st, turns, s) == Attempts(st, turns, s, [], None)
  {
  }

  lemma PrependTried(id: string, r: Result, o: Outcome)
    ensures Prepend(id, r, o).tried == [id] + o.tried
  {
  }

  lemma MildError(st: Setting, turn: Turn, s: Sched)
    requires turn.between == [] && FailsMildly(st, turn, s)
    ensures var step := Attempt(st, turn, s, [], None);
            step.Retry? && Some(step.id) == Selected(st, turn, s).1 && step.error == CallFailed(turn.upstream.e)
  {
    var t := Selected(st, turn, s).0;
    assert Meddled(st, t, []) == t;
    hide Selected, Meddled, RecordedIn, Classify, Store.TokenError, Store.AfterToken;
  }

  /** The pool of two healthy accounts, with a conversation that sticks to the first. */
  function TwoAccounts(a: Store.Account, b: Store.Account, now: Instant): Sched {
    Sched(Accounts(map["uid:a" := NewState("uid:a"), "uid:b" := NewState("uid:b")], ["uid:a", "uid:b"], None),
          map["key" := Entry("uid:a", now)], [a, b])
  }

  function BuiltIn(): Setting {
    Setting(Defaults(Config(0, 0, 0, 0)), false, "key")
  }

  /** An attempt at time `now` that upstream answers with status 500. */
  function Refused(now: Instant): Turn {
    Turn([], now, 0.0, Store.Ask(0, Store.RefreshFailed(""), None), None, Failed(Http(500, "")), [], now)
  }

  lemma TwoAccountsSelected(a: Store.Account, b: Store.Account, now: Instant)
    ensures var s := TwoAccounts(a, b, now);
            Selected(BuiltIn(), Refused(now), s).1 == Some("uid:a")
            && Selected(BuiltIn(), Refused(now), s).0.list == [a, b]
  {
    var s := TwoAccounts(a, b, now);
    assert Meddled(BuiltIn(), s, []) == s;
    StickyDecides(s.cache, Request("key", now, s.accounts, 0.0), "uid:a");
    hide SelectOnce, Meddled;
  }

  lemma HasToken(a: Store.Account, b: Store.Account)
    requires a.userId == "a" && a.token == "t" && a.expireAtMs == 0
    ensures Store.TokenError([a, b], "uid:a", Store.Ask(0, Store.RefreshFailed(""), None)) == None
  {
    assert Text.TrimSpace("a") == "a" && Text.TrimSpace("t") == "t" && "uid:" + "a" == "uid:a";
    assert Store.AccountId(a) == "uid:a";
  }

  lemma ServerErrorIsMild()
    ensures Classify(Http(500, "")) == (Transient, "")
  {
    assert ToLower("") == "";
    assert forall word: string :: |word| > 0 ==> !Contains("", word);
  }

  lemma TwoAccountsConsistent(a: Store.Account, b: Store.Account, now: Instant)
    ensures Consistent(TwoAccounts(a, b, now).accounts)
  {
    var x, y := "uid:a", "uid:b";
    assert x[1..][1..][1..][1..] == "a" && y[1..][1..][1..][1..] == "b";
    assert Ordering.Less(x[1..][1..][1..], y[1..][1..][1..]);
    assert Ordering.Less(x, y);
  }

  lemma TwoAccountsFailMildly(a: Store.Account, b: Store.Account, now: Instant)
    requires a.userId == "a" && a.token == "t" && a.expireAtMs == 0
    ensures FailsMildly(BuiltIn(), Refused(now), TwoAccounts(a, b, now))
  {
    TwoAccountsSelected(a, b, now);
    HasToken(a, b);
    ServerErrorIsMild();
    hide Selected, Classify, Store.TokenError;
  }

  lemma TwoAccountsState(a: Store.Account, b: Store.Account, now: Instant)
    ensures var s := TwoAccounts(a, b, now).accounts;
            "" !in s.states && HealthyIn(s, "uid:b", now) && s.states["uid:b"] == NewState("uid:b")
  {
    assert |"uid:a"| == 5 && |"uid:b"| == 5;
  }

  lemma RefusedSteady(now: Instant, turns: seq<Turn>)
    requires turns == [Refused(now), Refused(now), Refused(now)]
    ensures Undisturbed(turns) && Steady(turns) && Refused(now).upstream == Failed(Http(500, ""))
  {
  }

  lemma SettingSticky()
    ensures BuiltIn().key != ""
  {
  }

  /**
   A request that shows it: two healthy accounts, a conversation that sticks to the first,
   and an answer 500. The request fails although the second account was never asked.
   */
  lemma StickyRequestFails(a: Store.Account, b: Store.Account, now: Instant)
    requires a.userId == "a" && a.token == "t" && a.expireAtMs == 0
    ensures var s := TwoAccounts(a, b, now);
            var o := Serve(BuiltIn(), [Refused(now), Refused(now), Refused(now)], s);
      && HealthyIn(s.accounts, "uid:b", now)
      && o.tried == ["uid:a"] && o.reply == GaveUp(Some(CallFailed(Http(500, ""))), Repeated("uid:a"))
      && "uid:b" in o.sched.accounts.states && o.sched.accounts.states["uid:b"] == NewState("uid:b")
  {
    var s, turns := TwoAccounts(a, b, now), [Refused(now), Refused(now), Refused(now)];
    hide *;
    SettingSticky();
    TwoAccountsSelected(a, b, now);
    TwoAccountsFailMildly(a, b, now);
    TwoAccountsConsistent(a, b, now);
    TwoAccountsState(a, b, now);
    RefusedSteady(now, turns);
    FirstMildFailure(BuiltIn(), turns, s);
    assert "uid:b"[4] != "uid:a"[4];
  }
}
