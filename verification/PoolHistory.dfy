/**
 What an account's record says about its past, over every run of the pool: recording,
 reviving, refreshing the account list, and restarting from the state file.
 */
module PoolHistory {
  import opened Wrappers
  import opened Ordering
  import opened PoolModel
  import opened Selection

  /** What can happen to one account. */
  datatype Deed = Did(result: Result, now: Instant) | WasRevived

  predicate Failure(d: Deed) {
    d.Did? && !d.result.ok
  }

  predicate Request(d: Deed) {
    d.Did?
  }

  predicate Success(d: Deed) {
    d.Did? && d.result.ok
  }

  // ----- What a history determines -----

  /** Length of the run of failures the history ends with. */
  function TrailingFailures(h: seq<Deed>): nat {
    if h == [] || !Failure(Last(h)) then 0 else 1 + TrailingFailures(Init(h))
  }

  lemma {:induction false} TrailingFailuresMeans(h: seq<Deed>)
    ensures var n := TrailingFailures(h);
      && n <= |h|
      && (forall k :: |h| - n <= k < |h| ==> Failure(h[k]))
      && (n < |h| ==> !Failure(h[|h| - n - 1]))
  {
    if h != [] && Failure(Last(h)) {
      TrailingFailuresMeans(Init(h));
    }
  }

  function Count(h: seq<Deed>, which: Deed -> bool): nat {
    if h == [] then 0 else Count(Init(h), which) + if which(Last(h)) then 1 else 0
  }

  function Sum(h: seq<Deed>, amount: Deed -> int): int {
    if h == [] then 0 else Sum(Init(h), amount) + amount(Last(h))
  }

  function InTokens(d: Deed): int {
    if Success(d) then d.result.tokensIn else 0
  }

  function OutTokens(d: Deed): int {
    if Success(d) then d.result.tokensOut else 0
  }

  /** No revival at or after position `k`. */
  predicate SinceRevival(h: seq<Deed>, k: int) {
    forall j :: k <= j < |h| && 0 <= j ==> h[j].Did?
  }

  /** The deed at `k` put the account on cooldown. */
  predicate SetsCooldown(cfg: Config, h: seq<Deed>, k: nat)
    requires k < |h|
  {
    && Failure(h[k])
    && match h[k].result.class_
       case NoCredit => true
       case RateLimited => true
       case AuthDead => false
       case _ => TrailingFailures(h[..k + 1]) >= cfg.errThreshold
  }

  function Deadline(cfg: Config, d: Deed): Instant
    requires Failure(d)
  {
    d.now + match d.result.class_
            case NoCredit => cfg.creditCooldown
            case RateLimited => cfg.rateCooldown
            case _ => cfg.errCooldown
  }

  /** The position of the deed whose cooldown counts: the latest one since the last revival. */
  predicate CooldownFrom(cfg: Config, h: seq<Deed>, k: int) {
    && 0 <= k < |h|
    && SinceRevival(h, k)
    && SetsCooldown(cfg, h, k)
    && forall j :: k < j < |h| ==> !SetsCooldown(cfg, h, j)
  }

  predicate KilledAt(h: seq<Deed>, k: int) {
    0 <= k < |h| && SinceRevival(h, k) && Failure(h[k]) && h[k].result.class_ == AuthDead
  }

  /** `until` is the deadline of the cooldown that counts, or the zero time if none does. */
  ghost predicate CooldownDescribed(cfg: Config, h: seq<Deed>, until: Instant) {
    && (forall k :: CooldownFrom(cfg, h, k) ==> until == Deadline(cfg, h[k]))
    && ((forall k :: !CooldownFrom(cfg, h, k)) ==> until == ZERO_TIME)
  }

  ghost predicate CountersDescribed(h: seq<Deed>, s: State) {
    && s.reqCount == Count(h, Request)
    && s.okCount == Count(h, Success)
    && s.totalIn == Sum(h, InTokens)
    && s.totalOut == Sum(h, OutTokens)
  }

  /** The latest deed of a kind. */
  function Latest(h: seq<Deed>, which: Deed -> bool): (d: Option<Deed>)
    ensures d.Some? ==> which(d.value)
  {
    if h == [] then None else if which(Last(h)) then Some(Last(h)) else Latest(Init(h), which)
  }

  /** When the account was last used, and how it last failed; a revival forgets neither. */
  ghost predicate LatestDescribed(h: seq<Deed>, s: State) {
    && s.lastUsed == (match Latest(h, Request) case Some(d) => d.now case None => ZERO_TIME)
    && s.lastErr == (match Latest(h, Failure) case Some(d) => TruncateErr(d.result.message) case None => "")
    && s.lastErrAt == (match Latest(h, Failure) case Some(d) => d.now case None => ZERO_TIME)
  }

  /** Every field of `s` but the reason text, read off the history. */
  ghost predicate Describes(cfg: Config, h: seq<Deed>, s: State) {
    && LatestDescribed(h, s)
    && (s.disabledReason == "" <==> !s.disabled)
    && (s.disabled <==> exists k :: KilledAt(h, k))
    && CooldownDescribed(cfg, h, s.cooldownUntil)
    && s.errCount == TrailingFailures(h)
    && CountersDescribed(h, s)
  }

  /** The record of an account with history `h`, deed by deed. */
  function StateAfter(cfg: Config, id: string, h: seq<Deed>): (s: State)
    ensures s.id == id
  {
    if h == [] then NewState(id)
    else
      match Last(h)
      case Did(r, now) => Recorded(cfg, StateAfter(cfg, id, Init(h)), r, now)
      case WasRevived => Revived(StateAfter(cfg, id, Init(h)))
  }

  lemma SinceRevivalSnoc(h: seq<Deed>, d: Deed, k: int)
    requires k <= |h|
    ensures SinceRevival(h + [d], k) <==> d.Did? && (0 <= k ==> SinceRevival(h, k)) && (k < 0 ==> SinceRevival(h, 0))
  {
    var more := h + [d];
    assert more[|h|] == d;
    assert forall j :: 0 <= j < |h| ==> more[j] == h[j];
  }

  lemma SetsCooldownSnoc(cfg: Config, h: seq<Deed>, d: Deed, k: nat)
    requires k < |h|
    ensures SetsCooldown(cfg, h + [d], k) <==> SetsCooldown(cfg, h, k)
  {
    assert (h + [d])[..k + 1] == h[..k + 1];
  }

  /** The deed that sets the cooldown after one more deed. */
  lemma CooldownFromSnoc(cfg: Config, h: seq<Deed>, d: Deed, k: int)
    ensures CooldownFrom(cfg, h + [d], k) <==>
            if k == |h| then SetsCooldown(cfg, h + [d], |h|)
            else d.Did? && !SetsCooldown(cfg, h + [d], |h|) && CooldownFrom(cfg, h, k)
  {
    var more := h + [d];
    if 0 <= k < |h| {
      SinceRevivalSnoc(h, d, k);
      forall j | 0 <= j < |h| ensures SetsCooldown(cfg, more, j) <==> SetsCooldown(cfg, h, j) {
        SetsCooldownSnoc(cfg, h, d, j);
      }
    }
    hide TrailingFailures;
  }

  lemma KilledAtSnoc(h: seq<Deed>, d: Deed, k: int)
    ensures KilledAt(h + [d], k) <==>
            if k == |h| then Failure(d) && d.result.class_ == AuthDead else d.Did? && KilledAt(h, k)
  {
    if 0 <= k < |h| {
      SinceRevivalSnoc(h, d, k);
    }
  }

  lemma CooldownStep(cfg: Config, h: seq<Deed>, d: Deed, until: Instant)
    requires CooldownDescribed(cfg, h, until)
    ensures CooldownDescribed(cfg, h + [d],
              if SetsCooldown(cfg, h + [d], |h|) then Deadline(cfg, d) else if d.Did? then until else ZERO_TIME)
  {
    var more := h + [d];
    forall k ensures CooldownFrom(cfg, more, k) <==>
                     if k == |h| then SetsCooldown(cfg, more, |h|)
                     else d.Did? && !SetsCooldown(cfg, more, |h|) && CooldownFrom(cfg, h, k) {
      CooldownFromSnoc(cfg, h, d, k);
    }
    if SetsCooldown(cfg, more, |h|) {
      assert CooldownFrom(cfg, more, |h|);
    } else if d.Did? {
      forall k ensures CooldownFrom(cfg, more, k) <==> CooldownFrom(cfg, h, k) {
        assert !CooldownFrom(cfg, h, |h|);
      }
      forall k | CooldownFrom(cfg, more, k) ensures until == Deadline(cfg, more[k]) {
        assert CooldownFrom(cfg, h, k) && more[k] == h[k];
      }
    }
    hide CooldownFrom, SetsCooldown;
  }

  lemma DisabledStep(h: seq<Deed>, d: Deed)
    ensures (exists k :: KilledAt(h + [d], k)) <==>
            (Failure(d) && d.result.class_ == AuthDead) || (d.Did? && exists k :: KilledAt(h, k))
  {
    forall k ensures KilledAt(h + [d], k) <==>
                     if k == |h| then Failure(d) && d.result.class_ == AuthDead else d.Did? && KilledAt(h, k) {
      KilledAtSnoc(h, d, k);
    }
    if Failure(d) && d.result.class_ == AuthDead {
      assert KilledAt(h + [d], |h|);
    } else if d.Did? && exists k :: KilledAt(h, k) {
      var k :| KilledAt(h, k);
      assert k != |h|;
      assert KilledAt(h + [d], k);
    }
    hide SinceRevival;
  }

  function Next(cfg: Config, s: State, d: Deed): State {
    match d
    case Did(r, now) => Recorded(cfg, s, r, now)
    case WasRevived => Revived(s)
  }

  lemma TrailingFailuresSnoc(h: seq<Deed>, d: Deed)
    ensures TrailingFailures(h + [d]) == if Failure(d) then TrailingFailures(h) + 1 else 0
  {
    assert Init(h + [d]) == h;
  }

  lemma CountSnoc(h: seq<Deed>, d: Deed, which: Deed -> bool)
    ensures Count(h + [d], which) == Count(h, which) + if which(d) then 1 else 0
  {
    assert Init(h + [d]) == h && Last(h + [d]) == d;
  }

  lemma SumSnoc(h: seq<Deed>, d: Deed, amount: Deed -> int)
    ensures Sum(h + [d], amount) == Sum(h, amount) + amount(d)
  {
    assert Init(h + [d]) == h && Last(h + [d]) == d;
  }

  lemma CountersStep(cfg: Config, h: seq<Deed>, d: Deed, s: State)
    requires CountersDescribed(h, s)
    ensures CountersDescribed(h + [d], Next(cfg, s, d))
  {
    CountSnoc(h, d, Request);
    CountSnoc(h, d, Success);
    SumSnoc(h, d, InTokens);
    SumSnoc(h, d, OutTokens);
    hide TruncateErr, Count, Sum;
  }

  lemma LatestStep(cfg: Config, h: seq<Deed>, d: Deed, s: State)
    requires LatestDescribed(h, s) && (s.disabledReason == "" <==> !s.disabled)
    ensures var t := Next(cfg, s, d);
            LatestDescribed(h + [d], t) && (t.disabledReason == "" <==> !t.disabled)
  {
    assert Init(h + [d]) == h && Last(h + [d]) == d;
    hide TruncateErr;
  }

  lemma {:induction false} LastSetsCooldown(cfg: Config, h: seq<Deed>, d: Deed)
    ensures SetsCooldown(cfg, h + [d], |h|) <==>
            Failure(d) && match d.result.class_
                          case NoCredit => true
                          case RateLimited => true
                          case AuthDead => false
                          case _ => TrailingFailures(h) + 1 >= cfg.errThreshold
  {
    TrailingFailuresSnoc(h, d);
    assert (h + [d])[..|h| + 1] == h + [d];
    hide TrailingFailures;
  }

  /** What one more deed does to the scheduling fields. */
  lemma {:induction false} SchedulingStep(cfg: Config, h: seq<Deed>, d: Deed, s: State)
    requires s.errCount == TrailingFailures(h)
    ensures var t := Next(cfg, s, d);
      && t.errCount == TrailingFailures(h + [d])
      && t.cooldownUntil ==
         (if SetsCooldown(cfg, h + [d], |h|) then Deadline(cfg, d) else if d.Did? then s.cooldownUntil else ZERO_TIME)
      && (t.disabled <==> (Failure(d) && d.result.class_ == AuthDead) || (d.Did? && s.disabled))
  {
    TrailingFailuresSnoc(h, d);
    LastSetsCooldown(cfg, h, d);
    hide TruncateErr, TrailingFailures, SetsCooldown;
  }

  /** The record of every account says exactly what its history determines. */
  lemma {:induction false} StateDescribed(cfg: Config, id: string, h: seq<Deed>)
    ensures Describes(cfg, h, StateAfter(cfg, id, h))
  {
    if h != [] {
      var before, d := Init(h), Last(h);
      assert h == before + [d];
      var s := StateAfter(cfg, id, before);
      assert StateAfter(cfg, id, h) == Next(cfg, s, d);
      StateDescribed(cfg, id, before);
      DisabledStep(before, d);
      CooldownStep(cfg, before, d, s.cooldownUntil);
      SchedulingStep(cfg, before, d, s);
      CountersStep(cfg, before, d, s);
      LatestStep(cfg, before, d, s);
      hide LatestDescribed, KilledAt, CooldownDescribed, SetsCooldown, CountersDescribed, Next, StateAfter,
          TrailingFailures, Deadline;
    }
  }

  // ----- Histories over whole runs -----

  predicate InPool(persist: bool, ops: seq<Op>, id: string)
    decreases |ops|, 1
  {
    Live(persist, ops, id).Some?
  }

  /** What has happened to an account since it last entered the pool; none if it is not in the pool. */
  function Live(persist: bool, ops: seq<Op>, id: string): Option<seq<Deed>>
    decreases |ops|, 0
  {
    if ops == [] then None
    else
      var before := Init(ops);
      var h := Live(persist, before, id);
      match Last(ops)
      case Record(who, r, now) => if who == id && h.Some? then Some(h.value + [Did(r, now)]) else h
      case Revive(who) => if who == id && h.Some? then Some(h.value + [WasRevived]) else h
      case Refresh(ids) => if id !in ids then None else if h.Some? then h else Some([])
      case Restart(ids) =>
        if id !in ids then None
        else if persist && Stored(persist, before, id).Some? then Stored(persist, before, id) else Some([])
  }

  /** Whether `op`, after `before`, writes the state file. */
  predicate Saves(persist: bool, before: seq<Op>, op: Op)
    decreases |before|, 2
  {
    persist && match op
               case Record(who, r, _) => !r.ok && InPool(persist, before, who)
               case Revive(who) => InPool(persist, before, who)
               case Refresh(_) => true
               case Restart(_) => false
  }

  /** The part of an account's history the state file knows. */
  function Stored(persist: bool, ops: seq<Op>, id: string): Option<seq<Deed>>
    decreases |ops|, 3
  {
    if ops == [] then None
    else if Saves(persist, Init(ops), Last(ops)) then Live(persist, ops, id)
    else Stored(persist, Init(ops), id)
  }

  /** The states `m` are those of the histories `h`. */
  ghost predicate Matches(cfg: Config, m: States, id: string, h: Option<seq<Deed>>) {
    && (id in m <==> h.Some?)
    && (h.Some? ==> m[id] == StateAfter(cfg, id, h.value))
  }

  ghost predicate RunMatches(cfg: Config, persist: bool, ops: seq<Op>, id: string) {
    && Matches(cfg, Run(cfg, persist, ops).states, id, Live(persist, ops, id))
    && Matches(cfg, Loaded(Run(cfg, persist, ops).file), id, Stored(persist, ops, id))
  }

  lemma StateAfterSnoc(cfg: Config, id: string, h: seq<Deed>, d: Deed)
    ensures StateAfter(cfg, id, h + [d]) == Next(cfg, StateAfter(cfg, id, h), d)
  {
    assert Init(h + [d]) == h && Last(h + [d]) == d;
  }

  /** The effect of one operation on one history, given what the file knew of it. */
  function LiveNext(persist: bool, h: Option<seq<Deed>>, saved: Option<seq<Deed>>, op: Op,
                    id: string): Option<seq<Deed>> {
    match op
    case Record(who, r, now) => if who == id && h.Some? then Some(h.value + [Did(r, now)]) else h
    case Revive(who) => if who == id && h.Some? then Some(h.value + [WasRevived]) else h
    case Refresh(ids) => if id !in ids then None else if h.Some? then h else Some([])
    case Restart(ids) =>
      if id !in ids then None else if persist && saved.Some? then saved else Some([])
  }

  lemma ReportMatches(cfg: Config, persist: bool, a: Accounts, op: Op, id: string,
                      h: Option<seq<Deed>>, saved: Option<seq<Deed>>)
    requires op.Record? || op.Revive?
    requires Matches(cfg, a.states, id, h)
    ensures Matches(cfg, Apply(cfg, persist, a, op).states, id, LiveNext(persist, h, saved, op, id))
  {
    hide Recorded, Revived, StateAfter, Snapshot;
    if h.Some? {
      match op {
        case Record(who, r, now) => StateAfterSnoc(cfg, id, h.value, Did(r, now));
        case Revive(who) => StateAfterSnoc(cfg, id, h.value, WasRevived);
      }
    }
  }

  lemma OpMatches(cfg: Config, persist: bool, a: Accounts, op: Op, id: string,
                  h: Option<seq<Deed>>, saved: Option<seq<Deed>>)
    requires Matches(cfg, a.states, id, h) && Matches(cfg, Loaded(a.file), id, saved)
    ensures Matches(cfg, Apply(cfg, persist, a, op).states, id, LiveNext(persist, h, saved, op, id))
  {
    assert StateAfter(cfg, id, []) == NewState(id);
    hide Recorded, Revived, Loaded, StateAfter, NewState, Sort, Snapshot, Sorted;
    if op.Record? || op.Revive? {
      ReportMatches(cfg, persist, a, op, id, h, saved);
    }
  }

  lemma LiveUnrolled(persist: bool, ops: seq<Op>, id: string)
    requires ops != []
    ensures Live(persist, ops, id) ==
            LiveNext(persist, Live(persist, Init(ops), id), Stored(persist, Init(ops), id), Last(ops), id)
  {
  }

  lemma LiveStep(cfg: Config, persist: bool, ops: seq<Op>, id: string)
    requires ops != [] && RunMatches(cfg, persist, Init(ops), id)
    ensures Matches(cfg, Run(cfg, persist, ops).states, id, Live(persist, ops, id))
  {
    LiveUnrolled(persist, ops, id);
    assert Run(cfg, persist, ops) == Apply(cfg, persist, Run(cfg, persist, Init(ops)), Last(ops));
    hide Run, Apply, Live, Stored, Loaded, LiveNext, Matches;
    OpMatches(cfg, persist, Run(cfg, persist, Init(ops)), Last(ops), id,
              Live(persist, Init(ops), id), Stored(persist, Init(ops), id));
  }

  /** Whether an operation writes the file, and what it leaves there. */
  lemma FileAfter(cfg: Config, persist: bool, a: Accounts, op: Op)
    ensures var b := Apply(cfg, persist, a, op);
            var writes := persist && match op
                                     case Record(who, r, _) => !r.ok && who in a.states
                                     case Revive(who) => who in a.states
                                     case Refresh(_) => true
                                     case Restart(_) => false;
            b.file == if writes then Saved(true, b).file else a.file
  {
    hide Recorded, Revived, Loaded, Sort, Snapshot, Reindexed;
  }

  lemma StoredStep(cfg: Config, persist: bool, ops: seq<Op>, id: string)
    requires ops != [] && RunMatches(cfg, persist, Init(ops), id)
    requires Last(ops).Record? || Last(ops).Revive? ==> RunMatches(cfg, persist, Init(ops), Last(ops).id)
    requires Matches(cfg, Run(cfg, persist, ops).states, id, Live(persist, ops, id))
    ensures Matches(cfg, Loaded(Run(cfg, persist, ops).file), id, Stored(persist, ops, id))
  {
    var a, b := Run(cfg, persist, Init(ops)), Run(cfg, persist, ops);
    assert b == Apply(cfg, persist, a, Last(ops));
    RunConsistent(cfg, persist, ops);
    FileAfter(cfg, persist, a, Last(ops));
    SaveThenLoad(b);
    assert Stored(persist, ops, id) ==
           if Saves(persist, Init(ops), Last(ops)) then Live(persist, ops, id) else Stored(persist, Init(ops), id);
    assert RunMatches(cfg, persist, Init(ops), id);
    var op := Last(ops);
    if op.Record? || op.Revive? {
      assert op.id in a.states <==> InPool(persist, Init(ops), op.id) by {
        assert RunMatches(cfg, persist, Init(ops), op.id);
        hide Run, Loaded, Live, Stored, StateAfter;
      }
    }
    hide Run, Apply, Loaded, Saved, Live, Stored, Consistent, StateAfter, InPool;
    if Saves(persist, Init(ops), op) {
      assert b.file == Saved(true, b).file;
    } else {
      assert b.file == a.file;
    }
  }

  /**
   Every run: the pool holds exactly the accounts with a live history, each in the state
   that history determines; and the state file holds each account as of the history it knows.
   */
  lemma {:induction false} RunIsHistory(cfg: Config, persist: bool, ops: seq<Op>)
    ensures forall id :: RunMatches(cfg, persist, ops, id)
    decreases |ops|
  {
    if ops != [] {
      RunIsHistory(cfg, persist, Init(ops));
      forall id ensures RunMatches(cfg, persist, ops, id) {
        LiveStep(cfg, persist, ops, id);
        StoredStep(cfg, persist, ops, id);
      }
    }
  }

  /** The main statement about live accounts: in every run, every record is described by its history. */
  lemma {:induction false} EveryRecordDescribed(cfg: Config, persist: bool, ops: seq<Op>, id: string)
    ensures id in Run(cfg, persist, ops).states <==> InPool(persist, ops, id)
    ensures InPool(persist, ops, id) ==>
              Describes(cfg, Live(persist, ops, id).value, Run(cfg, persist, ops).states[id])
  {
    RunIsHistory(cfg, persist, ops);
    assert RunMatches(cfg, persist, ops, id);
    if InPool(persist, ops, id) {
      StateDescribed(cfg, id, Live(persist, ops, id).value);
    }
    hide Run, Live, Stored, Loaded, StateAfter, Describes;
  }

  // ----- Crash recovery -----

  predicate AllSuccesses(h: seq<Deed>, from: nat) {
    forall k :: from <= k < |h| ==> Success(h[k])
  }

  /** What the file knows of an account is its history with at most some final successes missing. */
  ghost predicate Lags(saved: Option<seq<Deed>>, h: seq<Deed>) {
    match saved
    case None => AllSuccesses(h, 0)
    case Some(p) => p <= h && AllSuccesses(h, |p|)
  }

  lemma {:induction false} FileLags(ops: seq<Op>, id: string)
    requires InPool(true, ops, id)
    ensures Lags(Stored(true, ops, id), Live(true, ops, id).value)
    decreases |ops|
  {
    var before, op := Init(ops), Last(ops);
    LiveUnrolled(true, ops, id);
    assert Stored(true, ops, id) == if Saves(true, before, op) then Live(true, ops, id) else Stored(true, before, id);
    if InPool(true, before, id) {
      FileLags(before, id);
    }
    hide Live, Stored;
    if InPool(true, before, id) && op.Record? && op.id == id && op.result.ok {
      LagsMore(Stored(true, before, id), Live(true, before, id).value, Did(op.result, op.now));
    }
  }

  lemma LagsMore(saved: Option<seq<Deed>>, h: seq<Deed>, d: Deed)
    requires Lags(saved, h) && Success(d)
    ensures Lags(saved, h + [d])
  {
  }

  /** How a record that missed some final successes compares with the live one. */
  ghost predicate Behind(t: State, s: State, missing: seq<Deed>) {
    && t.disabled == s.disabled && t.disabledReason == s.disabledReason
    && t.cooldownUntil == s.cooldownUntil
    && t.lastErr == s.lastErr && t.lastErrAt == s.lastErrAt
    && t.reqCount == s.reqCount - |missing| && t.okCount == s.okCount - |missing|
    && t.totalIn == s.totalIn - Sum(missing, InTokens) && t.totalOut == s.totalOut - Sum(missing, OutTokens)
    && t.errCount >= 0 && s.errCount == (if missing == [] then t.errCount else 0)
  }

  lemma {:induction false} MissingSuccesses(cfg: Config, id: string, p: seq<Deed>, h: seq<Deed>)
    requires p <= h && AllSuccesses(h, |p|)
    ensures Behind(StateAfter(cfg, id, p), StateAfter(cfg, id, h), h[|p|..])
    decreases |h|
  {
    if |p| == |h| {
      assert p == h && h[|p|..] == [];
      StateDescribed(cfg, id, h);
    } else {
      MissingSuccesses(cfg, id, p, Init(h));
      var d := Last(h);
      assert Success(d) && h[|p|..] == Init(h)[|p|..] + [d];
      SumSnoc(Init(h)[|p|..], d, InTokens);
      SumSnoc(Init(h)[|p|..], d, OutTokens);
      hide Sum, TruncateErr;
    }
  }

  /** How many successes of the account have been recorded since the file was last written or read. */
  function Unsaved(ops: seq<Op>, id: string): nat {
    if ops == [] || Saves(true, Init(ops), Last(ops)) || Last(ops).Restart? then 0
    else
      Unsaved(Init(ops), id)
      + if Last(ops).Record? && Last(ops).id == id && InPool(true, Init(ops), id) then 1 else 0
  }

  /** What the file knows of an account that is in the pool, a new account counting as one without deeds. */
  function Known(saved: Option<seq<Deed>>): seq<Deed> {
    if saved.Some? then saved.value else []
  }

  lemma {:induction false} UnsavedAreMissing(ops: seq<Op>, id: string)
    requires InPool(true, ops, id)
    ensures |Live(true, ops, id).value| - |Known(Stored(true, ops, id))| == Unsaved(ops, id)
    decreases |ops|
  {
    var before, op := Init(ops), Last(ops);
    LiveUnrolled(true, ops, id);
    assert Stored(true, ops, id) == if Saves(true, before, op) then Live(true, ops, id) else Stored(true, before, id);
    if InPool(true, before, id) {
      UnsavedAreMissing(before, id);
    }
    hide Live, Stored;
  }

  /** Before a restart and after it, the record is that of the whole history and of the part the file knows. */
  lemma RestartStates(cfg: Config, ops: seq<Op>, ids: seq<string>, id: string)
    requires InPool(true, ops, id) && id in ids
    ensures var a := Run(cfg, true, ops);
            var b := Apply(cfg, true, a, Restart(ids));
            && id in a.states && a.states[id] == StateAfter(cfg, id, Live(true, ops, id).value)
            && id in b.states && b.states[id] == StateAfter(cfg, id, Known(Stored(true, ops, id)))
  {
    RunIsHistory(cfg, true, ops);
    assert RunMatches(cfg, true, ops, id);
    assert StateAfter(cfg, id, []) == NewState(id);
    hide Run, Live, Stored, Loaded, StateAfter, Sort;
  }

  /**
   Crash recovery: rebuilding the pool from the state file, at any point of any run, keeps
   every account's disabled flag, cooldown and latest failure; the successes recorded since
   the file was last written are forgotten, exactly those, and the record is restored whole
   if and only if there are none.
   */
  lemma CrashRecovery(cfg: Config, ops: seq<Op>, ids: seq<string>, id: string)
    requires InPool(true, ops, id) && id in ids
    ensures var a := Run(cfg, true, ops);
            var b := Apply(cfg, true, a, Restart(ids));
            var h := Live(true, ops, id).value;
            && id in a.states && id in b.states
            && Unsaved(ops, id) <= |h| && AllSuccesses(h, |h| - Unsaved(ops, id))
            && Behind(b.states[id], a.states[id], h[|h| - Unsaved(ops, id)..])
            && (b.states[id] == a.states[id] <==> Unsaved(ops, id) == 0)
  {
    RestartStates(cfg, ops, ids, id);
    FileLags(ops, id);
    UnsavedAreMissing(ops, id);
    hide Run, Live, Stored, StateAfter, Unsaved, Sum, Apply;
    var h, p := Live(true, ops, id).value, Known(Stored(true, ops, id));
    MissingSuccesses(cfg, id, p, h);
    assert |p| == |h| ==> p == h;
  }

  // ----- Counters -----

  lemma {:induction false} FailuresFit(h: seq<Deed>)
    ensures TrailingFailures(h) + Count(h, Success) <= Count(h, Request)
  {
    if h != [] {
      FailuresFit(Init(h));
    }
  }

  /** In every reachable pool the counters fit together. */
  lemma CountersFit(cfg: Config, persist: bool, ops: seq<Op>, id: string)
    requires id in Run(cfg, persist, ops).states
    ensures var s := Run(cfg, persist, ops).states[id];
            0 <= s.okCount && 0 <= s.errCount <= s.reqCount - s.okCount
  {
    EveryRecordDescribed(cfg, persist, ops, id);
    FailuresFit(Live(persist, ops, id).value);
    hide Run, Live, TrailingFailures, Count;
  }

  // ----- Weights in reachable pools -----

  /** No record was made after `t`: the clock reads `t` now and has never gone back. */
  predicate NotAfter(ops: seq<Op>, t: Instant) {
    forall k :: 0 <= k < |ops| && ops[k].Record? ==> ops[k].now <= t
  }

  predicate DeedsNotAfter(h: Option<seq<Deed>>, t: Instant) {
    h.Some? ==> forall k :: 0 <= k < |h.value| && h.value[k].Did? ==> h.value[k].now <= t
  }

  lemma {:induction false} HistoryNotAfter(persist: bool, ops: seq<Op>, id: string, t: Instant)
    requires NotAfter(ops, t)
    ensures DeedsNotAfter(Live(persist, ops, id), t) && DeedsNotAfter(Stored(persist, ops, id), t)
    decreases |ops|
  {
    if ops != [] {
      assert NotAfter(Init(ops), t) && (Last(ops).Record? ==> Last(ops).now <= t);
      HistoryNotAfter(persist, Init(ops), id, t);
      LiveUnrolled(persist, ops, id);
      assert Stored(persist, ops, id) ==
             if Saves(persist, Init(ops), Last(ops)) then Live(persist, ops, id) else Stored(persist, Init(ops), id);
      hide Live, Stored, Saves;
    }
  }

  lemma {:induction false} LastUsedNotAfter(cfg: Config, id: string, h: seq<Deed>, t: Instant)
    requires DeedsNotAfter(Some(h), t) && 0 <= t
    ensures StateAfter(cfg, id, h).lastUsed <= t
  {
    if h != [] {
      LastUsedNotAfter(cfg, id, Init(h), t);
      hide TruncateErr;
    }
  }

  /** In every reachable pool, with a clock that never goes back, every weight is at least a fifth. */
  lemma WeightsAtLeastAFifth(cfg: Config, persist: bool, ops: seq<Op>, id: string, now: Instant)
    requires NotAfter(ops, now) && 0 <= now && id in Run(cfg, persist, ops).states
    ensures Weight(Run(cfg, persist, ops).states[id], now) >= 0.2
  {
    RunIsHistory(cfg, persist, ops);
    assert RunMatches(cfg, persist, ops, id);
    HistoryNotAfter(persist, ops, id, now);
    LastUsedNotAfter(cfg, id, Live(persist, ops, id).value, now);
    CountersFit(cfg, persist, ops, id);
    hide Run, Live, Stored, StateAfter, Weight, Loaded;
    WeightAtLeastAFifth(Run(cfg, persist, ops).states[id], now);
  }

  // ----- When an account is in service -----

  /**
   By its history alone: no authorisation failure since the last revival, and the deadline of
   the cooldown that counts, if there is one, has come.
   */
  ghost predicate InService(cfg: Config, h: seq<Deed>, now: Instant) {
    (forall k :: !KilledAt(h, k)) && forall k :: CooldownFrom(cfg, h, k) ==> Deadline(cfg, h[k]) <= now
  }

  /** Some random draw makes a selection choose the account. */
  ghost predicate Selectable(a: Accounts, id: string, now: Instant) {
    exists draw: real :: 0.0 <= draw < 1.0 && Choose(a, now, draw) == Some(id)
  }

  lemma DescribedHealthy(cfg: Config, h: seq<Deed>, s: State, now: Instant)
    requires Describes(cfg, h, s) && now > 0
    ensures Healthy(s, now) <==> InService(cfg, h, now)
  {
    hide KilledAt, CooldownFrom, Deadline, LatestDescribed, CountersDescribed, TrailingFailures;
    assert CooldownDescribed(cfg, h, s.cooldownUntil);
    if (exists k :: CooldownFrom(cfg, h, k)) {
      var k :| CooldownFrom(cfg, h, k);
      CooldownOnly(cfg, h, k, s.cooldownUntil, now);
    }
  }

  lemma CooldownOnly(cfg: Config, h: seq<Deed>, k: int, until: Instant, now: Instant)
    requires CooldownDescribed(cfg, h, until) && CooldownFrom(cfg, h, k)
    ensures (forall j :: CooldownFrom(cfg, h, j) ==> Deadline(cfg, h[j]) <= now) <==> until <= now
  {
    hide Deadline, TrailingFailures, SinceRevival;
    assert until == Deadline(cfg, h[k]);
  }

  /** In every run, an account can be selected exactly if it is in the pool and in service by its history. */
  lemma InServiceIff(cfg: Config, persist: bool, ops: seq<Op>, id: string, now: Instant)
    requires now > 0
    ensures Selectable(Run(cfg, persist, ops), id, now) <==>
            Live(persist, ops, id).Some? && InService(cfg, Live(persist, ops, id).value, now)
  {
    var a, h := Run(cfg, persist, ops), Live(persist, ops, id);
    EveryRecordDescribed(cfg, persist, ops, id);
    RunConsistent(cfg, persist, ops);
    hide Run, Live, Describes, InService, Choose, Consistent;
    if h.Some? {
      DescribedHealthy(cfg, h.value, a.states[id], now);
    }
    hide Healthy;
    if id in a.states && HealthyIn(a, id, now) {
      var draw := CanBeChosen(a, now, id);
    }
    if Selectable(a, id, now) {
      var draw: real :| 0.0 <= draw < 1.0 && Choose(a, now, draw) == Some(id);
      ChooseSound(a, now, draw);
    }
  }

  // ----- When a failure can shorten a cooldown -----

  /** The clock reads more than the zero time and never goes back along the history. */
  predicate Clocked(h: seq<Deed>) {
    h == [] ||
    (Clocked(Init(h)) && (Last(h).Did? ==> 0 < Last(h).now && DeedsNotAfter(Some(Init(h)), Last(h).now)))
  }

  /** With settings `cfg`, no failure ever moves an account's cooldown to an earlier time. */
  ghost predicate NeverShrinks(cfg: Config) {
    forall id, h, d :: Clocked(h + [d]) && Failure(d) ==> KeepsCooldown(cfg, id, h, d)
  }

  ghost predicate KeepsCooldown(cfg: Config, id: string, h: seq<Deed>, d: Deed) {
    StateAfter(cfg, id, h).cooldownUntil <= StateAfter(cfg, id, h + [d]).cooldownUntil
  }

  predicate OneCooldown(cfg: Config) {
    cfg.errCooldown == cfg.rateCooldown == cfg.creditCooldown
  }

  /** With one cooldown for everything, no deadline lies further ahead of the clock than it. */
  lemma {:induction false} DeadlineWithin(cfg: Config, id: string, h: seq<Deed>, t: Instant)
    requires OneCooldown(cfg) && cfg.errCooldown > 0 && 0 <= t && DeedsNotAfter(Some(h), t)
    ensures StateAfter(cfg, id, h).cooldownUntil <= t + cfg.errCooldown
  {
    if h != [] {
      DeadlineWithin(cfg, id, Init(h), t);
      hide TruncateErr;
    }
  }

  lemma OneCooldownKeeps(cfg: Config, id: string, h: seq<Deed>, d: Deed)
    requires OneCooldown(cfg) && cfg.errCooldown > 0 && Clocked(h + [d]) && Failure(d)
    ensures KeepsCooldown(cfg, id, h, d)
  {
    assert Init(h + [d]) == h && Last(h + [d]) == d;
    DeadlineWithin(cfg, id, h, d.now);
    StateAfterSnoc(cfg, id, h, d);
    hide StateAfter, TruncateErr, DeedsNotAfter, Clocked;
  }

  function Fail(class_: Class): Deed {
    Did(Result(false, class_, "", 0, 0), 1)
  }

  /** `first`, and then `n` transient failures, all at time 1. */
  function Troubles(first: seq<Deed>, n: nat): seq<Deed> {
    if n == 0 then first else Troubles(first, n - 1) + [Fail(Transient)]
  }

  lemma {:induction false} TroublesState(cfg: Config, id: string, first: seq<Deed>, n: nat)
    requires Clocked(first) && DeedsNotAfter(Some(first), 1)
    requires StateAfter(cfg, id, first).errCount + n < cfg.errThreshold || n == 0
    ensures var h := Troubles(first, n);
      && Clocked(h) && DeedsNotAfter(Some(h), 1)
      && StateAfter(cfg, id, h).cooldownUntil == StateAfter(cfg, id, first).cooldownUntil
      && StateAfter(cfg, id, h).errCount == StateAfter(cfg, id, first).errCount + n
  {
    if n > 0 {
      var before, d := Troubles(first, n - 1), Fail(Transient);
      TroublesState(cfg, id, first, n - 1);
      assert Init(before + [d]) == before && Last(before + [d]) == d;
      hide TruncateErr;
    }
  }

  /** A failure at time 1 can follow any history up to then. */
  lemma ClockedSnoc(h: seq<Deed>, class_: Class)
    requires Clocked(h) && DeedsNotAfter(Some(h), 1)
    ensures Clocked(h + [Fail(class_)]) && DeedsNotAfter(Some(h + [Fail(class_)]), 1)
  {
    assert Init(h + [Fail(class_)]) == h && Last(h + [Fail(class_)]) == Fail(class_);
    hide Clocked;
  }

  /** Settings in force: the defaults fill in whatever is not positive. */
  predicate InForce(cfg: Config) {
    cfg.errThreshold > 0 && cfg.errCooldown > 0 && cfg.rateCooldown > 0 && cfg.creditCooldown > 0
  }

  /** The cooldown of a failure that always sets one. */
  function CooldownOf(cfg: Config, class_: Class): int {
    if class_ == NoCredit then cfg.creditCooldown else cfg.rateCooldown
  }

  /** Out of credit, then a rate limit, or the other way round. */
  lemma ShorterClassShrinks(cfg: Config, long: Class, short: Class)
    requires long in {NoCredit, RateLimited} && short in {NoCredit, RateLimited}
    requires CooldownOf(cfg, long) > CooldownOf(cfg, short)
    ensures !NeverShrinks(cfg)
  {
    var h, d := [Fail(long)], Fail(short);
    assert [] + [Fail(long)] == h;
    ClockedSnoc([], long);
    ClockedSnoc(h, short);
    StateAfterSnoc(cfg, "", [], Fail(long));
    StateAfterSnoc(cfg, "", h, d);
    assert !KeepsCooldown(cfg, "", h, d);
  }

  /** Transient failures up to the threshold, then a rate limit. */
  lemma LongErrorShrinks(cfg: Config)
    requires InForce(cfg) && cfg.errCooldown > cfg.rateCooldown
    ensures !NeverShrinks(cfg)
  {
    var before, hit, d := Troubles([], cfg.errThreshold - 1), Fail(Transient), Fail(RateLimited);
    TroublesState(cfg, "", [], cfg.errThreshold - 1);
    ClockedSnoc(before, Transient);
    ClockedSnoc(before + [hit], RateLimited);
    StateAfterSnoc(cfg, "", before, hit);
    StateAfterSnoc(cfg, "", before + [hit], d);
    hide StateAfter, Troubles, Clocked;
    assert !KeepsCooldown(cfg, "", before + [hit], d);
  }

  /** A rate limit, then transient failures up to the threshold. */
  lemma ShortErrorShrinks(cfg: Config)
    requires InForce(cfg) && cfg.errCooldown < cfg.rateCooldown
    ensures !NeverShrinks(cfg)
  {
    var first, d := [Fail(RateLimited)], Fail(Transient);
    assert [] + [Fail(RateLimited)] == first;
    ClockedSnoc([], RateLimited);
    StateAfterSnoc(cfg, "", [], Fail(RateLimited));
    var n: nat := if cfg.errThreshold > 2 then cfg.errThreshold - 2 else 0;
    var h := Troubles(first, n);
    TroublesState(cfg, "", first, n);
    ClockedSnoc(h, Transient);
    StateAfterSnoc(cfg, "", h, d);
    hide Troubles, Clocked;
    assert !KeepsCooldown(cfg, "", h, d);
  }

  /** Exactly when a later failure can shorten a cooldown: when the settings know more than one. */
  lemma CooldownCanShrink(cfg: Config)
    requires InForce(cfg)
    ensures NeverShrinks(cfg) <==> OneCooldown(cfg)
  {
    if OneCooldown(cfg) {
      forall id, h, d | Clocked(h + [d]) && Failure(d) ensures KeepsCooldown(cfg, id, h, d) {
        OneCooldownKeeps(cfg, id, h, d);
      }
    } else if cfg.creditCooldown > cfg.rateCooldown {
      ShorterClassShrinks(cfg, NoCredit, RateLimited);
    } else if cfg.rateCooldown > cfg.creditCooldown {
      ShorterClassShrinks(cfg, RateLimited, NoCredit);
    } else if cfg.errCooldown > cfg.rateCooldown {
      LongErrorShrinks(cfg);
    } else {
      ShortErrorShrinks(cfg);
    }
  }

  /** With the built-in settings a rate limit after running out of credit shortens an hour to a minute. */
  lemma BuiltInShrinks(s: State, now: Instant, msg: string)
    ensures var cfg := Defaults(Config(0, 0, 0, 0));
            var first := Recorded(cfg, s, Result(false, NoCredit, msg, 0, 0), now);
            var second := Recorded(cfg, first, Result(false, RateLimited, msg, 0, 0), now);
            first.cooldownUntil == now + 3600 * SECOND && second.cooldownUntil == now + 60 * SECOND
  {
  }
}
