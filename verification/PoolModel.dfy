/**
 The account pool as values: one record per account, the sorted index, the state file,
 and the effect of every operation on them.
 */
module PoolModel {
  import opened Wrappers
  import opened Ordering

  /** Nanoseconds on one clock; 0 is the zero time, which no clock reading ever is. */
  type Instant = int

  const ZERO_TIME: Instant := 0

  /** Failure classes; all but the first three are handled alike. */
  datatype Class = RateLimited | NoCredit | AuthDead | Transient | ClassOk | ClassOther

  datatype Result = Result(ok: bool, class_: Class, message: string, tokensIn: int, tokensOut: int)

  datatype Config = Config(errThreshold: int, errCooldown: int, rateCooldown: int, creditCooldown: int)

  const SECOND := 1_000_000_000

  /** Non-positive settings fall back to the built-in ones. */
  function Defaults(cfg: Config): (r: Config)
    ensures r.errThreshold > 0 && r.errCooldown > 0 && r.rateCooldown > 0 && r.creditCooldown > 0
    ensures cfg.errThreshold > 0 ==> r.errThreshold == cfg.errThreshold
  {
    Config(
      if cfg.errThreshold <= 0 then 5 else cfg.errThreshold,
      if cfg.errCooldown <= 0 then 600 * SECOND else cfg.errCooldown,
      if cfg.rateCooldown <= 0 then 60 * SECOND else cfg.rateCooldown,
      if cfg.creditCooldown <= 0 then 3600 * SECOND else cfg.creditCooldown)
  }

  datatype State = State(
    id: string,
    disabled: bool,
    disabledReason: string,
    cooldownUntil: Instant,
    errCount: int,
    reqCount: int,
    okCount: int,
    lastUsed: Instant,
    lastErr: string,
    lastErrAt: Instant,
    totalIn: int,
    totalOut: int)

  function NewState(id: string): State {
    State(id, false, "", ZERO_TIME, 0, 0, 0, ZERO_TIME, "", ZERO_TIME, 0, 0)
  }

  predicate Healthy(s: State, now: Instant) {
    !s.disabled && !(s.cooldownUntil != ZERO_TIME && now < s.cooldownUntil)
  }

  function OneLine(s: string): string {
    if s == "" then "" else [if s[0] == '\n' then ' ' else s[0]] + OneLine(s[1..])
  }

  function TruncateErr(s: string): string {
    var line := OneLine(s);
    if |line| > 200 then line[..200] + "..." else line
  }

  function Recorded(cfg: Config, s: State, r: Result, now: Instant): (t: State)
    ensures t.id == s.id
  {
    var used := s.(lastUsed := now, reqCount := s.reqCount + 1);
    if r.ok then
      used.(okCount := s.okCount + 1, errCount := 0, totalIn := s.totalIn + r.tokensIn,
            totalOut := s.totalOut + r.tokensOut)
    else
      var failed := used.(errCount := s.errCount + 1, lastErr := TruncateErr(r.message), lastErrAt := now);
      match r.class_
      case AuthDead => failed.(disabled := true, disabledReason := "auth_dead: " + TruncateErr(r.message))
      case NoCredit => failed.(cooldownUntil := now + cfg.creditCooldown)
      case RateLimited => failed.(cooldownUntil := now + cfg.rateCooldown)
      case _ => if failed.errCount >= cfg.errThreshold then failed.(cooldownUntil := now + cfg.errCooldown) else failed
  }

  function Revived(s: State): State {
    s.(disabled := false, disabledReason := "", cooldownUntil := ZERO_TIME, errCount := 0)
  }

  // ----- The whole pool -----

  type States = map<string, State>

  /** The live states, their sorted index, and what the state file holds. */
  datatype Accounts = Accounts(states: States, order: seq<string>, file: Option<seq<State>>)

  const EMPTY_POOL := Accounts(map[], [], None)

  /** Index and states fit together. */
  ghost predicate Consistent(a: Accounts) {
    && Sorted(a.order)
    && (forall id :: id in a.order <==> id in a.states)
    && (forall id :: id in a.states ==> a.states[id].id == id)
  }

  /** After re-reading the account list: new accounts start fresh, vanished ones are dropped. */
  function Reindexed(states: States, ids: seq<string>): (r: States)
    ensures forall id :: id in r <==> id in ids
    ensures forall id :: id in r && id in states ==> r[id] == states[id]
  {
    map id | id in ids :: if id in states then states[id] else NewState(id)
  }

  /** What a save writes: the states in index order. */
  function Snapshot(states: States, order: seq<string>): seq<State> {
    if order == [] then []
    else (if order[0] in states then [states[order[0]]] else []) + Snapshot(states, order[1..])
  }

  /** What loading a file yields: a later entry for the same id wins. */
  function Loaded(file: Option<seq<State>>): States {
    match file
    case None => map[]
    case Some(list) => LoadedList(list)
  }

  function LoadedList(list: seq<State>): States {
    LoadedOver(map[], list)
  }

  function LoadedOver(states: States, list: seq<State>): States {
    if list == [] then states else LoadedOver(states, list[..|list| - 1])[list[|list| - 1].id := list[|list| - 1]]
  }

  datatype Op =
    | Record(id: string, result: Result, now: Instant)
    | Revive(id: string)
    | Refresh(ids: seq<string>)
    | Restart(ids: seq<string>)   // a new process builds its pool from the state file

  function Saved(persist: bool, a: Accounts): Accounts {
    if persist then a.(file := Some(Snapshot(a.states, a.order))) else a
  }

  function Apply(cfg: Config, persist: bool, a: Accounts, op: Op): Accounts {
    match op
    case Record(id, r, now) =>
      if id !in a.states then a
      else
        var b := a.(states := a.states[id := Recorded(cfg, a.states[id], r, now)]);
        if r.ok then b else Saved(persist, b)
    case Revive(id) =>
      if id !in a.states then a
      else Saved(persist, a.(states := a.states[id := Revived(a.states[id])]))
    case Refresh(ids) =>
      Saved(persist, a.(states := Reindexed(a.states, ids), order := Sort(ids)))
    case Restart(ids) =>
      a.(states := Reindexed(if persist then Loaded(a.file) else map[], ids), order := Sort(ids))
  }

  function Run(cfg: Config, persist: bool, ops: seq<Op>): Accounts {
    if ops == [] then EMPTY_POOL
    else Apply(cfg, persist, Run(cfg, persist, ops[..|ops| - 1]), ops[|ops| - 1])
  }

  // ----- Saving and loading -----

  lemma {:induction false} SnapshotMember(states: States, order: seq<string>, s: State)
    ensures s in Snapshot(states, order) <==> exists id :: id in order && id in states && states[id] == s
  {
    if order != [] {
      SnapshotMember(states, order[1..], s);
      assert order == [order[0]] + order[1..];
    }
  }

  lemma {:induction false} LoadedListAt(list: seq<State>, id: string)
    ensures id in LoadedList(list) <==> exists s :: s in list && s.id == id
    ensures id in LoadedList(list) ==> LoadedList(list)[id] in list && LoadedList(list)[id].id == id
  {
    if list != [] {
      var front := list[..|list| - 1];
      LoadedListAt(front, id);
      assert list == front + [list[|list| - 1]];
    }
  }

  /** A later entry wins. */
  lemma {:induction false} LoadedLast(list: seq<State>, k: nat)
    requires k < |list| && forall j :: k < j < |list| ==> list[j].id != list[k].id
    ensures list[k].id in LoadedList(list) && LoadedList(list)[list[k].id] == list[k]
    decreases |list|
  {
    if k < |list| - 1 {
      LoadedLast(list[..|list| - 1], k);
    }
  }

  /** The file lists the states in index order. */
  lemma {:induction false} SnapshotInOrder(states: States, order: seq<string>)
    requires forall id :: id in order ==> id in states
    ensures |Snapshot(states, order)| == |order|
    ensures forall k :: 0 <= k < |order| ==> Snapshot(states, order)[k] == states[order[k]]
  {
    if order != [] {
      assert order[0] in order;
      SnapshotInOrder(states, order[1..]);
    }
  }

  /** Loading gives back exactly what was saved. */
  lemma SaveThenLoad(a: Accounts)
    requires Consistent(a)
    ensures Loaded(Saved(true, a).file) == a.states
  {
    var list := Snapshot(a.states, a.order);
    forall id ensures id in LoadedList(list) <==> id in a.states
              ensures id in a.states ==> LoadedList(list)[id] == a.states[id] {
      LoadedListAt(list, id);
      if id in a.states {
        SnapshotMember(a.states, a.order, a.states[id]);
        SnapshotMember(a.states, a.order, LoadedList(list)[id]);
      } else if id in LoadedList(list) {
        SnapshotMember(a.states, a.order, LoadedList(list)[id]);
      }
    }
  }

  ghost predicate FileConsistent(file: Option<seq<State>>) {
    forall id :: id in Loaded(file) ==> Loaded(file)[id].id == id
  }

  lemma LoadedConsistent(file: Option<seq<State>>)
    ensures FileConsistent(file)
  {
    if file.Some? {
      forall id | id in Loaded(file) ensures Loaded(file)[id].id == id {
        LoadedListAt(file.value, id);
      }
    }
  }

  /** The built-in settings: five errors, ten minutes, one minute, one hour. */
  lemma BuiltInSettings(cfg: Config)
    ensures var d := Defaults(cfg);
      && d.errThreshold == (if cfg.errThreshold > 0 then cfg.errThreshold else 5)
      && d.errCooldown == (if cfg.errCooldown > 0 then cfg.errCooldown else 600_000_000_000)
      && d.rateCooldown == (if cfg.rateCooldown > 0 then cfg.rateCooldown else 60_000_000_000)
      && d.creditCooldown == (if cfg.creditCooldown > 0 then cfg.creditCooldown else 3_600_000_000_000)
  {
  }

  lemma {:induction false} OneLineMeans(s: string)
    ensures |OneLine(s)| == |s|
    ensures forall k :: 0 <= k < |s| ==> OneLine(s)[k] == if s[k] == '\n' then ' ' else s[k]
  {
    if s != "" {
      OneLineMeans(s[1..]);
    }
  }

  /** An error is kept on one line and cut after 200 characters. */
  lemma TruncateErrMeans(s: string)
    ensures var t := TruncateErr(s);
      && (forall k :: 0 <= k < |s| && k < 200 ==> k < |t| && t[k] == if s[k] == '\n' then ' ' else s[k])
      && (if |s| <= 200 then |t| == |s| else |t| == 203 && t[200..] == "...")
  {
    OneLineMeans(s);
    hide OneLine;
  }

  /** Every operation keeps the index sorted, duplicate-free and equal to the set of accounts. */
  lemma ApplyConsistent(cfg: Config, persist: bool, a: Accounts, op: Op)
    requires Consistent(a)
    ensures Consistent(Apply(cfg, persist, a, op))
  {
    LoadedConsistent(a.file);
    hide Sort, Loaded, Sorted, Recorded, Snapshot;
  }

  lemma {:induction false} RunConsistent(cfg: Config, persist: bool, ops: seq<Op>)
    ensures Consistent(Run(cfg, persist, ops))
  {
    if ops != [] {
      RunConsistent(cfg, persist, ops[..|ops| - 1]);
      ApplyConsistent(cfg, persist, Run(cfg, persist, ops[..|ops| - 1]), ops[|ops| - 1]);
    }
  }
}
