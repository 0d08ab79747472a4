/**
 The sticky cache under concurrency, where a selection is many steps. Two things are proved
 about every interleaving: that deleting expired entries is never noticed, and exactly what
 keeps a key with its account. A selection that has missed the cache overwrites the entry
 whatever it says by then, so overlapping selections of a new key can end at different
 accounts: `RaceMovesKey`.
 */
module StickyRuns {
  import opened Wrappers
  import opened PoolModel
  import opened Selection
  import opened Sticky
  import opened Interleaving

  // ----- Deletion is never noticed -----

  /** The step of a thread with a cache from which nothing is ever deleted. */
  function TimedThreadStep(w: World, t: nat, draw: real): Option<World>
    requires t in w.threads
  {
    match w.threads[t]
    case InLookup(key) =>
      var (cache, id) := TimedLookup(w.sticky, key, w.clock);
      Some(w.(sticky := cache, stickyLock := None,
              threads := w.threads[t := if id == "" then MustChoose(key) else Looked(key, id)]))
    case InRemember(key, id) =>
      Some(w.(sticky := TimedRemember(w.sticky, key, id, w.clock), stickyLock := None, poolLock := None,
              threads := w.threads[t := Got(id)]))
    case _ => ThreadStep(w, t, draw)
  }

  function TimedNext(cfg: Config, persist: bool, w: World, step: Step): Option<World> {
    match step
    case Act(t, draw) => if t in w.threads then TimedThreadStep(w, t, draw) else None
    case _ => Next(cfg, persist, w, step)
  }

  function TimedExec(cfg: Config, persist: bool, w: World, steps: seq<Step>): Option<World> {
    if steps == [] then Some(w)
    else
      match TimedExec(cfg, persist, w, steps[..|steps| - 1])
      case None => None
      case Some(v) => TimedNext(cfg, persist, v, steps[|steps| - 1])
  }

  /** The same world but for cache entries that have expired by now. */
  ghost predicate Alike(w: World, v: World) {
    v == w.(sticky := v.sticky) && Refines(w.sticky, v.sticky, w.clock)
  }

  ghost predicate BothAlike(w: Option<World>, v: Option<World>) {
    (w.Some? <==> v.Some?) && (w.Some? ==> Alike(w.value, v.value))
  }

  lemma AlikeThreadStep(w: World, v: World, t: nat, draw: real)
    requires Alike(w, v) && t in w.threads
    ensures BothAlike(ThreadStep(w, t, draw), TimedThreadStep(v, t, draw))
  {
    hide Choose, Lookup, TimedLookup, Remember, TimedRemember, Healthy, Refines;
    match w.threads[t] {
      case InLookup(key) => LookupRefines(w.sticky, v.sticky, key, w.clock, w.clock);
      case InRemember(key, id) => SweepRefines(w.sticky, v.sticky, key, id, w.clock);
      case _ =>
    }
  }

  lemma AlikeNext(cfg: Config, persist: bool, w: World, v: World, step: Step)
    requires Alike(w, v)
    ensures BothAlike(Next(cfg, persist, w, step), TimedNext(cfg, persist, v, step))
  {
    match step {
      case Act(t, draw) =>
        if t in w.threads {
          AlikeThreadStep(w, v, t, draw);
        }
      case _ =>
    }
    hide ThreadStep, TimedThreadStep, Apply, Finished;
  }

  /**
   Neither the lazy deletion nor the sweep is ever noticed: under every interleaving the
   same steps are possible, every selection is in the same phase and ends in the same
   account as with a cache from which nothing is deleted.
   */
  lemma {:induction false} DeletionInvisible(cfg: Config, persist: bool, w: World, steps: seq<Step>)
    ensures BothAlike(Exec(cfg, persist, w, steps), TimedExec(cfg, persist, w, steps))
  {
    if steps != [] {
      var before := steps[..|steps| - 1];
      DeletionInvisible(cfg, persist, w, before);
      hide Next, TimedNext, Alike;
      if Exec(cfg, persist, w, before).Some? {
        AlikeNext(cfg, persist, Exec(cfg, persist, w, before).value, TimedExec(cfg, persist, w, before).value,
                  steps[|steps| - 1]);
      }
    }
  }

  // ----- Affinity -----

  /** The thread is selecting for this key. */
  predicate OnKey(p: Phase, key: string) {
    !Finished(p) && p.key == key
  }

  /** A thread selecting for the key has not left the cache for another account. */
  predicate Follows(p: Phase, key: string, id: string) {
    OnKey(p, key) ==> p.Begin? || p.InLookup? || ((p.Looked? || p.InCheck?) && p.id == id)
  }

  /** The key belongs to the account, and no selection of the key is past the cache with anything else. */
  ghost predicate Held(w: World, key: string, id: string) {
    && key in w.sticky && w.sticky[key].id == id
    && forall t :: t in w.threads ==> Follows(w.threads[t], key, id)
  }

  /** In nanoseconds. */
  const THIRTY_MINUTES := 30 * 60 * 1_000_000_000

  /** The entry was used in the last 30 minutes, and the account is healthy when a selection of the key checks it. */
  ghost predicate Warm(w: World, key: string, id: string) {
    && (key in w.sticky ==> w.clock - w.sticky[key].lastSeen <= THIRTY_MINUTES)
    && forall t :: t in w.threads && w.threads[t] == InCheck(key, id) ==> HealthyIn(w.accounts, id, w.clock)
  }

  /** If this step ends a selection of the key, it ends it with the account. */
  predicate EndsWith(w: World, v: World, step: Step, key: string, id: string) {
    step.Act? && step.t in w.threads && step.t in v.threads && OnKey(w.threads[step.t], key)
    && Finished(v.threads[step.t]) ==>
      v.threads[step.t] == Got(id)
  }

  lemma LookupKeeps(c: Cache, key: string, other: string, now: Instant)
    requires key in c && !Expired(c[key], now)
    ensures key in Lookup(c, other, now).0 && Lookup(c, other, now).0[key].id == c[key].id
    ensures Lookup(c, key, now).1 == c[key].id
  {
  }

  lemma RememberKeeps(c: Cache, key: string, other: string, id: string, now: Instant)
    requires key in c && !Expired(c[key], now) && other != key
    ensures key in Remember(c, other, id, now) && Remember(c, other, id, now)[key] == c[key]
  {
  }

  lemma HeldThreadStep(w: World, t: nat, draw: real, key: string, id: string)
    requires key != "" && id != "" && Held(w, key, id) && Warm(w, key, id)
    requires t in w.threads && ThreadStep(w, t, draw).Some?
    ensures var v := ThreadStep(w, t, draw).value;
      && Held(v, key, id)
      && (OnKey(w.threads[t], key) && Finished(v.threads[t]) ==> v.threads[t] == Got(id))
  {
    var p := w.threads[t];
    assert Follows(p, key, id);
    if p.InLookup? {
      LookupKeeps(w.sticky, key, p.key, w.clock);
    } else if p.InRemember? {
      RememberKeeps(w.sticky, key, p.key, p.id, w.clock);
    }
    hide Choose, Lookup, Remember, Healthy, Expired;
    var v := ThreadStep(w, t, draw).value;
    assert Follows(v.threads[t], key, id);
    forall x | x in v.threads ensures Follows(v.threads[x], key, id) {
      assert x != t ==> x in w.threads && v.threads[x] == w.threads[x];
    }
  }

  lemma HeldNext(cfg: Config, persist: bool, w: World, step: Step, key: string, id: string)
    requires key != "" && id != "" && Held(w, key, id) && Warm(w, key, id)
    requires Next(cfg, persist, w, step).Some?
    ensures var v := Next(cfg, persist, w, step).value; Held(v, key, id) && EndsWith(w, v, step, key, id)
  {
    hide ThreadStep, Apply, Warm;
    match step {
      case Act(t, draw) => HeldThreadStep(w, t, draw, key, id);
      case Start(t, k) =>
        var v := Next(cfg, persist, w, step).value;
        forall x | x in v.threads ensures Follows(v.threads[x], key, id) {
          assert x != t ==> x in w.threads && v.threads[x] == w.threads[x];
        }
      case Other(_) =>
      case Tick(_) =>
    }
  }

  /** All the worlds a run passes through before its last step. */
  ghost predicate WarmAlong(cfg: Config, persist: bool, w: World, steps: seq<Step>, key: string, id: string) {
    forall n :: 0 <= n < |steps| ==> WarmThen(Exec(cfg, persist, w, steps[..n]), key, id)
  }

  ghost predicate WarmThen(w: Option<World>, key: string, id: string) {
    w.Some? ==> Warm(w.value, key, id)
  }

  ghost predicate EndsAt(cfg: Config, persist: bool, w: World, steps: seq<Step>, n: nat, key: string, id: string)
    requires n < |steps|
  {
    var u, v := Exec(cfg, persist, w, steps[..n]), Exec(cfg, persist, w, steps[..n + 1]);
    u.Some? && v.Some? ==> EndsWith(u.value, v.value, steps[n], key, id)
  }

  /**
   Affinity under every interleaving: once a key is held by an account, it stays held as
   long as its entry does not expire and the account is healthy whenever it is checked, and
   every selection of the key that ends in the meantime ends with that account, whatever
   selections of other keys, reports and refreshes do.
   */
  lemma {:induction false} Affinity(cfg: Config, persist: bool, w: World, steps: seq<Step>, key: string, id: string)
    requires key != "" && id != "" && Held(w, key, id)
    requires WarmAlong(cfg, persist, w, steps, key, id) && Exec(cfg, persist, w, steps).Some?
    ensures Held(Exec(cfg, persist, w, steps).value, key, id)
    ensures forall n :: 0 <= n < |steps| ==> EndsAt(cfg, persist, w, steps, n, key, id)
  {
    if steps != [] {
      var before, step := steps[..|steps| - 1], steps[|steps| - 1];
      forall n | 0 <= n <= |before| ensures before[..n] == steps[..n] {
      }
      assert steps[..|before|] == before && steps[..|before| + 1] == steps;
      assert WarmThen(Exec(cfg, persist, w, steps[..|before|]), key, id);
      assert WarmAlong(cfg, persist, w, before, key, id) by {
        forall n | 0 <= n < |before| ensures WarmThen(Exec(cfg, persist, w, before[..n]), key, id) {
          assert WarmThen(Exec(cfg, persist, w, steps[..n]), key, id);
        }
      }
      Affinity(cfg, persist, w, before, key, id);
      HeldNext(cfg, persist, Exec(cfg, persist, w, before).value, step, key, id);
      hide Next, Held, Warm, EndsWith;
      forall n | 0 <= n < |steps| ensures EndsAt(cfg, persist, w, steps, n, key, id) {
        if n < |before| {
          assert EndsAt(cfg, persist, w, before, n, key, id);
          assert before[..n + 1] == steps[..n + 1];
        }
      }
    }
  }

  // ----- Affinity, by the time between calls -----

  /** The step looks the key up. */
  ghost predicate LooksUp(w: Option<World>, step: Step, key: string) {
    w.Some? && step.Act? && step.t in w.value.threads && w.value.threads[step.t] == InLookup(key)
  }

  /** When the key was last looked up in the run, or else last used before it. */
  ghost function LastUse(cfg: Config, persist: bool, w: World, steps: seq<Step>, key: string): Instant
    requires key in w.sticky
  {
    if steps == [] then w.sticky[key].lastSeen
    else
      var before := Exec(cfg, persist, w, steps[..|steps| - 1]);
      if LooksUp(before, steps[|steps| - 1], key) then before.value.clock
      else LastUse(cfg, persist, w, steps[..|steps| - 1], key)
  }

  /** Step `n` does not come too late if it looks the key up, and finds the account healthy if it checks it. */
  ghost predicate Prompt(cfg: Config, persist: bool, w: World, steps: seq<Step>, n: nat, key: string, id: string)
    requires key in w.sticky && n < |steps|
  {
    var u, step := Exec(cfg, persist, w, steps[..n]), steps[n];
    && (LooksUp(u, step, key) ==> u.value.clock - LastUse(cfg, persist, w, steps[..n], key) <= THIRTY_MINUTES)
    && (u.Some? && step.Act? && step.t in u.value.threads && u.value.threads[step.t] == InCheck(key, id) ==>
          HealthyIn(u.value.accounts, id, u.value.clock))
  }

  /** The key belongs to the account since its last use, in a cache from which nothing is deleted. */
  ghost predicate HeldSince(v: World, key: string, id: string, use: Instant) {
    && key in v.sticky && v.sticky[key] == Entry(id, use)
    && forall t :: t in v.threads ==> Follows(v.threads[t], key, id)
  }

  lemma HeldSinceThread(v: World, t: nat, draw: real, key: string, id: string, use: Instant)
    requires key != "" && id != "" && HeldSince(v, key, id, use) && t in v.threads
    requires v.threads[t] == InLookup(key) ==> v.clock - use <= THIRTY_MINUTES
    requires v.threads[t] == InCheck(key, id) ==> HealthyIn(v.accounts, id, v.clock)
    requires TimedThreadStep(v, t, draw).Some?
    ensures var x := TimedThreadStep(v, t, draw).value;
      && HeldSince(x, key, id, if v.threads[t] == InLookup(key) then v.clock else use)
      && (OnKey(v.threads[t], key) && Finished(x.threads[t]) ==> x.threads[t] == Got(id))
  {
    var p := v.threads[t];
    assert Follows(p, key, id);
    hide Choose, Lookup, Remember, Healthy;
    var x := TimedThreadStep(v, t, draw).value;
    assert Follows(x.threads[t], key, id);
    forall y | y in x.threads ensures Follows(x.threads[y], key, id) {
      assert y != t ==> y in v.threads && x.threads[y] == v.threads[y];
    }
  }

  lemma HeldSinceNext(cfg: Config, persist: bool, v: World, step: Step, key: string, id: string, use: Instant)
    requires key != "" && id != "" && HeldSince(v, key, id, use) && TimedNext(cfg, persist, v, step).Some?
    requires LooksUp(Some(v), step, key) ==> v.clock - use <= THIRTY_MINUTES
    requires step.Act? && step.t in v.threads && v.threads[step.t] == InCheck(key, id) ==>
               HealthyIn(v.accounts, id, v.clock)
    ensures var x := TimedNext(cfg, persist, v, step).value;
      && HeldSince(x, key, id, if LooksUp(Some(v), step, key) then v.clock else use)
      && EndsWith(v, x, step, key, id)
  {
    hide TimedThreadStep, ThreadStep, Apply;
    match step {
      case Act(t, draw) => HeldSinceThread(v, t, draw, key, id, use);
      case Start(t, k) =>
        var x := TimedNext(cfg, persist, v, step).value;
        forall y | y in x.threads ensures Follows(x.threads[y], key, id) {
          assert y != t ==> y in v.threads && x.threads[y] == v.threads[y];
        }
      case Other(_) =>
      case Tick(_) =>
    }
  }

  /**
   The promise in terms of calls, under every interleaving: once a key is held by an account,
   and as long as it is looked up at most 30 minutes after its last use and the account is
   healthy at each check, every selection of the key ends with that account, whatever
   happens to the entry in sweeps, and whatever else goes on.
   */
  lemma {:induction false} CallsKeepAccount(cfg: Config, persist: bool, w: World, steps: seq<Step>, key: string,
                                            id: string)
    requires key != "" && id != "" && Held(w, key, id) && Exec(cfg, persist, w, steps).Some?
    requires forall n :: 0 <= n < |steps| ==> Prompt(cfg, persist, w, steps, n, key, id)
    ensures TimedExec(cfg, persist, w, steps).Some?
    ensures HeldSince(TimedExec(cfg, persist, w, steps).value, key, id, LastUse(cfg, persist, w, steps, key))
    ensures forall n :: 0 <= n < |steps| ==> EndsAt(cfg, persist, w, steps, n, key, id)
  {
    if steps != [] {
      var before, step := steps[..|steps| - 1], steps[|steps| - 1];
      assert steps == before + [step];
      PromptBefore(cfg, persist, w, before, step, key, id);
      assert steps[..|before|] == before && steps[..|before| + 1] == steps;
      assert Prompt(cfg, persist, w, steps, |before|, key, id);
      CallsKeepAccount(cfg, persist, w, before, key, id);
      DeletionInvisible(cfg, persist, w, before);
      DeletionInvisible(cfg, persist, w, steps);
      hide Next, TimedNext, Held, HeldSince, HealthyIn, EndsWith;
      var u, v := Exec(cfg, persist, w, before).value, TimedExec(cfg, persist, w, before).value;
      HeldSinceNext(cfg, persist, v, step, key, id, LastUse(cfg, persist, w, before, key));
      SameEnds(u, Exec(cfg, persist, w, steps).value, v, TimedExec(cfg, persist, w, steps).value, step, key, id);
      forall n | 0 <= n < |steps| ensures EndsAt(cfg, persist, w, steps, n, key, id) {
        if n < |before| {
          assert EndsAt(cfg, persist, w, before, n, key, id);
          assert before[..n + 1] == steps[..n + 1] && before[..n] == steps[..n];
        }
      }
    }
  }

  lemma PromptBefore(cfg: Config, persist: bool, w: World, before: seq<Step>, step: Step, key: string, id: string)
    requires key in w.sticky
    requires forall n :: 0 <= n < |before| + 1 ==> Prompt(cfg, persist, w, before + [step], n, key, id)
    ensures forall n :: 0 <= n < |before| ==> Prompt(cfg, persist, w, before, n, key, id)
  {
    forall n | 0 <= n < |before| ensures Prompt(cfg, persist, w, before, n, key, id) {
      assert Prompt(cfg, persist, w, before + [step], n, key, id);
      assert (before + [step])[..n] == before[..n];
      hide Exec, LastUse, LooksUp;
    }
  }

  lemma SameEnds(u: World, x: World, v: World, y: World, step: Step, key: string, id: string)
    requires Alike(u, v) && Alike(x, y) && EndsWith(v, y, step, key, id)
    ensures EndsWith(u, x, step, key, id)
  {
    hide Refines;
  }

  /** How a key comes to be held: a selection remembers its account while no other one is past the cache. */
  lemma RememberHolds(w: World, t: nat, draw: real)
    requires t in w.threads && w.threads[t].InRemember?
    requires forall x :: x in w.threads && x != t ==> Follows(w.threads[x], w.threads[t].key, w.threads[t].id)
    ensures ThreadStep(w, t, draw).Some?
    ensures Held(ThreadStep(w, t, draw).value, w.threads[t].key, w.threads[t].id)
  {
    var p, v := w.threads[t], ThreadStep(w, t, draw).value;
    forall x | x in v.threads ensures Follows(v.threads[x], p.key, p.id) {
      assert x != t ==> x in w.threads && v.threads[x] == w.threads[x];
    }
  }

  // ----- What breaks it -----

  lemma {:induction false} ExecConcat(cfg: Config, persist: bool, w: World, a: seq<Step>, b: seq<Step>)
    requires Exec(cfg, persist, w, a).Some?
    ensures Exec(cfg, persist, w, a + b) == Exec(cfg, persist, Exec(cfg, persist, w, a).value, b)
    decreases |b|
  {
    if b == [] {
      assert a + b == a;
    } else {
      assert (a + b)[..|a + b| - 1] == a + b[..|b| - 1];
      ExecConcat(cfg, persist, w, a, b[..|b| - 1]);
      hide Next;
    }
  }

  lemma OneStep(cfg: Config, persist: bool, w: World, step: Step)
    ensures Exec(cfg, persist, w, [step]) == Next(cfg, persist, w, step)
  {
    assert [step][..0] == [] && Exec(cfg, persist, w, []) == Some(w);
    hide Next;
  }

  lemma TwoSteps(cfg: Config, persist: bool, w: World, r: Step, s: Step, u: World, v: World)
    requires Next(cfg, persist, w, r) == Some(u) && Next(cfg, persist, u, s) == Some(v)
    ensures Exec(cfg, persist, w, [r, s]) == Some(v)
  {
    hide Next, Exec;
    OneStep(cfg, persist, w, r);
    OneStep(cfg, persist, u, s);
    ExecConcat(cfg, persist, w, [r], [s]);
    assert [r] + [s] == [r, s];
  }

  /** Thread `t` of the world is in phase `p`, the locks and the cache are as given. */
  function At(w: World, t: nat, p: Phase, pool: Option<nat>, sticky: Option<nat>, cache: Cache): World {
    World(w.accounts, cache, w.clock, pool, sticky, w.threads[t := p])
  }

  function Moved(w: World, t: nat, p: Phase): World {
    w.(threads := w.threads[t := p])
  }

  /** One step of thread `t`, from one phase to another. */
  ghost predicate Goes(w: World, t: nat, draw: real, v: World) {
    t in w.threads && ThreadStep(w, t, draw) == Some(v)
  }

  lemma FourActs(cfg: Config, persist: bool, w: World, t: nat, draw: real, a: World, b: World, c: World, d: World)
    requires Goes(w, t, 0.0, a) && Goes(a, t, draw, b) && Goes(b, t, 0.0, c) && Goes(c, t, 0.0, d)
    ensures Exec(cfg, persist, w, [Act(t, 0.0), Act(t, draw)] + [Act(t, 0.0), Act(t, 0.0)]) == Some(d)
  {
    hide ThreadStep, Exec;
    TwoSteps(cfg, persist, w, Act(t, 0.0), Act(t, draw), a, b);
    TwoSteps(cfg, persist, b, Act(t, 0.0), Act(t, 0.0), c, d);
    ExecConcat(cfg, persist, w, [Act(t, 0.0), Act(t, draw)], [Act(t, 0.0), Act(t, 0.0)]);
  }

  /** The selection looks the key up and misses. */
  lemma Misses(cfg: Config, persist: bool, w: World, t: nat, key: string)
    requires t in w.threads && w.threads[t] == Begin(key) && key != "" && key !in w.sticky && w.stickyLock == None
    ensures Exec(cfg, persist, w, [Act(t, 0.0), Act(t, 0.0)]) == Some(Moved(w, t, MustChoose(key)))
  {
    var u := At(w, t, InLookup(key), w.poolLock, Some(t), w.sticky);
    hide Exec;
    assert u.threads[t := MustChoose(key)] == w.threads[t := MustChoose(key)];
    TwoSteps(cfg, persist, w, Act(t, 0.0), Act(t, 0.0), u, Moved(w, t, MustChoose(key)));
  }

  function Choosing(t: nat, draw: real): seq<Step> {
    [Act(t, 0.0), Act(t, draw)] + [Act(t, 0.0), Act(t, 0.0)]
  }

  lemma ChoosingFirst(w: World, t: nat, key: string, id: string, draw: real)
    requires t in w.threads && w.threads[t] == MustChoose(key) && key != "" && w.poolLock == w.stickyLock == None
    requires Choose(w.accounts, w.clock, draw) == Some(id)
    ensures var a := At(w, t, InChoose(key), Some(t), None, w.sticky);
            Goes(w, t, 0.0, a) && Goes(a, t, draw, At(w, t, Remembering(key, id), Some(t), None, w.sticky))
  {
    hide Choose, Lookup, Remember, Healthy;
    var a := At(w, t, InChoose(key), Some(t), None, w.sticky);
    assert a.threads[t := Remembering(key, id)] == w.threads[t := Remembering(key, id)];
  }

  lemma ChoosingLast(w: World, t: nat, key: string, id: string)
    ensures var b, c := At(w, t, Remembering(key, id), Some(t), None, w.sticky),
                        At(w, t, InRemember(key, id), Some(t), Some(t), w.sticky);
      && Goes(b, t, 0.0, c)
      && Goes(c, t, 0.0, At(w, t, Got(id), None, None, Remember(w.sticky, key, id, w.clock)))
  {
    hide Choose, Lookup, Remember, Healthy;
    var b, c := At(w, t, Remembering(key, id), Some(t), None, w.sticky),
                At(w, t, InRemember(key, id), Some(t), Some(t), w.sticky);
    assert b.threads[t := InRemember(key, id)] == c.threads;
    assert c.threads[t := Got(id)] == w.threads[t := Got(id)];
  }

  /** The selection chooses the account, with a draw that chooses it, and remembers it whatever the entry says. */
  lemma Chooses(cfg: Config, persist: bool, w: World, t: nat, key: string, id: string) returns (draw: real)
    requires t in w.threads && w.threads[t] == MustChoose(key) && key != "" && w.poolLock == w.stickyLock == None
    requires Consistent(w.accounts) && HealthyIn(w.accounts, id, w.clock)
    ensures 0.0 <= draw < 1.0
    ensures Exec(cfg, persist, w, Choosing(t, draw)) ==
            Some(At(w, t, Got(id), None, None, Remember(w.sticky, key, id, w.clock)))
  {
    draw := CanBeChosen(w.accounts, w.clock, id);
    hide Choose, Remember, HealthyIn, Consistent, Goes, Exec, At;
    ChoosingFirst(w, t, key, id, draw);
    ChoosingLast(w, t, key, id);
    FourActs(cfg, persist, w, t, draw, At(w, t, InChoose(key), Some(t), None, w.sticky),
             At(w, t, Remembering(key, id), Some(t), None, w.sticky),
             At(w, t, InRemember(key, id), Some(t), Some(t), w.sticky),
             At(w, t, Got(id), None, None, Remember(w.sticky, key, id, w.clock)));
  }

  lemma HitFirst(w: World, t: nat, key: string, id: string)
    requires t in w.threads && w.threads[t] == Begin(key) && key != "" && id != "" && w.poolLock == w.stickyLock == None
    requires key in w.sticky && w.sticky[key] == Entry(id, w.clock)
    ensures var a := At(w, t, InLookup(key), None, Some(t), w.sticky);
            Goes(w, t, 0.0, a) && Goes(a, t, 0.0, At(w, t, Looked(key, id), None, None, w.sticky))
  {
    assert Lookup(w.sticky, key, w.clock) == (w.sticky, id) by {
      assert w.sticky[key := Entry(id, w.clock)] == w.sticky;
    }
    hide Choose, Lookup, Remember, Healthy;
    var a := At(w, t, InLookup(key), None, Some(t), w.sticky);
    assert a.threads[t := Looked(key, id)] == w.threads[t := Looked(key, id)];
  }

  lemma HitLast(w: World, t: nat, key: string, id: string)
    requires HealthyIn(w.accounts, id, w.clock)
    ensures var b, c := At(w, t, Looked(key, id), None, None, w.sticky),
                        At(w, t, InCheck(key, id), Some(t), None, w.sticky);
            Goes(b, t, 0.0, c) && Goes(c, t, 0.0, At(w, t, Got(id), None, None, w.sticky))
  {
    hide Choose, Lookup, Remember, Healthy;
    var b, c := At(w, t, Looked(key, id), None, None, w.sticky), At(w, t, InCheck(key, id), Some(t), None, w.sticky);
    assert b.threads[t := InCheck(key, id)] == c.threads;
    assert c.threads[t := Got(id)] == w.threads[t := Got(id)];
  }

  /** The selection finds its key in the cache and the account healthy. */
  lemma Hits(cfg: Config, persist: bool, w: World, t: nat, key: string, id: string)
    requires t in w.threads && w.threads[t] == Begin(key) && key != "" && id != "" && w.poolLock == w.stickyLock == None
    requires key in w.sticky && w.sticky[key] == Entry(id, w.clock) && HealthyIn(w.accounts, id, w.clock)
    ensures Exec(cfg, persist, w, Choosing(t, 0.0)) == Some(At(w, t, Got(id), None, None, w.sticky))
  {
    hide HealthyIn, Goes, Exec, At;
    HitFirst(w, t, key, id);
    HitLast(w, t, key, id);
    FourActs(cfg, persist, w, t, 0.0, At(w, t, InLookup(key), None, Some(t), w.sticky),
             At(w, t, Looked(key, id), None, None, w.sticky), At(w, t, InCheck(key, id), Some(t), None, w.sticky),
             At(w, t, Got(id), None, None, w.sticky));
  }

  lemma RememberedNow(c: Cache, key: string, id: string, now: Instant)
    ensures key in Remember(c, key, id, now) && Remember(c, key, id, now)[key] == Entry(id, now)
  {
  }

  /**
   The converse: a selection that has missed the cache can move the key to any healthy
   account, however well the key is held by another one at that moment.
   */
  lemma RivalMovesKey(cfg: Config, persist: bool, w: World, t: nat, key: string, id: string) returns (draw: real)
    requires t in w.threads && w.threads[t] == MustChoose(key) && key != "" && w.poolLock == w.stickyLock == None
    requires Consistent(w.accounts) && HealthyIn(w.accounts, id, w.clock)
    ensures 0.0 <= draw < 1.0
    ensures var v := Exec(cfg, persist, w, Choosing(t, draw));
      && v.Some? && t in v.value.threads && v.value.threads[t] == Got(id) && v.value.accounts == w.accounts
      && key in v.value.sticky && v.value.sticky[key] == Entry(id, w.clock)
  {
    draw := Chooses(cfg, persist, w, t, key, id);
    RememberedNow(w.sticky, key, id, w.clock);
    hide Exec, Choosing, Remember, HealthyIn, Consistent;
  }

  /**
   Two overlapping first selections of a key can break affinity: from every world with two
   healthy accounts there is a run in which the first selection ends with `a`, the second
   with `b`, and a third one, started after both have ended, with `b`, although nothing has
   happened to `a`.
   */
  lemma RaceMovesKey(cfg: Config, persist: bool, w: World, key: string, a: string, b: string)
    returns (steps: seq<Step>, after: seq<Step>)
    requires Initial(w) && key != "" && key !in w.sticky && a != b && b != ""
    requires HealthyIn(w.accounts, a, w.clock) && HealthyIn(w.accounts, b, w.clock)
    ensures var v := Exec(cfg, persist, w, steps);
      && v.Some? && v.value.threads == map[1 := Got(a), 2 := Got(b)]
      && v.value.accounts == w.accounts && v.value.clock == w.clock
    ensures forall k :: 0 <= k < |after| ==> (after[k].Start? || after[k].Act?) && after[k].t == 3
    ensures var u := Exec(cfg, persist, w, steps + after);
      && u.Some? && u.value.threads == map[1 := Got(a), 2 := Got(b), 3 := Got(b)]
      && u.value.accounts == w.accounts && u.value.clock == w.clock
  {
    var missed := BothMiss(cfg, persist, w, key);
    var w3 := w.(threads := map[1 := MustChoose(key), 2 := MustChoose(key)]);
    hide Exec, HealthyIn, Consistent;
    var chosen := BothChoose(cfg, persist, w3, key, a, b);
    ExecConcat(cfg, persist, w, missed, chosen);
    steps := missed + chosen;
    var v := Exec(cfg, persist, w, steps).value;
    after := ThirdFollows(cfg, persist, v, key, b);
    ExecConcat(cfg, persist, w, steps, after);
  }

  /** Two selections that have both missed: the second overwrites what the first has remembered. */
  lemma BothChoose(cfg: Config, persist: bool, w: World, key: string, a: string, b: string) returns (steps: seq<Step>)
    requires w.threads == map[1 := MustChoose(key), 2 := MustChoose(key)] && key != ""
    requires w.poolLock == w.stickyLock == None && Consistent(w.accounts)
    requires HealthyIn(w.accounts, a, w.clock) && HealthyIn(w.accounts, b, w.clock)
    ensures var v := Exec(cfg, persist, w, steps);
      && v.Some? && v.value.threads == map[1 := Got(a), 2 := Got(b)]
      && v.value.accounts == w.accounts && v.value.clock == w.clock && v.value.poolLock == v.value.stickyLock == None
      && key in v.value.sticky && v.value.sticky[key] == Entry(b, w.clock)
  {
    hide Exec, Remember, HealthyIn, Consistent, Choosing;
    var v := At(w, 1, Got(a), None, None, Remember(w.sticky, key, a, w.clock));
    var da := Chooses(cfg, persist, w, 1, key, a);
    var db := Chooses(cfg, persist, v, 2, key, b);
    RememberedNow(v.sticky, key, b, w.clock);
    ExecConcat(cfg, persist, w, Choosing(1, da), Choosing(2, db));
    steps := Choosing(1, da) + Choosing(2, db);
  }

  lemma BothMiss(cfg: Config, persist: bool, w: World, key: string) returns (steps: seq<Step>)
    requires w.threads == map[] && key != "" && key !in w.sticky && w.stickyLock == None
    ensures Exec(cfg, persist, w, steps) == Some(w.(threads := map[1 := MustChoose(key), 2 := MustChoose(key)]))
  {
    var start := [Start(1, key), Start(2, key)];
    var w1 := w.(threads := map[1 := Begin(key), 2 := Begin(key)]);
    var w2, w3 := Moved(w1, 1, MustChoose(key)), w.(threads := map[1 := MustChoose(key), 2 := MustChoose(key)]);
    assert Moved(w2, 2, MustChoose(key)) == w3;
    hide Exec;
    TwoSteps(cfg, persist, w, Start(1, key), Start(2, key), w.(threads := map[1 := Begin(key)]), w1);
    Misses(cfg, persist, w1, 1, key);
    Misses(cfg, persist, w2, 2, key);
    ExecConcat(cfg, persist, w, start, [Act(1, 0.0), Act(1, 0.0)]);
    ExecConcat(cfg, persist, w, start + [Act(1, 0.0), Act(1, 0.0)], [Act(2, 0.0), Act(2, 0.0)]);
    steps := start + [Act(1, 0.0), Act(1, 0.0)] + [Act(2, 0.0), Act(2, 0.0)];
  }

  /** Right after a key has been remembered a new selection of it follows. */
  lemma ThirdFollows(cfg: Config, persist: bool, w: World, key: string, id: string) returns (steps: seq<Step>)
    requires 3 !in w.threads && key != "" && id != "" && w.poolLock == w.stickyLock == None
    requires key in w.sticky && w.sticky[key] == Entry(id, w.clock) && HealthyIn(w.accounts, id, w.clock)
    ensures forall k :: 0 <= k < |steps| ==> (steps[k].Start? || steps[k].Act?) && steps[k].t == 3
    ensures Exec(cfg, persist, w, steps) == Some(Moved(w, 3, Got(id)))
  {
    var v := Moved(w, 3, Begin(key));
    assert v.threads[3 := Got(id)] == w.threads[3 := Got(id)];
    steps := [Start(3, key)] + Choosing(3, 0.0);
    hide Exec, HealthyIn;
    OneStep(cfg, persist, w, Start(3, key));
    Hits(cfg, persist, v, 3, key, id);
    ExecConcat(cfg, persist, w, [Start(3, key)], Choosing(3, 0.0));
  }
}
