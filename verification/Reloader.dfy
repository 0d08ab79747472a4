/**
 The loop that keeps the pool in step with the account store: every tick re-reads the
 account file and refreshes the pool when the list of ids has changed since the last time.
 */
module Reloader {
  import opened Wrappers
  import opened Text
  import opened Store
  import opened PoolModel
  import opened Pool

  /** Every id in the list can take part in the signature: no NUL inside. */
  predicate PlainIds(accounts: seq<Account>) {
    forall k :: 0 <= k < |accounts| ==> '\0' !in AccountId(accounts[k])
  }

  function Signature(accounts: seq<Account>): string {
    Join(IdsOf(accounts), NUL)
  }

  /** The pool holds exactly the accounts of the store. */
  ghost predicate InStep(states: States, accounts: seq<Account>) {
    forall id :: id in states <==> id in IdsOf(accounts)
  }

  /** Equal signatures mean equal id lists, so a skipped refresh would have changed nothing. */
  lemma SignatureExact(a: seq<Account>, b: seq<Account>)
    requires PlainIds(a) && PlainIds(b)
    ensures Signature(a) == Signature(b) <==> IdsOf(a) == IdsOf(b)
  {
    if Signature(a) == Signature(b) {
      JoinInjective(IdsOf(a), IdsOf(b));
    }
    hide AccountId;
  }

  /** With a NUL inside a user id the signature is ambiguous: one account can look like two. */
  lemma SignatureAmbiguous(one: Account, first: Account, second: Account)
    requires one.userId == "a\0uid:b" && first.userId == "a" && second.userId == "b"
    ensures Signature([one]) == Signature([first, second]) && IdsOf([one]) != IdsOf([first, second])
  {
    assert TrimSpace("a\0uid:b") == "a\0uid:b" && TrimSpace("a") == "a" && TrimSpace("b") == "b";
    assert IdsOf([one]) == ["uid:" + "a\0uid:b"];
    assert IdsOf([first, second]) == ["uid:" + "a", "uid:" + "b"];
    assert ["uid:" + "a", "uid:" + "b"][1..] == ["uid:" + "b"];
    assert Join(["uid:" + "a", "uid:" + "b"], NUL) == "uid:" + "a" + NUL + Join(["uid:" + "b"], NUL);
    assert "uid:" + "a\0uid:b" == "uid:" + "a" + NUL + ("uid:" + "b");
    assert |IdsOf([one])| == 1 && |IdsOf([first, second])| == 2;
  }

  // ----- The loop -----

  /** What requests do meanwhile: they change the store and report to the pool. */
  datatype Event =
    | Changed(change: Change)
    | Reported(id: string, result: Result, now: Instant)
    | Recovered(id: string)

  /** What happens before a tick, what it reads, and what happens between its two looks at the ids. */
  datatype Tick = Tick(between: seq<Event>, read: DiskRead, during: seq<Event>)

  function StoreAfterEvents(accounts: seq<Account>, events: seq<Event>): seq<Account> {
    if events == [] then accounts
    else
      var before := StoreAfterEvents(accounts, Init(events));
      if Last(events).Changed? then After(before, Last(events).change) else before
  }

  /** The store as the last tick has loaded it. */
  function Loaded(accounts: seq<Account>, ticks: seq<Tick>): seq<Account>
    requires ticks != []
    decreases |ticks|, 0
  {
    Reloaded(StoreAfterEvents(StoreAfter(accounts, Init(ticks)), Last(ticks).between), Last(ticks).read)
  }

  /** The store after some ticks. */
  function StoreAfter(accounts: seq<Account>, ticks: seq<Tick>): seq<Account>
    decreases |ticks|, 1
  {
    if ticks == [] then accounts
    else if Succeeds(Last(ticks).read) then StoreAfterEvents(Loaded(accounts, ticks), Last(ticks).during)
    else Loaded(accounts, ticks)
  }

  /** The store whose ids the loop compares with: as loaded by the last tick that led to a refresh. */
  function Compared(accounts: seq<Account>, ticks: seq<Tick>): seq<Account>
    decreases |ticks|, 2
  {
    if ticks == [] then accounts
    else if Refreshes(accounts, ticks) then Loaded(accounts, ticks)
    else Compared(accounts, Init(ticks))
  }

  /** The last tick loads a list of ids that differs from the one compared with. */
  predicate Refreshes(accounts: seq<Account>, ticks: seq<Tick>)
    requires ticks != []
    decreases |ticks|, 1
  {
    Succeeds(Last(ticks).read) && IdsOf(Loaded(accounts, ticks)) != IdsOf(Compared(accounts, Init(ticks)))
  }

  /** The store the pool was last refreshed from. */
  function Pooled(accounts: seq<Account>, ticks: seq<Tick>): seq<Account> {
    if ticks == [] then accounts
    else if Refreshes(accounts, ticks) then StoreAfter(accounts, ticks)
    else Pooled(accounts, Init(ticks))
  }

  /** No id that the loop compares contains NUL. */
  predicate PlainRun(accounts: seq<Account>, ticks: seq<Tick>) {
    PlainIds(accounts) && forall n :: 0 < n <= |ticks| && Succeeds(ticks[n - 1].read) ==>
        PlainIds(Loaded(accounts, ticks[..n]))
  }

  predicate SameIds(a: seq<Account>, b: seq<Account>) {
    (forall id :: id in IdsOf(a) ==> id in IdsOf(b)) && (forall id :: id in IdsOf(b) ==> id in IdsOf(a))
  }

  method Happen(store: AccountStore, pool: AccountPool, events: seq<Event>)
    requires pool.Valid()
    modifies store, pool`states, pool.file
    ensures pool.Valid() && pool.states.Keys == old(pool.states.Keys)
    ensures store.accounts == StoreAfterEvents(old(store.accounts), events)
  {
    for k := 0 to |events|
      invariant pool.Valid() && pool.states.Keys == old(pool.states.Keys)
      invariant store.accounts == StoreAfterEvents(old(store.accounts), events[..k])
    {
      assert Init(events[..k + 1]) == events[..k] && Last(events[..k + 1]) == events[k];
      match events[k] {
        case Changed(change) => store.Apply(change);
        case Reported(id, result, now) => pool.Record(id, result, now);
        case Recovered(id) => var _ := pool.Revive(id);
      }
    }
    assert events[..|events|] == events;
  }

  /**
   Any number of ticks, with requests changing the store and reporting to the pool between
   them and in the middle of them: the pool always holds exactly the accounts it was last
   refreshed from, and it is refreshed exactly by the ticks that load other ids than the
   last tick that refreshed it.
   */
  method RunReloader(store: AccountStore, pool: AccountPool, ticks: seq<Tick>)
    requires pool.Valid() && InStep(pool.states, store.accounts) && PlainRun(store.accounts, ticks)
    modifies store, pool`states, pool`order, pool.file
    ensures pool.Valid() && store.accounts == StoreAfter(old(store.accounts), ticks)
    ensures InStep(pool.states, Pooled(old(store.accounts), ticks))
  {
    hide After, Reloaded, AccountId, StoreAfterEvents, Join, Reindexed;
    var ids := store.IDs();
    var prev := Join(ids, NUL);
    ghost var start := store.accounts;
    for k := 0 to |ticks|
      invariant pool.Valid() && store.accounts == StoreAfter(start, ticks[..k])
      invariant InStep(pool.states, Pooled(start, ticks[..k]))
      invariant prev == Signature(Compared(start, ticks[..k])) && PlainIds(Compared(start, ticks[..k]))
    {
      ghost var now := ticks[..k + 1];
      assert Init(now) == ticks[..k] && Last(now) == ticks[k];
      Happen(store, pool, ticks[k].between);
      var ok := store.Reload(ticks[k].read);
      assert store.accounts == Loaded(start, now);
      if !ok {
        continue;
      }
      ids := store.IDs();
      var sig := Join(ids, NUL);
      SignatureExact(Compared(start, ticks[..k]), store.accounts);
      Happen(store, pool, ticks[k].during);
      if sig == prev {
        continue;
      }
      ids := store.IDs();
      pool.Refresh(ids);
      prev := sig;
    }
    assert ticks[..|ticks|] == ticks;
  }

  // ----- When the pool is in step -----

  /**
   After a tick whose reload succeeds: if it refreshes the pool, the pool is in step with the
   store; if it does not, the pool is in step with what was loaded if and only if the last
   refresh found the ids that the loop had compared.
   */
  lemma InStepAfterTick(accounts: seq<Account>, ticks: seq<Tick>)
    requires ticks != [] && Succeeds(Last(ticks).read)
    ensures Refreshes(accounts, ticks) ==> Pooled(accounts, ticks) == StoreAfter(accounts, ticks)
    ensures !Refreshes(accounts, ticks) ==>
              (SameIds(Pooled(accounts, ticks), Loaded(accounts, ticks)) <==>
               SameIds(Pooled(accounts, Init(ticks)), Compared(accounts, Init(ticks))))
  {
    hide StoreAfter, Loaded, AccountId;
    if !Refreshes(accounts, ticks) {
      assert IdsOf(Loaded(accounts, ticks)) == IdsOf(Compared(accounts, Init(ticks)));
    }
    hide IdsOf, Refreshes, Compared;
  }

  /** No request changes the set of ids in the middle of a tick that refreshes. */
  predicate QuietTicks(accounts: seq<Account>, ticks: seq<Tick>) {
    forall n :: 0 < n <= |ticks| && Refreshes(accounts, ticks[..n]) ==>
      SameIds(StoreAfter(accounts, ticks[..n]), Loaded(accounts, ticks[..n]))
  }

  /** Then the pool is in step with what every successful tick has loaded. */
  lemma {:induction false} QuietInStep(accounts: seq<Account>, ticks: seq<Tick>)
    requires QuietTicks(accounts, ticks)
    ensures SameIds(Pooled(accounts, ticks), Compared(accounts, ticks))
    ensures ticks != [] && Succeeds(Last(ticks).read) ==> SameIds(Pooled(accounts, ticks), Loaded(accounts, ticks))
    decreases |ticks|
  {
    if ticks != [] {
      var before := Init(ticks);
      forall n | 0 < n <= |before| ensures before[..n] == ticks[..n] {
      }
      assert QuietTicks(accounts, before);
      QuietInStep(accounts, before);
      assert ticks[..|ticks|] == ticks;
      assert Refreshes(accounts, ticks) ==> SameIds(StoreAfter(accounts, ticks), Loaded(accounts, ticks));
      assert Compared(accounts, ticks) == if Refreshes(accounts, ticks) then Loaded(accounts, ticks)
          else Compared(accounts, before);
      assert Pooled(accounts, ticks) == if Refreshes(accounts, ticks) then StoreAfter(accounts, ticks)
          else Pooled(accounts, before);
      if Succeeds(Last(ticks).read) && !Refreshes(accounts, ticks) {
        assert IdsOf(Loaded(accounts, ticks)) == IdsOf(Compared(accounts, before));
      }
      hide Pooled, Compared, Refreshes, Loaded, StoreAfter, IdsOf, QuietTicks;
    }
  }

  /**
   Without that the pool can stay out of step: a login that arrives between the comparison
   and the refresh is pooled, and if the file does not keep it, no later tick takes it out.
   */
  lemma TickRace(a: Account, b: Account)
    requires a.userId == "a" && b.userId == "b" && b.token == "t" && b.obtainedAtMs == 1
    ensures var ticks := [Tick([], Parsed([a]), [Changed(Upsert(b, 1))]), Tick([], Parsed([a]), [])];
      && StoreAfter([], ticks) == [a] && IdsOf([a]) == ["uid:a"]
      && IdsOf(Pooled([], ticks)) == ["uid:a", "uid:b"]
  {
    var first, second := Tick([], Parsed([a]), [Changed(Upsert(b, 1))]), Tick([], Parsed([a]), []);
    var ticks := [first, second];
    assert TrimSpace("a") == "a" && TrimSpace("b") == "b" && TrimSpace("t") == "t";
    assert AccountId(a) == "uid:a" && AccountId(b) == "uid:b" && "uid:a"[4] != "uid:b"[4];
    assert IdsOf([a]) == ["uid:a"] && IdsOf([a, b]) == ["uid:a", "uid:b"] && IdsOf([]) == [];
    assert After([a], Upsert(b, 1)) == [a, b] by {
      assert [a][1..] == [] && Position([a], "uid:b") == 1;
      assert [a] + [b] == [a, b];
    }
    hide AccountId, After, IdsOf, TrimSpace;
    assert Init(ticks) == [first] && Init([first]) == [] && Last(ticks) == second && Last([first]) == first;
    assert Init([Changed(Upsert(b, 1))]) == [];
    assert StoreAfterEvents([a], [Changed(Upsert(b, 1))]) == [a, b];
    assert Loaded([], [first]) == [a] && StoreAfter([], [first]) == [a, b];
    assert Refreshes([], [first]) && Compared([], [first]) == [a] && Pooled([], [first]) == [a, b];
    assert Loaded([], ticks) == [a] && !Refreshes([], ticks);
    assert StoreAfterEvents([a], []) == [a];
  }
}
