/** The account pool as the code keeps it: fields updated in place by every operation. */
module Pool {
  import opened Wrappers
  import opened Ordering
  import opened PoolModel
  import opened Selection
  import opened Sticky

  /** The state file; it outlives the pool. A save replaces it as a whole and succeeds. */
  class StateFile {
    var content: Option<seq<State>>

    constructor ()
      ensures content == None
    {
      content := None;
    }
  }

  class AccountPool {
    const cfg: Config
    const persist: bool
    const file: StateFile
    var states: States
    var order: seq<string>
    var sticky: Cache

    ghost function Value(): Accounts
      reads this, file
    {
      Accounts(states, order, file.content)
    }

    ghost predicate Valid()
      reads this, file
    {
      Consistent(Value())
    }

    /** A new process: settings are completed, the file is loaded, the account list is read. */
    constructor (cfg: Config, persist: bool, file: StateFile, ids: seq<string>)
      ensures Valid() && this.cfg == Defaults(cfg) && this.persist == persist && this.file == file
      ensures forall a: Accounts :: a.file == file.content ==> Value() == Apply(this.cfg, persist, a, Restart(ids))
      ensures sticky == map[]
    {
      this.cfg := Defaults(cfg);
      this.persist := persist;
      this.file := file;
      states := map[];
      order := [];
      sticky := map[];
      new;
      ghost var blank := Accounts(map[], [], file.content);
      ApplyConsistent(this.cfg, persist, blank, Restart(ids));
      LoadState();
      Reindex(ids);
      hide Sort, Sorted, LoadedOver, Consistent;
    }

    method LoadState()
      modifies this`states
      ensures states == if persist && file.content.Some? then LoadedOver(old(states), file.content.value)
          else old(states)
    {
      if !persist || file.content.None? {
        return;
      }
      var list := file.content.value;
      for k := 0 to |list|
        invariant states == LoadedOver(old(states), list[..k])
      {
        assert list[..k + 1][..k] == list[..k];
        states := states[list[k].id := list[k]];
      }
      assert list[..|list|] == list;
    }

    /** Adds the accounts that are missing and deletes those that have vanished. */
    method SyncStates(ids: seq<string>)
      modifies this`states
      ensures states == Reindexed(old(states), ids)
    {
      var present: set<string> := {};
      for k := 0 to |ids|
        invariant forall id :: id in present <==> id in ids[..k]
        invariant forall id :: id in states <==> id in old(states) || id in ids[..k]
        invariant forall id :: id in states ==> states[id] == if id in old(states) then old(states)[id]
            else NewState(id)
      {
        assert ids[..k + 1] == ids[..k] + [ids[k]];
        present := present + {ids[k]};
        if ids[k] !in states {
          states := states[ids[k] := NewState(ids[k])];
        }
      }
      assert ids[..|ids|] == ids;
      ghost var full := states;
      var todo := states.Keys;
      while todo != {}
        invariant todo <= states.Keys <= full.Keys
        invariant forall id :: id in states ==> states[id] == full[id]
        invariant forall id :: id in full && id !in todo ==> (id in states <==> id in present)
        decreases |todo|
      {
        var id :| id in todo;
        todo := todo - {id};
        if id !in present {
          states := states - {id};
        }
      }
    }

    /** Walks the map in whatever order and sorts. */
    method RebuildIndex()
      modifies this`order
      ensures Sorted(order) && forall id :: id in order <==> id in states
    {
      order := [];
      var todo := states.Keys;
      while todo != {}
        invariant todo <= states.Keys
        invariant forall id :: id in order <==> id in states && id !in todo
        decreases |todo|
      {
        var id :| id in todo;
        todo := todo - {id};
        order := order + [id];
      }
      order := Sort(order);
    }

    method Reindex(ids: seq<string>)
      modifies this`states, this`order
      ensures states == Reindexed(old(states), ids) && order == Sort(ids)
    {
      SyncStates(ids);
      RebuildIndex();
      SortedUnique(order, Sort(ids));
    }

    method SaveLocked()
      modifies file
      ensures Value() == Saved(persist, old(Value()))
    {
      if !persist {
        return;
      }
      var list: seq<State> := [];
      assert order[0..] == order;
      for k := 0 to |order|
        invariant list + Snapshot(states, order[k..]) == Snapshot(states, order)
      {
        assert order[k..][1..] == order[k + 1..];
        if order[k] in states {
          list := list + [states[order[k]]];
        }
      }
      assert order[|order|..] == [];
      assert list == Snapshot(states, order);
      file.content := Some(list);
    }

    /** Re-reads the account list and saves. */
    method Refresh(ids: seq<string>)
      requires Valid()
      modifies this`states, this`order, file
      ensures Valid() && Value() == Apply(cfg, persist, old(Value()), Op.Refresh(ids))
    {
      ApplyConsistent(cfg, persist, Value(), Op.Refresh(ids));
      Reindex(ids);
      SaveLocked();
    }

    /** The state machine on one record. */
    method Report(s0: State, r: Result, now: Instant) returns (s: State)
      ensures s == Recorded(cfg, s0, r, now)
    {
      hide TruncateErr;
      s := s0.(lastUsed := now, reqCount := s0.reqCount + 1);
      if r.ok {
        s := s.(okCount := s.okCount + 1, errCount := 0);
        s := s.(totalIn := s.totalIn + r.tokensIn, totalOut := s.totalOut + r.tokensOut);
        return;
      }
      s := s.(errCount := s.errCount + 1);
      s := s.(lastErr := TruncateErr(r.message), lastErrAt := now);
      match r.class_ {
        case AuthDead =>
          s := s.(disabled := true, disabledReason := "auth_dead: " + TruncateErr(r.message));
        case NoCredit =>
          s := s.(cooldownUntil := now + cfg.creditCooldown);
        case RateLimited =>
          s := s.(cooldownUntil := now + cfg.rateCooldown);
        case _ =>
          if s.errCount >= cfg.errThreshold {
            s := s.(cooldownUntil := now + cfg.errCooldown);
          }
      }
    }

    /** Reports the result of a request: counters, error run, and the cooldown state machine. */
    method Record(id: string, r: Result, now: Instant)
      requires Valid()
      modifies this`states, file
      ensures Valid() && Value() == Apply(cfg, persist, old(Value()), Op.Record(id, r, now))
    {
      ApplyConsistent(cfg, persist, Value(), Op.Record(id, r, now));
      hide Consistent, Snapshot, Recorded;
      if id !in states {
        return;
      }
      var s := Report(states[id], r, now);
      states := states[id := s];
      if !r.ok {
        SaveLocked();
      }
    }

    /** Puts an account back into service by hand. */
    method Revive(id: string) returns (found: bool)
      requires Valid()
      modifies this`states, file
      ensures Valid() && Value() == Apply(cfg, persist, old(Value()), Op.Revive(id))
      ensures found <==> id in old(states)
    {
      ApplyConsistent(cfg, persist, Value(), Op.Revive(id));
      if id !in states {
        return false;
      }
      var s := states[id];
      s := s.(disabled := false, disabledReason := "", cooldownUntil := ZERO_TIME, errCount := 0);
      states := states[id := s];
      SaveLocked();
      return true;
    }

    method IdHealthy(id: string, now: Instant) returns (ok: bool)
      ensures ok <==> HealthyIn(Value(), id, now)
    {
      ok := id in states && Healthy(states[id], now);
    }

    method LookupSticky(key: string, now: Instant) returns (id: string)
      modifies this`sticky
      ensures (sticky, id) == Lookup(old(sticky), key, now)
    {
      if key !in sticky {
        return "";
      }
      var e := sticky[key];
      if now - e.lastSeen > TTL {
        sticky := sticky - {key};
        return "";
      }
      sticky := sticky[key := e.(lastSeen := now)];
      return e.id;
    }

    method RememberSticky(key: string, id: string, now: Instant)
      modifies this`sticky
      ensures sticky == Remember(old(sticky), key, id, now)
    {
      sticky := sticky[key := Entry(id, now)];
      if |sticky| > SWEEP_ABOVE {
        ghost var full := sticky;
        var todo := sticky.Keys;
        while todo != {}
          invariant todo <= sticky.Keys <= full.Keys
          invariant forall k :: k in sticky ==> sticky[k] == full[k]
          invariant forall k :: k in full && k !in todo ==> (k in sticky <==> !Expired(full[k], now))
          decreases |todo|
        {
          var k :| k in todo;
          todo := todo - {k};
          if now - sticky[k].lastSeen > TTL {
            sticky := sticky - {k};
          }
        }
        assert sticky == Swept(full, now);
      }
    }

    method HealthyCandidates(now: Instant) returns (cands: seq<string>)
      ensures cands == Candidates(states, order, now)
    {
      cands := [];
      hide Healthy;
      for k := 0 to |order|
        invariant cands == Candidates(states, order[..k], now)
      {
        assert order[..k + 1][..k] == order[..k];
        if order[k] in states && Healthy(states[order[k]], now) {
          cands := cands + [order[k]];
        }
      }
      assert order[..|order|] == order;
    }

    /** The weight of one candidate. */
    static method WeighOne(s: State, now: Instant) returns (w: real)
      ensures w == Weight(s, now)
    {
      w := 1.0;
      if s.lastUsed != ZERO_TIME {
        w := w + (now - s.lastUsed) as real / HOUR_NS;
      }
      if s.reqCount > 0 {
        var rate := s.okCount as real / s.reqCount as real;
        if rate < 0.2 {
          rate := 0.2;
        }
        w := w * rate;
      }
      if w <= 0.0 {
        w := 0.000001;
      }
    }

    method Weigh(cands: seq<string>, now: Instant) returns (weights: seq<real>)
      requires forall id :: id in cands ==> id in states
      ensures weights == Weights(states, cands, now)
    {
      weights := [];
      hide Weight, Healthy;
      for k := 0 to |cands|
        invariant |weights| == k
        invariant forall j :: 0 <= j < k ==> cands[j] in states && weights[j] == Weight(states[cands[j]], now)
      {
        assert cands[k] in cands;
        var w := WeighOne(states[cands[k]], now);
        weights := weights + [w];
      }
    }

    /** The weighted choice among the healthy accounts. */
    method ChooseLocked(now: Instant, draw: real, uniform: nat) returns (r: Option<string>)
      ensures r == Choose(Value(), now, draw)
    {
      var cands := HealthyCandidates(now);
      if |cands| == 0 {
        return None;
      }
      var weights := Weigh(cands, now);
      TotalPositive(weights);
      hide Candidates, Weights, Total, Pick, Target, Weight, Healthy;
      var i := WeightedPick(weights, draw, uniform % |weights|);
      return Some(cands[i]);
    }

    /** One selection: sticky first, otherwise a weighted choice that is remembered. */
    method Select(key: string, now: Instant, draw: real, uniform: nat) returns (r: Option<string>)
      requires Valid()
      modifies this`sticky
      ensures (sticky, r) == SelectOnce(old(sticky), Request(key, now, Value(), draw))
    {
      hide Choose, Consistent, Healthy, Lookup, Remember;
      if key != "" {
        var id := LookupSticky(key, now);
        if id != "" {
          var ok := IdHealthy(id, now);
          if ok {
            return Some(id);
          }
        }
      }
      r := ChooseLocked(now, draw, uniform);
      if r.Some? && key != "" {
        RememberSticky(key, r.value, now);
      }
    }
  }
}
