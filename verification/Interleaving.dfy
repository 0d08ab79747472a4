/**
 Selections under concurrency. A selection is not atomic: the sticky lookup, the health
 check and the weighted choice each take and release their lock, and remembering the
 choice takes the second lock while still holding the first. Any number of selections
 interleave with each other, with the other pool operations and with the clock.
 */
module Interleaving {
  import opened Wrappers
  import opened PoolModel
  import opened Selection
  import opened Sticky

  /** Where a selecting thread is; the comment says which locks it holds. */
  datatype Phase =
    | Begin(key: string)
    | InLookup(key: string)                    // sticky lock
    | Looked(key: string, id: string)
    | InCheck(key: string, id: string)         // pool lock
    | MustChoose(key: string)
    | InChoose(key: string)                    // pool lock
    | Remembering(key: string, id: string)     // pool lock, waiting for the sticky lock
    | InRemember(key: string, id: string)      // both locks
    | Got(id: string)
    | Refused

  datatype World = World(
    accounts: Accounts,
    sticky: Cache,
    clock: Instant,
    poolLock: Option<nat>,
    stickyLock: Option<nat>,
    threads: map<nat, Phase>)

  datatype Step =
    | Start(t: nat, key: string)    // a thread calls Select
    | Act(t: nat, draw: real)       // a selecting thread does its next step
    | Other(op: Op)                 // another operation runs under the pool lock
    | Tick(delta: nat)

  predicate Finished(p: Phase) {
    p.Got? || p.Refused?
  }

  predicate HoldsPool(p: Phase) {
    p.InCheck? || p.InChoose? || p.Remembering? || p.InRemember?
  }

  predicate HoldsSticky(p: Phase) {
    p.InLookup? || p.InRemember?
  }

  /** The next step of a selecting thread; none if it has to wait for a lock. */
  function ThreadStep(w: World, t: nat, draw: real): Option<World>
    requires t in w.threads
  {
    match w.threads[t]
    case Begin(key) =>
      if key == "" then Some(w.(threads := w.threads[t := MustChoose(key)]))
      else if w.stickyLock.Some? then None
      else Some(w.(stickyLock := Some(t), threads := w.threads[t := InLookup(key)]))
    case InLookup(key) =>
      var (cache, id) := Lookup(w.sticky, key, w.clock);
      Some(w.(sticky := cache, stickyLock := None,
              threads := w.threads[t := if id == "" then MustChoose(key) else Looked(key, id)]))
    case Looked(key, id) =>
      if w.poolLock.Some? then None
      else Some(w.(poolLock := Some(t), threads := w.threads[t := InCheck(key, id)]))
    case InCheck(key, id) =>
      var ok := id in w.accounts.states && Healthy(w.accounts.states[id], w.clock);
      Some(w.(poolLock := None, threads := w.threads[t := if ok then Got(id) else MustChoose(key)]))
    case MustChoose(key) =>
      if w.poolLock.Some? then None
      else Some(w.(poolLock := Some(t), threads := w.threads[t := InChoose(key)]))
    case InChoose(key) =>
      (match Choose(w.accounts, w.clock, draw)
       case None => Some(w.(poolLock := None, threads := w.threads[t := Refused]))
       case Some(id) =>
         if key == "" then Some(w.(poolLock := None, threads := w.threads[t := Got(id)]))
         else Some(w.(threads := w.threads[t := Remembering(key, id)])))
    case Remembering(key, id) =>
      if w.stickyLock.Some? then None
      else Some(w.(stickyLock := Some(t), threads := w.threads[t := InRemember(key, id)]))
    case InRemember(key, id) =>
      Some(w.(sticky := Remember(w.sticky, key, id, w.clock), stickyLock := None, poolLock := None,
              threads := w.threads[t := Got(id)]))
    case Got(_) => None
    case Refused => None
  }

  function Next(cfg: Config, persist: bool, w: World, step: Step): Option<World> {
    match step
    case Start(t, key) =>
      if t in w.threads && !Finished(w.threads[t]) then None
      else Some(w.(threads := w.threads[t := Begin(key)]))
    case Act(t, draw) => if t in w.threads then ThreadStep(w, t, draw) else None
    case Other(op) =>
      if w.poolLock.Some? || op.Restart? then None else Some(w.(accounts := Apply(cfg, persist, w.accounts, op)))
    case Tick(delta) => Some(w.(clock := w.clock + delta))
  }

  /** The world after a sequence of steps, if each of them was possible. */
  function Exec(cfg: Config, persist: bool, w: World, steps: seq<Step>): Option<World> {
    if steps == [] then Some(w)
    else
      match Exec(cfg, persist, w, steps[..|steps| - 1])
      case None => None
      case Some(v) => Next(cfg, persist, v, steps[|steps| - 1])
  }

  ghost predicate Initial(w: World) {
    Consistent(w.accounts) && w.poolLock == None && w.stickyLock == None && w.threads == map[]
  }

  /** Each lock is held by exactly the threads whose phase says so, so by at most one. */
  ghost predicate LocksMatch(w: World) {
    && (forall t: nat :: w.poolLock == Some(t) <==> t in w.threads && HoldsPool(w.threads[t]))
    && (forall t: nat :: w.stickyLock == Some(t) <==> t in w.threads && HoldsSticky(w.threads[t]))
  }

  lemma ThreadLocks(w: World, t: nat, draw: real)
    requires LocksMatch(w) && t in w.threads && ThreadStep(w, t, draw).Some?
    ensures LocksMatch(ThreadStep(w, t, draw).value)
  {
    hide Choose, Lookup, Remember, Healthy;
    var v := ThreadStep(w, t, draw).value;
    assert v.threads == w.threads[t := v.threads[t]];
    assert w.poolLock == Some(t) <==> HoldsPool(w.threads[t]);
    assert w.stickyLock == Some(t) <==> HoldsSticky(w.threads[t]);
  }

  lemma NextLocks(cfg: Config, persist: bool, w: World, step: Step)
    requires LocksMatch(w) && Next(cfg, persist, w, step).Some?
    ensures LocksMatch(Next(cfg, persist, w, step).value)
  {
    hide ThreadStep, Apply;
    if step.Act? {
      ThreadLocks(w, step.t, step.draw);
    }
  }

  lemma NextConsistent(cfg: Config, persist: bool, w: World, step: Step)
    requires Consistent(w.accounts) && Next(cfg, persist, w, step).Some?
    ensures Consistent(Next(cfg, persist, w, step).value.accounts)
    ensures Next(cfg, persist, w, step).value.clock >= w.clock
  {
    if step.Other? {
      ApplyConsistent(cfg, persist, w.accounts, step.op);
    }
    hide Choose, Lookup, Remember, Apply, Healthy, Consistent;
  }

  lemma {:induction false} ExecInvariant(cfg: Config, persist: bool, w: World, steps: seq<Step>)
    requires Initial(w) && Exec(cfg, persist, w, steps).Some?
    ensures var v := Exec(cfg, persist, w, steps).value; LocksMatch(v) && Consistent(v.accounts) && v.clock >= w.clock
  {
    if steps != [] {
      var before := steps[..|steps| - 1];
      ExecInvariant(cfg, persist, w, before);
      NextLocks(cfg, persist, Exec(cfg, persist, w, before).value, steps[|steps| - 1]);
      NextConsistent(cfg, persist, Exec(cfg, persist, w, before).value, steps[|steps| - 1]);
      hide Next, LocksMatch, Consistent;
    }
  }

  // ----- No deadlock -----

  ghost predicate CanAct(w: World, t: nat) {
    t in w.threads && forall draw: real :: ThreadStep(w, t, draw).Some?
  }

  /** Because the sticky lock is only ever taken last, some selection can always go on. */
  lemma NoDeadlock(cfg: Config, persist: bool, w: World, steps: seq<Step>, t: nat) returns (u: nat)
    requires Initial(w) && Exec(cfg, persist, w, steps).Some?
    requires var v := Exec(cfg, persist, w, steps).value; t in v.threads && !Finished(v.threads[t])
    ensures CanAct(Exec(cfg, persist, w, steps).value, u)
  {
    ExecInvariant(cfg, persist, w, steps);
    hide Exec, LocksMatch, CanAct, Consistent;
    u := SomeoneCanAct(Exec(cfg, persist, w, steps).value, t);
  }

  lemma SomeoneCanAct(v: World, t: nat) returns (u: nat)
    requires LocksMatch(v) && t in v.threads && !Finished(v.threads[t])
    ensures CanAct(v, u)
  {
    u := if v.stickyLock.Some? then v.stickyLock.value
         else if v.poolLock.Some? then v.poolLock.value
         else t;
    assert v.stickyLock == Some(u) ==> u in v.threads && HoldsSticky(v.threads[u]);
    assert v.stickyLock == None && v.poolLock == Some(u) ==> u in v.threads && HoldsPool(v.threads[u]);
    forall draw: real ensures ThreadStep(v, u, draw).Some? {
      hide Choose, Lookup, Remember, Healthy, LocksMatch;
    }
  }

  // ----- Soundness and completeness of what is returned -----

  /**
   The step in which thread `t`, in world `w` and with random draw `draw`, settles on phase
   `p`: it holds the pool lock and either has just found that very account healthy, or
   chooses it among the healthy ones, or finds none healthy at all.
   */
  ghost predicate Settles(w: World, t: nat, draw: real, p: Phase) {
    && t in w.threads
    && match p
       case Got(id) => Finds(w, w.threads[t], draw, id)
       case Remembering(_, id) => Finds(w, w.threads[t], draw, id)
       case InRemember(_, id) => Finds(w, w.threads[t], draw, id)
       case Refused => w.threads[t].InChoose? && NoneHealthy(w)
       case _ => true
  }

  ghost predicate Finds(w: World, p: Phase, draw: real, id: string) {
    && (if p.InCheck? then p.id == id else p.InChoose? && Choose(w.accounts, w.clock, draw) == Some(id))
    && HealthyIn(w.accounts, id, w.clock)
  }

  ghost predicate NoneHealthy(w: World) {
    forall id :: !HealthyIn(w.accounts, id, w.clock)
  }

  predicate Settled(p: Phase) {
    p.Got? || p.Remembering? || p.InRemember? || p.Refused?
  }

  /** Step `k` is the step of the current selection of thread `t` that settled on phase `p`. */
  ghost predicate SettledAt(cfg: Config, persist: bool, w: World, steps: seq<Step>, t: nat, p: Phase, k: int) {
    && 0 <= k < |steps|
    && steps[k].Act? && steps[k].t == t
    && (forall j :: k < j < |steps| && steps[j].Start? ==> steps[j].t != t)
    && var u := Exec(cfg, persist, w, steps[..k]);
       u.Some? && Settles(u.value, t, steps[k].draw, p)
  }

  ghost predicate Justified(cfg: Config, persist: bool, w: World, steps: seq<Step>, t: nat, p: Phase) {
    Settled(p) ==> exists k :: SettledAt(cfg, persist, w, steps, t, p, k)
  }

  /** A later step that does not start a new selection of the thread leaves the settling step where it was. */
  lemma SettledPersists(cfg: Config, persist: bool, w: World, steps: seq<Step>, step: Step, t: nat, p: Phase,
                        q: Phase, k: int)
    requires SettledAt(cfg, persist, w, steps, t, p, k)
    requires !(step.Start? && step.t == t)
    requires q == p || (q.InRemember? && p.Remembering? && q.id == p.id) || (q.Got? && p.InRemember? && q.id == p.id)
    ensures SettledAt(cfg, persist, w, steps + [step], t, q, k)
  {
    assert (steps + [step])[..k] == steps[..k] && (steps + [step])[k] == steps[k];
    hide Exec, Finds, HealthyIn, Choose;
  }

  /** How one step of a selecting thread can settle it, or carry on what it has settled. */
  ghost predicate Settling(w: World, t: nat, draw: real, p: Phase, q: Phase) {
    Settled(q) ==>
      || Settles(w, t, draw, q)
      || (q.InRemember? && p.Remembering? && q.id == p.id)
      || (q.Got? && p.InRemember? && q.id == p.id)
  }

  lemma ThreadStepSettles(w: World, t: nat, draw: real)
    requires Consistent(w.accounts) && t in w.threads && ThreadStep(w, t, draw).Some?
    ensures Settling(w, t, draw, w.threads[t], ThreadStep(w, t, draw).value.threads[t])
  {
    hide Choose, Lookup, Remember, Healthy, Consistent, Finds, NoneHealthy;
    match w.threads[t] {
      case InCheck(_, id) =>
        if id in w.accounts.states && Healthy(w.accounts.states[id], w.clock) {
          CheckFinds(w, t, draw, id);
        }
      case InChoose(_) => ChooseFinds(w, t, draw);
      case _ =>
    }
  }

  lemma CheckFinds(w: World, t: nat, draw: real, id: string)
    requires t in w.threads && w.threads[t].InCheck? && w.threads[t].id == id
    requires id in w.accounts.states && Healthy(w.accounts.states[id], w.clock)
    ensures Finds(w, w.threads[t], draw, id)
  {
    hide Choose;
  }

  lemma ChooseFinds(w: World, t: nat, draw: real)
    requires Consistent(w.accounts) && t in w.threads && w.threads[t].InChoose?
    ensures match Choose(w.accounts, w.clock, draw)
            case None => NoneHealthy(w)
            case Some(id) => Finds(w, w.threads[t], draw, id)
  {
    ChooseSound(w.accounts, w.clock, draw);
    hide Choose, HealthyIn, Consistent;
  }

  /** What a step leaves of a thread's phase. */
  lemma PhaseChange(cfg: Config, persist: bool, u: World, step: Step, t: nat)
    requires Next(cfg, persist, u, step).Some? && t in Next(cfg, persist, u, step).value.threads
    ensures var q := Next(cfg, persist, u, step).value.threads[t];
      if step.Start? && step.t == t then q.Begin?
      else
        t in u.threads &&
        if step.Act? && step.t == t then
          ThreadStep(u, t, step.draw).Some? && q == ThreadStep(u, t, step.draw).value.threads[t]
        else q == u.threads[t]
  {
    hide Choose, Lookup, Remember, Healthy, Apply;
  }

  /**
   Every run: an account returned by a selection was in the pool, enabled and out of
   cooldown at the locked step, of this very selection, that checked it or chose it; and a
   refusal means that at the locked step of this selection no account was healthy.
   */
  lemma {:induction false} SelectionJustified(cfg: Config, persist: bool, w: World, steps: seq<Step>, t: nat)
    requires Initial(w) && Exec(cfg, persist, w, steps).Some?
    requires t in Exec(cfg, persist, w, steps).value.threads
    ensures Justified(cfg, persist, w, steps, t, Exec(cfg, persist, w, steps).value.threads[t])
  {
    if steps != [] {
      var before, step := steps[..|steps| - 1], steps[|steps| - 1];
      var u := Exec(cfg, persist, w, before).value;
      assert steps == before + [step] && steps[..|before|] == before;
      if t in u.threads {
        SelectionJustified(cfg, persist, w, before, t);
      }
      hide *;
      JustifiedStep(cfg, persist, w, before, step, t);
    }
  }

  lemma JustifiedStep(cfg: Config, persist: bool, w: World, before: seq<Step>, step: Step, t: nat)
    requires Initial(w) && Exec(cfg, persist, w, before + [step]).Some?
    requires Exec(cfg, persist, w, before).Some?
    requires var u := Exec(cfg, persist, w, before).value;
             t in u.threads ==> Justified(cfg, persist, w, before, t, u.threads[t])
    requires t in Exec(cfg, persist, w, before + [step]).value.threads
    ensures Justified(cfg, persist, w, before + [step], t, Exec(cfg, persist, w, before + [step]).value.threads[t])
  {
    var steps := before + [step];
    assert steps[..|steps| - 1] == before && steps[..|before|] == before && steps[|before|] == step;
    var u := Exec(cfg, persist, w, before).value;
    var v := Exec(cfg, persist, w, steps).value;
    assert Next(cfg, persist, u, step) == Some(v);
    ExecInvariant(cfg, persist, w, before);
    PhaseChange(cfg, persist, u, step, t);
    hide Exec, Next, ThreadStep, Consistent, LocksMatch, Settles, Initial;
    assert Exec(cfg, persist, w, steps[..|before|]) == Some(u);
    var q := v.threads[t];
    if Settled(q) {
      var p := u.threads[t];
      if step.Act? && step.t == t {
        ThreadStepSettles(u, t, step.draw);
        if Settles(u, t, step.draw, q) {
          assert SettledAt(cfg, persist, w, steps, t, q, |before|);
        } else {
          hide SettledAt;
          var k :| SettledAt(cfg, persist, w, before, t, p, k);
          SettledPersists(cfg, persist, w, before, step, t, p, q, k);
        }
      } else {
        hide SettledAt;
        var k :| SettledAt(cfg, persist, w, before, t, p, k);
        SettledPersists(cfg, persist, w, before, step, t, p, q, k);
      }
    }
  }
}
