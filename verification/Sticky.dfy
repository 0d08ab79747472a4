/**
 The sticky-session cache. It deletes entries lazily and in sweeps; `TimedLookup` and
 `TimedRemember` are the same cache without any deletion, with expiry decided by time alone.
 */
module Sticky {
  import opened Wrappers
  import opened PoolModel
  import opened Selection

  datatype Entry = Entry(id: string, lastSeen: Instant)

  type Cache = map<string, Entry>

  const TTL: int := 1800 * SECOND
  const SWEEP_ABOVE: nat := 2048

  predicate Expired(e: Entry, now: Instant) {
    now - e.lastSeen > TTL
  }

  /** A lookup: a hit renews the entry, an expired entry is dropped; "" means a miss. */
  function Lookup(c: Cache, key: string, now: Instant): (Cache, string) {
    if key !in c then (c, "")
    else if Expired(c[key], now) then (c - {key}, "")
    else (c[key := c[key].(lastSeen := now)], c[key].id)
  }

  function Swept(c: Cache, now: Instant): Cache {
    map key | key in c && !Expired(c[key], now) :: c[key]
  }

  function Remember(c: Cache, key: string, id: string, now: Instant): Cache {
    var d := c[key := Entry(id, now)];
    if |d| > SWEEP_ABOVE then Swept(d, now) else d
  }

  function TimedLookup(c: Cache, key: string, now: Instant): (Cache, string) {
    if key in c && !Expired(c[key], now) then (c[key := c[key].(lastSeen := now)], c[key].id) else (c, "")
  }

  function TimedRemember(c: Cache, key: string, id: string, now: Instant): Cache {
    c[key := Entry(id, now)]
  }

  // ----- Selections through the cache -----

  /** One selection: its key, its time, the pool it finds, and its random draw. */
  datatype Request = Request(key: string, now: Instant, accounts: Accounts, draw: real)

  /** A selection with the cache as the code keeps it. */
  function SelectOnce(c: Cache, q: Request): (Cache, Option<string>) {
    var (d, id) := if q.key == "" then (c, "") else Lookup(c, q.key, q.now);
    if id != "" && id in q.accounts.states && Healthy(q.accounts.states[id], q.now) then (d, Some(id))
    else
      match Choose(q.accounts, q.now, q.draw)
      case None => (d, None)
      case Some(chosen) => (if q.key == "" then d else Remember(d, q.key, chosen, q.now), Some(chosen))
  }

  /** `c` is `t` with some entries missing that have expired by now. */
  ghost predicate Refines(c: Cache, t: Cache, now: Instant) {
    && (forall key :: key in c ==> key in t && c[key] == t[key])
    && (forall key :: key in t && key !in c ==> Expired(t[key], now))
  }

  lemma SweepRefines(c: Cache, t: Cache, key: string, id: string, now: Instant)
    requires Refines(c, t, now)
    ensures Refines(Remember(c, key, id, now), TimedRemember(t, key, id, now), now)
  {
  }

  lemma LookupRefines(c: Cache, t: Cache, key: string, before: Instant, now: Instant)
    requires Refines(c, t, before) && before <= now
    ensures Lookup(c, key, now).1 == TimedLookup(t, key, now).1
    ensures Refines(Lookup(c, key, now).0, TimedLookup(t, key, now).0, now)
  {
  }

  /** A key is found exactly if it was used in the last 30 minutes, and then this counts as a use. */
  lemma LookupExact(c: Cache, key: string, now: Instant)
    requires key in c && c[key].id != ""
    ensures Lookup(c, key, now).1 == if now - c[key].lastSeen <= 1_800_000_000_000 then c[key].id else ""
    ensures Lookup(c, key, now).1 != "" ==> Lookup(c, key, now).0 == c[key := Entry(c[key].id, now)]
    ensures forall other :: other != key && other in c ==>
              other in Lookup(c, key, now).0 && Lookup(c, key, now).0[other] == c[other]
  {
  }

  /** Up to 2048 entries nothing is dropped; above that exactly the entries not used in the last 30 minutes. */
  lemma RememberExact(c: Cache, key: string, id: string, now: Instant)
    ensures var all, kept := c[key := Entry(id, now)], Remember(c, key, id, now);
      && (|all| <= 2048 ==> kept == all)
      && (|all| > 2048 ==> forall k :: k in kept <==> k in all && now - all[k].lastSeen <= 1_800_000_000_000)
      && (forall k :: k in kept ==> kept[k] == all[k])
  {
  }

  lemma RemembersSelected(c: Cache, q: Request, id: string)
    requires q.key != "" && SelectOnce(c, q).1 == Some(id)
    ensures q.key in SelectOnce(c, q).0 && SelectOnce(c, q).0[q.key] == Entry(id, q.now)
  {
    hide Choose, Healthy;
  }
}
