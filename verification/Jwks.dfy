/** The signing-key client: a cached key set, refreshed under a lock with a second check after the lock
    is taken. Callers interleave freely at every await. */
module Jwks {
  import opened KeyStore

  const CACHE_TTL: nat := 1800

  type KeySet = map<string, string>

  /** One entry of a served key set; `material` is None when no key can be built from it. */
  datatype Jwk = Jwk(kid: string, material: Option<string>)

  // ---- Parsing a served set --------------------------------------------------------------------

  predicate Usable(entry: Jwk) {
    entry.kid != "" && entry.material.Some?
  }

  /** The usable entries, a later one replacing an earlier one of the same id. */
  function Parsed(entries: seq<Jwk>): KeySet {
    if entries == [] then map[]
    else
      var front, entry := Parsed(entries[..|entries| - 1]), entries[|entries| - 1];
      if Usable(entry) then front[entry.kid := entry.material.value] else front
  }

  lemma {:induction false} ParsedIsTheLastUsableEntry(entries: seq<Jwk>, kid: string)
    ensures kid in Parsed(entries) <==> exists i :: 0 <= i < |entries| && Usable(entries[i]) && entries[i].kid == kid
    ensures kid in Parsed(entries) ==>
              exists i :: 0 <= i < |entries| && Usable(entries[i]) && entries[i].kid == kid &&
                          entries[i].material == Some(Parsed(entries)[kid]) &&
                          forall j :: i < j < |entries| ==> !(Usable(entries[j]) && entries[j].kid == kid)
  {
    if entries != [] {
      var n := |entries| - 1;
      ParsedIsTheLastUsableEntry(entries[..n], kid);
      assert forall i :: 0 <= i < n ==> entries[..n][i] == entries[i];
      if Usable(entries[n]) && entries[n].kid == kid {
        assert entries[n].material == Some(Parsed(entries)[kid]);
      } else if kid in Parsed(entries) {
        var i :| 0 <= i < n && Usable(entries[..n][i]) && entries[..n][i].kid == kid &&
                 entries[..n][i].material == Some(Parsed(entries)[kid]) &&
                 forall j :: i < j < n ==> !(Usable(entries[..n][j]) && entries[..n][j].kid == kid);
        assert Usable(entries[i]) && entries[i].kid == kid;
        forall j | i < j < |entries| ensures !(Usable(entries[j]) && entries[j].kid == kid) {
          if j < n { assert entries[..n][j] == entries[j]; }
        }
      }
    }
  }

  /** The parsing loop; None stands for the ValueError of a set without a usable key. */
  method ParseKeys(entries: seq<Jwk>) returns (keys: Option<KeySet>)
    ensures keys == if Parsed(entries) == map[] then None else Some(Parsed(entries))
  {
    if entries == [] { return None; }
    var newKeys: KeySet := map[];
    for i := 0 to |entries|
      invariant newKeys == Parsed(entries[..i])
    {
      assert entries[..i + 1][..i] == entries[..i];
      if entries[i].kid == "" { continue; }
      if entries[i].material.Some? {
        newKeys := newKeys[entries[i].kid := entries[i].material.value];
      }
    }
    assert entries[..|entries|] == entries;
    keys := if newKeys == map[] then None else Some(newKeys);
  }

  // ---- The callers -----------------------------------------------------------------------------

  datatype Caller =
    | Entering(kid: string)
    | Waiting(kid: string)     // missed the fast path
    | Locked(kid: string)      // holds the lock, about to check again
    | Fetching(kid: string)    // holds the lock, request in flight
    | Fetched(kid: string)     // released the lock after a successful fetch
    | Returned(kid: string, key: string)
    | Failed(kid: string)

  /** `fetches` records the completed fetches in order. */
  datatype Fetch = Fetch(time: int, served: KeySet)

  datatype Sys = Sys(now: int, keys: KeySet, lastFetch: Option<int>, lock: Option<nat>,
                     callers: map<nat, Caller>, fetches: seq<Fetch>)

  datatype Event =
    | Arrive(c: nat, kid: string)
    | FastPath(c: nat)
    | TakeLock(c: nat)
    | Recheck(c: nat)
    | Reply(c: nat, entries: seq<Jwk>)
    | HttpError(c: nat)
    | Finish(c: nat)
    | Cancel(c: nat)
    | ClearCache
    | Tick(elapsed: nat)

  const START: Sys := Sys(0, map[], None, None, map[], [])

  predicate Enabled(s: Sys, e: Event) {
    match e
    case Arrive(c, _) => c !in s.callers
    case FastPath(c) => c in s.callers && s.callers[c].Entering?
    case TakeLock(c) => c in s.callers && s.callers[c].Waiting? && s.lock == None
    case Recheck(c) => c in s.callers && s.callers[c].Locked?
    case Reply(c, _) => c in s.callers && s.callers[c].Fetching?
    case HttpError(c) => c in s.callers && s.callers[c].Fetching?
    case Finish(c) => c in s.callers && s.callers[c].Fetched?
    case Cancel(c) => c in s.callers && !s.callers[c].Returned?
    case ClearCache => true
    case Tick(_) => true
  }

  predicate Fresh(s: Sys) {
    s.lastFetch.Some? && s.now - s.lastFetch.value < CACHE_TTL
  }

  predicate HasLock(c: Caller) {
    c.Locked? || c.Fetching?
  }

  function Put(s: Sys, c: nat, pc: Caller): Sys {
    s.(callers := s.callers[c := pc])
  }

  function Step(s: Sys, e: Event): Sys
    requires Enabled(s, e)
  {
    match e
    case Arrive(c, kid) => Put(s, c, Entering(kid))
    case FastPath(c) =>
      var kid := s.callers[c].kid;
      Put(s, c, if Fresh(s) && kid in s.keys then Returned(kid, s.keys[kid]) else Waiting(kid))
    case TakeLock(c) => Put(s.(lock := Some(c)), c, Locked(s.callers[c].kid))
    case Recheck(c) =>
      var kid := s.callers[c].kid;
      if Fresh(s) && kid in s.keys then Put(s.(lock := None), c, Returned(kid, s.keys[kid]))
      else Put(s, c, Fetching(kid))
    case Reply(c, entries) =>
      var kid, keys := s.callers[c].kid, Parsed(entries);
      if keys == map[] then Put(s.(lock := None), c, Failed(kid))
      else Put(s.(lock := None, keys := keys, lastFetch := Some(s.now), fetches := s.fetches + [Fetch(s.now, keys)]),
               c, Fetched(kid))
    case HttpError(c) => Put(s.(lock := None), c, Failed(s.callers[c].kid))
    case Finish(c) =>
      var kid := s.callers[c].kid;
      Put(s, c, if kid in s.keys then Returned(kid, s.keys[kid]) else Failed(kid))
    case Cancel(c) =>
      Put(if HasLock(s.callers[c]) then s.(lock := None) else s, c, Failed(s.callers[c].kid))
    case ClearCache => s.(keys := map[], lastFetch := None)
    case Tick(elapsed) => s.(now := s.now + elapsed)
  }

  predicate Feasible(s: Sys, es: seq<Event>)
    decreases |es|
  {
    es == [] || (Enabled(s, es[0]) && Feasible(Step(s, es[0]), es[1..]))
  }

  function After(s: Sys, es: seq<Event>): Sys
    requires Feasible(s, es)
    decreases |es|
  {
    if es == [] then s else After(Step(s, es[0]), es[1..])
  }

  function Latest(s: Sys): Fetch
    requires s.fetches != []
  {
    s.fetches[|s.fetches| - 1]
  }

  /** The lock has exactly one holder, and the cache is the latest completed fetch or was cleared since. */
  ghost predicate Inv(s: Sys) {
    && (forall c :: c in s.callers && HasLock(s.callers[c]) ==> s.lock == Some(c))
    && (s.keys != map[] ==> s.fetches != [] && s.keys == Latest(s).served)
    && (s.lastFetch.Some? ==> s.fetches != [] && s.lastFetch.value == Latest(s).time)
    && (s.fetches != [] ==> Latest(s).time <= s.now)
  }

  lemma StepKeepsInv(s: Sys, e: Event)
    requires Inv(s) && Enabled(s, e)
    ensures Inv(Step(s, e))
  {
    hide Parsed;
  }

  lemma {:induction false} RunKeepsInv(s: Sys, es: seq<Event>)
    requires Inv(s) && Feasible(s, es)
    ensures Inv(After(s, es))
    decreases |es|
  {
    if es != [] {
      StepKeepsInv(s, es[0]);
      RunKeepsInv(Step(s, es[0]), es[1..]);
    }
  }

  /** However callers interleave, at most one fetch is in flight. */
  lemma SingleFlight(es: seq<Event>, c: nat, d: nat)
    requires Feasible(START, es)
    ensures var s := After(START, es);
            c in s.callers && d in s.callers && s.callers[c].Fetching? && s.callers[d].Fetching? ==> c == d
  {
    RunKeepsInv(START, es);
  }

  /** A fetch that fails, by HTTP or because nothing served is usable, leaves the cache as it was. */
  lemma FailedFetchLeavesTheCache(s: Sys, e: Event)
    requires Enabled(s, e) && (e.HttpError? || (e.Reply? && forall i :: 0 <= i < |e.entries| ==> !Usable(e.entries[i])))
    ensures Step(s, e).keys == s.keys && Step(s, e).lastFetch == s.lastFetch && Step(s, e).fetches == s.fetches
    ensures Step(s, e).callers[e.c].Failed?
  {
    if e.Reply? {
      forall kid ensures kid !in Parsed(e.entries) { ParsedIsTheLastUsableEntry(e.entries, kid); }
      assert Parsed(e.entries) == map[];
    }
  }

  /** A key is returned only out of the latest completed fetch. */
  lemma ReturnedKeyIsFromTheLatestFetch(es: seq<Event>, e: Event, c: nat)
    requires Feasible(START, es) && Enabled(After(START, es), e)
    requires var s, s' := After(START, es), Step(After(START, es), e);
             c in s.callers && !s.callers[c].Returned? && s'.callers[c].Returned?
    ensures var s, s' := After(START, es), Step(After(START, es), e);
            s.fetches != [] && s'.callers[c].kid in Latest(s).served &&
            s'.callers[c].key == Latest(s).served[s'.callers[c].kid]
  {
    RunKeepsInv(START, es);
  }

  /** Without fetching, a caller gets a key if and only if the last completed fetch is less than half an hour old, the
      cache was not cleared since, and that fetch served the key; otherwise it waits for the lock, or fetches. */
  lemma CachedKeysAreFresh(es: seq<Event>, e: Event)
    requires Feasible(START, es) && Enabled(After(START, es), e) && (e.FastPath? || e.Recheck?)
    ensures var s := After(START, es);
            var kid, after := s.callers[e.c].kid, Step(s, e).callers[e.c];
            && (after.Returned? <==>
                  s.lastFetch.Some? && s.fetches != [] && s.now - Latest(s).time < 1800 && kid in Latest(s).served &&
                  s.keys == Latest(s).served)
            && (!after.Returned? ==> after == if e.FastPath? then Waiting(kid) else Fetching(kid))
  {
    RunKeepsInv(START, es);
  }

  // ---- How often the client fetches ------------------------------------------------------------

  /** Nobody clears the cache, and every served set that parses has every requested id. */
  predicate Covered(e: Event, kids: set<string>) {
    match e
    case Arrive(_, kid) => kid in kids
    case Reply(_, entries) => Parsed(entries) == map[] || kids <= Parsed(entries).Keys
    case ClearCache => false
    case _ => true
  }

  /** Completed fetches are at least the ttl apart, and so is one in flight from the latest of them. */
  ghost predicate Spaced(s: Sys, kids: set<string>) {
    && Inv(s)
    && (forall c :: c in s.callers ==> s.callers[c].kid in kids)
    && (s.fetches != [] ==> s.lastFetch.Some? && kids <= s.keys.Keys)
    && (forall i :: 0 <= i < |s.fetches| - 1 ==> s.fetches[i + 1].time - s.fetches[i].time >= CACHE_TTL)
    && (forall c :: c in s.callers && s.callers[c].Fetching? && s.fetches != [] ==> s.now - Latest(s).time >= CACHE_TTL)
  }

  lemma ReplyKeepsSpaced(s: Sys, c: nat, entries: seq<Jwk>, kids: set<string>)
    requires Spaced(s, kids) && Enabled(s, Reply(c, entries)) && Covered(Reply(c, entries), kids)
    requires Inv(Step(s, Reply(c, entries)))
    ensures Spaced(Step(s, Reply(c, entries)), kids)
  {
    hide Parsed;
    assert HasLock(s.callers[c]);
  }

  lemma OthersKeepSpaced(s: Sys, e: Event, kids: set<string>)
    requires Spaced(s, kids) && Enabled(s, e) && Covered(e, kids) && !e.Reply? && Inv(Step(s, e))
    ensures Spaced(Step(s, e), kids)
  {
    hide Parsed;
  }

  lemma StepKeepsSpaced(s: Sys, e: Event, kids: set<string>)
    requires Spaced(s, kids) && Enabled(s, e) && Covered(e, kids)
    ensures Spaced(Step(s, e), kids)
  {
    StepKeepsInv(s, e);
    if e.Reply? { ReplyKeepsSpaced(s, e.c, e.entries, kids); } else { OthersKeepSpaced(s, e, kids); }
  }

  lemma {:induction false} RunKeepsSpaced(s: Sys, es: seq<Event>, kids: set<string>)
    requires Spaced(s, kids) && Feasible(s, es) && forall i :: 0 <= i < |es| ==> Covered(es[i], kids)
    ensures Spaced(After(s, es), kids)
    decreases |es|
  {
    if es != [] {
      StepKeepsSpaced(s, es[0], kids);
      RunKeepsSpaced(Step(s, es[0]), es[1..], kids);
    }
  }

  /** A fetch starts only when the ttl has passed since the last completed one. Failed fetches are allowed. */
  lemma FetchesOnlyAfterTheTtl(es: seq<Event>, kids: set<string>, c: nat)
    requires Feasible(START, es) && forall i :: 0 <= i < |es| ==> Covered(es[i], kids)
    requires var s := After(START, es); Enabled(s, Recheck(c)) && Step(s, Recheck(c)).callers[c].Fetching?
    ensures var s := After(START, es); s.fetches == [] || s.now - Latest(s).time >= CACHE_TTL
  {
    RunKeepsSpaced(START, es, kids);
  }

  lemma {:induction false} SpacedTimes(fetches: seq<Fetch>)
    requires fetches != []
    requires forall i :: 0 <= i < |fetches| - 1 ==> fetches[i + 1].time - fetches[i].time >= CACHE_TTL
    ensures (|fetches| - 1) * CACHE_TTL <= fetches[|fetches| - 1].time - fetches[0].time
  {
    if |fetches| > 1 { SpacedTimes(fetches[..|fetches| - 1]); }
  }

  /** So the number of completed fetches is bounded by the time a run takes. */
  lemma FetchesAreRare(es: seq<Event>, kids: set<string>)
    requires Feasible(START, es) && forall i :: 0 <= i < |es| ==> Covered(es[i], kids)
    ensures var s := After(START, es); s.fetches != [] ==> (|s.fetches| - 1) * CACHE_TTL <= s.now - s.fetches[0].time
  {
    RunKeepsSpaced(START, es, kids);
    var s := After(START, es);
    if s.fetches != [] { SpacedTimes(s.fetches); }
  }

  // ---- The lock is given back ------------------------------------------------------------------

  /** Every entry with an id and a key is served, and no other. */
  lemma {:induction false} GoodEntriesAreServed(entries: seq<Jwk>)
    ensures "" !in Parsed(entries)
    ensures forall i :: 0 <= i < |entries| && entries[i].kid != "" && entries[i].material.Some? ==>
              entries[i].kid in Parsed(entries)
    ensures (forall i :: 0 <= i < |entries| ==> entries[i].material.None?) ==> Parsed(entries) == map[]
  {
    if entries != [] {
      var n := |entries| - 1;
      GoodEntriesAreServed(entries[..n]);
      assert forall i :: 0 <= i < n ==> entries[..n][i] == entries[i];
    }
  }

  /** A lock that is taken is held by a caller that is about to check again or is fetching. */
  ghost predicate LockIsHeld(s: Sys) {
    s.lock.Some? ==> s.lock.value in s.callers && (s.callers[s.lock.value].Locked? || s.callers[s.lock.value].Fetching?)
  }

  lemma StepKeepsLockHeld(s: Sys, e: Event)
    requires Inv(s) && LockIsHeld(s) && Enabled(s, e)
    ensures LockIsHeld(Step(s, e))
  {
    hide Parsed;
  }

  lemma {:induction false} RunKeepsLockHeld(s: Sys, es: seq<Event>)
    requires Inv(s) && LockIsHeld(s) && Feasible(s, es)
    ensures LockIsHeld(After(s, es))
    decreases |es|
  {
    if es != [] {
      StepKeepsInv(s, es[0]);
      StepKeepsLockHeld(s, es[0]);
      RunKeepsLockHeld(Step(s, es[0]), es[1..]);
    }
  }

  /** However callers interleave, fail or are cancelled: whenever nobody is about to check or fetching, the lock is
      free, and every waiting caller can take it. */
  lemma TheLockIsGivenBack(es: seq<Event>, c: nat)
    requires Feasible(START, es)
    ensures var s := After(START, es);
            (forall d :: d in s.callers ==> !s.callers[d].Locked? && !s.callers[d].Fetching?) ==>
              s.lock == None && (c in s.callers && s.callers[c].Waiting? ==> Enabled(s, TakeLock(c)))
  {
    RunKeepsLockHeld(START, es);
  }

  // ---- What a caller alone brings about --------------------------------------------------------

  /** A caller that finds nothing usable in the cache, with the lock free, fetches once: a served set with its key is
      cached, recorded and gives that key; the lock is free again. */
  lemma ACallerAloneGetsItsKey(s: Sys, c: nat, kid: string, entries: seq<Jwk>)
    requires c !in s.callers && s.lock == None && !(Fresh(s) && kid in s.keys)
    ensures var waiting := Step(Step(s, Arrive(c, kid)), FastPath(c));
            var fetching := Step(Step(waiting, TakeLock(c)), Recheck(c));
            var fetched := Step(fetching, Reply(c, entries));
            && fetching.callers[c] == Fetching(kid) && fetching.lock == Some(c)
            && fetched.lock == None
            && (Parsed(entries) == map[] ==> fetched.callers[c] == Failed(kid) && fetched.keys == s.keys)
            && (Parsed(entries) != map[] ==>
                  && fetched.keys == Parsed(entries) && fetched.lastFetch == Some(s.now)
                  && fetched.fetches == s.fetches + [Fetch(s.now, Parsed(entries))]
                  && Step(fetched, Finish(c)).callers[c] ==
                     if kid in Parsed(entries) then Returned(kid, Parsed(entries)[kid]) else Failed(kid))
  {
    hide Parsed;
  }

  /** A caller that is cancelled has failed, and gives back the lock it held. */
  lemma TheCancelledGiveBackTheLock(es: seq<Event>, c: nat)
    requires Feasible(START, es) && Enabled(After(START, es), Cancel(c))
    ensures var s, s' := After(START, es), Step(After(START, es), Cancel(c));
            && s'.callers[c].Failed? && s'.keys == s.keys
            && s'.lock == if s.lock == Some(c) then None else s.lock
  {
    RunKeepsInv(START, es);
    RunKeepsLockHeld(START, es);
  }

  /** After the cache is cleared nobody gets a key without a fetch. */
  lemma AClearedCacheHasNothing(s: Sys, e: Event)
    requires Enabled(Step(s, ClearCache), e) && (e.FastPath? || e.Recheck?)
    ensures Step(s, ClearCache).keys == map[] && !Step(Step(s, ClearCache), e).callers[e.c].Returned?
  {
  }
}
