/** The singleton scheduler's lease: a token under a key with expiry, renewed by GET then EXPIRE and
    released by GET then DELETE, so other processes may act between the two commands. */
module SchedulerLease {
  import opened KeyStore

  /** `renewed` is the time of the last SET or EXPIRE by which the process extended the lease. A process
      uses its own number as its token. */
  datatype Phase =
    | Idle
    | Holding(renewed: int)
    | RenewChecked(renewed: int)     // its token was read back; EXPIRE comes next
    | Stopping(renewed: int)         // renewal task cancelled; about to read the key
    | ReleaseChecked(renewed: int)   // its token was read back; DELETE comes next
    | Exited

  datatype Sys = Sys(now: int, cell: Cell<nat>, procs: map<nat, Phase>)

  datatype Event =
    | Spawn(p: nat)
    | Acquire(p: nat)
    | RenewGet(p: nat)
    | RenewExpire(p: nat)
    | Stop(p: nat)
    | ReleaseGet(p: nat)
    | ReleaseDelete(p: nat)
    | Crash(p: nat)
    | Tick(elapsed: nat)

  const START: Sys := Sys(0, Absent, map[])

  predicate Enabled(s: Sys, e: Event) {
    match e
    case Spawn(p) => p !in s.procs
    case Acquire(p) => p in s.procs && s.procs[p].Idle?
    case RenewGet(p) => p in s.procs && s.procs[p].Holding?
    case RenewExpire(p) => p in s.procs && s.procs[p].RenewChecked?
    case Stop(p) => p in s.procs && s.procs[p].Holding?
    case ReleaseGet(p) => p in s.procs && s.procs[p].Stopping?
    case ReleaseDelete(p) => p in s.procs && s.procs[p].ReleaseChecked?
    case Crash(p) => p in s.procs
    case Tick(_) => true
  }

  function Step(s: Sys, e: Event, ttl: nat): Sys
    requires Enabled(s, e)
  {
    match e
    case Spawn(p) => s.(procs := s.procs[p := Idle])
    case Acquire(p) =>
      if s.cell.Absent? then s.(cell := s.cell.SetNx(p, s.now, ttl), procs := s.procs[p := Holding(s.now)])
      else s.(procs := s.procs[p := Exited])
    case RenewGet(p) =>
      s.(procs := s.procs[p := if s.cell.Get() == Some(p) then RenewChecked(s.procs[p].renewed) else Exited])
    case RenewExpire(p) =>
      // EXPIRE neither looks at the token nor reports a missing key to its caller here
      s.(cell := s.cell.Expire(s.now, ttl), procs := s.procs[p := Holding(s.now)])
    case Stop(p) => s.(procs := s.procs[p := Stopping(s.procs[p].renewed)])
    case ReleaseGet(p) =>
      s.(procs := s.procs[p := if s.cell.Get() == Some(p) then ReleaseChecked(s.procs[p].renewed) else Exited])
    case ReleaseDelete(p) => s.(cell := Absent, procs := s.procs[p := Exited])
    case Crash(p) => s.(procs := s.procs[p := Exited])
    case Tick(elapsed) => s.(now := s.now + elapsed, cell := s.cell.At(s.now + elapsed))
  }

  /** Between acquire and release. */
  predicate Active(s: Sys, p: nat) {
    p in s.procs && !s.procs[p].Idle? && !s.procs[p].Exited?
  }

  /** Renewals and the release take effect less than `ttl` after the previous renewal. */
  ghost predicate Timely(s: Sys, e: Event, ttl: nat) {
    e.Tick? ==> forall p :: Active(s, p) ==> s.now + e.elapsed < s.procs[p].renewed + ttl
  }

  /** A run of the code, whatever the timing. */
  ghost predicate Feasible(s: Sys, es: seq<Event>, ttl: nat)
    decreases |es|
  {
    es == [] || (Enabled(s, es[0]) && Feasible(Step(s, es[0], ttl), es[1..], ttl))
  }

  ghost predicate AllTimely(s: Sys, es: seq<Event>, ttl: nat)
    requires Feasible(s, es, ttl)
    decreases |es|
  {
    es == [] || (Timely(s, es[0], ttl) && AllTimely(Step(s, es[0], ttl), es[1..], ttl))
  }

  /** A run that meets the premise on timing. */
  ghost predicate Legal(s: Sys, es: seq<Event>, ttl: nat) {
    Feasible(s, es, ttl) && AllTimely(s, es, ttl)
  }

  function After(s: Sys, es: seq<Event>, ttl: nat): Sys
    requires Feasible(s, es, ttl)
    decreases |es|
  {
    if es == [] then s else After(Step(s, es[0], ttl), es[1..], ttl)
  }

  ghost predicate Inv(s: Sys, ttl: nat) {
    forall p :: Active(s, p) ==> s.cell == Present(p, s.procs[p].renewed + ttl) && s.now < s.procs[p].renewed + ttl
  }

  lemma StepKeepsInv(s: Sys, e: Event, ttl: nat)
    requires ttl > 0 && Inv(s, ttl) && Enabled(s, e) && Timely(s, e, ttl)
    ensures Inv(Step(s, e, ttl), ttl)
  {
    var s' := Step(s, e, ttl);
    forall p | Active(s', p)
      ensures s'.cell == Present(p, s'.procs[p].renewed + ttl) && s'.now < s'.procs[p].renewed + ttl
    {
      assert Active(s, p) || e == Acquire(p);
      if !e.Tick? && Active(s, e.p) { assert s.cell == Present(e.p, s.procs[e.p].renewed + ttl); }
    }
  }

  lemma {:induction false} RunKeepsInv(s: Sys, es: seq<Event>, ttl: nat)
    requires ttl > 0 && Inv(s, ttl) && Legal(s, es, ttl)
    ensures Inv(After(s, es, ttl), ttl)
    decreases |es|
  {
    if es != [] {
      StepKeepsInv(s, es[0], ttl);
      RunKeepsInv(Step(s, es[0], ttl), es[1..], ttl);
    }
  }

  /** For any number of processes and any timely interleaving: at most one is between acquire and release,
      and the key holds its token, not yet expired. */
  lemma MutualExclusion(es: seq<Event>, ttl: nat, p: nat, q: nat)
    requires ttl > 0 && Legal(START, es, ttl) && Active(After(START, es, ttl), p)
    ensures var s := After(START, es, ttl);
            && (Active(s, q) ==> p == q)
            && s.cell.Get() == Some(p) && s.now < s.cell.expires
  {
    RunKeepsInv(START, es, ttl);
  }

  /** A timely process never finds its lease lost, and releasing it really frees the key. */
  lemma TimelyRenewalAndReleaseSucceed(es: seq<Event>, ttl: nat, p: nat)
    requires ttl > 0 && Legal(START, es, ttl)
    ensures var s := After(START, es, ttl);
            && (Enabled(s, RenewGet(p)) ==> Step(s, RenewGet(p), ttl).procs[p].RenewChecked?)
            && (Enabled(s, RenewExpire(p)) ==> Step(s, RenewExpire(p), ttl).cell == Present(p, s.now + ttl))
            && (Enabled(s, ReleaseGet(p)) ==> Step(s, ReleaseGet(p), ttl).procs[p].ReleaseChecked?)
            && (Enabled(s, ReleaseDelete(p)) ==> s.cell.Get() == Some(p))
  {
    RunKeepsInv(START, es, ttl);
  }

  /** The premise is exact: if the holder lets `elapsed` seconds pass, a newcomer's acquire makes a second
      active process if and only if the lease has run out by then. */
  lemma ExclusionLastsExactlyTheTtl(s: Sys, p: nat, newcomer: nat, elapsed: nat, ttl: nat)
    requires ttl > 0 && Inv(s, ttl) && Active(s, p) && newcomer !in s.procs
    ensures var late := Step(Step(Step(s, Tick(elapsed), ttl), Spawn(newcomer), ttl), Acquire(newcomer), ttl);
            Active(late, p) && (Active(late, newcomer) <==> s.procs[p].renewed + ttl <= s.now + elapsed)
  {
  }

  // ---- The renewal period ----------------------------------------------------------------------

  function Sleep(ttl: nat): nat {
    if ttl / 3 > 1 then ttl / 3 else 1
  }

  /** Every active process acts again within its sleep plus `latency`. */
  ghost predicate Punctual(s: Sys, e: Event, ttl: nat, latency: nat) {
    e.Tick? ==> forall p :: Active(s, p) ==> s.now + e.elapsed <= s.procs[p].renewed + Sleep(ttl) + latency
  }

  ghost predicate PunctualRun(s: Sys, es: seq<Event>, ttl: nat, latency: nat)
    decreases |es|
  {
    es == [] ||
    (Enabled(s, es[0]) && Punctual(s, es[0], ttl, latency) && PunctualRun(Step(s, es[0], ttl), es[1..], ttl, latency))
  }

  /** With latency below `ttl - max(1, ttl // 3)`, the renewal period meets the timing premise. */
  lemma {:induction false} PunctualRunsAreLegal(s: Sys, es: seq<Event>, ttl: nat, latency: nat)
    requires latency + Sleep(ttl) < ttl && PunctualRun(s, es, ttl, latency)
    ensures Legal(s, es, ttl)
    decreases |es|
  {
    if es != [] {
      assert Timely(s, es[0], ttl);
      PunctualRunsAreLegal(Step(s, es[0], ttl), es[1..], ttl, latency);
    }
  }

  /** Room for a positive latency exists for every ttl from 3 up, for an instantaneous renewal from 2 up,
      and never for 1. The room is at least two thirds of the ttl from then on. */
  lemma SleepLeavesRoom(ttl: nat)
    ensures Sleep(ttl) < ttl <==> ttl >= 2
    ensures Sleep(ttl) + 1 < ttl <==> ttl >= 3
    ensures ttl >= 3 ==> 3 * (ttl - Sleep(ttl)) >= 2 * ttl
  {
  }

  /** Started with a ttl of at least 2 and latency inside the room, schedulers never overlap. */
  lemma PunctualSchedulersNeverOverlap(es: seq<Event>, ttl: nat, latency: nat, p: nat, q: nat)
    requires latency + Sleep(ttl) < ttl && PunctualRun(START, es, ttl, latency)
    ensures Legal(START, es, ttl)
    ensures Active(After(START, es, ttl), p) && Active(After(START, es, ttl), q) ==> p == q
  {
    PunctualRunsAreLegal(START, es, ttl, latency);
    if Active(After(START, es, ttl), p) { MutualExclusion(es, ttl, p, q); }
  }

  // ---- What the token check decides ------------------------------------------------------------

  /** The process reads the key: in its renewal, or in its release. */
  predicate ReadsToken(e: Event) {
    e.RenewGet? || e.ReleaseGet?
  }

  /** The event by which a process acts on what it has read. */
  predicate ActsOnToken(e: Event) {
    e.RenewExpire? || e.ReleaseDelete?
  }

  /** In any state, so over every run whatever the timing: a process that reads a missing key or another's token has
      left, and one that reads its own goes on to act; reading never changes the key. */
  lemma ATokenIsChecked(s: Sys, e: Event, ttl: nat)
    requires Enabled(s, e) && ReadsToken(e)
    ensures var s' := Step(s, e, ttl);
            && s'.cell == s.cell
            && (s.cell.Get() != Some(e.p) ==> s'.procs[e.p].Exited?)
            && (s.cell.Get() == Some(e.p) && e.RenewGet? ==> s'.procs[e.p].RenewChecked?)
            && (s.cell.Get() == Some(e.p) && e.ReleaseGet? ==> s'.procs[e.p].ReleaseChecked?)
  {
  }

  /** A process that has left changes nothing any more. */
  lemma TheExitedStayAway(s: Sys, e: Event, ttl: nat, p: nat)
    requires Enabled(s, e) && p in s.procs && s.procs[p].Exited?
    ensures Step(s, e, ttl).procs[p].Exited?
    ensures e.Tick? || e.p != p || (e.Crash? && Step(s, e, ttl).cell == s.cell)
  {
  }

  /** Acting on a key that holds its own token, a process gives it a full ttl or frees it, and nothing else. */
  lemma ActsOnItsOwnKey(s: Sys, e: Event, ttl: nat)
    requires Enabled(s, e) && ActsOnToken(e) && s.cell.Get() == Some(e.p)
    ensures Step(s, e, ttl).cell == if e.RenewExpire? then Present(e.p, s.now + ttl) else Absent
    ensures if e.RenewExpire? then Step(s, e, ttl).procs[e.p] == Holding(s.now) else Step(s, e, ttl).procs[e.p].Exited?
  {
  }

  predicate Checked(s: Sys, p: nat) {
    p in s.procs && (s.procs[p].RenewChecked? || s.procs[p].ReleaseChecked?)
  }

  /** Neither time passes nor does the process itself move. */
  predicate Waits(es: seq<Event>, p: nat) {
    forall i :: 0 <= i < |es| ==> !es[i].Tick? && es[i].p != p
  }

  /** Another process's DELETE is among the events. */
  predicate Deletes(es: seq<Event>) {
    exists i :: 0 <= i < |es| && es[i].ReleaseDelete?
  }

  lemma OneStepFromAnOwnToken(s: Sys, e: Event, ttl: nat, p: nat)
    requires Enabled(s, e) && !e.Tick? && e.p != p && Checked(s, p)
    ensures var s' := Step(s, e, ttl);
            && Checked(s', p)
            && (s.cell.Get() == Some(p) ==> (s'.cell.Get() == Some(p) <==> !e.ReleaseDelete?))
            && (s.cell.Get() != Some(p) ==> s'.cell.Get() != Some(p))
  {
  }

  lemma {:induction false} AForeignTokenStays(s: Sys, es: seq<Event>, ttl: nat, p: nat)
    requires Feasible(s, es, ttl) && Waits(es, p) && Checked(s, p) && s.cell.Get() != Some(p)
    ensures After(s, es, ttl).cell.Get() != Some(p)
    decreases |es|
  {
    if es != [] {
      OneStepFromAnOwnToken(s, es[0], ttl, p);
      AForeignTokenStays(Step(s, es[0], ttl), es[1..], ttl, p);
    }
  }

  lemma {:induction false} StaysChecked(s: Sys, es: seq<Event>, ttl: nat, p: nat)
    requires Feasible(s, es, ttl) && Waits(es, p) && Checked(s, p)
    ensures Checked(After(s, es, ttl), p)
    decreases |es|
  {
    if es != [] {
      OneStepFromAnOwnToken(s, es[0], ttl, p);
      StaysChecked(Step(s, es[0], ttl), es[1..], ttl, p);
    }
  }

  /** A process that has read its own token and acts without time passing in between, whatever the others do
      meanwhile, acts on a key that holds its own token if and only if no other process's DELETE came in between. */
  lemma {:induction false} ActsOnItsOwnKeyExactly(s: Sys, es: seq<Event>, ttl: nat, p: nat)
    requires Feasible(s, es, ttl) && Waits(es, p) && Checked(s, p) && s.cell.Get() == Some(p)
    ensures Checked(After(s, es, ttl), p)
    ensures After(s, es, ttl).cell.Get() == Some(p) <==> !Deletes(es)
    decreases |es|
  {
    if es != [] {
      var s' := Step(s, es[0], ttl);
      OneStepFromAnOwnToken(s, es[0], ttl, p);
      StaysChecked(s', es[1..], ttl, p);
      if es[0].ReleaseDelete? {
        AForeignTokenStays(s', es[1..], ttl, p);
      } else {
        ActsOnItsOwnKeyExactly(s', es[1..], ttl, p);
        assert Deletes(es) <==> Deletes(es[1..]) by {
          if i :| 0 <= i < |es| && es[i].ReleaseDelete? { assert es[1..][i - 1] == es[i]; }
          if i :| 0 <= i < |es[1..]| && es[1..][i].ReleaseDelete? { assert es[i + 1] == es[1..][i]; }
        }
      }
    }
  }

  // ---- Without the premise on timing -----------------------------------------------------------

  /** The token check is not atomic with the DELETE. If a process lets `elapsed` seconds pass in between, one that
      starts after it becomes active, and a third one beside it, if and only if the lease had run out by then. */
  lemma LateReleaseDeletesAnothersLease(s: Sys, p: nat, q: nat, r: nat, elapsed: nat, ttl: nat)
    requires ttl > 0 && Inv(s, ttl) && p in s.procs && s.procs[p].ReleaseChecked?
    requires q !in s.procs && r !in s.procs && q != r
    ensures var s1 := Step(Step(Step(s, Tick(elapsed), ttl), Spawn(q), ttl), Acquire(q), ttl);
            var s2 := Step(s1, ReleaseDelete(p), ttl);
            var s3 := Step(Step(s2, Spawn(r), ttl), Acquire(r), ttl);
            && Active(s3, r)
            && (Active(s3, q) <==> s.procs[p].renewed + ttl <= s.now + elapsed)
  {
    assert Active(s, p);
  }

  lemma FeasibleCons(s: Sys, e: Event, rest: seq<Event>, ttl: nat)
    requires Enabled(s, e) && Feasible(Step(s, e, ttl), rest, ttl)
    ensures Feasible(s, [e] + rest, ttl) && After(s, [e] + rest, ttl) == After(Step(s, e, ttl), rest, ttl)
  {
    assert ([e] + rest)[1..] == rest;
  }

  /** As a run. */
  lemma ALateReleaseIsFeasible(s: Sys, p: nat, q: nat, r: nat, elapsed: nat, ttl: nat)
    requires ttl > 0 && Inv(s, ttl) && p in s.procs && s.procs[p].ReleaseChecked?
    requires s.procs[p].renewed + ttl <= s.now + elapsed && q !in s.procs && r !in s.procs && q != r
    ensures var es := [Tick(elapsed), Spawn(q), Acquire(q), ReleaseDelete(p), Spawn(r), Acquire(r)];
            Feasible(s, es, ttl) && Active(After(s, es, ttl), q) && Active(After(s, es, ttl), r)
  {
    LateReleaseDeletesAnothersLease(s, p, q, r, elapsed, ttl);
    var s1 := Step(s, Tick(elapsed), ttl);
    var s2 := Step(s1, Spawn(q), ttl);
    var s3 := Step(s2, Acquire(q), ttl);
    var s4 := Step(s3, ReleaseDelete(p), ttl);
    var s5 := Step(s4, Spawn(r), ttl);
    FeasibleCons(s5, Acquire(r), [], ttl);
    hide Step, Feasible, After;
    var es4 := [Spawn(r)] + [Acquire(r)];
    var es3 := [ReleaseDelete(p)] + es4;
    var es2 := [Acquire(q)] + es3;
    var es1 := [Spawn(q)] + es2;
    assert [Acquire(r)] == [Acquire(r)] + [];
    FeasibleCons(s4, Spawn(r), [Acquire(r)], ttl);
    FeasibleCons(s3, ReleaseDelete(p), es4, ttl);
    FeasibleCons(s2, Acquire(q), es3, ttl);
    FeasibleCons(s1, Spawn(q), es2, ttl);
    FeasibleCons(s, Tick(elapsed), es1, ttl);
    assert [Tick(elapsed)] + es1 == [Tick(elapsed), Spawn(q), Acquire(q), ReleaseDelete(p), Spawn(r), Acquire(r)];
  }

  lemma FeasibleNil(s: Sys, ttl: nat)
    ensures Feasible(s, [], ttl) && After(s, [], ttl) == s
  {
  }

  /** A new process that acquires a free key and stops at once, up to its DELETE. */
  function AboutToRelease(s: Sys, p: nat, ttl: nat): Sys {
    s.(cell := Present(p, s.now + ttl), procs := s.procs[p := ReleaseChecked(s.now)])
  }

  lemma StopsAtOnce(s: Sys, p: nat, rest: seq<Event>, ttl: nat)
    requires s.cell.Absent? && p !in s.procs && Feasible(AboutToRelease(s, p, ttl), rest, ttl)
    ensures var es := [Spawn(p), Acquire(p), Stop(p), ReleaseGet(p)] + rest;
            Feasible(s, es, ttl) && After(s, es, ttl) == After(AboutToRelease(s, p, ttl), rest, ttl)
  {
    var s1 := s.(procs := s.procs[p := Idle]);
    var s2 := s.(cell := Present(p, s.now + ttl), procs := s.procs[p := Holding(s.now)]);
    var s3 := s.(cell := Present(p, s.now + ttl), procs := s.procs[p := Stopping(s.now)]);
    assert s1 == Step(s, Spawn(p), ttl);
    assert s2 == Step(s1, Acquire(p), ttl);
    assert s3 == Step(s2, Stop(p), ttl);
    assert AboutToRelease(s, p, ttl) == Step(s3, ReleaseGet(p), ttl);
    hide Step, Feasible, After, AboutToRelease;
    var es3 := [ReleaseGet(p)] + rest;
    var es2 := [Stop(p)] + es3;
    var es1 := [Acquire(p)] + es2;
    FeasibleCons(s3, ReleaseGet(p), rest, ttl);
    FeasibleCons(s2, Stop(p), es3, ttl);
    FeasibleCons(s1, Acquire(p), es2, ttl);
    FeasibleCons(s, Spawn(p), es1, ttl);
    assert [Spawn(p)] + es1 == [Spawn(p), Acquire(p), Stop(p), ReleaseGet(p)] + rest;
  }

  /** From the very start, for any ttl. */
  lemma TwoSchedulersAfterALateRelease(ttl: nat)
    requires ttl > 0
    ensures var es := [Spawn(0), Acquire(0), Stop(0), ReleaseGet(0), Tick(ttl),
                       Spawn(1), Acquire(1), ReleaseDelete(0), Spawn(2), Acquire(2)];
            Feasible(START, es, ttl) && Active(After(START, es, ttl), 1) && Active(After(START, es, ttl), 2)
  {
    var late := [Tick(ttl), Spawn(1), Acquire(1), ReleaseDelete(0), Spawn(2), Acquire(2)];
    ALateReleaseIsFeasible(AboutToRelease(START, 0, ttl), 0, 1, 2, ttl, ttl);
    hide Step, Feasible, After, Active, Inv;
    StopsAtOnce(START, 0, late, ttl);
    assert [Spawn(0), Acquire(0), Stop(0), ReleaseGet(0)] + late ==
           [Spawn(0), Acquire(0), Stop(0), ReleaseGet(0), Tick(ttl),
            Spawn(1), Acquire(1), ReleaseDelete(0), Spawn(2), Acquire(2)];
  }

  /** A process that has read its own token, another one's late DELETE, and a third one that acquires: with no time
      passing, the first one's DELETE then takes the third one's lease. */
  lemma ADeleteInBetween(s: Sys, p: nat, q: nat, r: nat, ttl: nat)
    requires p in s.procs && q in s.procs && r !in s.procs && p != q && s.cell.Get() == Some(p)
    requires s.procs[p].ReleaseChecked? && s.procs[q].ReleaseChecked?
    ensures var es := [ReleaseDelete(q), Spawn(r), Acquire(r)];
            && Waits(es, p) && Feasible(s, es, ttl)
            && var between := After(s, es, ttl);
               && Active(between, r) && between.cell.Get() == Some(r) && Enabled(between, ReleaseDelete(p))
               && Active(Step(between, ReleaseDelete(p), ttl), r)
               && Step(between, ReleaseDelete(p), ttl).cell == Absent
  {
    var s1 := Step(s, ReleaseDelete(q), ttl);
    var s2 := Step(s1, Spawn(r), ttl);
    FeasibleCons(s2, Acquire(r), [], ttl);
    FeasibleCons(s1, Spawn(r), [Acquire(r)], ttl);
    FeasibleCons(s, ReleaseDelete(q), [Spawn(r), Acquire(r)], ttl);
    assert [ReleaseDelete(q)] + ([Spawn(r)] + ([Acquire(r)] + [])) == [ReleaseDelete(q), Spawn(r), Acquire(r)];
  }

  /** Such a state is reached from the very start: the late one stopped while it still held the lease. */
  lemma TwoReleasesAtOnce(ttl: nat)
    requires ttl > 0
    ensures var es := [Spawn(0), Acquire(0), Stop(0), ReleaseGet(0), Tick(ttl),
                       Spawn(1), Acquire(1), Stop(1), ReleaseGet(1)];
            && Feasible(START, es, ttl)
            && After(START, es, ttl) ==
               Sys(ttl, Present(1, 2 * ttl), map[0 := ReleaseChecked(0), 1 := ReleaseChecked(ttl)])
  {
    var first := AboutToRelease(START, 0, ttl);
    var expired := Sys(ttl, Absent, map[0 := ReleaseChecked(0)]);
    assert expired == Step(first, Tick(ttl), ttl);
    FeasibleNil(AboutToRelease(expired, 1, ttl), ttl);
    StopsAtOnce(expired, 1, [], ttl);
    FeasibleCons(first, Tick(ttl), [Spawn(1), Acquire(1), Stop(1), ReleaseGet(1)] + [], ttl);
    hide Step, Feasible, After;
    StopsAtOnce(START, 0, [Tick(ttl)] + ([Spawn(1), Acquire(1), Stop(1), ReleaseGet(1)] + []), ttl);
    assert [Spawn(0), Acquire(0), Stop(0), ReleaseGet(0)]
           + ([Tick(ttl)] + ([Spawn(1), Acquire(1), Stop(1), ReleaseGet(1)] + [])) ==
           [Spawn(0), Acquire(0), Stop(0), ReleaseGet(0), Tick(ttl), Spawn(1), Acquire(1), Stop(1), ReleaseGet(1)];
  }

  /** How often the lease runs out in a run. */
  function Expiries(s: Sys, es: seq<Event>, ttl: nat): nat
    requires Feasible(s, es, ttl)
    decreases |es|
  {
    if es == [] then 0
    else
      var s' := Step(s, es[0], ttl);
      (if es[0].Tick? && s.cell.Present? && s'.cell.Absent? then 1 else 0) + Expiries(s', es[1..], ttl)
  }

  function ActiveOnes(s: Sys): set<nat> {
    set p | p in s.procs && Active(s, p)
  }

  /** The active processes, and room for one more. */
  function Places(s: Sys): nat {
    |ActiveOnes(s)| + if s.cell.Absent? then 1 else 0
  }

  /** Only acquiring an absent key makes a process active; the end of a release makes one inactive. */
  lemma ActiveAfter(s: Sys, e: Event, ttl: nat)
    requires Enabled(s, e)
    ensures var s' := Step(s, e, ttl);
            if e.Acquire? && s.cell.Absent? then ActiveOnes(s') == ActiveOnes(s) + {e.p}
            else if e.ReleaseDelete? then ActiveOnes(s') == ActiveOnes(s) - {e.p} && e.p in ActiveOnes(s)
            else ActiveOnes(s') <= ActiveOnes(s)
  {
  }

  lemma SubsetsAreSmaller(a: set<nat>, b: set<nat>)
    requires a <= b
    ensures |a| <= |b|
  {
    if a != {} {
      var x :| x in a;
      SubsetsAreSmaller(a - {x}, b - {x});
    }
  }

  lemma OnlyExpiriesMakePlaces(s: Sys, e: Event, ttl: nat)
    requires Enabled(s, e)
    ensures var s' := Step(s, e, ttl);
            Places(s') <= Places(s) + if e.Tick? && s.cell.Present? && s'.cell.Absent? then 1 else 0
  {
    hide ActiveOnes;
    ActiveAfter(s, e, ttl);
    var s' := Step(s, e, ttl);
    if ActiveOnes(s') <= ActiveOnes(s) { SubsetsAreSmaller(ActiveOnes(s'), ActiveOnes(s)); }
  }

  lemma {:induction false} PlacesAlongARun(s: Sys, es: seq<Event>, ttl: nat)
    requires Feasible(s, es, ttl)
    ensures Places(After(s, es, ttl)) <= Places(s) + Expiries(s, es, ttl)
    decreases |es|
  {
    if es != [] {
      OnlyExpiriesMakePlaces(s, es[0], ttl);
      PlacesAlongARun(Step(s, es[0], ttl), es[1..], ttl);
    }
  }

  /** Over every run of the code, timely or not, late releases included: there is at most one active process more
      than the lease has run out. */
  lemma OverlapIsBoundedByExpiries(es: seq<Event>, ttl: nat)
    requires Feasible(START, es, ttl)
    ensures |ActiveOnes(After(START, es, ttl))| <= 1 + Expiries(START, es, ttl)
  {
    assert ActiveOnes(START) == {};
    PlacesAlongARun(START, es, ttl);
  }

  /** The renewal sleeps a third of the ttl, in whole seconds, and at least one. */
  lemma SleepIsAThird(ttl: nat)
    ensures ttl < 6 ==> Sleep(ttl) == 1
    ensures ttl >= 3 ==> 3 * Sleep(ttl) <= ttl < 3 * Sleep(ttl) + 3
  {
  }

  /** A process that finds the lease taken, has released it, or crashes, is gone; only the release changes the key. */
  lemma WhoEndsIsGone(s: Sys, e: Event, ttl: nat)
    requires Enabled(s, e) && (e.Crash? || e.ReleaseDelete? || (e.Acquire? && s.cell.Present?))
    ensures Step(s, e, ttl).procs[e.p].Exited?
    ensures Step(s, e, ttl).cell == if e.ReleaseDelete? then Absent else s.cell
  {
  }

  /** A process that finds the key free holds it for a full ttl. */
  lemma AFreeLeaseIsTaken(s: Sys, p: nat, ttl: nat)
    requires Enabled(s, Acquire(p)) && s.cell.Absent?
    ensures Step(s, Acquire(p), ttl).cell == Present(p, s.now + ttl) && Active(Step(s, Acquire(p), ttl), p)
  {
  }
}
