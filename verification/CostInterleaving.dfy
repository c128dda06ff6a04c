/** Any number of calls to the cost tracker at once: the transactions of a call are apart, and those of others
    may come in between. */
module CostInterleaving {
  import opened KeyStore
  import opened CostTracking

  /** `pending` holds the calls whose user has been charged and whose organisation has not. */
  datatype Sys = Sys(now: int, counters: Counters, pending: seq<Call>)

  datatype Event = Begin(call: Call) | Book(i: nat) | Tick(elapsed: nat)

  const START: Sys := Sys(0, map[], [])

  /** A call under an organisation costs something or nothing, and its user, if any, is that organisation's. */
  predicate Proper(c: Call, home: map<string, string>) {
    c.cost >= 0.0 && c.org.Some? && (c.user.Some? ==> c.user.value in home && home[c.user.value] == c.org.value)
  }

  predicate Enabled(s: Sys, e: Event, home: map<string, string>) {
    match e
    case Begin(c) => Proper(c, home) && c.time == s.now
    case Book(i) => i < |s.pending|
    case Tick(_) => true
  }

  predicate AllProper(pending: seq<Call>, home: map<string, string>) {
    forall i :: 0 <= i < |pending| ==> Proper(pending[i], home)
  }

  function Booked(counters: Counters, c: Call, now: int): Counters
    requires c.org.Some?
  {
    Increment(Increment(counters, OrgDaily(c.org.value), c.cost, DAY, now), OrgMonthly(c.org.value, c.month), c.cost,
              MONTH, now)
  }

  function Step(s: Sys, e: Event, home: map<string, string>): Sys
    requires Enabled(s, e, home) && AllProper(s.pending, home)
  {
    match e
    case Begin(c) => s.(counters := Charge(s.counters, c), pending := s.pending + [c])
    case Book(i) =>
      s.(counters := Booked(s.counters, s.pending[i], s.now), pending := s.pending[..i] + s.pending[i + 1..])
    case Tick(elapsed) => s.(now := s.now + elapsed)
  }

  function PendingCost(pending: seq<Call>, org: string): real {
    if pending == [] then 0.0
    else
      PendingCost(pending[..|pending| - 1], org)
      + (if pending[|pending| - 1].org == Some(org) then pending[|pending| - 1].cost else 0.0)
  }

  /** The user has no pending call. */
  predicate Idle(pending: seq<Call>, user: string) {
    forall i :: 0 <= i < |pending| ==> pending[i].user != Some(user)
  }

  /** The organisation has no pending call. */
  predicate Quiet(pending: seq<Call>, org: string) {
    forall i :: 0 <= i < |pending| ==> pending[i].org != Some(org)
  }

  /** A live counter of a user without a pending call expires no later than its organisation's live one. */
  ghost predicate UsersEndFirst(s: Sys, home: map<string, string>) {
    forall u :: u in home && Idle(s.pending, u) && Live(s.counters, UserDaily(u), s.now) ==>
      && Live(s.counters, OrgDaily(home[u]), s.now)
      && s.counters[UserDaily(u)].expires <= s.counters[OrgDaily(home[u])].expires
  }

  ghost predicate CountersOk(s: Sys) {
    forall k :: k in s.counters && s.counters[k].Present? ==>
      s.counters[k].value >= 0.0 && (k.UserDaily? ==> s.counters[k].expires <= s.now + DAY)
  }

  ghost predicate Inv(s: Sys, home: map<string, string>) {
    AllProper(s.pending, home) && CountersOk(s) && UsersEndFirst(s, home)
  }

  /** A run of the code, whatever the timing. */
  ghost predicate Feasible(s: Sys, es: seq<Event>, home: map<string, string>)
    decreases |es|
  {
    && AllProper(s.pending, home)
    && (es == [] || (Enabled(s, es[0], home) && Feasible(Step(s, es[0], home), es[1..], home)))
  }

  function After(s: Sys, es: seq<Event>, home: map<string, string>): Sys
    requires Feasible(s, es, home)
    decreases |es|
  {
    if es == [] then s else After(Step(s, es[0], home), es[1..], home)
  }

  lemma IdleWithout(pending: seq<Call>, c: Call, user: string)
    requires Idle(pending + [c], user)
    ensures Idle(pending, user) && c.user != Some(user)
  {
    var all := pending + [c];
    assert all[|pending|] == c;
    forall i | 0 <= i < |pending| ensures pending[i].user != Some(user) { assert all[i] == pending[i]; }
  }

  lemma IdleBefore(pending: seq<Call>, i: nat, user: string)
    requires i < |pending| && Idle(pending[..i] + pending[i + 1..], user) && pending[i].user != Some(user)
    ensures Idle(pending, user)
  {
    var rest := pending[..i] + pending[i + 1..];
    forall j | 0 <= j < |pending| ensures pending[j].user != Some(user) {
      if j < i { assert rest[j] == pending[j]; } else if j > i { assert rest[j - 1] == pending[j]; }
    }
  }

  lemma StepKeepsUsersEnd(s: Sys, e: Event, home: map<string, string>, u: string)
    requires Inv(s, home) && Enabled(s, e, home) && u in home
    requires var s' := Step(s, e, home); Idle(s'.pending, u) && Live(s'.counters, UserDaily(u), s'.now)
    ensures var s' := Step(s, e, home);
            Live(s'.counters, OrgDaily(home[u]), s'.now) &&
            s'.counters[UserDaily(u)].expires <= s'.counters[OrgDaily(home[u])].expires
  {
    match e {
      case Begin(c) => IdleWithout(s.pending, c, u);
      case Book(i) =>
        assert Proper(s.pending[i], home);
        if s.pending[i].user != Some(u) { IdleBefore(s.pending, i, u); }
      case Tick(_) =>
    }
  }

  lemma StepKeepsInv(s: Sys, e: Event, home: map<string, string>)
    requires Inv(s, home) && Enabled(s, e, home)
    ensures Inv(Step(s, e, home), home)
  {
    var s' := Step(s, e, home);
    forall u | u in home && Idle(s'.pending, u) && Live(s'.counters, UserDaily(u), s'.now)
      ensures Live(s'.counters, OrgDaily(home[u]), s'.now)
      ensures s'.counters[UserDaily(u)].expires <= s'.counters[OrgDaily(home[u])].expires
    {
      StepKeepsUsersEnd(s, e, home, u);
    }
  }

  // ---- The cover up to what is pending ---------------------------------------------------------

  lemma {:induction false} PendingCostOfConcat(a: seq<Call>, b: seq<Call>, org: string)
    ensures PendingCost(a + b, org) == PendingCost(a, org) + PendingCost(b, org)
  {
    if b == [] {
      assert a + b == a;
    } else {
      var n := |b| - 1;
      assert (a + b)[..|a| + n] == a + b[..n];
      PendingCostOfConcat(a, b[..n], org);
    }
  }

  lemma PendingCostWithout(pending: seq<Call>, i: nat, org: string)
    requires i < |pending|
    ensures PendingCost(pending, org) ==
            PendingCost(pending[..i] + pending[i + 1..], org)
            + if pending[i].org == Some(org) then pending[i].cost else 0.0
  {
    var one := [pending[i]];
    assert pending == pending[..i] + one + pending[i + 1..] && one[..0] == [];
    PendingCostOfConcat(pending[..i] + one, pending[i + 1..], org);
    PendingCostOfConcat(pending[..i], one, org);
    PendingCostOfConcat(pending[..i], pending[i + 1..], org);
  }

  lemma {:induction false} UserSumFalls(counters: Counters, users: seq<string>, now: int, later: int)
    requires now <= later
    requires forall k :: k in counters && counters[k].Present? ==> counters[k].value >= 0.0
    ensures UserSum(counters, users, later) <= UserSum(counters, users, now)
  {
    if users != [] {
      var key := UserDaily(users[|users| - 1]);
      UserSumFalls(counters, users[..|users| - 1], now, later);
      assert key in counters && counters[key].Present? ==> counters[key].value >= 0.0;
    }
  }

  /** What the users with a pending call hold together. */
  function OpenSum(s: Sys, users: seq<string>, now: int): real {
    if users == [] then 0.0
    else
      OpenSum(s, users[..|users| - 1], now)
      + (if Idle(s.pending, users[|users| - 1]) then 0.0 else Amount(s.counters, UserDaily(users[|users| - 1]), now))
  }

  /** The organisation's counter expires at this event. */
  predicate ExpiresAt(s: Sys, e: Event, org: string) {
    e.Tick? && Live(s.counters, OrgDaily(org), s.now) && !Live(s.counters, OrgDaily(org), s.now + e.elapsed)
  }

  /** What the users are ahead by beyond what is pending: an expiry of the organisation's counter sets it to what
      the users with pending calls then hold beyond those calls, and nothing else changes it. */
  function DebtAfter(s: Sys, e: Event, org: string, users: seq<string>, debt: real): real {
    if !ExpiresAt(s, e, org) then debt
    else
      var left := OpenSum(s, users, s.now + e.elapsed) - PendingCost(s.pending, org);
      if left > 0.0 then left else 0.0
  }

  function Debt(s: Sys, es: seq<Event>, home: map<string, string>, org: string, users: seq<string>, debt: real): real
    requires Feasible(s, es, home)
    decreases |es|
  {
    if es == [] then debt
    else Debt(Step(s, es[0], home), es[1..], home, org, users, DebtAfter(s, es[0], org, users, debt))
  }

  ghost predicate Covered(s: Sys, org: string, users: seq<string>, debt: real) {
    UserSum(s.counters, users, s.now) <=
    Amount(s.counters, OrgDaily(org), s.now) + PendingCost(s.pending, org) + debt
  }

  lemma PendingCostAfter(pending: seq<Call>, c: Call, org: string)
    ensures PendingCost(pending + [c], org) ==
            PendingCost(pending, org) + if c.org == Some(org) then c.cost else 0.0
  {
    assert (pending + [c])[..|pending|] == pending;
  }

  lemma UsersHome(c: Call, home: map<string, string>, org: string, users: seq<string>)
    requires Proper(c, home) && UsersOf(users, org, home) && c.user.Some? && c.user.value in users
    ensures c.org == Some(org)
  {
    var i :| 0 <= i < |users| && users[i] == c.user.value;
    assert home[users[i]] == org;
  }

  lemma BeginKeepsCover(s: Sys, c: Call, home: map<string, string>, org: string, users: seq<string>, debt: real)
    requires Inv(s, home) && Enabled(s, Begin(c), home) && UsersOf(users, org, home) && Covered(s, org, users, debt)
    ensures Covered(Step(s, Begin(c), home), org, users, debt)
  {
    PendingCostAfter(s.pending, c, org);
    if c.user.Some? {
      UserSumAfterCharge(s.counters, c, users, s.now);
      hide UserSum, PendingCost, Amount, Increment, UsersOf;
      IncrementOne(s.counters, UserDaily(c.user.value), c.cost, DAY, s.now, s.now);
      if c.user.value in users { UsersHome(c, home, org, users); }
    }
  }

  lemma BookKeepsCover(s: Sys, i: nat, home: map<string, string>, org: string, users: seq<string>, debt: real)
    requires Inv(s, home) && i < |s.pending| && Covered(s, org, users, debt)
    ensures Covered(Step(s, Book(i), home), org, users, debt)
  {
    var c := s.pending[i];
    assert Proper(c, home);
    PendingCostWithout(s.pending, i, org);
    IncrementOne(s.counters, OrgDaily(c.org.value), c.cost, DAY, s.now, s.now);
    var daily := Increment(s.counters, OrgDaily(c.org.value), c.cost, DAY, s.now);
    IncrementOne(daily, OrgMonthly(c.org.value, c.month), c.cost, MONTH, s.now, s.now);
    SameUsers(s.counters, Booked(s.counters, c, s.now), users, s.now);
  }

  /** Once the organisation's counter is gone, only users with a pending call still hold anything. */
  lemma {:induction false} OnlyOpenUsersAreLeft(s: Sys, elapsed: nat, home: map<string, string>, org: string,
                                                users: seq<string>)
    requires Inv(s, home) && UsersOf(users, org, home) && !Live(s.counters, OrgDaily(org), s.now + elapsed)
    ensures UserSum(s.counters, users, s.now + elapsed) == OpenSum(s, users, s.now + elapsed)
  {
    if users != [] {
      OnlyOpenUsersAreLeft(s, elapsed, home, org, users[..|users| - 1]);
      assert users[|users| - 1] in home && home[users[|users| - 1]] == org;
    }
  }

  /** The organisation's counter expires under any number of pending calls: the cover up to what is pending survives
      if and only if the users with pending calls hold no more than what is pending. */
  lemma AnExpiryIsCoveredExactly(s: Sys, elapsed: nat, home: map<string, string>, org: string, users: seq<string>)
    requires Inv(s, home) && UsersOf(users, org, home) && ExpiresAt(s, Tick(elapsed), org)
    ensures var s' := Step(s, Tick(elapsed), home);
            && Amount(s'.counters, OrgDaily(org), s'.now) == 0.0
            && (UserSum(s'.counters, users, s'.now) <=
                Amount(s'.counters, OrgDaily(org), s'.now) + PendingCost(s'.pending, org)
                <==> OpenSum(s, users, s.now + elapsed) <= PendingCost(s.pending, org))
  {
    OnlyOpenUsersAreLeft(s, elapsed, home, org, users);
  }

  lemma TickKeepsCover(s: Sys, elapsed: nat, home: map<string, string>, org: string, users: seq<string>, debt: real)
    requires Inv(s, home) && UsersOf(users, org, home) && Covered(s, org, users, debt)
    ensures Covered(Step(s, Tick(elapsed), home), org, users, DebtAfter(s, Tick(elapsed), org, users, debt))
  {
    if ExpiresAt(s, Tick(elapsed), org) {
      OnlyOpenUsersAreLeft(s, elapsed, home, org, users);
    } else {
      UserSumFalls(s.counters, users, s.now, s.now + elapsed);
    }
  }

  lemma {:induction false} RunKeepsCover(
    s: Sys, es: seq<Event>, home: map<string, string>, org: string, users: seq<string>, debt: real)
    requires Inv(s, home) && Feasible(s, es, home) && UsersOf(users, org, home) && Covered(s, org, users, debt)
    ensures Inv(After(s, es, home), home)
    ensures Covered(After(s, es, home), org, users, Debt(s, es, home, org, users, debt))
    decreases |es|
  {
    if es != [] {
      StepKeepsInv(s, es[0], home);
      match es[0] {
        case Begin(c) => BeginKeepsCover(s, c, home, org, users, debt);
        case Book(i) => BookKeepsCover(s, i, home, org, users, debt);
        case Tick(elapsed) => TickKeepsCover(s, elapsed, home, org, users, debt);
      }
      RunKeepsCover(Step(s, es[0], home), es[1..], home, org, users, DebtAfter(s, es[0], org, users, debt));
    }
  }

  /** Over every interleaving of any number of calls, whatever expires under them: an organisation's users are ahead
      of it by at most what is pending and what the last expiry of its counter has left them. */
  lemma OverlappingCallsAreCoveredUpToTheDebt(es: seq<Event>, home: map<string, string>, org: string,
                                              users: seq<string>)
    requires Feasible(START, es, home) && UsersOf(users, org, home)
    ensures var s := After(START, es, home);
            UserSum(s.counters, users, s.now) <=
            Amount(s.counters, OrgDaily(org), s.now) + PendingCost(s.pending, org)
            + Debt(START, es, home, org, users, 0.0)
  {
    UserSumOfNothing(users, 0);
    RunKeepsCover(START, es, home, org, users, 0.0);
  }

  // ---- Runs without a debt ---------------------------------------------------------------------

  lemma {:induction false} QuietCostsNothing(pending: seq<Call>, org: string)
    ensures Quiet(pending, org) ==> PendingCost(pending, org) == 0.0
  {
    if pending != [] {
      QuietCostsNothing(pending[..|pending| - 1], org);
      if Quiet(pending, org) {
        assert pending[|pending| - 1].org != Some(org);
        assert forall i :: 0 <= i < |pending| - 1 ==> pending[..|pending| - 1][i] == pending[i];
      }
    }
  }

  lemma {:induction false} QuietHoldsNothing(s: Sys, home: map<string, string>, org: string, users: seq<string>,
                                             now: int)
    requires AllProper(s.pending, home) && UsersOf(users, org, home) && Quiet(s.pending, org)
    ensures OpenSum(s, users, now) == 0.0
  {
    if users != [] {
      var u := users[|users| - 1];
      QuietHoldsNothing(s, home, org, users[..|users| - 1], now);
      assert u in home && home[u] == org;
      forall i | 0 <= i < |s.pending| ensures s.pending[i].user != Some(u) {
        assert Proper(s.pending[i], home) && s.pending[i].org != Some(org);
      }
    }
  }

  /** An expiry while none of the organisation's calls is pending clears whatever debt there was. */
  lemma AQuietExpiryClearsTheDebt(s: Sys, e: Event, home: map<string, string>, org: string, users: seq<string>,
                                  debt: real)
    requires AllProper(s.pending, home) && UsersOf(users, org, home)
    requires ExpiresAt(s, e, org) && Quiet(s.pending, org)
    ensures DebtAfter(s, e, org, users, debt) == 0.0
  {
    QuietHoldsNothing(s, home, org, users, s.now + e.elapsed);
    QuietCostsNothing(s.pending, org);
  }

  /** The premise on timing: the organisation's counter does not expire under one of its pending calls. */
  predicate Timely(s: Sys, e: Event, org: string) {
    ExpiresAt(s, e, org) ==> Quiet(s.pending, org)
  }

  ghost predicate AllTimely(s: Sys, es: seq<Event>, home: map<string, string>, org: string)
    requires Feasible(s, es, home)
    decreases |es|
  {
    es == [] || (Timely(s, es[0], org) && AllTimely(Step(s, es[0], home), es[1..], home, org))
  }

  lemma {:induction false} TimelyRunsHaveNoDebt(s: Sys, es: seq<Event>, home: map<string, string>, org: string,
                                                users: seq<string>)
    requires Feasible(s, es, home) && AllTimely(s, es, home, org) && UsersOf(users, org, home)
    ensures Debt(s, es, home, org, users, 0.0) == 0.0
    decreases |es|
  {
    if es != [] {
      if ExpiresAt(s, es[0], org) { AQuietExpiryClearsTheDebt(s, es[0], home, org, users, 0.0); }
      TimelyRunsHaveNoDebt(Step(s, es[0], home), es[1..], home, org, users);
    }
  }

  /** Over every interleaving of any number of calls in which the organisation's counter does not expire while one of
      its calls is pending: at all times its users are ahead of it by at most what is pending, so it covers them
      whenever nothing is. */
  lemma OverlappingCallsAreCovered(es: seq<Event>, home: map<string, string>, org: string, users: seq<string>)
    requires Feasible(START, es, home) && AllTimely(START, es, home, org) && UsersOf(users, org, home)
    ensures var s := After(START, es, home);
      && UserSum(s.counters, users, s.now) <= Amount(s.counters, OrgDaily(org), s.now) + PendingCost(s.pending, org)
      && (Quiet(s.pending, org) ==> UserSum(s.counters, users, s.now) <= Amount(s.counters, OrgDaily(org), s.now))
  {
    OverlappingCallsAreCoveredUpToTheDebt(es, home, org, users);
    TimelyRunsHaveNoDebt(START, es, home, org, users);
    QuietCostsNothing(After(START, es, home).pending, org);
  }

  // ---- One call on its own ---------------------------------------------------------------------

  lemma LastPending(pending: seq<Call>, c: Call)
    ensures var all := pending + [c];
            all[|pending|] == c && all[..|pending|] + all[|pending| + 1..] == pending
  {
  }

  /** A call whose two steps nobody comes between, at whatever distance, is the call as `CostTracking` has it, and
      leaves nothing pending. */
  lemma ACallAloneIsTracked(s: Sys, c: Call, elapsed: nat, home: map<string, string>)
    requires AllProper(s.pending, home) && Enabled(s, Begin(c), home)
    ensures var begun := Step(Step(s, Begin(c), home), Tick(elapsed), home);
            var booked := Step(begun, Book(|s.pending|), home);
            && booked.counters == TrackSplit(s.counters, c, s.now + elapsed, s.now + elapsed)
            && booked.pending == s.pending && booked.now == s.now + elapsed
            && (elapsed == 0 ==> booked.counters == Track(s.counters, c))
  {
    LastPending(s.pending, c);
  }
}
