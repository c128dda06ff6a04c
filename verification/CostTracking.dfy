/** AI cost counters with a sliding expiry: each call adds to a counter and restarts its time to live. */
module CostTracking {
  import opened KeyStore

  const DAY: nat := 86400
  const MONTH: nat := 2678400  // 31 days

  datatype Key = UserDaily(user: string) | OrgDaily(org: string) | OrgMonthly(org: string, month: string)

  type Counters = map<Key, Cell<real>>

  /** The live amount of a counter; a missing or expired counter reads as zero. */
  function Amount(counters: Counters, key: Key, now: int): real {
    if key in counters && counters[key].At(now).Present? then counters[key].At(now).value else 0.0
  }

  /** INCRBYFLOAT then EXPIRE, in one transaction. */
  function Increment(counters: Counters, key: Key, amount: real, ttl: nat, now: int): Counters {
    counters[key := Present(Amount(counters, key, now) + amount, now + ttl)]
  }

  // ---- One call of track_tokens ----------------------------------------------------------------

  function CostOf(model: string, inputTokens: int, outputTokens: int): real {
    if model == "gpt-4o" then inputTokens as real * 5.0 / 1000000.0 + outputTokens as real * 15.0 / 1000000.0
    else if model == "text-embedding-3-small" then inputTokens as real * 0.02 / 1000000.0
    else 0.0
  }

  datatype Call = Call(time: int, user: Option<string>, org: Option<string>, month: string, cost: real)

  /** The first transaction of a call, at its own time. */
  function Charge(counters: Counters, c: Call): Counters {
    if c.user.Some? then Increment(counters, UserDaily(c.user.value), c.cost, DAY, c.time) else counters
  }

  /** The three transactions of a call: the user's at the call's own time, the organisation's at `daily` and
      `monthly`. Other clients may read in between. */
  function TrackSplit(counters: Counters, c: Call, daily: int, monthly: int): Counters {
    if c.org.Some? then
      Increment(Increment(Charge(counters, c), OrgDaily(c.org.value), c.cost, DAY, daily),
                OrgMonthly(c.org.value, c.month), c.cost, MONTH, monthly)
    else Charge(counters, c)
  }

  /** A call that takes one instant. */
  function Track(counters: Counters, c: Call): Counters {
    TrackSplit(counters, c, c.time, c.time)
  }

  function TrackAll(calls: seq<Call>): Counters {
    if calls == [] then map[] else Track(TrackAll(calls[..|calls| - 1]), calls[|calls| - 1])
  }

  // ---- Costs by endpoint -----------------------------------------------------------------------

  /** One hash a day, from endpoint to cost. */
  type Metrics = map<string, Cell<map<string, real>>>

  function Hash(metrics: Metrics, day: string, now: int): map<string, real> {
    if day in metrics && metrics[day].At(now).Present? then metrics[day].At(now).value else map[]
  }

  /** An endpoint's field of a day's hash; a missing one reads as zero. */
  function Field(metrics: Metrics, day: string, endpoint: string, now: int): real {
    if endpoint in Hash(metrics, day, now) then Hash(metrics, day, now)[endpoint] else 0.0
  }

  /** HINCRBYFLOAT, then EXPIRE of the whole hash. */
  function Meter(metrics: Metrics, day: string, endpoint: string, cost: real, now: int): Metrics {
    var grown := Hash(metrics, day, now)[endpoint := Field(metrics, day, endpoint, now) + cost];
    metrics[day := Present(grown, now + MONTH)]
  }

  // ---- The tracker -----------------------------------------------------------------------------

  datatype Limit = UserLimit | OrgDailyLimit | OrgMonthlyLimit

  /** A cost, and the percentage of its limit that it uses; rounding for display is left out. */
  datatype Used = Used(cost: real, percent: real)

  datatype Usage = Usage(cost: real, user: Used, orgDaily: Used, orgMonthly: Used, warnings: seq<Limit>)

  class CostTracker {
    var counters: Counters
    var metrics: Metrics

    constructor ()
      ensures counters == map[] && metrics == map[]
    {
      counters, metrics := map[], map[];
    }

    method IncrementCost(key: Key, amount: real, ttl: nat, now: int) returns (total: real)
      modifies this`counters
      ensures counters == Increment(old(counters), key, amount, ttl, now)
      ensures total == old(Amount(counters, key, now)) + amount
    {
      var cell := if key in counters then counters[key].At(now) else Absent;
      total := (if cell.Present? then cell.value else 0.0) + amount;
      counters := counters[key := Present(total, now + ttl)];
    }

    /** The three transactions at their own times, the endpoint's metrics at `metered`, and a warning for each limit
        of which more than 80 percent is used. */
    method TrackTokens(model: string, inputTokens: int, outputTokens: int, user: Option<string>, org: Option<string>,
                       endpoint: Option<string>, today: string, month: string, now: int, daily: int, monthly: int,
                       metered: int)
      returns (usage: Usage)
      modifies this
      ensures usage.cost == CostOf(model, inputTokens, outputTokens)
      ensures counters == TrackSplit(old(counters), Call(now, user, org, month, usage.cost), daily, monthly)
      ensures metrics == if endpoint.Some? && endpoint.value != ""
                         then Meter(old(metrics), today, endpoint.value, usage.cost, metered) else old(metrics)
      ensures usage.user.cost == (if user.Some? then Amount(counters, UserDaily(user.value), now) else 0.0)
      ensures usage.orgDaily.cost == (if org.Some? then Amount(counters, OrgDaily(org.value), daily) else 0.0)
      ensures usage.orgMonthly.cost ==
              if org.Some? then Amount(counters, OrgMonthly(org.value, month), monthly) else 0.0
      ensures usage.user.percent * 5.0 == usage.user.cost * 100.0
      ensures usage.orgDaily.percent == usage.orgDaily.cost
      ensures usage.orgMonthly.percent * 20.0 == usage.orgMonthly.cost
      ensures usage.warnings == (if usage.user.cost > 4.0 then [UserLimit] else [])
                                + (if usage.orgDaily.cost > 80.0 then [OrgDailyLimit] else [])
                                + (if usage.orgMonthly.cost > 1600.0 then [OrgMonthlyLimit] else [])
    {
      hide CostOf, Meter;
      var cost := CostOf(model, inputTokens, outputTokens);
      var userCost, orgDaily, orgMonthly := 0.0, 0.0, 0.0;
      if user.Some? { userCost := IncrementCost(UserDaily(user.value), cost, DAY, now); }
      if org.Some? {
        orgDaily := IncrementCost(OrgDaily(org.value), cost, DAY, daily);
        orgMonthly := IncrementCost(OrgMonthly(org.value, month), cost, MONTH, monthly);
      }
      if endpoint.Some? && endpoint.value != "" {
        metrics := Meter(metrics, today, endpoint.value, cost, metered);
      }
      var userPercent := if user.Some? then userCost / 5.0 * 100.0 else 0.0;
      var orgDailyPercent := if org.Some? then orgDaily / 100.0 * 100.0 else 0.0;
      var orgMonthlyPercent := if org.Some? then orgMonthly / 2000.0 * 100.0 else 0.0;
      var warnings := [];
      if userPercent > 80.0 { warnings := warnings + [UserLimit]; }
      if orgDailyPercent > 80.0 { warnings := warnings + [OrgDailyLimit]; }
      if orgMonthlyPercent > 80.0 { warnings := warnings + [OrgMonthlyLimit]; }
      usage := Usage(cost, Used(userCost, userPercent), Used(orgDaily, orgDailyPercent),
                     Used(orgMonthly, orgMonthlyPercent), warnings);
    }

    /** Whether no limit is reached; reading changes nothing. */
    method CheckBudget(user: Option<string>, org: Option<string>, month: string, now: int) returns (ok: bool)
      ensures ok <==> (user.Some? ==> Amount(counters, UserDaily(user.value), now) < 5.0)
                      && (org.Some? ==> Amount(counters, OrgDaily(org.value), now) < 100.0 &&
                                        Amount(counters, OrgMonthly(org.value, month), now) < 2000.0)
    {
      var userCost := if user.Some? then Amount(counters, UserDaily(user.value), now) else 0.0;
      var orgDaily := if org.Some? then Amount(counters, OrgDaily(org.value), now) else 0.0;
      var orgMonthly := if org.Some? then Amount(counters, OrgMonthly(org.value, month), now) else 0.0;
      ok := !(userCost >= 5.0 || orgDaily >= 100.0 || orgMonthly >= 2000.0);
    }
  }

  // ---- A counter is the sum of an unbroken suffix of its calls ---------------------------------

  predicate Touches(c: Call, key: Key) {
    match key
    case UserDaily(user) => c.user == Some(user)
    case OrgDaily(org) => c.org == Some(org)
    case OrgMonthly(org, month) => c.org == Some(org) && c.month == month
  }

  function TtlOf(key: Key): nat {
    if key.OrgMonthly? then MONTH else DAY
  }

  /** The calls that touch a key, in order. */
  function CallsOf(calls: seq<Call>, key: Key): seq<Call> {
    if calls == [] then []
    else
      var front, c := CallsOf(calls[..|calls| - 1], key), calls[|calls| - 1];
      if Touches(c, key) then front + [c] else front
  }

  function Sum(calls: seq<Call>): real {
    if calls == [] then 0.0 else Sum(calls[..|calls| - 1]) + calls[|calls| - 1].cost
  }

  /** The time of call i, with `now` after the last call. */
  function TimeAt(calls: seq<Call>, i: nat, now: int): int {
    if i < |calls| then calls[i].time else now
  }

  predicate Close(calls: seq<Call>, i: nat, now: int, ttl: nat) {
    TimeAt(calls, i + 1, now) - TimeAt(calls, i, now) < ttl
  }

  /** The calls from `start` on follow each other, and `now` follows them, without a gap that reaches the ttl. */
  predicate Unbroken(calls: seq<Call>, start: nat, now: int, ttl: nat) {
    forall i: nat :: start <= i < |calls| ==> Close(calls, i, now, ttl)
  }

  /** The start of the longest unbroken suffix. */
  predicate LongestUnbroken(calls: seq<Call>, start: nat, now: int, ttl: nat) {
    && start <= |calls|
    && Unbroken(calls, start, now, ttl)
    && forall s: nat :: s < start ==> !Unbroken(calls, s, now, ttl)
  }

  predicate NonDecreasing(calls: seq<Call>) {
    forall i, j :: 0 <= i <= j < |calls| ==> calls[i].time <= calls[j].time
  }

  lemma IncrementOne(counters: Counters, key: Key, amount: real, ttl: nat, now: int, later: int)
    requires now <= later
    ensures var c := Increment(counters, key, amount, ttl, now);
            Amount(c, key, later) == if later < now + ttl then Amount(counters, key, now) + amount else 0.0
    ensures forall k :: k != key ==>
              Amount(Increment(counters, key, amount, ttl, now), k, later) == Amount(counters, k, later)
  {
  }

  lemma TrackOne(counters: Counters, c: Call, key: Key, later: int)
    requires c.time <= later
    ensures Amount(Track(counters, c), key, later) ==
            if !Touches(c, key) then Amount(counters, key, later)
            else if later < c.time + TtlOf(key) then Amount(counters, key, c.time) + c.cost
            else 0.0
  {
  }

  /** A counter read at `now` is the sum of the costs of its calls from the start of the longest unbroken suffix. */
  predicate SumsFrom(calls: seq<Call>, key: Key, now: int, start: nat) {
    && LongestUnbroken(CallsOf(calls, key), start, now, TtlOf(key))
    && Amount(TrackAll(calls), key, now) == Sum(CallsOf(calls, key)[start..])
  }

  lemma SumStays(front: seq<Call>, c: Call, key: Key, now: int, start: nat)
    requires SumsFrom(front, key, now, start) && !Touches(c, key) && c.time <= now
    ensures SumsFrom(front + [c], key, now, start)
  {
    hide LongestUnbroken;
    assert (front + [c])[..|front|] == front;
    TrackOne(TrackAll(front), c, key, now);
  }

  lemma SumsFromNowOn(front: seq<Call>, c: Call, key: Key, now: int)
    requires Touches(c, key) && c.time + TtlOf(key) <= now
    ensures SumsFrom(front + [c], key, now, |CallsOf(front, key)| + 1)
  {
    assert (front + [c])[..|front|] == front;
    var mine := CallsOf(front, key) + [c];
    TrackOne(TrackAll(front), c, key, now);
    assert !Close(mine, |mine| - 1, now, TtlOf(key));
    assert mine[|mine|..] == [];
  }

  lemma SuffixGrows(before: seq<Call>, c: Call, start: nat, now: int, ttl: nat)
    requires LongestUnbroken(before, start, c.time, ttl) && now < c.time + ttl
    ensures LongestUnbroken(before + [c], start, now, ttl)
  {
    var mine := before + [c];
    assert Close(mine, |before|, now, ttl);
    forall i: nat | i < |before| ensures Close(mine, i, now, ttl) <==> Close(before, i, c.time, ttl) {
    }
    forall s: nat | s < start ensures !Unbroken(mine, s, now, ttl) {
      assert !Unbroken(before, s, c.time, ttl);
      var i: nat :| s <= i < |before| && !Close(before, i, c.time, ttl);
      assert !Close(mine, i, now, ttl);
    }
  }

  lemma OneMoreCall(front: seq<Call>, c: Call, key: Key)
    requires Touches(c, key)
    ensures TrackAll(front + [c]) == Track(TrackAll(front), c)
    ensures CallsOf(front + [c], key) == CallsOf(front, key) + [c]
  {
    assert (front + [c])[..|front|] == front;
  }

  lemma SumOfSuffix(before: seq<Call>, c: Call, start: nat)
    requires start <= |before|
    ensures Sum((before + [c])[start..]) == Sum(before[start..]) + c.cost
  {
    assert (before + [c])[start..] == before[start..] + [c];
    assert (before[start..] + [c])[..|before[start..]|] == before[start..];
  }

  lemma SumGrows(front: seq<Call>, c: Call, key: Key, now: int, start: nat)
    requires SumsFrom(front, key, c.time, start) && Touches(c, key) && c.time <= now < c.time + TtlOf(key)
    ensures SumsFrom(front + [c], key, now, start)
  {
    var before := CallsOf(front, key);
    assert start <= |before|;
    SuffixGrows(before, c, start, now, TtlOf(key));
    hide LongestUnbroken, Track, TrackAll, CallsOf, Sum, Amount, TtlOf;
    OneMoreCall(front, c, key);
    SumOfSuffix(before, c, start);
    TrackOne(TrackAll(front), c, key, now);
  }

  /** After any run of calls at non-decreasing times, a counter read at `now` is the sum of the costs in the
      longest suffix of its calls with no gap reaching the ttl. */
  lemma {:induction false} CounterIsTheSumOfTheLongestUnbrokenSuffix(calls: seq<Call>, key: Key, now: int)
    requires NonDecreasing(calls) && (calls != [] ==> calls[|calls| - 1].time <= now)
    ensures exists start: nat :: SumsFrom(calls, key, now, start)
  {
    if calls == [] {
      assert SumsFrom(calls, key, now, 0);
    } else {
      hide SumsFrom;
      var front, c := calls[..|calls| - 1], calls[|calls| - 1];
      assert calls == front + [c];
      if Touches(c, key) && c.time + TtlOf(key) <= now {
        SumsFromNowOn(front, c, key, now);
      } else {
        var upto := if Touches(c, key) then c.time else now;
        CounterIsTheSumOfTheLongestUnbrokenSuffix(front, key, upto);
        var start: nat :| SumsFrom(front, key, upto, start);
        if Touches(c, key) { SumGrows(front, c, key, now, start); } else { SumStays(front, c, key, now, start); }
      }
    }
  }

  // ---- An organisation's counter covers its users' ---------------------------------------------

  function UserSum(counters: Counters, users: seq<string>, now: int): real {
    if users == [] then 0.0
    else UserSum(counters, users[..|users| - 1], now) + Amount(counters, UserDaily(users[|users| - 1]), now)
  }

  /** Costs are non-negative, and each user acts under one organisation. */
  predicate Accountable(calls: seq<Call>, home: map<string, string>) {
    forall i :: 0 <= i < |calls| ==>
      && calls[i].cost >= 0.0
      && (calls[i].user.Some? ==> calls[i].user.value in home && calls[i].org == Some(home[calls[i].user.value]))
  }

  predicate UsersOf(users: seq<string>, org: string, home: map<string, string>) {
    && (forall i :: 0 <= i < |users| ==> users[i] in home && home[users[i]] == org)
    && (forall i, j :: 0 <= i < j < |users| ==> users[i] != users[j])
  }

  predicate Before(calls: seq<Call>, now: int) {
    calls != [] ==> calls[|calls| - 1].time <= now
  }

  /** Between calls a counter stays or drops to zero. */
  lemma {:induction false} AmountsFall(calls: seq<Call>, home: map<string, string>, key: Key, now: int, later: int)
    requires NonDecreasing(calls) && Accountable(calls, home) && Before(calls, now) && now <= later
    ensures 0.0 <= Amount(TrackAll(calls), key, later) <= Amount(TrackAll(calls), key, now)
  {
    if calls != [] {
      var front, c := calls[..|calls| - 1], calls[|calls| - 1];
      TrackOne(TrackAll(front), c, key, now);
      TrackOne(TrackAll(front), c, key, later);
      AmountsFall(front, home, key, now, later);
      AmountsFall(front, home, key, c.time, now);
    }
  }

  lemma {:induction false} DailyCountersDieInADay(calls: seq<Call>, user: string, now: int)
    requires NonDecreasing(calls) && calls != [] && calls[|calls| - 1].time + DAY <= now
    ensures Amount(TrackAll(calls), UserDaily(user), now) == 0.0
  {
    var front, c := calls[..|calls| - 1], calls[|calls| - 1];
    TrackOne(TrackAll(front), c, UserDaily(user), now);
    if front != [] { DailyCountersDieInADay(front, user, now); }
  }

  /** One call adds its cost to at most one of the users' counters. */
  lemma {:induction false} UserSumAfterCall(front: seq<Call>, c: Call, home: map<string, string>,
      users: seq<string>, later: int)
    requires NonDecreasing(front + [c]) && Accountable(front + [c], home) && c.time <= later
    requires forall i, j :: 0 <= i < j < |users| ==> users[i] != users[j]
    ensures UserSum(Track(TrackAll(front), c), users, later) <=
            UserSum(TrackAll(front), users, c.time) + (if c.user.Some? && c.user.value in users then c.cost else 0.0)
  {
    if users != [] {
      var n := |users| - 1;
      UserSumAfterCall(front, c, home, users[..n], later);
      TrackOne(TrackAll(front), c, UserDaily(users[n]), later);
      assert (front + [c])[|front|] == c;
      assert Accountable(front, home) by { assert forall i :: 0 <= i < |front| ==> (front + [c])[i] == front[i]; }
      assert NonDecreasing(front) && Before(front, c.time) by {
        assert forall i :: 0 <= i < |front| ==> (front + [c])[i] == front[i];
      }
      AmountsFall(front, home, UserDaily(users[n]), c.time, later);
      assert users == users[..n] + [users[n]];
    }
  }

  lemma {:induction false} UserSumOfDead(calls: seq<Call>, users: seq<string>, now: int)
    requires NonDecreasing(calls) && calls != [] && calls[|calls| - 1].time + DAY <= now
    ensures UserSum(TrackAll(calls), users, now) == 0.0
  {
    if users != [] {
      UserSumOfDead(calls, users[..|users| - 1], now);
      DailyCountersDieInADay(calls, users[|users| - 1], now);
    }
  }

  lemma {:induction false} UserSumUntouched(front: seq<Call>, c: Call, users: seq<string>, now: int)
    requires c.time <= now && (c.user.Some? ==> c.user.value !in users)
    ensures UserSum(Track(TrackAll(front), c), users, now) == UserSum(TrackAll(front), users, now)
  {
    if users != [] {
      var n := |users| - 1;
      assert users == users[..n] + [users[n]];
      UserSumUntouched(front, c, users[..n], now);
      TrackOne(TrackAll(front), c, UserDaily(users[n]), now);
    }
  }

  lemma {:induction false} UserSumOfNothing(users: seq<string>, now: int)
    ensures UserSum(map[], users, now) == 0.0
  {
    if users != [] { UserSumOfNothing(users[..|users| - 1], now); }
  }

  lemma NothingReadsZero(key: Key, now: int)
    ensures Amount(map[], key, now) == 0.0
  {
  }

  /** At every moment after any run, an organisation's daily counter is at least the sum of the daily
      counters of any of its users. */
  lemma {:induction false} OrgCoversItsUsers(calls: seq<Call>, home: map<string, string>, org: string,
      users: seq<string>, now: int)
    requires NonDecreasing(calls) && Accountable(calls, home) && UsersOf(users, org, home) && Before(calls, now)
    ensures UserSum(TrackAll(calls), users, now) <= Amount(TrackAll(calls), OrgDaily(org), now)
  {
    hide UserSum, Track, Amount;
    if calls == [] {
      UserSumOfNothing(users, now);
      NothingReadsZero(OrgDaily(org), now);
    } else {
      var front, c := calls[..|calls| - 1], calls[|calls| - 1];
      assert calls == front + [c];
      TrackOne(TrackAll(front), c, OrgDaily(org), now);
      if c.org != Some(org) {
        UserSumUntouched(front, c, users, now);
        OrgCoversItsUsers(front, home, org, users, now);
      } else if now < c.time + DAY {
        OrgCoversItsUsers(front, home, org, users, c.time);
        UserSumAfterCall(front, c, home, users, now);
      } else {
        UserSumOfDead(calls, users, now);
      }
    }
  }

  // ---- A call whose transactions are apart -----------------------------------------------------

  predicate Live(counters: Counters, key: Key, now: int) {
    key in counters && counters[key].At(now).Present?
  }

  /** A user has no live counter once the organisation's has expired. */
  lemma {:induction false} DeadOrganisationsHaveDeadUsers(calls: seq<Call>, home: map<string, string>, org: string,
                                                          user: string, now: int)
    requires NonDecreasing(calls) && Accountable(calls, home) && Before(calls, now)
    requires user in home && home[user] == org && !Live(TrackAll(calls), OrgDaily(org), now)
    ensures Amount(TrackAll(calls), UserDaily(user), now) == 0.0
  {
    if calls != [] {
      var front, c := calls[..|calls| - 1], calls[|calls| - 1];
      if c.org == Some(org) {
        DailyCountersDieInADay(calls, user, now);
      } else {
        TrackOne(TrackAll(front), c, UserDaily(user), now);
        DeadOrganisationsHaveDeadUsers(front, home, org, user, now);
      }
    }
  }

  lemma {:induction false} UserSumOfDeadOrganisation(calls: seq<Call>, home: map<string, string>, org: string,
                                                     users: seq<string>, now: int)
    requires NonDecreasing(calls) && Accountable(calls, home) && Before(calls, now)
    requires UsersOf(users, org, home) && !Live(TrackAll(calls), OrgDaily(org), now)
    ensures UserSum(TrackAll(calls), users, now) == 0.0
  {
    if users != [] {
      var n := |users| - 1;
      UserSumOfDeadOrganisation(calls, home, org, users[..n], now);
      DeadOrganisationsHaveDeadUsers(calls, home, org, users[n], now);
    }
  }

  /** Charging one user moves that user's share of the sum and nothing else. */
  lemma {:induction false} UserSumAfterCharge(counters: Counters, c: Call, users: seq<string>, now: int)
    requires c.user.Some? && c.time <= now
    requires forall i, j :: 0 <= i < j < |users| ==> users[i] != users[j]
    ensures var u := UserDaily(c.user.value);
            UserSum(Charge(counters, c), users, now) == UserSum(counters, users, now) +
              if c.user.value !in users then 0.0
              else (if now < c.time + DAY then Amount(counters, u, c.time) + c.cost else 0.0) - Amount(counters, u, now)
  {
    if users != [] {
      var n := |users| - 1;
      assert users == users[..n] + [users[n]];
      UserSumAfterCharge(counters, c, users[..n], now);
      IncrementOne(counters, UserDaily(c.user.value), c.cost, DAY, c.time, now);
    }
  }

  /** The users' sum with one of them read earlier is still no more than the whole sum read earlier. */
  lemma {:induction false} EarlierShare(calls: seq<Call>, home: map<string, string>, users: seq<string>, user: string,
                                        now: int, later: int)
    requires NonDecreasing(calls) && Accountable(calls, home) && Before(calls, now) && now <= later
    requires forall i, j :: 0 <= i < j < |users| ==> users[i] != users[j]
    ensures UserSum(TrackAll(calls), users, later) <= UserSum(TrackAll(calls), users, now)
    ensures user in users ==>
              UserSum(TrackAll(calls), users, later) - Amount(TrackAll(calls), UserDaily(user), later)
              + Amount(TrackAll(calls), UserDaily(user), now) <= UserSum(TrackAll(calls), users, now)
  {
    if users != [] {
      var n := |users| - 1;
      assert users == users[..n] + [users[n]];
      EarlierShare(calls, home, users[..n], user, now, later);
      AmountsFall(calls, home, UserDaily(users[n]), now, later);
    }
  }

  /** Between a call's transactions the users are ahead of their organisation by at most the pending cost while
      the organisation's counter lives. Once it is gone it reads zero, and of the users only the charged one
      reads anything: what it had before and the pending cost. */
  lemma BetweenTheTransactions(calls: seq<Call>, home: map<string, string>, org: string, users: seq<string>, c: Call,
                               now: int)
    requires NonDecreasing(calls) && Accountable(calls, home) && UsersOf(users, org, home) && Before(calls, c.time)
    requires Accountable([c], home) && c.org == Some(org) && c.time <= now
    ensures var front, between := TrackAll(calls), Charge(TrackAll(calls), c);
            && Amount(between, OrgDaily(org), now) == Amount(front, OrgDaily(org), now)
            && (Live(front, OrgDaily(org), now) ==>
                  UserSum(between, users, now) <= Amount(between, OrgDaily(org), now) + c.cost)
            && (!Live(front, OrgDaily(org), now) ==>
                  Amount(between, OrgDaily(org), now) == 0.0 &&
                  UserSum(between, users, now) ==
                    if c.user.Some? && c.user.value in users && now < c.time + DAY
                    then Amount(front, UserDaily(c.user.value), c.time) + c.cost else 0.0)
  {
    var front := TrackAll(calls);
    assert c == [c][0];
    if c.user.Some? {
      IncrementOne(front, UserDaily(c.user.value), c.cost, DAY, c.time, now);
      UserSumAfterCharge(front, c, users, now);
      EarlierShare(calls, home, users, c.user.value, c.time, now);
      AmountsFall(calls, home, UserDaily(c.user.value), c.time, now);
    }
    OrgCoversItsUsers(calls, home, org, users, c.time);
    OrgCoversItsUsers(calls, home, org, users, now);
    if !Live(front, OrgDaily(org), now) {
      UserSumOfDeadOrganisation(calls, home, org, users, now);
      if c.user.Some? && c.user.value in users {
        DeadOrganisationsHaveDeadUsers(calls, home, org, c.user.value, now);
      }
    }
  }

  lemma {:induction false} SameUsers(before: Counters, after: Counters, users: seq<string>, now: int)
    requires forall u :: Amount(after, UserDaily(u), now) == Amount(before, UserDaily(u), now)
    ensures UserSum(after, users, now) == UserSum(before, users, now)
  {
    if users != [] { SameUsers(before, after, users[..|users| - 1], now); }
  }

  /** After any run of whole calls and one call whose transactions are apart, the organisation covers its users
      again if and only if its counter had not expired meanwhile, or the charged user had spent nothing (or has
      expired too). */
  lemma SplitCallIsCoveredExactly(calls: seq<Call>, home: map<string, string>, org: string, users: seq<string>, c: Call,
                                  daily: int, monthly: int)
    requires NonDecreasing(calls) && Accountable(calls, home) && UsersOf(users, org, home) && Before(calls, c.time)
    requires Accountable([c], home) && c.org == Some(org) && c.time <= daily
    ensures var front, after := TrackAll(calls), TrackSplit(TrackAll(calls), c, daily, monthly);
            UserSum(after, users, daily) <= Amount(after, OrgDaily(org), daily) <==>
            || Live(front, OrgDaily(org), daily)
            || c.user.None? || c.user.value !in users
            || Amount(front, UserDaily(c.user.value), c.time) == 0.0
            || c.time + DAY <= daily
  {
    var front := TrackAll(calls);
    var between := Charge(front, c);
    var after := TrackSplit(front, c, daily, monthly);
    BetweenTheTransactions(calls, home, org, users, c, daily);
    if c.user.Some? { AmountsFall(calls, home, UserDaily(c.user.value), c.time, c.time); }
    assert c == [c][0];
    var booked := Increment(between, OrgDaily(org), c.cost, DAY, daily);
    IncrementOne(between, OrgDaily(org), c.cost, DAY, daily, daily);
    SameUsers(between, booked, users, daily);
    SameUsers(booked, after, users, daily);
  }

  /** An instance without any expiry: a reader between the transactions of a first call sees the user ahead. */
  lemma AFirstCallIsSeenHalfBooked(user: string, org: string, month: string, cost: real, now: int)
    requires cost > 0.0
    ensures var between := Charge(TrackAll([]), Call(now, Some(user), Some(org), month, cost));
            Amount(between, UserDaily(user), now) == cost && Amount(between, OrgDaily(org), now) == 0.0
  {
    IncrementOne(map[], UserDaily(user), cost, DAY, now, now);
  }

  /** An instance: the user's second call straddles the expiry of the organisation's counter. */
  lemma SplitTransactionsBreakTheCover(user: string, org: string, month: string)
    ensures var calls, c := [Call(0, Some(user), Some(org), month, 1.0)],
            Call(DAY - 1, Some(user), Some(org), month, 1.0);
            var after := TrackSplit(TrackAll(calls), c, DAY, DAY);
            UserSum(after, [user], DAY) > Amount(after, OrgDaily(org), DAY)
  {
    var calls, c := [Call(0, Some(user), Some(org), month, 1.0)], Call(DAY - 1, Some(user), Some(org), month, 1.0);
    assert calls[..0] == [];
    TrackOne(map[], calls[0], UserDaily(user), DAY - 1);
    assert TrackAll(calls) == Track(map[], calls[0]);
    SplitCallIsCoveredExactly(calls, map[user := org], org, [user], c, DAY, DAY);
  }

  // ---- What the metrics say --------------------------------------------------------------------

  datatype Metered = Metered(time: int, day: string, endpoint: string, cost: real)

  function MeterAll(calls: seq<Metered>): Metrics {
    if calls == [] then map[]
    else
      var c := calls[|calls| - 1];
      Meter(MeterAll(calls[..|calls| - 1]), c.day, c.endpoint, c.cost, c.time)
  }

  /** The time of the last call of a day. */
  function LastOf(calls: seq<Metered>, day: string): Option<int> {
    if calls == [] then None
    else if calls[|calls| - 1].day == day then Some(calls[|calls| - 1].time)
    else LastOf(calls[..|calls| - 1], day)
  }

  function SumFor(calls: seq<Metered>, day: string, endpoint: string): real {
    if calls == [] then 0.0
    else
      var c := calls[|calls| - 1];
      SumFor(calls[..|calls| - 1], day, endpoint) + if c.day == day && c.endpoint == endpoint then c.cost else 0.0
  }

  /** Calls that carry one date are made within one day of each other. */
  predicate Dated(calls: seq<Metered>) {
    forall i, j :: 0 <= i < j < |calls| && calls[i].day == calls[j].day ==> calls[j].time < calls[i].time + DAY
  }

  lemma {:induction false} LastOfIsACall(calls: seq<Metered>, day: string)
    ensures LastOf(calls, day).Some? ==>
              exists i :: 0 <= i < |calls| && calls[i].day == day && calls[i].time == LastOf(calls, day).value
  {
    if calls != [] && calls[|calls| - 1].day != day {
      LastOfIsACall(calls[..|calls| - 1], day);
    }
  }

  /** After any run of calls, an endpoint's metric of a day is the sum of the costs of its calls on that day, until
      the day's last call, of whatever endpoint, is a month old; from then on it is gone. */
  lemma {:induction false} MetricsAreTheDaysSums(calls: seq<Metered>, day: string, endpoint: string, now: int)
    requires Dated(calls)
    ensures Field(MeterAll(calls), day, endpoint, now) ==
            match LastOf(calls, day)
            case None => 0.0
            case Some(last) => if now < last + MONTH then SumFor(calls, day, endpoint) else 0.0
    ensures LastOf(calls, day).None? ==> SumFor(calls, day, endpoint) == 0.0
  {
    if calls != [] {
      var front, c := calls[..|calls| - 1], calls[|calls| - 1];
      MetricsAreTheDaysSums(front, day, endpoint, if c.day == day then c.time else now);
      LastOfIsACall(front, day);
    }
  }

  // ---- Prices ----------------------------------------------------------------------------------

  /** The prices of a million tokens, in and out, in dollars; a model that is not listed costs nothing. */
  lemma PricesOfAMillion(model: string)
    ensures CostOf(model, 1000000, 0) ==
            if model == "gpt-4o" then 5.0 else if model == "text-embedding-3-small" then 0.02 else 0.0
    ensures CostOf(model, 0, 1000000) == if model == "gpt-4o" then 15.0 else 0.0
  {
  }

  /** The cost of two calls is the cost of one call with the tokens of both. */
  lemma CostsAddUp(model: string, in1: int, out1: int, in2: int, out2: int)
    ensures CostOf(model, in1 + in2, out1 + out2) == CostOf(model, in1, out1) + CostOf(model, in2, out2)
  {
  }
}
