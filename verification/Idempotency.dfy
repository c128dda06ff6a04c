/** The idempotency wrapper: any number of requests race on one key of the shared store.
    Each request is an automaton whose moves are single atomic store commands, handler runs and
    local decisions; the system interleaves them freely and lets time pass between them. */
module Idempotency {
  import opened KeyStore

  const MAX_POLLS: nat := 50

  /** The text under the key. `Corrupt` is any text that is not JSON. `run` names the successful run whose
      record it is; the code neither writes nor needs it. */
  datatype Value = Sentinel | Record(bodyHash: string, response: string, status: int, run: nat) | Corrupt(text: string)

  datatype Outcome =
    | Ran(response: string, status: int)        // the handler's own result
    | Replayed(response: string, status: int, run: nat)  // the stored result
    | Busy                                      // 409, still being processed
    | Conflict                                  // 409, same key and different body
    | KeyVanished                               // uncaught TypeError of json.loads(None)
    | HandlerRaised                             // the handler's exception, re-raised
    | StoreRaised                               // a store command raised
    | Cancelled                                 // the task was cancelled at an await

  /** Where a request stands in the wrapper. */
  datatype Pc =
    | Claiming
    | FirstRead
    | Polling(made: nat)
    | Deciding(seen: Option<Value>)
    | Purging
    | Handling
    | Releasing
    | Storing(record: Value)
    | Finished(outcome: Outcome)

  datatype HandlerReply = Raised | Returned(response: string, status: int)

  /** What the request learns from one move. */
  datatype Answer =
    | Claim(ok: bool)
    | Got(found: Option<Value>)
    | Acknowledged
    | Failed
    | Handler(reply: HandlerReply, run: nat)
    | Local

  /** The poll loop stops at any non-empty text other than the sentinel. */
  predicate Settled(found: Option<Value>) {
    found.Some? && found.value != Sentinel && found.value != Corrupt("")
  }

  function Decide(seen: Option<Value>, bodyHash: string): Pc {
    match seen
    case None => Finished(KeyVanished)
    case Some(Record(stored, response, status, run)) =>
      Finished(if stored != bodyHash then Conflict else Replayed(response, status, run))
    case Some(_) => Purging  // neither the sentinel nor a corrupt text is JSON
  }

  /** A failed store is logged and swallowed: the caller still gets the handler's result. */
  function AfterStoring(record: Value): Pc {
    if record.Record? then Finished(Ran(record.response, record.status)) else Finished(StoreRaised)
  }

  /** One move of the wrapper's code. An answer the position does not ask for leaves it where it is. */
  function Advance(pc: Pc, bodyHash: string, a: Answer): Pc {
    match (pc, a)
    case (Claiming, Claim(ok)) => if ok then Handling else FirstRead
    case (FirstRead, Got(found)) => if found == Some(Sentinel) then Polling(0) else Deciding(found)
    case (Polling(made), Got(found)) =>
      if Settled(found) then Deciding(found)
      else if made + 1 >= MAX_POLLS then Finished(Busy)
      else Polling(made + 1)
    case (Deciding(seen), Local) => Decide(seen, bodyHash)
    case (Purging, Acknowledged) => Handling
    case (Handling, Handler(reply, run)) =>
      (match reply
       case Raised => Releasing
       case Returned(response, status) => Storing(Record(bodyHash, response, status, run)))
    case (Releasing, Acknowledged) => Finished(HandlerRaised)
    case (Storing(record), Acknowledged) => AfterStoring(record)
    case (Storing(record), Failed) => AfterStoring(record)
    case (Claiming, Failed) => Finished(StoreRaised)
    case (FirstRead, Failed) => Finished(StoreRaised)
    case (Polling(_), Failed) => Finished(StoreRaised)
    case (Purging, Failed) => Finished(StoreRaised)
    case (Releasing, Failed) => Finished(StoreRaised)
    case _ => pc
  }

  // ---- The wrapper's own loop, against the automaton ------------------------------------------

  datatype Claimed = ClaimWon | ClaimLost | ClaimFails

  datatype Reading = Read(found: Option<Value>) | ReadFails

  /** The answers a single request gets; any store command may raise. */
  datatype Answers = Answers(claim: Claimed, first: Reading, polls: seq<Reading>, handler: HandlerReply, run: nat,
                             purgeFails: bool, releaseFails: bool, storeFails: bool)

  function Reply(r: Reading): Answer {
    if r.Read? then Got(r.found) else Failed
  }

  function AnswerFor(pc: Pc, env: Answers): Answer
    requires pc.Polling? ==> pc.made < |env.polls|
  {
    match pc
    case Claiming => if env.claim.ClaimFails? then Failed else Claim(env.claim.ClaimWon?)
    case FirstRead => Reply(env.first)
    case Polling(made) => Reply(env.polls[made])
    case Handling => Handler(env.handler, env.run)
    case Deciding(_) => Local
    case Purging => if env.purgeFails then Failed else Acknowledged
    case Releasing => if env.releaseFails then Failed else Acknowledged
    case Storing(_) => if env.storeFails then Failed else Acknowledged
    case Finished(_) => Local
  }

  /** An upper bound on the moves a request still makes. */
  function Rank(pc: Pc): nat {
    match pc
    case Claiming => 56
    case FirstRead => 55
    case Polling(made) => if made < MAX_POLLS then 4 + (MAX_POLLS - made) else 4
    case Deciding(_) => 4
    case Purging => 3
    case Handling => 2
    case Releasing => 1
    case Storing(_) => 1
    case Finished(_) => 0
  }

  function Drive(pc: Pc, bodyHash: string, env: Answers): Outcome
    requires |env.polls| == MAX_POLLS && (pc.Polling? ==> pc.made < MAX_POLLS)
    decreases Rank(pc)
  {
    if pc.Finished? then pc.outcome else Drive(Advance(pc, bodyHash, AnswerFor(pc, env)), bodyHash, env)
  }

  /** What the handler's run comes to; a failing store is swallowed, a failing release is not. */
  function HandlerOutcome(env: Answers): Outcome {
    match env.handler
    case Raised => if env.releaseFails then StoreRaised else HandlerRaised
    case Returned(response, status) => Ran(response, status)
  }

  lemma DriveHandling(bodyHash: string, env: Answers)
    requires |env.polls| == MAX_POLLS
    ensures Drive(Handling, bodyHash, env) == HandlerOutcome(env)
  {
    var next := Advance(Handling, bodyHash, AnswerFor(Handling, env));
    assert Drive(Handling, bodyHash, env) == Drive(next, bodyHash, env);
    assert Drive(next, bodyHash, env) == Drive(Advance(next, bodyHash, AnswerFor(next, env)), bodyHash, env);
  }

  predicate Unsettled(r: Reading) {
    r.Read? && !Settled(r.found)
  }

  /** Poll i is the first that settles the matter. */
  predicate FirstSettledAt(polls: seq<Reading>, i: nat) {
    i < |polls| && polls[i].Read? && Settled(polls[i].found) && forall j: nat :: j < i ==> Unsettled(polls[j])
  }

  /** The value that a request which lost the claim decides on: its first reading, or else the first poll that
      settles. */
  ghost predicate DecidesOn(env: Answers, v: Option<Value>) {
    || (env.first == Read(v) && v != Some(Sentinel))
    || (env.first == Read(Some(Sentinel)) && exists i: nat :: FirstSettledAt(env.polls, i) && env.polls[i] == Read(v))
  }

  lemma DriveFinished(outcome: Outcome, bodyHash: string, env: Answers)
    requires |env.polls| == MAX_POLLS
    ensures Drive(Finished(outcome), bodyHash, env) == outcome
  {
  }

  lemma DriveClaim(bodyHash: string, env: Answers)
    requires |env.polls| == MAX_POLLS
    ensures Drive(Claiming, bodyHash, env) ==
            if env.claim.ClaimFails? then StoreRaised
            else if env.claim.ClaimWon? then Drive(Handling, bodyHash, env)
            else if env.first.ReadFails? then StoreRaised
            else if env.first.found == Some(Sentinel) then Drive(Polling(0), bodyHash, env)
            else Drive(Deciding(env.first.found), bodyHash, env)
  {
    hide Settled;
    var next := Advance(Claiming, bodyHash, AnswerFor(Claiming, env));
    assert Drive(Claiming, bodyHash, env) == Drive(next, bodyHash, env);
    if next.FirstRead? {
      var then' := Advance(next, bodyHash, AnswerFor(next, env));
      assert Drive(next, bodyHash, env) == Drive(then', bodyHash, env);
    }
  }

  lemma DrivePoll(bodyHash: string, env: Answers, made: nat)
    requires |env.polls| == MAX_POLLS && made < MAX_POLLS
    ensures Drive(Polling(made), bodyHash, env) ==
            var r := env.polls[made];
            if r.ReadFails? then StoreRaised
            else if Settled(r.found) then Drive(Deciding(r.found), bodyHash, env)
            else Drive(if made + 1 < MAX_POLLS then Polling(made + 1) else Finished(Busy), bodyHash, env)
  {
    hide Settled;
    var next := Advance(Polling(made), bodyHash, AnswerFor(Polling(made), env));
    assert Drive(Polling(made), bodyHash, env) == Drive(next, bodyHash, env);
  }

  lemma DriveDecision(seen: Option<Value>, bodyHash: string, env: Answers)
    requires |env.polls| == MAX_POLLS
    ensures Drive(Deciding(seen), bodyHash, env) ==
            match seen
            case None => KeyVanished
            case Some(Record(stored, response, status, run)) =>
              if stored != bodyHash then Conflict else Replayed(response, status, run)
            case Some(_) => if env.purgeFails then StoreRaised else Drive(Handling, bodyHash, env)
  {
    var next := Decide(seen, bodyHash);
    assert Drive(Deciding(seen), bodyHash, env) == Drive(next, bodyHash, env);
    if next.Purging? {
      var then' := Advance(next, bodyHash, AnswerFor(next, env));
      assert Drive(next, bodyHash, env) == Drive(then', bodyHash, env);
    }
  }

  lemma TheFirstSettledPoll(env: Answers, i: nat)
    requires env.first == Read(Some(Sentinel)) && FirstSettledAt(env.polls, i)
    ensures DecidesOn(env, env.polls[i].found)
    ensures forall v :: DecidesOn(env, v) ==> v == env.polls[i].found
  {
    forall v | DecidesOn(env, v) ensures v == env.polls[i].found {
      var j: nat :| FirstSettledAt(env.polls, j) && env.polls[j] == Read(v);
      assert !(j < i) && !(i < j);
    }
  }

  /** Where a poll fails before any has settled, nothing is decided on. */
  lemma OnlySettledPollsDecide(env: Answers, i: nat)
    requires env.first == Read(Some(Sentinel)) && i < |env.polls| && env.polls[i].ReadFails?
    requires forall j: nat :: j < i ==> Unsettled(env.polls[j])
    ensures forall v :: !DecidesOn(env, v)
  {
    forall v ensures !DecidesOn(env, v) {
      forall j: nat ensures !FirstSettledAt(env.polls, j) {
        assert j > i ==> !Unsettled(env.polls[i]);
      }
    }
  }

  method Wrapper(bodyHash: string, env: Answers) returns (outcome: Outcome, polls: nat)
    requires |env.polls| == MAX_POLLS
    ensures outcome == Drive(Claiming, bodyHash, env)
    ensures polls <= MAX_POLLS
    ensures outcome == Busy <==>
            env.claim.ClaimLost? && env.first == Read(Some(Sentinel)) &&
            forall i: nat :: i < MAX_POLLS ==> Unsettled(env.polls[i])
    ensures outcome == KeyVanished <==> env.claim.ClaimLost? && env.first == Read(None)
    ensures outcome == Conflict <==>
            env.claim.ClaimLost? && exists v :: DecidesOn(env, Some(v)) && v.Record? && v.bodyHash != bodyHash
    ensures outcome.Replayed? ==>
            env.claim.ClaimLost? &&
            DecidesOn(env, Some(Record(bodyHash, outcome.response, outcome.status, outcome.run)))
    ensures (env.claim.ClaimLost? && exists v :: DecidesOn(env, Some(v)) && v.Record? && v.bodyHash == bodyHash)
            ==> outcome.Replayed?
  {
    polls := 0;
    DriveClaim(bodyHash, env);
    hide Drive, Settled;
    if env.claim.ClaimFails? { return StoreRaised, polls; }
    if env.claim.ClaimLost? {
      if env.first.ReadFails? { return StoreRaised, polls; }
      var cached := env.first.found;
      if cached == Some(Sentinel) {
        var found := false;
        while polls < MAX_POLLS && !found
          invariant polls <= MAX_POLLS
          invariant !found ==> forall i: nat :: i < polls ==> Unsettled(env.polls[i])
          invariant found ==> polls > 0 && FirstSettledAt(env.polls, polls - 1) && env.polls[polls - 1] == Read(cached)
          invariant Drive(Claiming, bodyHash, env) ==
                    if found then Drive(Deciding(cached), bodyHash, env)
                    else Drive(if polls < MAX_POLLS then Polling(polls) else Finished(Busy), bodyHash, env)
        {
          DrivePoll(bodyHash, env, polls);
          if env.polls[polls].ReadFails? {
            OnlySettledPollsDecide(env, polls);
            return StoreRaised, polls + 1;
          }
          cached := env.polls[polls].found;
          found := Settled(cached);
          polls := polls + 1;
        }
        if !found {
          DriveFinished(Busy, bodyHash, env);
          return Busy, polls;
        }
        TheFirstSettledPoll(env, polls - 1);
      }
      assert DecidesOn(env, cached) && forall v :: DecidesOn(env, v) ==> v == cached;
      DriveDecision(cached, bodyHash, env);
      if cached.None? { return KeyVanished, polls; }
      if cached.value.Record? {
        var r := cached.value;
        return if r.bodyHash != bodyHash then Conflict else Replayed(r.response, r.status, r.run), polls;
      }
      // corrupt: the entry is deleted and execution falls through
      if env.purgeFails { return StoreRaised, polls; }
    }
    DriveHandling(bodyHash, env);
    outcome := HandlerOutcome(env);
  }

  /** The decorated endpoint. Without a request object, or without a key in its header (an empty one counts as
      none), the handler runs as if undecorated, whatever the store holds; no call answers 400. */
  method Endpoint(key: Option<string>, bodyHash: string, env: Answers) returns (outcome: Outcome, storeAsked: bool)
    requires |env.polls| == MAX_POLLS
    ensures key == None || key == Some("") ==>
            !storeAsked &&
            outcome == if env.handler.Raised? then HandlerRaised else Ran(env.handler.response, env.handler.status)
    ensures key != None && key != Some("") ==> storeAsked && outcome == Drive(Claiming, bodyHash, env)
  {
    if key.None? || key.value == "" {
      match env.handler {
        case Raised => return HandlerRaised, false;
        case Returned(response, status) => return Ran(response, status), false;
      }
    }
    var polls;
    outcome, polls := Wrapper(bodyHash, env);
    storeAsked := true;
  }

  // ---- The system ------------------------------------------------------------------------------

  datatype Request = Request(bodyHash: string, pc: Pc)

  /** A successful handler run; `epoch` counts how often the key had expired by then. */
  datatype Win = Win(request: nat, bodyHash: string, response: string, status: int, epoch: nat)

  datatype Sys = Sys(now: int, cell: Cell<Value>, epoch: nat, requests: map<nat, Request>, wins: seq<Win>)

  /** A store command may fail before or after taking effect. */
  datatype Fault = Fine | LostCommand | LostReply

  datatype Event =
    | Arrive(id: nat, bodyHash: string)
    | Command(id: nat, fault: Fault)
    | HandlerEnds(id: nat, reply: HandlerReply)
    | Think(id: nat)
    | Cancel(id: nat)
    | Tick(elapsed: nat)

  const START: Sys := Sys(0, Absent, 0, map[], [])

  predicate Commands(pc: Pc) {
    pc.Claiming? || pc.FirstRead? || pc.Polling? || pc.Purging? || pc.Releasing? || pc.Storing?
  }

  predicate Enabled(s: Sys, e: Event) {
    match e
    case Arrive(id, _) => id !in s.requests
    case Command(id, _) => id in s.requests && Commands(s.requests[id].pc)
    case HandlerEnds(id, _) => id in s.requests && s.requests[id].pc.Handling?
    case Think(id) => id in s.requests && s.requests[id].pc.Deciding?
    case Cancel(id) => id in s.requests && !s.requests[id].pc.Finished?
    case Tick(_) => true
  }

  /** The store command issued at `pc`. */
  function CellAfter(pc: Pc, cell: Cell<Value>, now: int, ttl: nat): Cell<Value> {
    match pc
    case Claiming => if cell.Absent? then cell.SetNx(Sentinel, now, ttl) else cell
    case Purging => Absent
    case Releasing => Absent
    case Storing(record) => Present(record, now + ttl)
    case _ => cell
  }

  function StoreAnswer(pc: Pc, cell: Cell<Value>): Answer {
    match pc
    case Claiming => Claim(cell.Absent?)
    case FirstRead => Got(cell.Get())
    case Polling(_) => Got(cell.Get())
    case _ => Acknowledged
  }

  function Move(s: Sys, id: nat, a: Answer): Sys
    requires id in s.requests
  {
    var r := s.requests[id];
    s.(requests := s.requests[id := r.(pc := Advance(r.pc, r.bodyHash, a))])
  }

  function Step(s: Sys, e: Event, ttl: nat): Sys
    requires Enabled(s, e)
  {
    match e
    case Arrive(id, bodyHash) => s.(requests := s.requests[id := Request(bodyHash, Claiming)])
    case Command(id, fault) =>
      var pc := s.requests[id].pc;
      var moved := Move(s, id, if fault.Fine? then StoreAnswer(pc, s.cell) else Failed);
      if fault.LostCommand? then moved else moved.(cell := CellAfter(pc, s.cell, s.now, ttl))
    case HandlerEnds(id, reply) =>
      var moved := Move(s, id, Handler(reply, |s.wins|));
      if reply.Raised? then moved
      else moved.(wins := s.wins + [Win(id, s.requests[id].bodyHash, reply.response, reply.status, s.epoch)])
    case Think(id) => Move(s, id, Local)
    case Cancel(id) => s.(requests := s.requests[id := s.requests[id].(pc := Finished(Cancelled))])
    case Tick(elapsed) =>
      var cell := s.cell.At(s.now + elapsed);
      s.(now := s.now + elapsed, cell := cell, epoch := if cell == s.cell then s.epoch else s.epoch + 1)
  }

  /** A request that claimed the key and has not yet finished with it. */
  ghost predicate Owner(s: Sys, id: nat) {
    id in s.requests && (s.requests[id].pc.Handling? || s.requests[id].pc.Releasing? || s.requests[id].pc.Storing?)
  }

  /** The one premise on timing: the key does not expire under a request that still owns it. */
  ghost predicate Timely(s: Sys, e: Event) {
    e.Tick? && s.cell.Present? && s.cell.expires <= s.now + e.elapsed ==>
      forall id :: id in s.requests ==> !Owner(s, id)
  }

  /** A run of the code, whatever the timing. */
  ghost predicate Feasible(s: Sys, es: seq<Event>, ttl: nat)
    decreases |es|
  {
    es == [] || (Enabled(s, es[0]) && Feasible(Step(s, es[0], ttl), es[1..], ttl))
  }

  ghost predicate AllTimely(s: Sys, es: seq<Event>, ttl: nat)
    requires Feasible(s, es, ttl)
    decreases |es|
  {
    es == [] || (Timely(s, es[0]) && AllTimely(Step(s, es[0], ttl), es[1..], ttl))
  }

  /** A run that meets the premise on timing. */
  ghost predicate Legal(s: Sys, es: seq<Event>, ttl: nat) {
    Feasible(s, es, ttl) && AllTimely(s, es, ttl)
  }

  function After(s: Sys, es: seq<Event>, ttl: nat): Sys
    requires Feasible(s, es, ttl)
    decreases |es|
  {
    if es == [] then s else After(Step(s, es[0], ttl), es[1..], ttl)
  }

  // ---- The invariant ---------------------------------------------------------------------------

  /** Run number `run` succeeded with this answer for this body. */
  predicate WonBy(wins: seq<Win>, run: nat, bodyHash: string, response: string, status: int) {
    run < |wins| && wins[run].bodyHash == bodyHash && wins[run].response == response && wins[run].status == status
  }

  predicate RecordOfWin(wins: seq<Win>, v: Value) {
    v.Record? && WonBy(wins, v.run, v.bodyHash, v.response, v.status)
  }

  /** The record of a run that succeeded in the key's present lifetime. */
  predicate CurrentRecord(s: Sys, v: Value) {
    RecordOfWin(s.wins, v) && s.wins[v.run].epoch == s.epoch
  }

  ghost predicate PcOk(s: Sys, id: nat)
    requires id in s.requests
  {
    var r := s.requests[id];
    match r.pc
    case Polling(made) => made < MAX_POLLS
    case Deciding(seen) => seen.Some? ==> RecordOfWin(s.wins, seen.value)
    case Purging => false
    case Storing(record) => CurrentRecord(s, record) && record.bodyHash == r.bodyHash
    case Finished(Replayed(response, status, run)) => WonBy(s.wins, run, r.bodyHash, response, status)
    case _ => true
  }

  ghost predicate OwnersOk(s: Sys) {
    && (forall i, j :: Owner(s, i) && Owner(s, j) ==> i == j)
    && (forall i :: Owner(s, i) ==> s.cell.Present? && s.cell.value == Sentinel)
  }

  ghost predicate EpochsOk(s: Sys) {
    && (forall i, j :: 0 <= i < j < |s.wins| ==> s.wins[i].epoch < s.wins[j].epoch)
    && (forall i :: 0 <= i < |s.wins| ==> s.wins[i].epoch <= s.epoch)
  }

  /** Once a run has succeeded, the key stays taken and no handler runs until the key expires. */
  ghost predicate WonEpochIsClosed(s: Sys) {
    (exists i :: 0 <= i < |s.wins| && s.wins[i].epoch == s.epoch) ==>
      s.cell.Present? && forall id :: id in s.requests ==> !s.requests[id].pc.Handling? && !s.requests[id].pc.Releasing?
  }

  ghost predicate Inv(s: Sys) {
    && (s.cell.Present? ==> s.cell.value == Sentinel || CurrentRecord(s, s.cell.value))
    && (forall id :: id in s.requests ==> PcOk(s, id))
    && OwnersOk(s)
    && EpochsOk(s)
    && WonEpochIsClosed(s)
  }

  predicate MovedBy(e: Event, id: nat) {
    !e.Arrive? && !e.Tick? && e.id == id
  }

  /** Ownership is gained only by claiming an absent key. */
  lemma OwnersComeFromClaims(s: Sys, e: Event, ttl: nat, id: nat)
    requires Inv(s) && Enabled(s, e) && Owner(Step(s, e, ttl), id)
    ensures Owner(s, id) ||
            (e == Command(id, Fine) && s.requests[id].pc.Claiming? && s.cell.Absent?)
  {
    assert id in s.requests ==> PcOk(s, id);
  }

  /** A key that is taken is changed by nobody but its owner, who thereby stops being one. */
  lemma OnlyTheOwnerWrites(s: Sys, e: Event, ttl: nat)
    requires Inv(s) && Enabled(s, e) && !e.Tick? && s.cell.Present?
    ensures Step(s, e, ttl).cell != s.cell ==> e.Command? && Owner(s, e.id) && !Owner(Step(s, e, ttl), e.id)
  {
    if e.Command? { assert PcOk(s, e.id); }
  }

  lemma StepKeepsOwners(s: Sys, e: Event, ttl: nat)
    requires Inv(s) && Enabled(s, e) && Timely(s, e)
    ensures OwnersOk(Step(s, e, ttl))
  {
    var s' := Step(s, e, ttl);
    if s.cell.Present? && !e.Tick? { OnlyTheOwnerWrites(s, e, ttl); }
    forall i | Owner(s', i)
      ensures s'.cell.Present? && s'.cell.value == Sentinel
      ensures forall j :: Owner(s', j) ==> i == j
    {
      OwnersComeFromClaims(s, e, ttl, i);
      forall j | Owner(s', j) ensures i == j { OwnersComeFromClaims(s, e, ttl, j); }
    }
  }

  lemma OthersKeepPc(s: Sys, e: Event, ttl: nat, id: nat)
    requires Inv(s) && Enabled(s, e) && Timely(s, e) && id in Step(s, e, ttl).requests && !MovedBy(e, id)
    ensures PcOk(Step(s, e, ttl), id)
  {
    hide Advance, Decide;
    var s' := Step(s, e, ttl);
    assert forall i :: 0 <= i < |s.wins| ==> s'.wins[i] == s.wins[i];
    if id in s.requests {
      assert s'.requests[id] == s.requests[id] && PcOk(s, id);
      assert s.requests[id].pc.Storing? ==> Owner(s, id);
    }
  }

  lemma CommandKeepsPc(s: Sys, id: nat, fault: Fault, ttl: nat)
    requires Inv(s) && Enabled(s, Command(id, fault))
    ensures PcOk(Step(s, Command(id, fault), ttl), id)
  {
    hide OwnersOk, EpochsOk, WonEpochIsClosed;
    assert PcOk(s, id);
    var s' := Step(s, Command(id, fault), ttl);
    assert s'.wins == s.wins && s'.epoch == s.epoch;
  }

  lemma MoveKeepsPc(s: Sys, e: Event, ttl: nat, id: nat)
    requires Inv(s) && Enabled(s, e) && MovedBy(e, id)
    ensures PcOk(Step(s, e, ttl), id)
  {
    hide OwnersOk, EpochsOk, WonEpochIsClosed;
    if e.Command? {
      CommandKeepsPc(s, id, e.fault, ttl);
    } else {
      assert PcOk(s, id);
    }
  }

  lemma StepKeepsPc(s: Sys, e: Event, ttl: nat, id: nat)
    requires Inv(s) && Enabled(s, e) && Timely(s, e) && id in Step(s, e, ttl).requests
    ensures PcOk(Step(s, e, ttl), id)
  {
    if MovedBy(e, id) { MoveKeepsPc(s, e, ttl, id); } else { OthersKeepPc(s, e, ttl, id); }
  }

  lemma StepKeepsPcs(s: Sys, e: Event, ttl: nat)
    requires Inv(s) && Enabled(s, e) && Timely(s, e)
    ensures forall id :: id in Step(s, e, ttl).requests ==> PcOk(Step(s, e, ttl), id)
  {
    forall id | id in Step(s, e, ttl).requests ensures PcOk(Step(s, e, ttl), id) { StepKeepsPc(s, e, ttl, id); }
  }

  lemma StepKeepsCell(s: Sys, e: Event, ttl: nat)
    requires Inv(s) && Enabled(s, e) && Timely(s, e)
    ensures var s' := Step(s, e, ttl);
            s'.cell.Present? ==> s'.cell.value == Sentinel || CurrentRecord(s', s'.cell.value)
  {
    var s' := Step(s, e, ttl);
    assert forall i :: 0 <= i < |s.wins| ==> s'.wins[i] == s.wins[i];
    if e.Command? {
      assert PcOk(s, e.id);
      if s.requests[e.id].pc.Storing? { assert CurrentRecord(s', s.requests[e.id].pc.record); }
    }
    if s.cell.Present? && s'.cell == s.cell && s.cell.value != Sentinel {
      assert CurrentRecord(s', s.cell.value);
    }
  }

  /** While a handler runs, nobody has succeeded in the key's present lifetime. */
  lemma NoWinYet(s: Sys, id: nat)
    requires Inv(s) && id in s.requests && s.requests[id].pc.Handling?
    ensures forall i :: 0 <= i < |s.wins| ==> s.wins[i].epoch < s.epoch
  {
  }

  /** The key's lifetime in which run `i` succeeded is not over after this event. */
  lemma WonAgain(s: Sys, e: Event, ttl: nat, i: nat)
    requires Inv(s) && Enabled(s, e) && Timely(s, e) && i < |s.wins| && s.wins[i].epoch == Step(s, e, ttl).epoch
    ensures var s' := Step(s, e, ttl);
            s'.cell.Present? &&
            forall id :: id in s'.requests ==> !s'.requests[id].pc.Handling? && !s'.requests[id].pc.Releasing?
  {
    var s' := Step(s, e, ttl);
    assert s.wins[i].epoch == s.epoch;
    if !e.Tick? { OnlyTheOwnerWrites(s, e, ttl); }
    forall id | id in s'.requests ensures !s'.requests[id].pc.Handling? && !s'.requests[id].pc.Releasing? {
      if Owner(s', id) { OwnersComeFromClaims(s, e, ttl, id); }
    }
  }

  lemma JustWon(s: Sys, e: Event, ttl: nat)
    requires Inv(s) && Enabled(s, e) && Timely(s, e) && |s.wins| < |Step(s, e, ttl).wins|
    ensures var s' := Step(s, e, ttl);
            s'.cell.Present? &&
            forall id :: id in s'.requests ==> !s'.requests[id].pc.Handling? && !s'.requests[id].pc.Releasing?
  {
    var s' := Step(s, e, ttl);
    assert Owner(s, e.id);
    forall id | id in s'.requests ensures !s'.requests[id].pc.Handling? && !s'.requests[id].pc.Releasing? {
      if Owner(s', id) { OwnersComeFromClaims(s, e, ttl, id); }
    }
  }

  lemma StepKeepsClosedEpochs(s: Sys, e: Event, ttl: nat)
    requires Inv(s) && Enabled(s, e) && Timely(s, e)
    ensures WonEpochIsClosed(Step(s, e, ttl))
  {
    hide Advance, Decide;
    var s' := Step(s, e, ttl);
    if i :| 0 <= i < |s'.wins| && s'.wins[i].epoch == s'.epoch {
      if i < |s.wins| { WonAgain(s, e, ttl, i); } else { JustWon(s, e, ttl); }
    }
  }

  lemma StepKeepsEpochs(s: Sys, e: Event, ttl: nat)
    requires Inv(s) && Enabled(s, e) && Timely(s, e)
    ensures EpochsOk(Step(s, e, ttl)) && WonEpochIsClosed(Step(s, e, ttl))
  {
    hide WonEpochIsClosed;
    StepKeepsClosedEpochs(s, e, ttl);
    if e.HandlerEnds? {
      assert Owner(s, e.id);
      NoWinYet(s, e.id);
    }
  }

  lemma StepKeepsInv(s: Sys, e: Event, ttl: nat)
    requires Inv(s) && Enabled(s, e) && Timely(s, e)
    ensures Inv(Step(s, e, ttl))
  {
    StepKeepsOwners(s, e, ttl);
    StepKeepsPcs(s, e, ttl);
    StepKeepsCell(s, e, ttl);
    StepKeepsEpochs(s, e, ttl);
  }

  // ---- Whole runs ------------------------------------------------------------------------------

  lemma {:induction false} RunKeepsInv(s: Sys, es: seq<Event>, ttl: nat)
    requires Inv(s) && Legal(s, es, ttl)
    ensures Inv(After(s, es, ttl))
    decreases |es|
  {
    if es != [] {
      StepKeepsInv(s, es[0], ttl);
      RunKeepsInv(Step(s, es[0], ttl), es[1..], ttl);
    }
  }

  /** Over every interleaving of any number of requests: one handler at a time, the key holds only the
      sentinel or the record of a successful run, and the corrupt-entry branch is never entered. */
  lemma OneHandlerAtATime(es: seq<Event>, ttl: nat, i: nat, j: nat)
    requires Legal(START, es, ttl)
    ensures var s := After(START, es, ttl);
            && (i in s.requests && j in s.requests && s.requests[i].pc.Handling? && s.requests[j].pc.Handling? ==>
                i == j)
            && (i in s.requests ==> !s.requests[i].pc.Purging?)
            && (s.cell.Present? ==> s.cell.value == Sentinel || CurrentRecord(s, s.cell.value))
            && (Owner(s, i) ==> s.cell.Present? && s.cell.value == Sentinel)
  {
    RunKeepsInv(START, es, ttl);
    var s := After(START, es, ttl);
    if i in s.requests { assert PcOk(s, i); }
    if i in s.requests && j in s.requests && s.requests[i].pc.Handling? && s.requests[j].pc.Handling? {
      assert Owner(s, i) && Owner(s, j);
    }
  }

  lemma {:induction false} DistinctEpochs(wins: seq<Win>, epoch: nat)
    requires forall i, j :: 0 <= i < j < |wins| ==> wins[i].epoch < wins[j].epoch
    requires forall i :: 0 <= i < |wins| ==> wins[i].epoch <= epoch
    ensures |wins| <= epoch + 1
  {
    if |wins| > 1 {
      var n := |wins| - 1;
      assert wins[n - 1].epoch < wins[n].epoch;
      DistinctEpochs(wins[..n], wins[n].epoch - 1);
    }
  }

  /** At most one handler run succeeds per lifetime of the key, so at most one while it has not expired. */
  lemma AtMostOneSuccess(es: seq<Event>, ttl: nat)
    requires Legal(START, es, ttl)
    ensures var s := After(START, es, ttl);
            |s.wins| <= s.epoch + 1 && (s.epoch == 0 ==> |s.wins| <= 1)
  {
    RunKeepsInv(START, es, ttl);
    var s := After(START, es, ttl);
    DistinctEpochs(s.wins, s.epoch);
  }

  /** What a read can find is the sentinel or the record of the last success, in the key's present lifetime and
      the only one in it. */
  lemma RecordsAreOfTheLastSuccess(es: seq<Event>, ttl: nat)
    requires Legal(START, es, ttl)
    ensures var s := After(START, es, ttl);
            s.cell.Present? && s.cell.value != Sentinel ==>
              && CurrentRecord(s, s.cell.value) && s.cell.value.run == |s.wins| - 1
              && forall i :: 0 <= i < |s.wins| - 1 ==> s.wins[i].epoch < s.epoch
  {
    RunKeepsInv(START, es, ttl);
    var s := After(START, es, ttl);
    if s.cell.Present? && s.cell.value != Sentinel {
      var last := |s.wins| - 1;
      assert s.wins[last].epoch <= s.epoch;
    }
  }

  /** A replay carries the body and status of the very run whose record was read, and that run was for the same
      request body; while the key has not expired there is no other. */
  lemma ReplayIsFaithful(es: seq<Event>, ttl: nat, id: nat)
    requires Legal(START, es, ttl)
    requires var s := After(START, es, ttl);
             id in s.requests && s.requests[id].pc.Finished? && s.requests[id].pc.outcome.Replayed?
    ensures var s := After(START, es, ttl);
            var r := s.requests[id];
            var replay := r.pc.outcome;
            && WonBy(s.wins, replay.run, r.bodyHash, replay.response, replay.status)
            && (s.epoch == 0 ==> |s.wins| == 1)
  {
    RunKeepsInv(START, es, ttl);
    AtMostOneSuccess(es, ttl);
    assert PcOk(After(START, es, ttl), id);
  }

  /** How many moves of request `id` a run contains. */
  function Moves(es: seq<Event>, id: nat): nat {
    if es == [] then 0 else (if MovedBy(es[0], id) then 1 else 0) + Moves(es[1..], id)
  }

  lemma AnswersLowerRank(pc: Pc, bodyHash: string, a: Answer)
    requires pc.Polling? ==> pc.made < MAX_POLLS
    ensures Advance(pc, bodyHash, a) != pc ==> Rank(Advance(pc, bodyHash, a)) < Rank(pc)
  {
  }

  lemma MoveLowersRank(s: Sys, e: Event, ttl: nat, id: nat)
    requires Inv(s) && Enabled(s, e) && id in s.requests
    ensures var rank := Rank(Step(s, e, ttl).requests[id].pc);
            if MovedBy(e, id) then rank < Rank(s.requests[id].pc) else rank == Rank(s.requests[id].pc)
  {
    assert PcOk(s, id);
    var pc := s.requests[id].pc;
    if MovedBy(e, id) && e.Command? {
      AnswersLowerRank(pc, s.requests[id].bodyHash, if e.fault.Fine? then StoreAnswer(pc, s.cell) else Failed);
    }
  }

  /** No request waits for ever: whatever the others do, it makes at most 56 moves, 50 of them polls. */
  lemma {:induction false} EveryRequestStops(s: Sys, es: seq<Event>, ttl: nat, id: nat)
    requires Inv(s) && Legal(s, es, ttl)
    ensures Moves(es, id) <= if id in s.requests then Rank(s.requests[id].pc) else 56
    decreases |es|
  {
    if es != [] {
      var s' := Step(s, es[0], ttl);
      StepKeepsInv(s, es[0], ttl);
      EveryRequestStops(s', es[1..], ttl, id);
      if id in s.requests { MoveLowersRank(s, es[0], ttl, id); }
    }
  }

  /** A failed run that releases the key makes room: the next claim succeeds. */
  lemma ReleaseMakesRoom(s: Sys, id: nat, next: nat, ttl: nat)
    requires id in s.requests && s.requests[id].pc.Releasing?
    requires next in s.requests && s.requests[next].pc.Claiming?
    ensures var freed := Step(s, Command(id, Fine), ttl);
            && freed.requests[id].pc == Finished(HandlerRaised)
            && Step(freed, Command(next, Fine), ttl).requests[next].pc.Handling?
  {
  }

  /** The timing premise is exact: `elapsed` seconds into a handler run, a newcomer enters the handler
      beside it if and only if the key has expired by then. */
  lemma ExclusionLastsExactlyTheTtl(s: Sys, id: nat, newcomer: nat, bodyHash: string, elapsed: nat, ttl: nat)
    requires Inv(s) && id in s.requests && s.requests[id].pc.Handling? && newcomer !in s.requests
    ensures var arrived := Step(Step(s, Tick(elapsed), ttl), Arrive(newcomer, bodyHash), ttl);
            var late := Step(arrived, Command(newcomer, Fine), ttl);
            && s.cell.Present? && late.requests[id].pc.Handling?
            && (late.requests[newcomer].pc.Handling? <==> s.cell.expires <= s.now + elapsed)
  {
    assert Owner(s, id);
  }

  lemma FeasibleCons(s: Sys, e: Event, rest: seq<Event>, ttl: nat)
    requires Enabled(s, e) && Feasible(Step(s, e, ttl), rest, ttl)
    ensures Feasible(s, [e] + rest, ttl) && After(s, [e] + rest, ttl) == After(Step(s, e, ttl), rest, ttl)
  {
    assert ([e] + rest)[1..] == rest;
  }

  lemma LegalCons(s: Sys, e: Event, rest: seq<Event>, ttl: nat)
    requires Enabled(s, e) && Timely(s, e) && Legal(Step(s, e, ttl), rest, ttl)
    ensures Legal(s, [e] + rest, ttl) && After(s, [e] + rest, ttl) == After(Step(s, e, ttl), rest, ttl)
  {
    FeasibleCons(s, e, rest, ttl);
    assert ([e] + rest)[1..] == rest;
  }

  // ---- The key that is gone at the first read --------------------------------------------------

  /** The request's first read finds no key. */
  predicate FindsNoKey(s: Sys, e: Event, id: nat)
    requires Enabled(s, e)
  {
    e == Command(id, Fine) && s.requests[id].pc.FirstRead? && s.cell.Absent?
  }

  /** In this run from `s`, the request's first read finds no key. */
  ghost predicate ReadNoKey(s: Sys, es: seq<Event>, ttl: nat, id: nat)
    requires Feasible(s, es, ttl)
    decreases |es|
  {
    es != [] && (FindsNoKey(s, es[0], id) || ReadNoKey(Step(s, es[0], ttl), es[1..], ttl, id))
  }

  /** The request has read a missing key, and has not been cancelled since. */
  ghost predicate Vanished(s: Sys, id: nat) {
    id in s.requests && (s.requests[id].pc == Deciding(None) || s.requests[id].pc == Finished(KeyVanished))
  }

  ghost predicate Abandoned(s: Sys, id: nat) {
    id in s.requests && s.requests[id].pc == Finished(Cancelled)
  }

  lemma VanishedStepwise(s: Sys, e: Event, ttl: nat, id: nat)
    requires Inv(s) && Enabled(s, e)
    ensures Vanished(Step(s, e, ttl), id) <==>
            (Vanished(s, id) || FindsNoKey(s, e, id)) && !Abandoned(Step(s, e, ttl), id)
    ensures Abandoned(s, id) ==> Abandoned(Step(s, e, ttl), id) && !FindsNoKey(s, e, id)
  {
    if id in s.requests { assert PcOk(s, id); }
  }

  lemma {:induction false} VanishedAlongARun(s: Sys, es: seq<Event>, ttl: nat, id: nat)
    requires Inv(s) && Legal(s, es, ttl)
    ensures Vanished(After(s, es, ttl), id) <==>
            (Vanished(s, id) || ReadNoKey(s, es, ttl, id)) && !Abandoned(After(s, es, ttl), id)
    ensures Abandoned(s, id) ==> Abandoned(After(s, es, ttl), id)
    decreases |es|
  {
    if es != [] {
      StepKeepsInv(s, es[0], ttl);
      VanishedStepwise(s, es[0], ttl, id);
      VanishedAlongARun(Step(s, es[0], ttl), es[1..], ttl, id);
    }
  }

  /** Over every run: a request that has finished and was not cancelled ended in the uncaught error if and only
      if its first read, after it had lost the claim, found the key gone. */
  lemma KeyVanishedExactly(es: seq<Event>, ttl: nat, id: nat)
    requires Legal(START, es, ttl)
    ensures var s := After(START, es, ttl);
            id in s.requests && s.requests[id].pc.Finished? && s.requests[id].pc.outcome != Cancelled ==>
              (s.requests[id].pc.outcome == KeyVanished <==> ReadNoKey(START, es, ttl, id))
  {
    VanishedAlongARun(START, es, ttl, id);
  }

  /** A duplicate whose claim fails just before the key is released ends in an uncaught error, not in the
      documented 409: `json.loads` is applied to the missing value. */
  lemma ReleasedBetweenClaimAndRead(s: Sys, first: nat, second: nat, ttl: nat)
    requires s.cell.Present? && first in s.requests && s.requests[first].pc.Releasing?
    requires second in s.requests && s.requests[second].pc.Claiming?
    ensures var es := [Command(second, Fine), Command(first, Fine), Command(second, Fine), Think(second)];
            && Legal(s, es, ttl)
            && second in After(s, es, ttl).requests
            && After(s, es, ttl).requests[second].pc == Finished(KeyVanished)
  {
    var s1 := Step(s, Command(second, Fine), ttl);
    var s2 := Step(s1, Command(first, Fine), ttl);
    var s3 := Step(s2, Command(second, Fine), ttl);
    assert s2.cell.Absent? && s3.requests[second].pc == Deciding(None);
    LegalCons(s3, Think(second), [], ttl);
    LegalCons(s2, Command(second, Fine), [Think(second)], ttl);
    LegalCons(s1, Command(first, Fine), [Command(second, Fine), Think(second)], ttl);
    LegalCons(s, Command(second, Fine), [Command(first, Fine), Command(second, Fine), Think(second)], ttl);
    assert [Command(second, Fine)] + ([Command(first, Fine)] + ([Command(second, Fine)] + ([Think(second)] + []))) ==
           [Command(second, Fine), Command(first, Fine), Command(second, Fine), Think(second)];
  }

  /** Both ways to that error from the very start, with any bodies and any ttl: the first request fails and
      releases the key, or it succeeds and the key expires. */
  lemma AReleasedKeyVanishes(body0: string, body1: string, ttl: nat)
    requires ttl > 0
    ensures var es := [Arrive(0, body0), Command(0, Fine), Arrive(1, body1), HandlerEnds(0, Raised),
                       Command(1, Fine), Command(0, Fine), Command(1, Fine), Think(1)];
            && Legal(START, es, ttl)
            && 1 in After(START, es, ttl).requests && After(START, es, ttl).requests[1].pc == Finished(KeyVanished)
  {
    var s1 := Step(START, Arrive(0, body0), ttl);
    var s2 := Step(s1, Command(0, Fine), ttl);
    var s3 := Step(s2, Arrive(1, body1), ttl);
    var s4 := Step(s3, HandlerEnds(0, Raised), ttl);
    ReleasedBetweenClaimAndRead(s4, 0, 1, ttl);
    hide Step, Feasible, After, Legal;
    var es4 := [Command(1, Fine), Command(0, Fine), Command(1, Fine), Think(1)];
    var es3 := [HandlerEnds(0, Raised)] + es4;
    var es2 := [Arrive(1, body1)] + es3;
    var es1 := [Command(0, Fine)] + es2;
    LegalCons(s3, HandlerEnds(0, Raised), es4, ttl);
    LegalCons(s2, Arrive(1, body1), es3, ttl);
    LegalCons(s1, Command(0, Fine), es2, ttl);
    LegalCons(START, Arrive(0, body0), es1, ttl);
    assert [Arrive(0, body0)] + es1 == [Arrive(0, body0), Command(0, Fine), Arrive(1, body1), HandlerEnds(0, Raised),
                                        Command(1, Fine), Command(0, Fine), Command(1, Fine), Think(1)];
  }

  /** A duplicate whose claim fails just before a finished key expires ends there too. */
  lemma ExpiredBetweenClaimAndRead(s: Sys, second: nat, elapsed: nat, ttl: nat)
    requires s.cell.Present? && s.cell.expires <= s.now + elapsed && forall id :: !Owner(s, id)
    requires second in s.requests && s.requests[second].pc.Claiming?
    ensures var es := [Command(second, Fine), Tick(elapsed), Command(second, Fine), Think(second)];
            && Legal(s, es, ttl)
            && second in After(s, es, ttl).requests
            && After(s, es, ttl).requests[second].pc == Finished(KeyVanished)
  {
    var s1 := Step(s, Command(second, Fine), ttl);
    var s2 := Step(s1, Tick(elapsed), ttl);
    var s3 := Step(s2, Command(second, Fine), ttl);
    forall id ensures !Owner(s1, id) { assert !Owner(s, id); }
    assert s2.cell.Absent? && s3.requests[second].pc == Deciding(None);
    LegalCons(s3, Think(second), [], ttl);
    LegalCons(s2, Command(second, Fine), [Think(second)], ttl);
    LegalCons(s1, Tick(elapsed), [Command(second, Fine), Think(second)], ttl);
    LegalCons(s, Command(second, Fine), [Tick(elapsed), Command(second, Fine), Think(second)], ttl);
    assert [Command(second, Fine)] + ([Tick(elapsed)] + ([Command(second, Fine)] + ([Think(second)] + []))) ==
           [Command(second, Fine), Tick(elapsed), Command(second, Fine), Think(second)];
  }

  lemma AnExpiredKeyVanishes(body0: string, body1: string, response: string, status: int, ttl: nat)
    requires ttl > 0
    ensures var es := [Arrive(0, body0), Command(0, Fine), HandlerEnds(0, Returned(response, status)), Command(0, Fine),
                       Arrive(1, body1), Command(1, Fine), Tick(ttl), Command(1, Fine), Think(1)];
            && Legal(START, es, ttl)
            && 1 in After(START, es, ttl).requests && After(START, es, ttl).requests[1].pc == Finished(KeyVanished)
  {
    var s1 := Step(START, Arrive(0, body0), ttl);
    var s2 := Step(s1, Command(0, Fine), ttl);
    var s3 := Step(s2, HandlerEnds(0, Returned(response, status)), ttl);
    var s4 := Step(s3, Command(0, Fine), ttl);
    var s5 := Step(s4, Arrive(1, body1), ttl);
    ExpiredBetweenClaimAndRead(s5, 1, ttl, ttl);
    hide Step, Feasible, After, Legal;
    var es5 := [Command(1, Fine), Tick(ttl), Command(1, Fine), Think(1)];
    var es4 := [Arrive(1, body1)] + es5;
    var es3 := [Command(0, Fine)] + es4;
    var es2 := [HandlerEnds(0, Returned(response, status))] + es3;
    var es1 := [Command(0, Fine)] + es2;
    LegalCons(s4, Arrive(1, body1), es5, ttl);
    LegalCons(s3, Command(0, Fine), es4, ttl);
    LegalCons(s2, HandlerEnds(0, Returned(response, status)), es3, ttl);
    LegalCons(s1, Command(0, Fine), es2, ttl);
    LegalCons(START, Arrive(0, body0), es1, ttl);
    assert [Arrive(0, body0)] + es1 ==
           [Arrive(0, body0), Command(0, Fine), HandlerEnds(0, Returned(response, status)), Command(0, Fine),
            Arrive(1, body1), Command(1, Fine), Tick(ttl), Command(1, Fine), Think(1)];
  }

  // ---- How a key is freed before it expires ----------------------------------------------------

  /** A release whose DELETE takes effect, with or without its reply. */
  predicate Frees(s: Sys, e: Event)
    requires Enabled(s, e)
  {
    e.Command? && !e.fault.LostCommand? && s.requests[e.id].pc.Releasing?
  }

  lemma OneStepFreesExactly(s: Sys, e: Event, ttl: nat)
    requires Inv(s) && Enabled(s, e) && s.cell.Present?
    ensures Step(s, e, ttl).epoch >= s.epoch
    ensures Step(s, e, ttl).epoch == s.epoch ==> (Step(s, e, ttl).cell.Absent? <==> Frees(s, e))
  {
    if e.Command? { assert PcOk(s, e.id); }
  }

  /** The run's first effective release comes while the key is taken. */
  ghost predicate FreedWhileTaken(s: Sys, es: seq<Event>, ttl: nat)
    requires Feasible(s, es, ttl)
    decreases |es|
  {
    es != [] && s.cell.Present? && (Frees(s, es[0]) || FreedWhileTaken(Step(s, es[0], ttl), es[1..], ttl))
  }

  /** At some moment of the run the key is absent. */
  ghost predicate AbsentIn(s: Sys, es: seq<Event>, ttl: nat)
    requires Feasible(s, es, ttl)
    decreases |es|
  {
    s.cell.Absent? || (es != [] && AbsentIn(Step(s, es[0], ttl), es[1..], ttl))
  }

  lemma {:induction false} EpochsGrow(s: Sys, es: seq<Event>, ttl: nat)
    requires Legal(s, es, ttl)
    ensures s.epoch <= After(s, es, ttl).epoch
    decreases |es|
  {
    if es != [] { EpochsGrow(Step(s, es[0], ttl), es[1..], ttl); }
  }

  /** Short of its expiry a taken key becomes free if and only if the DELETE of a failed run takes effect. */
  lemma {:induction false} KeyIsFreedExactlyByARelease(s: Sys, es: seq<Event>, ttl: nat)
    requires Inv(s) && Legal(s, es, ttl) && s.cell.Present? && After(s, es, ttl).epoch == s.epoch
    ensures AbsentIn(s, es, ttl) <==> FreedWhileTaken(s, es, ttl)
    decreases |es|
  {
    if es != [] {
      var s' := Step(s, es[0], ttl);
      EpochsGrow(s', es[1..], ttl);
      OneStepFreesExactly(s, es[0], ttl);
      StepKeepsInv(s, es[0], ttl);
      if s'.cell.Present? { KeyIsFreedExactlyByARelease(s', es[1..], ttl); }
    }
  }

  ghost predicate Unowned(s: Sys) {
    forall id :: !Owner(s, id)
  }

  /** A taken key that nobody owns, because its owner was cancelled, its DELETE was lost or its result is
      stored, stays exactly as it is until it expires: no run starts and nothing is written. */
  lemma {:induction false} UnownedKeyIsFrozen(s: Sys, es: seq<Event>, ttl: nat)
    requires Inv(s) && Legal(s, es, ttl) && s.cell.Present? && Unowned(s) && After(s, es, ttl).epoch == s.epoch
    ensures After(s, es, ttl).cell == s.cell && Unowned(After(s, es, ttl)) && After(s, es, ttl).wins == s.wins
    decreases |es|
  {
    if es != [] {
      var s' := Step(s, es[0], ttl);
      EpochsGrow(s', es[1..], ttl);
      StepKeepsInv(s, es[0], ttl);
      if !es[0].Tick? { OnlyTheOwnerWrites(s, es[0], ttl); }
      forall id ensures !Owner(s', id) {
        if Owner(s', id) { OwnersComeFromClaims(s, es[0], ttl, id); }
      }
      if es[0].HandlerEnds? { assert Owner(s, es[0].id); }
      UnownedKeyIsFrozen(s', es[1..], ttl);
    }
  }

  /** A request that is cancelled in the handler leaves such a key. */
  lemma CancellationAbandonsTheKey(s: Sys, id: nat, ttl: nat)
    requires Inv(s) && Owner(s, id)
    ensures Step(s, Cancel(id), ttl).cell == s.cell && Unowned(Step(s, Cancel(id), ttl)) && s.cell.Present?
  {
    forall other ensures !Owner(Step(s, Cancel(id), ttl), other) {
      assert Owner(s, other) ==> other == id;
    }
  }

  // ---- Without the premise on timing -----------------------------------------------------------

  /** What is read, decided on or being stored is the sentinel or a record, whatever the timing. */
  predicate Intact(pc: Pc) {
    && !pc.Purging?
    && (pc.Storing? ==> pc.record.Record?)
    && (pc.Deciding? && pc.seen.Some? ==> pc.seen.value.Record?)
  }

  ghost predicate NothingCorrupt(s: Sys) {
    && (s.cell.Present? ==> !s.cell.value.Corrupt?)
    && forall id :: id in s.requests ==> Intact(s.requests[id].pc)
  }

  /** The requests in the handler or about to release the key. */
  function Running(s: Sys): set<nat> {
    set id | id in s.requests && (s.requests[id].pc.Handling? || s.requests[id].pc.Releasing?)
  }

  /** Each expiry lets in at most one more: a success, a run, or room for one. */
  ghost predicate Bounded(s: Sys) {
    |s.wins| + |Running(s)| + (if s.cell.Absent? then 1 else 0) <= s.epoch + 1
  }

  lemma StepKeepsIntact(s: Sys, e: Event, ttl: nat)
    requires NothingCorrupt(s) && Enabled(s, e)
    ensures NothingCorrupt(Step(s, e, ttl))
  {
    var s' := Step(s, e, ttl);
    if e.Command? { assert Intact(s.requests[e.id].pc); }
    forall id | id in s'.requests ensures Intact(s'.requests[id].pc) {
      if id in s.requests { assert Intact(s.requests[id].pc); }
    }
  }

  lemma SubsetsAreSmaller(a: set<nat>, b: set<nat>)
    requires a <= b
    ensures |a| <= |b|
  {
    if a != {} {
      var x :| x in a;
      SubsetsAreSmaller(a - {x}, b - {x});
    }
  }

  /** Only the move of a claimant puts a request in; a success and a release take one out. */
  lemma RunningAfter(s: Sys, e: Event, ttl: nat)
    requires NothingCorrupt(s) && Enabled(s, e)
    ensures var s' := Step(s, e, ttl);
            if e.Command? && s.requests[e.id].pc.Claiming? && e.fault.Fine? && s.cell.Absent?
            then Running(s') == Running(s) + {e.id}
            else if (e.HandlerEnds? && e.reply.Returned?) || (e.Command? && s.requests[e.id].pc.Releasing?)
            then Running(s') == Running(s) - {e.id} && e.id in Running(s)
            else Running(s') <= Running(s)
  {
    if e.Command? { assert Intact(s.requests[e.id].pc); }
  }

  lemma StepKeepsBounded(s: Sys, e: Event, ttl: nat)
    requires NothingCorrupt(s) && Bounded(s) && Enabled(s, e)
    ensures Bounded(Step(s, e, ttl))
  {
    hide Advance, Decide, Running;
    if e.Command? { assert Intact(s.requests[e.id].pc); }
    RunningAfter(s, e, ttl);
    var s' := Step(s, e, ttl);
    if Running(s') <= Running(s) { SubsetsAreSmaller(Running(s'), Running(s)); }
  }

  lemma {:induction false} RunKeepsBounded(s: Sys, es: seq<Event>, ttl: nat)
    requires NothingCorrupt(s) && Bounded(s) && Feasible(s, es, ttl)
    ensures NothingCorrupt(After(s, es, ttl)) && Bounded(After(s, es, ttl))
    decreases |es|
  {
    if es != [] {
      StepKeepsIntact(s, es[0], ttl);
      StepKeepsBounded(s, es[0], ttl);
      RunKeepsBounded(Step(s, es[0], ttl), es[1..], ttl);
    }
  }

  /** Over every run of the code, timely or not: the successes and the handlers still running are together at
      most one more than the expiries, and the corrupt-entry branch is never entered. */
  lemma SuccessesAreBoundedByExpiries(es: seq<Event>, ttl: nat)
    requires Feasible(START, es, ttl)
    ensures var s := After(START, es, ttl);
            && |s.wins| + |Running(s)| <= s.epoch + 1
            && forall id :: id in s.requests ==> !s.requests[id].pc.Purging?
  {
    assert Running(START) == {};
    RunKeepsBounded(START, es, ttl);
  }

  /** The DELETE does not look at the value. If a failed run lets `elapsed` seconds pass before it, the next
      request always enters the handler, and does so beside another one that has claimed the key in the same
      lifetime if and only if the key had expired by then. */
  lemma ALateReleaseFreesAnothersKey(s: Sys, id: nat, second: nat, third: nat, body2: string, body3: string,
                                     elapsed: nat, ttl: nat)
    requires Inv(s) && id in s.requests && s.requests[id].pc.Releasing?
    requires second !in s.requests && third !in s.requests && second != third
    ensures var s1 := Step(Step(Step(s, Tick(elapsed), ttl), Arrive(second, body2), ttl), Command(second, Fine), ttl);
            var s2 := Step(s1, Command(id, Fine), ttl);
            var s3 := Step(Step(s2, Arrive(third, body3), ttl), Command(third, Fine), ttl);
            && s.cell.Present? && s3.epoch == s1.epoch
            && s3.requests[third].pc.Handling?
            && (s3.requests[second].pc.Handling? <==> s.cell.expires <= s.now + elapsed)
  {
    assert Owner(s, id);
  }

  lemma BothSucceed(s: Sys, i: nat, j: nat, a: HandlerReply, b: HandlerReply, ttl: nat)
    requires i in s.requests && j in s.requests && i != j && a.Returned? && b.Returned?
    requires s.requests[i].pc.Handling? && s.requests[j].pc.Handling?
    ensures var es := [HandlerEnds(i, a), HandlerEnds(j, b)];
            && Feasible(s, es, ttl)
            && After(s, es, ttl).epoch == s.epoch
            && After(s, es, ttl).wins == s.wins + [Win(i, s.requests[i].bodyHash, a.response, a.status, s.epoch),
                                                   Win(j, s.requests[j].bodyHash, b.response, b.status, s.epoch)]
  {
    var s1 := Step(s, HandlerEnds(i, a), ttl);
    FeasibleCons(s1, HandlerEnds(j, b), [], ttl);
    FeasibleCons(s, HandlerEnds(i, a), [HandlerEnds(j, b)], ttl);
    assert [HandlerEnds(i, a)] + ([HandlerEnds(j, b)] + []) == [HandlerEnds(i, a), HandlerEnds(j, b)];
  }

  /** From any state in which a failed run is about to release a key that has expired: two more requests succeed
      in one lifetime of the key. */
  lemma AReleaseAfterTheExpiryLetsTwoSucceed(s: Sys, id: nat, second: nat, third: nat, body2: string, body3: string,
                                             a: HandlerReply, b: HandlerReply, ttl: nat)
    requires s.cell.Absent? && id in s.requests && s.requests[id].pc.Releasing?
    requires second !in s.requests && third !in s.requests && second != third && a.Returned? && b.Returned?
    ensures var es := [Arrive(second, body2), Command(second, Fine), Command(id, Fine), Arrive(third, body3),
                       Command(third, Fine), HandlerEnds(second, a), HandlerEnds(third, b)];
            && Feasible(s, es, ttl)
            && After(s, es, ttl).epoch == s.epoch
            && After(s, es, ttl).wins == s.wins + [Win(second, body2, a.response, a.status, s.epoch),
                                                   Win(third, body3, b.response, b.status, s.epoch)]
  {
    var s1 := Step(s, Arrive(second, body2), ttl);
    var s2 := Step(s1, Command(second, Fine), ttl);
    var s3 := Step(s2, Command(id, Fine), ttl);
    var s4 := Step(s3, Arrive(third, body3), ttl);
    var s5 := Step(s4, Command(third, Fine), ttl);
    BothSucceed(s5, second, third, a, b, ttl);
    hide Step, Feasible, After;
    var es5 := [HandlerEnds(second, a), HandlerEnds(third, b)];
    var es4 := [Command(third, Fine)] + es5;
    var es3 := [Arrive(third, body3)] + es4;
    var es2 := [Command(id, Fine)] + es3;
    var es1 := [Command(second, Fine)] + es2;
    FeasibleCons(s4, Command(third, Fine), es5, ttl);
    FeasibleCons(s3, Arrive(third, body3), es4, ttl);
    FeasibleCons(s2, Command(id, Fine), es3, ttl);
    FeasibleCons(s1, Command(second, Fine), es2, ttl);
    FeasibleCons(s, Arrive(second, body2), es1, ttl);
    assert [Arrive(second, body2)] + es1 ==
           [Arrive(second, body2), Command(second, Fine), Command(id, Fine), Arrive(third, body3),
            Command(third, Fine), HandlerEnds(second, a), HandlerEnds(third, b)];
  }

  /** The state after a run that has failed and whose key has expired before it could release it. */
  function Outlived(bodyHash: string, ttl: nat): Sys {
    Sys(ttl, Absent, 1, map[0 := Request(bodyHash, Releasing)], [])
  }

  lemma AFailedRunOutlivesItsKey(body0: string, rest: seq<Event>, ttl: nat)
    requires ttl > 0 && Feasible(Outlived(body0, ttl), rest, ttl)
    ensures var es := [Arrive(0, body0), Command(0, Fine), HandlerEnds(0, Raised), Tick(ttl)] + rest;
            Feasible(START, es, ttl) && After(START, es, ttl) == After(Outlived(body0, ttl), rest, ttl)
  {
    var s1 := Sys(0, Absent, 0, map[0 := Request(body0, Claiming)], []);
    var s2 := Sys(0, Present(Sentinel, ttl), 0, map[0 := Request(body0, Handling)], []);
    var s3 := Sys(0, Present(Sentinel, ttl), 0, map[0 := Request(body0, Releasing)], []);
    assert s1 == Step(START, Arrive(0, body0), ttl);
    assert s2 == Step(s1, Command(0, Fine), ttl);
    assert s3 == Step(s2, HandlerEnds(0, Raised), ttl);
    assert Outlived(body0, ttl) == Step(s3, Tick(ttl), ttl);
    hide Step, Feasible, After, Outlived;
    var es3 := [Tick(ttl)] + rest;
    var es2 := [HandlerEnds(0, Raised)] + es3;
    var es1 := [Command(0, Fine)] + es2;
    FeasibleCons(s3, Tick(ttl), rest, ttl);
    FeasibleCons(s2, HandlerEnds(0, Raised), es3, ttl);
    FeasibleCons(s1, Command(0, Fine), es2, ttl);
    FeasibleCons(START, Arrive(0, body0), es1, ttl);
    assert [Arrive(0, body0)] + es1 ==
           [Arrive(0, body0), Command(0, Fine), HandlerEnds(0, Raised), Tick(ttl)] + rest;
  }

  /** So "one success per lifetime of the key" needs the premise on timing: such a run from the very start, for any
      bodies, answers and ttl. */
  lemma TwoSuccessesInOneLifetime(body0: string, body1: string, body2: string, a: HandlerReply, b: HandlerReply,
                                  ttl: nat)
    requires ttl > 0 && a.Returned? && b.Returned?
    ensures var es := [Arrive(0, body0), Command(0, Fine), HandlerEnds(0, Raised), Tick(ttl),
                       Arrive(1, body1), Command(1, Fine), Command(0, Fine), Arrive(2, body2), Command(2, Fine),
                       HandlerEnds(1, a), HandlerEnds(2, b)];
            && Feasible(START, es, ttl)
            && After(START, es, ttl).epoch == 1
            && After(START, es, ttl).wins == [Win(1, body1, a.response, a.status, 1),
                                              Win(2, body2, b.response, b.status, 1)]
  {
    var rest := [Arrive(1, body1), Command(1, Fine), Command(0, Fine), Arrive(2, body2), Command(2, Fine),
                 HandlerEnds(1, a), HandlerEnds(2, b)];
    AReleaseAfterTheExpiryLetsTwoSucceed(Outlived(body0, ttl), 0, 1, 2, body1, body2, a, b, ttl);
    hide Step, Feasible, After;
    AFailedRunOutlivesItsKey(body0, rest, ttl);
    assert [Arrive(0, body0), Command(0, Fine), HandlerEnds(0, Raised), Tick(ttl)] + rest ==
           [Arrive(0, body0), Command(0, Fine), HandlerEnds(0, Raised), Tick(ttl),
            Arrive(1, body1), Command(1, Fine), Command(0, Fine), Arrive(2, body2), Command(2, Fine),
            HandlerEnds(1, a), HandlerEnds(2, b)];
  }
}
