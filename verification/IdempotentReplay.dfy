/** What the idempotency wrapper brings about: a success is stored, and whoever asks after that gets it. */
module IdempotentReplay {
  import opened KeyStore
  import opened Idempotency

  // ---- A success is stored ---------------------------------------------------------------------

  /** A request that has succeeded is about to store the record of its own run, or has finished. */
  ghost predicate WinnersStore(s: Sys) {
    forall k :: 0 <= k < |s.wins| ==>
      var w := s.wins[k];
      && w.request in s.requests && s.requests[w.request].bodyHash == w.bodyHash
      && (s.requests[w.request].pc.Finished? ||
          s.requests[w.request].pc == Storing(Record(w.bodyHash, w.response, w.status, k)))
  }

  lemma StepKeepsWinners(s: Sys, e: Event, ttl: nat)
    requires WinnersStore(s) && Enabled(s, e)
    ensures WinnersStore(Step(s, e, ttl))
  {
    hide Decide, Settled;
    var s' := Step(s, e, ttl);
    forall k | 0 <= k < |s'.wins|
      ensures var w := s'.wins[k];
              && w.request in s'.requests && s'.requests[w.request].bodyHash == w.bodyHash
              && (s'.requests[w.request].pc.Finished? ||
                  s'.requests[w.request].pc == Storing(Record(w.bodyHash, w.response, w.status, k)))
    {
      if k < |s.wins| { assert s'.wins[k] == s.wins[k]; }
    }
  }

  lemma {:induction false} RunKeepsWinners(s: Sys, es: seq<Event>, ttl: nat)
    requires WinnersStore(s) && Feasible(s, es, ttl)
    ensures WinnersStore(After(s, es, ttl))
    decreases |es|
  {
    if es != [] {
      StepKeepsWinners(s, es[0], ttl);
      RunKeepsWinners(Step(s, es[0], ttl), es[1..], ttl);
    }
  }

  /** Over every run, whatever the timing: the next command of a request whose run has succeeded writes that run's
      body hash, response and status for a full ttl, unless the command is lost; the caller gets the run's own
      result in any case. */
  lemma ASuccessIsStored(es: seq<Event>, ttl: nat, k: nat, fault: Fault)
    requires Feasible(START, es, ttl) && k < |After(START, es, ttl).wins|
    requires var s := After(START, es, ttl); Enabled(s, Command(s.wins[k].request, fault))
    ensures var s := After(START, es, ttl);
            var w := s.wins[k];
            var s' := Step(s, Command(w.request, fault), ttl);
            && s'.requests[w.request].pc == Finished(Ran(w.response, w.status))
            && s'.cell == if fault.LostCommand? then s.cell
                          else Present(Record(w.bodyHash, w.response, w.status, k), s.now + ttl)
  {
    RunKeepsWinners(START, es, ttl);
  }

  /** A claim that takes effect on a free key holds it for a full ttl, and the claimant runs the handler; on a taken
      one it changes nothing and the claimant reads. */
  lemma AClaimTakesAFreeKey(s: Sys, id: nat, fault: Fault, ttl: nat)
    requires id in s.requests && s.requests[id].pc.Claiming?
    ensures var s' := Step(s, Command(id, fault), ttl);
            && s'.cell == (if s.cell.Present? || fault.LostCommand? then s.cell else Present(Sentinel, s.now + ttl))
            && (fault.Fine? ==> if s.cell.Absent? then s'.requests[id].pc.Handling? else s'.requests[id].pc.FirstRead?)
  {
  }

  // ---- A stored success is replayed ------------------------------------------------------------

  /** The key holds the record of a success and nobody owns it. */
  ghost predicate Holds(s: Sys, w: Win, run: nat) {
    s.cell.Present? && s.cell.value == Record(w.bodyHash, w.response, w.status, run) && Unowned(s)
  }

  /** What a request with this body is told about that success. */
  function Told(w: Win, run: nat, bodyHash: string): Outcome {
    if bodyHash == w.bodyHash then Replayed(w.response, w.status, run) else Conflict
  }

  predicate BeforeReading(pc: Pc) {
    pc.Claiming? || pc.FirstRead? || pc.Polling?
  }

  /** The request has not read yet, has read the record, or has been told. */
  predicate Follows(r: Request, w: Win, run: nat) {
    || BeforeReading(r.pc)
    || r.pc == Deciding(Some(Record(w.bodyHash, w.response, w.status, run)))
    || r.pc == Finished(Told(w, run, r.bodyHash))
  }

  /** The event neither cancels the request nor fails one of its store commands. */
  predicate Calm(e: Event, id: nat) {
    e != Cancel(id) && (e.Command? && e.id == id ==> e.fault.Fine?)
  }

  lemma StepKeepsHolding(s: Sys, e: Event, ttl: nat, w: Win, run: nat)
    requires Inv(s) && Enabled(s, e) && Holds(s, w, run) && Step(s, e, ttl).epoch == s.epoch
    ensures Holds(Step(s, e, ttl), w, run)
  {
    var s' := Step(s, e, ttl);
    if !e.Tick? { OnlyTheOwnerWrites(s, e, ttl); }
    forall i ensures !Owner(s', i) {
      if Owner(s', i) { OwnersComeFromClaims(s, e, ttl, i); }
    }
  }

  lemma StepFollows(s: Sys, e: Event, ttl: nat, id: nat, w: Win, run: nat)
    requires Inv(s) && Enabled(s, e) && Holds(s, w, run) && Calm(e, id)
    requires id in s.requests ==> Follows(s.requests[id], w, run)
    ensures id in Step(s, e, ttl).requests ==> Follows(Step(s, e, ttl).requests[id], w, run)
  {
    if id in s.requests { assert PcOk(s, id); }
  }

  /** While the key holds the record of a success and has not expired, every request that has not read yet, or comes
      later, can only end with that run's response and status if its body is the same and with a conflict otherwise. */
  lemma {:induction false} EveryReaderIsTold(s: Sys, es: seq<Event>, ttl: nat, id: nat, w: Win, run: nat)
    requires Inv(s) && Legal(s, es, ttl) && Holds(s, w, run) && After(s, es, ttl).epoch == s.epoch
    requires forall i :: 0 <= i < |es| ==> Calm(es[i], id)
    requires id in s.requests ==> Follows(s.requests[id], w, run)
    ensures var s' := After(s, es, ttl);
            && Holds(s', w, run) && (id in s'.requests ==> Follows(s'.requests[id], w, run))
    decreases |es|
  {
    if es != [] {
      var s' := Step(s, es[0], ttl);
      EpochsGrow(s', es[1..], ttl);
      OneStepFreesExactly(s, es[0], ttl);
      StepKeepsHolding(s, es[0], ttl, w, run);
      StepFollows(s, es[0], ttl, id, w, run);
      StepKeepsInv(s, es[0], ttl);
      EveryReaderIsTold(s', es[1..], ttl, id, w, run);
    }
  }

  /** The two together, over every timely run from the start: once the store of a success has taken effect, with or
      without its reply, every request that was still to claim or read, or arrives later, and that finishes before
      the key expires, uncancelled and without a fault of the store, is told that success. */
  lemma AStoredSuccessIsReplayed(es: seq<Event>, ttl: nat, k: nat, fault: Fault, later: seq<Event>, id: nat)
    requires Legal(START, es, ttl) && k < |After(START, es, ttl).wins| && !fault.LostCommand?
    requires var s := After(START, es, ttl); Enabled(s, Command(s.wins[k].request, fault))
    requires var s := After(START, es, ttl); id in s.requests ==> BeforeReading(s.requests[id].pc)
    requires var s := After(START, es, ttl);
             var stored := Step(s, Command(s.wins[k].request, fault), ttl);
             Legal(stored, later, ttl) && After(stored, later, ttl).epoch == stored.epoch
    requires forall i :: 0 <= i < |later| ==> Calm(later[i], id)
    ensures var s := After(START, es, ttl);
            var w := s.wins[k];
            var end := After(Step(s, Command(w.request, fault), ttl), later, ttl);
            id in end.requests && end.requests[id].pc.Finished? ==>
              end.requests[id].pc.outcome ==
              if end.requests[id].bodyHash == w.bodyHash then Replayed(w.response, w.status, k) else Conflict
  {
    var s := After(START, es, ttl);
    var w := s.wins[k];
    var e := Command(w.request, fault);
    var stored := Step(s, e, ttl);
    RunKeepsInv(START, es, ttl);
    RunKeepsWinners(START, es, ttl);
    ASuccessIsStored(es, ttl, k, fault);
    StepKeepsInv(s, e, ttl);
    assert Owner(s, w.request);
    forall i ensures !Owner(stored, i) {
      if Owner(stored, i) { OwnersComeFromClaims(s, e, ttl, i); }
    }
    EveryReaderIsTold(stored, later, ttl, id, w, k);
  }

  /** And a duplicate that comes alone is told at its fourth step: it claims in vain, reads, and decides. */
  lemma ADuplicateIsToldAtOnce(s: Sys, id: nat, bodyHash: string, ttl: nat, w: Win, run: nat)
    requires Holds(s, w, run) && id !in s.requests
    ensures var es := [Arrive(id, bodyHash), Command(id, Fine), Command(id, Fine), Think(id)];
            && Legal(s, es, ttl) && id in After(s, es, ttl).requests
            && After(s, es, ttl).requests[id].pc == Finished(Told(w, run, bodyHash))
            && Holds(After(s, es, ttl), w, run)
  {
    var s1 := Step(s, Arrive(id, bodyHash), ttl);
    var s2 := Step(s1, Command(id, Fine), ttl);
    var s3 := Step(s2, Command(id, Fine), ttl);
    var s4 := Step(s3, Think(id), ttl);
    forall i ensures !Owner(s4, i) { assert !Owner(s, i); }
    LegalCons(s3, Think(id), [], ttl);
    LegalCons(s2, Command(id, Fine), [Think(id)], ttl);
    LegalCons(s1, Command(id, Fine), [Command(id, Fine), Think(id)], ttl);
    LegalCons(s, Arrive(id, bodyHash), [Command(id, Fine), Command(id, Fine), Think(id)], ttl);
    assert [Arrive(id, bodyHash)] + ([Command(id, Fine)] + ([Command(id, Fine)] + ([Think(id)] + []))) ==
           [Arrive(id, bodyHash), Command(id, Fine), Command(id, Fine), Think(id)];
  }

  // ---- Time ------------------------------------------------------------------------------------

  /** Time adds up, and a key is there until its expiry and not after: however it passes, in one go or in two. */
  lemma KeysLastUntilTheyExpire(s: Sys, first: nat, second: nat, ttl: nat)
    ensures var once, twice := Step(s, Tick(first), ttl), Step(Step(s, Tick(first), ttl), Tick(second), ttl);
            && twice.now == s.now + first + second
            && twice.cell == Step(s, Tick(first + second), ttl).cell
            && (s.cell.Present? ==> (twice.cell == s.cell <==> s.now + first + second < s.cell.expires))
            && (twice.cell == s.cell || twice.cell.Absent?)
  {
  }

  /** Nothing else takes time. */
  lemma OnlyTimePasses(s: Sys, e: Event, ttl: nat)
    requires Enabled(s, e)
    ensures Step(s, e, ttl).now == s.now + if e.Tick? then e.elapsed else 0
  {
  }
}
