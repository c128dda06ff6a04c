/** The dead-letter queue: one expiring record per failed job, and an expiring index of job ids. */
module DeadLetters {
  import opened KeyStore

  const WEEK: nat := 604800

  datatype Letter = Letter(func: string, arguments: string, error: string)

  /** The stored records, the id set and the clock. */
  datatype Db = Db(now: int, records: map<string, Cell<Letter>>, index: Cell<set<string>>)

  const EMPTY: Db := Db(0, map[], Absent)

  datatype Op = Add(id: string, letter: Letter) | Retry(id: string) | Tick(elapsed: nat)

  /** HGETALL: the unexpired record of a job. */
  function Record(db: Db, id: string): Option<Letter> {
    if id in db.records then db.records[id].At(db.now).Get() else None
  }

  /** SMEMBERS: the ids in the set, while it has not expired. */
  function Ids(db: Db): set<string> {
    var live := db.index.At(db.now);
    if live.Present? then live.value else {}
  }

  /** SREM: the set keeps its expiry, and an emptied set disappears. */
  function Shrunk(index: Cell<set<string>>, id: string): Cell<set<string>> {
    if index.Absent? || index.value <= {id} then Absent else Present(index.value - {id}, index.expires)
  }

  function Apply(db: Db, op: Op): Db {
    match op
    case Add(id, letter) =>
      db.(records := db.records[id := Present(letter, db.now + WEEK)], index := Present(Ids(db) + {id}, db.now + WEEK))
    case Retry(id) =>
      if Record(db, id) == None then db
      else db.(records := db.records - {id}, index := Shrunk(db.index.At(db.now), id))
    case Tick(elapsed) => db.(now := db.now + elapsed)
  }

  // ---- The queue -------------------------------------------------------------------------------

  /** The id set lists every unexpired record and outlives it. */
  ghost predicate Agrees(db: Db) {
    forall id :: Record(db, id).Some? ==>
                   id in Ids(db) && db.index.Present? && db.records[id].expires <= db.index.expires
  }

  class DeadLetterQueue {
    var db: Db

    constructor ()
      ensures db == EMPTY
    {
      db := EMPTY;
    }

    method AddJob(id: string, letter: Letter)
      modifies this
      ensures db == Apply(old(db), Add(id, letter))
    {
      db := db.(records := db.records[id := Present(letter, db.now + WEEK)]);  // HSET, EXPIRE
      // SADD
      db := db.(index := Present(Ids(db) + {id}, if db.index.Present? then db.index.expires else db.now + WEEK));
      db := db.(index := Present(db.index.value, db.now + WEEK));  // EXPIRE
    }

    /** The unexpired records, each once. */
    method GetAll() returns (jobs: seq<(string, Letter)>)
      requires Agrees(db)
      ensures forall k :: 0 <= k < |jobs| ==> Record(db, jobs[k].0) == Some(jobs[k].1)
      ensures forall j, k :: 0 <= j < k < |jobs| ==> jobs[j].0 != jobs[k].0
      ensures forall id :: Record(db, id).Some? ==> exists k :: 0 <= k < |jobs| && jobs[k].0 == id
    {
      jobs := [];
      var todo := Ids(db);
      while todo != {}
        invariant todo <= Ids(db)
        invariant forall k :: 0 <= k < |jobs| ==> Record(db, jobs[k].0) == Some(jobs[k].1) && jobs[k].0 !in todo
        invariant forall j, k :: 0 <= j < k < |jobs| ==> jobs[j].0 != jobs[k].0
        invariant forall id :: id in Ids(db) && id !in todo && Record(db, id).Some? ==>
                    exists k :: 0 <= k < |jobs| && jobs[k].0 == id
        decreases todo
      {
        var id :| id in todo;
        todo := todo - {id};
        var data := Record(db, id);
        ghost var before := jobs;
        if data.Some? {
          jobs := jobs + [(id, data.value)];
          assert jobs[|before|].0 == id;
        }
        forall i | i in Ids(db) && i !in todo && Record(db, i).Some?
            ensures exists k :: 0 <= k < |jobs| && jobs[k].0 == i {
          if i != id {
            var k :| 0 <= k < |before| && before[k].0 == i;
            assert jobs[k].0 == i;
          }
        }
      }
    }

    /** Always None: the caller enqueues anew. */
    method RetryJob(id: string) returns (job: Option<Letter>)
      modifies this
      ensures db == Apply(old(db), Retry(id)) && job == None
    {
      var data := Record(db, id);
      if data == None { return None; }
      db := db.(records := db.records - {id});
      db := db.(index := Shrunk(db.index.At(db.now), id));
      job := None;
    }
  }

  // ---- Index agreement -------------------------------------------------------------------------

  /** No record lives longer than a week from now. */
  ghost predicate Bounded(db: Db) {
    forall id :: id in db.records && db.records[id].Present? ==> db.records[id].expires <= db.now + WEEK
  }

  lemma ApplyKeepsAgreement(db: Db, op: Op)
    requires Agrees(db) && Bounded(db)
    ensures Agrees(Apply(db, op)) && Bounded(Apply(db, op))
  {
    var db' := Apply(db, op);
    forall id | Record(db', id).Some?
      ensures id in Ids(db') && db'.index.Present? && db'.records[id].expires <= db'.index.expires
    {
      if !(op.Add? && op.id == id) { assert Record(db, id).Some?; }
    }
  }

  function Run(ops: seq<Op>): Db {
    if ops == [] then EMPTY else Apply(Run(ops[..|ops| - 1]), ops[|ops| - 1])
  }

  /** After any sequence of whole operations and passing time, the index agrees with the records. */
  lemma {:induction false} RunAgrees(ops: seq<Op>)
    ensures Agrees(Run(ops)) && Bounded(Run(ops))
  {
    if ops != [] {
      RunAgrees(ops[..|ops| - 1]);
      ApplyKeepsAgreement(Run(ops[..|ops| - 1]), ops[|ops| - 1]);
    }
  }

  // ---- The queue against its history -----------------------------------------------------------

  datatype Filing = Filing(letter: Letter, time: int)

  /** The last addition of a job that no retry of it followed. */
  function LastFiling(ops: seq<Op>, id: string): Option<Filing> {
    if ops == [] then None
    else
      var front, op := ops[..|ops| - 1], ops[|ops| - 1];
      match op
      case Add(added, letter) => if added == id then Some(Filing(letter, Run(front).now)) else LastFiling(front, id)
      case Retry(retried) => if retried == id then None else LastFiling(front, id)
      case Tick(_) => LastFiling(front, id)
  }

  /** What a history leaves in the queue: a job filed less than a week ago and not retried since. */
  function Left(ops: seq<Op>, id: string): Option<Letter> {
    var f := LastFiling(ops, id);
    if f.Some? && Run(ops).now < f.value.time + WEEK then Some(f.value.letter) else None
  }

  lemma {:induction false} RecordsFollowFilings(ops: seq<Op>, id: string)
    ensures var db, f := Run(ops), LastFiling(ops, id);
            if f.Some? then id in db.records && db.records[id] == Present(f.value.letter, f.value.time + WEEK)
            else id in db.records && db.records[id].Present? ==> db.records[id].expires <= db.now
  {
    if ops != [] { RecordsFollowFilings(ops[..|ops| - 1], id); }
  }

  /** So the queue holds exactly what the history says, and `GetAll` returns exactly that. */
  lemma QueueFollowsItsHistory(ops: seq<Op>, id: string)
    ensures Record(Run(ops), id) == Left(ops, id)
    ensures Left(ops, id).Some? ==> id in Ids(Run(ops))
  {
    RecordsFollowFilings(ops, id);
    RunAgrees(ops);
  }

  /** A retry takes out its own record and id, and no other. */
  lemma RetryRemovesOnlyItsOwn(db: Db, id: string, other: string)
    requires Agrees(db) && other != id
    ensures var db' := Apply(db, Retry(id));
            && Record(db', id) == None
            && Record(db', other) == Record(db, other)
            && (Record(db, other).Some? ==> other in Ids(db'))
            && (Record(db, id).Some? ==> id !in Ids(db'))
  {
    assert Record(db, id).Some? ==> id in Ids(db);
  }

  /** A retry of a job without a record changes nothing, and tells so; otherwise the record and the id are gone, and
      with its last id the index. */
  lemma RetryExactly(db: Db, id: string)
    ensures Record(db, id) == None ==> Apply(db, Retry(id)) == db
    ensures Record(db, id) != None ==>
              var after := Apply(db, Retry(id));
              && Record(after, id) == None && Ids(after) == Ids(db) - {id} && after.now == db.now
              && (after.index.Absent? <==> Ids(db) - {id} == {})
              && (after.index.Present? ==> after.index.expires == db.index.expires)
  {
  }

  /** Time adds up, and a filed job is in the queue for exactly a week from its last filing, unless it is retried. */
  lemma LettersLastAWeek(db: Db, id: string, letter: Letter, first: nat, second: nat)
    ensures var filed := Apply(db, Add(id, letter));
            var later := Apply(Apply(filed, Tick(first)), Tick(second));
            && later.now == db.now + first + second
            && Record(later, id) == (if first + second < 604800 then Some(letter) else None)
            && (id in Ids(later) <==> first + second < 604800)
  {
  }
}
