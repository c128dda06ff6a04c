/** The conversation window kept in the shared store with a sliding expiry, and how it is rebuilt from
    the database after a miss. */
module ChatContext {
  import opened KeyStore

  const CONTEXT_TTL: nat := 1800
  const MAX_CONTEXT_MESSAGES: nat := 10

  datatype Line = Line(role: string, content: string)

  datatype Context = Context(messages: seq<Line>, metadata: map<string, string>)

  /** Python's `lines[-10:]`. */
  function LastTen(lines: seq<Line>): seq<Line> {
    if |lines| <= MAX_CONTEXT_MESSAGES then lines else lines[|lines| - MAX_CONTEXT_MESSAGES..]
  }

  // ---- The operations on one session's entry ---------------------------------------------------

  /** What is under the key; `NotJson` is a text that does not parse. */
  datatype Entry = Json(context: Context) | NotJson

  datatype Op =
    | Append(line: Line)
    | SetMetadata(key: string, value: string)
    | Rebuild(db: seq<Line>, metadata: map<string, string>)
    | Tick(elapsed: nat)

  /** The entry and the clock. */
  datatype Store = Store(now: int, cell: Cell<Entry>)

  function Save(s: Store, messages: seq<Line>, metadata: map<string, string>): Store {
    s.(cell := Present(Json(Context(LastTen(messages), metadata)), s.now + CONTEXT_TTL))
  }

  function Loaded(s: Store): Option<Context> {
    if s.cell.Present? && s.cell.value.Json? then Some(s.cell.value.context) else None
  }

  function LoadedOrEmpty(s: Store): Context {
    if Loaded(s).Some? then Loaded(s).value else Context([], map[])
  }

  /** A hit refreshes the expiry; an entry that does not parse is deleted. */
  function AfterLoad(s: Store): Store {
    s.(cell := if Loaded(s).Some? then s.cell.Expire(s.now, CONTEXT_TTL) else Absent)
  }

  function Apply(s: Store, op: Op): Store {
    match op
    case Append(line) => Save(s, LastTen(LoadedOrEmpty(s).messages + [line]), LoadedOrEmpty(s).metadata)
    case SetMetadata(key, value) => Save(s, LoadedOrEmpty(s).messages, LoadedOrEmpty(s).metadata[key := value])
    case Rebuild(db, metadata) => Save(s, LastTen(db), metadata)
    case Tick(elapsed) => Store(s.now + elapsed, s.cell.At(s.now + elapsed))
  }

  function ApplyAll(s: Store, ops: seq<Op>): Store {
    if ops == [] then s else Apply(ApplyAll(s, ops[..|ops| - 1]), ops[|ops| - 1])
  }

  /** The manager's methods, as they load, trim and overwrite the stored entry. */
  class ConversationContext {
    var now: int
    var cell: Cell<Entry>

    constructor (start: int)
      ensures State() == Store(start, Absent)
    {
      now, cell := start, Absent;
    }

    function State(): Store
      reads this
    {
      Store(now, cell)
    }

    method Load() returns (context: Option<Context>)
      modifies this
      ensures context == Loaded(old(State())) && State() == AfterLoad(old(State()))
    {
      if cell.Absent? { return None; }
      match cell.value {
        case Json(c) =>
          cell := cell.Expire(now, CONTEXT_TTL);
          return Some(c);
        case NotJson =>
          cell := Absent;
          return None;
      }
    }

    method SaveContext(messages: seq<Line>, metadata: map<string, string>)
      modifies this
      ensures State() == Save(old(State()), messages, metadata)
    {
      var trimmed := LastTen(messages);
      cell := Present(Json(Context(trimmed, metadata)), now + CONTEXT_TTL);
    }

    method AppendMessage(role: string, content: string) returns (messages: seq<Line>)
      modifies this
      ensures State() == Apply(old(State()), Append(Line(role, content)))
      ensures messages == LoadedOrEmpty(State()).messages
    {
      var context := Load();
      messages := [];
      var metadata: map<string, string> := map[];
      if context.Some? { messages, metadata := context.value.messages, context.value.metadata; }
      messages := messages + [Line(role, content)];
      messages := LastTen(messages);
      SaveContext(messages, metadata);
    }

    method SetMetadataField(key: string, value: string)
      modifies this
      ensures State() == Apply(old(State()), SetMetadata(key, value))
    {
      var loaded := Load();
      var context := if loaded.Some? then loaded.value else Context([], map[]);
      context := context.(metadata := context.metadata[key := value]);
      SaveContext(context.messages, context.metadata);
    }

    method BuildFromDb(db: seq<Line>, metadata: map<string, string>) returns (messages: seq<Line>)
      modifies this
      ensures State() == Apply(old(State()), Rebuild(db, metadata)) && messages == LastTen(db)
    {
      messages := LastTen(db);
      SaveContext(messages, metadata);
    }

    method Wait(elapsed: nat)
      modifies this
      ensures State() == Apply(old(State()), Tick(elapsed))
    {
      now := now + elapsed;
      cell := cell.At(now);
    }

    /** A run of operations. */
    method Perform(ops: seq<Op>)
      modifies this
      ensures State() == ApplyAll(old(State()), ops)
    {
      for i := 0 to |ops|
        invariant State() == ApplyAll(old(State()), ops[..i])
      {
        assert ops[..i + 1][..i] == ops[..i];
        match ops[i] {
          case Append(line) => var _ := AppendMessage(line.role, line.content);
          case SetMetadata(key, value) => SetMetadataField(key, value);
          case Rebuild(db, metadata) => var _ := BuildFromDb(db, metadata);
          case Tick(elapsed) => Wait(elapsed);
        }
      }
      assert ops[..|ops|] == ops;
    }
  }

  // ---- The window against the full log ---------------------------------------------------------

  /** The full append log grows with every append; a rebuild is from that log. */
  function LogAfter(log: seq<Line>, op: Op): seq<Line> {
    if op.Append? then log + [op.line] else log
  }

  predicate RebuildsFrom(log: seq<Line>, op: Op) {
    op.Rebuild? ==> op.db == log
  }

  predicate WindowOk(s: Store, log: seq<Line>) {
    Loaded(s).Some? ==> Loaded(s).value.messages == LastTen(log)
  }

  /** A write into an entry that is missing, or does not parse, although something was said before. */
  predicate Blind(s: Store, log: seq<Line>, op: Op) {
    (op.Append? || op.SetMetadata?) && Loaded(s).None? && log != []
  }

  lemma LastTenOfWindow(log: seq<Line>, line: Line)
    ensures LastTen(LastTen(log) + [line]) == LastTen(log + [line]) && LastTen(LastTen(log)) == LastTen(log)
  {
  }

  /** One operation keeps the window right exactly when it is not blind. */
  lemma WindowIsKeptUnlessBlind(s: Store, log: seq<Line>, op: Op)
    requires WindowOk(s, log) && RebuildsFrom(log, op)
    ensures WindowOk(Apply(s, op), LogAfter(log, op)) <==> !Blind(s, log, op)
  {
    if op.Append? {
      LastTenOfWindow(log, op.line);
      if Blind(s, log, op) { assert |LastTen(log + [op.line])| > 1; }
    }
  }

  predicate RunOk(s: Store, log: seq<Line>, ops: seq<Op>)
    decreases |ops|
  {
    WindowOk(s, log) && (ops == [] || RunOk(Apply(s, ops[0]), LogAfter(log, ops[0]), ops[1..]))
  }

  predicate NeverBlind(s: Store, log: seq<Line>, ops: seq<Op>)
    decreases |ops|
  {
    ops == [] || (!Blind(s, log, ops[0]) && NeverBlind(Apply(s, ops[0]), LogAfter(log, ops[0]), ops[1..]))
  }

  predicate RebuildsFromLog(log: seq<Line>, ops: seq<Op>)
    decreases |ops|
  {
    ops == [] || (RebuildsFrom(log, ops[0]) && RebuildsFromLog(LogAfter(log, ops[0]), ops[1..]))
  }

  /** Over any run of appends, metadata updates, rebuilds and expiries: the window is at all times the last
      ten messages of the log if and only if no write hits a missing entry of a non-empty log. */
  lemma {:induction false} WindowIsTheLastTenExactlyWithoutBlindWrites(s: Store, log: seq<Line>, ops: seq<Op>)
    requires WindowOk(s, log) && RebuildsFromLog(log, ops)
    ensures RunOk(s, log, ops) <==> NeverBlind(s, log, ops)
    decreases |ops|
  {
    if ops != [] {
      WindowIsKeptUnlessBlind(s, log, ops[0]);
      if !Blind(s, log, ops[0]) {
        WindowIsTheLastTenExactlyWithoutBlindWrites(Apply(s, ops[0]), LogAfter(log, ops[0]), ops[1..]);
      }
    }
  }

  // ---- How a chat turn opens -------------------------------------------------------------------

  /** What a turn does before the model is called: the service has stored the user's message as the last
      of `db`; the agent loads the entry, rebuilds it from `db` on a miss, and appends the message as its input
      filter leaves it. */
  function OpenTurn(s: Store, db: seq<Line>, user: Line): Store {
    var ready := if Loaded(s).None? && db != [] then Apply(s, Rebuild(LastTen(db), map[])) else AfterLoad(s);
    Apply(ready, Append(user))
  }

  /** The window that the model gets to see. */
  function OpenWindow(s: Store, db: seq<Line>, user: Line): seq<Line> {
    LoadedOrEmpty(OpenTurn(s, db, user)).messages
  }

  method OpenTurnOf(manager: ConversationContext, db: seq<Line>, user: Line) returns (window: seq<Line>)
    modifies manager
    ensures manager.State() == OpenTurn(old(manager.State()), db, user)
    ensures window == OpenWindow(old(manager.State()), db, user)
  {
    var cached := manager.Load();
    if cached.None? && db != [] {
      var _ := manager.BuildFromDb(LastTen(db), map[]);
    }
    window := manager.AppendMessage(user.role, user.content);
  }

  /** After a hit the window is the last ten messages of the log, the user's among them. */
  lemma HitOpensOnTheLastTen(s: Store, log: seq<Line>, stored: Line, user: Line)
    requires Loaded(s).Some? && WindowOk(s, log)
    ensures OpenWindow(s, log + [stored], user) == LastTen(log + [user])
  {
    LastTenOfWindow(log, user);
  }

  lemma {:induction false} ShiftedIsConstant(a: seq<Line>, x: Line, k: nat)
    requires k < |a| && a[1..] + [x] == a
    ensures a[k] == x
    decreases |a| - k
  {
    if k + 1 < |a| {
      ShiftedIsConstant(a, x, k + 1);
      assert (a[1..] + [x])[k] == a[k + 1];
    } else {
      assert (a[1..] + [x])[k] == x;
    }
  }

  lemma SameWindowIsAllStored(log: seq<Line>, stored: Line, user: Line)
    requires LastTen(log + [stored, user]) == LastTen(log + [user])
    ensures |log| >= 9 && forall k :: |log| - 9 <= k < |log| ==> log[k] == stored
  {
    var window, right := LastTen(log + [stored, user]), LastTen(log + [user]);
    assert |log| >= 9;
    var nine := log[|log| - 9..];
    assert window == nine[1..] + [stored, user] && right == nine + [user];
    hide LastTen;
    assert nine[1..] + [stored] == window[..9] == right[..9] == nine;
    forall k | |log| - 9 <= k < |log| ensures log[k] == stored {
      ShiftedIsConstant(nine, stored, k - (|log| - 9));
      assert nine[k - (|log| - 9)] == log[k];
    }
  }

  lemma AllStoredIsTheSameWindow(log: seq<Line>, stored: Line, user: Line)
    requires |log| >= 9 && forall k :: |log| - 9 <= k < |log| ==> log[k] == stored
    ensures LastTen(log + [stored, user]) == LastTen(log + [user])
  {
    var window, right := LastTen(log + [stored, user]), LastTen(log + [user]);
    assert forall k :: 0 <= k < 10 ==> window[k] == right[k];
  }

  /** After a miss the stored message is in the rebuilt window already, and its filtered form is appended beside
      it. The window is right only if the nine messages before are all the stored message. */
  lemma MissRepeatsTheUserMessage(s: Store, log: seq<Line>, stored: Line, user: Line)
    requires Loaded(s).None?
    ensures var window := OpenWindow(s, log + [stored], user);
            && window == LastTen(log + [stored, user])
            && (window == LastTen(log + [user]) <==>
                |log| >= 9 && forall k :: |log| - 9 <= k < |log| ==> log[k] == stored)
  {
    var db := log + [stored];
    LastTenOfWindow(db, user);
    assert db + [user] == log + [stored, user];
    hide LastTen;
    if LastTen(log + [stored, user]) == LastTen(log + [user]) { SameWindowIsAllStored(log, stored, user); }
    if |log| >= 9 && forall k :: |log| - 9 <= k < |log| ==> log[k] == stored {
      AllStoredIsTheSameWindow(log, stored, user);
    }
  }

  // ---- What an entry holds, and for how long ---------------------------------------------------

  /** A write lasts for half an hour, and so does an entry that is read in time; an entry that is not touched is gone
      from then on. */
  lemma EntriesLastHalfAnHour(s: Store, op: Op, elapsed: nat)
    ensures !op.Tick? ==> (Loaded(Apply(Apply(s, op), Tick(elapsed))).Some? <==> elapsed < 1800)
    ensures Loaded(s).Some? ==>
              && Loaded(AfterLoad(s)) == Loaded(s)
              && (Loaded(Apply(AfterLoad(s), Tick(elapsed))).Some? <==> elapsed < 1800)
  {
  }

  lemma OneMoreLine(messages: seq<Line>, line: Line)
    ensures var after := LastTen(messages + [line]);
            && after != [] && LastTen(after) == after
            && |after| == (if |messages| + 1 < 10 then |messages| + 1 else 10)
            && after[|after| - 1] == line
            && forall k :: 0 <= k < |after| - 1 ==> after[k] == messages[|messages| + 1 - |after| + k]
  {
  }

  /** While the entry is there, an append adds its line at the end, drops what is before the last ten, and keeps the
      metadata. */
  lemma AppendsKeepTheRest(s: Store, line: Line)
    requires Loaded(s).Some?
    ensures var before := Loaded(s).value;
            Loaded(Apply(s, Append(line))).Some? &&
            var after := Loaded(Apply(s, Append(line))).value;
            && after.metadata == before.metadata && after.messages != []
            && |after.messages| == (if |before.messages| + 1 < 10 then |before.messages| + 1 else 10)
            && after.messages[|after.messages| - 1] == line
            && forall k :: 0 <= k < |after.messages| - 1 ==>
                 after.messages[k] == before.messages[|before.messages| + 1 - |after.messages| + k]
  {
    OneMoreLine(Loaded(s).value.messages, line);
    hide LastTen;
  }

  /** An update sets its field and keeps everything else. */
  lemma UpdatesKeepTheRest(s: Store, key: string, value: string)
    requires Loaded(s).Some?
    ensures var before := Loaded(s).value;
            Loaded(Apply(s, SetMetadata(key, value))).Some? &&
            var after := Loaded(Apply(s, SetMetadata(key, value))).value;
            && (|before.messages| <= 10 ==> after.messages == before.messages)
            && after.metadata.Keys == before.metadata.Keys + {key} && after.metadata[key] == value
            && forall k :: k in before.metadata && k != key ==> after.metadata[k] == before.metadata[k]
  {
  }

  /** What the last update in a run, if any, has set a field to. */
  function LastSet(ops: seq<Op>, key: string): Option<string> {
    if ops == [] then None
    else
      var op := ops[|ops| - 1];
      if op.SetMetadata? && op.key == key then Some(op.value) else LastSet(ops[..|ops| - 1], key)
  }

  /** The entry is there all along, and nothing rebuilds it. */
  predicate StaysLoaded(s: Store, ops: seq<Op>) {
    && Loaded(ApplyAll(s, ops)).Some?
    && (ops != [] ==> !ops[|ops| - 1].Rebuild? && StaysLoaded(s, ops[..|ops| - 1]))
  }

  lemma FieldAfter(s: Store, op: Op, key: string)
    requires Loaded(s).Some? && Loaded(Apply(s, op)).Some? && !op.Rebuild?
    ensures var before, after := Loaded(s).value.metadata, Loaded(Apply(s, op)).value.metadata;
            if op.SetMetadata? && op.key == key then key in after && after[key] == op.value
            else (key in after <==> key in before) && (key in after ==> after[key] == before[key])
  {
  }

  /** Over any run in which the entry does not go missing, a field is what its last update has set, and without one
      what it was. */
  lemma {:induction false} FieldsAreTheLastSet(s: Store, ops: seq<Op>, key: string)
    requires StaysLoaded(s, ops)
    ensures var before, after := Loaded(s), Loaded(ApplyAll(s, ops)).value.metadata;
            && before.Some?
            && (LastSet(ops, key).Some? ==> key in after && after[key] == LastSet(ops, key).value)
            && (LastSet(ops, key).None? ==>
                  && (key in after <==> key in before.value.metadata)
                  && (key in after ==> after[key] == before.value.metadata[key]))
  {
    if ops != [] {
      var n := |ops| - 1;
      FieldsAreTheLastSet(s, ops[..n], key);
      FieldAfter(ApplyAll(s, ops[..n]), ops[n], key);
      hide Apply, Loaded;
    }
  }

  /** Opening a turn keeps the metadata of an entry that is there, and starts a missing one without any. */
  lemma OpeningKeepsTheMetadata(s: Store, db: seq<Line>, user: Line)
    ensures LoadedOrEmpty(OpenTurn(s, db, user)).metadata ==
            if Loaded(s).Some? then Loaded(s).value.metadata else map[]
  {
  }
}
