/** One round of the chat agent, told from the chunks of its stream: when it executes its tools, what it shows of
    them, and what it hands to the next model call. */
module AgentRounds {
  import opened KeyStore
  import opened Text
  import opened AgentStream
  import opened AgentLoop

  /** The stream's last finish reason is "stop". */
  ghost predicate SaysStop(chunks: seq<Chunk>) {
    exists i: nat :: LastFinishAt(chunks, i) && chunks[i].finish == "stop"
  }

  /** Handling the result of the n-th tool raises; a tool that throws is caught. */
  predicate Raises(w: World, k: nat, n: nat) {
    w.tool(k, n).Gave? && w.tool(k, n).result.breaks
  }

  predicate SomeToolRaises(w: World, k: nat, chunks: seq<Chunk>) {
    exists n: nat :: n < |Calls(chunks)| && Raises(w, k, n)
  }

  lemma StopIsFinal(chunks: seq<Chunk>)
    ensures FinalReply(chunks) <==> SaysStop(chunks) || !HasFragment(chunks)
  {
    FinishIsTheLastNonEmpty(chunks);
    CallsNeedFragments(chunks);
  }

  lemma ToolsBreakExactly(w: World, k: nat, chunks: seq<Chunk>)
    ensures ToolsBreak(w, k, Calls(chunks)) <==> SomeToolRaises(w, k, chunks)
  {
    var calls := Calls(chunks);
    if ToolsBreak(w, k, calls) {
      var n :| 0 <= n < |calls| && ResultOf(w, k, n, calls[n]).breaks;
      assert Raises(w, k, n);
    }
    if SomeToolRaises(w, k, chunks) {
      var n: nat :| n < |Calls(chunks)| && Raises(w, k, n);
      assert ResultOf(w, k, n, calls[n]).breaks;
    }
  }

  /** A round executes its tools and goes on if and only if its stream is whole, some chunk carries a tool fragment,
      the last finish reason is not "stop", and handling no result raises. Otherwise it answers, fails or breaks off,
      each exactly as stated. */
  lemma RoundGoesOnExactly(w: World, messages: seq<Message>, k: nat)
    ensures var o := RoundOutcome(w, messages, k);
            match w.model(k)
            case ApiError => o.Stop? && o.end == ModelFailed && o.final == ""
            case Stream(chunks, breaks) =>
              var tools := HasFragment(chunks) && !SaysStop(chunks);
              && (o.Go? <==> !breaks && tools && !SomeToolRaises(w, k, chunks))
              && (o.Stop? && o.end == Finished <==> !breaks && !tools)
              && (o.Stop? && o.end == Broke <==> breaks || (tools && SomeToolRaises(w, k, chunks)))
  {
    if w.model(k).Stream? {
      StopIsFinal(w.model(k).chunks);
      ToolsBreakExactly(w, k, w.model(k).chunks);
      hide FinalReply, ToolsBreak, SaysStop, HasFragment, SomeToolRaises, Calls, Texts;
    }
  }

  // ---- What a round shows ----------------------------------------------------------------------

  /** The events that tell of a tool's execution. */
  function Marks(events: seq<Event>): seq<Event> {
    if events == [] then []
    else
      var front, e := Marks(events[..|events| - 1]), events[|events| - 1];
      if e.ToolCall? || e.ToolDone? then front + [e] else front
  }

  /** One `ToolCall` and one `ToolDone` for a call. */
  function MarksOfOne(w: World, k: nat, i: nat, call: Call): (r: seq<Event>)
    ensures |r| == 2
  {
    [ToolCall(call.name, if w.parse(call.arguments).Some? then w.parse(call.arguments).value else "{}"),
     ToolDone(call.name, w.tool(k, i).Gave? && !w.tool(k, i).result.failed)]
  }

  /** And so for each of the first n calls, in their order. */
  function MarksOf(w: World, k: nat, calls: seq<Call>, n: nat): (r: seq<Event>)
    requires n <= |calls|
    ensures |r| == 2 * n
  {
    if n == 0 then [] else MarksOf(w, k, calls, n - 1) + MarksOfOne(w, k, n - 1, calls[n - 1])
  }

  lemma {:induction false} MarksOfConcat(a: seq<Event>, b: seq<Event>)
    ensures Marks(a + b) == Marks(a) + Marks(b)
  {
    if b == [] {
      assert a + b == a;
    } else {
      var n := |b| - 1;
      assert (a + b)[..|a| + n] == a + b[..n];
      MarksOfConcat(a, b[..n]);
    }
  }

  lemma {:induction false} NoMarks(events: seq<Event>)
    requires forall i :: 0 <= i < |events| ==> !events[i].ToolCall? && !events[i].ToolDone?
    ensures Marks(events) == []
  {
    if events != [] { NoMarks(events[..|events| - 1]); }
  }

  lemma MarksOfCall(w: World, k: nat, i: nat, call: Call)
    ensures Marks(CallEvents(w, call, ResultOf(w, k, i, call))) == MarksOfOne(w, k, i, call)
  {
    var r := ResultOf(w, k, i, call);
    var opening, closing := ToolCall(call.name, ArgumentsOf(w, call)), ToolDone(call.name, !r.failed);
    var rest := CitationEvents(r.citations) + RecommendationEvents(Recommended(call, r));
    assert CallEvents(w, call, r) == [opening] + [closing] + rest;
    assert [opening][..0] == [] && [closing][..0] == [];
    MarksOfConcat([opening] + [closing], rest);
    MarksOfConcat([opening], [closing]);
    NoMarks(rest);
  }

  lemma {:induction false} MarksOfTools(w: World, k: nat, calls: seq<Call>, n: nat)
    requires n <= |calls|
    ensures Marks(ToolEvents(w, k, calls, n)) == MarksOf(w, k, calls, n)
  {
    hide Marks, CallEvents, MarksOfOne, ResultOf;
    if n > 0 {
      var call := calls[n - 1];
      MarksOfTools(w, k, calls, n - 1);
      MarksOfCall(w, k, n - 1, call);
      MarksOfConcat(ToolEvents(w, k, calls, n - 1), CallEvents(w, call, ResultOf(w, k, n - 1, call)));
    } else {
      NoMarks([]);
    }
  }

  /** How many calls a round executes that does not go on: those up to the first whose handling raises. */
  predicate ExecutedUpTo(w: World, k: nat, calls: seq<Call>, n: nat) {
    0 < n <= |calls| && Raises(w, k, n - 1) && forall i: nat :: i < n - 1 ==> !Raises(w, k, i)
  }

  lemma {:induction false} ExecutedIsExact(w: World, k: nat, calls: seq<Call>, from: nat)
    requires from <= |calls| && forall i: nat :: i < from ==> !Raises(w, k, i)
    requires exists i: nat :: from <= i < |calls| && Raises(w, k, i)
    ensures ExecutedUpTo(w, k, calls, Executed(w, k, calls, from))
    decreases |calls| - from
  {
    if !Raises(w, k, from) { ExecutedIsExact(w, k, calls, from + 1); }
  }

  lemma MarksOfRound(w: World, k: nat, chunks: seq<Chunk>, n: nat)
    requires n <= |Calls(chunks)|
    ensures Marks(ContentEvents(Texts(chunks))) == []
    ensures Marks(ContentEvents(Texts(chunks)) + ToolEvents(w, k, Calls(chunks), n)) == MarksOf(w, k, Calls(chunks), n)
    ensures Marks(ContentEvents(Texts(chunks)) + ToolEvents(w, k, Calls(chunks), n) + [Thinking(ProcessingResults)]) ==
            MarksOf(w, k, Calls(chunks), n)
  {
    hide Texts, Calls, ToolEvents, Marks, MarksOf;
    NoMarks(ContentEvents(Texts(chunks)));
    NoMarks([Thinking(ProcessingResults)]);
    MarksOfTools(w, k, Calls(chunks), n);
    MarksOfConcat(ContentEvents(Texts(chunks)), ToolEvents(w, k, Calls(chunks), n));
    MarksOfConcat(ContentEvents(Texts(chunks)) + ToolEvents(w, k, Calls(chunks), n), [Thinking(ProcessingResults)]);
  }

  /** A round that goes on shows each of its calls, in first-seen order, once as called and once as done; one that
      breaks off at a result shows them up to that one; any other round shows none. */
  lemma RoundShowsItsCalls(w: World, messages: seq<Message>, k: nat)
    ensures var o := RoundOutcome(w, messages, k);
            if o.Go? then
              && w.model(k).Stream?
              && Marks(o.events) == MarksOf(w, k, Calls(w.model(k).chunks), |Calls(w.model(k).chunks)|)
            else if o.end == Broke && w.model(k).Stream? && !w.model(k).breaks then
              exists n: nat :: ExecutedUpTo(w, k, Calls(w.model(k).chunks), n) &&
                Marks(o.events) == MarksOf(w, k, Calls(w.model(k).chunks), n)
            else Marks(o.events) == []
  {
    if w.model(k).ApiError? {
      NoMarks([Error(LlmError)]);
      return;
    }
    var chunks := w.model(k).chunks;
    var calls := Calls(chunks);
    hide Texts, Calls, FinalReply, ToolEvents, Marks, MarksOf, Executed, ContentEvents, Raises;
    MarksOfRound(w, k, chunks, |calls|);
    if RoundOutcome(w, messages, k).Stop? && RoundOutcome(w, messages, k).end == Broke && !w.model(k).breaks {
      ToolsBreakExactly(w, k, chunks);
      ExecutedIsExact(w, k, calls, 0);
      MarksOfRound(w, k, chunks, Executed(w, k, calls, 0));
    }
  }

  // ---- What a round finds and hands on ---------------------------------------------------------

  function CitedByOne(w: World, k: nat, i: nat): seq<string> {
    if w.tool(k, i).Gave? then w.tool(k, i).result.citations else []
  }

  function RecommendedByOne(w: World, k: nat, i: nat, call: Call): seq<string> {
    if w.tool(k, i).Gave? && call.name == "get_recommendations" then w.tool(k, i).result.recommendations else []
  }

  /** What the first n calls cite and recommend, one after the other; only one tool recommends. */
  function CitedBy(w: World, k: nat, n: nat): seq<string> {
    if n == 0 then [] else CitedBy(w, k, n - 1) + CitedByOne(w, k, n - 1)
  }

  function RecommendedBy(w: World, k: nat, calls: seq<Call>, n: nat): seq<string>
    requires n <= |calls|
  {
    if n == 0 then [] else RecommendedBy(w, k, calls, n - 1) + RecommendedByOne(w, k, n - 1, calls[n - 1])
  }

  lemma OneToolFinds(w: World, k: nat, i: nat, call: Call)
    ensures CitationsIn(CallEvents(w, call, ResultOf(w, k, i, call))) == CitedByOne(w, k, i)
    ensures RecommendationsIn(CallEvents(w, call, ResultOf(w, k, i, call))) == RecommendedByOne(w, k, i, call)
  {
    FoundInCall(w, call, ResultOf(w, k, i, call));
    hide CallEvents, CitationsIn, RecommendationsIn;
  }

  lemma OneMoreCall(w: World, k: nat, calls: seq<Call>, n: nat)
    requires 0 < n <= |calls|
    ensures ToolEvents(w, k, calls, n) ==
            ToolEvents(w, k, calls, n - 1) + CallEvents(w, calls[n - 1], ResultOf(w, k, n - 1, calls[n - 1]))
    ensures CitedBy(w, k, n) == CitedBy(w, k, n - 1) + CitedByOne(w, k, n - 1)
    ensures RecommendedBy(w, k, calls, n) ==
            RecommendedBy(w, k, calls, n - 1) + RecommendedByOne(w, k, n - 1, calls[n - 1])
  {
    hide CallEvents, ResultOf, CitedByOne, RecommendedByOne;
  }

  lemma NoToolsFindNothing(w: World, k: nat, calls: seq<Call>)
    ensures CitationsIn(ToolEvents(w, k, calls, 0)) == CitedBy(w, k, 0)
    ensures RecommendationsIn(ToolEvents(w, k, calls, 0)) == RecommendedBy(w, k, calls, 0)
  {
  }

  lemma {:induction false} ToolsFind(w: World, k: nat, calls: seq<Call>, n: nat)
    requires n <= |calls|
    ensures CitationsIn(ToolEvents(w, k, calls, n)) == CitedBy(w, k, n)
    ensures RecommendationsIn(ToolEvents(w, k, calls, n)) == RecommendedBy(w, k, calls, n)
  {
    hide ToolEvents, CallEvents, ResultOf, CitationsIn, RecommendationsIn, CitedBy, CitedByOne, RecommendedBy,
         RecommendedByOne;
    if n == 0 {
      NoToolsFindNothing(w, k, calls);
    } else {
      var call := calls[n - 1];
      var before, events := ToolEvents(w, k, calls, n - 1), CallEvents(w, call, ResultOf(w, k, n - 1, call));
      ToolsFind(w, k, calls, n - 1);
      OneToolFinds(w, k, n - 1, call);
      OneMoreCall(w, k, calls, n);
      FoundInConcat(before, events);
    }
  }

  lemma {:induction false} NothingFound(events: seq<Event>)
    requires forall i :: 0 <= i < |events| ==> !events[i].Citation? && !events[i].Recommendation?
    ensures CitationsIn(events) == [] && RecommendationsIn(events) == []
  {
    if events != [] { NothingFound(events[..|events| - 1]); }
  }

  lemma GoesOnWith(w: World, messages: seq<Message>, k: nat)
    requires RoundOutcome(w, messages, k).Go?
    ensures w.model(k).Stream?
    ensures RoundOutcome(w, messages, k).events == RoundEvents(w, k, w.model(k).chunks)
    ensures RoundOutcome(w, messages, k).next == messages + Exchange(w, k, w.model(k).chunks)
  {
    hide RoundEvents, Exchange, FinalReply, ToolsBreak, Texts, Calls, Concat;
  }

  lemma RoundEventsFind(w: World, k: nat, chunks: seq<Chunk>)
    ensures CitationsIn(RoundEvents(w, k, chunks)) == CitedBy(w, k, |Calls(chunks)|)
    ensures RecommendationsIn(RoundEvents(w, k, chunks)) == RecommendedBy(w, k, Calls(chunks), |Calls(chunks)|)
  {
    hide Texts, Calls, ToolEvents, CitationsIn, RecommendationsIn, CitedBy, RecommendedBy;
    var calls, done := Calls(chunks), [Thinking(ProcessingResults)];
    NothingFound(ContentEvents(Texts(chunks)));
    NothingFound(done);
    ToolsFind(w, k, calls, |calls|);
    FoundInConcat(ContentEvents(Texts(chunks)) + ToolEvents(w, k, calls, |calls|), done);
    FoundInConcat(ContentEvents(Texts(chunks)), ToolEvents(w, k, calls, |calls|));
  }

  /** A round that goes on shows the citations and recommendations of its calls, in their order. */
  lemma RoundFinds(w: World, messages: seq<Message>, k: nat)
    requires RoundOutcome(w, messages, k).Go?
    ensures var o := RoundOutcome(w, messages, k);
            var calls := Calls(w.model(k).chunks);
            && CitationsIn(o.events) == CitedBy(w, k, |calls|)
            && RecommendationsIn(o.events) == RecommendedBy(w, k, calls, |calls|)
  {
    hide RoundOutcome, RoundEvents, CitationsIn, RecommendationsIn, Calls, CitedBy, RecommendedBy;
    GoesOnWith(w, messages, k);
    RoundEventsFind(w, k, w.model(k).chunks);
  }

  /** The error text of a tool that threw, and otherwise its result. */
  function ReplyOf(w: World, k: nat, i: nat, call: Call): Message {
    ToolReply(call.id, match w.tool(k, i)
                       case Threw(message) => w.errorBody(call.name, message)
                       case Gave(result) => result.body)
  }

  lemma ExchangeHolds(w: World, k: nat, chunks: seq<Chunk>)
    ensures var exchange, calls := Exchange(w, k, chunks), Calls(chunks);
            && |exchange| == 1 + |calls|
            && exchange[0] == AssistantCalls(if Texts(chunks) == [] then None else Some(Concat(Texts(chunks))), calls)
            && forall i :: 0 <= i < |calls| ==> exchange[1 + i] == ReplyOf(w, k, i, calls[i])
  {
    NoTextIsEmpty(chunks);
    hide Texts, Calls, Concat;
  }

  /** And it hands on the transcript with the assistant's text and calls and one reply per call: its tool's result, or
      the error that it threw. */
  lemma RoundHandsOn(w: World, messages: seq<Message>, k: nat)
    requires RoundOutcome(w, messages, k).Go?
    ensures var o := RoundOutcome(w, messages, k);
            var chunks := w.model(k).chunks;
            var calls := Calls(chunks);
            && |o.next| == |messages| + 1 + |calls| && o.next[..|messages|] == messages
            && o.next[|messages|] ==
               AssistantCalls(if Texts(chunks) == [] then None else Some(Concat(Texts(chunks))), calls)
            && forall i :: 0 <= i < |calls| ==> o.next[|messages| + 1 + i] == ReplyOf(w, k, i, calls[i])
  {
    hide RoundOutcome, Exchange, Texts, Calls, Concat, ReplyOf;
    GoesOnWith(w, messages, k);
    ExchangeHolds(w, k, w.model(k).chunks);
  }
}
