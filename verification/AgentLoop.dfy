/** The chat agent's reasoning loop over an arbitrary model script and arbitrary tools. */
module AgentLoop {
  import opened KeyStore
  import opened Text
  import opened AgentStream
  import opened ChatContext

  const MAX_TOOL_ROUNDS: nat := 5
  const LIMIT_TEXT: string :=
    "I've gathered the available information but reached my processing limit. " +
    "Here's what I found so far — please ask a follow-up question if you need more detail."

  datatype Message =
    | System(content: string)
    | Plain(line: Line)
    | AssistantCalls(text: Option<string>, calls: seq<Call>)
    | ToolReply(id: string, body: string)

  datatype Status = LoadingContext | Reasoning | ProcessingResults

  datatype ErrorCode = InputBlocked | LlmError

  datatype Event =
    | Thinking(status: Status)
    | Content(text: string)
    | ToolCall(tool: string, arguments: string)
    | ToolDone(tool: string, ok: bool)
    | Citation(source: string)
    | Recommendation(text: string)
    | Done(totalCitations: nat, totalRecommendations: nat, rounds: nat)
    | Error(code: ErrorCode)

  /** A stream may break off with an exception after its last chunk. */
  datatype Reply = ApiError | Stream(chunks: seq<Chunk>, breaks: bool)

  /** `citations` is what the extractor finds in the result; `body` its JSON text. `breaks`: handling the result
      raises, after what it has shown by then; the extractor, for one, cannot cut a summary that is null. */
  datatype ToolResult = ToolResult(failed: bool, citations: seq<string>, recommendations: seq<string>, body: string,
                                   breaks: bool)

  datatype ToolOutcome = Threw(message: string) | Gave(result: ToolResult)

  /** Everything outside the loop: the model's k-th reply, the tools by round and position, JSON parsing of
      arguments, and the JSON text of a tool's exception. */
  datatype World = World(model: nat -> Reply, tool: (nat, nat) -> ToolOutcome,
                         parse: string -> Option<string>, errorBody: (string, string) -> string)

  // ---- Reference definition of a turn ----------------------------------------------------------

  function ResultOf(w: World, round: nat, k: nat, call: Call): ToolResult {
    match w.tool(round, k)
    case Threw(message) => ToolResult(true, [], [], w.errorBody(call.name, message), false)
    case Gave(result) => result
  }

  function ArgumentsOf(w: World, call: Call): string {
    if w.parse(call.arguments).Some? then w.parse(call.arguments).value else "{}"
  }

  function CitationEvents(sources: seq<string>): seq<Event> {
    seq(|sources|, i requires 0 <= i < |sources| => Citation(sources[i]))
  }

  function Recommended(call: Call, r: ToolResult): seq<string> {
    if call.name == "get_recommendations" then r.recommendations else []
  }

  function RecommendationEvents(texts: seq<string>): seq<Event> {
    seq(|texts|, i requires 0 <= i < |texts| => Recommendation(texts[i]))
  }

  function CallEvents(w: World, call: Call, r: ToolResult): seq<Event> {
    [ToolCall(call.name, ArgumentsOf(w, call)), ToolDone(call.name, !r.failed)]
    + CitationEvents(r.citations) + RecommendationEvents(Recommended(call, r))
  }

  /** The events of the first n calls of a round. */
  function ToolEvents(w: World, round: nat, calls: seq<Call>, n: nat): seq<Event>
    requires n <= |calls|
  {
    if n == 0 then []
    else ToolEvents(w, round, calls, n - 1) + CallEvents(w, calls[n - 1], ResultOf(w, round, n - 1, calls[n - 1]))
  }

  /** Handling the result of one of the calls raises. */
  predicate ToolsBreak(w: World, round: nat, calls: seq<Call>) {
    exists k :: 0 <= k < |calls| && ResultOf(w, round, k, calls[k]).breaks
  }

  /** How many calls have been executed when the round is over: all, or up to the first whose handling raises. */
  function Executed(w: World, round: nat, calls: seq<Call>, from: nat): (n: nat)
    requires from <= |calls|
    ensures from <= n <= |calls|
    decreases |calls| - from
  {
    if from == |calls| then from
    else if ResultOf(w, round, from, calls[from]).breaks then from + 1
    else Executed(w, round, calls, from + 1)
  }

  /** The replies to the first n calls of a round: one each, same id, same order. */
  function ToolReplies(w: World, round: nat, calls: seq<Call>, n: nat): seq<Message>
    requires n <= |calls|
  {
    seq(n, k requires 0 <= k < n => ToolReply(calls[k].id, ResultOf(w, round, k, calls[k]).body))
  }

  function ContentEvents(texts: seq<string>): seq<Event> {
    seq(|texts|, i requires 0 <= i < |texts| => Content(texts[i]))
  }

  function Exchange(w: World, round: nat, chunks: seq<Chunk>): seq<Message> {
    var text := Concat(Texts(chunks));
    [AssistantCalls(if text != "" then Some(text) else None, Calls(chunks))]
    + ToolReplies(w, round, Calls(chunks), |Calls(chunks)|)
  }

  /** The events of a round that goes on to the next one. */
  function RoundEvents(w: World, k: nat, chunks: seq<Chunk>): seq<Event> {
    ContentEvents(Texts(chunks)) + ToolEvents(w, k, Calls(chunks), |Calls(chunks)|) + [Thinking(ProcessingResults)]
  }

  /** The events of a round in which handling a tool result raises. */
  function BrokenRoundEvents(w: World, k: nat, chunks: seq<Chunk>): seq<Event> {
    ContentEvents(Texts(chunks)) + ToolEvents(w, k, Calls(chunks), Executed(w, k, Calls(chunks), 0))
  }

  predicate FinalReply(chunks: seq<Chunk>) {
    FinishOf(chunks) == "stop" || FirstSeen(Deltas(chunks)) == []
  }

  datatype End = Finished | ModelFailed | Broke

  /** A turn's events, the transcripts sent to the model, the number of the last round, the final text. */
  datatype Turn = Turn(trace: seq<Event>, sent: seq<seq<Message>>, rounds: nat, final: string, end: End)

  /** What one model call leads to: the end of the turn, or another round. */
  datatype Outcome = Stop(events: seq<Event>, final: string, end: End) | Go(events: seq<Event>, next: seq<Message>)

  function RoundOutcome(w: World, messages: seq<Message>, k: nat): Outcome {
    match w.model(k)
    case ApiError => Stop([Error(LlmError)], "", ModelFailed)
    case Stream(chunks, breaks) =>
      if breaks then Stop(ContentEvents(Texts(chunks)), "", Broke)
      else if FinalReply(chunks) then Stop(ContentEvents(Texts(chunks)), Concat(Texts(chunks)), Finished)
      else if ToolsBreak(w, k, Calls(chunks)) then Stop(BrokenRoundEvents(w, k, chunks), "", Broke)
      else Go(RoundEvents(w, k, chunks), messages + Exchange(w, k, chunks))
  }

  /** How a model call answers a transcript in round k. */
  type Stepper = (seq<Message>, nat) -> Outcome

  function StepOf(w: World): Stepper {
    (messages: seq<Message>, k: nat) => RoundOutcome(w, messages, k)
  }

  /** The rounds from number k on, with `messages` as the transcript so far. */
  function Rounds(step: Stepper, messages: seq<Message>, k: nat): Turn
    requires k <= MAX_TOOL_ROUNDS
    decreases MAX_TOOL_ROUNDS - k
  {
    if k == MAX_TOOL_ROUNDS then Turn([], [], k, "", Finished)
    else match step(messages, k)
      case Stop(events, final, end) => Turn(events, [messages], k + 1, final, end)
      case Go(events, next) =>
        var rest := Rounds(step, next, k + 1);
        Turn(events + rest.trace, [messages] + rest.sent, rest.rounds, rest.final, rest.end)
  }

  /** The text of the answer, the round-limit notice included. */
  function Answer(t: Turn): string {
    if t.rounds >= MAX_TOOL_ROUNDS && t.final == "" then LIMIT_TEXT else t.final
  }

  /** What a turn appends to the context; "" for nothing. */
  function Saved(t: Turn): string {
    if t.end.Finished? then Answer(t) else ""
  }

  /** The context after the answer, if any, has been appended. */
  function CloseTurn(s: Store, saved: Option<Line>): Store {
    if saved.Some? then Apply(s, Append(saved.value)) else s
  }

  function CitationsIn(events: seq<Event>): seq<string> {
    if events == [] then []
    else
      var front, e := CitationsIn(events[..|events| - 1]), events[|events| - 1];
      if e.Citation? then front + [e.source] else front
  }

  function RecommendationsIn(events: seq<Event>): seq<string> {
    if events == [] then []
    else
      var front, e := RecommendationsIn(events[..|events| - 1]), events[|events| - 1];
      if e.Recommendation? then front + [e.text] else front
  }

  /** The turn ends in the round-limit notice. */
  predicate Noticed(t: Turn) {
    t.end.Finished? && t.rounds >= MAX_TOOL_ROUNDS && t.final == ""
  }

  /** The trace up to the notice. */
  function Opened(t: Turn): seq<Event> {
    [Thinking(LoadingContext), Thinking(Reasoning)] + t.trace
  }

  /** The trace up to the closing event. */
  function OpenTrace(t: Turn): seq<Event> {
    Opened(t)
    + (if Noticed(t) then [Content(LIMIT_TEXT)] else [])
  }

  /** The whole trace of a turn by an agent that has already emitted `before`. */
  function Trace(t: Turn, before: seq<Event>): seq<Event> {
    var open := OpenTrace(t);
    if t.end.Finished? then
      open + [Done(|CitationsIn(before + open)|, |RecommendationsIn(before + open)|, t.rounds)]
    else open
  }

  function Plains(window: seq<Line>): seq<Message> {
    seq(|window|, i requires 0 <= i < |window| => Plain(window[i]))
  }

  function FirstTranscript(systemPrompt: string, window: seq<Line>): seq<Message> {
    [System(systemPrompt)] + Plains(window)
  }

  // ---- Counting citations and recommendations --------------------------------------------------

  lemma {:induction false} FoundInConcat(a: seq<Event>, b: seq<Event>)
    ensures CitationsIn(a + b) == CitationsIn(a) + CitationsIn(b)
    ensures RecommendationsIn(a + b) == RecommendationsIn(a) + RecommendationsIn(b)
  {
    if b == [] {
      assert a + b == a;
    } else {
      var n := |b| - 1;
      assert (a + b)[..|a| + n] == a + b[..n];
      FoundInConcat(a, b[..n]);
    }
  }

  lemma {:induction false} FoundInEvents(texts: seq<string>)
    ensures CitationsIn(CitationEvents(texts)) == texts && RecommendationsIn(CitationEvents(texts)) == []
    ensures CitationsIn(RecommendationEvents(texts)) == [] && RecommendationsIn(RecommendationEvents(texts)) == texts
  {
    if texts != [] {
      var n := |texts| - 1;
      FoundInEvents(texts[..n]);
      assert CitationEvents(texts)[..n] == CitationEvents(texts[..n]);
      assert RecommendationEvents(texts)[..n] == RecommendationEvents(texts[..n]);
    }
  }

  lemma FoundInCall(w: World, call: Call, r: ToolResult)
    ensures CitationsIn(CallEvents(w, call, r)) == r.citations
    ensures RecommendationsIn(CallEvents(w, call, r)) == Recommended(call, r)
  {
    var opening, closing := ToolCall(call.name, ArgumentsOf(w, call)), ToolDone(call.name, !r.failed);
    var head := [opening, closing];
    FoundInConcat([opening], [closing]);
    assert head == [opening] + [closing];
    assert [opening][..0] == [] && [closing][..0] == [];
    FoundInEvents(r.citations);
    FoundInEvents(Recommended(call, r));
    FoundInConcat(head, CitationEvents(r.citations));
    FoundInConcat(head + CitationEvents(r.citations), RecommendationEvents(Recommended(call, r)));
  }

  lemma NextReply(w: World, round: nat, calls: seq<Call>, n: nat)
    requires n < |calls|
    ensures ToolReplies(w, round, calls, n + 1) ==
            ToolReplies(w, round, calls, n) + [ToolReply(calls[n].id, ResultOf(w, round, n, calls[n]).body)]
  {
  }

  /** `t` is what has been sent and shown so far, followed by the rounds from k on. */
  ghost predicate Resumes(step: Stepper, t: Turn, sent: seq<seq<Message>>, shown: seq<Event>,
      messages: seq<Message>, k: nat)
    requires k <= MAX_TOOL_ROUNDS
  {
    var rest := Rounds(step, messages, k);
    t == Turn(shown + rest.trace, sent + rest.sent, rest.rounds, rest.final, rest.end)
  }

  lemma ResumesAfterRound(step: Stepper, t: Turn, sent: seq<seq<Message>>, shown: seq<Event>,
      messages: seq<Message>, k: nat)
    requires k <= MAX_TOOL_ROUNDS && Resumes(step, t, sent, shown, messages, k)
    ensures k == MAX_TOOL_ROUNDS ==> t == Turn(shown, sent, k, "", Finished)
    ensures k < MAX_TOOL_ROUNDS ==>
              match step(messages, k)
              case Stop(events, final, end) => t == Turn(shown + events, sent + [messages], k + 1, final, end)
              case Go(events, next) => Resumes(step, t, sent + [messages], shown + events, next, k + 1)
  {
    if k == MAX_TOOL_ROUNDS {
      assert shown + [] == shown && sent + [] == sent;
    } else if step(messages, k).Go? {
      var o := step(messages, k);
      var rest := Rounds(step, o.next, k + 1);
      Associates(shown, o.events, rest.trace);
      Associates(sent, [messages], rest.sent);
    }
  }

  // ---- The agent -------------------------------------------------------------------------------

  lemma Opening(before: seq<Event>, t: Turn)
    ensures before + [Thinking(LoadingContext)] + [Thinking(Reasoning)] + t.trace
            == before + Opened(t)
  {
  }

  class ChatAgent {
    var citations: seq<string>
    var recommendations: seq<string>
    var emitted: seq<Event>  // everything this object has yielded

    /** The collected lists are exactly what has been shown to the client. */
    ghost predicate Valid()
      reads this
    {
      citations == CitationsIn(emitted) && recommendations == RecommendationsIn(emitted)
    }

    constructor ()
      ensures Valid() && emitted == []
    {
      citations, recommendations, emitted := [], [], [];
    }

    /** An event that is neither a citation nor a recommendation. */
    method Yield(e: Event)
      requires Valid() && !e.Citation? && !e.Recommendation?
      modifies this`emitted
      ensures Valid() && emitted == old(emitted) + [e]
    {
      assert (emitted + [e])[..|emitted|] == emitted;
      emitted := emitted + [e];
    }

    method YieldTexts(texts: seq<string>)
      requires Valid()
      modifies this`emitted
      ensures Valid() && emitted == old(emitted) + ContentEvents(texts)
    {
      for i := 0 to |texts|
        invariant Valid() && emitted == old(emitted) + ContentEvents(texts[..i])
      {
        Yield(Content(texts[i]));
        assert ContentEvents(texts[..i + 1]) == ContentEvents(texts[..i]) + [Content(texts[i])];
      }
      assert texts[..|texts|] == texts;
    }

    method BuildMessages(systemPrompt: string, window: seq<Line>) returns (messages: seq<Message>)
      ensures messages == FirstTranscript(systemPrompt, window)
    {
      messages := [System(systemPrompt)];
      for i := 0 to |window|
        invariant messages == FirstTranscript(systemPrompt, window[..i])
      {
        messages := messages + [Plain(window[i])];
      }
      assert window[..|window|] == window;
    }

    /** One tool call: its events, its citations and recommendations, its reply in the transcript. */
    method ExecuteCall(w: World, round: nat, k: nat, call: Call) 
      returns (reply: Message, broke: bool)
      requires Valid()
      modifies this
      ensures Valid()
      ensures emitted == old(emitted) + CallEvents(w, call, ResultOf(w, round, k, call))
      ensures broke == ResultOf(w, round, k, call).breaks
      ensures reply == ToolReply(call.id, ResultOf(w, round, k, call).body)
    {
      var parsed := w.parse(call.arguments);
      var arguments := if parsed.Some? then parsed.value else "{}";
      var result: ToolResult;
      match w.tool(round, k) {
        case Threw(message) => result := ToolResult(true, [], [], w.errorBody(call.name, message), false);
        case Gave(r) => result := r;
      }
      var shown := [ToolCall(call.name, arguments), ToolDone(call.name, !result.failed)];
      citations := citations + result.citations;
      shown := shown + CitationEvents(result.citations);
      var texts := if call.name == "get_recommendations" then result.recommendations else [];
      recommendations := recommendations + texts;
      shown := shown + RecommendationEvents(texts);
      FoundInCall(w, call, result);
      FoundInConcat(emitted, shown);
      emitted := emitted + shown;
      reply, broke := ToolReply(call.id, result.body), result.breaks;
    }

    method ExecuteCalls(w: World, round: nat, calls: seq<Call>) returns (replies: seq<Message>, broke: bool)
      requires Valid()
      modifies this
      ensures Valid() && broke == ToolsBreak(w, round, calls)
      ensures emitted == old(emitted) + ToolEvents(w, round, calls, Executed(w, round, calls, 0))
      ensures !broke ==>
                Executed(w, round, calls, 0) == |calls| && replies == ToolReplies(w, round, calls, |calls|)
    {
      hide ResultOf, CallEvents, CitationsIn, RecommendationsIn;
      replies := [];
      for k := 0 to |calls|
        invariant Valid() && emitted == old(emitted) + ToolEvents(w, round, calls, k)
        invariant replies == ToolReplies(w, round, calls, k)
        invariant forall i :: 0 <= i < k ==> !ResultOf(w, round, i, calls[i]).breaks
        invariant Executed(w, round, calls, 0) == Executed(w, round, calls, k)
      {
        var reply;
        reply, broke := ExecuteCall(w, round, k, calls[k]);
        Associates(old(emitted), ToolEvents(w, round, calls, k),
            CallEvents(w, calls[k], ResultOf(w, round, k, calls[k])));
        if broke { return; }
        replies := replies + [reply];
        NextReply(w, round, calls, k);
      }
      broke := false;
    }

    method Round(w: World, messages: seq<Message>, k: nat) returns (outcome: Outcome)
      requires Valid()
      modifies this
      ensures Valid() && emitted == old(emitted) + outcome.events
      ensures outcome == RoundOutcome(w, messages, k)
    {
      hide Deltas, FirstSeen, ForIndex, Assemble, Calls, Texts, Concat, FinishOf, CitationsIn, RecommendationsIn,
           ToolEvents, CallEvents, ContentEvents, InOrder;
      var response := w.model(k);
      if response.ApiError? {
        Yield(Error(LlmError));
        return Stop([Error(LlmError)], "", ModelFailed);
      }
      var content, finish, order, accumulator, texts := ConsumeStream(response.chunks);
      YieldTexts(texts);
      var events := ContentEvents(texts);
      if response.breaks { return Stop(events, "", Broke); }
      if finish == "stop" || order == [] { return Stop(events, content, Finished); }
      InOrderIsCalls(order, accumulator, response.chunks);
      var calls := InOrder(order, accumulator);
      var next := messages + [AssistantCalls(if content != "" then Some(content) else None, calls)];
      var replies, broke := ExecuteCalls(w, k, calls);
      Associates(old(emitted), events, ToolEvents(w, k, calls, Executed(w, k, calls, 0)));
      if broke { return Stop(BrokenRoundEvents(w, k, response.chunks), "", Broke); }
      next := next + replies;
      assert next == messages + Exchange(w, k, response.chunks);
      Yield(Thinking(ProcessingResults));
      Associates(old(emitted), events + ToolEvents(w, k, calls, |calls|), [Thinking(ProcessingResults)]);
      outcome := Go(events + ToolEvents(w, k, calls, |calls|) + [Thinking(ProcessingResults)], next);
    }

    /** The reasoning loop computes the turn of the reference definition. */
    method Reason(w: World, first: seq<Message>) returns (t: Turn)
      requires Valid()
      modifies this
      ensures Valid() && emitted == old(emitted) + t.trace
      ensures t == Rounds(StepOf(w), first, 0)
    {
      var messages, rounds := first, 0;
      var sent: seq<seq<Message>>, shown: seq<Event> := [], [];
      ghost var whole := Rounds(StepOf(w), first, 0);
      while rounds < MAX_TOOL_ROUNDS
        invariant Valid() && rounds <= MAX_TOOL_ROUNDS && emitted == old(emitted) + shown
        invariant Resumes(StepOf(w), whole, sent, shown, messages, rounds)
      {
        var outcome := Round(w, messages, rounds);
        Associates(old(emitted), shown, outcome.events);
        ResumesAfterRound(StepOf(w), whole, sent, shown, messages, rounds);
        shown, sent, rounds := shown + outcome.events, sent + [messages], rounds + 1;
        if outcome.Stop? { return Turn(shown, sent, rounds, outcome.final, outcome.end); }
        messages := outcome.next;
      }
      ResumesAfterRound(StepOf(w), whole, sent, shown, messages, rounds);
      t := Turn(shown, sent, rounds, "", Finished);
    }

    /** The round-limit notice, the saved message and the closing event; `before` is what was emitted before this
        turn. */
    method Close(t: Turn, manager: ConversationContext, ghost before: seq<Event>) returns (saved: Option<Line>)
      requires Valid() && emitted == before + Opened(t)
      modifies this, manager
      ensures Valid() && emitted == before + Trace(t, before)
      ensures saved == if Saved(t) != "" then Some(Line("assistant", Saved(t))) else None
      ensures manager.State() == CloseTurn(old(manager.State()), saved)
    {
      if !t.end.Finished? {
        assert Trace(t, before) == Opened(t);
        return None;
      }
      var final := t.final;
      if t.rounds >= MAX_TOOL_ROUNDS && final == "" {
        final := LIMIT_TEXT;
        Yield(Content(final));
      }
      saved := None;
      if final != "" {
        saved := Some(Line("assistant", final));
        var _ := manager.AppendMessage("assistant", final);
      }
      assert emitted == before + OpenTrace(t);
      Yield(Done(|citations|, |recommendations|, t.rounds));
    }

    /** One user turn. The service has stored the user's message as the last of `db`; `user` is the message as
        the input filter leaves it; `elapsed` is how long the turn takes. */
    method Run(blocked: bool, systemPrompt: string, manager: ConversationContext, db: seq<Line>, user: Line,
               elapsed: nat, w: World)
      returns (sent: seq<seq<Message>>, saved: Option<Line>)
      requires Valid()
      modifies this, manager
      ensures Valid()
      ensures blocked ==>
                && emitted == old(emitted) + [Error(InputBlocked)] && sent == [] && saved == None
                && manager.State() == old(manager.State())
      ensures !blocked ==>
                var window := OpenWindow(old(manager.State()), db, user);
                var t := Rounds(StepOf(w), FirstTranscript(systemPrompt, window), 0);
                && emitted == old(emitted) + Trace(t, old(emitted))
                && sent == t.sent
                && saved == (if Saved(t) != "" then Some(Line("assistant", Saved(t))) else None)
                && manager.State() == CloseTurn(Apply(OpenTurn(old(manager.State()), db, user), Tick(elapsed)), saved)
    {
      if blocked {
        Yield(Error(InputBlocked));
        return [], None;
      }
      ghost var before := emitted;
      Yield(Thinking(LoadingContext));
      var window := OpenTurnOf(manager, db, user);
      var messages := BuildMessages(systemPrompt, window);
      Yield(Thinking(Reasoning));
      var t := Reason(w, messages);
      Opening(before, t);
      manager.Wait(elapsed);
      saved := Close(t, manager, before);
      sent := t.sent;
    }
  }

  // ---- How a trace ends ------------------------------------------------------------------------

  predicate Closes(e: Event) {
    e.Done? || e.Error?
  }

  predicate Open(events: seq<Event>) {
    forall i :: 0 <= i < |events| ==> !Closes(events[i])
  }

  /** Exactly one closing event, the last. */
  predicate ClosedOnce(events: seq<Event>) {
    events != [] && Closes(events[|events| - 1]) && Open(events[..|events| - 1])
  }

  lemma {:induction false} ToolEventsAreOpen(w: World, round: nat, calls: seq<Call>, n: nat)
    requires n <= |calls|
    ensures Open(ToolEvents(w, round, calls, n))
  {
    if n > 0 { ToolEventsAreOpen(w, round, calls, n - 1); }
  }

  lemma OpenThenClosed(a: seq<Event>, b: seq<Event>)
    requires Open(a)
    ensures Open(b) ==> Open(a + b)
    ensures ClosedOnce(b) ==> ClosedOnce(a + b)
  {
    if ClosedOnce(b) { assert (a + b)[..|a + b| - 1] == a + b[..|b| - 1]; }
  }

  // ---- What every step keeps -------------------------------------------------------------------

  /** The contents shown since the last `thinking` event. */
  function TailTexts(events: seq<Event>): seq<string> {
    if events == [] then []
    else
      var e := events[|events| - 1];
      if e.Thinking? then []
      else if e.Content? then TailTexts(events[..|events| - 1]) + [e.text]
      else TailTexts(events[..|events| - 1])
  }

  /** How many messages belong together with `m` as the first. */
  function Block(m: Message): nat {
    if m.AssistantCalls? then 1 + |m.calls| else 1
  }

  predicate StartsWell(ts: seq<Message>)
    requires ts != []
  {
    && !ts[0].ToolReply?
    && Block(ts[0]) <= |ts|
    && forall j :: 1 <= j < Block(ts[0]) ==> ts[j].ToolReply? && ts[j].id == ts[0].calls[j - 1].id
  }

  /** Transcripts the model accepts: an assistant message with tool calls is followed at once by one reply
      per call, same ids, same order, and replies occur nowhere else. */
  ghost predicate WellFormed(ts: seq<Message>)
    decreases |ts|
  {
    ts == [] || (StartsWell(ts) && WellFormed(ts[Block(ts[0])..]))
  }

  /** After any `thinking` event, the contents of `events` add up to `final`. */
  ghost predicate Says(events: seq<Event>, final: string) {
    forall before: seq<Event>, s: Status :: Concat(TailTexts(before + [Thinking(s)] + events)) == final
  }

  ghost predicate GoodOutcome(messages: seq<Message>, o: Outcome) {
    match o
    case Stop(events, final, end) =>
      && (if end == ModelFailed then ClosedOnce(events) else Open(events))
      && (end == Finished ==> Says(events, final))
    case Go(events, next) =>
      && Open(events) && events != [] && events[|events| - 1].Thinking?
      && messages <= next && (WellFormed(messages) ==> WellFormed(next))
  }

  lemma {:induction false} TailOfContents(before: seq<Event>, s: Status, texts: seq<string>)
    ensures TailTexts(before + [Thinking(s)] + ContentEvents(texts)) == texts
  {
    var all := before + [Thinking(s)] + ContentEvents(texts);
    if texts == [] {
      assert all[|all| - 1] == Thinking(s);
    } else {
      var n := |texts| - 1;
      assert all[..|all| - 1] == before + [Thinking(s)] + ContentEvents(texts[..n]);
      TailOfContents(before, s, texts[..n]);
    }
  }

  lemma {:induction false} WellFormedConcat(a: seq<Message>, b: seq<Message>)
    requires WellFormed(a) && WellFormed(b)
    ensures WellFormed(a + b)
    decreases |a|
  {
    if a == [] {
      assert a + b == b;
    } else {
      var n := Block(a[0]);
      assert StartsWell(a + b);
      assert (a + b)[n..] == a[n..] + b;
      WellFormedConcat(a[n..], b);
    }
  }

  lemma ExchangeIsWellFormed(w: World, k: nat, chunks: seq<Chunk>)
    ensures WellFormed(Exchange(w, k, chunks))
  {
    var ts, calls := Exchange(w, k, chunks), Calls(chunks);
    assert ts[1..] == ToolReplies(w, k, calls, |calls|);
    assert ts[Block(ts[0])..] == [];
  }

  lemma EveryOutcomeIsGood(w: World, messages: seq<Message>, k: nat)
    ensures GoodOutcome(messages, RoundOutcome(w, messages, k))
  {
    hide Deltas, FirstSeen, ForIndex, Assemble, FinishOf, FinalReply, Texts, Calls, ToolEvents, ToolReplies, Exchange,
         ToolsBreak, Executed;
    var o := RoundOutcome(w, messages, k);
    if w.model(k).Stream? {
      var chunks := w.model(k).chunks;
      ToolEventsAreOpen(w, k, Calls(chunks), Executed(w, k, Calls(chunks), 0));
      if o.Go? {
        ToolEventsAreOpen(w, k, Calls(chunks), |Calls(chunks)|);
        ExchangeIsWellFormed(w, k, chunks);
        if WellFormed(messages) { WellFormedConcat(messages, Exchange(w, k, chunks)); }
      } else if o.end == Finished {
        forall before: seq<Event>, s: Status ensures Concat(TailTexts(before + [Thinking(s)] + o.events)) == o.final {
          TailOfContents(before, s, Texts(chunks));
        }
      }
    }
  }

  ghost predicate GoodStepper(step: Stepper) {
    forall messages: seq<Message>, k: nat :: GoodOutcome(messages, step(messages, k))
  }

  lemma {:induction false} RoundsEnd(step: Stepper, messages: seq<Message>, k: nat, t: Turn)
    requires k < MAX_TOOL_ROUNDS && t == Rounds(step, messages, k)
    ensures k < t.rounds <= MAX_TOOL_ROUNDS && |t.sent| == t.rounds - k
    ensures var last := step(t.sent[|t.sent| - 1], t.rounds - 1);
            if last.Stop? then t.end == last.end && t.final == last.final
            else t.end == Finished && t.final == "" && t.rounds == MAX_TOOL_ROUNDS
    decreases MAX_TOOL_ROUNDS - k
  {
    var o := step(messages, k);
    if o.Go? && k + 1 < MAX_TOOL_ROUNDS { RoundsEnd(step, o.next, k + 1, Rounds(step, o.next, k + 1)); }
  }

  lemma {:induction false} RoundsClose(step: Stepper, messages: seq<Message>, k: nat, t: Turn)
    requires k <= MAX_TOOL_ROUNDS && t == Rounds(step, messages, k) && GoodStepper(step)
    ensures if t.end == ModelFailed then ClosedOnce(t.trace) else Open(t.trace)
    decreases MAX_TOOL_ROUNDS - k
  {
    if k < MAX_TOOL_ROUNDS {
      var o := step(messages, k);
      assert GoodOutcome(messages, o);
      if o.Go? {
        var rest := Rounds(step, o.next, k + 1);
        RoundsClose(step, o.next, k + 1, rest);
        OpenThenClosed(o.events, rest.trace);
      }
    }
  }

  lemma {:induction false} RoundsSay(step: Stepper, messages: seq<Message>, k: nat, t: Turn)
    requires k <= MAX_TOOL_ROUNDS && t == Rounds(step, messages, k) && GoodStepper(step) && t.end == Finished
    ensures Says(t.trace, t.final)
    decreases MAX_TOOL_ROUNDS - k
  {
    if k == MAX_TOOL_ROUNDS {
      forall before: seq<Event>, s: Status ensures Concat(TailTexts(before + [Thinking(s)] + [])) == "" {
        TailOfContents(before, s, []);
        assert ContentEvents([]) == [];
      }
    } else {
      var o := step(messages, k);
      assert GoodOutcome(messages, o);
      if o.Go? {
        var rest := Rounds(step, o.next, k + 1);
        RoundsSay(step, o.next, k + 1, rest);
        var n := |o.events| - 1;
        forall before: seq<Event>, s: Status ensures Concat(TailTexts(before + [Thinking(s)] + t.trace)) == t.final {
          var longer := before + [Thinking(s)] + o.events[..n];
          assert before + [Thinking(s)] + t.trace == longer + [Thinking(o.events[n].status)] + rest.trace;
        }
      }
    }
  }

  lemma {:induction false} RoundsSend(step: Stepper, messages: seq<Message>, k: nat, t: Turn)
    requires k <= MAX_TOOL_ROUNDS && t == Rounds(step, messages, k) && GoodStepper(step) && WellFormed(messages)
    ensures forall i :: 0 <= i < |t.sent| ==> WellFormed(t.sent[i]) && messages <= t.sent[i]
    ensures forall i, j :: 0 <= i <= j < |t.sent| ==> t.sent[i] <= t.sent[j]
    decreases MAX_TOOL_ROUNDS - k
  {
    if k < MAX_TOOL_ROUNDS {
      var o := step(messages, k);
      assert GoodOutcome(messages, o);
      if o.Go? {
        var rest := Rounds(step, o.next, k + 1);
        RoundsSend(step, o.next, k + 1, rest);
        assert forall i :: 0 < i < |t.sent| ==> t.sent[i] == rest.sent[i - 1];
      }
    }
  }

  // ---- The agent's promises --------------------------------------------------------------------

  lemma WorldsAreGood(w: World)
    ensures GoodStepper(StepOf(w))
  {
    forall messages: seq<Message>, k: nat ensures GoodOutcome(messages, StepOf(w)(messages, k)) {
      EveryOutcomeIsGood(w, messages, k);
    }
  }

  /** Round k ends in an exception that nobody catches: in the stream, or in handling a tool result. */
  predicate BreaksOff(w: World, k: nat) {
    && w.model(k).Stream?
    && (w.model(k).breaks || (!FinalReply(w.model(k).chunks) && ToolsBreak(w, k, Calls(w.model(k).chunks))))
  }

  lemma BreaksExactly(w: World, first: seq<Message>, t: Turn)
    requires t == Rounds(StepOf(w), first, 0)
    ensures 1 <= |t.sent| == t.rounds <= MAX_TOOL_ROUNDS
    ensures t.end == Broke <==> BreaksOff(w, t.rounds - 1)
  {
    hide Rounds, FinalReply, ToolsBreak, Calls, Texts, RoundEvents, BrokenRoundEvents, Exchange;
    RoundsEnd(StepOf(w), first, 0, t);
    var last := t.rounds - 1;
    assert StepOf(w)(t.sent[last], last) == RoundOutcome(w, t.sent[last], last);
  }

  /** The model is called at least once and at most five times; the trace holds exactly one `done` or `error`,
      as its last event, if and only if the last round did not break off. */
  lemma TraceClosesOnce(w: World, first: seq<Message>, t: Turn, before: seq<Event>)
    requires t == Rounds(StepOf(w), first, 0)
    ensures 1 <= |t.sent| == t.rounds <= MAX_TOOL_ROUNDS
    ensures ClosedOnce(Trace(t, before)) <==> !BreaksOff(w, t.rounds - 1)
    ensures BreaksOff(w, t.rounds - 1) ==> Open(Trace(t, before))
  {
    hide LIMIT_TEXT, CitationsIn, RecommendationsIn, BreaksOff, Rounds;
    WorldsAreGood(w);
    BreaksExactly(w, first, t);
    RoundsClose(StepOf(w), first, 0, t);
    var opening := [Thinking(LoadingContext), Thinking(Reasoning)];
    OpenThenClosed(opening, t.trace);
    if t.end == Finished {
      var open := OpenTrace(t);
      OpenThenClosed(open, Trace(t, before)[|open|..]);
      assert Trace(t, before) == open + Trace(t, before)[|open|..];
    } else {
      assert OpenTrace(t) == opening + t.trace;
    }
  }

  lemma LimitTextIsText()
    ensures LIMIT_TEXT != ""
  {
  }

  lemma OpenedShowsTheFinalText(w: World, first: seq<Message>, t: Turn)
    requires t == Rounds(StepOf(w), first, 0) && t.end == Finished
    ensures Concat(TailTexts(Opened(t))) == t.final
  {
    hide Rounds, StepOf, TailTexts, Concat;
    WorldsAreGood(w);
    RoundsSay(StepOf(w), first, 0, t);
    assert Opened(t) == [Thinking(LoadingContext)] + [Thinking(Reasoning)] + t.trace;
  }

  lemma ClosingAddsTheNotice(t: Turn, before: seq<Event>)
    requires t.end == Finished
    ensures TailTexts(Trace(t, before)) == TailTexts(Opened(t)) + if Noticed(t) then [LIMIT_TEXT] else []
  {
    hide LIMIT_TEXT, CitationsIn, RecommendationsIn;
    var open, trace := OpenTrace(t), Trace(t, before);
    assert trace[..|trace| - 1] == open;
    if Noticed(t) { assert open[..|open| - 1] == Opened(t); } else { assert open == Opened(t); }
  }

  /** If the turn is done, the contents shown after the last `thinking` are exactly the message saved to the
      context, the round-limit notice included; nothing is saved exactly if nothing was shown. */
  lemma DoneTraceShowsTheSavedMessage(w: World, first: seq<Message>, t: Turn, before: seq<Event>)
    requires t == Rounds(StepOf(w), first, 0) && t.end == Finished
    ensures Concat(TailTexts(Trace(t, before))) == Answer(t)
    ensures Answer(t) == "" ==> t.rounds < MAX_TOOL_ROUNDS
  {
    LimitTextIsText();
    hide LIMIT_TEXT, Rounds, StepOf, TailTexts, Trace;
    OpenedShowsTheFinalText(w, first, t);
    ClosingAddsTheNotice(t, before);
    var shown := TailTexts(Opened(t));
    assert (shown + [LIMIT_TEXT])[..|shown|] == shown && shown + [] == shown;
    assert "" + LIMIT_TEXT == LIMIT_TEXT;
  }

  lemma {:induction false} FirstTranscriptIsWellFormed(systemPrompt: string, window: seq<Line>)
    ensures WellFormed(FirstTranscript(systemPrompt, window)) && WellFormed(Plains(window))
  {
    var ts := FirstTranscript(systemPrompt, window);
    assert ts[1..] == Plains(window);
    if window != [] {
      assert Plains(window)[1..] == Plains(window[1..]);
      FirstTranscriptIsWellFormed(systemPrompt, window[1..]);
    }
  }

  /** Whatever the tools do: every transcript sent to the model obeys the grammar and extends the one before. */
  lemma TranscriptsAreWellFormed(w: World, systemPrompt: string, window: seq<Line>, t: Turn)
    requires t == Rounds(StepOf(w), FirstTranscript(systemPrompt, window), 0)
    ensures forall i :: 0 <= i < |t.sent| ==> WellFormed(t.sent[i])
    ensures forall i, j :: 0 <= i <= j < |t.sent| ==> t.sent[i] <= t.sent[j]
    ensures t.sent != [] && t.sent[0] == FirstTranscript(systemPrompt, window)
  {
    WorldsAreGood(w);
    FirstTranscriptIsWellFormed(systemPrompt, window);
    RoundsSend(StepOf(w), FirstTranscript(systemPrompt, window), 0, t);
  }

  /** The `done` event counts all citation and recommendation events the agent object has ever emitted. */
  lemma DoneCountsEverythingEmitted(t: Turn, before: seq<Event>)
    requires t.end == Finished
    ensures var all := before + Trace(t, before); var last := all[|all| - 1];
            last == Done(|CitationsIn(all)|, |RecommendationsIn(all)|, t.rounds)
  {
    var open, trace := OpenTrace(t), Trace(t, before);
    assert before + trace == before + open + [trace[|trace| - 1]];
    FoundInConcat(before + open, [trace[|trace| - 1]]);
    assert [trace[|trace| - 1]][..0] == [];
  }

  // ---- What the service stores -----------------------------------------------------------------

  /** The texts of all content events: the service stores their concatenation as the assistant's message. */
  function ContentTexts(events: seq<Event>): seq<string> {
    if events == [] then []
    else
      var front, e := ContentTexts(events[..|events| - 1]), events[|events| - 1];
      if e.Content? then front + [e.text] else front
  }

  lemma {:induction false} ContentTextsOfConcat(a: seq<Event>, b: seq<Event>)
    ensures ContentTexts(a + b) == ContentTexts(a) + ContentTexts(b)
  {
    if b == [] {
      assert a + b == a;
    } else {
      var n := |b| - 1;
      assert (a + b)[..|a| + n] == a + b[..n];
      ContentTextsOfConcat(a, b[..n]);
    }
  }

  lemma {:induction false} ContentTextsOfContents(texts: seq<string>)
    ensures ContentTexts(ContentEvents(texts)) == texts
  {
    if texts != [] {
      var n := |texts| - 1;
      ContentTextsOfContents(texts[..n]);
      assert ContentEvents(texts)[..n] == ContentEvents(texts[..n]);
    }
  }

  predicate Silent(events: seq<Event>) {
    forall i :: 0 <= i < |events| ==> !events[i].Content?
  }

  lemma {:induction false} SilentHasNoTexts(events: seq<Event>)
    requires Silent(events)
    ensures ContentTexts(events) == []
  {
    if events != [] { SilentHasNoTexts(events[..|events| - 1]); }
  }

  lemma {:induction false} ToolEventsAreSilent(w: World, round: nat, calls: seq<Call>, n: nat)
    requires n <= |calls|
    ensures Silent(ToolEvents(w, round, calls, n))
  {
    if n > 0 { ToolEventsAreSilent(w, round, calls, n - 1); }
  }

  lemma {:induction false} NoTextIsEmpty(chunks: seq<Chunk>)
    ensures Concat(Texts(chunks)) == "" <==> Texts(chunks) == []
  {
    if chunks != [] { NoTextIsEmpty(chunks[..|chunks| - 1]); }
  }

  /** Round k leads to another one. */
  predicate GoesOn(w: World, k: nat) {
    w.model(k).Stream? && !FinalReply(w.model(k).chunks) && !BreaksOff(w, k)
  }

  /** No round from `from` up to `to` that goes on shows any text. */
  predicate QuietRounds(w: World, from: nat, to: nat) {
    forall k: nat :: from <= k < to && GoesOn(w, k) ==> Texts(w.model(k).chunks) == []
  }

  lemma RoundTexts(w: World, messages: seq<Message>, k: nat, o: Outcome)
    requires o == RoundOutcome(w, messages, k)
    ensures o.Go? <==> GoesOn(w, k)
    ensures o.Go? ==> ContentTexts(o.events) == Texts(w.model(k).chunks)
    ensures o.Stop? && o.end != Broke ==> Concat(ContentTexts(o.events)) == o.final
  {
    hide Texts, Calls, ToolEvents, FinishOf, FirstSeen, Deltas, Exchange, ToolsBreak, BrokenRoundEvents;
    if w.model(k).Stream? {
      var chunks := w.model(k).chunks;
      ContentTextsOfContents(Texts(chunks));
      if o.Go? {
        var tail := ToolEvents(w, k, Calls(chunks), |Calls(chunks)|) + [Thinking(ProcessingResults)];
        ToolEventsAreSilent(w, k, Calls(chunks), |Calls(chunks)|);
        SilentHasNoTexts(tail);
        ContentTextsOfConcat(ContentEvents(Texts(chunks)), tail);
        assert o.events == ContentEvents(Texts(chunks)) + tail;
      }
    } else {
      assert [Error(LlmError)][..0] == [];
    }
  }

  lemma NothingShown()
    ensures ContentTexts([]) == [] && Concat([]) == ""
  {
  }

  lemma LastRoundIsQuiet(w: World, k: nat)
    ensures !GoesOn(w, k) ==> QuietRounds(w, k, k + 1)
  {
  }

  lemma {:induction false} RoundsReach(step: Stepper, messages: seq<Message>, k: nat, t: Turn)
    requires k <= MAX_TOOL_ROUNDS && t == Rounds(step, messages, k)
    ensures t.rounds >= k
    decreases MAX_TOOL_ROUNDS - k
  {
    if k < MAX_TOOL_ROUNDS {
      var o := step(messages, k);
      if o.Go? { RoundsReach(step, o.next, k + 1, Rounds(step, o.next, k + 1)); }
    }
  }

  lemma QuietFromNext(w: World, k: nat, to: nat)
    requires k < to && GoesOn(w, k)
    ensures QuietRounds(w, k, to) <==> Texts(w.model(k).chunks) == [] && QuietRounds(w, k + 1, to)
  {
  }

  lemma {:induction false} RoundsShow(w: World, messages: seq<Message>, k: nat, t: Turn)
    requires k <= MAX_TOOL_ROUNDS && t == Rounds(StepOf(w), messages, k) && t.end != Broke
    ensures |Concat(ContentTexts(t.trace))| >= |t.final|
    ensures Concat(ContentTexts(t.trace)) == t.final <==> QuietRounds(w, k, t.rounds)
    decreases MAX_TOOL_ROUNDS - k
  {
    hide Texts, ContentTexts, Concat, RoundOutcome, FinalReply;
    if k == MAX_TOOL_ROUNDS {
      NothingShown();
    } else {
      hide QuietRounds;
      var o := StepOf(w)(messages, k);
      RoundTexts(w, messages, k, o);
      if o.Stop? { LastRoundIsQuiet(w, k); }
      if o.Go? {
        var rest := Rounds(StepOf(w), o.next, k + 1);
        RoundsShow(w, o.next, k + 1, rest);
        RoundsReach(StepOf(w), o.next, k + 1, rest);
        ContentTextsOfConcat(o.events, rest.trace);
        ConcatOfConcat(ContentTexts(o.events), ContentTexts(rest.trace));
        NoTextIsEmpty(w.model(k).chunks);
        QuietFromNext(w, k, t.rounds);
      }
    }
  }

  /** What the service stores for a turn: nothing for a stream that breaks off, which raises through it. */
  function StoredByService(t: Turn, before: seq<Event>): string {
    if t.end.Broke? then "" else Concat(ContentTexts(Trace(t, before)))
  }

  /** The texts of a whole trace are those of its rounds, and the round-limit notice. */
  lemma TraceTexts(t: Turn, before: seq<Event>)
    ensures ContentTexts(Trace(t, before)) ==
            if Noticed(t) then ContentTexts(t.trace) + [LIMIT_TEXT] else ContentTexts(t.trace)
  {
    hide LIMIT_TEXT, CitationsIn, RecommendationsIn;
    var opening := [Thinking(LoadingContext), Thinking(Reasoning)];
    var notice := if Noticed(t) then [Content(LIMIT_TEXT)] else [];
    var open, trace := OpenTrace(t), Trace(t, before);
    var closing := trace[|open|..];
    SilentHasNoTexts(opening);
    ContentTextsOfConcat(opening, t.trace);
    ContentTextsOfConcat(opening + t.trace, notice);
    SilentHasNoTexts(closing);
    ContentTextsOfConcat(open, closing);
    assert trace == open + closing && open == opening + t.trace + notice;
    assert notice != [] ==> notice[..0] == [];
  }

  lemma FailedTurnsSayNothing(w: World, first: seq<Message>, t: Turn)
    requires t == Rounds(StepOf(w), first, 0)
    ensures t.end != Finished ==> t.final == ""
  {
    hide Rounds, FinalReply, ToolsBreak, Calls, Texts, RoundEvents, BrokenRoundEvents, Exchange;
    RoundsEnd(StepOf(w), first, 0, t);
    var last := t.rounds - 1;
    assert StepOf(w)(t.sent[last], last) == RoundOutcome(w, t.sent[last], last);
  }

  /** The service stores everything the turn has shown, the agent saves what it showed after the last
      `thinking`. The two are the same message if and only if the last stream broke off, so that neither keeps
      anything, or no round that went on to another one showed any text; an answer
      that fails in a later round is stored although nothing of it is saved. */
  lemma ServiceStoresWhatTheAgentSavesExactly(w: World, first: seq<Message>, t: Turn, before: seq<Event>)
    requires t == Rounds(StepOf(w), first, 0)
    ensures StoredByService(t, before) == Saved(t) <==> t.end.Broke? || QuietRounds(w, 0, t.rounds)
  {
    hide LIMIT_TEXT, StepOf, Rounds, QuietRounds, Trace, ContentTexts, Concat;
    if t.end.Broke? { return; }
    LimitTextIsText();
    NothingShown();
    RoundsShow(w, first, 0, t);
    FailedTurnsSayNothing(w, first, t);
    TraceTexts(t, before);
    var shown := ContentTexts(t.trace);
    ConcatOfConcat(shown, [LIMIT_TEXT]);
    OneText(LIMIT_TEXT);
    if Concat(shown) != "" { assert |Concat(shown) + LIMIT_TEXT| > |LIMIT_TEXT|; }
  }

  function LinesOf(message: string): seq<Line> {
    if message == "" then [] else [Line("assistant", message)]
  }

  /** The service stores the user's message as it came, the agent appends it filtered. A rebuild from the service's
      store is a rebuild from the log of what was appended to the window if and only if filtering changed nothing
      and the turn broke off or no round that went on to another one showed any text. */
  lemma RebuildsFromTheLogExactly(w: World, first: seq<Message>, t: Turn, before: seq<Event>, log: seq<Line>,
                                  raw: Line, filtered: Line, metadata: map<string, string>)
    requires t == Rounds(StepOf(w), first, 0)
    ensures RebuildsFrom(log + [filtered] + LinesOf(Saved(t)),
                         Rebuild(log + [raw] + LinesOf(StoredByService(t, before)), metadata))
            <==> raw == filtered && (t.end.Broke? || QuietRounds(w, 0, t.rounds))
  {
    hide Rounds, StepOf, StoredByService, Saved, QuietRounds;
    ServiceStoresWhatTheAgentSavesExactly(w, first, t, before);
    var saved, stored := LinesOf(Saved(t)), LinesOf(StoredByService(t, before));
    var appended, kept := log + [filtered] + saved, log + [raw] + stored;
    if appended == kept {
      assert filtered == appended[|log|] == kept[|log|] == raw;
      assert saved == appended[|log| + 1..] == kept[|log| + 1..] == stored;
      if saved != [] { assert saved[0] == stored[0]; }
    }
  }
}
