/** One streamed model response: text arrives in pieces, tool calls arrive as fragments of several calls
    interleaved by index. An absent or empty field of the wire format is the empty string here: the code
    treats both as false. */
module AgentStream {
  import opened Text

  datatype ToolDelta = ToolDelta(index: int, id: string, name: string, arguments: string)

  /** `Empty` is a chunk without choices or without a delta. */
  datatype Chunk = Empty | Delta(content: string, finish: string, toolCalls: seq<ToolDelta>)

  datatype Call = Call(id: string, name: string, arguments: string)

  // ---- Reference definitions -------------------------------------------------------------------

  /** The content events of the stream, in order. */
  function Texts(chunks: seq<Chunk>): seq<string> {
    if chunks == [] then []
    else
      var front, c := Texts(chunks[..|chunks| - 1]), chunks[|chunks| - 1];
      if c.Delta? && c.content != "" then front + [c.content] else front
  }

  function FinishOf(chunks: seq<Chunk>): string {
    if chunks == [] then ""
    else
      var c := chunks[|chunks| - 1];
      if c.Delta? && c.finish != "" then c.finish else FinishOf(chunks[..|chunks| - 1])
  }

  function Deltas(chunks: seq<Chunk>): seq<ToolDelta> {
    if chunks == [] then []
    else
      var c := chunks[|chunks| - 1];
      Deltas(chunks[..|chunks| - 1]) + (if c.Delta? then c.toolCalls else [])
  }

  /** The indices in order of first appearance. */
  function FirstSeen(ds: seq<ToolDelta>): seq<int> {
    if ds == [] then []
    else
      var front, i := FirstSeen(ds[..|ds| - 1]), ds[|ds| - 1].index;
      if i in front then front else front + [i]
  }

  /** The fragments of one index, in arrival order. */
  function ForIndex(ds: seq<ToolDelta>, i: int): seq<ToolDelta> {
    if ds == [] then []
    else
      var front, d := ForIndex(ds[..|ds| - 1], i), ds[|ds| - 1];
      if d.index == i then front + [d] else front
  }

  /** What the fragments of one call amount to: the last non-empty id and name, all arguments in order. */
  function Assemble(fragments: seq<ToolDelta>): Call {
    if fragments == [] then Call("", "", "")
    else
      var front, d := Assemble(fragments[..|fragments| - 1]), fragments[|fragments| - 1];
      Call(if d.id != "" then d.id else front.id, if d.name != "" then d.name else front.name,
           front.arguments + d.arguments)
  }

  /** The calls of a stream, in order of first appearance. */
  function Calls(chunks: seq<Chunk>): seq<Call> {
    var ds := Deltas(chunks);
    seq(|FirstSeen(ds)|, k requires 0 <= k < |FirstSeen(ds)| => Assemble(ForIndex(ds, FirstSeen(ds)[k])))
  }

  // ---- The accumulating loop -------------------------------------------------------------------

  /** The accumulator after the fragments `ds`: its keys in insertion order, and its entries. */
  ghost predicate Accumulated(order: seq<int>, calls: map<int, Call>, ds: seq<ToolDelta>) {
    && order == FirstSeen(ds)
    && (forall i :: i in calls <==> i in order)
    && (forall i :: i in calls ==> calls[i] == Assemble(ForIndex(ds, i)))
  }

  lemma {:induction false} UnseenHasNoFragments(ds: seq<ToolDelta>, i: int)
    ensures i in FirstSeen(ds) <==> ForIndex(ds, i) != []
  {
    if ds != [] { UnseenHasNoFragments(ds[..|ds| - 1], i); }
  }

  lemma Snoc(ds: seq<ToolDelta>, d: ToolDelta)
    ensures FirstSeen(ds + [d]) == if d.index in FirstSeen(ds) then FirstSeen(ds) else FirstSeen(ds) + [d.index]
    ensures forall i :: ForIndex(ds + [d], i) == if d.index == i then ForIndex(ds, i) + [d] else ForIndex(ds, i)
  {
    assert (ds + [d])[..|ds|] == ds;
  }

  lemma AssembleSnoc(fragments: seq<ToolDelta>, d: ToolDelta)
    ensures var c := Assemble(fragments);
            Assemble(fragments + [d]) ==
            Call(if d.id != "" then d.id else c.id, if d.name != "" then d.name else c.name, c.arguments + d.arguments)
    ensures Assemble([]) == Call("", "", "")
  {
    assert (fragments + [d])[..|fragments|] == fragments;
  }

  method AddFragment(order: seq<int>, calls: map<int, Call>, d: ToolDelta, ghost ds: seq<ToolDelta>)
    returns (order': seq<int>, calls': map<int, Call>)
    requires Accumulated(order, calls, ds)
    ensures Accumulated(order', calls', ds + [d])
  {
    hide FirstSeen, ForIndex, Assemble;
    order', calls' := order, calls;
    if d.index !in calls' {
      order' := order' + [d.index];
      calls' := calls'[d.index := Call(d.id, "", "")];
    }
    var entry := calls'[d.index];
    if d.id != "" { entry := entry.(id := d.id); }
    if d.name != "" { entry := entry.(name := d.name); }
    if d.arguments != "" { entry := entry.(arguments := entry.arguments + d.arguments); }
    calls' := calls'[d.index := entry];
    UnseenHasNoFragments(ds, d.index);
    Snoc(ds, d);
    AssembleSnoc(ForIndex(ds, d.index), d);
    assert entry.arguments + "" == entry.arguments;
  }

  /** The fragments of one chunk. */
  method AddFragments(order: seq<int>, calls: map<int, Call>, fragments: seq<ToolDelta>, ghost ds: seq<ToolDelta>)
    returns (order': seq<int>, calls': map<int, Call>)
    requires Accumulated(order, calls, ds)
    ensures Accumulated(order', calls', ds + fragments)
  {
    hide Accumulated;
    order', calls' := order, calls;
    assert ds + fragments[..0] == ds;
    for t := 0 to |fragments|
      invariant Accumulated(order', calls', ds + fragments[..t])
    {
      order', calls' := AddFragment(order', calls', fragments[t], ds + fragments[..t]);
      assert ds + fragments[..t] + [fragments[t]] == ds + fragments[..t + 1];
    }
    assert fragments[..|fragments|] == fragments;
  }

  method ConsumeStream(chunks: seq<Chunk>)
    returns (content: string, finish: string, order: seq<int>, calls: map<int, Call>, events: seq<string>)
    ensures events == Texts(chunks) && content == Concat(Texts(chunks))
    ensures finish == FinishOf(chunks)
    ensures Accumulated(order, calls, Deltas(chunks))
  {
    content, finish, order, calls, events := "", "", [], map[], [];
    assert Accumulated(order, calls, Deltas(chunks[..0]));
    hide Accumulated;
    for k := 0 to |chunks|
      invariant events == Texts(chunks[..k]) && content == Concat(events)
      invariant finish == FinishOf(chunks[..k])
      invariant Accumulated(order, calls, Deltas(chunks[..k]))
    {
      var chunk := chunks[k];
      ghost var before := chunks[..k];
      assert chunks[..k + 1][..k] == before;
      assert Deltas(before) + [] == Deltas(before);
      if chunk.Empty? { continue; }
      if chunk.finish != "" { finish := chunk.finish; }
      if chunk.content != "" {
        content := content + chunk.content;
        assert (events + [chunk.content])[..|events|] == events;
        events := events + [chunk.content];
      }
      order, calls := AddFragments(order, calls, chunk.toolCalls, Deltas(before));
    }
    assert chunks[..|chunks|] == chunks;
  }

  /** The accumulated calls in insertion order. */
  function InOrder(order: seq<int>, calls: map<int, Call>): (r: seq<Call>)
    requires forall k :: 0 <= k < |order| ==> order[k] in calls
    ensures |r| == |order| && forall k :: 0 <= k < |r| ==> r[k] == calls[order[k]]
  {
    seq(|order|, k requires 0 <= k < |order| => calls[order[k]])
  }

  lemma InOrderIsCalls(order: seq<int>, calls: map<int, Call>, chunks: seq<Chunk>)
    requires Accumulated(order, calls, Deltas(chunks))
    ensures forall k :: 0 <= k < |order| ==> order[k] in calls
    ensures InOrder(order, calls) == Calls(chunks)
  {
    forall k | 0 <= k < |order| ensures order[k] in calls {
      var i := order[k];
      assert i in order;
    }
    var r, whole := InOrder(order, calls), Calls(chunks);
    assert |r| == |whole| && forall k :: 0 <= k < |r| ==> r[k] == whole[k];
  }

  // ---- Properties ------------------------------------------------------------------------------

  /** The accumulator's keys are exactly the indices seen, each once. */
  lemma {:induction false} FirstSeenIsExact(ds: seq<ToolDelta>)
    ensures forall i :: i in FirstSeen(ds) <==> exists k :: 0 <= k < |ds| && ds[k].index == i
    ensures forall j, k :: 0 <= j < k < |FirstSeen(ds)| ==> FirstSeen(ds)[j] != FirstSeen(ds)[k]
  {
    if ds != [] {
      var n := |ds| - 1;
      FirstSeenIsExact(ds[..n]);
      assert forall k :: 0 <= k < n ==> ds[..n][k] == ds[k];
      assert ds[n].index in FirstSeen(ds);
      forall i ensures i in FirstSeen(ds) <==> exists k :: 0 <= k < |ds| && ds[k].index == i {
        if i in FirstSeen(ds[..n]) {
          var k :| 0 <= k < n && ds[..n][k].index == i;
          assert ds[k].index == i;
        }
        if k :| 0 <= k < |ds| && ds[k].index == i {
          if k < n { assert ds[..n][k].index == i; }
        }
      }
    }
  }

  lemma {:induction false} ForIndexOfConcat(ds: seq<ToolDelta>, es: seq<ToolDelta>, i: int)
    ensures ForIndex(ds + es, i) == ForIndex(ds, i) + ForIndex(es, i)
  {
    if es == [] {
      assert ds + es == ds;
    } else {
      var n := |es| - 1;
      assert (ds + es)[..|ds| + n] == ds + es[..n];
      ForIndexOfConcat(ds, es[..n], i);
    }
  }

  /** Two arrival orders of the same fragments: each call's own fragments come in the same order. */
  ghost predicate SameFragments(ds: seq<ToolDelta>, es: seq<ToolDelta>) {
    forall i :: ForIndex(ds, i) == ForIndex(es, i)
  }

  /** The accumulator as a dictionary, which does not compare insertion order. */
  function Accumulator(ds: seq<ToolDelta>): map<int, Call> {
    map i | i in FirstSeen(ds) :: Assemble(ForIndex(ds, i))
  }

  /** However the calls' fragments are interleaved, the accumulator is the same. */
  lemma InterleavingIsIrrelevant(ds: seq<ToolDelta>, es: seq<ToolDelta>)
    requires SameFragments(ds, es)
    ensures Accumulator(ds) == Accumulator(es)
  {
    forall i ensures i in FirstSeen(ds) <==> i in FirstSeen(es) {
      assert ForIndex(ds, i) == ForIndex(es, i);
      UnseenHasNoFragments(ds, i);
      UnseenHasNoFragments(es, i);
    }
    forall i | i in FirstSeen(ds) ensures Accumulator(ds)[i] == Accumulator(es)[i] {
      assert ForIndex(ds, i) == ForIndex(es, i);
    }
  }

  /** For one thing, neighbours of different calls may change places. */
  lemma NeighboursMaySwap(before: seq<ToolDelta>, a: ToolDelta, b: ToolDelta, after: seq<ToolDelta>)
    requires a.index != b.index
    ensures SameFragments(before + [a, b] + after, before + [b, a] + after)
  {
    forall i ensures ForIndex(before + [a, b] + after, i) == ForIndex(before + [b, a] + after, i) {
      ForIndexOfConcat(before + [a, b], after, i);
      ForIndexOfConcat(before, [a, b], i);
      ForIndexOfConcat(before + [b, a], after, i);
      ForIndexOfConcat(before, [b, a], i);
      assert [a, b][..1] == [a] && [b, a][..1] == [b] && [a][..0] == [] && [b][..0] == [];
    }
  }

  function Arguments(fragments: seq<ToolDelta>): seq<string> {
    seq(|fragments|, k requires 0 <= k < |fragments| => fragments[k].arguments)
  }

  /** A call's arguments are its fragments' arguments, concatenated in arrival order. */
  lemma {:induction false} ArgumentsAreConcatenated(fragments: seq<ToolDelta>)
    ensures Assemble(fragments).arguments == Concat(Arguments(fragments))
  {
    if fragments != [] {
      var n := |fragments| - 1;
      ArgumentsAreConcatenated(fragments[..n]);
      assert Arguments(fragments)[..n] == Arguments(fragments[..n]);
    }
  }

  // ---- The stream read by position -------------------------------------------------------------

  /** Chunk i has the last finish reason of the stream. */
  predicate LastFinishAt(chunks: seq<Chunk>, i: nat) {
    && i < |chunks| && chunks[i].Delta? && chunks[i].finish != ""
    && forall j :: i < j < |chunks| && chunks[j].Delta? ==> chunks[j].finish == ""
  }

  lemma LastFinishOfLonger(front: seq<Chunk>, c: Chunk, i: nat)
    ensures LastFinishAt(front + [c], i) <==>
            if c.Delta? && c.finish != "" then i == |front| else LastFinishAt(front, i)
  {
    var chunks := front + [c];
    assert chunks[|front|] == c && forall j :: 0 <= j < |front| ==> chunks[j] == front[j];
  }

  lemma LastFinishIsThere(chunks: seq<Chunk>, i: nat)
    requires LastFinishAt(chunks, i)
    ensures i < |chunks| && chunks[i].Delta?
  {
  }

  /** The finish reason is the last one that is not empty; "" where every one is. */
  lemma {:induction false} FinishIsTheLastNonEmpty(chunks: seq<Chunk>)
    ensures FinishOf(chunks) != "" <==> exists i: nat :: LastFinishAt(chunks, i)
    ensures forall i: nat :: LastFinishAt(chunks, i) ==> chunks[i].finish == FinishOf(chunks)
  {
    if chunks != [] {
      var front, c := chunks[..|chunks| - 1], chunks[|chunks| - 1];
      FinishIsTheLastNonEmpty(front);
      assert chunks == front + [c];
      forall i: nat ensures LastFinishAt(chunks, i) <==>
                            if c.Delta? && c.finish != "" then i == |front| else LastFinishAt(front, i) {
        LastFinishOfLonger(front, c, i);
      }
      hide LastFinishAt;
      assert c.Delta? && c.finish != "" ==> LastFinishAt(chunks, |front|);
      forall i: nat | LastFinishAt(chunks, i) ensures chunks[i].finish == FinishOf(chunks) {
        LastFinishIsThere(chunks, i);
        if i < |front| { assert front[i] == chunks[i]; }
      }
    }
  }

  predicate HasFragment(chunks: seq<Chunk>) {
    exists i :: 0 <= i < |chunks| && chunks[i].Delta? && chunks[i].toolCalls != []
  }

  /** Some call is accumulated exactly if some chunk carries a fragment. */
  lemma {:induction false} CallsNeedFragments(chunks: seq<Chunk>)
    ensures Deltas(chunks) != [] <==> HasFragment(chunks)
    ensures Calls(chunks) != [] <==> HasFragment(chunks)
  {
    if chunks != [] {
      var n := |chunks| - 1;
      CallsNeedFragments(chunks[..n]);
      assert forall i :: 0 <= i < n ==> chunks[..n][i] == chunks[i];
    }
    FirstSeenIsExact(Deltas(chunks));
    var ds := Deltas(chunks);
    if ds != [] { assert ds[0].index in FirstSeen(ds); }
  }

  lemma {:induction false} TextsOfConcat(a: seq<Chunk>, b: seq<Chunk>)
    ensures Texts(a + b) == Texts(a) + Texts(b)
  {
    if b == [] {
      assert a + b == a;
    } else {
      var n := |b| - 1;
      assert (a + b)[..|a| + n] == a + b[..n] && (a + b)[|a| + n] == b[n];
      TextsOfConcat(a, b[..n]);
    }
  }

  lemma {:induction false} DeltasOfConcat(a: seq<Chunk>, b: seq<Chunk>)
    ensures Deltas(a + b) == Deltas(a) + Deltas(b)
  {
    if b == [] {
      assert a + b == a;
    } else {
      var n := |b| - 1;
      var last := if b[n].Delta? then b[n].toolCalls else [];
      assert (a + b)[..|a| + n] == a + b[..n] && (a + b)[|a| + n] == b[n];
      DeltasOfConcat(a, b[..n]);
      assert Deltas(a + b) == Deltas(a) + Deltas(b[..n]) + last;
    }
  }

  /** Text and fragments arrive piece by piece: those of a longer stream are those of its parts, one after the other. */
  lemma StreamsConcatenate(a: seq<Chunk>, b: seq<Chunk>)
    ensures Texts(a + b) == Texts(a) + Texts(b) && Deltas(a + b) == Deltas(a) + Deltas(b)
  {
    TextsOfConcat(a, b);
    DeltasOfConcat(a, b);
  }

  lemma OneChunk(c: Chunk)
    ensures Texts([c]) == if c.Delta? && c.content != "" then [c.content] else []
    ensures Deltas([c]) == if c.Delta? then c.toolCalls else []
  {
    assert [c][..0] == [];
  }

  /** An index that comes earlier in the order of the calls had a fragment before the other one's first. */
  lemma {:induction false} CallsAreInFirstSeenOrder(ds: seq<ToolDelta>, j: nat, k: nat)
    requires j < k < |FirstSeen(ds)|
    ensures exists p :: 0 <= p < |ds| && ds[p].index == FirstSeen(ds)[j] &&
              forall q :: 0 <= q <= p ==> ds[q].index != FirstSeen(ds)[k]
  {
    var n := |ds| - 1;
    var front := ds[..n];
    FirstSeenIsExact(front);
    FirstSeenIsExact(ds);
    assert forall q :: 0 <= q < n ==> front[q] == ds[q];
    if k < |FirstSeen(front)| {
      CallsAreInFirstSeenOrder(front, j, k);
      var p :| 0 <= p < |front| && front[p].index == FirstSeen(front)[j] &&
               forall q :: 0 <= q <= p ==> front[q].index != FirstSeen(front)[k];
      assert ds[p].index == FirstSeen(ds)[j];
    } else {
      var i := FirstSeen(front)[j];
      assert i in FirstSeen(front);
      var p :| 0 <= p < |front| && front[p].index == i;
      assert ds[p].index == FirstSeen(ds)[j];
      forall q | 0 <= q <= p ensures ds[q].index != FirstSeen(ds)[k] {
        assert front[q].index in FirstSeen(front);
      }
    }
  }

  /** The last fragment that gives a text, by position; `of` picks the text. */
  predicate LastGivenAt(fragments: seq<ToolDelta>, of: ToolDelta -> string, i: nat) {
    i < |fragments| && of(fragments[i]) != "" && forall j :: i < j < |fragments| ==> of(fragments[j]) == ""
  }

  function IdOf(): ToolDelta -> string {
    (d: ToolDelta) => d.id
  }

  function NameOf(): ToolDelta -> string {
    (d: ToolDelta) => d.name
  }

  lemma LastGivenOfLonger(front: seq<ToolDelta>, d: ToolDelta, of: ToolDelta -> string, i: nat)
    ensures LastGivenAt(front + [d], of, i) <==> if of(d) != "" then i == |front| else LastGivenAt(front, of, i)
  {
    var all := front + [d];
    assert all[|front|] == d && forall j :: 0 <= j < |front| ==> all[j] == front[j];
  }

  /** A call's id and name are the last that its fragments give, and empty where none gives any. */
  lemma {:induction false} IdAndNameAreTheLastGiven(fragments: seq<ToolDelta>)
    ensures var c := Assemble(fragments);
            && (forall i: nat :: LastGivenAt(fragments, IdOf(), i) ==> c.id == fragments[i].id)
            && (forall i: nat :: LastGivenAt(fragments, NameOf(), i) ==> c.name == fragments[i].name)
            && ((forall i :: 0 <= i < |fragments| ==> fragments[i].id == "") ==> c.id == "")
            && ((forall i :: 0 <= i < |fragments| ==> fragments[i].name == "") ==> c.name == "")
  {
    if fragments != [] {
      var n := |fragments| - 1;
      var front, d := fragments[..n], fragments[n];
      IdAndNameAreTheLastGiven(front);
      assert fragments == front + [d];
      forall i: nat | LastGivenAt(fragments, IdOf(), i) ensures Assemble(fragments).id == fragments[i].id {
        LastGivenOfLonger(front, d, IdOf(), i);
      }
      forall i: nat | LastGivenAt(fragments, NameOf(), i) ensures Assemble(fragments).name == fragments[i].name {
        LastGivenOfLonger(front, d, NameOf(), i);
      }
    }
  }
}
