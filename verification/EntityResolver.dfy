/** Linking signals to entities: two matching layers feed one table of scored links by upsert. */
module EntityResolver {
  import opened KeyStore

  datatype Match = Match(entity: string, score: real)

  datatype Link = Link(signal: string, entity: string, score: real)

  /** One call of resolve_signal, with what its two layers find; a layer that does not run finds nothing. */
  datatype Call = Call(signal: string, semantic: seq<Match>, fuzzy: seq<Match>)

  // ---- Reference: the best score ---------------------------------------------------------------

  function Max(a: Option<real>, b: Option<real>): Option<real> {
    if a.None? then b else if b.None? then a else if a.value >= b.value then a else b
  }

  /** The greatest score of an entity in a list of matches. */
  function Best(matches: seq<Match>, entity: string): Option<real> {
    if matches == [] then None
    else
      var front, m := Best(matches[..|matches| - 1], entity), matches[|matches| - 1];
      if m.entity != entity then front else Max(front, Some(m.score))
  }

  /** The best score that reaches the threshold. */
  function Passing(score: Option<real>, threshold: real): Option<real> {
    if score.Some? && score.value >= threshold then score else None
  }

  /** What one call finds for a pair, and the best of a history of calls. */
  function Found(c: Call, threshold: real, signal: string, entity: string): Option<real> {
    if c.signal == signal then Passing(Max(Best(c.semantic, entity), Best(c.fuzzy, entity)), threshold) else None
  }

  function BestOf(calls: seq<Call>, threshold: real, signal: string, entity: string): Option<real> {
    if calls == [] then None
    else Max(BestOf(calls[..|calls| - 1], threshold, signal, entity),
             Found(calls[|calls| - 1], threshold, signal, entity))
  }

  // ---- The table -------------------------------------------------------------------------------

  /** At most one row per pair. */
  ghost predicate Unique(links: seq<Link>) {
    forall i, j :: 0 <= i < j < |links| ==> links[i].signal != links[j].signal || links[i].entity != links[j].entity
  }

  /** The score a table gives a pair. */
  function Score(links: seq<Link>, signal: string, entity: string): Option<real> {
    if links == [] then None
    else if links[0].signal == signal && links[0].entity == entity then Some(links[0].score)
    else Score(links[1..], signal, entity)
  }

  lemma {:induction false} ScoreOfRow(links: seq<Link>, i: nat)
    requires i < |links| && Unique(links)
    ensures Score(links, links[i].signal, links[i].entity) == Some(links[i].score)
  {
    if i > 0 { ScoreOfRow(links[1..], i - 1); }
  }

  lemma {:induction false} ScoreOfAbsent(links: seq<Link>, signal: string, entity: string)
    requires forall i :: 0 <= i < |links| ==> links[i].signal != signal || links[i].entity != entity
    ensures Score(links, signal, entity) == None
  {
    if links != [] { ScoreOfAbsent(links[1..], signal, entity); }
  }

  lemma {:induction false} ScoreAfterAppend(links: seq<Link>, row: Link, signal: string, entity: string)
    ensures Score(links + [row], signal, entity) ==
            if Score(links, signal, entity).Some? then Score(links, signal, entity)
            else if row.signal == signal && row.entity == entity then Some(row.score) else None
  {
    if links == [] {
      assert links + [row] == [row];
    } else {
      assert (links + [row])[1..] == links[1..] + [row];
      ScoreAfterAppend(links[1..], row, signal, entity);
    }
  }

  lemma {:induction false} ScoreAfterUpdate(links: seq<Link>, i: nat, score: real, signal: string, entity: string)
    requires i < |links| && Unique(links)
    ensures Score(links[i := links[i].(score := score)], signal, entity) ==
            if links[i].signal == signal && links[i].entity == entity then Some(score) else Score(links, signal, entity)
  {
    var links' := links[i := links[i].(score := score)];
    if i == 0 {
      assert links'[1..] == links[1..];
      if links[0].signal == signal && links[0].entity == entity {
      }
    } else {
      assert links'[1..] == links[1..][i - 1 := links[1..][i - 1].(score := score)];
      ScoreAfterUpdate(links[1..], i - 1, score, signal, entity);
    }
  }

  /** The links of one signal with exactly these entities. */
  ghost predicate Reports(results: seq<Link>, signal: string, entities: set<string>) {
    && (forall k :: 0 <= k < |results| ==> results[k].signal == signal && results[k].entity in entities)
    && (forall e :: e in entities ==> exists k :: 0 <= k < |results| && results[k].entity == e)
  }

  lemma ReportsOneMore(results: seq<Link>, link: Link, entities: set<string>)
    requires Reports(results, link.signal, entities)
    ensures Reports(results + [link], link.signal, entities + {link.entity})
  {
    var longer := results + [link];
    forall e | e in entities + {link.entity} ensures exists k :: 0 <= k < |longer| && longer[k].entity == e {
      if e == link.entity {
        assert longer[|results|].entity == e;
      } else {
        var k :| 0 <= k < |results| && results[k].entity == e;
        assert longer[k].entity == e;
      }
    }
  }

  class Resolver {
    const threshold: real
    var links: seq<Link>

    constructor (threshold: real)
      ensures this.threshold == threshold && links == []
    {
      this.threshold, links := threshold, [];
    }

    /** Collect one layer's matches into the best score per entity. */
    method Collect(matches: map<string, real>, layer: seq<Match>) returns (r: map<string, real>)
      ensures forall e :: (if e in r then Some(r[e]) else None)
                          == Max(if e in matches then Some(matches[e]) else None, Best(layer, e))
    {
      r := matches;
      for k := 0 to |layer|
        invariant forall e :: (if e in r then Some(r[e]) else None)
                              == Max(if e in matches then Some(matches[e]) else None, Best(layer[..k], e))
      {
        assert layer[..k + 1][..k] == layer[..k];
        var m := layer[k];
        if m.entity !in r || m.score > r[m.entity] { r := r[m.entity := m.score]; }
      }
      assert layer[..|layer|] == layer;
    }

    /** Create the link, or raise its score; a lower score changes nothing. */
    method UpsertLink(signal: string, entity: string, score: real) returns (link: Link)
      requires Unique(links)
      modifies this
      ensures Unique(links)
      ensures forall s, e :: Score(links, s, e) ==
                if s == signal && e == entity then Max(old(Score(links, s, e)), Some(score))
                    else old(Score(links, s, e))
      ensures link.signal == signal && link.entity == entity && Score(links, signal, entity) == Some(link.score)
    {
      var i := 0;
      while i < |links| && !(links[i].signal == signal && links[i].entity == entity)
        invariant i <= |links|
        invariant forall j :: 0 <= j < i ==> links[j].signal != signal || links[j].entity != entity
      {
        i := i + 1;
      }
      ghost var before := links;
      if i < |links| {
        ScoreOfRow(links, i);
        if score > links[i].score {
          forall s, e { ScoreAfterUpdate(before, i, score, s, e); }
          links := links[i := links[i].(score := score)];
        }
        link := links[i];
      } else {
        link := Link(signal, entity, score);
        ScoreOfAbsent(links, signal, entity);
        forall s, e { ScoreAfterAppend(before, link, s, e); }
        links := links + [link];
      }
    }

    /** Every pair's score becomes the greater of what it was and what this call finds. */
    method ResolveSignal(c: Call) returns (results: seq<Link>)
      requires Unique(links)
      modifies this
      ensures Unique(links)
      ensures forall s, e :: Score(links, s, e) == Max(old(Score(links, s, e)), Found(c, threshold, s, e))
      ensures forall k :: 0 <= k < |results| ==>
              results[k].signal == c.signal && Found(c, threshold, c.signal, results[k].entity).Some?
      ensures forall e :: Found(c, threshold, c.signal, e).Some? ==>
              exists k :: 0 <= k < |results| && results[k].entity == e
    {
      var matches := Collect(map[], c.semantic);
      matches := Collect(matches, c.fuzzy);
      results := [];
      var filtered := map e | e in matches && matches[e] >= threshold :: matches[e];
      assert forall e :: Found(c, threshold, c.signal, e) == if e in filtered then Some(filtered[e]) else None;
      hide Best, Found, Score;
      var todo := filtered.Keys;
      assert filtered.Keys - todo == {};
      while todo != {}
        invariant Unique(links) && todo <= filtered.Keys
        invariant forall s, e :: Score(links, s, e) ==
                    if s == c.signal && e in filtered && e !in todo then Max(old(Score(links, s, e)), Some(filtered[e]))
                    else old(Score(links, s, e))
        invariant Reports(results, c.signal, filtered.Keys - todo)
        decreases todo
      {
        var e :| e in todo;
        ghost var done := filtered.Keys - todo;
        todo := todo - {e};
        var link := UpsertLink(c.signal, e, filtered[e]);
        ReportsOneMore(results, link, done);
        assert filtered.Keys - todo == done + {e};
        results := results + [link];
      }
      assert filtered.Keys - todo == filtered.Keys;
    }

    /** A run of calls, whatever the table holds before. */
    method ResolveAll(calls: seq<Call>)
      requires Unique(links)
      modifies this
      ensures Unique(links)
      ensures forall s, e :: Score(links, s, e) == Max(old(Score(links, s, e)), BestOf(calls, threshold, s, e))
    {
      hide Score, Found;
      for k := 0 to |calls|
        invariant Unique(links)
        invariant forall s, e :: Score(links, s, e) == Max(old(Score(links, s, e)), BestOf(calls[..k], threshold, s, e))
      {
        assert calls[..k + 1][..k] == calls[..k];
        var _ := ResolveSignal(calls[k]);
      }
      assert calls[..|calls|] == calls;
    }
  }

  // ---- Over a history of calls -----------------------------------------------------------------

  /** `score` is found for the pair by one of the calls, in one of the layers, at or above the threshold. */
  ghost predicate Occurs(calls: seq<Call>, threshold: real, signal: string, entity: string, score: real) {
    score >= threshold &&
    exists i :: 0 <= i < |calls| && calls[i].signal == signal &&
                (Match(entity, score) in calls[i].semantic || Match(entity, score) in calls[i].fuzzy)
  }

  lemma {:induction false} BestIsTheMaximum(matches: seq<Match>, entity: string)
    ensures Best(matches, entity).Some? ==> Match(entity, Best(matches, entity).value) in matches
    ensures forall s :: Match(entity, s) in matches ==> Best(matches, entity).Some? && s <= Best(matches, entity).value
  {
    if matches != [] {
      var front := matches[..|matches| - 1];
      BestIsTheMaximum(front, entity);
      assert matches == front + [matches[|matches| - 1]];
    }
  }

  lemma FoundIsTheMaximum(c: Call, threshold: real, signal: string, entity: string)
    ensures var f := Found(c, threshold, signal, entity);
            && (f.Some? ==> Occurs([c], threshold, signal, entity, f.value))
            && forall s :: Occurs([c], threshold, signal, entity, s) ==> f.Some? && s <= f.value
  {
    BestIsTheMaximum(c.semantic, entity);
    BestIsTheMaximum(c.fuzzy, entity);
    assert [c][0] == c;
  }

  lemma OccursInSnoc(front: seq<Call>, c: Call, threshold: real, signal: string, entity: string, s: real)
    ensures Occurs(front + [c], threshold, signal, entity, s) <==>
            Occurs(front, threshold, signal, entity, s) || Occurs([c], threshold, signal, entity, s)
  {
    var calls := front + [c];
    assert calls[|front|] == c && [c][0] == c;
    assert forall i :: 0 <= i < |front| ==> calls[i] == front[i];
  }

  /** A link's score is the maximum of everything ever found for the pair that reached the threshold. */
  lemma {:induction false} BestOfIsTheMaximum(calls: seq<Call>, threshold: real, signal: string, entity: string)
    ensures var b := BestOf(calls, threshold, signal, entity);
            && (b.Some? ==> Occurs(calls, threshold, signal, entity, b.value))
            && forall s :: Occurs(calls, threshold, signal, entity, s) ==> b.Some? && s <= b.value
  {
    if calls != [] {
      var n := |calls| - 1;
      var front, c := calls[..n], calls[n];
      BestOfIsTheMaximum(front, threshold, signal, entity);
      FoundIsTheMaximum(c, threshold, signal, entity);
      forall s ensures Occurs(calls, threshold, signal, entity, s) <==>
                       Occurs(front, threshold, signal, entity, s) || Occurs([c], threshold, signal, entity, s)
      {
        OccursInSnoc(front, c, threshold, signal, entity, s);
        assert front + [c] == calls;
      }
    }
  }

  /** The order of the layers does not matter, scores never fall, and repeating a call changes nothing. */
  lemma HistoryIsMonotoneAndIdempotent(calls: seq<Call>, c: Call, threshold: real, signal: string, entity: string)
    ensures BestOf(calls + [c.(semantic := c.fuzzy, fuzzy := c.semantic)], threshold, signal, entity)
            == BestOf(calls + [c], threshold, signal, entity)
    ensures var b := BestOf(calls, threshold, signal, entity);
            b.Some? ==> BestOf(calls + [c], threshold, signal, entity).Some? &&
                        b.value <= BestOf(calls + [c], threshold, signal, entity).value
    ensures BestOf(calls + [c, c], threshold, signal, entity) == BestOf(calls + [c], threshold, signal, entity)
  {
    var swapped := c.(semantic := c.fuzzy, fuzzy := c.semantic);
    assert (calls + [c])[..|calls|] == calls && (calls + [swapped])[..|calls|] == calls;
    assert (calls + [c, c])[..|calls| + 1] == calls + [c];
  }
}
