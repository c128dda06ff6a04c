/** Batch embedding over a shared cache. The cache may lose or gain entries between any two awaits, and its
    reads and writes may fail silently. */
module Embeddings {
  import opened KeyStore
  import opened Text

  type Vector = seq<real>

  const MAX_CHARS: nat := 8000

  /** White space normalised, then cut to 8000 characters. */
  function Prepare(text: string): string {
    var joined := Normal(text);
    if |joined| > MAX_CHARS then joined[..MAX_CHARS] else joined
  }

  /** Preparing keeps every word and every character but the white space of a text whose normal form has at most 8000
      characters; of a longer one it keeps the first 8000 of the normal form. */
  lemma PrepareKeepsTheText(text: string)
    ensures |Normal(text)| <= 8000 ==>
              NonBlank(Prepare(text)) == NonBlank(text) && Words(Prepare(text), "") == Words(text, "")
    ensures |Normal(text)| > 8000 ==> |Prepare(text)| == 8000 && Prepare(text) <= Normal(text)
    ensures NonBlank(Normal(text)) == NonBlank(text)
  {
    NormalKeepsTheCharacters(text);
  }

  /** The model's vector for a text, and what goes into a cache key: lower-casing and hashing are arbitrary. */
  datatype Model = Model(embed: string -> Vector, lower: string -> string, hash: string -> string) {
    /** The key is made of the lower-cased normal text, the vector is not. */
    function Key(text: string): string {
      hash(lower(Normal(text)))
    }
  }

  // ---- The cache -------------------------------------------------------------------------------

  /** What happens to the cache: the service, in whatever process, stores the vector of a prepared text; or
      entries expire, are evicted or invalidated. */
  datatype CacheOp = Put(raw: string) | Evict(keys: set<string>)

  /** The entries after a history. */
  function CacheAfter(m: Model, history: seq<CacheOp>): map<string, Vector> {
    if history == [] then map[]
    else
      var front := CacheAfter(m, history[..|history| - 1]);
      match history[|history| - 1]
      case Put(raw) => front[m.Key(Prepare(raw)) := m.embed(Prepare(raw))]
      case Evict(keys) => front - keys
  }

  /** One probe: None where the cache is disabled or the read fails, otherwise the history it meets. */
  type Read = Option<seq<CacheOp>>

  function Answer(m: Model, text: string, read: Read): Option<Vector> {
    if read.Some? && m.Key(text) in CacheAfter(m, read.value)
    then Some(CacheAfter(m, read.value)[m.Key(text)]) else None
  }

  /** The vector belongs to some prepared text with the same cache key. */
  ghost predicate Serves(m: Model, text: string, v: Vector) {
    exists raw :: m.Key(Prepare(raw)) == m.Key(text) && m.embed(Prepare(raw)) == v
  }

  class EmbeddingCache {
    const model: Model
    const enabled: bool
    var entries: map<string, Vector>
    ghost var history: seq<CacheOp>

    constructor (model: Model, enabled: bool)
      ensures this.model == model && this.enabled == enabled && Valid() && history == []
    {
      this.model, this.enabled, entries, history := model, enabled, map[], [];
    }

    ghost predicate Valid()
      reads this
    {
      entries == CacheAfter(model, history)
    }

    method Store(ghost raw: string, text: string)
      requires Valid() && text == Prepare(raw)
      modifies this
      ensures Valid() && history == old(history) + [Put(raw)]
      ensures entries == old(entries)[model.Key(text) := model.embed(text)]
    {
      entries := entries[model.Key(text) := model.embed(text)];
      history := history + [Put(raw)];
      assert history[..|history| - 1] == old(history);
    }

    method Remove(keys: set<string>)
      requires Valid()
      modifies this
      ensures Valid() && history == old(history) + [Evict(keys)] && entries == old(entries) - keys
    {
      entries := entries - keys;
      history := history + [Evict(keys)];
      assert history[..|history| - 1] == old(history);
    }

    /** What expiry, eviction and other users of the service may do meanwhile. */
    method Interfere()
      requires Valid()
      modifies this
      ensures Valid() && old(history) <= history
    {
      var others: seq<string> := *;
      for i := 0 to |others|
        invariant Valid() && old(history) <= history
      {
        var evicted: set<string> := *;
        Remove(evicted);
        Store(others[i], Prepare(others[i]));
      }
      var evicted: set<string> := *;
      Remove(evicted);
    }

    /** A miss, a disabled cache and a failing read look alike. */
    method Get(text: string) returns (found: Option<Vector>, ghost read: Read)
      requires Valid()
      modifies this
      ensures Valid() && old(history) <= history
      ensures found == Answer(model, text, read)
      ensures if enabled then read.Some? ==> read.value == history else read == None
    {
      read := None;
      if !enabled { return None, None; }
      Interfere();
      var readFails: bool := *;
      if readFails { return None, None; }
      read := Some(history);
      var k := model.Key(text);
      found := if k in entries then Some(entries[k]) else None;
    }

    /** The entry may be gone again at once, and a failing write is swallowed; but nothing else gets in. */
    method Set(ghost raw: string, text: string, v: Vector)
      requires Valid() && text == Prepare(raw) && v == model.embed(text)
      modifies this
      ensures Valid() && old(history) <= history
      ensures !enabled ==> history == old(history)
    {
      if !enabled { return; }
      Interfere();
      var writeFails: bool := *;
      if !writeFails { Store(raw, text); }
    }
  }

  // ---- Batches ---------------------------------------------------------------------------------

  function PrepareAll(texts: seq<string>): seq<string> {
    seq(|texts|, i requires 0 <= i < |texts| => Prepare(texts[i]))
  }

  function Select(prepared: seq<string>, indices: seq<nat>): (r: seq<string>)
    requires forall k :: 0 <= k < |indices| ==> indices[k] < |prepared|
    ensures |r| == |indices|
  {
    seq(|indices|, k requires 0 <= k < |indices| => prepared[indices[k]])
  }

  function EmbedAll(m: Model, texts: seq<string>): (r: seq<Vector>)
    ensures |r| == |texts|
  {
    seq(|texts|, k requires 0 <= k < |texts| => m.embed(texts[k]))
  }

  function Flatten(chunks: seq<seq<string>>): seq<string> {
    if chunks == [] then [] else Flatten(chunks[..|chunks| - 1]) + chunks[|chunks| - 1]
  }

  /** Every call carries between 1 and `size` texts, and all but the last carry `size`. */
  ghost predicate Chunked(chunks: seq<seq<string>>, size: nat) {
    forall i :: 0 <= i < |chunks| ==> 0 < |chunks[i]| <= size && (i < |chunks| - 1 ==> |chunks[i]| == size)
  }

  ghost predicate AllFull(chunks: seq<seq<string>>, size: nat) {
    forall i :: 0 <= i < |chunks| ==> |chunks[i]| == size
  }

  lemma NothingSent(m: Model, size: nat)
    ensures EmbedAll(m, []) == [] && Flatten([]) == [] && Chunked([], size) && AllFull([], size)
  {
  }

  /** One more call behind full ones. */
  lemma ChunkSent(m: Model, calls: seq<seq<string>>, sent: seq<string>, chunk: seq<string>, size: nat)
    requires Flatten(calls) == sent && AllFull(calls, size) && 0 < |chunk| <= size
    ensures EmbedAll(m, sent + chunk) == EmbedAll(m, sent) + EmbedAll(m, chunk)
    ensures Flatten(calls + [chunk]) == sent + chunk && Chunked(calls + [chunk], size)
    ensures |chunk| == size ==> AllFull(calls + [chunk], size)
  {
    assert (calls + [chunk])[..|calls|] == calls;
  }

  /** The indices at which a probe found nothing. */
  function MissesOf(found: seq<Option<Vector>>): seq<nat> {
    if found == [] then []
    else
      var n := |found| - 1;
      MissesOf(found[..n]) + (if found[n] == None then [n] else [])
  }

  lemma {:induction false} MissesAreExact(found: seq<Option<Vector>>)
    ensures forall k :: 0 <= k < |MissesOf(found)| ==> MissesOf(found)[k] < |found|
    ensures forall j, k :: 0 <= j < k < |MissesOf(found)| ==> MissesOf(found)[j] < MissesOf(found)[k]
    ensures forall i :: i in MissesOf(found) <==> 0 <= i < |found| && found[i] == None
  {
    if found != [] {
      var n := |found| - 1;
      MissesAreExact(found[..n]);
      var front, all := MissesOf(found[..n]), MissesOf(found);
      forall i ensures i in all <==> 0 <= i < |found| && found[i] == None {
        assert i in all <==> i in front || (i == n && found[n] == None);
        assert 0 <= i < n ==> found[..n][i] == found[i];
      }
    }
  }

  /** The probes of one batch meet ever longer histories. */
  ghost predicate InOrder(probes: seq<Read>) {
    forall i, j :: 0 <= i < j < |probes| && probes[i].Some? && probes[j].Some? ==> probes[i].value <= probes[j].value
  }

  /** The probes meet what lies between two histories. */
  ghost predicate Between(before: seq<CacheOp>, probes: seq<Read>, after: seq<CacheOp>) {
    forall i :: 0 <= i < |probes| && probes[i].Some? ==> before <= probes[i].value <= after
  }

  lemma ProbedMore(before: seq<CacheOp>, probes: seq<Read>, history: seq<CacheOp>, read: Read)
    requires InOrder(probes) && Between(before, probes, history) && before <= history
    requires read.Some? ==> history <= read.value
    ensures InOrder(probes + [read])
    ensures forall after: seq<CacheOp> :: (if read.Some? then read.value else history) <= after
              ==> Between(before, probes + [read], after)
  {
  }

  /** What a text's probe answers, or else its own vector. */
  function VectorFor(m: Model, text: string, read: Read): Vector {
    if Answer(m, text, read).Some? then Answer(m, text, read).value else m.embed(text)
  }

  /** The result of a batch whose probes meet these histories. */
  function BatchOf(m: Model, texts: seq<string>, probes: seq<Read>): (r: seq<Vector>)
    requires |probes| == |texts|
    ensures |r| == |texts|
  {
    seq(|texts|, i requires 0 <= i < |texts| => VectorFor(m, Prepare(texts[i]), probes[i]))
  }

  // ---- The service -----------------------------------------------------------------------------

  /** A batch either raises, when a call to the model fails, or returns its vectors. */
  datatype Batch = Raised | Vectors(vectors: seq<Vector>)

  class EmbeddingService {
    const model: Model
    const cache: EmbeddingCache
    const batchSize: nat

    constructor (cache: EmbeddingCache, batchSize: nat)
      requires batchSize > 0
      ensures this.cache == cache && model == cache.model && this.batchSize == batchSize
    {
      this.model, this.cache, this.batchSize := cache.model, cache, batchSize;
    }

    ghost predicate Valid()
      reads this, cache
    {
      batchSize > 0 && cache.model == model && cache.Valid()
    }

    /** The reference: one text at a time. */
    method EmbedText(text: string) returns (v: Option<Vector>, ghost read: Read)
      requires Valid()
      modifies cache
      ensures Valid() && old(cache.history) <= cache.history
      ensures v.Some? ==> v.value == VectorFor(model, Prepare(text), read)
      ensures read.Some? ==> cache.enabled && old(cache.history) <= read.value <= cache.history
    {
      var prepared := Prepare(text);
      var cached;
      cached, read := cache.Get(prepared);
      if cached.Some? { return cached, read; }
      var callFails: bool := *;
      if callFails { return None, read; }
      var embedding := model.embed(prepared);
      cache.Set(text, prepared, embedding);
      v := Some(embedding);
    }

    /** Phase 1: probe the cache for each item. */
    method Probe(prepared: seq<string>, results: array<Option<Vector>>)
      returns (misses: seq<nat>, ghost probes: seq<Read>)
      requires Valid() && results.Length == |prepared|
      modifies cache, results
      ensures Valid() && old(cache.history) <= cache.history && misses == MissesOf(results[..])
      ensures |probes| == |prepared| && InOrder(probes) && Between(old(cache.history), probes, cache.history)
      ensures forall i :: 0 <= i < |prepared| ==> results[i] == Answer(model, prepared[i], probes[i])
      ensures !cache.enabled ==> forall i :: 0 <= i < |prepared| ==> probes[i] == None
    {
      misses, probes := [], [];
      hide CacheAfter;
      for i := 0 to |prepared|
        invariant Valid() && old(cache.history) <= cache.history && misses == MissesOf(results[..i])
        invariant |probes| == i && InOrder(probes) && Between(old(cache.history), probes, cache.history)
        invariant forall j :: 0 <= j < i ==> results[j] == Answer(model, prepared[j], probes[j])
        invariant !cache.enabled ==> forall j :: 0 <= j < i ==> probes[j] == None
      {
        ghost var before, history := results[..i], cache.history;
        var cached;
        ghost var read;
        cached, read := cache.Get(prepared[i]);
        results[i] := cached;
        assert results[..i + 1] == before + [cached];
        assert (before + [cached])[..i] == before;
        ProbedMore(old(cache.history), probes, history, read);
        if cached == None { misses := misses + [i]; }
        probes := probes + [read];
      }
      assert results[..|prepared|] == results[..];
    }

    /** Phase 2: send the misses in chunks. `calls` records what each call carried. */
    method Fetch(texts: seq<string>) returns (vectors: Option<seq<Vector>>, calls: seq<seq<string>>)
      requires Valid()
      ensures vectors.Some? ==> vectors.value == EmbedAll(model, texts)
      ensures vectors.Some? ==> Flatten(calls) == texts && Chunked(calls, batchSize)
    {
      hide EmbedAll, Flatten, Chunked;
      var done: seq<Vector> := [];
      calls := [];
      NothingSent(model, batchSize);
      var i := 0;
      while i < |texts|
        invariant 0 <= i
        invariant var sent := if i < |texts| then i else |texts|;
                  done == EmbedAll(model, texts[..sent]) && Flatten(calls) == texts[..sent]
        invariant Chunked(calls, batchSize)
        invariant i < |texts| ==> AllFull(calls, batchSize)
      {
        var end := if i + batchSize < |texts| then i + batchSize else |texts|;
        var chunk := texts[i..end];
        var callFails: bool := *;
        if callFails { return None, calls; }
        var response := EmbedAll(model, chunk);
        ChunkSent(model, calls, texts[..i], chunk, batchSize);
        assert texts[..i] + chunk == texts[..end];
        calls := calls + [chunk];
        done := done + response;
        i := i + batchSize;
      }
      assert texts[..|texts|] == texts;
      vectors := Some(done);
    }

    /** Phase 3: put each fetched vector back at its index, and store it. */
    method Merge(texts: seq<string>, prepared: seq<string>, misses: seq<nat>, vectors: seq<Vector>,
                 results: array<Option<Vector>>)
      requires Valid() && prepared == PrepareAll(texts) && results.Length == |prepared|
      requires forall k :: 0 <= k < |misses| ==> misses[k] < |prepared|
      requires forall j, k :: 0 <= j < k < |misses| ==> misses[j] < misses[k]
      requires vectors == EmbedAll(model, Select(prepared, misses))
      modifies cache, results
      ensures Valid() && old(cache.history) <= cache.history
      ensures forall i :: 0 <= i < |prepared| ==>
                if i in misses then results[i] == Some(model.embed(prepared[i])) else results[i] == old(results[i])
    {
      for pos := 0 to |misses|
        invariant Valid() && old(cache.history) <= cache.history
        invariant forall k :: 0 <= k < pos ==> results[misses[k]] == Some(model.embed(prepared[misses[k]]))
        invariant forall i :: 0 <= i < |prepared| && i !in misses[..pos] ==> results[i] == old(results[i])
      {
        var emb := vectors[pos];
        results[misses[pos]] := Some(emb);
        assert misses[..pos + 1] == misses[..pos] + [misses[pos]];
        cache.Set(texts[misses[pos]], prepared[misses[pos]], emb);
      }
      assert misses[..|misses|] == misses;
    }

    /** The batch is the plain per-text definition over what its probes met; the calls carry exactly the misses,
        in order, in full chunks but for the last. */
    method BatchEmbed(texts: seq<string>)
      returns (r: Batch, misses: seq<nat>, calls: seq<seq<string>>, ghost probes: seq<Read>)
      requires Valid()
      modifies cache
      ensures Valid() && old(cache.history) <= cache.history
      ensures |probes| == |texts| && InOrder(probes) && Between(old(cache.history), probes, cache.history)
      ensures r.Vectors? ==> r.vectors == BatchOf(model, texts, probes)
      ensures r.Vectors? ==>
                && (forall i :: 0 <= i < |texts| ==>
                    (i in misses <==> Answer(model, Prepare(texts[i]), probes[i]) == None))
                && (forall k :: 0 <= k < |misses| ==> misses[k] < |texts|)
                && (forall j, k :: 0 <= j < k < |misses| ==> misses[j] < misses[k])
                && Flatten(calls) == Select(PrepareAll(texts), misses) && Chunked(calls, batchSize)
      ensures !cache.enabled ==> forall i :: 0 <= i < |texts| ==> probes[i] == None
    {
      misses, calls, probes := [], [], [];
      if texts == [] { return Vectors([]), misses, calls, probes; }
      hide Flatten, Chunked, Between, CacheAfter, Select;
      var prepared := PrepareAll(texts);
      var results := new Option<Vector>[|prepared|](_ => None);
      misses, probes := Probe(prepared, results);
      MissesAreExact(results[..]);
      var fetched;
      fetched, calls := Fetch(Select(prepared, misses));
      if fetched == None { return Raised, misses, calls, probes; }
      Merge(texts, prepared, misses, fetched.value, results);
      var vectors := seq(|texts|, i requires 0 <= i < |texts| => []);
      for i := 0 to |texts|
        invariant |vectors| == |texts|
        invariant forall j :: 0 <= j < |texts| ==> results[j].Some?
        invariant forall j :: 0 <= j < i ==> vectors[j] == results[j].value
      {
        vectors := vectors[i := results[i].value];
      }
      r := Vectors(vectors);
      assert vectors == BatchOf(model, texts, probes);
    }
  }

  // ---- What a cache can serve ------------------------------------------------------------------

  /** Whatever happened to the cache, an entry is the vector of some prepared text with that key. */
  lemma {:induction false} EntriesAreServed(m: Model, history: seq<CacheOp>, text: string)
    requires m.Key(text) in CacheAfter(m, history)
    ensures Serves(m, text, CacheAfter(m, history)[m.Key(text)])
  {
    var last := history[|history| - 1];
    if last.Put? && m.Key(Prepare(last.raw)) == m.Key(text) {
      assert m.embed(Prepare(last.raw)) == CacheAfter(m, history)[m.Key(text)];
    } else {
      EntriesAreServed(m, history[..|history| - 1], text);
    }
  }

  /** A text can be given exactly the vectors of the prepared texts with its key: each of them by some history
      of the cache, and no other by any. */
  lemma ServedVectorsAreTheCachedOnes(m: Model, text: string, v: Vector)
    ensures Serves(m, text, v) <==> exists history :: Answer(m, text, Some(history)) == Some(v)
  {
    if Serves(m, text, v) {
      var raw :| m.Key(Prepare(raw)) == m.Key(text) && m.embed(Prepare(raw)) == v;
      assert [Put(raw)][..0] == [];
      assert Answer(m, text, Some([Put(raw)])) == Some(v);
    }
    if history :| Answer(m, text, Some(history)) == Some(v) {
      EntriesAreServed(m, history, text);
    }
  }

  /** Slot i of a batch is the vector of some prepared text with the key of the prepared input i. */
  lemma BatchServesItsTexts(m: Model, texts: seq<string>, probes: seq<Read>, i: nat)
    requires |probes| == |texts| && i < |texts|
    ensures Serves(m, Prepare(texts[i]), BatchOf(m, texts, probes)[i])
  {
    var text := Prepare(texts[i]);
    if Answer(m, text, probes[i]).Some? {
      EntriesAreServed(m, probes[i].value, text);
    } else {
      assert m.Key(text) == m.Key(Prepare(texts[i])) && m.embed(Prepare(texts[i])) == BatchOf(m, texts, probes)[i];
    }
  }

  // ---- When a batch is exactly the per-text map ------------------------------------------------

  /** No two prepared texts share a key and differ in their vectors. */
  ghost predicate KeysSeparate(m: Model) {
    forall x, y :: m.Key(Prepare(x)) == m.Key(Prepare(y)) ==> m.embed(Prepare(x)) == m.embed(Prepare(y))
  }

  ghost predicate IsThePerTextMap(m: Model, texts: seq<string>, probes: seq<Read>) {
    |probes| == |texts| && InOrder(probes) ==> BatchOf(m, texts, probes) == EmbedAll(m, PrepareAll(texts))
  }

  lemma SeparateKeysServeTheOwnVector(m: Model, texts: seq<string>, probes: seq<Read>)
    requires KeysSeparate(m) && |probes| == |texts|
    ensures BatchOf(m, texts, probes) == EmbedAll(m, PrepareAll(texts))
  {
    forall i: nat | i < |texts| ensures BatchOf(m, texts, probes)[i] == m.embed(Prepare(texts[i])) {
      BatchServesItsTexts(m, texts, probes, i);
    }
    assert forall i :: 0 <= i < |texts| ==> EmbedAll(m, PrepareAll(texts))[i] == m.embed(Prepare(texts[i]));
  }

  /** Once x has been embedded, a batch of y alone gets x's vector if the two share a key. */
  lemma CollidingTextIsServed(m: Model, x: string, y: string)
    requires m.Key(Prepare(x)) == m.Key(Prepare(y))
    ensures BatchOf(m, [y], [Some([Put(x)])]) == [m.embed(Prepare(x))]
  {
    assert [Put(x)][..0] == [];
    assert CacheAfter(m, [Put(x)]) == map[m.Key(Prepare(x)) := m.embed(Prepare(x))];
    assert Answer(m, Prepare(y), Some([Put(x)])) == Some(m.embed(Prepare(x)));
  }

  /** Every run of a batch, whatever happened and happens to the cache, returns the per-text map if and only if
      no two prepared texts share a key and differ in their vectors. A run that does not is one that meets the
      colliding text in the cache. */
  lemma BatchIsThePerTextMapExactlyIfKeysSeparate(m: Model)
    ensures (forall texts, probes :: IsThePerTextMap(m, texts, probes)) <==> KeysSeparate(m)
  {
    if KeysSeparate(m) {
      forall texts, probes ensures IsThePerTextMap(m, texts, probes) {
        if |probes| == |texts| { SeparateKeysServeTheOwnVector(m, texts, probes); }
      }
    }
    if forall texts, probes :: IsThePerTextMap(m, texts, probes) {
      forall x, y | m.Key(Prepare(x)) == m.Key(Prepare(y)) ensures m.embed(Prepare(x)) == m.embed(Prepare(y)) {
        CollidingTextIsServed(m, x, y);
        assert IsThePerTextMap(m, [y], [Some([Put(x)])]);
        assert EmbedAll(m, PrepareAll([y]))[0] == m.embed(Prepare(y));
      }
    }
  }

  lemma NormalOfPrepared(x: string)
    ensures Normal(Prepare(x)) == Uncut(Prepare(x))
    ensures Prepare(Uncut(Prepare(x))) == Uncut(Prepare(x))
  {
    var n := if |Normal(x)| > MAX_CHARS then MAX_CHARS else |Normal(x)|;
    assert Prepare(x) == Normal(x)[..n];
    NormalOfCut(x, n);
    var uncut := Uncut(Prepare(x));
    NormalOfCut(Prepare(x), 0);
    assert Normal(uncut) == uncut;
  }

  /** The key of a prepared text folds case and, where the cut at 8000 characters fell after a blank, that
      blank; with a hash that keeps texts apart it folds nothing else. */
  lemma KeysFoldCaseAndTheCut(m: Model, x: string, y: string)
    requires forall a, b :: m.hash(a) == m.hash(b) ==> a == b
    ensures m.Key(Prepare(x)) == m.Key(Prepare(y)) <==> m.lower(Uncut(Prepare(x))) == m.lower(Uncut(Prepare(y)))
  {
    NormalOfPrepared(x);
    NormalOfPrepared(y);
  }

  /** Whatever lower-casing and hashing do: a text cut right after a blank shares its key with the text one
      character shorter, which is a prepared text of its own. */
  lemma ACutAfterABlankCollides(m: Model, x: string)
    requires Uncut(Prepare(x)) != Prepare(x)
    ensures Prepare(Uncut(Prepare(x))) == Uncut(Prepare(x)) && m.Key(Uncut(Prepare(x))) == m.Key(Prepare(x))
  {
    NormalOfPrepared(x);
    NormalOfCut(Prepare(x), 0);
  }
}
