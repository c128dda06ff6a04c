/** What is done to a model's brief before it is stored: normalise it, then give every claim and every piece of
    evidence references to the signals it was written from. */
module BriefCoercion {
  import opened KeyStore
  import opened Text
  import opened BriefJson
  import opened BriefSchema
  import opened BriefProperties

  // ---------- the signal catalogue ----------

  /** One signal as the prompt and the references name it. */
  datatype Entry = Entry(signalId: string, signalRef: Json, sourceRef: Json, title: Json, summary: Json,
                         sourceName: string, sourceUrl: Json, publishedAt: Json, confidencePct: int)

  /** Library functions: Python's `str` of what is not a string, and the network location of a URL. */
  datatype Library = Library(show: Json -> string, netloc: string -> string)

  /** Python's `round`: to the nearest integer, halves to the even one. */
  function Round(x: real): (r: int)
    ensures -0.5 <= x - r as real <= 0.5
    ensures x - r as real == 0.5 || x - r as real == -0.5 ==> r % 2 == 0
  {
    var f := x.Floor;
    if x - f as real < 0.5 then f
    else if x - f as real > 0.5 then f + 1
    else if f % 2 == 0 then f else f + 1
  }

  function Percentage(confidence: Json): int {
    if !Numeric(confidence) then 0
    else if Number(confidence) <= 1.0 then Round(Number(confidence) * 100.0)
    else Round(Number(confidence))
  }

  /** Python's `str` of the identifier, "" where the signal has none. */
  function IdOf(signal: Dict, lib: Library): string {
    if Id !in signal then "" else if signal[Id].Str? then signal[Id].text else lib.show(signal[Id])
  }

  function SrcRef(index: nat): (r: Json)
    ensures Neat(r)
  {
    Str("SRC-" + Decimal(index + 1))
  }

  /** The host of the signal's URL, "" for none. */
  function HostOf(signal: Dict, lib: Library): (r: string)
    ensures Trimmed(r)
  {
    var url := Get(signal, SourceUrl);
    if AsStr(url) != Null then Strip(Without(lib.netloc(url.text), "www.")) else ""
  }

  /** The host of the signal's URL, or else its title, or else its number: never blank. */
  function SourceName(signal: Dict, index: nat, lib: Library): (r: string)
    ensures Neat(Str(r))
    ensures HostOf(signal, lib) != "" ==> r == HostOf(signal, lib)
    ensures HostOf(signal, lib) == "" && AsStr(Get(signal, Title)) != Null ==> Str(r) == AsStr(Get(signal, Title))
  {
    if HostOf(signal, lib) != "" then HostOf(signal, lib)
    else if AsStr(Get(signal, Title)) != Null then AsStr(Get(signal, Title)).text
    else "Source " + Decimal(index + 1)
  }

  /** Signals with neither a host nor a title are told apart by their positions. */
  lemma NamelessSourcesDiffer(s: Dict, i: nat, t: Dict, j: nat, lib: Library)
    requires HostOf(s, lib) == "" && AsStr(Get(s, Title)) == Null
    requires HostOf(t, lib) == "" && AsStr(Get(t, Title)) == Null
    ensures SourceName(s, i, lib) == SourceName(t, j, lib) <==> i == j
  {
    if SourceName(s, i, lib) == SourceName(t, j, lib) {
      assert Decimal(i + 1) == SourceName(s, i, lib)[|"Source "|..] == Decimal(j + 1);
      DecimalsDiffer(i + 1, j + 1);
    }
  }

  function EntryOf(signal: Dict, index: nat, lib: Library): (e: Entry)
    ensures Neat(e.signalRef) && Neat(e.sourceRef)
  {
    Entry(IdOf(signal, lib), SigRef(index), SrcRef(index),
          Or(Get(signal, Title), Str("Signal " + Decimal(index + 1))), Or(Get(signal, Summary), Str("")),
          SourceName(signal, index, lib), Or(Get(signal, SourceUrl), Str("")), Or(Get(signal, PublishedAt), Str("")),
          Percentage(Get(signal, Confidence)))
  }

  function Catalog(signals: seq<Dict>, lib: Library): (r: seq<Entry>)
    ensures |r| == |signals|
    ensures forall k :: 0 <= k < |r| ==> r[k] == EntryOf(signals[k], k, lib)
  {
    seq(|signals|, k requires 0 <= k < |signals| => EntryOf(signals[k], k, lib))
  }

  method BuildSignalCatalog(signals: seq<Dict>, lib: Library) returns (catalog: seq<Entry>)
    ensures catalog == Catalog(signals, lib)
  {
    hide EntryOf;
    catalog := [];
    for index := 0 to |signals|
      invariant catalog == Catalog(signals, lib)[..index]
    {
      catalog := catalog + [EntryOf(signals[index], index, lib)];
    }
  }

  /** The catalogue by signal reference. */
  function ByRef(catalog: seq<Entry>): (m: map<Json, Entry>)
    ensures forall r :: r in m ==> m[r] in catalog
  {
    if catalog == [] then map[]
    else
      var last := catalog[|catalog| - 1];
      ByRef(catalog[..|catalog| - 1])[last.signalRef := last]
  }

  // ---------- backfilling ----------

  // The items are those of a normalised brief, which have the members below and no others.

  function FallbackAt(index: nat, catalog: seq<Entry>): Option<Entry> {
    if index < |catalog| then Some(catalog[index]) else None
  }

  function RefOf(item: Json, index: nat, catalog: seq<Entry>): Json {
    Or(At(item, SignalRef), if index < |catalog| then catalog[index].signalRef else SigRef(index))
  }

  function SourcesOf(item: Json, index: nat, catalog: seq<Entry>): Json {
    var given := Or(At(item, SourceRefs), Arr([]));
    if !Truthy(given) && index < |catalog| then Arr([catalog[index].sourceRef]) else given
  }

  /** The signal that the evidence names, or else the one at its position. */
  function MatchedEntry(ref: Json, index: nat, catalog: seq<Entry>): Option<Entry> {
    if ref in ByRef(catalog) then Some(ByRef(catalog)[ref]) else FallbackAt(index, catalog)
  }

  function ConfidenceFrom(given: Json, matched: Option<Entry>, avgConfidence: int): Json {
    if Numeric(given) || matched.None? then given
    else if matched.value.confidencePct != 0 then Float(matched.value.confidencePct as real / 100.0)
    else Float(avgConfidence as real / 100.0)
  }

  /** One piece of evidence, with what it lacks taken from the catalogue. */
  function BackfilledEvidence(item: Json, index: nat, catalog: seq<Entry>, avgConfidence: int): Json {
    var ref := RefOf(item, index, catalog);
    var matched := MatchedEntry(ref, index, catalog);
    var title := Or(At(item, SignalTitle), if matched.Some? then matched.value.title else ref);
    EvidenceJson(ref, title, ConfidenceFrom(At(item, Confidence), matched, avgConfidence), At(item, Contribution),
                 SourcesOf(item, index, catalog))
  }

  function AllEvidence(items: seq<Json>, catalog: seq<Entry>, avgConfidence: int): (r: seq<Json>)
    ensures |r| == |items|
    ensures forall k :: 0 <= k < |r| ==> r[k] == BackfilledEvidence(items[k], k, catalog, avgConfidence)
  {
    seq(|items|, k requires 0 <= k < |items| => BackfilledEvidence(items[k], k, catalog, avgConfidence))
  }

  /** What a claim may borrow at its position: the references of the evidence there, or else of the signal. */
  datatype Lender = NoLender | Lender(signalRef: Json, sourceRefs: Json)

  function LenderAt(index: nat, evidence: seq<Json>, catalog: seq<Entry>): Lender {
    if index < |evidence| then Lender(At(evidence[index], SignalRef), At(evidence[index], SourceRefs))
    else if index < |catalog| then Lender(catalog[index].signalRef, Arr([catalog[index].sourceRef]))
    else NoLender
  }

  /** One claim, with what it lacks borrowed at its position. */
  function BackfilledClaim(claim: Json, index: nat, evidence: seq<Json>, catalog: seq<Entry>): Json {
    var lender := LenderAt(index, evidence, catalog);
    var signals := Or(At(claim, SignalRefs), Arr([]));
    var signalRefs :=
      if Truthy(signals) || lender.NoLender? then signals
      else Arr([if Truthy(lender.signalRef) then lender.signalRef else SigRef(index)]);
    var sources := Or(At(claim, SourceRefs), Arr([]));
    var sourceRefs :=
      if Truthy(sources) || lender.NoLender? || !Truthy(lender.sourceRefs) then sources else lender.sourceRefs;
    var note :=
      if Truthy(At(claim, EvidenceNote)) || index >= |evidence| then At(claim, EvidenceNote)
      else At(evidence[index], Contribution);
    ClaimJson(At(claim, ClaimText), signalRefs, sourceRefs, note)
  }

  function AllClaims(claims: seq<Json>, evidence: seq<Json>, catalog: seq<Entry>): (r: seq<Json>)
    ensures |r| == |claims|
    ensures forall k :: 0 <= k < |r| ==> r[k] == BackfilledClaim(claims[k], k, evidence, catalog)
  {
    seq(|claims|, k requires 0 <= k < |claims| => BackfilledClaim(claims[k], k, evidence, catalog))
  }

  function TruthyTexts(claims: seq<Json>): seq<Json> {
    if claims == [] then []
    else (if Truthy(At(claims[0], ClaimText)) then [At(claims[0], ClaimText)] else []) + TruthyTexts(claims[1..])
  }

  function NonEmptyIds(catalog: seq<Entry>): seq<string> {
    if catalog == [] then []
    else (if catalog[0].signalId != "" then [catalog[0].signalId] else []) + NonEmptyIds(catalog[1..])
  }

  /** The brief that is stored, with the three members that only coercion adds. */
  datatype Coerced = Coerced(brief: Brief, title: Json, confidence: int, signalIds: seq<string>)

  /** What the model's answer passes to normalisation beside itself. */
  function ArgumentsFor(topic: Json, result: Dict, avgConfidence: int): Arguments {
    Arguments(
      topic,
      if Get(result, ExecutiveSummary).Obj? then At(Get(result, ExecutiveSummary), BottomLine)
      else Or(Get(result, Bluf), Get(result, Summary)),
      Get(result, Domain),
      if Confidence in result then result[Confidence] else Int(avgConfidence),
      Get(result, Outlook),
      Get(result, DecisionLens))
  }

  /** The normalised brief with its evidence and its claims backfilled. */
  function Backfilled(b: Brief, catalog: seq<Entry>, avgConfidence: int): Brief {
    var evidence := AllEvidence(EvidenceIn(b), catalog, avgConfidence);
    var claims := AllClaims(InsightsOf(b), evidence, catalog);
    b.(signals := b.signals[SignalEvidence := Arr(evidence)],
       summary := b.summary[Insights := Arr(claims)],
       keySignals := if Truthy(b.keySignals) then b.keySignals else Arr(TruthyTexts(Between(claims, 0, 3))))
  }

  function Coerce(topic: Json, result: Dict, signals: seq<Dict>, avgConfidence: int, lib: Library): Outcome<Coerced> {
    var normalized := Normalize(result, ArgumentsFor(topic, result, avgConfidence));
    var catalog := Catalog(signals, lib);
    if normalized.Raised? then Raised
    else Returned(Coerced(
      Backfilled(normalized.value, catalog, avgConfidence), Or(Get(result, Title), topic), avgConfidence,
      NonEmptyIds(catalog)))
  }

  method CoerceCanonicalBriefResult(topic: Json, result: Dict, signals: seq<Dict>, avgConfidence: int, lib: Library)
    returns (r: Outcome<Coerced>)
    ensures r == Coerce(topic, result, signals, avgConfidence, lib)
  {
    hide Normalize, BackfilledEvidence, BackfilledClaim;
    var catalog := BuildSignalCatalog(signals, lib);
    var normalized := NormalizeBriefBody(Some(result), ArgumentsFor(topic, result, avgConfidence));
    if normalized.Raised? { return Raised; }
    var brief := normalized.value;

    ghost var items := EvidenceIn(brief);
    var evidence := EvidenceIn(brief);
    for index := 0 to |evidence|
      invariant |evidence| == |items|
      invariant evidence[..index] == AllEvidence(items, catalog, avgConfidence)[..index]
      invariant evidence[index..] == items[index..]
    {
      assert evidence[index] == items[index];
      evidence := evidence[index := BackfilledEvidence(evidence[index], index, catalog, avgConfidence)];
    }

    ghost var insights := InsightsOf(brief);
    var claims := InsightsOf(brief);
    for index := 0 to |claims|
      invariant |claims| == |insights|
      invariant claims[..index] == AllClaims(insights, evidence, catalog)[..index]
      invariant claims[index..] == insights[index..]
    {
      assert claims[index] == insights[index];
      claims := claims[index := BackfilledClaim(claims[index], index, evidence, catalog)];
    }
    assert evidence == AllEvidence(items, catalog, avgConfidence) && claims == AllClaims(insights, evidence, catalog);

    brief := brief.(signals := brief.signals[SignalEvidence := Arr(evidence)]);
    brief := brief.(summary := brief.summary[Insights := Arr(claims)]);
    if !Truthy(brief.keySignals) {
      brief := brief.(keySignals := Arr(TruthyTexts(Between(claims, 0, 3))));
    }
    return Returned(Coerced(brief, Or(Get(result, Title), topic), avgConfidence, NonEmptyIds(catalog)));
  }

  // ---------- properties ----------

  lemma SigRefsDiffer(i: nat, j: nat)
    requires SigRef(i) == SigRef(j)
    ensures i == j
  {
    hide Decimal;
    assert SigRef(i).text[4..] == Decimal(i + 1) && SigRef(j).text[4..] == Decimal(j + 1);
    DecimalsDiffer(i + 1, j + 1);
  }

  /** The catalogue by reference finds each signal under its own reference, and nothing else. */
  lemma {:induction false} NamedSignalIsFound(catalog: seq<Entry>, r: Json)
    requires forall k :: 0 <= k < |catalog| ==> catalog[k].signalRef == SigRef(k)
    ensures r in ByRef(catalog) <==> exists k :: 0 <= k < |catalog| && SigRef(k) == r
    ensures forall k :: 0 <= k < |catalog| && SigRef(k) == r ==> ByRef(catalog)[r] == catalog[k]
  {
    hide SigRef;
    if catalog != [] {
      var n := |catalog| - 1;
      NamedSignalIsFound(catalog[..n], r);
      forall k | 0 <= k < |catalog| && SigRef(k) == r ensures r in ByRef(catalog) && ByRef(catalog)[r] == catalog[k] {
        if SigRef(n) == r {
          SigRefsDiffer(k, n);
        }
      }
    }
  }

  predicate NonEmptyList(v: Json) {
    v.Arr? && v.items != []
  }

  /** Every entry's own reference is neat, and so is its source reference. */
  predicate CatalogOk(catalog: seq<Entry>) {
    forall k :: 0 <= k < |catalog| ==> Neat(catalog[k].signalRef) && Neat(catalog[k].sourceRef)
  }

  lemma OneIsNeat(v: Json)
    requires Neat(v)
    ensures NeatList(Arr([v]))
  {
  }

  lemma ListsAreTruthy(v: Json)
    requires v.Arr?
    ensures Or(v, Arr([])) == v && (Truthy(v) <==> v.items != [])
  {
  }

  lemma SourcesAreCovered(item: Json, index: nat, catalog: seq<Entry>)
    requires NeatList(At(item, SourceRefs)) && CatalogOk(catalog)
    ensures var r := SourcesOf(item, index, catalog);
      NeatList(r) && (r.items != [] <==> index < |catalog| || At(item, SourceRefs).items != [])
  {
    hide Neat, At, SrcRef, Or, Truthy;
    ListsAreTruthy(At(item, SourceRefs));
    OneIsNeat(if index < |catalog| then catalog[index].sourceRef else SrcRef(index));
  }

  /** Backfilled evidence is the evidence with other sources and another confidence. */
  lemma EvidenceKeepsItsText(item: Json, index: nat, catalog: seq<Entry>, avgConfidence: int)
    requires NormalEvidence(item)
    ensures BackfilledEvidence(item, index, catalog, avgConfidence) ==
            EvidenceJson(At(item, SignalRef), At(item, SignalTitle),
                         ConfidenceFrom(At(item, Confidence), MatchedEntry(At(item, SignalRef), index, catalog),
                             avgConfidence),
                         At(item, Contribution), SourcesOf(item, index, catalog))
  {
  }

  /** Backfilled evidence is still normal; it has a source exactly if it came with one or a signal stands at its
      position, and at such a position its confidence is a number. */
  lemma EvidenceIsCovered(item: Json, index: nat, catalog: seq<Entry>, avgConfidence: int)
    requires NormalEvidence(item) && CatalogOk(catalog)
    ensures var r := BackfilledEvidence(item, index, catalog, avgConfidence);
      && NormalEvidence(r)
      && (NonEmptyList(At(r, SourceRefs)) <==> index < |catalog| || NonEmptyList(At(item, SourceRefs)))
      && (index < |catalog| ==> Numeric(At(r, Confidence)))
      && At(r, SignalRef) == At(item, SignalRef) && At(r, Contribution) == At(item, Contribution)
  {
    hide Neat, AllNeat, EvidenceJson, At, BackfilledEvidence, SourcesOf, ByRef;
    EvidenceKeepsItsText(item, index, catalog, avgConfidence);
    SourcesAreCovered(item, index, catalog);
  }

  lemma NotesAreTruthy(v: Json)
    requires v == Null || Neat(v)
    ensures Truthy(v) <==> v != Null
  {
  }

  /** A backfilled claim is still normal and keeps its text and its signals; it has a source exactly if it came
      with one or the evidence or the signal at its position has one. */
  lemma ClaimIsCovered(claim: Json, index: nat, evidence: seq<Json>, catalog: seq<Entry>)
    requires NormalClaim(claim) && CatalogOk(catalog)
    requires index < |evidence| ==> NormalEvidence(evidence[index])
    ensures var r := BackfilledClaim(claim, index, evidence, catalog);
      && NormalClaim(r)
      && At(r, ClaimText) == At(claim, ClaimText) && At(r, SignalRefs) == At(claim, SignalRefs)
      && (NonEmptyList(At(r, SourceRefs)) <==>
          NonEmptyList(At(claim, SourceRefs)) ||
          if index < |evidence| then NonEmptyList(At(evidence[index], SourceRefs)) else index < |catalog|)
  {
    ListsAreTruthy(At(claim, SignalRefs));
    ListsAreTruthy(At(claim, SourceRefs));
    NotesAreTruthy(At(claim, EvidenceNote));
    if index < |evidence| {
      ListsAreTruthy(At(evidence[index], SourceRefs));
    } else if index < |catalog| {
      OneIsNeat(catalog[index].sourceRef);
      ListsAreTruthy(Arr([catalog[index].sourceRef]));
    }
  }

  /** The identifiers of the signals that have one, in order. */
  function GivenIds(signals: seq<Dict>, lib: Library): seq<string> {
    if signals == [] then []
    else (if IdOf(signals[0], lib) != "" then [IdOf(signals[0], lib)] else []) + GivenIds(signals[1..], lib)
  }

  lemma {:induction false} IdsAreTheGivenOnes(catalog: seq<Entry>, signals: seq<Dict>, lib: Library)
    requires |catalog| == |signals|
    requires forall k :: 0 <= k < |signals| ==> catalog[k].signalId == IdOf(signals[k], lib)
    ensures NonEmptyIds(catalog) == GivenIds(signals, lib)
  {
    if signals != [] {
      IdsAreTheGivenOnes(catalog[1..], signals[1..], lib);
    }
  }

  lemma CatalogsAreOk(signals: seq<Dict>, lib: Library)
    ensures CatalogOk(Catalog(signals, lib)) && NonEmptyIds(Catalog(signals, lib)) == GivenIds(signals, lib)
  {
    var catalog := Catalog(signals, lib);
    forall k | 0 <= k < |signals| ensures catalog[k].signalId == IdOf(signals[k], lib) {
      assert catalog[k] == EntryOf(signals[k], k, lib);
    }
    IdsAreTheGivenOnes(catalog, signals, lib);
  }

  /** What references the backfilled brief has, in terms of the normalised one and the number of signals. */
  predicate Covers(b: Brief, after: Brief, n: nat) {
    var evidence, claims := EvidenceIn(b), InsightsOf(b);
    var evidence', claims' := EvidenceIn(after), InsightsOf(after);
    && |evidence'| == |evidence| && |claims'| == |claims|
    && (forall k :: 0 <= k < |evidence| ==>
          (NonEmptyList(At(evidence'[k], SourceRefs)) <==> k < n || NonEmptyList(At(evidence[k], SourceRefs))))
    && (forall k :: 0 <= k < |evidence| && k < n ==> Numeric(At(evidence'[k], Confidence)))
    && (forall k :: 0 <= k < |claims| ==>
          At(claims'[k], ClaimText) == At(claims[k], ClaimText) && NonEmptyList(At(claims'[k], SignalRefs)))
    && (forall k :: 0 <= k < |claims| ==>
          (NonEmptyList(At(claims'[k], SourceRefs)) <==>
           k < n || NonEmptyList(At(claims[k], SourceRefs)) ||
           (k < |evidence| && NonEmptyList(At(evidence[k], SourceRefs)))))
    && (claims != [] ==> NonEmptyList(after.keySignals))
  }

  lemma TextsAreKept(claims: seq<Json>)
    requires forall c :: c in claims ==> NormalClaim(c)
    ensures NeatList(Arr(TruthyTexts(claims)))
    ensures claims != [] ==> TruthyTexts(claims) != []
  {
    hide ClaimJson, At, Texts;
    if claims != [] {
      assert NormalClaim(claims[0]);
      NotesAreTruthy(At(claims[0], ClaimText));
      TextsAreKept(claims[1..]);
    }
  }

  lemma HasSignals(claim: Json)
    requires NormalClaim(claim)
    ensures NonEmptyList(At(claim, SignalRefs))
  {
  }

  lemma BackfillingCovers(b: Brief, catalog: seq<Entry>, avgConfidence: int)
    requires WellFormed(b) && CatalogOk(catalog)
    ensures Covers(b, Backfilled(b, catalog, avgConfidence), |catalog|)
    ensures WellFormed(Backfilled(b, catalog, avgConfidence))
  {
    hide BackfilledEvidence, BackfilledClaim, NormalClaim, NormalEvidence, At, Payload, LooksCanonical, Neat, AllNeat,
         Truthy, TruthyTexts, IsInt;
    var after := Backfilled(b, catalog, avgConfidence);
    var items, claims := EvidenceIn(b), InsightsOf(b);
    var evidence := AllEvidence(items, catalog, avgConfidence);
    forall k | 0 <= k < |items|
      ensures NormalEvidence(items[k]) && NormalEvidence(evidence[k])
      ensures NonEmptyList(At(evidence[k], SourceRefs)) <==> k < |catalog| || NonEmptyList(At(items[k], SourceRefs))
      ensures k < |catalog| ==> Numeric(At(evidence[k], Confidence))
    {
      assert items[k] in items;
      EvidenceIsCovered(items[k], k, catalog, avgConfidence);
    }
    var claims' := AllClaims(claims, evidence, catalog);
    forall k | 0 <= k < |claims|
      ensures NormalClaim(claims[k]) && NormalClaim(claims'[k])
      ensures At(claims'[k], ClaimText) == At(claims[k], ClaimText) && NonEmptyList(At(claims'[k], SignalRefs))
      ensures NonEmptyList(At(claims'[k], SourceRefs)) <==>
              NonEmptyList(At(claims[k], SourceRefs)) ||
              if k < |evidence| then NonEmptyList(At(evidence[k], SourceRefs)) else k < |catalog|
    {
      assert claims[k] in claims;
      ClaimIsCovered(claims[k], k, evidence, catalog);
      HasSignals(claims[k]);
    }
    TextsAreKept(Between(claims', 0, 3));
    ListsAreTruthy(b.keySignals);
    PayloadHolds(after);
  }

  /** Whatever the signals and the model's answer: a stored brief's evidence and claims at a position below the
      number of signals have a source, every claim has a signal, an insight makes key signals, the signal
      identifiers are the given ones, and the brief is well formed. */
  lemma CoercedBriefsAreCovered(topic: Json, result: Dict, signals: seq<Dict>, avgConfidence: int, lib: Library)
    ensures var normalized := Normalize(result, ArgumentsFor(topic, result, avgConfidence));
            var r := Coerce(topic, result, signals, avgConfidence, lib);
            && (r.Returned? <==> normalized.Returned?)
            && (r.Returned? ==> Covers(normalized.value, r.value.brief, |signals|) && WellFormed(r.value.brief)
                                && r.value.signalIds == GivenIds(signals, lib))
  {
    hide Get, Or;
    var normalized := Normalize(result, ArgumentsFor(topic, result, avgConfidence));
    if normalized.Returned? {
      NormalizedIsWellFormed(result, ArgumentsFor(topic, result, avgConfidence));
      CatalogsAreOk(signals, lib);
      BackfillingCovers(normalized.value, Catalog(signals, lib), avgConfidence);
    }
  }

  // ---------- what is taken from where ----------

  /** An entry names its signal and its source by the signal's place, and carries the signal's own members. */
  lemma EntryTakesTheSignalsMembers(signals: seq<Dict>, lib: Library, k: nat)
    requires k < |signals|
    ensures var e, signal := Catalog(signals, lib)[k], signals[k];
            && e.signalRef == Str("SIG-" + Decimal(k + 1)) && e.sourceRef == Str("SRC-" + Decimal(k + 1))
            && e.title == (if Truthy(Get(signal, Title)) then Get(signal, Title) else Str("Signal " + Decimal(k + 1)))
            && e.summary == (if Truthy(Get(signal, Summary)) then Get(signal, Summary) else Str(""))
            && e.sourceUrl == (if Truthy(Get(signal, SourceUrl)) then Get(signal, SourceUrl) else Str(""))
            && e.publishedAt == (if Truthy(Get(signal, PublishedAt)) then Get(signal, PublishedAt) else Str(""))
            && e.sourceName == SourceName(signal, k, lib)
            && (Get(signal, Id).Str? ==> e.signalId == Get(signal, Id).text) && (Id !in signal ==> e.signalId == "")
  {
    hide Truthy, Decimal, SourceName, Percentage;
  }

  /** Its percentage is the nearest to a hundred times a proportion, or to a number above 1 itself; 0 for no number. */
  lemma PercentageIsTheNearest(signal: Dict, index: nat, lib: Library)
    ensures var given, percent := Get(signal, Confidence), EntryOf(signal, index, lib).confidencePct as real;
            && (!Numeric(given) ==> percent == 0.0)
            && (Numeric(given) && Number(given) <= 1.0 ==> -0.5 <= Number(given) * 100.0 - percent <= 0.5)
            && (Numeric(given) && Number(given) > 1.0 ==> -0.5 <= Number(given) - percent <= 0.5)
  {
    hide IdOf, SourceName, Truthy, Decimal;
  }

  lemma RefOfEntry(signal: Dict, k: nat, lib: Library)
    ensures EntryOf(signal, k, lib).signalRef == SigRef(k)
  {
  }

  lemma {:induction false} NamedSignalIsItsOwn(catalog: seq<Entry>, j: nat)
    requires j < |catalog| && forall k :: 0 <= k < |catalog| ==> catalog[k].signalRef == SigRef(k)
    ensures SigRef(j) in ByRef(catalog) && ByRef(catalog)[SigRef(j)] == catalog[j]
  {
    var n := |catalog| - 1;
    if j < n {
      NamedSignalIsItsOwn(catalog[..n], j);
      if SigRef(n) == SigRef(j) { SigRefsDiffer(n, j); }
    }
  }

  /** Evidence that names a signal of the list is matched with that one, and any other with the one at its place. */
  lemma NamedSignalIsMatched(ref: Json, index: nat, signals: seq<Dict>, lib: Library, j: nat)
    requires j < |signals|
    ensures ref == Str("SIG-" + Decimal(j + 1)) ==>
              MatchedEntry(ref, index, Catalog(signals, lib)) == Some(Catalog(signals, lib)[j])
    ensures (forall k: nat :: k < |signals| ==> ref != SigRef(k)) ==>
              MatchedEntry(ref, index, Catalog(signals, lib)) ==
              if index < |signals| then Some(Catalog(signals, lib)[index]) else None
  {
    var catalog := Catalog(signals, lib);
    hide EntryOf, Decimal;
    assert forall k :: 0 <= k < |signals| ==> catalog[k].signalRef == SigRef(k) by {
      forall k | 0 <= k < |signals| ensures catalog[k].signalRef == SigRef(k) { RefOfEntry(signals[k], k, lib); }
    }
    NamedSignalIsFound(catalog, ref);
    if ref == SigRef(j) { NamedSignalIsItsOwn(catalog, j); }
  }

  /** Evidence without a source gets that of the signal at its own place, if there is one. */
  lemma EvidenceBorrowsAtItsPlace(item: Json, index: nat, signals: seq<Dict>, lib: Library, avgConfidence: int)
    requires NormalEvidence(item)
    ensures var r := BackfilledEvidence(item, index, Catalog(signals, lib), avgConfidence);
            && At(r, SourceRefs) == (if At(item, SourceRefs).items != [] then At(item, SourceRefs)
                                     else if index < |signals| then Arr([Str("SRC-" + Decimal(index + 1))])
                                     else Arr([]))
            && At(r, SignalTitle) == At(item, SignalTitle)
            && (Numeric(At(item, Confidence)) ==> At(r, Confidence) == At(item, Confidence))
  {
    EvidenceKeepsItsText(item, index, Catalog(signals, lib), avgConfidence);
    ListsAreTruthy(At(item, SourceRefs));
    if index < |signals| { EntryTakesTheSignalsMembers(signals, lib, index); }
    hide BackfilledEvidence, MatchedEntry, EntryOf, Decimal;
  }

  /** A claim without a source gets those of the evidence at its place, or else that of the signal there; one without
      a note the contribution of that evidence. */
  lemma ClaimBorrowsAtItsPlace(claim: Json, index: nat, evidence: seq<Json>, signals: seq<Dict>, lib: Library)
    requires NormalClaim(claim) && (index < |evidence| ==> NormalEvidence(evidence[index]))
    ensures var r := BackfilledClaim(claim, index, evidence, Catalog(signals, lib));
            && At(r, SourceRefs) == (if At(claim, SourceRefs).items != [] then At(claim, SourceRefs)
                                     else if index < |evidence| then At(evidence[index], SourceRefs)
                                     else if index < |signals| then Arr([Str("SRC-" + Decimal(index + 1))])
                                     else Arr([]))
            && At(r, EvidenceNote) == if At(claim, EvidenceNote) != Null then At(claim, EvidenceNote)
                                      else if index < |evidence| then At(evidence[index], Contribution) else Null
  {
    ListsAreTruthy(At(claim, SignalRefs));
    ListsAreTruthy(At(claim, SourceRefs));
    NotesAreTruthy(At(claim, EvidenceNote));
    if index < |evidence| {
      ListsAreTruthy(At(evidence[index], SourceRefs));
    } else if index < |signals| {
      EntryTakesTheSignalsMembers(signals, lib, index);
    }
    hide EntryOf, Decimal;
  }

  /** A leading "www." of the host is dropped, with the white space around it; without a URL there is no host. */
  lemma HostDropsWww(signal: Dict, lib: Library, rest: string)
    ensures AsStr(Get(signal, SourceUrl)) == Null ==> HostOf(signal, lib) == ""
    ensures AsStr(Get(signal, SourceUrl)) != Null && !Contains(rest, "www.") ==>
              && (lib.netloc(Get(signal, SourceUrl).text) == "www." + rest ==> HostOf(signal, lib) == Strip(rest))
              && (lib.netloc(Get(signal, SourceUrl).text) == rest ==> HostOf(signal, lib) == Strip(rest))
  {
    if AsStr(Get(signal, SourceUrl)) != Null {
      if !Contains(rest, "www.") {
        NothingToTakeOut(rest, "www.");
        assert ("www." + rest)[4..] == rest;
      }
    }
  }

  /** Key signals that normalisation has found are kept; otherwise they are the texts of the first three claims. */
  lemma KeySignalsAreKept(b: Brief, catalog: seq<Entry>, avgConfidence: int)
    requires WellFormed(b)
    ensures AsList(b.keySignals) != [] ==> Backfilled(b, catalog, avgConfidence).keySignals == b.keySignals
    ensures AsList(b.keySignals) == [] ==>
              Backfilled(b, catalog, avgConfidence).keySignals ==
              Arr(TruthyTexts(Between(InsightsOf(Backfilled(b, catalog, avgConfidence)), 0, 3)))
  {
    hide AllClaims, AllEvidence, Payload, LooksCanonical, NormalClaim, NormalEvidence, Neat;
  }
}
