/** What becomes of a model's answer on its way into the database: it is coerced, and the coerced brief is
    normalised once more with the answer's own members as arguments. */
module BriefStorage {
  import opened KeyStore
  import opened BriefJson
  import opened BriefSchema
  import opened BriefProperties
  import opened BriefPasses
  import opened BriefLegacy
  import opened BriefCoercion

  // ---- Which confidences a coerced brief has ---------------------------------------------------

  /** A canonical answer without a confidence of its own has an item without a number. */
  predicate LeavesAConfidenceOpen(result: Dict) {
    && LooksCanonical(result) && !Numeric(Get(result, Confidence))
    && exists i :: i in EvidenceGiven(result) && i.Obj? && !Numeric(At(i, Confidence))
  }

  lemma {:induction false} ScoredItems(items: seq<Json>, index: nat, fallback: Json)
    ensures (exists e :: e in EvidenceItems(items, index, fallback) && !Numeric(At(e, Confidence))) <==>
            !Numeric(fallback) && exists i :: i in items && i.Obj? && !Numeric(At(i, Confidence))
    ensures (forall e :: e in EvidenceItems(items, index, fallback) && Numeric(At(e, Confidence)) ==>
               Proportion(At(e, Confidence))) <==>
            || !Numeric(fallback) || Proportion(fallback)
            || forall i :: i in items && i.Obj? ==> Numeric(At(i, Confidence))
  {
    hide NormalEvidence;
    if items != [] {
      ScoredItems(items[1..], index + 1, fallback);
      var e := NormalizeEvidence(items[0], index, fallback);
      var rest := EvidenceItems(items[1..], index + 1, fallback);
      assert items == [items[0]] + items[1..];
      assert EvidenceItems(items, index, fallback) == (if e.Some? then [e.value] else []) + rest;
      assert e.Some? ==> e.value in [e.value] + rest;
    }
  }

  lemma FallbackOf(given: Json, base: Json)
    ensures Numeric(AsConfidence(given, base)) <==> Numeric(given) || Numeric(base)
    ensures Proportion(AsConfidence(given, base)) <==> Numeric(given) || Proportion(base)
  {
  }

  /** What the first normalisation of an answer leaves: every number is a proportion, unless the answer leaves a
      confidence open and what is passed for it is a number outside [0, 1]; and a confidence is no number only if
      the answer leaves it open and what is passed for it is no number. */
  lemma NormalizedConfidences(result: Dict, a: Arguments)
    ensures var normalized := Normalize(result, a);
            normalized.Returned? ==>
              && ((exists e :: e in EvidenceIn(normalized.value) && !Numeric(At(e, Confidence))) <==>
                  LeavesAConfidenceOpen(result) && !Numeric(BaseConfidence(a)))
              && ((forall e :: e in EvidenceIn(normalized.value) && Numeric(At(e, Confidence)) ==>
                     Proportion(At(e, Confidence))) <==>
                  LeavesAConfidenceOpen(result) && Numeric(BaseConfidence(a)) ==> Proportion(BaseConfidence(a)))
  {
    if Normalize(result, a).Raised? { return; }
    var b := Normalize(result, a).value;
    var c := if LooksCanonical(result) then result else Payload(Legacy(result, a).value);
    var fallback := AsConfidence(Get(c, Confidence), BaseConfidence(a));
    SignalsOf(c, a, b);
    ScoredItems(EvidenceGiven(c), 0, fallback);
    FallbackOf(Get(c, Confidence), BaseConfidence(a));
    if !LooksCanonical(result) {
      LegacyEvidence(result, a);
      LegacyScores(result, a);
    }
  }

  /** The signal whose confidence stands in for evidence k, if evidence k has no number and there is one. */
  function StandIn(b: Brief, catalog: seq<Entry>, k: nat): Option<Entry>
    requires k < |EvidenceIn(b)|
  {
    var e := EvidenceIn(b)[k];
    if Numeric(At(e, Confidence)) then None else MatchedEntry(At(e, SignalRef), k, catalog)
  }

  /** A signal's confidence in percent; where the signal has none, the average. */
  function PercentOf(entry: Entry, avgConfidence: int): int {
    if entry.confidencePct != 0 then entry.confidencePct else avgConfidence
  }

  /** Evidence k of a coerced brief takes the catalogue's confidence exactly where it has no number of its own and
      a signal matches; otherwise it keeps what normalisation left. */
  lemma CatalogueConfidence(b: Brief, catalog: seq<Entry>, avgConfidence: int, k: nat)
    requires WellFormed(b) && k < |EvidenceIn(b)|
    ensures |EvidenceIn(Backfilled(b, catalog, avgConfidence))| == |EvidenceIn(b)|
    ensures At(EvidenceIn(Backfilled(b, catalog, avgConfidence))[k], Confidence) ==
            match StandIn(b, catalog, k)
            case None => At(EvidenceIn(b)[k], Confidence)
            case Some(entry) => Float(PercentOf(entry, avgConfidence) as real / 100.0)
  {
    hide Payload, LooksCanonical, Neat, MatchedEntry;
    var items := EvidenceIn(b);
    assert items[k] in items;
    EvidenceKeepsItsText(items[k], k, catalog, avgConfidence);
  }

  lemma Percent(n: int)
    ensures Proportion(Float(n as real / 100.0)) <==> 0 <= n <= 100
  {
  }

  predicate AllProportions(items: seq<Json>) {
    forall k :: 0 <= k < |items| ==> Proportion(At(items[k], Confidence))
  }

  /** Every confidence that is no number is replaced by a percentage from 0 to 100. */
  predicate AllStoodIn(b: Brief, catalog: seq<Entry>, avgConfidence: int) {
    forall k: nat :: k < |EvidenceIn(b)| && !Numeric(At(EvidenceIn(b)[k], Confidence)) ==>
      StandIn(b, catalog, k).Some? && 0 <= PercentOf(StandIn(b, catalog, k).value, avgConfidence) <= 100
  }

  predicate OneProportion(b: Brief, catalog: seq<Entry>, avgConfidence: int, k: nat)
    requires k < |EvidenceIn(b)|
  {
    if Numeric(At(EvidenceIn(b)[k], Confidence)) then Proportion(At(EvidenceIn(b)[k], Confidence))
    else StandIn(b, catalog, k).Some? && 0 <= PercentOf(StandIn(b, catalog, k).value, avgConfidence) <= 100
  }

  lemma AllByPlace(b: Brief, catalog: seq<Entry>, avgConfidence: int, after: seq<Json>)
    requires |after| == |EvidenceIn(b)|
    requires forall k: nat :: k < |after| ==>
      (Proportion(At(after[k], Confidence)) <==> OneProportion(b, catalog, avgConfidence, k))
    ensures AllProportions(after) <==> forall k: nat :: k < |after| ==> OneProportion(b, catalog, avgConfidence, k)
  {
    hide OneProportion, Proportion, At;
  }

  lemma SplitByNumber(b: Brief, catalog: seq<Entry>, avgConfidence: int)
    ensures (forall k: nat :: k < |EvidenceIn(b)| ==> OneProportion(b, catalog, avgConfidence, k)) <==>
            && (forall k: nat :: k < |EvidenceIn(b)| && Numeric(At(EvidenceIn(b)[k], Confidence)) ==>
                  Proportion(At(EvidenceIn(b)[k], Confidence)))
            && AllStoodIn(b, catalog, avgConfidence)
  {
    hide StandIn, PercentOf, Proportion, Numeric, At, EvidenceIn;
    if forall k: nat :: k < |EvidenceIn(b)| ==> OneProportion(b, catalog, avgConfidence, k) {
      forall k: nat | k < |EvidenceIn(b)|
        ensures Numeric(At(EvidenceIn(b)[k], Confidence)) ==> Proportion(At(EvidenceIn(b)[k], Confidence))
        ensures !Numeric(At(EvidenceIn(b)[k], Confidence)) ==>
          StandIn(b, catalog, k).Some? && 0 <= PercentOf(StandIn(b, catalog, k).value, avgConfidence) <= 100
      {
        assert OneProportion(b, catalog, avgConfidence, k);
      }
    }
  }

  lemma NumbersByPlace(items: seq<Json>)
    ensures (forall e :: e in items && Numeric(At(e, Confidence)) ==> Proportion(At(e, Confidence))) <==>
            forall k: nat :: k < |items| && Numeric(At(items[k], Confidence)) ==> Proportion(At(items[k], Confidence))
  {
    hide Numeric, Proportion, At;
    if forall k: nat :: k < |items| && Numeric(At(items[k], Confidence)) ==> Proportion(At(items[k], Confidence)) {
      forall e | e in items && Numeric(At(e, Confidence)) ensures Proportion(At(e, Confidence)) {
        var k: nat :| k < |items| && items[k] == e;
      }
    }
  }

  lemma SameLength(b: Brief, catalog: seq<Entry>, avgConfidence: int)
    requires WellFormed(b)
    ensures |EvidenceIn(Backfilled(b, catalog, avgConfidence))| == |EvidenceIn(b)|
  {
    hide BackfilledEvidence, BackfilledClaim, NormalEvidence, NormalClaim, Neat, TruthyTexts, Payload;
  }

  lemma ProportionsAreNumbers(v: Json)
    ensures Proportion(v) ==> Numeric(v)
  {
  }

  lemma StandInHasNoNumber(b: Brief, catalog: seq<Entry>, k: nat)
    requires k < |EvidenceIn(b)|
    ensures StandIn(b, catalog, k).Some? ==> !Numeric(At(EvidenceIn(b)[k], Confidence))
  {
  }

  /** All confidences of a coerced brief are in [0, 1] if and only if what is passed for an open one is no number
      outside [0, 1], and every confidence that is no number is replaced by a percentage of a matching signal (or
      the average) from 0 to 100. */
  lemma CoercedConfidencesAreProportionsExactly(result: Dict, a: Arguments, catalog: seq<Entry>, avgConfidence: int)
    ensures var normalized := Normalize(result, a);
            normalized.Returned? ==>
              var b := normalized.value;
              AllProportions(EvidenceIn(Backfilled(b, catalog, avgConfidence))) <==>
              && (LeavesAConfidenceOpen(result) && Numeric(BaseConfidence(a)) ==> Proportion(BaseConfidence(a)))
              && AllStoodIn(b, catalog, avgConfidence)
  {
    hide Normalize, Backfilled, WellFormed;
    if Normalize(result, a).Raised? { return; }
    var b := Normalize(result, a).value;
    NormalizedConfidences(result, a);
    NormalizedIsWellFormed(result, a);
    var items, after := EvidenceIn(b), EvidenceIn(Backfilled(b, catalog, avgConfidence));
    SameLength(b, catalog, avgConfidence);
    forall k: nat | k < |items|
      ensures Proportion(At(after[k], Confidence)) <==> OneProportion(b, catalog, avgConfidence, k)
    {
      CatalogueConfidence(b, catalog, avgConfidence, k);
      ProportionsAreNumbers(At(items[k], Confidence));
      StandInHasNoNumber(b, catalog, k);
      if StandIn(b, catalog, k).Some? { Percent(PercentOf(StandIn(b, catalog, k).value, avgConfidence)); }
    }
    AllByPlace(b, catalog, avgConfidence, after);
    NumbersByPlace(items);
    SplitByNumber(b, catalog, avgConfidence);
  }

  /** What coercion passes for an open confidence: the answer's own member, even if it is no number, or else the
      average, a percentage. The catalogue is consulted only for an answer whose confidence is there, true, and no
      number. */
  lemma PassedConfidence(topic: Json, result: Dict, avgConfidence: int)
    ensures var base := BaseConfidence(ArgumentsFor(topic, result, avgConfidence));
      && (!Numeric(base) <==> Confidence in result && Truthy(result[Confidence]) && !Numeric(result[Confidence]))
      && (Confidence !in result ==> (Proportion(base) <==> 0 <= avgConfidence <= 1))
  {
  }

  // ---- Which texts a coerced brief has ---------------------------------------------------------

  /** The bottom line that an answer gives: its own, or the one in its summary, if that is an object, or else its bottom
      line or summary whatever they are. */
  function LineOf(result: Dict): Json {
    if AsStr(Get(result, Bluf)) != Null then AsStr(Get(result, Bluf))
    else if Get(result, ExecutiveSummary).Obj? then At(Get(result, ExecutiveSummary), BottomLine)
    else if Truthy(Get(result, Bluf)) then Get(result, Bluf) else Get(result, Summary)
  }

  lemma LineIsPassed(topic: Json, result: Dict, avgConfidence: int)
    ensures var a := ArgumentsFor(topic, result, avgConfidence);
            From(result, Bluf, a.summary) == LineOf(result) && a.topic == topic
            && a.outlook == Get(result, Outlook) && a.decisionLens == Get(result, DecisionLens)
            && a.domain == Get(result, Domain)
  {
  }

  /** The value trimmed, if that leaves a text, and otherwise as it is. */
  function Trim(v: Json): Json {
    if AsStr(v) != Null then AsStr(v) else v
  }

  /** What backfilling does not touch. */
  lemma BackfillingKeepsTheRest(b: Brief, catalog: seq<Entry>, avgConfidence: int)
    ensures var r := Backfilled(b, catalog, avgConfidence);
            && Get(r.summary, BottomLine) == Get(b.summary, BottomLine) && r.overview == b.overview
            && r.outlook == b.outlook && r.decisionLens == b.decisionLens && r.domain == b.domain
  {
    hide AllEvidence, AllClaims, TruthyTexts;
  }

  lemma TextsOfAnswer(topic: Json, result: Dict, avgConfidence: int, b: Brief)
    requires IsMade(result, ArgumentsFor(topic, result, avgConfidence), b)
    ensures Get(b.summary, BottomLine) == LineOf(result) && Get(b.overview, Overview) == LineOf(result)
    ensures Get(b.overview, Topic) == topic && b.outlook == Trim(Get(result, Outlook))
    ensures b.decisionLens == Trim(Get(result, DecisionLens)) && b.domain == Trim(Get(result, Domain))
  {
    hide IsMade, From, LineOf, AsStr, Sentences, FirstSentence, Objects, ArgumentsFor, Get, FindingText, FirstOf;
    var a := ArgumentsFor(topic, result, avgConfidence);
    LineIsPassed(topic, result, avgConfidence);
    LegacySummaryIsThePayloads(result, a, b);
    LegacyQuestionsAreThePayloads(result, a, b);
    LegacyTextsAreThePayloads(result, a, b);
  }

  /** An answer that is not canonical is coerced with its own texts: its bottom line as just said, the topic asked for,
      its own outlook, decision lens and domain. */
  lemma CoercedTextsAreTheAnswers(topic: Json, result: Dict, signals: seq<Dict>, avgConfidence: int, lib: Library)
    requires !LooksCanonical(result)
    ensures var r := Coerce(topic, result, signals, avgConfidence, lib);
            r.Returned? ==>
              var b := r.value.brief;
              && Get(b.summary, BottomLine) == LineOf(result) && Get(b.overview, Overview) == LineOf(result)
              && Get(b.overview, Topic) == topic
              && b.outlook == Trim(Get(result, Outlook)) && b.decisionLens == Trim(Get(result, DecisionLens))
              && b.domain == Trim(Get(result, Domain))
              && r.value.title == (if Truthy(Get(result, Title)) then Get(result, Title) else topic)
              && r.value.confidence == avgConfidence
  {
    hide Normalize, LooksCanonical, LineOf, Trim, Backfilled, NonEmptyIds, Catalog, Get, ArgumentsFor;
    var normalized := Normalize(result, ArgumentsFor(topic, result, avgConfidence));
    if normalized.Returned? {
      assert IsMade(result, ArgumentsFor(topic, result, avgConfidence), normalized.value);
      TextsOfAnswer(topic, result, avgConfidence, normalized.value);
      BackfillingKeepsTheRest(normalized.value, Catalog(signals, lib), avgConfidence);
    }
  }

  // ---- The second normalisation before storing -------------------------------------------------

  /** The coerced brief as the dictionary that is handed on. */
  function CoercedPayload(r: Coerced): Dict {
    Payload(r.brief)[Title := r.title][Confidence := Int(r.confidence)]
                    [SignalIds := Arr(seq(|r.signalIds|, k requires 0 <= k < |r.signalIds| => Str(r.signalIds[k])))]
  }

  /** What the generator passes beside it. */
  function GeneratorArguments(topic: Json, p: Dict): Arguments {
    Arguments(topic, Or(Get(p, Bluf), Get(p, Summary)), Get(p, Domain), Get(p, Confidence), Get(p, Outlook),
              Or(Get(p, DecisionLens), Get(p, Recommendation)))
  }

  lemma OtherMembersStay(d: Dict, title: Json, confidence: Json, ids: Json, k: Key)
    requires k != Title && k != Confidence && k != SignalIds
    ensures Get(d[Title := title][Confidence := confidence][SignalIds := ids], k) == Get(d, k)
  {
  }

  lemma NoRecommendation(b: Brief)
    ensures Get(Payload(b), Recommendation) == Null
  {
  }

  lemma ConfidenceIsSet(d: Dict, title: Json, confidence: Json, ids: Json)
    ensures Get(d[Title := title][Confidence := confidence][SignalIds := ids], Confidence) == confidence
  {
  }

  lemma SameHolds(d: Dict, p: Dict, b: Brief)
    requires forall k: Key :: k != Title && k != Confidence && k != SignalIds ==> Get(p, k) == Get(d, k)
    requires Holds(d, b) && LooksCanonical(d)
    ensures Holds(p, b) && LooksCanonical(p)
  {
    hide Get;
  }

  lemma CoercedPayloadHolds(r: Coerced)
    ensures var p := CoercedPayload(r);
            Holds(p, r.brief) && LooksCanonical(p) && Get(p, Confidence) == Int(r.confidence)
            && Get(p, Recommendation) == Null
  {
    hide Payload, Holds, LooksCanonical, Get;
    var d, p := Payload(r.brief), CoercedPayload(r);
    PayloadHolds(r.brief);
    NoRecommendation(r.brief);
    forall k: Key | k != Title && k != Confidence && k != SignalIds ensures Get(p, k) == Get(d, k) {
      OtherMembersStay(d, r.title, Int(r.confidence), p[SignalIds], k);
    }
    SameHolds(d, p, r.brief);
    ConfidenceIsSet(d, r.title, Int(r.confidence), p[SignalIds]);
  }

  lemma BackfilledIsStable(b: Brief, catalog: seq<Entry>, avgConfidence: int)
    requires Stable(b) && WellFormed(b) && CatalogOk(catalog)
    ensures Stable(Backfilled(b, catalog, avgConfidence))
  {
    hide MetadataSection, QuestionsSection, OverviewSection, AnalysisSection, AnalysisFits, ImpactSection, ImpactFits,
         ActionsSection, Neat, AllNeat;
    BackfillingCovers(b, catalog, avgConfidence);
  }

  /** An answer passes its own texts as arguments, so what normalisation leaves of them is settled. */
  lemma OwnTextSettles(given: Json)
    ensures var once := Or(AsStr(given), given);
      && Or(AsStr(once), once) == once
      && Or(AsStr(Or(AsStr(once), given)), Or(AsStr(once), given)) == Or(AsStr(once), given)
  {
  }

  lemma AnswerTextsSettle(topic: Json, result: Dict, avgConfidence: int, b: Brief)
    requires Normalize(result, ArgumentsFor(topic, result, avgConfidence)) == Returned(b)
    ensures Or(AsStr(b.outlook), b.outlook) == b.outlook && Or(AsStr(b.decisionLens), b.decisionLens) == b.decisionLens
    ensures Or(AsStr(b.domain), b.domain) == b.domain
  {
    hide Canonical, Legacy, Payload, LooksCanonical, AsStr, Or;
    var a := ArgumentsFor(topic, result, avgConfidence);
    var c := if LooksCanonical(result) then result else Payload(Legacy(result, a).value);
    TextsOfBrief(c, a, b);
    OwnTextSettles(a.outlook);
    OwnTextSettles(a.decisionLens);
    OwnTextSettles(a.domain);
    if !LooksCanonical(result) { LegacyTextsSettle(result, a); }
  }

  /** The brief that is stored: the coerced one with its evidence scored once more, and no decision lens in place of
      an empty one. */
  function StoredBrief(b: Brief, avgConfidence: int): Brief {
    b.(signals := b.signals[SignalEvidence := Arr(AllRescored(EvidenceIn(b), AsConfidence(Int(avgConfidence), Null)))],
       decisionLens := Or(b.decisionLens, Null))
  }

  lemma EmptyLens(lens: Json)
    requires Or(AsStr(lens), lens) == lens
    ensures Or(AsStr(lens), Or(lens, Null)) == Or(lens, Null)
  {
  }

  lemma NumberIsProportion(v: Json)
    ensures Numeric(v) ==> Proportion(AsConfidence(v, Null))
  {
  }

  lemma RescoredByANumber(items: seq<Json>, given: Json)
    requires Numeric(given)
    ensures AllProportions(AllRescored(items, AsConfidence(given, Null)))
  {
    hide AsConfidence, Proportion, EvidenceJson;
    var r := AllRescored(items, AsConfidence(given, Null));
    forall k | 0 <= k < |r| ensures Proportion(At(r[k], Confidence)) {
      NumberIsProportion(given);
      NumberIsProportion(At(items[k], Confidence));
      FallbackOf(At(items[k], Confidence), AsConfidence(given, Null));
    }
  }

  lemma PassedOn(topic: Json, r: Coerced)
    ensures var a := GeneratorArguments(topic, CoercedPayload(r));
      && a.confidence == Int(r.confidence) && a.outlook == r.brief.outlook && a.domain == r.brief.domain
      && a.decisionLens == Or(r.brief.decisionLens, Null)
  {
    hide CoercedPayload, Or, Get;
    CoercedPayloadHolds(r);
  }

  lemma RereadIsStored(b: Brief, a: Arguments, confidence: int)
    requires a.outlook == b.outlook && a.domain == b.domain && a.decisionLens == Or(b.decisionLens, Null)
    requires Or(AsStr(b.outlook), b.outlook) == b.outlook && Or(AsStr(b.domain), b.domain) == b.domain
    requires Or(AsStr(b.decisionLens), b.decisionLens) == b.decisionLens
    ensures Reread(b, a, AsConfidence(Int(confidence), Null)) == StoredBrief(b, confidence)
    ensures AllProportions(EvidenceIn(StoredBrief(b, confidence)))
  {
    hide AsStr, Or, AllRescored, AsConfidence, AllProportions;
    EmptyLens(b.decisionLens);
    RescoredByANumber(EvidenceIn(b), Int(confidence));
  }

  lemma StableIsStored(topic: Json, r: Coerced)
    requires Stable(r.brief)
    requires Or(AsStr(r.brief.outlook), r.brief.outlook) == r.brief.outlook
    requires Or(AsStr(r.brief.decisionLens), r.brief.decisionLens) == r.brief.decisionLens
    requires Or(AsStr(r.brief.domain), r.brief.domain) == r.brief.domain
    ensures var p := CoercedPayload(r);
            var stored := Normalize(p, GeneratorArguments(topic, p));
            && ConfidenceLevel in r.brief.metadata
            && (stored.Raised? <==> r.confidence == 0 && Unhashable(r.brief.metadata[ConfidenceLevel]))
            && (stored.Returned? ==>
                  stored.value == StoredBrief(r.brief, r.confidence) && AllProportions(EvidenceIn(stored.value)))
  {
    hide Stable;
    var b, p := r.brief, CoercedPayload(r);
    var a := GeneratorArguments(topic, p);
    CoercedPayloadHolds(r);
    PassedOn(topic, r);
    LevelIsThere(b);
    StableBriefsFit(b, p, a);
    RaisesUnlessItFits(p, a);
    NumbersNeedNoFallback(Int(r.confidence), BaseConfidence(a));
    if Fits(p, a) {
      NextPass(b, p, a);
      RereadIsStored(b, a, r.confidence);
    }
  }

  /** For every answer that coercion accepts: the brief that is stored is the coerced one but for its evidence
      confidences, which are all in [0, 1] now, whatever the average; storing raises exactly where the average is 0
      and the confidence level is a list or an object. */
  lemma StoringKeepsTheCoercedBrief(topic: Json, result: Dict, signals: seq<Dict>, avgConfidence: int, lib: Library)
    ensures var r := Coerce(topic, result, signals, avgConfidence, lib);
            r.Returned? ==>
              var p := CoercedPayload(r.value);
              var stored := Normalize(p, GeneratorArguments(topic, p));
              && ConfidenceLevel in r.value.brief.metadata
              && (stored.Raised? <==> avgConfidence == 0 && Unhashable(r.value.brief.metadata[ConfidenceLevel]))
              && (stored.Returned? ==>
                    stored.value == StoredBrief(r.value.brief, avgConfidence)
                    && AllProportions(EvidenceIn(stored.value)))
  {
    if Coerce(topic, result, signals, avgConfidence, lib).Raised? { return; }
    var r := Coerce(topic, result, signals, avgConfidence, lib).value;
    var a, catalog := ArgumentsFor(topic, result, avgConfidence), Catalog(signals, lib);
    var b := Normalize(result, a).value;
    var c := CanonicalOf(result, a, b);
    FirstPassIsStable(c, a, b);
    NormalizedIsWellFormed(result, a);
    CatalogsAreOk(signals, lib);
    BackfilledIsStable(b, catalog, avgConfidence);
    AnswerTextsSettle(topic, result, avgConfidence, b);
    BackfillingKeepsTheRest(b, catalog, avgConfidence);
    StableIsStored(topic, r);
  }
}
