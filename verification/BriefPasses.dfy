/** Normalising what has been normalised: with any arguments, and with a confidence added beside it. */
module BriefPasses {
  import opened KeyStore
  import opened Text
  import opened BriefJson
  import opened BriefSchema
  import opened BriefProperties

  // ---- Stable briefs ---------------------------------------------------------------------------

  predicate SummaryTidy(m: Dict) {
    && DEFAULT_SUMMARY.Keys <= m.Keys
    && Get(m, Insights).Arr? && forall c :: c in Get(m, Insights).items ==> NormalClaim(c)
  }

  predicate SignalsTidy(m: Dict) {
    && DEFAULT_SIGNALS.Keys <= m.Keys
    && NeatList(Get(m, LeadingIndicators)) && NeatList(Get(m, Triggers))
    && Get(m, SignalEvidence).Arr? && forall e :: e in Get(m, SignalEvidence).items ==> NormalEvidence(e)
  }

  /** Every part but the evidence confidences and the three texts that arguments may supply is one that a pass
      keeps. */
  predicate Stable(b: Brief) {
    && MetadataSection(Obj(b.metadata)) == b.metadata && ConfidenceLevel in b.metadata
    && SummaryTidy(b.summary) && SignalsTidy(b.signals)
    && QuestionsSection(Obj(b.questions)) == b.questions && OverviewSection(Obj(b.overview)) == b.overview
    && AnalysisFits(Obj(b.analysis)) && AnalysisSection(Obj(b.analysis)) == b.analysis
    && ImpactFits(Obj(b.impact)) && ImpactSection(Obj(b.impact)) == b.impact
    && ActionsSection(Obj(b.actions)) == b.actions
    && NeatList(b.keySignals) && NeatList(b.limitations) && NeatList(b.tags)
    && Neat(b.confidenceNote) && Neat(b.author) && IsInt(b.readTime)
  }

  /** What a pass makes of a stable brief: the evidence is scored again with `fallback`, and a text that the
      arguments gave untrimmed is trimmed, or replaced where it is empty. */
  function Reread(b: Brief, a: Arguments, fallback: Json): Brief {
    b.(signals := b.signals[SignalEvidence := Arr(AllRescored(EvidenceIn(b), fallback))],
       outlook := Or(AsStr(b.outlook), a.outlook), decisionLens := Or(AsStr(b.decisionLens), a.decisionLens),
       domain := Or(AsStr(b.domain), a.domain))
  }

  lemma KeptByMerge(defaults: Dict, m: Dict)
    requires defaults.Keys <= m.Keys
    ensures defaults + m == m
  {
  }

  lemma TidySummaryIsKept(m: Dict)
    requires SummaryTidy(m)
    ensures SummarySection(Obj(m)) == m
  {
    hide NormalClaim, DEFAULT_SUMMARY;
    KeptByMerge(DEFAULT_SUMMARY, m);
    NormalClaimsAreKept(m[Insights].items, 0);
    UpdateKeeps(m, Insights, m[Insights]);
  }

  lemma TidySignalsAreReread(m: Dict, fallback: Json)
    requires SignalsTidy(m)
    ensures SignalsSection(Obj(m), fallback) ==
            m[SignalEvidence := Arr(AllRescored(Get(m, SignalEvidence).items, fallback))]
  {
    hide NormalEvidence, DEFAULT_SIGNALS, AsStrList, EvidenceItems, AllRescored, Neat, AllNeat;
    KeptByMerge(DEFAULT_SIGNALS, m);
    NormalEvidenceKeepsItsPlace(m[SignalEvidence].items, 0, fallback);
    UpdateKeeps(m, LeadingIndicators, AsStrList(m[LeadingIndicators]));
    UpdateKeeps(m, Triggers, AsStrList(m[Triggers]));
  }

  lemma SummariesAreTidy(given: Json)
    ensures SummaryTidy(SummarySection(given))
  {
    hide NormalClaim;
  }

  lemma SignalsAreTidy(given: Json, fallback: Json)
    ensures SignalsTidy(SignalsSection(given, fallback))
  {
    hide NormalEvidence, AsStrList, EvidenceItems, Neat, AllNeat;
  }

  /** Whatever the payload, what normalisation returns is stable. */
  lemma FirstPassIsStable(c: Dict, a: Arguments, b: Brief)
    requires Canonical(c, a) == Returned(b)
    ensures Stable(b)
  {
    FitsBefore(c, a);
    ScalarsOf(c, a, b);
    MetadataSettles(Get(c, Metadata));
    QuestionsSettle(Get(c, KeyIntelligenceQuestions));
    OverviewSettles(Get(c, SituationOverview));
    ImpactSettles(Get(c, ImpactAssessment));
    AnalysisSettles(Get(c, Analysis));
    ActionsSettle(Get(c, RecommendedActions));
    SummariesAreTidy(Get(c, ExecutiveSummary));
    SignalsAreTidy(Get(c, SignalsAndIndicators), AsConfidence(Get(c, Confidence), BaseConfidence(a)));
  }

  /** The payload of a stable brief is refused only by the score lookup. */
  lemma StableBriefsFit(b: Brief, p: Dict, a: Arguments)
    requires Stable(b) && Holds(p, b)
    ensures Fits(p, a) <==>
            Truthy(Get(p, Confidence)) || Truthy(a.confidence) || !Unhashable(b.metadata[ConfidenceLevel])
  {
  }

  /** A pass over the payload of a stable brief, whatever confidence stands beside it. */
  lemma NextPass(b: Brief, p: Dict, a: Arguments)
    requires Stable(b) && Holds(p, b) && Fits(p, a)
    ensures Canonical(p, a) == Returned(Reread(b, a, AsConfidence(Get(p, Confidence), BaseConfidence(a))))
  {
    var fallback := AsConfidence(Get(p, Confidence), BaseConfidence(a));
    TidySummaryIsKept(b.summary);
    TidySignalsAreReread(b.signals, fallback);
    NeatIsNotNull(b.confidenceNote);
  }

  // ---- Passing twice ---------------------------------------------------------------------------

  /** The score lookup of the next pass is given a list or an object. */
  predicate Stuck(b: Brief, a: Arguments) {
    ConfidenceLevel in b.metadata && Unhashable(b.metadata[ConfidenceLevel]) && !Truthy(a.confidence)
  }

  lemma LevelIsThere(b: Brief)
    requires Stable(b)
    ensures ConfidenceLevel in b.metadata
  {
  }

  lemma PassOverThePayload(b: Brief, a: Arguments)
    requires Stable(b) && ConfidenceLevel in b.metadata
    ensures Normalize(Payload(b), a) ==
            if Stuck(b, a) then Raised else Returned(Reread(b, a, BaseConfidence(a)))
  {
    hide Canonical, Legacy, Payload, LooksCanonical, Fits, Stable, Reread, BaseConfidence;
    PayloadHolds(b);
    StableBriefsFit(b, Payload(b), a);
    RaisesUnlessItFits(Payload(b), a);
    if !Stuck(b, a) { NextPass(b, Payload(b), a); }
  }

  /** Normalising a normalised brief with the same arguments, whatever they are: it raises where the score lookup
      is given a list or an object and no confidence, and otherwise scores the evidence again, trims the texts
      that came from the arguments and keeps the rest. */
  lemma SecondPass(raw: Dict, a: Arguments)
    ensures var once := Normalize(raw, a);
            once.Returned? ==>
              Normalize(Payload(once.value), a) ==
                if Stuck(once.value, a) then Raised else Returned(Reread(once.value, a, BaseConfidence(a)))
  {
    if Normalize(raw, a).Raised? { return; }
    var b := Normalize(raw, a).value;
    FirstPassIsStable(if LooksCanonical(raw) then raw else Payload(Legacy(raw, a).value), a, b);
    assert ConfidenceLevel in b.metadata by { LevelIsThere(b); }
    PassOverThePayload(b, a);
  }

  // ---- Exactly when a second pass changes nothing ----------------------------------------------

  /** The payload that the second pass trips over: a canonical one whose confidence level is a list or an
      object, where no confidence is passed. */
  predicate LevelIsNoKey(raw: Dict, a: Arguments) {
    LooksCanonical(raw) && Unhashable(LevelOf(Get(raw, Metadata))) && !Truthy(a.confidence)
  }

  lemma LevelGiven(metadata: Dict)
    requires Get(metadata, ConfidenceLevel).Str?
    ensures LevelOf(Obj(metadata)) == metadata[ConfidenceLevel]
  {
    hide LevelScore;
  }

  lemma LegacyLevelIsText(raw: Dict, a: Arguments)
    requires Legacy(raw, a).Returned?
    ensures Get(Legacy(raw, a).value.metadata, ConfidenceLevel).Str?
  {
    hide NoteTail, PriorityGrade;
  }

  lemma StuckExactly(raw: Dict, a: Arguments, b: Brief)
    requires Normalize(raw, a) == Returned(b)
    ensures Stuck(b, a) <==> LevelIsNoKey(raw, a)
  {
    hide Legacy;
    if LooksCanonical(raw) {
      MetadataSettles(Get(raw, Metadata));
    } else {
      var legacy := Legacy(raw, a).value;
      PayloadHolds(legacy);
      MetadataSettles(Obj(legacy.metadata));
      LegacyLevelIsText(raw, a);
      LevelGiven(legacy.metadata);
    }
  }

  /** A string that trimming shortens to something that is left. */
  predicate Padded(v: Json) {
    AsStr(v) != Null && AsStr(v) != v
  }

  /** A text is kept where the payload has one of its own, or the argument is not padded. */
  predicate TextKept(given: Json, argument: Json) {
    AsStr(given) != Null || !Padded(argument)
  }

  predicate TextsKept(raw: Dict, a: Arguments) {
    LooksCanonical(raw) ==>
      && TextKept(Get(raw, Outlook), a.outlook) && TextKept(Get(raw, DecisionLens), a.decisionLens)
      && TextKept(Get(raw, Domain), a.domain)
  }

  /** A fallback confidence that a later pass keeps: no number at all, or a float in [0, 1]. */
  predicate Steady(base: Json) {
    !Numeric(base) || (base.Float? && Proportion(base))
  }

  /** The evidence keeps its confidences, unless a canonical payload with no confidence of its own has an item
      without a number, and the argument that stands in is one that a later pass changes. */
  predicate ConfidencesKept(raw: Dict, a: Arguments) {
    || !LooksCanonical(raw) || Steady(BaseConfidence(a)) || Numeric(Get(raw, Confidence))
    || forall i :: i in EvidenceGiven(raw) && i.Obj? ==> Numeric(At(i, Confidence))
  }

  lemma TextIsKeptExactly(given: Json, argument: Json)
    ensures var once := Or(AsStr(given), argument);
            Or(AsStr(once), argument) == once <==> TextKept(given, argument)
  {
  }

  /** The conversion of a legacy body leaves no padded text to its arguments. */
  lemma LegacyTextIsKept(given: Json, argument: Json)
    ensures TextKept(Or(AsStr(given), argument), argument)
  {
  }

  lemma FallbackIsKeptExactly(given: Json, base: Json)
    ensures AsConfidence(AsConfidence(given, base), base) == AsConfidence(given, base) <==>
            Numeric(given) || Steady(base)
  {
  }

  predicate KeepsItsScore(e: Json, fallback: Json) {
    Rescored(e, AsConfidence(At(e, Confidence), fallback)) == e
  }

  lemma RescoringKeepsExactly(items: seq<Json>, fallback: Json)
    ensures AllRescored(items, fallback) == items <==> forall e :: e in items ==> KeepsItsScore(e, fallback)
  {
    hide Rescored, AsConfidence, At;
    if AllRescored(items, fallback) == items {
      forall e | e in items ensures KeepsItsScore(e, fallback) {
        var k :| 0 <= k < |items| && items[k] == e;
        assert AllRescored(items, fallback)[k] == e;
      }
    }
    if forall e :: e in items ==> KeepsItsScore(e, fallback) {
      forall k | 0 <= k < |items| ensures AllRescored(items, fallback)[k] == items[k] {
        assert items[k] in items;
      }
    }
  }

  lemma NumbersSettle(v: Json, first: Json, base: Json)
    ensures AsConfidence(AsConfidence(v, first), base) == AsConfidence(v, first) <==>
            Numeric(v) || AsConfidence(first, base) == first
  {
  }

  lemma ItemIsKeptExactly(item: Json, index: nat, first: Json, base: Json)
    requires NormalizeEvidence(item, index, first).Some?
    ensures var e := NormalizeEvidence(item, index, first).value;
            KeepsItsScore(e, base) <==> AsConfidence(first, base) == first || Numeric(At(item, Confidence))
  {
    hide NormalizeEvidence;
    var e := NormalizeEvidence(item, index, first).value;
    NormalEvidenceIsKept(e, index, first);
    NumbersSettle(At(item, Confidence), first, base);
    if Rescored(e, AsConfidence(At(e, Confidence), base)) == e {
      assert At(Rescored(e, AsConfidence(At(e, Confidence), base)), Confidence) ==
          AsConfidence(At(e, Confidence), base);
    }
  }

  lemma {:induction false} ScoresAreKeptExactly(items: seq<Json>, index: nat, first: Json, base: Json)
    ensures (forall e :: e in EvidenceItems(items, index, first) ==> KeepsItsScore(e, base)) <==>
            AsConfidence(first, base) == first || forall i :: i in items && i.Obj? ==> Numeric(At(i, Confidence))
  {
    hide NormalizeEvidence, AsConfidence, NormalEvidence, KeepsItsScore, Numeric;
    if items != [] {
      ScoresAreKeptExactly(items[1..], index + 1, first, base);
      var e := NormalizeEvidence(items[0], index, first);
      var rest := EvidenceItems(items[1..], index + 1, first);
      assert items == [items[0]] + items[1..];
      assert EvidenceItems(items, index, first) == (if e.Some? then [e.value] else []) + rest;
      if e.Some? {
        ItemIsKeptExactly(items[0], index, first, base);
        assert e.value in [e.value] + rest;
      }
    }
  }

  lemma EvidenceIsKeptExactly(items: seq<Json>, index: nat, first: Json, base: Json)
    ensures AllRescored(EvidenceItems(items, index, first), base) == EvidenceItems(items, index, first) <==>
            AsConfidence(first, base) == first || forall i :: i in items && i.Obj? ==> Numeric(At(i, Confidence))
  {
    RescoringKeepsExactly(EvidenceItems(items, index, first), base);
    ScoresAreKeptExactly(items, index, first, base);
  }

  lemma RereadKeepsExactly(b: Brief, a: Arguments, fallback: Json)
    requires SignalsTidy(b.signals)
    ensures Reread(b, a, fallback) == b <==>
            && AllRescored(EvidenceIn(b), fallback) == EvidenceIn(b)
            && Or(AsStr(b.outlook), a.outlook) == b.outlook
            && Or(AsStr(b.decisionLens), a.decisionLens) == b.decisionLens
            && Or(AsStr(b.domain), a.domain) == b.domain
  {
    hide AllRescored, AsStr, Or, NormalEvidence, Neat, AllNeat;
    var signals := b.signals[SignalEvidence := Arr(AllRescored(EvidenceIn(b), fallback))];
    if signals == b.signals { assert signals[SignalEvidence] == b.signals[SignalEvidence]; }
    if AllRescored(EvidenceIn(b), fallback) == EvidenceIn(b) {
      UpdateKeeps(b.signals, SignalEvidence, Arr(AllRescored(EvidenceIn(b), fallback)));
    }
  }

  lemma TextsOfBrief(c: Dict, a: Arguments, b: Brief)
    requires Canonical(c, a) == Returned(b)
    ensures b.outlook == Or(AsStr(Get(c, Outlook)), a.outlook)
    ensures b.decisionLens == Or(AsStr(Get(c, DecisionLens)), a.decisionLens)
    ensures b.domain == Or(AsStr(Get(c, Domain)), a.domain)
  {
  }

  lemma LegacyTextsSettle(raw: Dict, a: Arguments)
    requires Legacy(raw, a).Returned?
    ensures var c := Payload(Legacy(raw, a).value);
      && Get(c, Outlook) == Or(AsStr(Get(raw, Outlook)), a.outlook)
      && Get(c, DecisionLens) == Or(AsStr(Get(raw, DecisionLens)), a.decisionLens)
      && Get(c, Domain) == Or(AsStr(Get(raw, Domain)), a.domain)
  {
    PayloadHolds(Legacy(raw, a).value);
  }

  lemma FirstTextsAreKeptExactly(raw: Dict, a: Arguments, b: Brief)
    requires Normalize(raw, a) == Returned(b)
    ensures (&& Or(AsStr(b.outlook), a.outlook) == b.outlook
             && Or(AsStr(b.decisionLens), a.decisionLens) == b.decisionLens
             && Or(AsStr(b.domain), a.domain) == b.domain) <==> TextsKept(raw, a)
  {
    hide Canonical, Legacy, Payload, LooksCanonical, TextKept, AsStr, Or;
    var c := if LooksCanonical(raw) then raw else Payload(Legacy(raw, a).value);
    TextsOfBrief(c, a, b);
    TextIsKeptExactly(Get(c, Outlook), a.outlook);
    TextIsKeptExactly(Get(c, DecisionLens), a.decisionLens);
    TextIsKeptExactly(Get(c, Domain), a.domain);
    if !LooksCanonical(raw) {
      LegacyTextsSettle(raw, a);
      LegacyTextIsKept(Get(raw, Outlook), a.outlook);
      LegacyTextIsKept(Get(raw, DecisionLens), a.decisionLens);
      LegacyTextIsKept(Get(raw, Domain), a.domain);
    }
  }

  lemma StableSignals(b: Brief)
    requires Stable(b)
    ensures SignalsTidy(b.signals)
  {
  }

  lemma LegacyScores(raw: Dict, a: Arguments)
    requires Numeric(TextsOf(raw, a).score)
    ensures forall i :: i in EvidenceOfAll(Dicts(AsList(Get(raw, Findings))), TextsOf(raw, a).score) && i.Obj? ==>
              Numeric(At(i, Confidence))
  {
  }

  /** What the first pass hands to the second is kept by it exactly if its texts and its confidences are. */
  lemma FirstPassIsKeptExactly(raw: Dict, a: Arguments, b: Brief)
    requires Normalize(raw, a) == Returned(b)
    ensures Reread(b, a, BaseConfidence(a)) == b <==> TextsKept(raw, a) && ConfidencesKept(raw, a)
  {
    hide Canonical, Legacy, Payload, LooksCanonical, Stable, SignalsTidy, AllRescored, Steady, Numeric;
    var c := if LooksCanonical(raw) then raw else Payload(Legacy(raw, a).value);
    var base := BaseConfidence(a);
    var first := AsConfidence(Get(c, Confidence), base);
    FirstPassIsStable(c, a, b);
    StableSignals(b);
    RereadKeepsExactly(b, a, base);
    SignalsOf(c, a, b);
    EvidenceIsKeptExactly(EvidenceGiven(c), 0, first, base);
    FallbackIsKeptExactly(Get(c, Confidence), base);
    FirstTextsAreKeptExactly(raw, a, b);
    if !LooksCanonical(raw) {
      LegacyEvidence(raw, a);
      LegacyScores(raw, a);
    }
  }

  /** Normalisation is idempotent, for all payloads and all arguments, exactly where the confidence level is a key
      that the lookup takes or a confidence spares the lookup, the arguments give no padded text, and they give
      no confidence that a later pass changes. Short of that a second pass raises exactly for such a level. */
  lemma IdempotentExactly(raw: Dict, a: Arguments)
    ensures var once := Normalize(raw, a);
            once.Returned? ==>
              && (Normalize(Payload(once.value), a) == once <==>
                  !LevelIsNoKey(raw, a) && TextsKept(raw, a) && ConfidencesKept(raw, a))
              && (Normalize(Payload(once.value), a) == Raised <==> LevelIsNoKey(raw, a))
  {
    hide Normalize, Payload, Stuck, LevelIsNoKey, TextsKept, ConfidencesKept, Reread;
    var once := Normalize(raw, a);
    if once.Returned? {
      SecondPass(raw, a);
      StuckExactly(raw, a, once.value);
      FirstPassIsKeptExactly(raw, a, once.value);
    }
  }

  /** A number in the one spelling that compares equal to all its others: `1`, `1.0` and `True` are one number. */
  function Spelled(score: Json): Json {
    if Numeric(score) then Float(Number(score)) else score
  }

  function SpelledEvidence(items: seq<Json>): seq<Json> {
    seq(|items|, k requires 0 <= k < |items| => Rescored(items[k], Spelled(At(items[k], Confidence))))
  }

  /** Equal briefs, whatever the spelling of their evidence's confidences. */
  predicate SameBrief(x: Brief, y: Brief) {
    && SpelledEvidence(EvidenceIn(x)) == SpelledEvidence(EvidenceIn(y))
    && x.(signals := x.signals[SignalEvidence := Null]) == y.(signals := y.signals[SignalEvidence := Null])
  }

  lemma RescoredTwice(e: Json, score: Json, next: Json)
    requires NormalEvidence(e)
    ensures Rescored(Rescored(e, score), next) == Rescored(e, next) && At(Rescored(e, score), Confidence) == score
  {
  }

  lemma OneProportionIsOnlySpelled(e: Json, fallback: Json)
    requires NormalEvidence(e) && Proportion(At(e, Confidence))
    ensures var again := Rescored(e, AsConfidence(At(e, Confidence), fallback));
            Rescored(again, Spelled(At(again, Confidence))) == Rescored(e, Spelled(At(e, Confidence)))
  {
    RescoredTwice(e, AsConfidence(At(e, Confidence), fallback), Spelled(At(e, Confidence)));
  }

  lemma ProportionsAreOnlySpelled(items: seq<Json>, fallback: Json)
    requires forall e :: e in items ==> NormalEvidence(e) && Proportion(At(e, Confidence))
    ensures SpelledEvidence(AllRescored(items, fallback)) == SpelledEvidence(items)
  {
    hide NormalEvidence, AsConfidence;
    var again := AllRescored(items, fallback);
    forall k | 0 <= k < |items| ensures SpelledEvidence(again)[k] == SpelledEvidence(items)[k] {
      assert items[k] in items;
      OneProportionIsOnlySpelled(items[k], fallback);
    }
  }

  lemma FirstPassSignalsAreTidy(raw: Dict, a: Arguments, b: Brief)
    requires Normalize(raw, a) == Returned(b)
    ensures SignalsTidy(b.signals)
  {
    hide Canonical, Legacy, Payload, LooksCanonical, Stable, SignalsTidy;
    FirstPassIsStable(if LooksCanonical(raw) then raw else Payload(Legacy(raw, a).value), a, b);
    StableSignals(b);
  }

  lemma TidyEvidence(b: Brief)
    requires SignalsTidy(b.signals)
    ensures forall e :: e in EvidenceIn(b) ==> NormalEvidence(e)
  {
    hide NormalEvidence;
  }

  lemma RereadOnlySpells(raw: Dict, a: Arguments, b: Brief)
    requires Normalize(raw, a) == Returned(b) && TextsKept(raw, a) && Proportion(BaseConfidence(a))
    ensures SameBrief(Reread(b, a, BaseConfidence(a)), b)
  {
    hide Normalize;
    FirstTextsAreKeptExactly(raw, a, b);
    EvidenceIsProportionalExactly(raw, a);
    FirstPassSignalsAreTidy(raw, a, b);
    TidyEvidence(b);
    ProportionsAreOnlySpelled(EvidenceIn(b), BaseConfidence(a));
  }

  lemma SameAsItself(b: Brief)
    ensures SameBrief(b, b)
  {
  }

  /** For the arguments that callers are promised it for, only the level is left: texts that are trimmed or
      absent, and a confidence that is absent or in [0, 1]. Where that is written as an integer the second pass
      may spell it as a float, which is the same number. */
  lemma IdempotentExactlyWhereTheLevelIsAKey(raw: Dict, a: Arguments)
    requires !Numeric(BaseConfidence(a)) || Proportion(BaseConfidence(a))
    requires !Padded(a.outlook) && !Padded(a.decisionLens) && !Padded(a.domain)
    ensures var once := Normalize(raw, a);
            once.Returned? ==>
              var again := Normalize(Payload(once.value), a);
              && (again.Returned? && SameBrief(again.value, once.value) <==> !LevelIsNoKey(raw, a))
              && (again == Raised <==> LevelIsNoKey(raw, a))
              && (Steady(BaseConfidence(a)) ==> (again == once <==> !LevelIsNoKey(raw, a)))
  {
    hide Normalize, Payload, LevelIsNoKey, SameBrief, Stuck, Reread, BaseConfidence;
    var once := Normalize(raw, a);
    if once.Returned? {
      IdempotentExactly(raw, a);
      SecondPass(raw, a);
      if Proportion(BaseConfidence(a)) { RereadOnlySpells(raw, a, once.value); } else { SameAsItself(once.value); }
    }
  }

  // ---- Two passes always settle ----------------------------------------------------------------

  lemma RescoredIsNormal(e: Json, score: Json)
    requires NormalEvidence(e)
    ensures NormalEvidence(Rescored(e, score)) && At(Rescored(e, score), Confidence) == score
  {
    hide EvidenceJson, Neat, AllNeat;
  }

  lemma RereadIsStable(b: Brief, a: Arguments, fallback: Json)
    requires Stable(b)
    ensures Stable(Reread(b, a, fallback))
  {
    hide QuestionsSection, OverviewSection, AnalysisSection, AnalysisFits, ImpactSection, ImpactFits, ActionsSection;
    var items := EvidenceIn(b);
    forall e | e in AllRescored(items, fallback) ensures NormalEvidence(e) {
      var k :| 0 <= k < |items| && e == AllRescored(items, fallback)[k];
      assert items[k] in items;
      RescoredIsNormal(items[k], AsConfidence(At(items[k], Confidence), fallback));
    }
  }

  lemma TextSettlesOnTheSecondReading(given: Json, argument: Json)
    ensures var once := Or(AsStr(given), argument);
            var twice := Or(AsStr(once), argument);
            Or(AsStr(twice), argument) == twice
  {
  }

  /** A confidence that is no number after the first pass is a fallback that is no number. */
  lemma {:induction false} UnscoredItemsHaveNoNumber(items: seq<Json>, index: nat, given: Json, base: Json)
    ensures forall e :: e in EvidenceItems(items, index, AsConfidence(given, base)) && !Numeric(At(e, Confidence)) ==>
              !Numeric(base)
  {
    hide NormalEvidence;
    if items != [] { UnscoredItemsHaveNoNumber(items[1..], index + 1, given, base); }
  }

  lemma ScoresSettle(v: Json, base: Json)
    requires !Numeric(v) ==> !Numeric(base)
    ensures AsConfidence(AsConfidence(v, base), base) == AsConfidence(v, base)
  {
  }

  lemma EvidenceSettlesOnTheSecondScoring(items: seq<Json>, base: Json)
    requires forall e :: e in items && !Numeric(At(e, Confidence)) ==> !Numeric(base)
    ensures AllRescored(AllRescored(items, base), base) == AllRescored(items, base)
  {
    hide AsConfidence, Numeric, EvidenceJson;
    forall k | 0 <= k < |items|
      ensures AllRescored(AllRescored(items, base), base)[k] == AllRescored(items, base)[k]
    {
      assert items[k] in items;
      ScoresSettle(At(items[k], Confidence), base);
    }
  }

  lemma CanonicalOf(raw: Dict, a: Arguments, b: Brief) returns (c: Dict)
    requires Normalize(raw, a) == Returned(b)
    ensures Canonical(c, a) == Returned(b)
  {
    hide Canonical, Legacy, Payload, LooksCanonical;
    c := if LooksCanonical(raw) then raw else Payload(Legacy(raw, a).value);
  }

  /** Whatever the payload and the arguments: a third pass changes nothing that the second has left. */
  lemma TwoPassesSettle(raw: Dict, a: Arguments)
    ensures var once := Normalize(raw, a);
            once.Returned? ==>
              var twice := Normalize(Payload(once.value), a);
              twice.Returned? ==> Normalize(Payload(twice.value), a) == twice
  {
    var once := Normalize(raw, a);
    if once.Raised? || Normalize(Payload(once.value), a).Raised? { return; }
    var b, base := once.value, BaseConfidence(a);
    SecondPass(raw, a);
    var c := CanonicalOf(raw, a, b);
    FirstPassIsStable(c, a, b);
    LevelIsThere(b);
    RereadIsStable(b, a, base);
    var twice := Reread(b, a, base);
    PassOverThePayload(twice, a);
    StableSignals(twice);
    RereadKeepsExactly(twice, a, base);
    SignalsOf(c, a, b);
    UnscoredItemsHaveNoNumber(EvidenceGiven(c), 0, Get(c, Confidence), base);
    EvidenceSettlesOnTheSecondScoring(EvidenceIn(b), base);
    TextsOfBrief(c, a, b);
    TextSettlesOnTheSecondReading(Get(c, Outlook), a.outlook);
    TextSettlesOnTheSecondReading(Get(c, DecisionLens), a.decisionLens);
    TextSettlesOnTheSecondReading(Get(c, Domain), a.domain);
  }

  const NO_ARGUMENTS := Arguments(Str("t"), Null, Null, Null, Null, Null)

  /** A payload on which normalisation returns once and raises the second time. */
  const LIST_AS_LEVEL: Dict := map[
    Metadata := Obj(map[ConfidenceLevel := Arr([])]), ExecutiveSummary := Obj(map[]),
    KeyIntelligenceQuestions := Obj(map[]), Confidence := Float(0.9)]

  lemma DefaultsFit()
    ensures AnalysisFits(Null) && ImpactFits(Null)
  {
  }

  lemma ReturnsOnce(raw: Dict, a: Arguments)
    requires LooksCanonical(raw) && AnalysisFits(Get(raw, Analysis)) && ImpactFits(Get(raw, ImpactAssessment))
    requires Truthy(Get(raw, Confidence))
    ensures Normalize(raw, a).Returned?
  {
    hide Canonical, AnalysisFits, ImpactFits, LooksCanonical, LevelOf;
    RaisesUnlessItFits(raw, a);
  }

  lemma TheListTrips()
    ensures LevelIsNoKey(LIST_AS_LEVEL, NO_ARGUMENTS)
    ensures Get(LIST_AS_LEVEL, Analysis) == Null && Get(LIST_AS_LEVEL, ImpactAssessment) == Null
    ensures Truthy(Get(LIST_AS_LEVEL, Confidence))
  {
  }

  lemma NoArgumentsAreTidy()
    ensures Steady(BaseConfidence(NO_ARGUMENTS))
    ensures !Padded(NO_ARGUMENTS.outlook) && !Padded(NO_ARGUMENTS.decisionLens) && !Padded(NO_ARGUMENTS.domain)
  {
  }

  lemma AListAsTheLevelRaisesTheSecondTime()
    ensures Normalize(LIST_AS_LEVEL, NO_ARGUMENTS).Returned?
    ensures Normalize(Payload(Normalize(LIST_AS_LEVEL, NO_ARGUMENTS).value), NO_ARGUMENTS) == Raised
  {
    hide Normalize, Payload, AnalysisFits, ImpactFits, LevelOf, Padded, Steady, BaseConfidence;
    DefaultsFit();
    TheListTrips();
    NoArgumentsAreTidy();
    ReturnsOnce(LIST_AS_LEVEL, NO_ARGUMENTS);
    IdempotentExactlyWhereTheLevelIsAKey(LIST_AS_LEVEL, NO_ARGUMENTS);
  }
}
