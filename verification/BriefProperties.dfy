/** What normalisation of briefs keeps, whatever it is given. */
module BriefProperties {
  import opened KeyStore
  import opened Text
  import opened BriefJson
  import opened BriefSchema

  // ---- Claims, evidence and sections settle ----------------------------------------------------

  lemma NormalClaimIsKept(item: Json, index: nat)
    requires NormalClaim(item)
    ensures NormalizeClaim(item, index) == Some(item)
  {
    hide AsStr, AsStrList, Or, OrList, SigRef, Trimmed, Texts;
    assert item.Obj?;
  }

  /** Evidence that is normal keeps everything but its confidence. */
  lemma NormalEvidenceIsKept(item: Json, index: nat, fallback: Json)
    requires NormalEvidence(item)
    ensures NormalizeEvidence(item, index, fallback) ==
            Some(Rescored(item, AsConfidence(At(item, Confidence), fallback)))
    ensures Rescored(item, At(item, Confidence)) == item
  {
    hide Neat, AsStr, AsStrList, Or, SigRef, ContributionOf, AsConfidence;
    assert item.Obj?;
  }

  lemma {:induction false} NormalClaimsAreKept(items: seq<Json>, index: nat)
    requires forall c :: c in items ==> NormalClaim(c)
    ensures Claims(items, index) == items
  {
    if items != [] {
      NormalClaimIsKept(items[0], index);
      NormalClaimsAreKept(items[1..], index + 1);
    }
  }

  /** The places of the items that become claims; `index` is the first item's place. */
  function UsablePlaces(items: seq<Json>, index: nat): seq<nat> {
    if items == [] then []
    else (if NormalizeClaim(items[0], index).Some? then [index] else []) + UsablePlaces(items[1..], index + 1)
  }

  /** Place p is that of an item that becomes a claim. */
  predicate UsableAt(items: seq<Json>, index: nat, p: nat) {
    index <= p < index + |items| && NormalizeClaim(items[p - index], p).Some?
  }

  lemma {:induction false} UsablePlacesAreExact(items: seq<Json>, index: nat)
    ensures forall p :: p in UsablePlaces(items, index) <==> UsableAt(items, index, p)
    ensures forall j, k :: 0 <= j < k < |UsablePlaces(items, index)| ==>
      UsablePlaces(items, index)[j] < UsablePlaces(items, index)[k]
  {
    if items != [] {
      hide NormalizeClaim;
      var rest, next := items[1..], index + 1;
      UsablePlacesAreExact(rest, next);
      var all, later := UsablePlaces(items, index), UsablePlaces(rest, next);
      forall p: nat ensures p in all <==> UsableAt(items, index, p) {
        assert p in later <==> UsableAt(rest, next, p);
        assert UsableAt(rest, next, p) <==> p > index && UsableAt(items, index, p) by {
          if next <= p < next + |rest| { assert rest[p - next] == items[p - index]; }
        }
      }
      forall k | 0 <= k < |later| ensures index < later[k] { assert later[k] in later; }
    }
  }

  /** The item at place p becomes claim c. */
  predicate Becomes(items: seq<Json>, index: nat, p: nat, c: Json) {
    index <= p < index + |items| && NormalizeClaim(items[p - index], p) == Some(c)
  }

  lemma BecomesInTheRest(items: seq<Json>, index: nat, p: nat, c: Json)
    requires items != [] && Becomes(items[1..], index + 1, p, c)
    ensures Becomes(items, index, p, c)
  {
    assert items[1..][p - (index + 1)] == items[p - index];
  }

  lemma {:induction false} AsManyClaimsAsUsableItems(items: seq<Json>, index: nat)
    ensures |Claims(items, index)| == |UsablePlaces(items, index)|
  {
    hide NormalizeClaim;
    if items != [] { AsManyClaimsAsUsableItems(items[1..], index + 1); }
  }

  lemma FirstBecomes(items: seq<Json>, index: nat)
    requires items != [] && NormalizeClaim(items[0], index).Some?
    ensures Becomes(items, index, index, NormalizeClaim(items[0], index).value)
  {
  }

  /** The claims are what the usable items become, each numbered by its place among all items, in their order and
      each once: claim k is that of the k-th usable place. */
  lemma {:induction false} ClaimsAreThoseOfTheItems(items: seq<Json>, index: nat, k: nat)
    requires k < |Claims(items, index)|
    ensures k < |UsablePlaces(items, index)|
    ensures Becomes(items, index, UsablePlaces(items, index)[k], Claims(items, index)[k])
  {
    hide NormalizeClaim, Becomes;
    AsManyClaimsAsUsableItems(items, index);
    AsManyClaimsAsUsableItems(items[1..], index + 1);
    var n := if NormalizeClaim(items[0], index).Some? then 1 else 0;
    if k >= n {
      ClaimsAreThoseOfTheItems(items[1..], index + 1, k - n);
      BecomesInTheRest(items, index, UsablePlaces(items[1..], index + 1)[k - n], Claims(items, index)[k]);
    } else {
      FirstBecomes(items, index);
    }
  }

  /** A claim keeps the signals its item gives; an item that gives none is referred to by its own place. */
  lemma UnreferencedClaimsNameTheirPlace(item: Json, index: nat)
    requires NormalizeClaim(item, index).Some?
    ensures At(NormalizeClaim(item, index).value, SignalRefs) ==
            if AsStrList(At(item, SignalRefs)) == Arr([]) then Arr([SigRef(index)]) else AsStrList(At(item, SignalRefs))
  {
    hide SigRef, AsStr, Or;
  }

  /** Every confidence of the normalised list is a proportion if the fallback is one; and any other fallback
      reaches the list through an item without a number. */
  lemma {:induction false} EvidenceIsProportional(items: seq<Json>, index: nat, fallback: Json)
    ensures (forall e :: e in EvidenceItems(items, index, fallback) ==> Proportion(At(e, Confidence)))
       <==> Proportion(fallback) || forall i :: i in items && i.Obj? ==> Numeric(At(i, Confidence))
  {
    if items != [] {
      EvidenceIsProportional(items[1..], index + 1, fallback);
      var e := NormalizeEvidence(items[0], index, fallback);
      var rest := EvidenceItems(items[1..], index + 1, fallback);
      assert items == [items[0]] + items[1..];
      assert EvidenceItems(items, index, fallback) == (if e.Some? then [e.value] else []) + rest;
      assert e.Some? ==> e.value in [e.value] + rest;
    }
  }

  lemma UpdateKeeps(m: Dict, k: Key, v: Json)
    requires k in m && m[k] == v
    ensures m[k := v] == m
  {
  }

  lemma MergedKeeps(defaults: Dict, given: Dict)
    ensures defaults + (defaults + given) == defaults + given
  {
  }

  lemma AnalysisSettles(given: Json)
    requires AnalysisFits(given)
    ensures AnalysisFits(Obj(AnalysisSection(given)))
    ensures AnalysisSection(Obj(AnalysisSection(given))) == AnalysisSection(given)
  {
    hide AsStrList, Neat, AllNeat, DEFAULT_DRIVERS, DEFAULT_RISKS;
    var m := AnalysisSection(given);
    MergedKeeps(DEFAULT_ANALYSIS, AsDict(given));
    assert DEFAULT_ANALYSIS + m == m;
    var d := m[Drivers].fields;
    UpdateKeeps(d, Technology, AsStrList(d[Technology]));
    UpdateKeeps(d, Market, AsStrList(d[Market]));
    UpdateKeeps(d, Regulatory, AsStrList(d[Regulatory]));
    UpdateKeeps(m, Drivers, Obj(d));
    UpdateKeeps(m, PatternsDetected, AsStrList(m[PatternsDetected]));
  }

  lemma ActionsSettle(given: Json)
    ensures ActionsSection(Obj(ActionsSection(given))) == ActionsSection(given)
  {
    var m := ActionsSection(given);
    assert DEFAULT_ACTIONS + m == m;
    assert ActionsSection(Obj(m)) == m;
  }

  // ---- Whole briefs ----------------------------------------------------------------------------

  /** What a canonical payload gives back under each of the names that normalisation reads. */
  predicate Holds(c: Dict, b: Brief) {
    && Get(c, Metadata) == Obj(b.metadata) && Get(c, ExecutiveSummary) == Obj(b.summary)
    && Get(c, KeyIntelligenceQuestions) == Obj(b.questions) && Get(c, SituationOverview) == Obj(b.overview)
    && Get(c, SignalsAndIndicators) == Obj(b.signals) && Get(c, Analysis) == Obj(b.analysis)
    && Get(c, ImpactAssessment) == Obj(b.impact) && Get(c, RecommendedActions) == Obj(b.actions)
    && Get(c, KeySignals) == b.keySignals && Get(c, Limitations) == b.limitations && Get(c, Outlook) == b.outlook
    && Get(c, DecisionLens) == b.decisionLens && Get(c, ConfidenceNote) == b.confidenceNote
    && Get(c, Domain) == b.domain && Get(c, Tags) == b.tags && Get(c, ReadTime) == b.readTime
    && Get(c, Author) == b.author
  }

  lemma SummariesHold(b: Brief)
    ensures var c := Payload(b);
      && Get(c, Metadata) == Obj(b.metadata) && Get(c, ExecutiveSummary) == Obj(b.summary)
      && Get(c, KeyIntelligenceQuestions) == Obj(b.questions) && Get(c, SituationOverview) == Obj(b.overview)
  {
  }

  lemma AssessmentsHold(b: Brief)
    ensures var c := Payload(b);
      && Get(c, SignalsAndIndicators) == Obj(b.signals) && Get(c, Analysis) == Obj(b.analysis)
      && Get(c, ImpactAssessment) == Obj(b.impact) && Get(c, RecommendedActions) == Obj(b.actions)
  {
  }

  lemma ListsHold(b: Brief)
    ensures var c := Payload(b);
      && Get(c, KeySignals) == b.keySignals && Get(c, Limitations) == b.limitations && Get(c, Tags) == b.tags
      && Get(c, ReadTime) == b.readTime && Get(c, Confidence) == Null
  {
  }

  lemma TextsHold(b: Brief)
    ensures var c := Payload(b);
      && Get(c, Outlook) == b.outlook && Get(c, DecisionLens) == b.decisionLens
      && Get(c, ConfidenceNote) == b.confidenceNote && Get(c, Domain) == b.domain && Get(c, Author) == b.author
  {
  }

  lemma PayloadHolds(b: Brief)
    ensures Holds(Payload(b), b) && LooksCanonical(Payload(b)) && Get(Payload(b), Confidence) == Null
  {
    hide Payload, Get;
    SummariesHold(b);
    AssessmentsHold(b);
    ListsHold(b);
    TextsHold(b);
  }

  lemma NeatIsNotNull(v: Json)
    requires Neat(v)
    ensures v != Null
  {
  }

  lemma FitsBefore(c: Dict, a: Arguments)
    requires Canonical(c, a).Returned?
    ensures Fits(c, a) && AnalysisFits(Get(c, Analysis)) && ImpactFits(Get(c, ImpactAssessment))
  {
    hide NoteFor, NoteTail;
  }

  lemma MetadataSettles(given: Json)
    ensures MetadataSection(Obj(MetadataSection(given))) == MetadataSection(given)
    ensures ConfidenceLevel in MetadataSection(given) && LevelOf(given) == MetadataSection(given)[ConfidenceLevel]
  {
    MergedKeeps(DEFAULT_METADATA, AsDict(given));
  }

  lemma QuestionsSettle(given: Json)
    ensures QuestionsSection(Obj(QuestionsSection(given))) == QuestionsSection(given)
  {
    hide DEFAULT_QUESTIONS;
    MergedKeeps(DEFAULT_QUESTIONS, AsDict(given));
  }

  lemma OverviewSettles(given: Json)
    ensures OverviewSection(Obj(OverviewSection(given))) == OverviewSection(given)
  {
    hide DEFAULT_OVERVIEW;
    MergedKeeps(DEFAULT_OVERVIEW, AsDict(given));
  }

  lemma ImpactSettles(given: Json)
    ensures ImpactSection(Obj(ImpactSection(given))) == ImpactSection(given)
    ensures ImpactFits(given) ==> ImpactFits(Obj(ImpactSection(given)))
  {
    MergedKeeps(DEFAULT_IMPACT, AsDict(given));
  }

  lemma RaisesUnlessItFits(c: Dict, a: Arguments)
    ensures Canonical(c, a) == Raised <==> !Fits(c, a)
  {
    hide Fits, NoteFor, NoteTail;
  }

  /** What every reader of a stored brief relies on. */
  predicate WellFormed(b: Brief) {
    && LooksCanonical(Payload(b))
    && Get(b.summary, Insights).Arr? && (forall c :: c in Get(b.summary, Insights).items ==> NormalClaim(c))
    && Get(b.signals, SignalEvidence).Arr?
    && (forall e :: e in Get(b.signals, SignalEvidence).items ==> NormalEvidence(e))
    && NeatList(b.keySignals) && NeatList(b.limitations) && NeatList(b.tags)
    && Neat(b.confidenceNote) && Neat(b.author) && IsInt(b.readTime)
  }

  predicate ProportionalEvidence(b: Brief) {
    forall e :: e in AsList(Get(b.signals, SignalEvidence)) ==> Proportion(At(e, Confidence))
  }

  function EvidenceGiven(c: Dict): seq<Json> {
    AsList(Get(AsDict(Get(c, SignalsAndIndicators)), SignalEvidence))
  }

  lemma SignalsOf(c: Dict, a: Arguments, b: Brief)
    requires Canonical(c, a) == Returned(b)
    ensures Get(b.signals, SignalEvidence) ==
            Arr(EvidenceItems(EvidenceGiven(c), 0, AsConfidence(Get(c, Confidence), BaseConfidence(a))))
  {
    hide NoteFor, MetadataSection, SummarySection, QuestionsSection, OverviewSection, AnalysisSection, AnalysisFits,
         ImpactSection, ImpactFits;
  }

  lemma LegacyEvidence(raw: Dict, a: Arguments)
    requires Legacy(raw, a).Returned?
    ensures EvidenceGiven(Payload(Legacy(raw, a).value)) ==
            EvidenceOfAll(Dicts(AsList(Get(raw, Findings))), TextsOf(raw, a).score)
    ensures Numeric(TextsOf(raw, a).score)
  {
    PayloadHolds(Legacy(raw, a).value);
  }

  /** Every confidence of the stored evidence is a proportion, unless a canonical payload with no confidence of
      its own has an item without a number, and the argument that stands in is not one either. */
  lemma EvidenceIsProportionalExactly(raw: Dict, a: Arguments)
    ensures Normalize(raw, a).Returned? ==>
            (ProportionalEvidence(Normalize(raw, a).value) <==>
             !LooksCanonical(raw) || Proportion(BaseConfidence(a)) || Numeric(Get(raw, Confidence)) ||
             forall i :: i in EvidenceGiven(raw) && i.Obj? ==> Numeric(At(i, Confidence)))
  {
    if Normalize(raw, a).Raised? { return; }
    var b := Normalize(raw, a).value;
    var c := if LooksCanonical(raw) then raw else Payload(Legacy(raw, a).value);
    var fallback := AsConfidence(Get(c, Confidence), BaseConfidence(a));
    SignalsOf(c, a, b);
    EvidenceIsProportional(EvidenceGiven(c), 0, fallback);
    if !LooksCanonical(raw) {
      LegacyEvidence(raw, a);
    }
  }

  function AllRescored(items: seq<Json>, fallback: Json): (r: seq<Json>)
    ensures |r| == |items|
    ensures forall k :: 0 <= k < |items| ==>
              r[k] == Rescored(items[k], AsConfidence(At(items[k], Confidence), fallback))
  {
    seq(|items|, k requires 0 <= k < |items| => Rescored(items[k], AsConfidence(At(items[k], Confidence), fallback)))
  }

  /** Evidence that is normal keeps its place too. */
  lemma {:induction false} NormalEvidenceKeepsItsPlace(items: seq<Json>, index: nat, fallback: Json)
    requires forall e :: e in items ==> NormalEvidence(e)
    ensures EvidenceItems(items, index, fallback) == AllRescored(items, fallback)
  {
    hide NormalizeEvidence, NormalEvidence, Rescored, AsConfidence;
    if items != [] {
      assert NormalEvidence(items[0]);
      NormalEvidenceKeepsItsPlace(items[1..], index + 1, fallback);
      NormalEvidenceIsKept(items[0], index, fallback);
    }
  }

  lemma SummaryOf(c: Dict, a: Arguments, b: Brief)
    requires Canonical(c, a) == Returned(b)
    ensures Get(b.summary, Insights) == Arr(Claims(AsList(Get(AsDict(Get(c, ExecutiveSummary)), Insights)), 0))
    ensures b.keySignals == AsStrList(Get(c, KeySignals))
  {
    hide NoteFor, MetadataSection, QuestionsSection, OverviewSection, SignalsSection, AnalysisSection, AnalysisFits,
         ImpactSection, ImpactFits, ActionsSection;
  }

  lemma LegacyClaims(raw: Dict, a: Arguments)
    requires Legacy(raw, a).Returned?
    ensures var c := Payload(Legacy(raw, a).value);
      var claims := ClaimsOf(Dicts(AsList(Get(raw, Findings))));
      && Get(AsDict(Get(c, ExecutiveSummary)), Insights) == Arr(claims)
      && Get(c, KeySignals) == Arr(ClaimTexts(Between(claims, 0, 3)))
  {
    hide AllNeat, AsConfidence, AsStr, AsStrList, Between, CategoryOf, ClaimTexts, ConfidenceGrade, DEFAULT_DRIVERS,
         DEFAULT_RISKS, DefaultAuthor, EvidenceOf, NoteFor, Or, Payload, PriorityGrade, Truthy;
    PayloadHolds(Legacy(raw, a).value);
  }

  lemma NumbersNeedNoFallback(v: Json, fallback: Json)
    requires Numeric(v)
    ensures AsConfidence(v, fallback) == AsConfidence(v, Null)
  {
  }

  lemma ScoreIsAField(finding: Dict, index: nat, s: Json, t: Json)
    ensures Rescored(EvidenceOf(finding, index, s), t) == EvidenceOf(finding, index, t)
  {
  }

  lemma EvidenceTakesTheScore(findings: seq<Dict>, score: Json, fallback: Json)
    requires Numeric(score)
    ensures EvidenceItems(EvidenceOfAll(findings, score), 0, fallback) ==
            EvidenceOfAll(findings, AsConfidence(score, Null))
  {
    hide AsConfidence, EvidenceItems, EvidenceOf, NormalEvidence, Rescored;
    var items := EvidenceOfAll(findings, score);
    NormalEvidenceKeepsItsPlace(items, 0, fallback);
    NumbersNeedNoFallback(score, fallback);
    forall k | 0 <= k < |findings|
      ensures AllRescored(items, fallback)[k] == EvidenceOf(findings[k], k, AsConfidence(score, Null))
    {
      assert items[k] in items;
      ScoreIsAField(findings[k], k, score, AsConfidence(score, Null));
    }
  }

  /** Nothing of a legacy body's findings is lost: each becomes, in order, one claim and one piece of evidence;
      the score is the same for all the evidence, and the first three claims are the key signals. */
  lemma FindingsAreKept(raw: Dict, a: Arguments)
    requires !LooksCanonical(raw)
    ensures var r := Normalize(raw, a);
      var findings := Dicts(AsList(Get(raw, Findings)));
      var score := AsConfidence(TextsOf(raw, a).score, Null);
      r.Returned? ==>
        && Get(r.value.summary, Insights) == Arr(ClaimsOf(findings))
        && Get(r.value.signals, SignalEvidence) == Arr(EvidenceOfAll(findings, score))
        && r.value.keySignals == Arr(ClaimTexts(Between(ClaimsOf(findings), 0, 3)))
  {
    if Normalize(raw, a).Raised? { return; }
    var b := Normalize(raw, a).value;
    var c := Payload(Legacy(raw, a).value);
    var findings := Dicts(AsList(Get(raw, Findings)));
    var score := TextsOf(raw, a).score;
    var fallback := AsConfidence(Get(c, Confidence), BaseConfidence(a));
    SignalsOf(c, a, b);
    SummaryOf(c, a, b);
    LegacyEvidence(raw, a);
    LegacyClaims(raw, a);
    NormalClaimsAreKept(ClaimsOf(findings), 0);
    EvidenceTakesTheScore(findings, score, fallback);
  }

  /** The evidence of a finding stands for its claim: the claim's first signal, the same sources, and the claim's
      text down to its first sentence. */
  lemma EvidenceMatchesItsClaim(finding: Dict, index: nat, score: Json)
    ensures var c, e := ClaimOf(finding, index), EvidenceOf(finding, index, score);
      && At(e, SignalRef) == At(c, SignalRefs).items[0]
      && At(e, SourceRefs) == At(c, SourceRefs)
      && (AsStr(Get(finding, Finding)) != Null ==> At(e, SignalTitle) == FirstSentence(At(c, ClaimText)))
      && (AsStr(Get(finding, Finding)) == Null ==> At(e, SignalTitle) == At(c, ClaimText))
  {
  }

  lemma ScalarsOf(c: Dict, a: Arguments, b: Brief)
    requires Canonical(c, a) == Returned(b)
    ensures NeatList(b.keySignals) && NeatList(b.limitations) && NeatList(b.tags)
    ensures Neat(b.confidenceNote) && Neat(b.author) && IsInt(b.readTime)
  {
    hide Get;
  }

  lemma NormalizedIsWellFormed(raw: Dict, a: Arguments)
    ensures Normalize(raw, a).Returned? ==> WellFormed(Normalize(raw, a).value)
  {
    hide Canonical, Legacy;
    if Normalize(raw, a).Raised? { return; }
    var b := Normalize(raw, a).value;
    var c := if LooksCanonical(raw) then raw else Payload(Legacy(raw, a).value);
    PayloadHolds(b);
    SummaryOf(c, a, b);
    SignalsOf(c, a, b);
    ScalarsOf(c, a, b);
  }

  /** Every member that was given, but for the named ones, is in the result with its value. */
  predicate Keeps(given: Json, result: Dict, except: set<Key>) {
    forall k :: k in AsDict(given) && k !in except ==> k in result && result[k] == AsDict(given)[k]
  }

  /** Nothing a canonical payload gives is lost: members that are not normalised keep their value, and the
      normalised ones keep it where it is tidy already. */
  predicate KeepsWhatIsGiven(raw: Dict, b: Brief) {
    && Keeps(Get(raw, Metadata), b.metadata, {})
    && Keeps(Get(raw, ExecutiveSummary), b.summary, {Insights})
    && Keeps(Get(raw, KeyIntelligenceQuestions), b.questions, {})
    && Keeps(Get(raw, SituationOverview), b.overview, {})
    && Keeps(Get(raw, SignalsAndIndicators), b.signals, {LeadingIndicators, Triggers, SignalEvidence})
    && Keeps(Get(raw, Analysis), b.analysis, {Drivers, PatternsDetected})
    && Keeps(At(Get(raw, Analysis), Drivers), AsDict(Get(b.analysis, Drivers)), {Technology, Market, Regulatory})
    && Keeps(Get(raw, ImpactAssessment), b.impact, {})
    && Keeps(Get(raw, RecommendedActions), b.actions, {Immediate, Strategic})
    && (NeatList(Get(raw, KeySignals)) ==> b.keySignals == Get(raw, KeySignals))
    && (NeatList(Get(raw, Limitations)) ==> b.limitations == Get(raw, Limitations))
    && (NeatList(Get(raw, Tags)) ==> b.tags == Get(raw, Tags))
    && (Neat(Get(raw, Outlook)) ==> b.outlook == Get(raw, Outlook))
    && (Neat(Get(raw, DecisionLens)) ==> b.decisionLens == Get(raw, DecisionLens))
    && (Neat(Get(raw, ConfidenceNote)) ==> b.confidenceNote == Get(raw, ConfidenceNote))
    && (Neat(Get(raw, Domain)) ==> b.domain == Get(raw, Domain))
    && (Neat(Get(raw, Author)) ==> b.author == Get(raw, Author))
    && (IsInt(Get(raw, ReadTime)) ==> b.readTime == Get(raw, ReadTime))
  }

  lemma PlainSectionsKeep(given: Json)
    ensures Keeps(given, MetadataSection(given), {}) && Keeps(given, QuestionsSection(given), {})
    ensures Keeps(given, OverviewSection(given), {}) && Keeps(given, ImpactSection(given), {})
  {
    hide DEFAULT_METADATA, DEFAULT_QUESTIONS, DEFAULT_OVERVIEW, DEFAULT_IMPACT;
  }

  lemma ListSectionsKeep(given: Json, fallback: Json)
    ensures Keeps(given, SummarySection(given), {Insights})
    ensures Keeps(given, SignalsSection(given, fallback), {LeadingIndicators, Triggers, SignalEvidence})
    ensures Keeps(given, ActionsSection(given), {Immediate, Strategic})
  {
    hide Claims, EvidenceItems, AsStrList;
  }

  lemma AnalysisKeeps(given: Json)
    requires AnalysisFits(given)
    ensures Keeps(given, AnalysisSection(given), {Drivers, PatternsDetected})
    ensures Keeps(At(given, Drivers), AsDict(Get(AnalysisSection(given), Drivers)), {Technology, Market, Regulatory})
  {
    hide AsStrList, DEFAULT_DRIVERS, DEFAULT_RISKS;
  }

  lemma GivenMembersAreKept(raw: Dict, a: Arguments)
    requires LooksCanonical(raw)
    ensures Normalize(raw, a).Returned? ==> KeepsWhatIsGiven(raw, Normalize(raw, a).value)
  {
    hide SummarySection, SignalsSection, AnalysisSection, AnalysisFits, ImpactFits, ActionsSection;
    if Normalize(raw, a).Raised? { return; }
    FitsBefore(raw, a);
    PlainSectionsKeep(Get(raw, Metadata));
    PlainSectionsKeep(Get(raw, KeyIntelligenceQuestions));
    PlainSectionsKeep(Get(raw, SituationOverview));
    PlainSectionsKeep(Get(raw, ImpactAssessment));
    var fallback := AsConfidence(Get(raw, Confidence), BaseConfidence(a));
    ListSectionsKeep(Get(raw, ExecutiveSummary), fallback);
    ListSectionsKeep(Get(raw, SignalsAndIndicators), fallback);
    ListSectionsKeep(Get(raw, RecommendedActions), fallback);
    AnalysisKeeps(Get(raw, Analysis));
    if Neat(Get(raw, ConfidenceNote)) { NeatIsNotNull(Get(raw, ConfidenceNote)); }
  }
}
