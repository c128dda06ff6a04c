/** Brief normalisation: any payload, canonical or legacy, is brought to the one shape that is stored. */
module BriefSchema {
  import opened KeyStore
  import opened Text
  import opened BriefJson

  // ---------- text ----------

  /** The first sentence of a text that is not empty. */
  function FirstSentenceOf(s: string): (r: string)
    ensures Neat(Str(s)) ==> Neat(Str(r))
  {
    if Contains(s, ". ") then Strip(s[..Find(s, ". ")]) + "."
    else if Contains(s, "! ") then Strip(s[..Find(s, "! ")]) + "!"
    else if Contains(s, "? ") then Strip(s[..Find(s, "? ")]) + "?"
    else Strip(s)
  }

  /** A value that the sentence helpers accept; they raise on the rest. */
  predicate Texty(v: Json) {
    v.Str? || !Truthy(v)
  }

  function FirstSentence(v: Json): (r: Json)
    ensures Neat(v) ==> Neat(r)
    ensures !Truthy(v) ==> r == Null
  {
    if Truthy(v) && v.Str? then Str(FirstSentenceOf(v.text)) else Null
  }

  /** The text cut at every sentence end; `current` is the piece being read. */
  function Pieces(s: string, current: string): seq<Json>
    decreases |s|
  {
    if s == "" then [Str(current)]
    else if s[0] in ".!?" then [Str(current)] + Pieces(s[1..], "")
    else Pieces(s[1..], current + [s[0]])
  }

  function Sentences(v: Json): (r: seq<Json>)
    ensures AllNeat(r)
  {
    if Truthy(v) && v.Str? then Texts(Pieces(v.text, "")) else []
  }

  // ---------- grades ----------

  function ConfidenceGrade(score: real): string {
    if score >= 0.92 then "Verified" else if score >= 0.80 then "High" else if score >= 0.65 then "Medium" else "Low"
  }

  function PriorityGrade(score: real): string {
    if score >= 0.90 then "Critical" else if score >= 0.80 then "High" else if score >= 0.65 then "Medium" else "Low"
  }

  function CategoryOf(domain: Json): string {
    var d := if domain.Str? then Lower(domain.text) else "";
    if Contains(d, "market") || Contains(d, "finance") || Contains(d, "macro") then "Market"
    else if Contains(d, "regulatory") || Contains(d, "policy") || Contains(d, "threat") then "Threat"
    else if Contains(d, "technology") || Contains(d, "tech") then "Technical"
    else if Contains(d, "operations") || Contains(d, "supply") then "Operational"
    else if Contains(d, "competitive") then "Competitive"
    else "Strategic"
  }

  /** What a confidence note says after the grade. */
  function NoteTail(score: real, evidence: nat): string {
    if score >= 0.92 then
      if evidence >= 3 then " confidence from corroborating evidence across multiple recent signals"
      else " confidence, though the evidence base is still relatively narrow"
    else if score >= 0.80 then
      if evidence >= 3 then " confidence based on corroborating recent signals"
      else " confidence, but this view still leans on a concentrated evidence set"
    else if score >= 0.65 then " confidence: the pattern is credible, but there are still open variables to watch"
    else " confidence: treat this as an early signal until more evidence arrives"
  }

  lemma SentenceIsNeat(head: string, tail: string)
    requires head != "" && !IsSpace(head[0])
    ensures Neat(Str(head + tail + "."))
  {
    assert (head + tail + ".")[0] == head[0];
  }

  function NoteFor(score: real, evidence: nat): (r: Json)
    ensures Neat(r)
  {
    hide NoteTail;
    SentenceIsNeat(ConfidenceGrade(score), NoteTail(score, evidence));
    Str(ConfidenceGrade(score) + NoteTail(score, evidence) + ".")
  }

  // ---------- claims and evidence ----------

  function SigRef(index: nat): (r: Json)
    ensures Neat(r)
  {
    Str("SIG-" + Decimal(index + 1))
  }

  predicate NeatList(v: Json) {
    v.Arr? && AllNeat(v.items)
  }

  function OrList(v: Json, fallback: seq<Json>): (r: Json)
    requires v.Arr?
    ensures NeatList(v) && AllNeat(fallback) && fallback != [] ==> NeatList(r) && r.items != []
    ensures v.items != [] ==> r == v
  {
    if v.items != [] then v else Arr(fallback)
  }

  function ClaimJson(text: Json, signals: Json, sources: Json, note: Json): (r: Json)
    ensures At(r, ClaimText) == text && At(r, SignalRefs) == signals && At(r, SourceRefs) == sources &&
            At(r, EvidenceNote) == note
  {
    Obj(map[ClaimText := text, SignalRefs := signals, SourceRefs := sources, EvidenceNote := note])
  }

  /** A claim as the canonical brief has it: a text, at least one signal, tidy lists, and no other member. */
  predicate NormalClaim(v: Json) {
    && v == ClaimJson(At(v, ClaimText), At(v, SignalRefs), At(v, SourceRefs), At(v, EvidenceNote))
    && Neat(At(v, ClaimText))
    && NeatList(At(v, SignalRefs)) && At(v, SignalRefs).items != []
    && NeatList(At(v, SourceRefs))
    && (At(v, EvidenceNote) == Null || Neat(At(v, EvidenceNote)))
  }

  function NormalizeClaim(item: Json, index: nat): (r: Option<Json>)
    ensures r.Some? ==> NormalClaim(r.value)
  {
    hide Neat, AsStr, AsStrList, Or, OrList, SigRef, ClaimJson;
    match item
    case Str(_) =>
      var text := AsStr(item);
      if text == Null then None else Some(ClaimJson(text, Arr([SigRef(index)]), Arr([]), Null))
    case Obj(_) =>
      var text := Or(AsStr(At(item, ClaimText)), Or(AsStr(At(item, Claim)), AsStr(At(item, Statement))));
      if text == Null then None
      else Some(ClaimJson(
        text,
        OrList(AsStrList(At(item, SignalRefs)), [SigRef(index)]),
        AsStrList(At(item, SourceRefs)),
        AsStr(At(item, EvidenceNote))))
    case _ => None
  }

  function EvidenceJson(ref: Json, title: Json, confidence: Json, contribution: Json, sources: Json): (r: Json)
    ensures At(r, SignalRef) == ref && At(r, SignalTitle) == title && At(r, Confidence) == confidence &&
            At(r, Contribution) == contribution && At(r, SourceRefs) == sources
  {
    Obj(map[SignalRef := ref, SignalTitle := title, Confidence := confidence, Contribution := contribution,
            SourceRefs := sources])
  }

  /** The same evidence with another confidence. */
  function Rescored(e: Json, score: Json): Json {
    EvidenceJson(At(e, SignalRef), At(e, SignalTitle), score, At(e, Contribution), At(e, SourceRefs))
  }

  /** A piece of evidence as the canonical brief has it; its confidence may be anything. */
  predicate NormalEvidence(v: Json) {
    && v == Rescored(v, At(v, Confidence))
    && Neat(At(v, SignalRef)) && Neat(At(v, SignalTitle)) && Neat(At(v, Contribution)) && NeatList(At(v, SourceRefs))
  }

  function DefaultContribution(): (r: Json)
    ensures Neat(r)
  {
    Str("Contributes" + " supporting context to the brief.")
  }

  function ContributionOf(item: Json): (r: Json)
    ensures Neat(r)
    ensures Neat(At(item, Contribution)) ==> r == At(item, Contribution)
  {
    hide DefaultContribution, AsStr, FirstSentence, Trimmed;
    Or(AsStr(At(item, Contribution)),
       Or(AsStr(At(item, Summary)), Or(FirstSentence(AsStr(At(item, EvidenceNote))), DefaultContribution())))
  }

  function NormalizeEvidence(item: Json, index: nat, fallback: Json): (r: Option<Json>)
    ensures r.Some? <==> item.Obj?
    ensures r.Some? ==>
      NormalEvidence(r.value) && At(r.value, Confidence) == AsConfidence(At(item, Confidence), fallback)
  {
    hide Neat, AsStr, AsStrList, Or, SigRef, ContributionOf, AsConfidence, EvidenceJson;
    if !item.Obj? then None
    else
      var ref := Or(AsStr(At(item, SignalRef)), SigRef(index));
      Some(EvidenceJson(
        ref,
        Or(AsStr(At(item, SignalTitle)), Or(AsStr(At(item, Title)), ref)),
        AsConfidence(At(item, Confidence), fallback),
        ContributionOf(item),
        AsStrList(At(item, SourceRefs))))
  }

  /** The claims of a list; `index` counts the items before it, dropped ones included. */
  function Claims(items: seq<Json>, index: nat): (r: seq<Json>)
    ensures forall c :: c in r ==> NormalClaim(c)
  {
    if items == [] then []
    else
      var c := NormalizeClaim(items[0], index);
      (if c.Some? then [c.value] else []) + Claims(items[1..], index + 1)
  }

  function EvidenceItems(items: seq<Json>, index: nat, fallback: Json): (r: seq<Json>)
    ensures forall e :: e in r ==> NormalEvidence(e)
  {
    if items == [] then []
    else
      var e := NormalizeEvidence(items[0], index, fallback);
      (if e.Some? then [e.value] else []) + EvidenceItems(items[1..], index + 1, fallback)
  }

  // ---------- sections ----------

  const DEFAULT_METADATA: Dict := map[Category := Str("Strategic"), ConfidenceLevel := Str("Low"),
      PriorityLevel := Str("Low")]
  const DEFAULT_SUMMARY: Dict := map[
    BottomLine := Null, WhyItMatters := Null, RecommendedAction := Null, Watchpoint := Null, Insights := Arr([]),
    SituationStatus := Str("Emerging"), DecisionRequired := Bool(false), DecisionDescription := Null]
  const DEFAULT_QUESTIONS: Dict := map[
    WhatIsHappening := Null, WhyIsItHappening := Null, WhatWillHappenNext := Null, ImpactOnOrganization := Null]
  const DEFAULT_OVERVIEW: Dict := map[
    Topic := Null, RegionMarket := Null, Timeframe := Str("Short-term"), Overview := Null]
  const DEFAULT_SIGNALS: Dict := map[LeadingIndicators := Arr([]), Triggers := Arr([]), SignalEvidence := Arr([])]
  const DEFAULT_DRIVERS: Dict := map[Technology := Arr([]), Market := Arr([]), Regulatory := Arr([])]
  const DEFAULT_RISKS: Dict := map[Operational := Null, Strategic := Null, Technical := Null, Market := Null]
  const DEFAULT_ANALYSIS: Dict := map[
    Drivers := Obj(DEFAULT_DRIVERS), PatternsDetected := Arr([]), RiskAssessment := Obj(DEFAULT_RISKS)]
  const DEFAULT_SHORT_TERM: Dict := map[Operations := Null, Infrastructure := Null, ProductRoadmap := Null]
  const DEFAULT_LONG_TERM: Dict := map[MarketPosition := Null, InnovationStrategy := Null, CompetitiveLandscape := Null]
  const DEFAULT_IMPACT: Dict := map[ShortTerm := Obj(DEFAULT_SHORT_TERM), LongTerm := Obj(DEFAULT_LONG_TERM)]
  const DEFAULT_ACTIONS: Dict := map[Immediate := Arr([]), Strategic := Arr([])]

  function MetadataSection(given: Json): Dict {
    DEFAULT_METADATA + AsDict(given)
  }

  function QuestionsSection(given: Json): Dict {
    DEFAULT_QUESTIONS + AsDict(given)
  }

  function OverviewSection(given: Json): Dict {
    DEFAULT_OVERVIEW + AsDict(given)
  }

  function SummarySection(given: Json): Dict {
    var m := DEFAULT_SUMMARY + AsDict(given);
    m[Insights := Arr(Claims(AsList(m[Insights]), 0))]
  }

  function SignalsSection(given: Json, fallback: Json): Dict {
    var m := DEFAULT_SIGNALS + AsDict(given);
    m[LeadingIndicators := AsStrList(m[LeadingIndicators])]
     [Triggers := AsStrList(m[Triggers])]
     [SignalEvidence := Arr(EvidenceItems(AsList(m[SignalEvidence]), 0, fallback))]
  }

  /** The merge is shallow: a `drivers` or `risk_assessment` of the payload replaces the default whole. */
  predicate AnalysisFits(given: Json) {
    var m := DEFAULT_ANALYSIS + AsDict(given);
    m[Drivers].Obj? && {Technology, Market, Regulatory} <= m[Drivers].fields.Keys && m[RiskAssessment].Obj?
  }

  function AnalysisSection(given: Json): Dict
    requires AnalysisFits(given)
  {
    var m := DEFAULT_ANALYSIS + AsDict(given);
    var d := m[Drivers].fields;
    m[Drivers := Obj(d[Technology := AsStrList(d[Technology])]
                      [Market := AsStrList(d[Market])]
                      [Regulatory := AsStrList(d[Regulatory])])]
     [PatternsDetected := AsStrList(m[PatternsDetected])]
  }

  predicate ImpactFits(given: Json) {
    var m := DEFAULT_IMPACT + AsDict(given);
    m[ShortTerm].Obj? && m[LongTerm].Obj?
  }

  function ImpactSection(given: Json): Dict {
    DEFAULT_IMPACT + AsDict(given)
  }

  function ActionsSection(given: Json): Dict {
    var m := DEFAULT_ACTIONS + AsDict(given);
    m[Immediate := AsStrList(m[Immediate])][Strategic := AsStrList(m[Strategic])]
  }

  /** A key that a Python dict lookup refuses. */
  predicate Unhashable(v: Json) {
    v.Arr? || v.Obj?
  }

  function LevelScore(level: Json): Json
    requires !Unhashable(level)
  {
    if level == Str("Low") then Float(0.58)
    else if level == Str("Medium") then Float(0.72)
    else if level == Str("High") then Float(0.85)
    else if level == Str("Verified") then Float(0.95)
    else Float(0.75)
  }

  // ---------- whole briefs ----------

  /** The canonical brief: one field for each of its members. */
  datatype Brief = Brief(
    metadata: Dict, summary: Dict, questions: Dict, overview: Dict, signals: Dict, analysis: Dict, impact: Dict,
    actions: Dict, keySignals: Json, limitations: Json, outlook: Json, decisionLens: Json, confidenceNote: Json,
    domain: Json, tags: Json, readTime: Json, author: Json)

  /** The brief as the payload it is stored as. */
  function Payload(b: Brief): Dict {
    map[
      Metadata := Obj(b.metadata), ExecutiveSummary := Obj(b.summary), KeyIntelligenceQuestions := Obj(b.questions),
      SituationOverview := Obj(b.overview), SignalsAndIndicators := Obj(b.signals), Analysis := Obj(b.analysis),
      ImpactAssessment := Obj(b.impact), RecommendedActions := Obj(b.actions), KeySignals := b.keySignals,
      Limitations := b.limitations, Outlook := b.outlook, DecisionLens := b.decisionLens,
      ConfidenceNote := b.confidenceNote, Domain := b.domain, Tags := b.tags, ReadTime := b.readTime,
      Author := b.author]
  }

  /** What the caller passes beside the payload; `None` is `Null`. */
  datatype Arguments = Arguments(
    topic: Json, summary: Json, domain: Json, confidence: Json, outlook: Json, decisionLens: Json)

  /** The confidence that stands in where the payload has none. */
  function BaseConfidence(a: Arguments): Json {
    Or(a.confidence, Float(0.75))
  }

  predicate LooksCanonical(raw: Dict) {
    Get(raw, Metadata).Obj? && Get(raw, ExecutiveSummary).Obj? && Get(raw, KeyIntelligenceQuestions).Obj?
  }

  function InsightsOf(b: Brief): seq<Json> {
    AsList(Get(b.summary, Insights))
  }

  function EvidenceIn(b: Brief): seq<Json> {
    AsList(Get(b.signals, SignalEvidence))
  }

  // ---------- legacy bodies ----------

  function Dicts(items: seq<Json>): seq<Dict> {
    if items == [] then [] else (if items[0].Obj? then [items[0].fields] else []) + Dicts(items[1..])
  }

  /** The non-blank texts that the items have under one member. */
  function TextsUnder(items: seq<Dict>, k: Key): (r: seq<Json>)
    ensures AllNeat(r)
  {
    if items == [] then []
    else (if AsStr(Get(items[0], k)) == Null then [] else [AsStr(Get(items[0], k))]) + TextsUnder(items[1..], k)
  }

  function FindingName(index: nat): (r: Json)
    ensures Neat(r)
  {
    Str("Finding " + Decimal(index + 1))
  }

  function FirstOrNull(items: seq<Json>): Json {
    if items == [] then Null else items[0]
  }

  function ClaimOf(finding: Dict, index: nat): (r: Json)
    ensures NormalClaim(r)
  {
    hide Neat, AsStr, AsStrList, Or, OrList, SigRef, FindingName, ClaimJson;
    ClaimJson(
      Or(AsStr(Get(finding, Finding)), FindingName(index)),
      OrList(AsStrList(Get(finding, SignalRefs)), [SigRef(index)]),
      AsStrList(Get(finding, SourceRefs)),
      FirstOrNull(AsStrList(Get(finding, Evidence)).items))
  }

  /** The parts that are there, joined by a space. */
  function JoinTwo(a: Json, b: Json): (r: Json)
    requires (a == Null || Neat(a)) && (b == Null || Neat(b))
    ensures Neat(r) || r == Str("")
  {
    if a == Null && b == Null then Str("")
    else if a == Null then b
    else if b == Null then a
    else Str(a.text + " " + b.text)
  }

  function ContributionOfFinding(finding: Dict): (r: Json)
    ensures Neat(r)
  {
    hide DefaultContribution, AsStr, AsStrList, JoinTwo, Trimmed;
    Or(JoinTwo(FirstOrNull(AsStrList(Get(finding, Evidence)).items), AsStr(Get(finding, Rebuttal))),
       DefaultContribution())
  }

  function EvidenceOf(finding: Dict, index: nat, score: Json): (r: Json)
    ensures NormalEvidence(r) && At(r, Confidence) == score
  {
    hide Neat, AsStr, AsStrList, Or, OrList, SigRef, FirstSentence, FindingName, ContributionOfFinding, EvidenceJson;
    EvidenceJson(
      OrList(AsStrList(Get(finding, SignalRefs)), [SigRef(index)]).items[0],
      Or(FirstSentence(AsStr(Get(finding, Finding))), FindingName(index)),
      score,
      ContributionOfFinding(finding),
      AsStrList(Get(finding, SourceRefs)))
  }

  /** Texts as the legacy conversion settles them, from the payload or else from the arguments. */
  datatype LegacyTexts = LegacyTexts(score: Json, bluf: Json, outlook: Json, decision: Json, domain: Json)

  function TextsOf(raw: Dict, a: Arguments): LegacyTexts {
    LegacyTexts(
      AsConfidence(Get(raw, Confidence), BaseConfidence(a)),
      Or(AsStr(Get(raw, Bluf)), a.summary),
      Or(AsStr(Get(raw, Outlook)), a.outlook),
      Or(AsStr(Get(raw, DecisionLens)), a.decisionLens),
      Or(AsStr(Get(raw, Domain)), a.domain))
  }

  /** The conversion raises on a score that is no number and on texts that are no strings; the bottom line is
      looked at only where the decision gives no first sentence. */
  predicate LegacyFits(t: LegacyTexts) {
    && Numeric(t.score) && Texty(t.decision) && Texty(t.outlook) && Texty(t.domain)
    && (Truthy(FirstSentence(t.decision)) || Texty(t.bluf))
  }

  /** Python's `items[from:to]`. */
  function Between<T>(items: seq<T>, from: nat, to: nat): (r: seq<T>)
    requires from <= to
    ensures forall x :: x in r ==> x in items
  {
    if |items| <= from then [] else if |items| <= to then items[from..] else items[from..to]
  }

  function ClaimTexts(claims: seq<Json>): (r: seq<Json>)
    requires forall c :: c in claims ==> NormalClaim(c)
    ensures AllNeat(r) && |r| == |claims|
  {
    if claims == [] then []
    else
      assert NormalClaim(claims[0]);
      [At(claims[0], ClaimText)] + ClaimTexts(claims[1..])
  }

  /** What `isinstance(v, int)` accepts. */
  predicate IsInt(v: Json) {
    v.Int? || v.Bool?
  }

  function DefaultAuthor(): (r: Json)
    ensures Neat(r)
  {
    Str("AI Generated")
  }

  /** The canonical brief of a legacy body whose findings have become these claims and this evidence. */
  function LegacyBrief(raw: Dict, topic: Json, t: LegacyTexts, claims: seq<Json>, evidence: seq<Json>): Brief
    requires LegacyFits(t)
    requires forall c :: c in claims ==> NormalClaim(c)
  {
    var findings := Dicts(AsList(Get(raw, Findings)));
    var indicators := Dicts(AsList(Get(raw, Indicators)));
    var sentences := Sentences(t.decision);
    assert claims != [] ==> NormalClaim(claims[0]);
    Brief(
      map[Category := Str(CategoryOf(t.domain)), ConfidenceLevel := Str(ConfidenceGrade(Number(t.score))),
          PriorityLevel := Str(PriorityGrade(Number(t.score)))],
      map[BottomLine := t.bluf, WhyItMatters := Or(FirstSentence(t.decision), FirstSentence(t.bluf)),
          RecommendedAction := FirstOrNull(sentences),
          Watchpoint := if indicators == [] then Null else AsStr(Get(indicators[0], Watch)),
          Insights := Arr(claims), SituationStatus := Str("Emerging"), DecisionRequired := Bool(Truthy(t.decision)),
          DecisionDescription := t.decision],
      map[WhatIsHappening := Or(t.bluf, if claims == [] then Null else At(claims[0], ClaimText)),
          WhyIsItHappening := if claims == [] then Null else At(claims[0], EvidenceNote),
          WhatWillHappenNext := t.outlook, ImpactOnOrganization := t.decision],
      map[Topic := topic, RegionMarket := Null, Timeframe := Str("Short-term"), Overview := t.bluf],
      map[LeadingIndicators := Arr(TextsUnder(indicators, Watch)), Triggers := Arr(TextsUnder(indicators, ConfirmsIf)),
          SignalEvidence := Arr(evidence)],
      map[Drivers := Obj(DEFAULT_DRIVERS), PatternsDetected := Arr(TextsUnder(findings, Rebuttal)),
          RiskAssessment := Obj(DEFAULT_RISKS)],
      map[ShortTerm := Obj(map[Operations := FirstSentence(t.decision), Infrastructure := Null,
          ProductRoadmap := Null]),
          LongTerm := Obj(map[MarketPosition := FirstSentence(t.outlook), InnovationStrategy := Null,
                              CompetitiveLandscape := Null])],
      map[Immediate := Arr(Between(sentences, 0, 2)), Strategic := Arr(Between(sentences, 2, 4))],
      Arr(ClaimTexts(Between(claims, 0, 3))),
      AsStrList(Get(raw, Limitations)),
      t.outlook,
      t.decision,
      NoteFor(Number(t.score), |evidence|),
      t.domain,
      AsStrList(Get(raw, Tags)),
      if IsInt(Get(raw, ReadTime)) then Get(raw, ReadTime) else Int(if |claims| > 1 then |claims| + 3 else 4),
      Or(AsStr(Get(raw, Author)), DefaultAuthor()))
  }

  function ClaimsOf(findings: seq<Dict>): (r: seq<Json>)
    ensures |r| == |findings| && forall c :: c in r ==> NormalClaim(c)
  {
    seq(|findings|, i requires 0 <= i < |findings| => ClaimOf(findings[i], i))
  }

  function EvidenceOfAll(findings: seq<Dict>, score: Json): (r: seq<Json>)
    ensures |r| == |findings| && forall e :: e in r ==> NormalEvidence(e) && At(e, Confidence) == score
  {
    seq(|findings|, i requires 0 <= i < |findings| => EvidenceOf(findings[i], i, score))
  }

  function Legacy(raw: Dict, a: Arguments): Outcome<Brief> {
    var t := TextsOf(raw, a);
    var findings := Dicts(AsList(Get(raw, Findings)));
    if !LegacyFits(t) then Raised
    else Returned(LegacyBrief(raw, a.topic, t, ClaimsOf(findings), EvidenceOfAll(findings, t.score)))
  }

  method LegacyToCanonical(raw: Dict, a: Arguments) returns (r: Outcome<Brief>)
    ensures r == Legacy(raw, a)
  {
    var t := TextsOf(raw, a);
    var findings := Dicts(AsList(Get(raw, Findings)));
    hide ClaimOf, EvidenceOf, LegacyBrief;
    var claims, evidence := [], [];
    for index := 0 to |findings|
      invariant claims == ClaimsOf(findings)[..index]
      invariant evidence == EvidenceOfAll(findings, t.score)[..index]
    {
      claims := claims + [ClaimOf(findings[index], index)];
      evidence := evidence + [EvidenceOf(findings[index], index, t.score)];
    }
    assert claims == ClaimsOf(findings) && evidence == EvidenceOfAll(findings, t.score);
    if LegacyFits(t) {
      return Returned(LegacyBrief(raw, a.topic, t, claims, evidence));
    }
    return Raised;
  }

  // ---------- normalisation ----------

  function LevelOf(metadata: Json): Json {
    MetadataSection(metadata)[ConfidenceLevel]
  }

  /** The members that normalisation indexes and updates in place are there, and the score lookup is given a
      key it takes. */
  predicate Fits(canonical: Dict, a: Arguments) {
    && AnalysisFits(Get(canonical, Analysis)) && ImpactFits(Get(canonical, ImpactAssessment))
    && (Truthy(Get(canonical, Confidence)) || Truthy(a.confidence) ||
        !Unhashable(LevelOf(Get(canonical, Metadata))))
  }

  function ScoreOf(canonical: Dict, a: Arguments): real
    requires Fits(canonical, a)
  {
    var given := Or(Get(canonical, Confidence), a.confidence);
    Number(AsConfidence(
      if Truthy(given) then given
      else LevelScore(LevelOf(Get(canonical, Metadata))),
      Float(0.75)))
  }

  /** The brief that a canonical payload is brought to. */
  function Canonical(c: Dict, a: Arguments): Outcome<Brief> {
    if !Fits(c, a) then Raised
    else
      var signals := SignalsSection(Get(c, SignalsAndIndicators), AsConfidence(Get(c, Confidence), BaseConfidence(a)));
      var note := AsStr(Get(c, ConfidenceNote));
      Returned(Brief(
        MetadataSection(Get(c, Metadata)),
        SummarySection(Get(c, ExecutiveSummary)),
        QuestionsSection(Get(c, KeyIntelligenceQuestions)),
        OverviewSection(Get(c, SituationOverview)),
        signals,
        AnalysisSection(Get(c, Analysis)),
        ImpactSection(Get(c, ImpactAssessment)),
        ActionsSection(Get(c, RecommendedActions)),
        AsStrList(Get(c, KeySignals)),
        AsStrList(Get(c, Limitations)),
        Or(AsStr(Get(c, Outlook)), a.outlook),
        Or(AsStr(Get(c, DecisionLens)), a.decisionLens),
        if note != Null then note else NoteFor(ScoreOf(c, a), |AsList(signals[SignalEvidence])|),
        Or(AsStr(Get(c, Domain)), a.domain),
        AsStrList(Get(c, Tags)),
        if IsInt(Get(c, ReadTime)) then Get(c, ReadTime) else Int(5),
        Or(AsStr(Get(c, Author)), DefaultAuthor())))
  }

  function Normalize(raw: Dict, a: Arguments): Outcome<Brief> {
    if LooksCanonical(raw) then Canonical(raw, a)
    else
      var legacy := Legacy(raw, a);
      if legacy.Raised? then Raised else Canonical(Payload(legacy.value), a)
  }

  method MergeSignals(given: Json, fallback: Json) returns (signals: Dict)
    ensures signals == SignalsSection(given, fallback) && SignalEvidence in signals
  {
    signals := DEFAULT_SIGNALS + AsDict(given);
    signals := signals[LeadingIndicators := AsStrList(signals[LeadingIndicators])];
    signals := signals[Triggers := AsStrList(signals[Triggers])];
    signals := signals[SignalEvidence := Arr(EvidenceItems(AsList(signals[SignalEvidence]), 0, fallback))];
  }

  method MergeAnalysis(given: Json) returns (r: Outcome<Dict>)
    ensures r == if AnalysisFits(given) then Returned(AnalysisSection(given)) else Raised
  {
    hide AsStrList;
    var analysis := DEFAULT_ANALYSIS + AsDict(given);
    if !analysis[Drivers].Obj? || !analysis[RiskAssessment].Obj? { return Raised; }
    var drivers := analysis[Drivers].fields;
    if !({Technology, Market, Regulatory} <= drivers.Keys) { return Raised; }
    drivers := drivers[Technology := AsStrList(drivers[Technology])];
    drivers := drivers[Market := AsStrList(drivers[Market])];
    drivers := drivers[Regulatory := AsStrList(drivers[Regulatory])];
    analysis := analysis[Drivers := Obj(drivers)];
    analysis := analysis[PatternsDetected := AsStrList(analysis[PatternsDetected])];
    return Returned(analysis);
  }

  method MergeActions(given: Json) returns (actions: Dict)
    ensures actions == ActionsSection(given)
  {
    actions := DEFAULT_ACTIONS + AsDict(given);
    actions := actions[Immediate := AsStrList(actions[Immediate])];
    actions := actions[Strategic := AsStrList(actions[Strategic])];
  }

  /** The merge of a canonical payload into a copy of the default brief. */
  method MergeIntoDefault(canonical: Dict, a: Arguments) returns (r: Outcome<Brief>)
    ensures r == Canonical(canonical, a)
  {
    hide NoteFor, NoteTail, Claims, SignalsSection, AnalysisSection, AnalysisFits, ActionsSection, AsStr, AsStrList,
         Texts, AsConfidence, BaseConfidence, LevelScore, Number, IsInt, Or, Get, Truthy, AsDict, Neat, DefaultAuthor,
         DEFAULT_QUESTIONS, DEFAULT_OVERVIEW;
    var metadata := DEFAULT_METADATA + AsDict(Get(canonical, Metadata));
    var summary := DEFAULT_SUMMARY + AsDict(Get(canonical, ExecutiveSummary));
    var questions := DEFAULT_QUESTIONS + AsDict(Get(canonical, KeyIntelligenceQuestions));
    var overview := DEFAULT_OVERVIEW + AsDict(Get(canonical, SituationOverview));
    var fallback := AsConfidence(Get(canonical, Confidence), BaseConfidence(a));
    var signals := MergeSignals(Get(canonical, SignalsAndIndicators), fallback);
    var analysis := MergeAnalysis(Get(canonical, Analysis));
    var impact := DEFAULT_IMPACT + AsDict(Get(canonical, ImpactAssessment));
    if analysis.Raised? || !impact[ShortTerm].Obj? || !impact[LongTerm].Obj? { return Raised; }
    var actions := MergeActions(Get(canonical, RecommendedActions));
    summary := summary[Insights := Arr(Claims(AsList(summary[Insights]), 0))];

    var given := Or(Get(canonical, Confidence), a.confidence);
    if !Truthy(given) {
      if Unhashable(metadata[ConfidenceLevel]) { return Raised; }
      given := LevelScore(metadata[ConfidenceLevel]);
    }
    var score := Number(AsConfidence(given, Float(0.75)));
    var note := AsStr(Get(canonical, ConfidenceNote));
    if note == Null { note := NoteFor(score, |AsList(signals[SignalEvidence])|); }
    return Returned(Brief(
      metadata, summary, questions, overview, signals, analysis.value, impact, actions,
      AsStrList(Get(canonical, KeySignals)),
      AsStrList(Get(canonical, Limitations)),
      Or(AsStr(Get(canonical, Outlook)), a.outlook),
      Or(AsStr(Get(canonical, DecisionLens)), a.decisionLens),
      note,
      Or(AsStr(Get(canonical, Domain)), a.domain),
      AsStrList(Get(canonical, Tags)),
      if IsInt(Get(canonical, ReadTime)) then Get(canonical, ReadTime) else Int(5),
      Or(AsStr(Get(canonical, Author)), DefaultAuthor())));
  }

  method NormalizeBriefBody(payload: Option<Dict>, a: Arguments) returns (r: Outcome<Brief>)
    ensures r == Normalize(if payload.Some? then payload.value else map[], a)
  {
    hide Canonical, Legacy, Payload;
    var canonical := if payload.Some? then payload.value else map[];
    if !LooksCanonical(canonical) {
      var legacy := LegacyToCanonical(canonical, a);
      if legacy.Raised? { return Raised; }
      canonical := Payload(legacy.value);
    }
    r := MergeIntoDefault(canonical, a);
  }
}
