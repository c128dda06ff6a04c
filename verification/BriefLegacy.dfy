/** What a payload that is not canonical is stored as: each part in terms of the payload and the arguments. */
module BriefLegacy {
  import opened KeyStore
  import opened Text
  import opened BriefJson
  import opened BriefSchema
  import opened BriefProperties
  import opened BriefPasses
  import opened BriefOrigins

  // ---- Normalisation keeps what the conversion makes -------------------------------------------

  lemma MembersAreThere(raw: Dict, a: Arguments)
    requires Legacy(raw, a).Returned?
    ensures var b := Legacy(raw, a).value;
            && DEFAULT_METADATA.Keys <= b.metadata.Keys && DEFAULT_QUESTIONS.Keys <= b.questions.Keys
            && DEFAULT_OVERVIEW.Keys <= b.overview.Keys
  {
    hide AsStr, CategoryOf, ConfidenceGrade, PriorityGrade, FirstSentence, Sentences, NoteFor, ClaimOf,
         EvidenceOf, Dicts, TextsUnder;
  }

  lemma SectionsAreStable(raw: Dict, a: Arguments)
    requires Legacy(raw, a).Returned?
    ensures var b := Legacy(raw, a).value;
            && MetadataSection(Obj(b.metadata)) == b.metadata && ConfidenceLevel in b.metadata
            && QuestionsSection(Obj(b.questions)) == b.questions && OverviewSection(Obj(b.overview)) == b.overview
  {
    MembersAreThere(raw, a);
    assert ConfidenceLevel in DEFAULT_METADATA;
    hide Legacy, DEFAULT_METADATA, DEFAULT_QUESTIONS, DEFAULT_OVERVIEW;
    var b := Legacy(raw, a).value;
    KeptByMerge(DEFAULT_METADATA, b.metadata);
    KeptByMerge(DEFAULT_QUESTIONS, b.questions);
    KeptByMerge(DEFAULT_OVERVIEW, b.overview);
  }

  function SummaryOfTexts(bluf: Json, why: Json, action: Json, watch: Json, claims: seq<Json>, decision: Json): Dict {
    map[BottomLine := bluf, WhyItMatters := why, RecommendedAction := action, Watchpoint := watch,
        Insights := Arr(claims), SituationStatus := Str("Emerging"), DecisionRequired := Bool(Truthy(decision)),
        DecisionDescription := decision]
  }

  lemma SummaryParts(raw: Dict, a: Arguments)
    requires Legacy(raw, a).Returned?
    ensures var t := TextsOf(raw, a);
            var indicators := Dicts(AsList(Get(raw, Indicators)));
            Legacy(raw, a).value.summary ==
            SummaryOfTexts(t.bluf, Or(FirstSentence(t.decision), FirstSentence(t.bluf)),
                           FirstOrNull(Sentences(t.decision)),
                           if indicators == [] then Null else AsStr(Get(indicators[0], Watch)),
                           ClaimsOf(Dicts(AsList(Get(raw, Findings)))), t.decision)
  {
    hide AsStr, CategoryOf, ConfidenceGrade, PriorityGrade, FirstSentence, Sentences, NoteFor, ClaimsOf, Truthy, Or,
         EvidenceOfAll, Dicts, TextsUnder, FirstOrNull, NormalClaim, NormalEvidence, LegacyFits, AsConfidence;
  }

  lemma SummaryOfTextsIsTidy(bluf: Json, why: Json, action: Json, watch: Json, claims: seq<Json>, decision: Json)
    requires forall c :: c in claims ==> NormalClaim(c)
    ensures SummaryTidy(SummaryOfTexts(bluf, why, action, watch, claims, decision))
  {
    hide NormalClaim;
  }

  lemma SummaryIsTidy(raw: Dict, a: Arguments)
    requires Legacy(raw, a).Returned?
    ensures SummaryTidy(Legacy(raw, a).value.summary)
  {
    var t := TextsOf(raw, a);
    var indicators := Dicts(AsList(Get(raw, Indicators)));
    SummaryParts(raw, a);
    SummaryOfTextsIsTidy(t.bluf, Or(FirstSentence(t.decision), FirstSentence(t.bluf)),
                         FirstOrNull(Sentences(t.decision)),
                         if indicators == [] then Null else AsStr(Get(indicators[0], Watch)),
                         ClaimsOf(Dicts(AsList(Get(raw, Findings)))), t.decision);
    hide Legacy, SummaryOfTexts, SummaryTidy;
  }

  lemma SignalsParts(raw: Dict, a: Arguments)
    requires Legacy(raw, a).Returned?
    ensures var m := Legacy(raw, a).value.signals;
            var indicators := Dicts(AsList(Get(raw, Indicators)));
            && DEFAULT_SIGNALS.Keys <= m.Keys
            && Get(m, LeadingIndicators) == Arr(TextsUnder(indicators, Watch))
            && Get(m, Triggers) == Arr(TextsUnder(indicators, ConfirmsIf))
            && Get(m, SignalEvidence) ==
               Arr(EvidenceOfAll(Dicts(AsList(Get(raw, Findings))), TextsOf(raw, a).score))
  {
    hide AsStr, CategoryOf, ConfidenceGrade, PriorityGrade, FirstSentence, Sentences, NoteFor, ClaimsOf, Truthy, Or,
         EvidenceOfAll, Dicts, TextsUnder, FirstOrNull, NormalClaim, NormalEvidence, LegacyFits, AsConfidence;
  }

  lemma SignalsAreNeat(raw: Dict, a: Arguments)
    requires Legacy(raw, a).Returned?
    ensures SignalsTidy(Legacy(raw, a).value.signals)
  {
    SignalsParts(raw, a);
    hide Legacy, EvidenceOfAll, TextsUnder, NormalEvidence, Neat, AllNeat, DEFAULT_SIGNALS;
  }

  lemma PatternsAreKept(patterns: seq<Json>)
    requires AllNeat(patterns)
    ensures var m := map[Drivers := Obj(DEFAULT_DRIVERS), PatternsDetected := Arr(patterns),
                         RiskAssessment := Obj(DEFAULT_RISKS)];
            AnalysisFits(Obj(m)) && AnalysisSection(Obj(m)) == m
  {
    hide Neat, Texts;
    var m := map[Drivers := Obj(DEFAULT_DRIVERS), PatternsDetected := Arr(patterns),
                 RiskAssessment := Obj(DEFAULT_RISKS)];
    KeptByMerge(DEFAULT_ANALYSIS, m);
    var d := DEFAULT_DRIVERS;
    UpdateKeeps(d, Technology, AsStrList(d[Technology]));
    UpdateKeeps(d, Market, AsStrList(d[Market]));
    UpdateKeeps(d, Regulatory, AsStrList(d[Regulatory]));
    UpdateKeeps(m, Drivers, Obj(d));
    UpdateKeeps(m, PatternsDetected, AsStrList(m[PatternsDetected]));
  }

  lemma AnalysisIsOfPatterns(raw: Dict, a: Arguments)
    requires Legacy(raw, a).Returned?
    ensures Legacy(raw, a).value.analysis ==
            map[Drivers := Obj(DEFAULT_DRIVERS),
                PatternsDetected := Arr(TextsUnder(Dicts(AsList(Get(raw, Findings))), Rebuttal)),
                RiskAssessment := Obj(DEFAULT_RISKS)]
  {
    hide AsStr, CategoryOf, ConfidenceGrade, PriorityGrade, FirstSentence, Sentences, NoteFor, ClaimOf,
         EvidenceOf, Dicts, TextsUnder, DEFAULT_DRIVERS, DEFAULT_RISKS;
  }

  function ImpactOf(operations: Json, position: Json): Dict {
    map[ShortTerm := Obj(map[Operations := operations, Infrastructure := Null, ProductRoadmap := Null]),
        LongTerm := Obj(map[MarketPosition := position, InnovationStrategy := Null, CompetitiveLandscape := Null])]
  }

  lemma ImpactParts(raw: Dict, a: Arguments)
    requires Legacy(raw, a).Returned?
    ensures Legacy(raw, a).value.impact ==
            ImpactOf(FirstSentence(TextsOf(raw, a).decision), FirstSentence(TextsOf(raw, a).outlook))
  {
    hide AsStr, CategoryOf, ConfidenceGrade, PriorityGrade, FirstSentence, Sentences, NoteFor, ClaimsOf, Truthy, Or,
         EvidenceOfAll, Dicts, TextsUnder, FirstOrNull, NormalClaim, NormalEvidence, LegacyFits, AsConfidence;
  }

  lemma ImpactIsKept(operations: Json, position: Json)
    ensures ImpactFits(Obj(ImpactOf(operations, position)))
    ensures ImpactSection(Obj(ImpactOf(operations, position))) == ImpactOf(operations, position)
  {
    KeptByMerge(DEFAULT_IMPACT, ImpactOf(operations, position));
  }

  lemma AssessmentsAreStable(raw: Dict, a: Arguments)
    requires Legacy(raw, a).Returned?
    ensures var b := Legacy(raw, a).value;
            && AnalysisFits(Obj(b.analysis)) && AnalysisSection(Obj(b.analysis)) == b.analysis
            && ImpactFits(Obj(b.impact)) && ImpactSection(Obj(b.impact)) == b.impact
  {
    AnalysisIsOfPatterns(raw, a);
    PatternsAreKept(TextsUnder(Dicts(AsList(Get(raw, Findings))), Rebuttal));
    ImpactParts(raw, a);
    ImpactIsKept(FirstSentence(TextsOf(raw, a).decision), FirstSentence(TextsOf(raw, a).outlook));
    hide Legacy, ImpactOf, ImpactFits, ImpactSection, AnalysisFits, AnalysisSection, DEFAULT_DRIVERS, DEFAULT_RISKS;
  }

  lemma ListsOfActionsAreKept(immediate: seq<Json>, strategic: seq<Json>)
    requires AllNeat(immediate) && AllNeat(strategic)
    ensures var m := map[Immediate := Arr(immediate), Strategic := Arr(strategic)]; ActionsSection(Obj(m)) == m
  {
    hide Neat, Texts;
    var m := map[Immediate := Arr(immediate), Strategic := Arr(strategic)];
    KeptByMerge(DEFAULT_ACTIONS, m);
    UpdateKeeps(m, Immediate, AsStrList(m[Immediate]));
    UpdateKeeps(m, Strategic, AsStrList(m[Strategic]));
  }

  lemma ActionsAreOfSentences(raw: Dict, a: Arguments)
    requires Legacy(raw, a).Returned?
    ensures var sentences := Sentences(TextsOf(raw, a).decision);
            Legacy(raw, a).value.actions ==
            map[Immediate := Arr(Between(sentences, 0, 2)), Strategic := Arr(Between(sentences, 2, 4))]
  {
    hide AsStr, CategoryOf, ConfidenceGrade, PriorityGrade, FirstSentence, Sentences, NoteFor, ClaimOf,
         EvidenceOf, Dicts, TextsUnder, Between;
  }

  lemma ActionsAreStable(raw: Dict, a: Arguments)
    requires Legacy(raw, a).Returned?
    ensures ActionsSection(Obj(Legacy(raw, a).value.actions)) == Legacy(raw, a).value.actions
  {
    ActionsAreOfSentences(raw, a);
    hide Legacy, ActionsSection, Sentences, Neat, Between;
    var sentences := Sentences(TextsOf(raw, a).decision);
    ListsOfActionsAreKept(Between(sentences, 0, 2), Between(sentences, 2, 4));
  }

  lemma ScalarsAreStable(raw: Dict, a: Arguments)
    requires Legacy(raw, a).Returned?
    ensures var b := Legacy(raw, a).value;
            && NeatList(b.keySignals) && NeatList(b.limitations) && NeatList(b.tags)
            && Neat(b.confidenceNote) && Neat(b.author) && IsInt(b.readTime)
  {
    hide Texts, AsStr, CategoryOf, ConfidenceGrade, PriorityGrade, FirstSentence, Sentences, NoteFor, ClaimOf,
         EvidenceOf, Dicts, TextsUnder, NormalClaim, NormalEvidence, Neat, AllNeat, DefaultAuthor;
  }

  lemma LevelIsAText(raw: Dict, a: Arguments)
    requires Legacy(raw, a).Returned?
    ensures !Stuck(Legacy(raw, a).value, a)
  {
    LegacyLevelIsText(raw, a);
  }

  lemma LegacyIsStable(raw: Dict, a: Arguments)
    requires Legacy(raw, a).Returned?
    ensures Stable(Legacy(raw, a).value)
  {
    SectionsAreStable(raw, a);
    SummaryIsTidy(raw, a);
    SignalsAreNeat(raw, a);
    AssessmentsAreStable(raw, a);
    ActionsAreStable(raw, a);
    ScalarsAreStable(raw, a);
    hide Legacy, MetadataSection, QuestionsSection, OverviewSection, AnalysisFits, AnalysisSection, ImpactFits,
         ImpactSection, ActionsSection, SummaryTidy, SignalsTidy, Neat, IsInt;
  }

  /** Of what the conversion makes, normalisation changes nothing but the spelling of evidence confidences and three
      texts that came from the arguments. */
  lemma LegacyIsReread(raw: Dict, a: Arguments)
    requires !LooksCanonical(raw)
    ensures Normalize(raw, a).Returned? <==> Legacy(raw, a).Returned?
    ensures Normalize(raw, a).Returned? ==>
              Normalize(raw, a).value == Reread(Legacy(raw, a).value, a, BaseConfidence(a))
  {
    hide Canonical, Legacy, Payload, LooksCanonical, Stable, Reread, BaseConfidence, Stuck;
    if Legacy(raw, a).Returned? {
      var b := Legacy(raw, a).value;
      LegacyIsStable(raw, a);
      LevelIsThere(b);
      LevelIsAText(raw, a);
      PayloadHolds(b);
      PassOverThePayload(b, a);
    }
  }

  // ---- What each part is made from -------------------------------------------------------------

  /** A text of the payload, trimmed, or else the argument. */
  function From(raw: Dict, k: Key, argument: Json): Json {
    if AsStr(Get(raw, k)) != Null then AsStr(Get(raw, k)) else argument
  }

  /** The objects among the items of a list. */
  function Objects(raw: Dict, k: Key): seq<Dict> {
    Dicts(AsList(Get(raw, k)))
  }

  lemma {:induction false} ObjectsOfConcat(x: seq<Json>, y: seq<Json>)
    ensures Dicts(x + y) == Dicts(x) + Dicts(y)
  {
    if x == [] {
      assert x + y == y;
    } else {
      var first := if x[0].Obj? then [x[0].fields] else [];
      assert (x + y)[1..] == x[1..] + y;
      ObjectsOfConcat(x[1..], y);
      assert Dicts(x + y) == first + Dicts(x[1..] + y);
      assert first + (Dicts(x[1..]) + Dicts(y)) == (first + Dicts(x[1..])) + Dicts(y);
    }
  }

  lemma ObjectsOfOne(v: Json)
    ensures Dicts([v]) == if v.Obj? then [v.fields] else []
  {
    assert [v][1..] == [];
  }

  /** One member of each object. */
  function Column(ds: seq<Dict>, k: Key): seq<Json> {
    seq(|ds|, i requires 0 <= i < |ds| => Get(ds[i], k))
  }

  lemma {:induction false} TextsUnderIsTheColumn(ds: seq<Dict>, k: Key)
    ensures TextsUnder(ds, k) == Texts(Column(ds, k))
  {
    hide AsStr, Get;
    if ds != [] {
      TextsUnderIsTheColumn(ds[1..], k);
      var column := Column(ds, k);
      assert column[0] == Get(ds[0], k) && column[1..] == Column(ds[1..], k);
    }
  }

  /** The brief of a payload that is not canonical. */
  predicate IsMade(raw: Dict, a: Arguments, b: Brief) {
    !LooksCanonical(raw) && Normalize(raw, a) == Returned(b)
  }

  /** Everything but the evidence confidences and three texts is as converted. */
  predicate SameParts(b: Brief, l: Brief) {
    && b.metadata == l.metadata && b.summary == l.summary && b.questions == l.questions
    && b.overview == l.overview && b.analysis == l.analysis && b.impact == l.impact
    && b.actions == l.actions && b.limitations == l.limitations && b.tags == l.tags
    && b.confidenceNote == l.confidenceNote && b.readTime == l.readTime && b.author == l.author
    && Get(b.signals, LeadingIndicators) == Get(l.signals, LeadingIndicators)
    && Get(b.signals, Triggers) == Get(l.signals, Triggers)
  }

  lemma LegacyParts(raw: Dict, a: Arguments, b: Brief) returns (l: Brief)
    requires IsMade(raw, a, b)
    ensures Legacy(raw, a) == Returned(l) && SameParts(b, l)
    ensures b.outlook == Or(AsStr(l.outlook), a.outlook)
    ensures b.decisionLens == Or(AsStr(l.decisionLens), a.decisionLens)
    ensures b.domain == Or(AsStr(l.domain), a.domain)
  {
    hide Canonical, Legacy, Payload, LooksCanonical, AllRescored, AsStr, Or;
    LegacyIsReread(raw, a);
    l := Legacy(raw, a).value;
  }

  lemma ScalarParts(raw: Dict, a: Arguments, l: Brief)
    requires Legacy(raw, a) == Returned(l)
    ensures var findings := Objects(raw, Findings);
            && l.limitations == Arr(Texts(AsList(Get(raw, Limitations))))
            && l.tags == Arr(Texts(AsList(Get(raw, Tags))))
            && l.author == (if AsStr(Get(raw, Author)) != Null then AsStr(Get(raw, Author)) else Str("AI Generated"))
            && l.readTime == (if IsInt(Get(raw, ReadTime)) then Get(raw, ReadTime)
                              else Int(if |findings| + 3 > 4 then |findings| + 3 else 4))
            && l.confidenceNote == NoteFor(Number(TextsOf(raw, a).score), |findings|)
            && l.outlook == TextsOf(raw, a).outlook && l.decisionLens == TextsOf(raw, a).decision
            && l.domain == TextsOf(raw, a).domain
  {
    hide AsStr, CategoryOf, ConfidenceGrade, PriorityGrade, FirstSentence, Sentences, NoteFor, ClaimOf, Truthy,
         EvidenceOf, Dicts, TextsUnder, FirstOrNull, NormalClaim, NormalEvidence, LegacyFits, AsConfidence, IsInt,
         Texts;
  }

  /** Limitations and tags are the payload's own, tidied; a missing read time is three more than the findings and at
      least 4. */
  lemma LegacyListsAreThePayloads(raw: Dict, a: Arguments, b: Brief)
    requires IsMade(raw, a, b)
    ensures var findings := Objects(raw, Findings);
            && b.limitations == Arr(Texts(AsList(Get(raw, Limitations))))
            && b.tags == Arr(Texts(AsList(Get(raw, Tags))))
            && (NeatList(Get(raw, Limitations)) ==> b.limitations == Get(raw, Limitations))
            && (NeatList(Get(raw, Tags)) ==> b.tags == Get(raw, Tags))
            && b.author == (if AsStr(Get(raw, Author)) != Null then AsStr(Get(raw, Author)) else Str("AI Generated"))
            && b.readTime == (if IsInt(Get(raw, ReadTime)) then Get(raw, ReadTime)
                              else Int(if |findings| + 3 > 4 then |findings| + 3 else 4))
  {
    hide Normalize, Legacy, Texts, AsStr, IsInt, Dicts;
    var l := LegacyParts(raw, a, b);
    ScalarParts(raw, a, l);
  }

  lemma TextsOfPayload(raw: Dict, a: Arguments)
    ensures var t := TextsOf(raw, a);
            && t.bluf == From(raw, Bluf, a.summary) && t.outlook == From(raw, Outlook, a.outlook)
            && t.decision == From(raw, DecisionLens, a.decisionLens) && t.domain == From(raw, Domain, a.domain)
            && t.score == AsConfidence(Get(raw, Confidence), if Truthy(a.confidence) then a.confidence else Float(0.75))
  {
    hide AsStr;
  }

  lemma MembersOfSummary(bluf: Json, why: Json, action: Json, watch: Json, claims: seq<Json>, decision: Json)
    ensures var m := SummaryOfTexts(bluf, why, action, watch, claims, decision);
            && Get(m, BottomLine) == bluf && Get(m, WhyItMatters) == why && Get(m, RecommendedAction) == action
            && Get(m, Watchpoint) == watch && Get(m, SituationStatus) == Str("Emerging")
            && Get(m, DecisionRequired) == Bool(Truthy(decision)) && Get(m, DecisionDescription) == decision
  {
  }

  /** The bottom line is the payload's, or else the summary passed; the decision gives why it matters, what to do and
      whether a decision is due; the first indicator gives the watchpoint. */
  lemma LegacySummaryIsThePayloads(raw: Dict, a: Arguments, b: Brief)
    requires IsMade(raw, a, b)
    ensures var line, decision := From(raw, Bluf, a.summary), From(raw, DecisionLens, a.decisionLens);
            var indicators, sentences := Objects(raw, Indicators), Sentences(decision);
            && Get(b.summary, BottomLine) == line
            && Get(b.summary, WhyItMatters) ==
               (if Truthy(FirstSentence(decision)) then FirstSentence(decision) else FirstSentence(line))
            && Get(b.summary, RecommendedAction) == (if sentences == [] then Null else sentences[0])
            && Get(b.summary, Watchpoint) == (if indicators == [] then Null else AsStr(Get(indicators[0], Watch)))
            && Get(b.summary, SituationStatus) == Str("Emerging")
            && Get(b.summary, DecisionRequired) == Bool(Truthy(decision))
            && Get(b.summary, DecisionDescription) == decision
  {
    hide IsMade, Legacy, TextsOf, From, Sentences, FirstSentence, Dicts, AsStr, ClaimsOf, SummaryOfTexts, Truthy, Get,
         Neat;
    var l := LegacyParts(raw, a, b);
    SummaryParts(raw, a);
    TextsOfPayload(raw, a);
    var t, indicators := TextsOf(raw, a), Objects(raw, Indicators);
    MembersOfSummary(t.bluf, Or(FirstSentence(t.decision), FirstSentence(t.bluf)), FirstOrNull(Sentences(t.decision)),
                     if indicators == [] then Null else AsStr(Get(indicators[0], Watch)),
                     ClaimsOf(Objects(raw, Findings)), t.decision);
  }

  function QuestionsOf(what: Json, why: Json, next: Json, impact: Json): Dict {
    map[WhatIsHappening := what, WhyIsItHappening := why, WhatWillHappenNext := next, ImpactOnOrganization := impact]
  }

  function OverviewOf(topic: Json, line: Json): Dict {
    map[Topic := topic, RegionMarket := Null, Timeframe := Str("Short-term"), Overview := line]
  }

  lemma MembersOfQuestions(what: Json, why: Json, next: Json, impact: Json, topic: Json, line: Json)
    ensures var m, n := QuestionsOf(what, why, next, impact), OverviewOf(topic, line);
            && Get(m, WhatIsHappening) == what && Get(m, WhyIsItHappening) == why
            && Get(m, WhatWillHappenNext) == next && Get(m, ImpactOnOrganization) == impact
            && Get(n, Overview) == line && Get(n, Topic) == topic && Get(n, RegionMarket) == Null
            && Get(n, Timeframe) == Str("Short-term")
  {
  }

  lemma QuestionParts(raw: Dict, a: Arguments, l: Brief)
    requires Legacy(raw, a) == Returned(l)
    ensures var t, claims := TextsOf(raw, a), ClaimsOf(Objects(raw, Findings));
            && l.questions == QuestionsOf(Or(t.bluf, if claims == [] then Null else At(claims[0], ClaimText)),
                                          if claims == [] then Null else At(claims[0], EvidenceNote),
                                          t.outlook, t.decision)
            && l.overview == OverviewOf(a.topic, t.bluf)
  {
    hide AsStr, CategoryOf, ConfidenceGrade, PriorityGrade, FirstSentence, Sentences, NoteFor, ClaimsOf, Truthy,
         EvidenceOfAll, Dicts, TextsUnder, FirstOrNull, NormalClaim, NormalEvidence, LegacyFits, AsConfidence, Or;
  }

  /** The first text of a list of texts, if there is one. */
  function FirstOf(v: Json): (r: Json)
    ensures r == Null || Neat(r)
  {
    if Texts(AsList(v)) == [] then Null
    else
      assert Texts(AsList(v))[0] in Texts(AsList(v));
      Texts(AsList(v))[0]
  }

  function FindingText(findings: seq<Dict>, i: nat): Json
    requires i < |findings|
  {
    if AsStr(Get(findings[i], Finding)) != Null then AsStr(Get(findings[i], Finding))
    else Str("Finding " + Decimal(i + 1))
  }

  /** A finding becomes a claim of its text, its own signals and sources, and the first of its evidence points as the
      note; and a piece of evidence about the first of those signals, with the same sources and the first sentence. */
  lemma FindingTakesItsMembers(findings: seq<Dict>, i: nat, score: Json)
    requires i < |findings|
    ensures var c, e, f := ClaimsOf(findings)[i], EvidenceOfAll(findings, score)[i], findings[i];
            var signals, sources := Texts(AsList(Get(f, SignalRefs))), Texts(AsList(Get(f, SourceRefs)));
            var place := Str("SIG-" + Decimal(i + 1));
            && At(c, ClaimText) == FindingText(findings, i)
            && At(c, SignalRefs) == (if signals != [] then Arr(signals) else Arr([place]))
            && At(c, SourceRefs) == Arr(sources) && At(c, EvidenceNote) == FirstOf(Get(f, Evidence))
            && At(e, SignalRef) == (if signals != [] then signals[0] else place)
            && At(e, SourceRefs) == Arr(sources) && At(e, Confidence) == score
            && At(e, SignalTitle) == (if AsStr(Get(f, Finding)) != Null then FirstSentence(AsStr(Get(f, Finding)))
                                      else FindingText(findings, i))
  {
    NoteHasASentence(Get(findings[i], Finding));
    hide AsStr, Texts, Decimal, FirstSentence, ContributionOfFinding, NormalClaim, NormalEvidence, Trimmed;
  }

  /** Its contribution is the first evidence point and the rebuttal, whichever are there, or a standard text. */
  lemma FindingContributes(f: Dict)
    ensures var point, rebuttal := FirstOf(Get(f, Evidence)), AsStr(Get(f, Rebuttal));
            ContributionOfFinding(f) ==
            if point != Null && rebuttal != Null then Str(point.text + " " + rebuttal.text)
            else if point != Null then point
            else if rebuttal != Null then rebuttal
            else Str("Contributes" + " supporting context to the brief.")
  {
    hide AsStr, Texts;
  }

  /** The four key questions and the overview. */
  lemma LegacyQuestionsAreThePayloads(raw: Dict, a: Arguments, b: Brief)
    requires IsMade(raw, a, b)
    ensures var findings, line := Objects(raw, Findings), From(raw, Bluf, a.summary);
            && Get(b.questions, WhatIsHappening) ==
               (if Truthy(line) then line else if findings == [] then Null else FindingText(findings, 0))
            && Get(b.questions, WhyIsItHappening) ==
               (if findings == [] then Null else FirstOf(Get(findings[0], Evidence)))
            && Get(b.questions, WhatWillHappenNext) == From(raw, Outlook, a.outlook)
            && Get(b.questions, ImpactOnOrganization) == From(raw, DecisionLens, a.decisionLens)
            && Get(b.overview, Overview) == line && Get(b.overview, Topic) == a.topic
            && Get(b.overview, RegionMarket) == Null && Get(b.overview, Timeframe) == Str("Short-term")
  {
    hide IsMade, Legacy, TextsOf, From, AsStr, ClaimOf, Objects, FindingText, FirstOf, QuestionsOf, OverviewOf, Truthy,
         Get, Neat, At;
    var l := LegacyParts(raw, a, b);
    QuestionParts(raw, a, l);
    TextsOfPayload(raw, a);
    var findings, t := Objects(raw, Findings), TextsOf(raw, a);
    if findings != [] { FindingTakesItsMembers(findings, 0, Null); }
    MembersOfQuestions(Or(t.bluf, if findings == [] then Null else At(ClaimsOf(findings)[0], ClaimText)),
                       if findings == [] then Null else At(ClaimsOf(findings)[0], EvidenceNote),
                       t.outlook, t.decision, a.topic, t.bluf);
  }

  lemma MembersOfAnalysis(patterns: Json)
    ensures var m := map[Drivers := Obj(DEFAULT_DRIVERS), PatternsDetected := patterns,
                         RiskAssessment := Obj(DEFAULT_RISKS)];
            && Get(m, PatternsDetected) == patterns && Get(m, Drivers) == Obj(DEFAULT_DRIVERS)
            && Get(m, RiskAssessment) == Obj(DEFAULT_RISKS)
  {
    hide DEFAULT_DRIVERS, DEFAULT_RISKS;
  }

  /** The indicators' two members, the findings' rebuttals. */
  lemma LegacyIndicatorsAreThePayloads(raw: Dict, a: Arguments, b: Brief)
    requires IsMade(raw, a, b)
    ensures Get(b.signals, LeadingIndicators) == Arr(Texts(Column(Objects(raw, Indicators), Watch)))
    ensures Get(b.signals, Triggers) == Arr(Texts(Column(Objects(raw, Indicators), ConfirmsIf)))
    ensures Get(b.analysis, PatternsDetected) == Arr(Texts(Column(Objects(raw, Findings), Rebuttal)))
    ensures Get(b.analysis, Drivers) == Obj(DEFAULT_DRIVERS) && Get(b.analysis, RiskAssessment) == Obj(DEFAULT_RISKS)
  {
    hide IsMade, Legacy, TextsOf, TextsUnder, Texts, Column, Dicts, DEFAULT_DRIVERS, DEFAULT_RISKS, EvidenceOfAll, Get;
    var l := LegacyParts(raw, a, b);
    SignalsParts(raw, a);
    AnalysisIsOfPatterns(raw, a);
    MembersOfAnalysis(Arr(TextsUnder(Objects(raw, Findings), Rebuttal)));
    TextsUnderIsTheColumn(Objects(raw, Indicators), Watch);
    TextsUnderIsTheColumn(Objects(raw, Indicators), ConfirmsIf);
    TextsUnderIsTheColumn(Objects(raw, Findings), Rebuttal);
  }

  lemma MembersOfActions(sentences: seq<Json>)
    ensures var m := map[Immediate := Arr(Between(sentences, 0, 2)), Strategic := Arr(Between(sentences, 2, 4))];
            var immediate, strategic := AsList(Get(m, Immediate)), AsList(Get(m, Strategic));
            && |immediate| == (if |sentences| < 2 then |sentences| else 2)
            && |immediate| + |strategic| == (if |sentences| < 4 then |sentences| else 4)
            && immediate + strategic <= sentences
  {
  }

  /** The first two sentences of the decision are the immediate actions, the next two the strategic ones; the first
      sentences of decision and outlook are the impact in the short and the long term. */
  lemma LegacyActionsAreTheDecisions(raw: Dict, a: Arguments, b: Brief)
    requires IsMade(raw, a, b)
    ensures var sentences := Sentences(From(raw, DecisionLens, a.decisionLens));
            var immediate, strategic := AsList(Get(b.actions, Immediate)), AsList(Get(b.actions, Strategic));
            && |immediate| == (if |sentences| < 2 then |sentences| else 2)
            && |immediate| + |strategic| == (if |sentences| < 4 then |sentences| else 4)
            && immediate + strategic <= sentences
    ensures b.impact == ImpactOf(FirstSentence(From(raw, DecisionLens, a.decisionLens)),
                                 FirstSentence(From(raw, Outlook, a.outlook)))
  {
    hide IsMade, Legacy, TextsOf, From, Sentences, FirstSentence, ImpactOf, Get, AsList, Between;
    var l := LegacyParts(raw, a, b);
    ActionsAreOfSentences(raw, a);
    ImpactParts(raw, a);
    TextsOfPayload(raw, a);
    MembersOfActions(Sentences(TextsOf(raw, a).decision));
  }

  function MetadataOf(category: string, level: string, priority: string): Dict {
    map[Category := Str(category), ConfidenceLevel := Str(level), PriorityLevel := Str(priority)]
  }

  lemma MembersOfMetadata(category: string, level: string, priority: string)
    ensures var m := MetadataOf(category, level, priority);
            && Get(m, Category) == Str(category) && Get(m, ConfidenceLevel) == Str(level)
            && Get(m, PriorityLevel) == Str(priority)
  {
  }

  lemma MetadataParts(raw: Dict, a: Arguments, l: Brief)
    requires Legacy(raw, a) == Returned(l)
    ensures var t := TextsOf(raw, a);
            l.metadata == MetadataOf(CategoryOf(t.domain), ConfidenceGrade(Number(t.score)),
                                     PriorityGrade(Number(t.score)))
  {
    hide AsStr, CategoryOf, ConfidenceGrade, PriorityGrade, FirstSentence, Sentences, NoteFor, ClaimsOf, Truthy, Or,
         EvidenceOfAll, Dicts, TextsUnder, FirstOrNull, NormalClaim, NormalEvidence, LegacyFits, AsConfidence;
  }

  /** The two levels are the grades of the payload's confidence, or else of the one passed, or of 0.75; the category
      and the note follow. `GradesByThreshold` and `CategoryByWords` say which these are. */
  lemma LegacyGradesAreThePayloads(raw: Dict, a: Arguments, b: Brief)
    requires IsMade(raw, a, b)
    ensures var base := if Truthy(a.confidence) then a.confidence else Float(0.75);
            var score := Number(AsConfidence(Get(raw, Confidence), base));
            && Get(b.metadata, ConfidenceLevel) == Str(ConfidenceGrade(score))
            && Get(b.metadata, PriorityLevel) == Str(PriorityGrade(score))
            && Get(b.metadata, Category) == Str(CategoryOf(From(raw, Domain, a.domain)))
            && b.confidenceNote == NoteFor(score, |Objects(raw, Findings)|)
  {
    hide IsMade, Legacy, TextsOf, From, AsConfidence, Number, ConfidenceGrade, PriorityGrade, CategoryOf, NoteFor,
         Dicts, Truthy, IsInt, Get, MetadataOf, Texts;
    var l := LegacyParts(raw, a, b);
    var t := TextsOf(raw, a);
    MetadataParts(raw, a, l);
    ScalarParts(raw, a, l);
    TextsOfPayload(raw, a);
    MembersOfMetadata(CategoryOf(t.domain), ConfidenceGrade(Number(t.score)), PriorityGrade(Number(t.score)));
  }

  function FirstGiven(given: Json, argument: Json): Json {
    if AsStr(given) != Null then AsStr(given) else if AsStr(argument) != Null then AsStr(argument) else argument
  }

  lemma GivenTwice(raw: Dict, k: Key, argument: Json)
    ensures Or(AsStr(From(raw, k, argument)), argument) == FirstGiven(Get(raw, k), argument)
  {
    hide Strip;
  }

  /** Outlook, decision and domain are the payload's, or else those passed, trimmed where that leaves something. */
  lemma LegacyTextsAreThePayloads(raw: Dict, a: Arguments, b: Brief)
    requires IsMade(raw, a, b)
    ensures b.outlook == FirstGiven(Get(raw, Outlook), a.outlook)
    ensures b.decisionLens == FirstGiven(Get(raw, DecisionLens), a.decisionLens)
    ensures b.domain == FirstGiven(Get(raw, Domain), a.domain)
  {
    hide IsMade, Legacy, TextsOf, AsStr, Or, From, FirstGiven, Get, Texts, NoteFor, IsInt, Dicts;
    var l := LegacyParts(raw, a, b);
    ScalarParts(raw, a, l);
    TextsOfPayload(raw, a);
    GivenTwice(raw, Outlook, a.outlook);
    GivenTwice(raw, DecisionLens, a.decisionLens);
    GivenTwice(raw, Domain, a.domain);
  }

  // ---- What a canonical payload leaves to arguments and defaults -------------------------------

  predicate IsFilledIn(raw: Dict, a: Arguments, b: Brief) {
    LooksCanonical(raw) && Normalize(raw, a) == Returned(b)
  }

  /** Texts come from the payload, or else from the arguments; lists are tidied; a missing read time is 5. */
  lemma CanonicalTextsAreThePayloads(raw: Dict, a: Arguments, b: Brief)
    requires IsFilledIn(raw, a, b)
    ensures b.outlook == From(raw, Outlook, a.outlook) && b.decisionLens == From(raw, DecisionLens, a.decisionLens)
    ensures b.domain == From(raw, Domain, a.domain)
    ensures b.author == if AsStr(Get(raw, Author)) != Null then AsStr(Get(raw, Author)) else Str("AI Generated")
    ensures b.readTime == if IsInt(Get(raw, ReadTime)) then Get(raw, ReadTime) else Int(5)
    ensures b.keySignals == Arr(Texts(AsList(Get(raw, KeySignals)))) && b.tags == Arr(Texts(AsList(Get(raw, Tags))))
    ensures b.limitations == Arr(Texts(AsList(Get(raw, Limitations))))
  {
    hide NoteFor, MetadataSection, SummarySection, QuestionsSection, OverviewSection, SignalsSection, AnalysisSection,
         AnalysisFits, ImpactSection, ImpactFits, ActionsSection, ScoreOf, Fits, AsStr, IsInt, Texts;
  }

  /** The level's score, for a brief with no confidence in the payload and none passed. */
  lemma LevelsHaveScores(level: string)
    ensures Number(LevelScore(Str(level))) ==
            if level == "Low" then 0.58 else if level == "Medium" then 0.72 else if level == "High" then 0.85
            else if level == "Verified" then 0.95 else 0.75
  {
  }

  /** A missing note is that of the payload's confidence, or else of the one passed, or else of the level's score, and
      of the number of pieces of evidence. */
  lemma CanonicalNoteIsThePayloads(raw: Dict, a: Arguments, b: Brief)
    requires IsFilledIn(raw, a, b)
    ensures var level := b.metadata[ConfidenceLevel];
            var given := Get(raw, Confidence);
            && ConfidenceLevel in b.metadata
            && (AsStr(Get(raw, ConfidenceNote)) != Null ==> b.confidenceNote == AsStr(Get(raw, ConfidenceNote)))
            && (AsStr(Get(raw, ConfidenceNote)) == Null ==>
                  && (Truthy(given) || Truthy(a.confidence) || !Unhashable(level))
                  && b.confidenceNote ==
                     NoteFor(Number(AsConfidence(if Truthy(given) then given
                                                 else if Truthy(a.confidence) then a.confidence
                                                 else LevelScore(level), Float(0.75))), |EvidenceIn(b)|))
  {
    hide NoteFor, SummarySection, QuestionsSection, OverviewSection, AnalysisSection, EvidenceItems, AsConfidence,
         AnalysisFits, ImpactSection, ImpactFits, ActionsSection, AsStr, IsInt, Texts, LevelScore, Number, Truthy;
  }

  function GivenOr(given: Json, k: Key, default: Json): Json {
    if k in AsDict(given) then AsDict(given)[k] else default
  }

  lemma SectionDefaults(given: Json)
    ensures var metadata := MetadataSection(given);
            && Get(metadata, Category) == GivenOr(given, Category, Str("Strategic"))
            && Get(metadata, ConfidenceLevel) == GivenOr(given, ConfidenceLevel, Str("Low"))
            && Get(metadata, PriorityLevel) == GivenOr(given, PriorityLevel, Str("Low"))
    ensures Get(OverviewSection(given), Timeframe) == GivenOr(given, Timeframe, Str("Short-term"))
  {
  }

  lemma SummaryDefaults(given: Json)
    ensures var summary := SummarySection(given);
            && Get(summary, SituationStatus) == GivenOr(given, SituationStatus, Str("Emerging"))
            && Get(summary, DecisionRequired) == GivenOr(given, DecisionRequired, Bool(false))
  {
    hide Claims;
  }

  lemma CanonicalSections(raw: Dict, a: Arguments, b: Brief)
    requires IsFilledIn(raw, a, b)
    ensures b.metadata == MetadataSection(Get(raw, Metadata)) && b.summary == SummarySection(Get(raw, ExecutiveSummary))
    ensures b.overview == OverviewSection(Get(raw, SituationOverview))
  {
    hide NoteFor, QuestionsSection, SignalsSection, AnalysisSection, AsConfidence, Claims, ScoreOf, Fits, Get,
         MetadataSection, SummarySection, OverviewSection, AnalysisFits, ImpactSection, ImpactFits, ActionsSection,
         AsStr, IsInt, Texts;
  }

  /** The defaults that are not empty. */
  lemma CanonicalDefaults(raw: Dict, a: Arguments, b: Brief)
    requires IsFilledIn(raw, a, b)
    ensures var metadata, summary := Get(raw, Metadata), Get(raw, ExecutiveSummary);
            && Get(b.metadata, Category) == GivenOr(metadata, Category, Str("Strategic"))
            && Get(b.metadata, ConfidenceLevel) == GivenOr(metadata, ConfidenceLevel, Str("Low"))
            && Get(b.metadata, PriorityLevel) == GivenOr(metadata, PriorityLevel, Str("Low"))
            && Get(b.summary, SituationStatus) == GivenOr(summary, SituationStatus, Str("Emerging"))
            && Get(b.summary, DecisionRequired) == GivenOr(summary, DecisionRequired, Bool(false))
            && Get(b.overview, Timeframe) == GivenOr(Get(raw, SituationOverview), Timeframe, Str("Short-term"))
  {
    hide IsFilledIn, MetadataSection, SummarySection, OverviewSection, GivenOr, Get;
    CanonicalSections(raw, a, b);
    SectionDefaults(Get(raw, Metadata));
    SectionDefaults(Get(raw, SituationOverview));
    SummaryDefaults(Get(raw, ExecutiveSummary));
  }

  // ---- Which payloads are refused --------------------------------------------------------------

  /** A payload is canonical if and only if it has an object under each of three names. */
  lemma CanonicalNeedsAllThree(raw: Dict)
    ensures LooksCanonical(raw) <==>
            forall k :: k in {Metadata, ExecutiveSummary, KeyIntelligenceQuestions} ==> k in raw && raw[k].Obj?
  {
    assert Metadata in {Metadata, ExecutiveSummary, KeyIntelligenceQuestions};
    assert ExecutiveSummary in {Metadata, ExecutiveSummary, KeyIntelligenceQuestions};
    assert KeyIntelligenceQuestions in {Metadata, ExecutiveSummary, KeyIntelligenceQuestions};
  }

  /** The member is missing or an object. */
  predicate ObjectIfGiven(given: Json, k: Key) {
    k in AsDict(given) ==> AsDict(given)[k].Obj?
  }

  lemma AnalysisFitsExactly(given: Json)
    ensures AnalysisFits(given) <==>
            && ObjectIfGiven(given, Drivers) && ObjectIfGiven(given, RiskAssessment)
            && (Drivers in AsDict(given) ==> {Technology, Market, Regulatory} <= AsDict(AsDict(given)[Drivers]).Keys)
  {
  }

  lemma ImpactFitsExactly(given: Json)
    ensures ImpactFits(given) <==> ObjectIfGiven(given, ShortTerm) && ObjectIfGiven(given, LongTerm)
  {
  }

  /** Normalising a canonical payload raises exactly if a part that is updated in place is given and is no object, if
      given drivers lack one of three members, or if there is no confidence and the level is a list or an object. */
  lemma CanonicalRaisesExactly(raw: Dict, a: Arguments)
    requires LooksCanonical(raw)
    ensures var analysis, impact := Get(raw, Analysis), Get(raw, ImpactAssessment);
            Normalize(raw, a).Returned? <==>
            && ObjectIfGiven(analysis, Drivers) && ObjectIfGiven(analysis, RiskAssessment)
            && (Drivers in AsDict(analysis) ==>
                  {Technology, Market, Regulatory} <= AsDict(AsDict(analysis)[Drivers]).Keys)
            && ObjectIfGiven(impact, ShortTerm) && ObjectIfGiven(impact, LongTerm)
            && (Truthy(Get(raw, Confidence)) || Truthy(a.confidence) ||
                !Unhashable(GivenOr(Get(raw, Metadata), ConfidenceLevel, Str("Low"))))
  {
    AnalysisFitsExactly(Get(raw, Analysis));
    ImpactFitsExactly(Get(raw, ImpactAssessment));
    SectionDefaults(Get(raw, Metadata));
    RaisesUnlessItFits(raw, a);
    hide AnalysisFits, ImpactFits, ObjectIfGiven, Truthy, Canonical;
  }

  /** Whether the sentence helpers take a value: a text, or one that counts as false. */
  predicate Tellable(v: Json) {
    v.Str? || !Truthy(v)
  }

  lemma LegacyFitsExactly(t: LegacyTexts)
    ensures LegacyFits(t) <==>
            && Numeric(t.score) && Tellable(t.decision) && Tellable(t.outlook) && Tellable(t.domain)
            && ((t.decision.Str? && t.decision.text != "" && FirstSentenceOf(t.decision.text) != "") ||
                Tellable(t.bluf))
  {
    hide FirstSentenceOf;
  }

  lemma ScoreIsNumeric(given: Json, base: Json)
    ensures Numeric(AsConfidence(given, base)) <==> Numeric(given) || Numeric(base)
  {
  }

  /** Normalising any other payload raises exactly if the confidence is no number, or the decision, the outlook or the
      domain is neither a text nor false; or the bottom line, where the decision gives no sentence. */
  lemma LegacyRaisesExactly(raw: Dict, a: Arguments)
    requires !LooksCanonical(raw)
    ensures var decision := From(raw, DecisionLens, a.decisionLens);
            Normalize(raw, a).Returned? <==>
            && (Numeric(Get(raw, Confidence)) || Numeric(if Truthy(a.confidence) then a.confidence else Float(0.75)))
            && Tellable(decision) && Tellable(From(raw, Outlook, a.outlook)) && Tellable(From(raw, Domain, a.domain))
            && ((decision.Str? && decision.text != "" && FirstSentenceOf(decision.text) != "") ||
                Tellable(From(raw, Bluf, a.summary)))
  {
    hide Normalize, FirstSentenceOf, From, LegacyBrief, Dicts, LegacyFits, TextsOf, Numeric, Tellable, Truthy,
         AsConfidence, LooksCanonical, Get;
    LegacyIsReread(raw, a);
    TextsOfPayload(raw, a);
    LegacyFitsExactly(TextsOf(raw, a));
    ScoreIsNumeric(Get(raw, Confidence), if Truthy(a.confidence) then a.confidence else Float(0.75));
  }

  // ---- No member is missing --------------------------------------------------------------------

  /** A member of a section that is there, as given or else Null. */
  predicate IsFilled(section: Dict, given: Json, k: Key) {
    k in section && section[k] == GivenOr(given, k, Null)
  }

  lemma OpenQuestionsAreNull(given: Json)
    ensures var m := QuestionsSection(given);
            && IsFilled(m, given, WhatIsHappening) && IsFilled(m, given, WhyIsItHappening)
            && IsFilled(m, given, WhatWillHappenNext) && IsFilled(m, given, ImpactOnOrganization)
    ensures var n := OverviewSection(given);
            IsFilled(n, given, Topic) && IsFilled(n, given, RegionMarket) && IsFilled(n, given, Overview)
  {
  }

  lemma OpenImpactIsNull(given: Json)
    ensures var m := ImpactSection(given);
            && ShortTerm in m && LongTerm in m
            && (ShortTerm !in AsDict(given) ==> m[ShortTerm] == ImpactOf(Null, Null)[ShortTerm])
            && (LongTerm !in AsDict(given) ==> m[LongTerm] == ImpactOf(Null, Null)[LongTerm])
  {
  }

  lemma OpenSummaryIsNull(given: Json)
    ensures var m := SummarySection(given);
            && IsFilled(m, given, BottomLine) && IsFilled(m, given, WhyItMatters)
            && IsFilled(m, given, RecommendedAction) && IsFilled(m, given, Watchpoint)
            && IsFilled(m, given, DecisionDescription) && Insights in m
  {
    hide Claims;
  }

  lemma MoreCanonicalSections(raw: Dict, a: Arguments, b: Brief)
    requires IsFilledIn(raw, a, b)
    ensures b.questions == QuestionsSection(Get(raw, KeyIntelligenceQuestions))
    ensures b.impact == ImpactSection(Get(raw, ImpactAssessment))
  {
    hide NoteFor, SignalsSection, AnalysisSection, AsConfidence, Claims, ScoreOf, Fits, Get, MetadataSection,
         SummarySection, OverviewSection, QuestionsSection, AnalysisFits, ImpactSection, ImpactFits, ActionsSection,
         AsStr, IsInt, Texts;
  }

  /** A canonical payload's brief has every question, every part of the overview and of the summary, and both horizons
      of the impact; what the payload does not give is Null. */
  lemma CanonicalBriefsAreComplete(raw: Dict, a: Arguments, b: Brief)
    requires IsFilledIn(raw, a, b)
    ensures var questions, overview := Get(raw, KeyIntelligenceQuestions), Get(raw, SituationOverview);
            && IsFilled(b.questions, questions, WhatIsHappening) && IsFilled(b.questions, questions, WhyIsItHappening)
            && IsFilled(b.questions, questions, WhatWillHappenNext)
            && IsFilled(b.questions, questions, ImpactOnOrganization)
            && IsFilled(b.overview, overview, Topic) && IsFilled(b.overview, overview, RegionMarket)
            && IsFilled(b.overview, overview, Overview)
    ensures var summary := Get(raw, ExecutiveSummary);
            && IsFilled(b.summary, summary, BottomLine) && IsFilled(b.summary, summary, WhyItMatters)
            && IsFilled(b.summary, summary, RecommendedAction) && IsFilled(b.summary, summary, Watchpoint)
            && IsFilled(b.summary, summary, DecisionDescription) && Insights in b.summary
    ensures ShortTerm in b.impact && LongTerm in b.impact
    ensures var impact := Get(raw, ImpactAssessment);
            && (ShortTerm !in AsDict(impact) ==> b.impact[ShortTerm] == ImpactOf(Null, Null)[ShortTerm])
            && (LongTerm !in AsDict(impact) ==> b.impact[LongTerm] == ImpactOf(Null, Null)[LongTerm])
  {
    hide IsFilledIn, QuestionsSection, OverviewSection, SummarySection, ImpactSection, IsFilled, Get;
    CanonicalSections(raw, a, b);
    MoreCanonicalSections(raw, a, b);
    OpenQuestionsAreNull(Get(raw, KeyIntelligenceQuestions));
    OpenQuestionsAreNull(Get(raw, SituationOverview));
    OpenSummaryIsNull(Get(raw, ExecutiveSummary));
    OpenImpactIsNull(Get(raw, ImpactAssessment));
  }
}
