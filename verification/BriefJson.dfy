/** Parsed JSON, and the total coercions that brief normalisation is made of. A member name of an object is a
    `Key`, one constructor for each name the code mentions and `Other` for the rest. */
module BriefJson {
  import opened Text

  datatype Key =
    | Metadata | Category | ConfidenceLevel | PriorityLevel
    | ExecutiveSummary | BottomLine | WhyItMatters | RecommendedAction | Watchpoint | Insights
    | SituationStatus | DecisionRequired | DecisionDescription
    | KeyIntelligenceQuestions | WhatIsHappening | WhyIsItHappening | WhatWillHappenNext | ImpactOnOrganization
    | SituationOverview | Topic | RegionMarket | Timeframe | Overview
    | SignalsAndIndicators | LeadingIndicators | Triggers | SignalEvidence
    | Analysis | Drivers | Technology | Market | Regulatory | PatternsDetected
    | RiskAssessment | Operational | Strategic | Technical
    | ImpactAssessment | ShortTerm | Operations | Infrastructure | ProductRoadmap
    | LongTerm | MarketPosition | InnovationStrategy | CompetitiveLandscape
    | RecommendedActions | Immediate
    | KeySignals | Limitations | Outlook | DecisionLens | ConfidenceNote | Domain | Tags | ReadTime | Author
    | Confidence | ClaimText | Claim | Statement | SignalRefs | SourceRefs | EvidenceNote
    | SignalRef | SignalTitle | Title | Contribution | Summary
    | Findings | Finding | Evidence | Rebuttal | Indicators | Watch | ConfirmsIf | Bluf | Recommendation
    | Id | SignalIds | SourceUrl | PublishedAt
    | Other(name: string)

  datatype Json =
    | Null
    | Bool(flag: bool)
    | Int(whole: int)
    | Float(number: real)
    | Str(text: string)
    | Arr(items: seq<Json>)
    | Obj(fields: map<Key, Json>)

  type Dict = map<Key, Json>

  /** A call that returns a value, or raises. */
  datatype Outcome<+T> = Returned(value: T) | Raised

  /** Python's truth value. */
  predicate Truthy(v: Json) {
    match v
    case Null => false
    case Bool(b) => b
    case Int(i) => i != 0
    case Float(x) => x != 0.0
    case Str(s) => s != ""
    case Arr(items) => items != []
    case Obj(fields) => fields != map[]
  }

  /** Python's `d.get(k)`. */
  function Get(d: Dict, k: Key): Json {
    if k in d then d[k] else Null
  }

  /** What `isinstance(v, (int, float))` accepts: a Boolean is an int. */
  predicate Numeric(v: Json) {
    v.Bool? || v.Int? || v.Float?
  }

  function Number(v: Json): real {
    match v
    case Bool(b) => if b then 1.0 else 0.0
    case Int(i) => i as real
    case Float(x) => x
    case _ => 0.0
  }

  predicate Proportion(v: Json) {
    Numeric(v) && 0.0 <= Number(v) <= 1.0
  }

  /** A string that is neither blank nor padded. */
  predicate Neat(v: Json) {
    v.Str? && v.text != "" && Trimmed(v.text)
  }

  /** Python's `a or b`. */
  function Or(a: Json, b: Json): (r: Json)
    ensures Neat(a) ==> r == a
    ensures a == Null ==> r == b
    ensures Truthy(r) <==> Truthy(a) || Truthy(b)
  {
    if Truthy(a) then a else b
  }

  predicate AllNeat(vs: seq<Json>) {
    forall v :: v in vs ==> Neat(v)
  }

  function AsDict(v: Json): Dict {
    if v.Obj? then v.fields else map[]
  }

  function AsList(v: Json): seq<Json> {
    if v.Arr? then v.items else []
  }

  function AsStr(v: Json): (r: Json)
    ensures r == Null || Neat(r)
    ensures Neat(v) ==> r == v
    ensures r == Null <==> !v.Str? || Strip(v.text) == ""
  {
    if v.Str? && Strip(v.text) != "" then Str(Strip(v.text)) else Null
  }

  /** The non-blank strings of a list, trimmed, in order. */
  function Texts(items: seq<Json>): (r: seq<Json>)
    ensures AllNeat(r)
    ensures AllNeat(items) ==> r == items
  {
    if items == [] then []
    else
      assert AllNeat(items) ==> Neat(items[0]) && AllNeat(items[1..]);
      (if AsStr(items[0]) == Null then [] else [AsStr(items[0])]) + Texts(items[1..])
  }

  function AsStrList(v: Json): (r: Json)
    ensures r.Arr? && AllNeat(r.items)
    ensures v.Arr? && AllNeat(v.items) ==> r == v
  {
    Arr(Texts(AsList(v)))
  }

  /** A number as a proportion: above one it counts as a percentage, and the rest is clamped. The fallback is
      handed back as it is. */
  function AsConfidence(v: Json, fallback: Json): (r: Json)
    ensures Numeric(v) ==> r.Float? && Proportion(r)
    ensures v.Float? && Proportion(v) ==> r == v
    ensures Proportion(r) <==> Numeric(v) || Proportion(fallback)
    ensures Numeric(v) && 0.0 <= Number(v) <= 1.0 ==> Number(r) == Number(v)
    ensures Numeric(v) && 1.0 < Number(v) <= 100.0 ==> Number(r) * 100.0 == Number(v)
  {
    if !Numeric(v) then fallback else
      var x := if Number(v) > 1.0 then Number(v) / 100.0 else Number(v);
      Float(if x < 0.0 then 0.0 else if x > 1.0 then 1.0 else x)
  }

  /** The member of a value, `Null` where there is none. */
  function At(v: Json, k: Key): Json {
    Get(AsDict(v), k)
  }

  /** The values that count as false are exactly these seven. */
  lemma FalsyValues(v: Json)
    ensures !Truthy(v) <==>
            v == Null || v == Bool(false) || v == Int(0) || v == Float(0.0) || v == Str("") || v == Arr([]) ||
            v == Obj(map[])
  {
  }

  /** A Boolean is a number, 1 or 0. */
  lemma NumbersOf(v: Json)
    ensures Numeric(v) <==> v.Bool? || v.Int? || v.Float?
    ensures Number(Bool(true)) == 1.0 && Number(Bool(false)) == 0.0
    ensures v.Int? ==> Number(v).Floor == v.whole && Number(v) == Number(v).Floor as real
    ensures v.Float? ==> Number(v) == v.number
  {
  }
}
