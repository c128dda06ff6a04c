/** Where each part of a normalised brief comes from: the payload's members, the arguments, or a default. */
module BriefOrigins {
  import opened KeyStore
  import opened Text
  import opened BriefJson
  import opened BriefSchema
  import opened BriefProperties
  import opened BriefPasses

  // ---- Lists and sentences ---------------------------------------------------------------------

  /** Tidying a list goes item by item. */
  lemma {:induction false} TextsOfConcat(a: seq<Json>, b: seq<Json>)
    ensures Texts(a + b) == Texts(a) + Texts(b)
  {
    if a == [] {
      assert a + b == b;
    } else {
      assert (a + b)[1..] == a[1..] + b;
      TextsOfConcat(a[1..], b);
    }
  }

  /** Of one item it keeps a string that is not blank, without the white space at its ends. */
  lemma TextsOfOne(v: Json)
    ensures Texts([v]) == if v.Str? && Strip(v.text) != "" then [Str(Strip(v.text))] else []
  {
    assert [v][1..] == [];
  }

  predicate Ends(c: char) {
    c == '.' || c == '!' || c == '?'
  }

  predicate Endless(s: string) {
    forall k :: 0 <= k < |s| ==> !Ends(s[k])
  }

  lemma {:induction false} PiecesFrom(s: string, rest: string, current: string)
    requires Endless(s)
    ensures Pieces(s + rest, current) == Pieces(rest, current + s)
  {
    if s == "" {
      assert s + rest == rest && current + s == current;
    } else {
      assert (s + rest)[1..] == s[1..] + rest;
      assert current + [s[0]] + s[1..] == current + s;
      PiecesFrom(s[1..], rest, current + [s[0]]);
    }
  }

  lemma OnePiece(s: string)
    requires Endless(s)
    ensures Pieces(s, "") == [Str(s)]
  {
    PiecesFrom(s, "", "");
    assert s + "" == s && "" + s == s;
  }

  lemma FirstPiece(s: string, mark: char, rest: string)
    requires Endless(s) && Ends(mark)
    ensures Pieces(s + [mark] + rest, "") == [Str(s)] + Pieces(rest, "")
  {
    Associates(s, [mark], rest);
    assert ([mark] + rest)[1..] == rest;
    PiecesFrom(s, [mark] + rest, "");
    assert "" + s == s;
  }

  lemma SentencesAreThePieces(text: string)
    ensures Sentences(Str(text)) == Texts(Pieces(text, ""))
  {
    if text == "" { TextsOfOne(Str("")); }
  }

  /** The sentences of a text: up to its first end mark, if that is not blank, and then those of the rest. */
  lemma SentencesFromTheFirst(s: string, mark: char, rest: string)
    requires Endless(s) && Ends(mark)
    ensures Sentences(Str(s + [mark] + rest)) ==
            (if Strip(s) != "" then [Str(Strip(s))] else []) + Sentences(Str(rest))
  {
    hide Pieces, Texts, Strip, Sentences;
    SentencesAreThePieces(s + [mark] + rest);
    SentencesAreThePieces(rest);
    FirstPiece(s, mark, rest);
    TextsOfConcat([Str(s)], Pieces(rest, ""));
    TextsOfOne(Str(s));
  }

  lemma SentencesOfOne(s: string)
    requires Endless(s)
    ensures Sentences(Str(s)) == if Strip(s) != "" then [Str(Strip(s))] else []
  {
    OnePiece(s);
    TextsOfOne(Str(s));
  }

  predicate FirstAt(s: string, t: string, i: nat) {
    OccursAt(s, t, i) && forall j: nat :: j < i ==> !OccursAt(s, t, j)
  }

  ghost predicate Never(s: string, t: string) {
    forall i: nat :: !OccursAt(s, t, i)
  }

  lemma FirstIsFound(s: string, t: string, i: nat)
    ensures FirstAt(s, t, i) ==> Find(s, t) == i
    ensures Never(s, t) <==> !Contains(s, t)
  {
    FindIsTheFirst(s, t);
    hide OccursAt, Find;
  }

  /** The first sentence ends at the first period before a space; without one, at the first such exclamation mark;
      without either, at the first such question mark; else it is the whole text. */
  lemma FirstSentenceByPosition(s: string, i: nat)
    ensures FirstAt(s, ". ", i) ==> FirstSentenceOf(s) == Strip(s[..i]) + "."
    ensures Never(s, ". ") && FirstAt(s, "! ", i) ==> FirstSentenceOf(s) == Strip(s[..i]) + "!"
    ensures Never(s, ". ") && Never(s, "! ") && FirstAt(s, "? ", i) ==> FirstSentenceOf(s) == Strip(s[..i]) + "?"
    ensures Never(s, ". ") && Never(s, "! ") && Never(s, "? ") ==> FirstSentenceOf(s) == Strip(s)
  {
    FirstIsFound(s, ". ", i);
    FirstIsFound(s, "! ", i);
    FirstIsFound(s, "? ", i);
  }

  // ---- Grades by their literal thresholds and words --------------------------------------------

  lemma GradesByThreshold(score: real)
    ensures ConfidenceGrade(score) == "Verified" <==> 0.92 <= score
    ensures ConfidenceGrade(score) == "High" <==> 0.80 <= score < 0.92
    ensures ConfidenceGrade(score) == "Medium" <==> 0.65 <= score < 0.80
    ensures ConfidenceGrade(score) == "Low" <==> score < 0.65
    ensures PriorityGrade(score) == "Critical" <==> 0.90 <= score
    ensures PriorityGrade(score) == "High" <==> 0.80 <= score < 0.90
    ensures PriorityGrade(score) == "Medium" <==> 0.65 <= score < 0.80
    ensures PriorityGrade(score) == "Low" <==> score < 0.65
  {
  }

  /** The note of each grade; in the two upper ones it tells whether there are three pieces of evidence. */
  lemma NotesByGrade(score: real, evidence: nat)
    ensures score >= 0.92 ==>
              NoteFor(score, evidence) ==
              Str("Verified" + (if evidence >= 3
                                then " confidence from corroborating evidence across multiple recent signals"
                                else " confidence, though the evidence base is still relatively narrow") + ".")
    ensures 0.80 <= score < 0.92 ==>
              NoteFor(score, evidence) ==
              Str("High" + (if evidence >= 3
                            then " confidence based on corroborating recent signals"
                            else " confidence, but this view still leans on a concentrated evidence set") + ".")
    ensures 0.65 <= score < 0.80 ==>
              NoteFor(score, evidence) ==
              Str("Medium" + " confidence: the pattern is credible, but there are still open variables to watch" + ".")
    ensures score < 0.65 ==>
              NoteFor(score, evidence) ==
              Str("Low" + " confidence: treat this as an early signal until more evidence arrives" + ".")
  {
    hide Neat;
  }

  /** One of the words occurs in the text. */
  ghost predicate Names(text: string, words: seq<string>) {
    exists k, i: nat :: 0 <= k < |words| && OccursAt(text, words[k], i)
  }

  lemma NamesOne(text: string, word: string)
    ensures Contains(text, word) <==> exists i: nat :: OccursAt(text, word, i)
  {
    FindIsTheFirst(text, word);
  }

  lemma NamesThree(text: string, a: string, b: string, c: string)
    ensures Names(text, [a, b, c]) <==> Contains(text, a) || Contains(text, b) || Contains(text, c)
  {
    NamesOne(text, a);
    NamesOne(text, b);
    NamesOne(text, c);
    hide OccursAt, Find;
    var words := [a, b, c];
    assert words[0] == a && words[1] == b && words[2] == c;
    if Contains(text, a) { var i: nat :| OccursAt(text, words[0], i); }
    if Contains(text, b) { var i: nat :| OccursAt(text, words[1], i); }
    if Contains(text, c) { var i: nat :| OccursAt(text, words[2], i); }
  }

  /** The category is decided by the first of five groups of words of which one occurs in the lower-cased domain. */
  lemma CategoryByWords(domain: Json)
    ensures var d := if domain.Str? then Lower(domain.text) else "";
            var market := Names(d, ["market", "finance", "macro"]);
            var threat := Names(d, ["regulatory", "policy", "threat"]);
            var technical := Names(d, ["technology", "tech", "tech"]);
            var operational := Names(d, ["operations", "supply", "supply"]);
            var competitive := Names(d, ["competitive", "competitive", "competitive"]);
            && (CategoryOf(domain) == "Market" <==> market)
            && (CategoryOf(domain) == "Threat" <==> !market && threat)
            && (CategoryOf(domain) == "Technical" <==> !market && !threat && technical)
            && (CategoryOf(domain) == "Operational" <==> !market && !threat && !technical && operational)
            && (CategoryOf(domain) == "Competitive" <==>
                !market && !threat && !technical && !operational && competitive)
            && (CategoryOf(domain) == "Strategic" <==>
                !market && !threat && !technical && !operational && !competitive)
  {
    var d := if domain.Str? then Lower(domain.text) else "";
    NamesThree(d, "market", "finance", "macro");
    NamesThree(d, "regulatory", "policy", "threat");
    NamesThree(d, "technology", "tech", "tech");
    NamesThree(d, "operations", "supply", "supply");
    NamesThree(d, "competitive", "competitive", "competitive");
    hide Names, Contains, Lower;
  }

  // ---- Single claims and pieces of evidence ----------------------------------------------------

  /** The first of three values that is a text, trimmed. */
  function FirstText(a: Json, b: Json, c: Json): Json {
    if AsStr(a) != Null then AsStr(a) else if AsStr(b) != Null then AsStr(b) else AsStr(c)
  }

  lemma FirstTextIsOr(a: Json, b: Json, c: Json)
    ensures FirstText(a, b, c) == Or(AsStr(a), Or(AsStr(b), AsStr(c)))
  {
    hide AsStr;
  }

  /** A claim's text is the first text of the item's three members for it, its lists and note are the item's own. */
  lemma ClaimTakesItsMembers(item: Dict, index: nat)
    ensures var r := NormalizeClaim(Obj(item), index);
            var text := FirstText(Get(item, ClaimText), Get(item, Claim), Get(item, Statement));
            && (r.None? <==> text == Null)
            && (r.Some? ==>
                  && At(r.value, ClaimText) == text
                  && At(r.value, SourceRefs) == Arr(Texts(AsList(Get(item, SourceRefs))))
                  && At(r.value, EvidenceNote) == AsStr(Get(item, EvidenceNote))
                  && At(r.value, SignalRefs) ==
                     if Texts(AsList(Get(item, SignalRefs))) != [] then Arr(Texts(AsList(Get(item, SignalRefs))))
                     else Arr([Str("SIG-" + Decimal(index + 1))]))
  {
    FirstTextIsOr(Get(item, ClaimText), Get(item, Claim), Get(item, Statement));
    hide AsStr, Texts, Decimal, FirstText, Or;
  }

  /** An item that is a bare text becomes a claim of that text, referred to by its place. */
  lemma TextIsAClaim(text: string, index: nat)
    ensures NormalizeClaim(Str(text), index) ==
            if Strip(text) == "" then None
            else Some(ClaimJson(Str(Strip(text)), Arr([Str("SIG-" + Decimal(index + 1))]), Arr([]), Null))
  {
  }

  lemma NoteHasASentence(note: Json)
    ensures AsStr(note) != Null ==>
              AsStr(note).Str? && FirstSentence(AsStr(note)) == Str(FirstSentenceOf(AsStr(note).text)) &&
              Neat(FirstSentence(AsStr(note)))
    ensures AsStr(note) == Null ==> FirstSentence(AsStr(note)) == Null
  {
  }

  lemma ContributionIsTheFirst(item: Json)
    ensures var told := FirstText(At(item, Contribution), At(item, Summary), Null);
            var note := AsStr(At(item, EvidenceNote));
            ContributionOf(item) ==
            if told != Null then told
            else if note != Null then Str(FirstSentenceOf(note.text))
            else Str("Contributes" + " supporting context to the brief.")
  {
    NoteHasASentence(At(item, EvidenceNote));
    assert DefaultContribution() == Str("Contributes" + " supporting context to the brief.");
    hide AsStr, FirstSentenceOf, FirstSentence, DefaultContribution, Trimmed;
  }

  /** A piece of evidence names the item's signal, or its place; its title is the first of two members, or that name;
      its contribution the first of three members, of the note only the first sentence, or a standard text. */
  lemma EvidenceTakesItsMembers(item: Dict, index: nat, fallback: Json)
    ensures var r := NormalizeEvidence(Obj(item), index, fallback);
            var title := FirstText(Get(item, SignalTitle), Get(item, Title), Null);
            var told := FirstText(Get(item, Contribution), Get(item, Summary), Null);
            var note := AsStr(Get(item, EvidenceNote));
            && r.Some?
            && At(r.value, SignalRef) ==
               (if AsStr(Get(item, SignalRef)) != Null then AsStr(Get(item, SignalRef))
                else Str("SIG-" + Decimal(index + 1)))
            && At(r.value, SignalTitle) == (if title != Null then title else At(r.value, SignalRef))
            && At(r.value, SourceRefs) == Arr(Texts(AsList(Get(item, SourceRefs))))
            && At(r.value, Contribution) ==
               if told != Null then told
               else if note != Null then Str(FirstSentenceOf(note.text))
               else Str("Contributes" + " supporting context to the brief.")
  {
    ContributionIsTheFirst(Obj(item));
    hide AsStr, Texts, Decimal, FirstSentenceOf, ContributionOf, AsConfidence, Neat;
  }
}
