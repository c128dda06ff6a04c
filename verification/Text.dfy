/** The string operations of the source language that the modelled code relies on. */
module Text {
  /** The characters that Python's `str.strip` and `str.split` treat as white space. */
  predicate IsSpace(c: char) {
    var n := c as int;
    9 <= n <= 13 || 28 <= n <= 32 || n == 0x85 || n == 0xA0 || n == 0x1680 || 0x2000 <= n <= 0x200A ||
    n == 0x2028 || n == 0x2029 || n == 0x202F || n == 0x205F || n == 0x3000
  }

  /** Python's `text.split()`; `current` is the word being read. */
  function Words(text: string, current: string): seq<string>
    decreases |text|
  {
    if text == "" then if current == "" then [] else [current]
    else if IsSpace(text[0]) then (if current == "" then [] else [current]) + Words(text[1..], "")
    else Words(text[1..], current + [text[0]])
  }

  function Join(words: seq<string>): string {
    if words == [] then "" else if |words| == 1 then words[0] else words[0] + " " + Join(words[1..])
  }

  /** Python's `" ".join(text.split())`. */
  function Normal(text: string): string {
    Join(Words(text, ""))
  }

  predicate Solid(s: string) {
    forall k :: 0 <= k < |s| ==> !IsSpace(s[k])
  }

  predicate AllWords(ws: seq<string>) {
    forall k :: 0 <= k < |ws| ==> ws[k] != "" && Solid(ws[k])
  }

  lemma {:induction false} WordsAreWords(text: string, current: string)
    requires Solid(current)
    ensures AllWords(Words(text, current))
    decreases |text|
  {
    if text != "" {
      if IsSpace(text[0]) { WordsAreWords(text[1..], ""); } else { WordsAreWords(text[1..], current + [text[0]]); }
    }
  }

  lemma {:induction false} WordsOfSolid(w: string, rest: string, current: string)
    requires Solid(w)
    ensures Words(w + rest, current) == Words(rest, current + w)
  {
    if w == "" {
      assert w + rest == rest && current + w == current;
    } else {
      assert (w + rest)[1..] == w[1..] + rest;
      assert current + [w[0]] + w[1..] == current + w;
      WordsOfSolid(w[1..], rest, current + [w[0]]);
    }
  }

  // ---- What splitting keeps --------------------------------------------------------------------

  lemma Associates<T>(a: seq<T>, b: seq<T>, c: seq<T>)
    ensures a + b + c == a + (b + c)
  {
  }

  function Concat(texts: seq<string>): string {
    if texts == [] then "" else Concat(texts[..|texts| - 1]) + texts[|texts| - 1]
  }

  lemma {:induction false} ConcatOfConcat(a: seq<string>, b: seq<string>)
    ensures Concat(a + b) == Concat(a) + Concat(b)
  {
    if b == [] {
      assert a + b == a;
    } else {
      var n := |b| - 1;
      assert (a + b)[..|a| + n] == a + b[..n];
      ConcatOfConcat(a, b[..n]);
    }
  }

  lemma OneText(text: string)
    ensures Concat([text]) == text
  {
    assert [text][..0] == [] && "" + text == text;
  }

  /** The characters that are not white space, in order. */
  function NonBlank(text: string): string {
    if text == "" then ""
    else
      var front, c := NonBlank(text[..|text| - 1]), text[|text| - 1];
      if IsSpace(c) then front else front + [c]
  }

  lemma {:induction false} NonBlankOfConcat(a: string, b: string)
    ensures NonBlank(a + b) == NonBlank(a) + NonBlank(b)
  {
    if b == "" {
      assert a + b == a;
    } else {
      var n := |b| - 1;
      assert (a + b)[..|a| + n] == a + b[..n];
      NonBlankOfConcat(a, b[..n]);
    }
  }

  lemma {:induction false} NonBlankOfSolid(s: string)
    requires Solid(s)
    ensures NonBlank(s) == s
  {
    if s != "" { NonBlankOfSolid(s[..|s| - 1]); }
  }

  lemma OneCharacter(c: char)
    ensures NonBlank([c]) == if IsSpace(c) then "" else [c]
  {
    assert [c][..0] == "";
  }

  lemma {:induction false} WordsKeepFrom(text: string, current: string)
    requires Solid(current)
    ensures Concat(Words(text, current)) == current + NonBlank(text)
    decreases |text|
  {
    if text == "" {
      OneText(current);
    } else {
      assert text == [text[0]] + text[1..];
      NonBlankOfConcat([text[0]], text[1..]);
      OneCharacter(text[0]);
      if IsSpace(text[0]) {
        WordsKeepFrom(text[1..], "");
        assert "" + NonBlank(text[1..]) == NonBlank(text[1..]) == NonBlank(text);
        if current == "" {
          assert [] + Words(text[1..], "") == Words(text[1..], "");
        } else {
          ConcatOfConcat([current], Words(text[1..], ""));
          OneText(current);
        }
      } else {
        WordsKeepFrom(text[1..], current + [text[0]]);
        assert current + [text[0]] + NonBlank(text[1..]) == current + ([text[0]] + NonBlank(text[1..]));
      }
    }
  }

  /** The words of any text, one after the other, are its characters without the white space. */
  lemma WordsKeepTheCharacters(text: string)
    ensures Concat(Words(text, "")) == NonBlank(text)
  {
    WordsKeepFrom(text, "");
  }

  /** A text may be cut before any white space. */
  lemma {:induction false} WordsSplitAt(a: string, b: string, current: string)
    requires b == "" || IsSpace(b[0])
    ensures Words(a + b, current) == Words(a, current) + Words(b, "")
    decreases |a|
  {
    if a == "" {
      assert a + b == b;
    } else {
      assert (a + b)[1..] == a[1..] + b;
      WordsSplitAt(a[1..], b, if IsSpace(a[0]) then "" else current + [a[0]]);
    }
  }

  lemma WordsAfterABlank(c: char, b: string)
    requires IsSpace(c)
    ensures Words([c] + b, "") == Words(b, "")
  {
    assert ([c] + b)[1..] == b;
  }

  lemma WordsAroundABlank(front: string, c: char, b: string)
    requires IsSpace(c)
    ensures Words(front + ([c] + b), "") == Words(front, "") + Words(b, "")
  {
    WordsSplitAt(front, [c] + b, "");
    WordsAfterABlank(c, b);
  }

  lemma NoWords()
    ensures Words("", "") == []
  {
  }

  /** And after any white space. */
  lemma WordsSplitAfter(a: string, b: string)
    requires a == "" || IsSpace(a[|a| - 1])
    ensures Words(a + b, "") == Words(a, "") + Words(b, "")
  {
    if a == "" {
      assert a + b == b;
    } else {
      hide Words, IsSpace;
      var front, c := a[..|a| - 1], a[|a| - 1];
      WordsAroundABlank(front, c, b);
      WordsAroundABlank(front, c, "");
      assert front + ([c] + b) == a + b;
      assert front + ([c] + "") == a;
      NoWords();
    }
  }

  lemma SolidIsOneWord(w: string)
    requires Solid(w) && w != ""
    ensures Words(w, "") == [w]
  {
    WordsOfSolid(w, "", "");
    assert w + "" == w && "" + w == w;
  }

  /** Character i of the text falls into word k: the words before hold no more than the non-blank characters before
      it, and the words up to this one hold more. */
  predicate FallsInto(text: string, i: nat, k: nat)
    requires i < |text|
  {
    var ws := Words(text, "");
    k < |ws| && |Concat(ws[..k])| <= |NonBlank(text[..i])| < |Concat(ws[..k + 1])|
  }

  predicate BlankBetween(text: string, i: nat, j: nat)
    requires j <= |text|
  {
    exists m :: i <= m < j && IsSpace(text[m])
  }

  lemma {:induction false} LongerFronts(ws: seq<string>, i: nat, j: nat)
    requires i <= j <= |ws|
    ensures |Concat(ws[..i])| <= |Concat(ws[..j])|
    decreases j - i
  {
    if i < j {
      LongerFronts(ws, i, j - 1);
      assert ws[..j][..j - 1] == ws[..j - 1];
    }
  }

  lemma {:induction false} LongerTexts(text: string, i: nat, j: nat)
    requires i <= j <= |text|
    ensures |NonBlank(text[..i])| <= |NonBlank(text[..j])|
    ensures !BlankBetween(text, i, j) ==> |NonBlank(text[..j])| == |NonBlank(text[..i])| + (j - i)
    ensures i < j && !IsSpace(text[i]) ==> |NonBlank(text[..i])| < |NonBlank(text[..j])|
    decreases j - i
  {
    if i < j {
      assert text[..j][..j - 1] == text[..j - 1];
      LongerTexts(text, i, j - 1);
    }
  }

  /** The run of non-blank characters around i. */
  lemma {:induction false} RunAround(text: string, i: nat, j: nat) returns (from: nat, to: nat)
    requires i <= j < |text| && !BlankBetween(text, i, j + 1)
    ensures from <= i && j < to <= |text| && Solid(text[from..to])
    ensures from == 0 || IsSpace(text[from - 1])
    ensures to == |text| || IsSpace(text[to])
  {
    from, to := i, j + 1;
    while from > 0 && !IsSpace(text[from - 1])
      invariant from <= i && forall m :: from <= m <= j ==> !IsSpace(text[m])
    {
      from := from - 1;
    }
    while to < |text| && !IsSpace(text[to])
      invariant j < to <= |text| && forall m :: from <= m < to ==> !IsSpace(text[m])
    {
      to := to + 1;
    }
  }

  lemma WordsOfThree(a: string, w: string, b: string)
    requires w != "" && Solid(w) && (a == "" || IsSpace(a[|a| - 1])) && (b == "" || IsSpace(b[0]))
    ensures Words(a + (w + b), "") == Words(a, "") + ([w] + Words(b, ""))
  {
    hide Words, IsSpace;
    WordsSplitAfter(a, w + b);
    WordsSplitAt(w, b, "");
    SolidIsOneWord(w);
  }

  lemma ThreeParts(text: string, from: nat, to: nat)
    requires from < to <= |text|
    ensures text == text[..from] + (text[from..to] + text[to..])
    ensures from > 0 ==> text[..from][from - 1] == text[from - 1]
    ensures to < |text| ==> text[to..][0] == text[to]
  {
    assert text[from..to] + text[to..] == text[from..];
  }

  lemma WordsAroundARun(text: string, from: nat, to: nat)
    requires from < to <= |text| && Solid(text[from..to])
    requires from == 0 || IsSpace(text[from - 1])
    requires to == |text| || IsSpace(text[to])
    ensures Words(text, "") == Words(text[..from], "") + ([text[from..to]] + Words(text[to..], ""))
  {
    hide Words, IsSpace, Solid;
    ThreeParts(text, from, to);
    var a, w, b := text[..from], text[from..to], text[to..];
    assert |a| == from && |b| == |text| - to;
    WordsOfThree(a, w, b);
  }

  lemma OneMoreWord(before: seq<string>, word: string, rest: seq<string>)
    ensures var ws := before + ([word] + rest);
            && ws[..|before|] == before && |Concat(ws[..|before| + 1])| == |Concat(before)| + |word|
  {
    var ws := before + ([word] + rest);
    assert ws[..|before| + 1] == before + [word];
    ConcatOfConcat(before, [word]);
    OneText(word);
  }

  lemma RunsAreWords(text: string, i: nat, j: nat)
    requires i <= j < |text| && !BlankBetween(text, i, j + 1)
    ensures exists k: nat :: FallsInto(text, i, k) && FallsInto(text, j, k)
  {
    hide Words, IsSpace, Concat, NonBlank;
    var from, to := RunAround(text, i, j);
    var before, word, rest := Words(text[..from], ""), text[from..to], Words(text[to..], "");
    WordsAroundARun(text, from, to);
    WordsKeepTheCharacters(text[..from]);
    OneMoreWord(before, word, rest);
    assert forall m :: from <= m < to ==> text[m] == word[m - from];
    assert !BlankBetween(text, from, i) && !BlankBetween(text, from, j);
    LongerTexts(text, from, i);
    LongerTexts(text, from, j);
    assert FallsInto(text, i, |before|) && FallsInto(text, j, |before|);
  }

  lemma BlanksPartWords(text: string, i: nat, m: nat, j: nat, k: nat)
    requires i < m < j < |text| && !IsSpace(text[i]) && IsSpace(text[m]) && FallsInto(text, i, k)
    ensures !FallsInto(text, j, k)
  {
    var before := Words(text[..m], "");
    assert text == text[..m] + text[m..];
    WordsSplitAt(text[..m], text[m..], "");
    WordsKeepTheCharacters(text[..m]);
    assert Words(text, "")[..|before|] == before;
    LongerTexts(text, i, m);
    LongerTexts(text, m, j);
    if k >= |before| { LongerFronts(Words(text, ""), |before|, k); }
    if k < |before| { LongerFronts(Words(text, ""), k + 1, |before|); }
  }

  /** Two non-blank characters fall into one word if and only if no white space lies between them. */
  lemma SameWordExactly(text: string, i: nat, j: nat)
    requires i < j < |text| && !IsSpace(text[i]) && !IsSpace(text[j])
    ensures (exists k: nat :: FallsInto(text, i, k) && FallsInto(text, j, k)) <==> !BlankBetween(text, i, j)
  {
    if BlankBetween(text, i, j) {
      var m :| i <= m < j && IsSpace(text[m]);
      forall k: nat | FallsInto(text, i, k) ensures !FallsInto(text, j, k) { BlanksPartWords(text, i, m, j, k); }
    } else {
      assert !BlankBetween(text, i, j + 1);
      RunsAreWords(text, i, j);
    }
  }

  /** Splitting undoes joining. */
  lemma {:induction false} WordsOfJoin(ws: seq<string>)
    requires AllWords(ws)
    ensures Words(Join(ws), "") == ws
  {
    assert IsSpace(' ');
    hide Words, IsSpace;
    if ws == [] {
      NoWords();
    } else if |ws| == 1 {
      SolidIsOneWord(ws[0]);
    } else {
      WordsAroundABlank(ws[0], ' ', Join(ws[1..]));
      assert Join(ws) == ws[0] + ([' '] + Join(ws[1..]));
      SolidIsOneWord(ws[0]);
      WordsOfJoin(ws[1..]);
    }
  }

  lemma NonBlankOfTwo(w: string, rest: string)
    requires Solid(w)
    ensures NonBlank(w + " " + rest) == w + NonBlank(rest)
  {
    NonBlankOfSolid(w);
    NonBlankOfConcat(w + " ", rest);
    NonBlankOfConcat(w, " ");
    OneCharacter(' ');
    assert w + "" == w;
  }

  lemma NothingIsEmpty()
    ensures Concat([]) == ""
  {
  }

  lemma {:induction false} NonBlankOfJoin(ws: seq<string>)
    requires AllWords(ws)
    ensures NonBlank(Join(ws)) == Concat(ws)
  {
    hide NonBlank, Concat;
    if ws == [] {
      NonBlankOfSolid("");
      assert Concat([]) == "" by { NothingIsEmpty(); }
    } else if |ws| == 1 {
      NonBlankOfSolid(ws[0]);
      OneText(ws[0]);
      assert ws == [ws[0]];
    } else {
      NonBlankOfJoin(ws[1..]);
      NonBlankOfTwo(ws[0], Join(ws[1..]));
      assert ws == [ws[0]] + ws[1..];
      ConcatOfConcat([ws[0]], ws[1..]);
      OneText(ws[0]);
    }
  }

  /** Normalising keeps every non-blank character and every word. */
  lemma NormalKeepsTheCharacters(text: string)
    ensures NonBlank(Normal(text)) == NonBlank(text)
    ensures Words(Normal(text), "") == Words(text, "")
  {
    WordsAreWords(text, "");
    NonBlankOfJoin(Words(text, ""));
    WordsKeepTheCharacters(text);
    WordsOfJoin(Words(text, ""));
  }

  /** Among the ASCII characters white space is the tab, the line ends, the four separators and the space. */
  lemma AsciiWhiteSpace(c: char)
    requires c as int < 128
    ensures IsSpace(c) <==> c in "\t\n\U{0B}\U{0C}\r\U{1C}\U{1D}\U{1E}\U{1F} "
  {
  }

  // ---- Cutting a normal text -------------------------------------------------------------------

  lemma {:induction false} TrailingBlank(s: string, current: string)
    ensures Words(s + " ", current) == Words(s, current)
    decreases |s|
  {
    if s == "" {
      assert (s + " ")[1..] == "";
    } else {
      assert (s + " ")[1..] == s[1..] + " ";
      TrailingBlank(s[1..], if IsSpace(s[0]) then "" else current + [s[0]]);
    }
  }

  /** The text without a blank at its end. */
  function Uncut(s: string): string {
    if s != "" && s[|s| - 1] == ' ' then s[..|s| - 1] else s
  }

  lemma StartsWithAWord(ws: seq<string>)
    requires AllWords(ws)
    ensures ws != [] ==> Join(ws) != "" && !IsSpace(Join(ws)[0])
  {
  }

  /** A joined text that is cut anywhere is, but for a blank at the cut, a joined text. */
  lemma {:induction false} CutJoin(ws: seq<string>, n: nat) returns (vs: seq<string>)
    requires AllWords(ws) && n <= |Join(ws)|
    ensures AllWords(vs) && Join(vs) == Uncut(Join(ws)[..n])
  {
    if n == 0 { return []; }
    var w := ws[0];
    if n <= |w| {
      assert Join(ws)[..n] == w[..n];
      return [w[..n]];
    }
    assert Join(ws) == w + " " + Join(ws[1..]);
    var m := n - |w| - 1;
    var rest := CutJoin(ws[1..], m);
    assert Join(ws)[..n] == w + " " + Join(ws[1..])[..m];
    if m == 0 || Uncut(Join(ws[1..])[..m]) == "" {
      StartsWithAWord(ws[1..]);
      assert Join(ws)[..n] == w + " ";
      return [w];
    }
    assert Uncut(Join(ws)[..n]) == w + " " + Uncut(Join(ws[1..])[..m]);
    vs := [w] + rest;
    assert rest != [];
    assert vs[1..] == rest;
  }

  /** Normalising the front of a normal text takes nothing from it but a blank at the cut. */
  lemma NormalOfCut(text: string, n: nat)
    requires n <= |Normal(text)|
    ensures Normal(Normal(text)[..n]) == Uncut(Normal(text)[..n])
    ensures Normal(Normal(text)) == Normal(text)
  {
    WordsAreWords(text, "");
    WordsOfJoin(Words(text, ""));
    var cut := Normal(text)[..n];
    var vs := CutJoin(Words(text, ""), n);
    WordsOfJoin(vs);
    if cut != Uncut(cut) {
      TrailingBlank(Uncut(cut), "");
      assert Uncut(cut) + " " == cut;
    }
  }

  /** No white space at either end. */
  predicate Trimmed(s: string) {
    s == "" || (!IsSpace(s[0]) && !IsSpace(s[|s| - 1]))
  }

  /** Python's `s.strip()`. */
  function Strip(s: string): (r: string)
    ensures Trimmed(r)
    ensures Trimmed(s) ==> r == s
  {
    if s == "" then ""
    else if IsSpace(s[0]) then Strip(s[1..])
    else if IsSpace(s[|s| - 1]) then Strip(s[..|s| - 1])
    else s
  }

  predicate Blank(s: string) {
    forall k :: 0 <= k < |s| ==> IsSpace(s[k])
  }

  lemma SliceOfTail(s: string, i: nat, j: nat)
    requires s != "" && i <= j < |s|
    ensures s[1..][i..j] == s[i + 1..j + 1] && s[1..][j..] == s[j + 1..] && s[..i + 1] == [s[0]] + s[1..][..i]
  {
  }

  lemma SliceOfFront(s: string, i: nat, j: nat)
    requires s != "" && i <= j < |s|
    ensures var front := s[..|s| - 1];
            front[i..j] == s[i..j] && front[..i] == s[..i] && s[j..] == front[j..] + [s[|s| - 1]]
  {
  }

  lemma BlankOfConcat(a: string, b: string)
    requires Blank(a) && Blank(b)
    ensures Blank(a + b)
  {
  }

  /** What stripping takes away is white space at the two ends. */
  lemma {:induction false} StripCutsBlanks(s: string) returns (i: nat, j: nat)
    ensures i <= j <= |s| && Strip(s) == s[i..j] && Blank(s[..i]) && Blank(s[j..])
    decreases |s|
  {
    if s == "" { return 0, 0; }
    if IsSpace(s[0]) {
      i, j := StripCutsBlanks(s[1..]);
      assert Blank([s[0]]);
      hide Blank, IsSpace;
      SliceOfTail(s, i, j);
      BlankOfConcat([s[0]], s[1..][..i]);
      return i + 1, j + 1;
    }
    if IsSpace(s[|s| - 1]) {
      i, j := StripCutsBlanks(s[..|s| - 1]);
      assert Blank([s[|s| - 1]]);
      hide Blank, IsSpace;
      SliceOfFront(s, i, j);
      BlankOfConcat(s[..|s| - 1][j..], [s[|s| - 1]]);
      return;
    }
    return 0, |s|;
  }

  /** A number in decimal digits. */
  function Decimal(n: nat): (r: string)
    ensures r != "" && Trimmed(r)
  {
    if n < 10 then [('0' as int + n) as char] else Decimal(n / 10) + [('0' as int + n % 10) as char]
  }

  function ValueOf(digits: string): int {
    if digits == "" then 0
    else ValueOf(digits[..|digits| - 1]) * 10 + (digits[|digits| - 1] as int - '0' as int)
  }

  /** The digits read back are the number. */
  lemma {:induction false} DecimalIsTheNumber(n: nat)
    ensures ValueOf(Decimal(n)) == n
    ensures forall k :: 0 <= k < |Decimal(n)| ==> '0' <= Decimal(n)[k] <= '9'
  {
    if n < 10 {
      assert Decimal(n)[..0] == "";
    } else {
      DecimalIsTheNumber(n / 10);
      assert Decimal(n)[..|Decimal(n)| - 1] == Decimal(n / 10);
    }
  }

  /** Different numbers have different digits. */
  lemma DecimalsDiffer(m: nat, n: nat)
    requires Decimal(m) == Decimal(n)
    ensures m == n
  {
    DecimalIsTheNumber(m);
    DecimalIsTheNumber(n);
  }

  /** Python's `s.find(t)`: the first position of `t` in `s`, or -1. */
  function Find(s: string, t: string): (i: int)
    ensures i == -1 || (0 <= i && i + |t| <= |s| && s[i..i + |t|] == t)
  {
    if t <= s then 0
    else if s == "" then -1
    else
      var i := Find(s[1..], t);
      if i == -1 then -1 else i + 1
  }

  predicate OccursAt(s: string, t: string, i: nat) {
    i + |t| <= |s| && s[i..i + |t|] == t
  }

  lemma OccursInTail(s: string, t: string, i: nat)
    requires s != "" && i > 0
    ensures OccursAt(s, t, i) <==> OccursAt(s[1..], t, i - 1)
  {
    if i + |t| <= |s| { assert s[i..i + |t|] == s[1..][i - 1..i - 1 + |t|]; }
  }

  /** The first position it is, and -1 only where there is none. */
  lemma {:induction false} FindIsTheFirst(s: string, t: string)
    ensures Find(s, t) >= 0 ==> OccursAt(s, t, Find(s, t)) && forall i: nat :: i < Find(s, t) ==> !OccursAt(s, t, i)
    ensures Find(s, t) < 0 ==> forall i: nat :: !OccursAt(s, t, i)
  {
    assert OccursAt(s, t, 0) <==> t <= s;
    if !(t <= s) && s != "" {
      FindIsTheFirst(s[1..], t);
      hide OccursAt;
      forall i: nat | i > 0 ensures OccursAt(s, t, i) <==> OccursAt(s[1..], t, i - 1) { OccursInTail(s, t, i); }
    }
  }

  predicate Contains(s: string, t: string) {
    Find(s, t) >= 0
  }

  /** Python's `s.lower()` as far as ASCII letters can result from it: besides the capitals, the Kelvin sign
      and the dotted capital I do. */
  function Lower(s: string): string {
    if s == "" then "" else
      (if 'A' <= s[0] <= 'Z' then [(s[0] as int + 32) as char]
       else if s[0] as int == 0x212A then "k"
       else if s[0] as int == 0x130 then ['i', 0x307 as char]
       else [s[0]]) + Lower(s[1..])
  }

  /** Python's `s.replace(t, "")`. */
  function Without(s: string, t: string): string
    requires t != ""
    decreases |s|
  {
    if s == "" then "" else if t <= s then Without(s[|t|..], t) else [s[0]] + Without(s[1..], t)
  }

  /** Lower-casing goes character by character. */
  lemma {:induction false} LowerOfConcat(s: string, t: string)
    ensures Lower(s + t) == Lower(s) + Lower(t)
  {
    if s == "" {
      assert s + t == t;
    } else {
      assert (s + t)[1..] == s[1..] + t;
      LowerOfConcat(s[1..], t);
    }
  }

  /** Of the ASCII characters it takes the capitals to the small letters in their order, and keeps the rest. */
  lemma LowerOfAscii(c: char)
    requires c as int < 128
    ensures |Lower([c])| == 1
    ensures if 'A' <= c <= 'Z' then Lower([c])[0] as int - 'a' as int == c as int - 'A' as int else Lower([c]) == [c]
  {
    assert [c][1..] == "";
  }

  /** Without occurrences nothing is taken out. */
  lemma {:induction false} NothingToTakeOut(s: string, t: string)
    requires t != "" && !Contains(s, t)
    ensures Without(s, t) == s
  {
    if s != "" { NothingToTakeOut(s[1..], t); }
  }

  lemma WithoutAfterOne(s: string, t: string)
    requires t != "" && s != "" && !OccursAt(s, t, 0)
    ensures Without(s, t) == [s[0]] + Without(s[1..], t)
  {
    assert OccursAt(s, t, 0) <==> t <= s;
  }

  lemma TakenOutOneLater(s: string, t: string, i: nat, taken: string)
    requires t != "" && i + 1 + |t| <= |s|
    requires taken == s[1..][..i] + Without(s[1..][i + |t|..], t)
    ensures [s[0]] + taken == s[..i + 1] + Without(s[i + 1 + |t|..], t)
  {
    hide Without;
    assert s[1..][i + |t|..] == s[i + 1 + |t|..];
    assert s[..i + 1] == [s[0]] + s[1..][..i];
    Associates([s[0]], s[1..][..i], Without(s[i + 1 + |t|..], t));
  }

  lemma TakenOutInFront(s: string, t: string)
    requires t != "" && OccursAt(s, t, 0)
    ensures Without(s, t) == s[..0] + Without(s[|t|..], t)
  {
    assert s[..0] + Without(s[|t|..], t) == Without(s[|t|..], t);
  }

  /** The first occurrence is taken out, and then those in what follows it. */
  lemma {:induction false} TheFirstIsTakenOut(s: string, t: string, i: nat)
    requires t != "" && OccursAt(s, t, i) && forall j: nat :: j < i ==> !OccursAt(s, t, j)
    ensures i + |t| <= |s| && Without(s, t) == s[..i] + Without(s[i + |t|..], t)
    decreases i
  {
    assert i + |t| <= |s|;
    hide Without, OccursAt;
    if i == 0 {
      TakenOutInFront(s, t);
    } else {
      WithoutAfterOne(s, t);
      forall j: nat | j < i ensures OccursAt(s, t, j + 1) <==> OccursAt(s[1..], t, j) { OccursInTail(s, t, j + 1); }
      TheFirstIsTakenOut(s[1..], t, i - 1);
      TakenOutOneLater(s, t, i - 1, Without(s[1..], t));
    }
  }
}
