/** A reader of JSON (RFC 8259), and that it gives back every value that the printer of the wire form prints. */
module JsonReader {
  import opened KeyStore
  import opened SseWire

  // ---- Strings ---------------------------------------------------------------------------------

  function HexValue(c: char): (r: Option<nat>)
    ensures r.Some? ==> r.value < 16
  {
    if '0' <= c <= '9' then Some(c as int - '0' as int)
    else if 'a' <= c <= 'f' then Some(c as int - 'a' as int + 10)
    else if 'A' <= c <= 'F' then Some(c as int - 'A' as int + 10)
    else None
  }

  /** Four hexadecimal digits. */
  function ReadUnit(a: char, b: char, c: char, d: char): (r: Option<nat>)
    ensures r.Some? ==> r.value < 0x10000
  {
    var w, x, y, z := HexValue(a), HexValue(b), HexValue(c), HexValue(d);
    if w.Some? && x.Some? && y.Some? && z.Some? then Some(w.value * 4096 + x.value * 256 + y.value * 16 + z.value)
    else None
  }

  function ShortEscape(c: char): Option<char> {
    if c == '"' || c == '\\' || c == '/' then Some(c)
    else if c == 'n' then Some('\n')
    else if c == 'r' then Some('\r')
    else if c == 't' then Some('\t')
    else if c == 'b' then Some(8 as char)
    else if c == 'f' then Some(12 as char)
    else None
  }

  datatype Read<T> = Read(value: T, rest: string)

  function UnitAt(s: string, i: nat): Option<nat>
    requires i + 4 <= |s|
  {
    ReadUnit(s[i], s[i + 1], s[i + 2], s[i + 3])
  }

  /** The character that a \u escape stands for, or a pair of them; a surrogate alone is none. */
  function ReadEscape(s: string): (r: Option<Read<char>>)
    ensures r.Some? ==> |r.value.rest| < |s|
  {
    if |s| < 4 || UnitAt(s, 0).None? then None
    else
      var unit := UnitAt(s, 0).value;
      if unit < 0xD800 || unit >= 0xE000 then Some(Read(unit as char, s[4..]))
      else if unit >= 0xDC00 || |s| < 10 || s[4] != '\\' || s[5] != 'u' || UnitAt(s, 6).None? then None
      else
        var low := UnitAt(s, 6).value;
        if 0xDC00 <= low < 0xE000
        then Some(Read((0x10000 + (unit - 0xD800) * 1024 + (low - 0xDC00)) as char, s[10..])) else None
  }

  /** One character of a string literal, which the closing quote is not. */
  function ReadChar(s: string): (r: Option<Read<char>>)
    ensures r.Some? ==> |r.value.rest| < |s|
  {
    if s == "" || s[0] == '"' || s[0] < ' ' then None
    else if s[0] != '\\' then Some(Read(s[0], s[1..]))
    else if |s| == 1 then None
    else if s[1] == 'u' then ReadEscape(s[2..])
    else if ShortEscape(s[1]).None? then None
    else Some(Read(ShortEscape(s[1]).value, s[2..]))
  }

  /** The rest of a string literal, behind its opening quote. */
  function ReadText(s: string): (r: Option<Read<string>>)
    ensures r.Some? ==> |r.value.rest| < |s|
    decreases |s|
  {
    if s == "" then None
    else if s[0] == '"' then Some(Read("", s[1..]))
    else if ReadChar(s).None? then None
    else
      var c := ReadChar(s).value;
      var more := ReadText(c.rest);
      if more.None? then None else Some(Read([c.value] + more.value.value, more.value.rest))
  }

  // ---- Values ----------------------------------------------------------------------------------

  predicate IsBlank(c: char) {
    c == ' ' || c == '\t' || c == '\n' || c == '\r'
  }

  function Skip(s: string): (r: string)
    ensures |r| <= |s|
  {
    if s != "" && IsBlank(s[0]) then Skip(s[1..]) else s
  }

  predicate NumberChar(c: char) {
    '0' <= c <= '9' || c == '-' || c == '+' || c == '.' || c == 'e' || c == 'E'
  }

  /** How many characters of a number come first. */
  function NumberEnd(s: string): (n: nat)
    ensures n <= |s|
  {
    if s != "" && NumberChar(s[0]) then 1 + NumberEnd(s[1..]) else 0
  }

  /** One value from the front of a text. */
  function ReadValue(s: string): (r: Option<Read<Json>>)
    ensures r.Some? ==> |r.value.rest| < |s|
    decreases |s|, 0
  {
    if s == "" then None
    else if IsBlank(s[0]) then ReadValue(s[1..])
    else if s[0] == '"' then
      var text := ReadText(s[1..]);
      if text.None? then None else Some(Read(Text(text.value.value), text.value.rest))
    else if s[0] == '[' then
      var t := Skip(s[1..]);
      if t != "" && t[0] == ']' then Some(Read(List([]), t[1..]))
      else
        var items := ReadItems(s[1..]);
        if items.None? then None else Some(Read(List(items.value.value), items.value.rest))
    else if s[0] == '{' then
      var t := Skip(s[1..]);
      if t != "" && t[0] == '}' then Some(Read(Object([]), t[1..]))
      else
        var fields := ReadFields(s[1..]);
        if fields.None? then None else Some(Read(Object(fields.value.value), fields.value.rest))
    else if "null" <= s then Some(Read(Null, s[4..]))
    else if "true" <= s then Some(Read(Bool(true), s[4..]))
    else if "false" <= s then Some(Read(Bool(false), s[5..]))
    else if NumberEnd(s) == 0 then None
    else Some(Read(Number(s[..NumberEnd(s)]), s[NumberEnd(s)..]))
  }

  /** The items of a list that has some, up to its closing bracket. */
  function ReadItems(s: string): (r: Option<Read<seq<Json>>>)
    ensures r.Some? ==> |r.value.rest| < |s|
    decreases |s|, 1
  {
    var first := ReadValue(s);
    if first.None? then None
    else
      var t := Skip(first.value.rest);
      if t == "" then None
      else if t[0] == ']' then Some(Read([first.value.value], t[1..]))
      else if t[0] != ',' then None
      else
        var more := ReadItems(t[1..]);
        if more.None? then None else Some(Read([first.value.value] + more.value.value, more.value.rest))
  }

  /** The members of an object that has some, up to its closing brace. */
  function ReadFields(s: string): (r: Option<Read<seq<Member>>>)
    ensures r.Some? ==> |r.value.rest| < |s|
    decreases |s|, 1
  {
    var s' := Skip(s);
    if s' == "" || s'[0] != '"' || ReadText(s'[1..]).None? then None
    else
      var name := ReadText(s'[1..]).value;
      var colon := Skip(name.rest);
      if colon == "" || colon[0] != ':' || ReadValue(colon[1..]).None? then None
      else
        var value := ReadValue(colon[1..]).value;
        var t := Skip(value.rest);
        if t == "" then None
        else if t[0] == '}' then Some(Read([Member(name.value, value.value)], t[1..]))
        else if t[0] != ',' then None
        else
          var more := ReadFields(t[1..]);
          if more.None? then None
          else Some(Read([Member(name.value, value.value)] + more.value.value, more.value.rest))
  }

  // ---- Strings come back -----------------------------------------------------------------------

  lemma DigitReadsBack(n: nat)
    requires n < 16
    ensures HexValue(HexDigit(n)) == Some(n)
  {
    if n < 10 {
      assert HEX[n] as int == '0' as int + n;
    } else {
      assert HEX[n] as int == 'a' as int + (n - 10);
    }
  }

  lemma FourDigits(unit: nat)
    requires unit < 0x10000
    ensures unit / 4096 < 16
    ensures unit / 4096 * 4096 + unit / 256 % 16 * 256 + unit / 16 % 16 * 16 + unit % 16 == unit
  {
    var a, b := unit / 16, unit / 256;
    assert b == a / 16 && unit / 4096 == b / 16;
    assert unit == 16 * a + unit % 16 && a == 16 * b + a % 16 && b == 16 * (b / 16) + b % 16;
  }

  lemma DigitsRead(a: nat, b: nat, c: nat, d: nat)
    requires a < 16 && b < 16 && c < 16 && d < 16
    ensures ReadUnit(HexDigit(a), HexDigit(b), HexDigit(c), HexDigit(d)) == Some(a * 4096 + b * 256 + c * 16 + d)
  {
    DigitReadsBack(a);
    DigitReadsBack(b);
    DigitReadsBack(c);
    DigitReadsBack(d);
    hide HexValue, HexDigit;
  }

  lemma UnicodeHasFourDigits(unit: nat, a: nat, b: nat, c: nat, d: nat)
    requires unit < 0x10000 && a == unit / 4096 < 16 && b == unit / 256 % 16 && c == unit / 16 % 16 && d == unit % 16
    ensures var u := Unicode(unit);
            && |u| == 6 && u[0] == '\\' && u[1] == 'u'
            && u[2] == HexDigit(a) && u[3] == HexDigit(b) && u[4] == HexDigit(c) && u[5] == HexDigit(d)
  {
    hide HexDigit;
  }

  lemma UnitReadsBack(unit: nat)
    requires unit < 0x10000
    ensures var u := Unicode(unit);
            |u| == 6 && u[0] == '\\' && u[1] == 'u' && ReadUnit(u[2], u[3], u[4], u[5]) == Some(unit)
  {
    hide Unicode, ReadUnit, HexDigit;
    FourDigits(unit);
    var a, b, c, d := unit / 4096, unit / 256 % 16, unit / 16 % 16, unit % 16;
    UnicodeHasFourDigits(unit, a, b, c, d);
    DigitsRead(a, b, c, d);
  }

  lemma EscapeReadsBack(c: char, rest: string)
    requires c as int < 0x10000
    ensures ReadChar(Unicode(c as int) + rest) == Some(Read(c, rest))
  {
    var u := Unicode(c as int);
    UnitReadsBack(c as int);
    hide ReadUnit, Unicode;
    assert (u + rest)[2..][4..] == rest;
  }

  lemma PairReads(high: string, low: string, unit: nat, second: nat, rest: string)
    requires |high| == 6 && high[0] == '\\' && high[1] == 'u' && |low| == 6 && low[0] == '\\' && low[1] == 'u'
    requires ReadUnit(high[2], high[3], high[4], high[5]) == Some(unit) && 0xD800 <= unit < 0xDC00
    requires ReadUnit(low[2], low[3], low[4], low[5]) == Some(second) && 0xDC00 <= second < 0xE000
    ensures ReadChar(high + low + rest) ==
            Some(Read((0x10000 + (unit - 0xD800) * 1024 + (second - 0xDC00)) as char, rest))
  {
    hide ReadUnit;
    var s := high + low + rest;
    var t := s[2..];
    assert |t| >= 10 && t[0] == high[2] && t[1] == high[3] && t[2] == high[4] && t[3] == high[5];
    assert t[4] == low[0] && t[5] == low[1] && t[6] == low[2] && t[7] == low[3] && t[8] == low[4] && t[9] == low[5];
    assert t[10..] == rest;
  }

  lemma Halves(offset: nat)
    requires offset < 0x100000
    ensures 0xD800 <= 0xD800 + offset / 1024 < 0xDC00 && 0xDC00 <= 0xDC00 + offset % 1024 < 0xE000
    ensures (0xD800 + offset / 1024 - 0xD800) * 1024 + (0xDC00 + offset % 1024 - 0xDC00) == offset
  {
  }

  lemma PairReadsBack(c: char, rest: string)
    requires c as int >= 0x10000
    ensures ReadChar(SurrogatePair(c as int - 0x10000) + rest) == Some(Read(c, rest))
  {
    hide ReadUnit, Unicode, ReadChar;
    var offset := c as int - 0x10000;
    var unit, second := 0xD800 + offset / 1024, 0xDC00 + offset % 1024;
    Halves(offset);
    UnitReadsBack(unit);
    UnitReadsBack(second);
    PairReads(Unicode(unit), Unicode(second), unit, second, rest);
  }

  lemma ShortReadsBack(c: char, rest: string)
    requires c as int < 0x10000 && EscapeChar(c) != Unicode(c as int)
    ensures EscapeChar(c) != "" && EscapeChar(c)[0] != '"'
    ensures ReadChar(EscapeChar(c) + rest) == Some(Read(c, rest))
  {
    var s := EscapeChar(c) + rest;
    assert s[|EscapeChar(c)|..] == rest;
  }

  lemma CharReadsBack(c: char, rest: string)
    ensures EscapeChar(c) != "" && EscapeChar(c)[0] != '"'
    ensures ReadChar(EscapeChar(c) + rest) == Some(Read(c, rest))
  {
    var n := c as int;
    if n >= 0x10000 {
      PairReadsBack(c, rest);
      UnitReadsBack(0xD800 + (n - 0x10000) / 1024);
    } else if EscapeChar(c) == Unicode(n) {
      EscapeReadsBack(c, rest);
      UnitReadsBack(n);
    } else {
      ShortReadsBack(c, rest);
    }
  }

  lemma OneCharFirst(c: char, tail: string, s: string, rest: string)
    requires ReadText(tail) == Some(Read(s, rest))
    ensures ReadText(EscapeChar(c) + tail) == Some(Read([c] + s, rest))
  {
    CharReadsBack(c, tail);
    hide ReadChar, EscapeChar;
    assert (EscapeChar(c) + tail)[0] == EscapeChar(c)[0];
  }

  lemma Associates(a: string, b: string, c: string, d: string)
    ensures a + b + c + d == a + (b + c + d)
  {
  }

  lemma NoCharacters(rest: string)
    ensures ReadText("\"" + rest) == Some(Read("", rest))
  {
    assert ("\"" + rest)[1..] == rest;
  }

  /** Every string comes back from between its quotes, whatever follows. */
  lemma {:induction false} TextReadsBack(s: string, rest: string)
    ensures ReadText(Escape(s) + "\"" + rest) == Some(Read(s, rest))
  {
    if s == "" {
      NoCharacters(rest);
      assert Escape(s) + "\"" + rest == "\"" + rest;
    } else {
      TextReadsBack(s[1..], rest);
      OneCharFirst(s[0], Escape(s[1..]) + "\"" + rest, s[1..], rest);
      hide ReadText, EscapeChar;
      Associates(EscapeChar(s[0]), Escape(s[1..]), "\"", rest);
      assert s == [s[0]] + s[1..];
    }
  }

  lemma QuoteReadsBack(s: string, rest: string)
    ensures Quote(s) != "" && Quote(s)[0] == '"' && ReadText((Quote(s) + rest)[1..]) == Some(Read(s, rest))
  {
    TextReadsBack(s, rest);
    hide ReadText, Escape;
    assert (Quote(s) + rest)[1..] == Escape(s) + "\"" + rest;
  }

  // ---- Values come back ------------------------------------------------------------------------

  /** Values whose numbers are printed in the characters of numbers; Python's names for what is no number are not. */
  predicate Readable(j: Json)
    decreases j, 0
  {
    match j
    case Number(digits) => digits != "" && forall i :: 0 <= i < |digits| ==> NumberChar(digits[i])
    case List(items) => forall i :: 0 <= i < |items| ==> Readable(items[i])
    case Object(fields) => forall i :: 0 <= i < |fields| ==> Readable(fields[i].value)
    case _ => true
  }

  /** What may follow a value: a number must end. */
  predicate Follows(j: Json, rest: string) {
    j.Number? && rest != "" ==> !NumberChar(rest[0])
  }

  lemma {:induction false} NumberEndsThere(digits: string, rest: string)
    requires forall i :: 0 <= i < |digits| ==> NumberChar(digits[i])
    requires rest != "" ==> !NumberChar(rest[0])
    ensures NumberEnd(digits + rest) == |digits|
  {
    if digits == "" {
      assert digits + rest == rest;
    } else {
      assert (digits + rest)[1..] == digits[1..] + rest;
      NumberEndsThere(digits[1..], rest);
    }
  }

  /** The first character of a value tells what it is. */
  lemma FirstCharacter(j: Json)
    requires Readable(j)
    ensures Dumps(j) != "" && !IsBlank(Dumps(j)[0]) && Dumps(j)[0] != ']' && Dumps(j)[0] != '}'
  {
  }

  lemma AtomReadsBack(j: Json, rest: string)
    requires Readable(j) && Follows(j, rest) && !j.List? && !j.Object?
    ensures ReadValue(Dumps(j) + rest) == Some(Read(j, rest))
  {
    var s := Dumps(j) + rest;
    match j {
      case Null => assert s[4..] == rest;
      case Bool(b) => if b { assert s[4..] == rest; } else { assert s[5..] == rest; }
      case Number(digits) =>
        NumberEndsThere(digits, rest);
        assert NumberChar(s[0]) && s[..|digits|] == digits && s[|digits|..] == rest;
      case Text(t) => QuoteReadsBack(t, rest);
    }
  }

  lemma ABlankIsSkipped(s: string)
    ensures ReadValue(" " + s) == ReadValue(s)
    ensures Skip(" " + s) == Skip(s)
  {
    assert (" " + s)[1..] == s;
  }

  lemma OneItem(item: Json, rest: string)
    requires Readable(item) && ReadValue(Dumps(item) + ("]" + rest)) == Some(Read(item, "]" + rest))
    ensures ReadItems(Dumps(item) + ("]" + rest)) == Some(Read([item], rest))
  {
    hide ReadValue;
    assert ("]" + rest)[0] == ']' && ("]" + rest)[1..] == rest;
  }

  lemma ABlankBeforeItems(more: string)
    ensures ReadItems(" " + more) == ReadItems(more)
  {
    ABlankIsSkipped(more);
    hide ReadValue;
  }

  lemma ItemReads(item: Json, s: string, more: string)
    requires ReadValue(s) == Some(Read(item, ", " + more)) && ReadItems(" " + more).Some?
    ensures ReadItems(s) == Some(Read([item] + ReadItems(" " + more).value.value, ReadItems(" " + more).value.rest))
  {
    hide ReadValue;
    assert (", " + more)[0] == ',' && (", " + more)[1..] == " " + more;
  }

  lemma OneMoreItem(item: Json, more: string, items: seq<Json>, rest: string)
    requires ReadValue(Dumps(item) + (", " + more)) == Some(Read(item, ", " + more))
    requires ReadItems(more) == Some(Read(items, rest))
    ensures ReadItems(Dumps(item) + (", " + more)) == Some(Read([item] + items, rest))
  {
    hide ReadValue, ReadItems, Dumps;
    ABlankBeforeItems(more);
    ItemReads(item, Dumps(item) + (", " + more), more);
  }

  lemma Regroup(a: string, b: string, c: string, d: string)
    ensures a + b + c + d == a + (b + (c + d))
  {
  }

  lemma DumpOfItems(items: seq<Json>, end: string)
    requires items != []
    ensures |items| == 1 ==> DumpItems(items) == Dumps(items[0])
    ensures |items| > 1 ==> DumpItems(items) + end == Dumps(items[0]) + (", " + (DumpItems(items[1..]) + end))
  {
    hide Dumps;
    Regroup(Dumps(items[0]), ", ", DumpItems(items[1..]), end);
  }

  lemma {:induction false} ItemsReadBack(items: seq<Json>, rest: string)
    requires items != [] && forall i :: 0 <= i < |items| ==> Readable(items[i])
    ensures ReadItems(DumpItems(items) + ("]" + rest)) == Some(Read(items, rest))
    decreases items, 1
  {
    hide Dumps, DumpItems, ReadItems, ReadValue, Readable;
    DumpOfItems(items, "]" + rest);
    if |items| == 1 {
      ValueReadsBack(items[0], "]" + rest);
      OneItem(items[0], rest);
      assert items == [items[0]];
    } else {
      var more := DumpItems(items[1..]) + ("]" + rest);
      ItemsReadBack(items[1..], rest);
      ValueReadsBack(items[0], ", " + more);
      OneMoreItem(items[0], more, items[1..], rest);
      assert items == [items[0]] + items[1..];
    }
  }

  lemma FieldReads(field: Member, value: string, after: string)
    requires ReadValue(" " + value) == Some(Read(field.value, after))
    ensures ReadFields(Quote(field.name) + (": " + value)) ==
            var t := Skip(after);
            if t == "" then None
            else if t[0] == '}' then Some(Read([field], t[1..]))
            else if t[0] != ',' || ReadFields(t[1..]).None? then None
            else Some(Read([field] + ReadFields(t[1..]).value.value, ReadFields(t[1..]).value.rest))
  {
    QuoteReadsBack(field.name, ": " + value);
    hide ReadValue, ReadText, Quote;
    assert (": " + value)[0] == ':' && (": " + value)[1..] == " " + value;
  }

  lemma OneField(field: Member, rest: string)
    requires ReadValue(" " + (Dumps(field.value) + ("}" + rest))) == Some(Read(field.value, "}" + rest))
    ensures ReadFields(Quote(field.name) + (": " + (Dumps(field.value) + ("}" + rest)))) == Some(Read([field], rest))
  {
    FieldReads(field, Dumps(field.value) + ("}" + rest), "}" + rest);
    hide ReadValue, ReadFields, Quote, Dumps;
    assert ("}" + rest)[0] == '}' && ("}" + rest)[1..] == rest;
  }

  lemma ABlankInFront(more: string)
    ensures ReadFields(" " + more) == ReadFields(more)
  {
    ABlankIsSkipped(more);
    hide ReadValue, ReadText;
  }

  lemma OneMoreField(field: Member, more: string, fields: seq<Member>, rest: string)
    requires ReadValue(" " + (Dumps(field.value) + (", " + more))) == Some(Read(field.value, ", " + more))
    requires ReadFields(more) == Some(Read(fields, rest))
    ensures ReadFields(Quote(field.name) + (": " + (Dumps(field.value) + (", " + more)))) ==
            Some(Read([field] + fields, rest))
  {
    FieldReads(field, Dumps(field.value) + (", " + more), ", " + more);
    ABlankInFront(more);
    hide ReadValue, ReadFields, Quote, Dumps;
    assert (", " + more)[0] == ',' && (", " + more)[1..] == " " + more;
  }

  lemma DumpOfFields(fields: seq<Member>, end: string)
    requires fields != []
    ensures var f := fields[0];
            && (|fields| == 1 ==>
                  DumpFields(fields) + end == Quote(f.name) + (": " + (Dumps(f.value) + end)))
            && (|fields| > 1 ==>
                  DumpFields(fields) + end ==
                  Quote(f.name) + (": " + (Dumps(f.value) + (", " + (DumpFields(fields[1..]) + end)))))
  {
    hide Dumps, Quote;
    var f := fields[0];
    if |fields| == 1 {
      Regroup(Quote(f.name), ": ", Dumps(f.value), end);
    } else {
      var tail := DumpFields(fields[1..]);
      Regroup(Quote(f.name) + ": " + Dumps(f.value), ", ", tail, end);
      Regroup(Quote(f.name), ": ", Dumps(f.value), ", " + (tail + end));
    }
  }

  lemma {:induction false} FieldsReadBack(fields: seq<Member>, rest: string)
    requires fields != [] && forall i :: 0 <= i < |fields| ==> Readable(fields[i].value)
    ensures ReadFields(DumpFields(fields) + ("}" + rest)) == Some(Read(fields, rest))
    decreases fields, 1
  {
    hide Dumps, DumpFields, Quote, ReadFields, ReadValue, Readable;
    var field := fields[0];
    DumpOfFields(fields, "}" + rest);
    if |fields| == 1 {
      ValueReadsBack(field.value, "}" + rest);
      ABlankIsSkipped(Dumps(field.value) + ("}" + rest));
      OneField(field, rest);
      assert fields == [field];
    } else {
      var more := DumpFields(fields[1..]) + ("}" + rest);
      FieldsReadBack(fields[1..], rest);
      ValueReadsBack(field.value, ", " + more);
      ABlankIsSkipped(Dumps(field.value) + (", " + more));
      OneMoreField(field, more, fields[1..], rest);
      assert fields == [field] + fields[1..];
    }
  }

  lemma EmptyReadBack(rest: string)
    ensures ReadValue("[]" + rest) == Some(Read(List([]), rest))
    ensures ReadValue("{}" + rest) == Some(Read(Object([]), rest))
  {
    assert ("[]" + rest)[1..] == "]" + rest && ("]" + rest)[1..] == rest;
    assert ("{}" + rest)[1..] == "}" + rest && ("}" + rest)[1..] == rest;
  }

  lemma ListReads(items: seq<Json>, body: string, rest: string)
    requires ReadItems(body) == Some(Read(items, rest)) && body != "" && !IsBlank(body[0]) && body[0] != ']'
    ensures ReadValue("[" + body) == Some(Read(List(items), rest))
  {
    hide ReadItems;
    assert ("[" + body)[1..] == body;
  }

  lemma ObjectReads(fields: seq<Member>, body: string, rest: string)
    requires ReadFields(body) == Some(Read(fields, rest)) && body != "" && body[0] == '"'
    ensures ReadValue("{" + body) == Some(Read(Object(fields), rest))
  {
    hide ReadFields;
    assert ("{" + body)[1..] == body;
  }

  lemma NoItems()
    ensures DumpItems([]) == "" && DumpFields([]) == ""
  {
  }

  lemma DumpOfLists(j: Json, rest: string)
    ensures j.List? ==> Dumps(j) + rest == "[" + (DumpItems(j.items) + ("]" + rest))
    ensures j.Object? ==> Dumps(j) + rest == "{" + (DumpFields(j.fields) + ("}" + rest))
    ensures j == List([]) ==> Dumps(j) == "[]"
    ensures j == Object([]) ==> Dumps(j) == "{}"
  {
    hide DumpItems, DumpFields;
    if j.List? {
      Regroup("[", DumpItems(j.items), "]", rest);
      NoItems();
    } else if j.Object? {
      Regroup("{", DumpFields(j.fields), "}", rest);
      NoItems();
    }
  }

  lemma FirstOfItems(items: seq<Json>, end: string)
    requires items != [] && Readable(items[0]) && end != ""
    ensures var body := DumpItems(items) + end; body != "" && !IsBlank(body[0]) && body[0] != ']'
  {
    FirstCharacter(items[0]);
    DumpOfItems(items, end);
    hide Dumps, DumpItems, IsBlank;
    assert (DumpItems(items) + end)[0] == Dumps(items[0])[0];
  }

  lemma FirstOfFields(fields: seq<Member>, end: string)
    requires fields != []
    ensures var body := DumpFields(fields) + end; body != "" && body[0] == '"'
  {
    DumpOfFields(fields, end);
    hide Dumps, DumpFields;
  }

  /** Every value that the printer prints is read back, whatever follows it: the reader is a left inverse. */
  lemma {:induction false} ValueReadsBack(j: Json, rest: string)
    requires Readable(j) && Follows(j, rest)
    ensures ReadValue(Dumps(j) + rest) == Some(Read(j, rest))
    decreases j, 0
  {
    hide Dumps, DumpItems, DumpFields, ReadValue, ReadItems, ReadFields;
    DumpOfLists(j, rest);
    if j == List([]) || j == Object([]) {
      EmptyReadBack(rest);
    } else if j.List? {
      ItemsReadBack(j.items, rest);
      FirstOfItems(j.items, "]" + rest);
      ListReads(j.items, DumpItems(j.items) + ("]" + rest), rest);
    } else if j.Object? {
      FieldsReadBack(j.fields, rest);
      FirstOfFields(j.fields, "}" + rest);
      ObjectReads(j.fields, DumpFields(j.fields) + ("}" + rest), rest);
    } else {
      AtomReadsBack(j, rest);
    }
  }

  /** From the agent to the client: every event of every list comes over the wire with its name, and its payload is
      read back as the value that was sent. */
  lemma PayloadsReadBack(es: seq<Event>, i: nat)
    requires i < |es|
    requires forall k :: 0 <= k < |es| ==> GoodName(es[k].name) && Printable(es[k].data) && Readable(es[k].data)
    ensures |Receive(Wire(es))| == |es|
    ensures Receive(Wire(es))[i].name == es[i].name
    ensures ReadValue(Receive(Wire(es))[i].data) == Some(Read(es[i].data, ""))
  {
    RoundTrip(es);
    ValueReadsBack(es[i].data, "");
    hide ReadValue, Dumps, Receive, Wire;
    assert Dumps(es[i].data) + "" == Dumps(es[i].data);
  }
}
