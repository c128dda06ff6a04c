/** The wire form of the agent's events, and the event-stream rules a client reads it by (section 9.2 of
    the WHATWG HTML Living Standard). */
module SseWire {
  // ---- Printing --------------------------------------------------------------------------------

  /** JSON values as the printer sees them; `Number` carries its printed form. */
  datatype Json =
    | Null
    | Bool(b: bool)
    | Number(digits: string)
    | Text(s: string)
    | List(items: seq<Json>)
    | Object(fields: seq<Member>)

  datatype Member = Member(name: string, value: Json)

  const HEX: string := "0123456789abcdef"

  function HexDigit(n: nat): char
    requires n < 16
  {
    HEX[n]
  }

  /** \uXXXX of one code unit. */
  function Unicode(unit: nat): string
    requires unit < 0x10000
  {
    ['\\', 'u', HexDigit(unit / 4096), HexDigit(unit / 256 % 16), HexDigit(unit / 16 % 16), HexDigit(unit % 16)]
  }

  function SurrogatePair(offset: nat): string
    requires offset < 0x100000
  {
    Unicode(0xD800 + offset / 1024) + Unicode(0xDC00 + offset % 1024)
  }

  /** Strings are escaped to ASCII (section 7 of RFC 8259): short escapes, \u escapes, surrogate pairs. */
  function EscapeChar(c: char): string {
    var n := c as int;
    if c == '"' then "\\\""
    else if c == '\\' then "\\\\"
    else if c == '\n' then "\\n"
    else if c == '\r' then "\\r"
    else if c == '\t' then "\\t"
    else if n == 8 then "\\b"
    else if n == 12 then "\\f"
    else if 32 <= n < 127 then [c]
    else if n < 0x10000 then Unicode(n)
    else SurrogatePair(n - 0x10000)
  }

  function Escape(s: string): string {
    if s == "" then "" else EscapeChar(s[0]) + Escape(s[1..])
  }

  function Quote(s: string): string {
    "\"" + Escape(s) + "\""
  }

  function DumpFields(fields: seq<Member>): string
    decreases fields, 1
  {
    if fields == [] then ""
    else
      var field := Quote(fields[0].name) + ": " + Dumps(fields[0].value);
      if |fields| == 1 then field else field + ", " + DumpFields(fields[1..])
  }

  function Dumps(j: Json): string
    decreases j, 0
  {
    match j
    case Null => "null"
    case Bool(b) => if b then "true" else "false"
    case Number(digits) => digits
    case Text(s) => Quote(s)
    case List(items) => "[" + DumpItems(items) + "]"
    case Object(fields) => "{" + DumpFields(fields) + "}"
  }

  function DumpItems(items: seq<Json>): string
    decreases items, 1
  {
    if items == [] then ""
    else if |items| == 1 then Dumps(items[0])
    else Dumps(items[0]) + ", " + DumpItems(items[1..])
  }

  datatype Event = Event(name: string, data: Json)

  function ToSse(e: Event): string {
    "event: " + e.name + "\ndata: " + Dumps(e.data) + "\n\n"
  }

  function Wire(es: seq<Event>): string {
    if es == [] then "" else ToSse(es[0]) + Wire(es[1..])
  }

  // ---- Reading ---------------------------------------------------------------------------------

  /** The terminated lines of a stream; a line ends at CR LF, LF or CR. */
  function Lines(stream: string, current: string): seq<string>
    decreases |stream|
  {
    if stream == "" then []
    else if stream[0] == '\r' then
      [current] + Lines(if |stream| > 1 && stream[1] == '\n' then stream[2..] else stream[1..], "")
    else if stream[0] == '\n' then [current] + Lines(stream[1..], "")
    else Lines(stream[1..], current + [stream[0]])
  }

  /** A dispatched event: its type and its data. */
  datatype Received = Received(name: string, data: string)

  /** The position of the first colon, or the length. */
  function Colon(line: string): (n: nat)
    ensures n <= |line|
  {
    if line == "" || line[0] == ':' then 0 else 1 + Colon(line[1..])
  }

  /** What follows the colon, less one leading space. */
  function FieldValue(line: string): string {
    var n := Colon(line);
    if n == |line| then "" else if n + 1 < |line| && line[n + 1] == ' ' then line[n + 2..] else line[n + 1..]
  }

  /** The rules for one line after the other, with the event type buffer and the data buffer. */
  function Interpret(lines: seq<string>, name: string, data: string): seq<Received>
    decreases |lines|
  {
    if lines == [] then []
    else
      var line, rest := lines[0], lines[1..];
      if line == "" then
        if data == "" then Interpret(rest, "", "")
        else
          var text := if data[|data| - 1] == '\n' then data[..|data| - 1] else data;
          [Received(if name == "" then "message" else name, text)] + Interpret(rest, "", "")
      else
        var field := line[..Colon(line)];
        if field == "event" then Interpret(rest, FieldValue(line), data)
        else if field == "data" then Interpret(rest, name, data + FieldValue(line) + "\n")
        else Interpret(rest, name, data)
  }

  function Receive(stream: string): seq<Received> {
    Interpret(Lines(stream, ""), "", "")
  }

  // ---- The printer leaves no line end in the payload ------------------------------------------

  predicate OneLine(s: string) {
    forall i :: 0 <= i < |s| ==> s[i] != '\n' && s[i] != '\r'
  }

  /** Numbers are printed on one line. */
  predicate Printable(j: Json)
    decreases j, 0
  {
    match j
    case Number(digits) => OneLine(digits)
    case List(items) => forall i :: 0 <= i < |items| ==> Printable(items[i])
    case Object(fields) => forall i :: 0 <= i < |fields| ==> Printable(fields[i].value)
    case _ => true
  }

  lemma OneLineConcat(a: string, b: string)
    requires OneLine(a) && OneLine(b)
    ensures OneLine(a + b)
  {
  }

  lemma HexIsOneLine(n: nat)
    requires n < 16
    ensures HexDigit(n) != '\n' && HexDigit(n) != '\r'
  {
    assert forall i :: 0 <= i < |HEX| ==> HEX[i] != '\n' && HEX[i] != '\r';
  }

  lemma UnicodeIsOneLine(unit: nat)
    requires unit < 0x10000
    ensures OneLine(Unicode(unit))
  {
    HexIsOneLine(unit / 4096);
    HexIsOneLine(unit / 256 % 16);
    HexIsOneLine(unit / 16 % 16);
    HexIsOneLine(unit % 16);
  }

  lemma SurrogatePairIsOneLine(offset: nat)
    requires offset < 0x100000
    ensures OneLine(SurrogatePair(offset))
  {
    UnicodeIsOneLine(0xD800 + offset / 1024);
    UnicodeIsOneLine(0xDC00 + offset % 1024);
  }

  lemma EscapeCharIsOneLine(c: char)
    ensures OneLine(EscapeChar(c))
  {
    var n := c as int;
    if n < 0x10000 { UnicodeIsOneLine(n); } else { SurrogatePairIsOneLine(n - 0x10000); }
  }

  lemma {:induction false} EscapeIsOneLine(s: string)
    ensures OneLine(Escape(s)) && OneLine(Quote(s))
  {
    if s != "" {
      EscapeIsOneLine(s[1..]);
      EscapeCharIsOneLine(s[0]);
      OneLineConcat(EscapeChar(s[0]), Escape(s[1..]));
    }
  }

  lemma {:induction false} DumpFieldsIsOneLine(fields: seq<Member>)
    requires forall i :: 0 <= i < |fields| ==> Printable(fields[i].value)
    ensures OneLine(DumpFields(fields))
    decreases fields, 1
  {
    if fields != [] {
      EscapeIsOneLine(fields[0].name);
      DumpsIsOneLine(fields[0].value);
      DumpFieldsIsOneLine(fields[1..]);
    }
  }

  lemma {:induction false} DumpsIsOneLine(j: Json)
    requires Printable(j)
    ensures OneLine(Dumps(j))
    decreases j, 0
  {
    match j
    case Text(s) => EscapeIsOneLine(s);
    case List(items) => DumpItemsIsOneLine(items);
    case Object(fields) => DumpFieldsIsOneLine(fields);
    case _ =>
  }

  lemma {:induction false} DumpItemsIsOneLine(items: seq<Json>)
    requires forall i :: 0 <= i < |items| ==> Printable(items[i])
    ensures OneLine(DumpItems(items))
    decreases items, 1
  {
    if items != [] {
      DumpsIsOneLine(items[0]);
      DumpItemsIsOneLine(items[1..]);
    }
  }

  predicate IsPrintable(s: string) {
    forall k :: 0 <= k < |s| ==> ' ' <= s[k] <= '~'
  }

  lemma UnicodeIsPrintable(unit: nat)
    requires unit < 0x10000
    ensures IsPrintable(Unicode(unit))
  {
    assert IsPrintable(HEX);
  }

  /** Printable ASCII is printed as it is, but for the quote and the backslash, and nothing else is printed in a
      string. */
  lemma PrintableAsciiIsKept(c: char)
    ensures ' ' <= c <= '~' && c != '"' && c != '\\' ==> EscapeChar(c) == [c]
    ensures IsPrintable(EscapeChar(c))
  {
    var n := c as int;
    if n < 0x10000 {
      UnicodeIsPrintable(n);
    } else {
      UnicodeIsPrintable(0xD800 + (n - 0x10000) / 1024);
      UnicodeIsPrintable(0xDC00 + (n - 0x10000) % 1024);
    }
    hide Unicode;
  }

  // ---- The round trip --------------------------------------------------------------------------

  lemma {:induction false} LineEndsAtNewline(line: string, rest: string, current: string)
    requires OneLine(line)
    ensures Lines(line + "\n" + rest, current) == [current + line] + Lines(rest, "")
  {
    var stream := line + "\n" + rest;
    if line == "" {
      assert stream[1..] == rest && current + line == current;
    } else {
      assert stream[1..] == line[1..] + "\n" + rest;
      LineEndsAtNewline(line[1..], rest, current + [line[0]]);
      assert current + [line[0]] + line[1..] == current + line;
    }
  }

  predicate GoodName(name: string) {
    name != "" && OneLine(name)
  }

  function Sent(es: seq<Event>): seq<Received> {
    seq(|es|, i requires 0 <= i < |es| => Received(es[i].name, Dumps(es[i].data)))
  }

  lemma {:induction false} FieldName(field: string, value: string)
    requires forall i :: 0 <= i < |field| ==> field[i] != ':'
    ensures Colon(field + ": " + value) == |field|
  {
    if field != "" {
      assert (field + ": " + value)[1..] == field[1..] + ": " + value;
      FieldName(field[1..], value);
    }
  }

  lemma Fields(name: string, payload: string, rest: seq<string>)
    ensures Interpret(["event: " + name, "data: " + payload, ""] + rest, "", "") ==
            [Received(if name == "" then "message" else name, payload)] + Interpret(rest, "", "")
  {
    var first, second := "event: " + name, "data: " + payload;
    var lines := [first, second, ""] + rest;
    assert Colon(first) == 5 by { FieldName("event", name); assert first == "event" + ": " + name; }
    assert Colon(second) == 4 by { FieldName("data", payload); assert second == "data" + ": " + payload; }
    assert first[..5] == "event" && first[7..] == name;
    assert second[..4] == "data" && second[6..] == payload;
    assert lines[1..] == [second, ""] + rest && lines[1..][1..] == [""] + rest && lines[1..][1..][1..] == rest;
    var data := "" + payload + "\n";
    assert data[..|data| - 1] == payload && data[|data| - 1] == '\n';
    assert Interpret(lines, "", "") == Interpret([second, ""] + rest, name, "");
    assert Interpret([second, ""] + rest, name, "") == Interpret([""] + rest, name, data);
    assert Interpret([""] + rest, name, data) ==
           [Received(if name == "" then "message" else name, payload)] + Interpret(rest, "", "");
  }

  lemma OneEvent(e: Event, rest: string)
    requires OneLine(e.name) && Printable(e.data)
    ensures Receive(ToSse(e) + rest) ==
            [Received(if e.name == "" then "message" else e.name, Dumps(e.data))] + Receive(rest)
  {
    hide Dumps, Lines, Interpret;
    DumpsIsOneLine(e.data);
    var first, second := "event: " + e.name, "data: " + Dumps(e.data);
    var after := "\n" + rest;
    assert ToSse(e) + rest == first + "\n" + (second + "\n" + after);
    LineEndsAtNewline(first, second + "\n" + after, "");
    LineEndsAtNewline(second, after, "");
    assert after == "" + "\n" + rest;
    LineEndsAtNewline("", rest, "");
    assert "" + first == first && "" + second == second && "" + "" == "";
    assert Lines(ToSse(e) + rest, "") == [first, second, ""] + Lines(rest, "");
    Fields(e.name, Dumps(e.data), Lines(rest, ""));
  }

  /** Any list of events with non-empty, one-line names comes back from the wire exactly. */
  lemma {:induction false} RoundTrip(es: seq<Event>)
    requires forall i :: 0 <= i < |es| ==> GoodName(es[i].name) && Printable(es[i].data)
    ensures Receive(Wire(es)) == Sent(es)
  {
    if es != [] {
      OneEvent(es[0], Wire(es[1..]));
      RoundTrip(es[1..]);
      assert Sent(es) == [Sent(es)[0]] + Sent(es[1..]);
    }
  }

  /** No stream whatever dispatches an event whose name is empty or has a line end. */
  lemma {:induction false} LinesAreOneLine(stream: string, current: string)
    requires OneLine(current)
    ensures forall i :: 0 <= i < |Lines(stream, current)| ==> OneLine(Lines(stream, current)[i])
    decreases |stream|
  {
    if stream != "" {
      if stream[0] == '\r' {
        LinesAreOneLine(if |stream| > 1 && stream[1] == '\n' then stream[2..] else stream[1..], "");
      } else if stream[0] == '\n' {
        LinesAreOneLine(stream[1..], "");
      } else {
        LinesAreOneLine(stream[1..], current + [stream[0]]);
      }
    }
  }

  lemma {:induction false} DispatchedNamesAreGood(lines: seq<string>, name: string, data: string)
    requires OneLine(name) && forall i :: 0 <= i < |lines| ==> OneLine(lines[i])
    ensures forall i :: 0 <= i < |Interpret(lines, name, data)| ==> GoodName(Interpret(lines, name, data)[i].name)
    decreases |lines|
  {
    if lines != [] {
      var line, rest := lines[0], lines[1..];
      assert OneLine(FieldValue(line));
      if line == "" {
        DispatchedNamesAreGood(rest, "", "");
      } else {
        var field := line[..Colon(line)];
        if field == "event" {
          DispatchedNamesAreGood(rest, FieldValue(line), data);
        } else if field == "data" {
          DispatchedNamesAreGood(rest, name, data + FieldValue(line) + "\n");
        } else {
          DispatchedNamesAreGood(rest, name, data);
        }
      }
    }
  }

  lemma SentNames(es: seq<Event>)
    requires forall i :: 0 <= i < |Sent(es)| ==> GoodName(Sent(es)[i].name)
    ensures forall i :: 0 <= i < |es| ==> GoodName(es[i].name)
  {
    forall i | 0 <= i < |es| ensures GoodName(es[i].name) { assert GoodName(Sent(es)[i].name); }
  }

  /** The round trip holds exactly for the lists whose names are all non-empty and free of line ends. */
  lemma RoundTripExactlyForGoodNames(es: seq<Event>)
    requires forall i :: 0 <= i < |es| ==> Printable(es[i].data)
    ensures Receive(Wire(es)) == Sent(es) <==> forall i :: 0 <= i < |es| ==> GoodName(es[i].name)
  {
    if forall i :: 0 <= i < |es| ==> GoodName(es[i].name) {
      RoundTrip(es);
    }
    if Receive(Wire(es)) == Sent(es) {
      LinesAreOneLine(Wire(es), "");
      DispatchedNamesAreGood(Lines(Wire(es), ""), "", "");
      SentNames(es);
    }
  }
}
