/**
  The text of a saved session: how the exchange writes strings, objects and
  arrays, and how it takes them apart again when it starts.
 */
module SessionText {
  import opened Orders

  // ---------- writing ----------

  predicate Control(c: char) {
    c < ' '
  }

  function HexDigit(n: nat): char
    requires n < 16
  {
    if n < 10 then (n + 48) as char else (n + 87) as char
  }

  function EscapeChar(c: char): string {
    if c == '"' then "\\\""
    else if c == '\\' then "\\\\"
    else if c == 8 as char then "\\b"
    else if c == 12 as char then "\\f"
    else if c == '\n' then "\\n"
    else if c == '\r' then "\\r"
    else if c == '\t' then "\\t"
    else if Control(c) then "\\u00" + [HexDigit(c as int / 16), HexDigit(c as int % 16)]
    else [c]
  }

  function Escaped(s: string): string {
    if s == "" then "" else EscapeChar(s[0]) + Escaped(s[1..])
  }

  method Escape(s: string) returns (out: string)
    ensures out == Escaped(s)
  {
    hide EscapeChar;
    out := "";
    for i := 0 to |s|
      invariant out + Escaped(s[i..]) == Escaped(s)
    {
      assert s[i..][1..] == s[i + 1..];
      out := out + EscapeChar(s[i]);
    }
  }

  function Q(s: string): string {
    "\"" + Escaped(s) + "\""
  }

  datatype Value = Text(text: string) | Bare(text: string)

  datatype Field = Field(name: string, value: Value)

  // A number as printed: no quote, backslash, brace or bracket.
  predicate BareChar(c: char) {
    c != '"' && c != '\\' && c != '{' && c != '}' && c != '[' && c != ']'
  }

  predicate BareText(s: string) {
    forall i :: 0 <= i < |s| ==> BareChar(s[i])
  }

  predicate Printable(fields: seq<Field>) {
    forall i :: 0 <= i < |fields| && fields[i].value.Bare? ==> BareText(fields[i].value.text)
  }

  function PrintField(f: Field): string {
    Q(f.name) + ":" + (if f.value.Text? then Q(f.value.text) else f.value.text)
  }

  function PrintFields(fields: seq<Field>): string {
    if fields == [] then ""
    else if |fields| == 1 then PrintField(fields[0])
    else PrintField(fields[0]) + "," + PrintFields(fields[1..])
  }

  function PrintObject(fields: seq<Field>): string {
    "{" + PrintFields(fields) + "}"
  }

  function Joined(parts: seq<string>): string {
    if parts == [] then ""
    else if |parts| == 1 then parts[0]
    else Joined(parts[..|parts| - 1]) + "," + parts[|parts| - 1]
  }

  function PrintObjects(objects: seq<seq<Field>>): seq<string> {
    seq(|objects|, i requires 0 <= i < |objects| => PrintObject(objects[i]))
  }

  function PrintArray(objects: seq<seq<Field>>): string {
    "[" + Joined(PrintObjects(objects)) + "]"
  }

  /** The loop that writes the orders, and again the fills. */
  method WriteArray(objects: seq<seq<Field>>) returns (out: string)
    ensures out == PrintArray(objects)
  {
    hide PrintObject;
    out := "[";
    for i := 0 to |objects|
      invariant out == "[" + Joined(PrintObjects(objects[..i]))
    {
      if i != 0 {
        out := out + ",";
      }
      out := out + PrintObject(objects[i]);
      assert PrintObjects(objects[..i + 1])[..i] == PrintObjects(objects[..i]);
      assert PrintObjects(objects[..i + 1])[i] == PrintObject(objects[i]);
    }
    assert objects[..|objects|] == objects;
    out := out + "]";
  }

  // ---------- reading a string ----------

  function Unescape(c: char): char {
    if c == 'n' then '\n' else if c == 'r' then '\r' else if c == 't' then '\t' else c
  }

  /** The text up to the closing quote. */
  function Decoded(json: string): string {
    if json == "" || json[0] == '"' then ""
    else if json[0] == '\\' && |json| > 1 then [Unescape(json[1])] + Decoded(json[2..])
    else [json[0]] + Decoded(json[1..])
  }

  method DecodeString(json: string, start: nat, fallback: string) returns (value: string)
    requires start <= |json|
    ensures value == if Decoded(json[start..]) == "" then fallback else Decoded(json[start..])
  {
    hide Unescape, Decoded;
    var pos, out := start, "";
    assert "" + Decoded(json[start..]) == Decoded(json[start..]);
    while pos < |json|
      invariant start <= pos <= |json|
      invariant out + Decoded(json[pos..]) == Decoded(json[start..])
      decreases |json| - pos
    {
      DecodeNext(json, pos);
      var ch := json[pos];
      pos := pos + 1;
      if ch == '"' {
        assert out + "" == out;
        return if out == "" then fallback else out;
      }
      if ch == '\\' && pos < |json| {
        out := out + [Unescape(json[pos])];
        pos := pos + 1;
      } else {
        out := out + [ch];
      }
    }
    DecodeNone(json[pos..]);
    assert out + "" == out;
    value := if out == "" then fallback else out;
  }

  lemma DecodeNone(json: string)
    requires json == ""
    ensures Decoded(json) == ""
  {
  }

  lemma DecodeNext(json: string, pos: nat)
    requires pos < |json|
    ensures Decoded(json[pos..])
            == if json[pos] == '"' then ""
               else if json[pos] == '\\' && pos + 1 < |json| then [Unescape(json[pos + 1])] + Decoded(json[pos + 2..])
               else [json[pos]] + Decoded(json[pos + 1..])
  {
    hide Unescape;
    var text := json[pos..];
    assert text[1..] == json[pos + 1..];
    if |text| > 1 {
      assert text[2..] == json[pos + 2..];
    }
  }

  /** What the reader makes of one written character: it knows fewer escapes than the writer. */
  function HeardChar(c: char): string {
    if c == 8 as char then "b"
    else if c == 12 as char then "f"
    else if Control(c) && c != '\n' && c != '\r' && c != '\t' then EscapeChar(c)[1..]
    else [c]
  }

  function Heard(s: string): string {
    if s == "" then "" else HeardChar(s[0]) + Heard(s[1..])
  }

  lemma DecodeOne(c: char, more: string)
    requires c != '"' && c != '\\'
    ensures Decoded([c] + more) == [c] + Decoded(more)
  {
    hide Unescape;
    assert ([c] + more)[1..] == more;
  }

  lemma {:induction false} DecodePlain(text: string, rest: string)
    requires Ordinary(text)
    ensures Decoded(text + rest) == text + Decoded(rest)
  {
    hide Unescape;
    if text == "" {
      assert text + rest == rest;
    } else {
      DecodePlain(text[1..], rest);
      assert (text + rest)[1..] == text[1..] + rest;
      var more := text[1..] + rest;
      assert text + rest == [text[0]] + more;
      DecodeOne(text[0], more);
    }
  }

  lemma DecodeEscape(c: char, rest: string)
    ensures Decoded(['\\', c] + rest) == [Unescape(c)] + Decoded(rest)
  {
    assert (['\\', c] + rest)[2..] == rest;
  }

  predicate Ordinary(text: string) {
    forall i :: 0 <= i < |text| ==> text[i] != '"' && text[i] != '\\'
  }

  /** Either an escape, whose tail is ordinary, or the ordinary character itself. */
  lemma EscapeShape(c: char)
    ensures EscapeChar(c) != ""
    ensures var e := EscapeChar(c);
      if e[0] == '\\' then |e| >= 2 && Ordinary(e[2..]) && e == ['\\', e[1]] + e[2..]
        && HeardChar(c) == [Unescape(e[1])] + e[2..]
      else Ordinary(e) && HeardChar(c) == e
  {
  }

  lemma DecodeChar(c: char, rest: string)
    ensures Decoded(EscapeChar(c) + rest) == HeardChar(c) + Decoded(rest)
  {
    EscapeShape(c);
    hide EscapeChar, HeardChar, Decoded, Unescape;
    var e := EscapeChar(c);
    if e[0] == '\\' {
      var tail := e[2..];
      assert e + rest == ['\\', e[1]] + (tail + rest);
      DecodeEscape(e[1], tail + rest);
      DecodePlain(tail, rest);
    } else {
      DecodePlain(e, rest);
    }
  }

  /** Reading back any written string, whatever follows it. */
  lemma {:induction false} DecodeWritten(s: string, rest: string)
    ensures Decoded(Escaped(s) + "\"" + rest) == Heard(s)
  {
    hide EscapeChar, HeardChar;
    if s == "" {
      assert Escaped(s) + "\"" + rest == "\"" + rest;
    } else {
      DecodeWritten(s[1..], rest);
      var more := Escaped(s[1..]) + "\"" + rest;
      assert Escaped(s) + "\"" + rest == EscapeChar(s[0]) + more;
      hide Decoded;
      DecodeChar(s[0], more);
    }
  }

  /** No control character but newline, return and tab. */
  predicate Clean(s: string) {
    forall i :: 0 <= i < |s| ==> !Control(s[i]) || s[i] == '\n' || s[i] == '\r' || s[i] == '\t'
  }

  lemma HeardCharIs(c: char)
    ensures |HeardChar(c)| == 1 || |HeardChar(c)| == 5
    ensures HeardChar(c) == [c] <==> !Control(c) || c == '\n' || c == '\r' || c == '\t'
  {
  }

  lemma {:induction false} HeardIsWritten(s: string)
    ensures |Heard(s)| >= |s|
    ensures Heard(s) == s <==> Clean(s)
  {
    if s != "" {
      HeardIsWritten(s[1..]);
      HeardCharIs(s[0]);
      hide HeardChar, Control;
      assert s == [s[0]] + s[1..];
      if |HeardChar(s[0])| == 1 {
        assert Heard(s)[0] == HeardChar(s[0])[0] && Heard(s)[1..] == Heard(s[1..]);
      }
    }
  }

  /** A written string is read back unchanged exactly when it is clean, and not empty where that means "absent". */
  lemma ReadsBack(s: string, rest: string, fallback: string)
    ensures var read := Decoded(Escaped(s) + "\"" + rest);
      (if read == "" then fallback else read) == s <==> Clean(s) && (s != "" || fallback == "")
  {
    DecodeWritten(s, rest);
    HeardIsWritten(s);
    hide Decoded, Clean;
  }

  /** A backspace is written as an escape that the reader takes for the letter b. */
  lemma BackspaceBecomesB(rest: string)
    ensures var read := Decoded(Escaped([8 as char]) + "\"" + rest); read == "b" != [8 as char]
  {
    DecodeWritten([8 as char], rest);
    hide Decoded, Escaped;
    assert [8 as char][1..] == "";
  }

  // ---------- strings and structure ----------

  /** Inside a string, or right after a backslash, nothing counts as structure. */
  datatype Mode = Mode(inString: bool, escaped: bool)

  const OUTSIDE := Mode(false, false)

  function NextMode(m: Mode, c: char): Mode {
    if m.escaped then m.(escaped := false)
    else if c == '\\' then m.(escaped := true)
    else if c == '"' then m.(inString := !m.inString)
    else m
  }

  predicate Structural(m: Mode, c: char) {
    m == OUTSIDE && c != '\\' && c != '"'
  }

  function EndMode(m: Mode, text: string): Mode
    decreases |text|
  {
    if text == "" then m else EndMode(NextMode(m, text[0]), text[1..])
  }

  /** Neither of two characters occurs in the text as structure. */
  predicate Quiet(m: Mode, text: string, a: char, b: char)
    decreases |text|
  {
    text == "" || ((Structural(m, text[0]) ==> text[0] != a && text[0] != b)
      && Quiet(NextMode(m, text[0]), text[1..], a, b))
  }

  /** Quiet, and leaving the mode as it was. */
  predicate Passes(m: Mode, text: string, a: char, b: char) {
    Quiet(m, text, a, b) && EndMode(m, text) == m
  }

  lemma {:induction false} PassesAppend(m: Mode, x: string, y: string, a: char, b: char)
    requires Quiet(m, x, a, b) && Quiet(EndMode(m, x), y, a, b)
    ensures Quiet(m, x + y, a, b) && EndMode(m, x + y) == EndMode(EndMode(m, x), y)
    decreases |x|
  {
    if x == "" {
      assert x + y == y;
    } else {
      PassesAppend(NextMode(m, x[0]), x[1..], y, a, b);
      assert (x + y)[1..] == x[1..] + y;
      hide NextMode, Structural;
    }
  }

  lemma {:induction false} PlainPasses(m: Mode, text: string, a: char, b: char)
    requires !m.escaped
    requires forall i :: 0 <= i < |text| ==> text[i] != '"' && text[i] != '\\' && text[i] != a && text[i] != b
    ensures Passes(m, text, a, b)
    decreases |text|
  {
    if text != "" {
      PlainPasses(m, text[1..], a, b);
    }
  }

  lemma EscapeCharPasses(c: char, a: char, b: char)
    ensures Passes(Mode(true, false), EscapeChar(c), a, b)
  {
    var e := EscapeChar(c);
    var inside, after := Mode(true, false), Mode(true, true);
    if e[0] == '\\' {
      assert e[1..][1..] == e[2..];
      InsidePasses(e[2..], a, b);
      assert NextMode(inside, e[0]) == after && NextMode(after, e[1]) == inside;
    } else {
      InsidePasses(e, a, b);
    }
  }

  lemma {:induction false} InsidePasses(text: string, a: char, b: char)
    requires Ordinary(text)
    ensures Passes(Mode(true, false), text, a, b)
  {
    if text != "" {
      InsidePasses(text[1..], a, b);
    }
  }

  lemma {:induction false} EscapedPasses(s: string, a: char, b: char)
    ensures Passes(Mode(true, false), Escaped(s), a, b)
  {
    if s != "" {
      EscapeCharPasses(s[0], a, b);
      EscapedPasses(s[1..], a, b);
      PassesAppend(Mode(true, false), EscapeChar(s[0]), Escaped(s[1..]), a, b);
    }
  }

  lemma QuotePasses(s: string, a: char, b: char)
    ensures Passes(OUTSIDE, Q(s), a, b)
  {
    var open, close := "\"", "\"";
    EscapedPasses(s, a, b);
    hide Escaped;
    assert open[1..] == "";
    assert Quiet(OUTSIDE, open, a, b) && EndMode(OUTSIDE, open) == Mode(true, false);
    assert Quiet(Mode(true, false), close, a, b) && EndMode(Mode(true, false), close) == OUTSIDE;
    hide Quiet, EndMode;
    PassesAppend(OUTSIDE, open, Escaped(s), a, b);
    PassesAppend(OUTSIDE, open + Escaped(s), close, a, b);
  }

  predicate Braces(a: char, b: char) {
    (a == '{' && b == '}') || (a == '[' && b == ']')
  }

  lemma FieldPasses(f: Field, a: char, b: char)
    requires Braces(a, b) && (f.value.Bare? ==> BareText(f.value.text))
    ensures Passes(OUTSIDE, PrintField(f), a, b)
  {
    var value := if f.value.Text? then Q(f.value.text) else f.value.text;
    QuotePasses(f.name, a, b);
    PlainPasses(OUTSIDE, ":", a, b);
    if f.value.Text? {
      QuotePasses(f.value.text, a, b);
    } else {
      PlainPasses(OUTSIDE, f.value.text, a, b);
    }
    hide Quiet, EndMode, Q;
    PassesAppend(OUTSIDE, Q(f.name), ":", a, b);
    PassesAppend(OUTSIDE, Q(f.name) + ":", value, a, b);
  }

  lemma {:induction false} FieldsPass(fields: seq<Field>, a: char, b: char)
    requires Braces(a, b) && Printable(fields)
    ensures Passes(OUTSIDE, PrintFields(fields), a, b)
  {
    if fields != [] {
      FieldPasses(fields[0], a, b);
      FieldsPass(fields[1..], a, b);
      PlainPasses(OUTSIDE, ",", a, b);
      hide Quiet, EndMode, PrintField;
      if |fields| > 1 {
        PassesAppend(OUTSIDE, PrintField(fields[0]), ",", a, b);
        PassesAppend(OUTSIDE, PrintField(fields[0]) + ",", PrintFields(fields[1..]), a, b);
      }
    }
  }

  // ---------- splitting an array into its objects ----------

  datatype Splitter = Splitter(mode: Mode, depth: int, current: Option<string>, objects: seq<string>)

  function Grown(current: Option<string>, text: string): Option<string> {
    if current.Some? then Some(current.value + text) else None
  }

  function Read(s: Splitter, c: char): Splitter {
    var next := s.(mode := NextMode(s.mode, c), current := Grown(s.current, [c]));
    if Structural(s.mode, c) && c == '{' then
      next.(depth := s.depth + 1, current := if s.depth == 0 then Some([c]) else next.current)
    else if Structural(s.mode, c) && c == '}' then
      if s.depth == 1 && s.current.Some? then
        next.(depth := 0, current := None, objects := s.objects + [next.current.value])
      else next.(depth := s.depth - 1)
    else next
  }

  function ReadAll(s: Splitter, text: string): Splitter
    decreases |text|
  {
    if text == "" then s else ReadAll(Read(s, text[0]), text[1..])
  }

  function Split(text: string): seq<string> {
    ReadAll(Splitter(OUTSIDE, 0, None, []), text).objects
  }

  method JsonObjectArray(text: string) returns (objects: seq<string>)
    ensures objects == Split(text)
  {
    hide ReadAll;
    objects := [];
    var inString, escaped, depth, start: Option<nat> := false, false, 0, None;
    assert text[0..] == text;
    for i := 0 to |text|
      invariant start.Some? ==> start.value < i
      invariant ReadAll(Splitter(Mode(inString, escaped), depth, Since(text, start, i), objects), text[i..])
                == ReadAll(Splitter(OUTSIDE, 0, None, []), text)
    {
      var ch := text[i];
      ghost var state := Splitter(Mode(inString, escaped), depth, Since(text, start, i), objects);
      ReadNext(state, text[i..]);
      assert text[i..][1..] == text[i + 1..];
      SinceGrows(text, start, i);
      if escaped {
        escaped := false;
        continue;
      }
      if ch == '\\' {
        escaped := true;
        continue;
      }
      if ch == '"' {
        inString := !inString;
        continue;
      }
      if inString { continue; }
      if ch == '{' {
        if depth == 0 {
          start := Some(i);
        }
        depth := depth + 1;
      } else if ch == '}' {
        depth := depth - 1;
        if depth == 0 && start.Some? {
          objects := objects + [text[start.value..i + 1]];
          start := None;
        }
      }
      hide Since;
    }
    ReadNone(Splitter(Mode(inString, escaped), depth, Since(text, start, |text|), objects));
    assert text[|text|..] == "";
  }

  ghost function Since(text: string, start: Option<nat>, i: nat): Option<string>
    requires i <= |text| && (start.Some? ==> start.value <= i)
  {
    if start.Some? then Some(text[start.value..i]) else None
  }

  lemma SinceGrows(text: string, start: Option<nat>, i: nat)
    requires i < |text| && (start.Some? ==> start.value <= i)
    ensures Since(text, start, i + 1) == Grown(Since(text, start, i), [text[i]])
    ensures Since(text, Some(i), i + 1) == Some([text[i]])
  {
    assert text[i..i + 1] == [text[i]];
    if start.Some? {
      assert text[start.value..i + 1] == text[start.value..i] + [text[i]];
    }
  }

  lemma ReadNext(s: Splitter, text: string)
    requires text != ""
    ensures ReadAll(s, text) == ReadAll(Read(s, text[0]), text[1..])
  {
  }

  lemma ReadNone(s: Splitter)
    ensures ReadAll(s, "") == s
  {
  }

  lemma {:induction false} ReadAppend(s: Splitter, x: string, y: string)
    ensures ReadAll(s, x + y) == ReadAll(ReadAll(s, x), y)
    decreases |x|
  {
    hide Read;
    if x == "" {
      assert x + y == y;
    } else {
      ReadAppend(Read(s, x[0]), x[1..], y);
      assert (x + y)[1..] == x[1..] + y;
    }
  }

  /** Quiet text is collected by an open object and ignored between objects. */
  lemma {:induction false} ReadQuiet(s: Splitter, text: string)
    requires Quiet(s.mode, text, '{', '}')
    ensures ReadAll(s, text) == s.(mode := EndMode(s.mode, text), current := Grown(s.current, text))
    decreases |text|
  {
    if text == "" {
      assert s.current.Some? ==> s.current.value + text == s.current.value;
    } else {
      var next := Read(s, text[0]);
      ReadQuiet(next, text[1..]);
      assert s.current.Some? ==> s.current.value + text == s.current.value + [text[0]] + text[1..];
      hide ReadAll, Quiet, EndMode, NextMode, Structural;
      ReadNext(s, text);
    }
  }

  lemma ReadObject(fields: seq<Field>, objects: seq<string>)
    requires Printable(fields)
    ensures ReadAll(Between(objects), PrintObject(fields)) == Between(objects + [PrintObject(fields)])
  {
    var text := PrintFields(fields);
    hide PrintFields, ReadAll, Quiet, EndMode;
    FieldsPass(fields, '{', '}');
    ReadBraces(objects, "{" + text);
    ReadAppend(Between(objects), "{", text);
    ReadQuiet(Splitter(OUTSIDE, 1, Some("{"), objects), text);
    ReadAppend(Between(objects), "{" + text, "}");
  }

  lemma ReadBraces(objects: seq<string>, body: string)
    ensures ReadAll(Between(objects), "{") == Splitter(OUTSIDE, 1, Some("{"), objects)
    ensures ReadAll(Splitter(OUTSIDE, 1, Some(body), objects), "}") == Between(objects + [body + "}"])
  {
    ReadOne(Between(objects), '{');
    ReadOne(Splitter(OUTSIDE, 1, Some(body), objects), '}');
  }

  lemma ReadOne(s: Splitter, c: char)
    ensures ReadAll(s, [c]) == Read(s, c)
  {
    assert [c][1..] == "";
    ReadNone(Read(s, c));
  }

  lemma {:induction false} ReadObjects(objects: seq<seq<Field>>)
    requires forall i :: 0 <= i < |objects| ==> Printable(objects[i])
    ensures ReadAll(Between([]), Joined(PrintObjects(objects))) == Between(PrintObjects(objects))
  {
    if objects == [] {
      ReadNone(Between([]));
    } else {
      var before, last := objects[..|objects| - 1], objects[|objects| - 1];
      ReadObjects(before);
      ReadObject(last, PrintObjects(before));
      PrintLast(objects);
      hide *;
      ReadLast(PrintObjects(before), PrintObject(last));
    }
  }

  function Between(objects: seq<string>): Splitter {
    Splitter(OUTSIDE, 0, None, objects)
  }

  lemma PrintLast(objects: seq<seq<Field>>)
    requires objects != []
    ensures PrintObjects(objects) == PrintObjects(objects[..|objects| - 1]) + [PrintObject(objects[|objects| - 1])]
  {
    hide PrintObject;
  }

  lemma ReadLast(parts: seq<string>, text: string)
    requires ReadAll(Between([]), Joined(parts)) == Between(parts)
    requires ReadAll(Between(parts), text) == Between(parts + [text])
    ensures ReadAll(Between([]), Joined(parts + [text])) == Between(parts + [text])
  {
    JoinedLast(parts, text);
    ReadComma(parts);
    hide Joined, ReadAll, Between;
    if parts != [] {
      ReadAppend(Between([]), Joined(parts), ",");
      ReadAppend(Between([]), Joined(parts) + ",", text);
    }
  }

  lemma ReadComma(parts: seq<string>)
    ensures ReadAll(Between(parts), ",") == Between(parts)
    ensures ReadAll(Between(parts), "[") == Between(parts)
    ensures ReadAll(Between(parts), "]") == Between(parts)
  {
    ReadOne(Between(parts), ',');
    ReadOne(Between(parts), '[');
    ReadOne(Between(parts), ']');
  }

  lemma JoinedLast(parts: seq<string>, last: string)
    ensures Joined(parts + [last]) == if parts == [] then last else Joined(parts) + "," + last
  {
    assert (parts + [last])[..|parts|] == parts;
  }

  /** Splitting a printed array gives its printed objects back, whatever their strings contain. */
  lemma SplitPrinted(objects: seq<seq<Field>>)
    requires forall i :: 0 <= i < |objects| ==> Printable(objects[i])
    ensures Split(PrintArray(objects)) == PrintObjects(objects)
  {
    var text := Joined(PrintObjects(objects));
    ReadObjects(objects);
    ReadComma([]);
    ReadComma(PrintObjects(objects));
    hide Printable, PrintObjects, ReadAll, Joined;
    ReadAppend(Between([]), "[", text);
    ReadAppend(Between([]), "[" + text, "]");
  }

  // ---------- cutting the array out of the document ----------

  function Prepended(text: string, rest: Option<string>): Option<string> {
    if rest.Some? then Some(text + rest.value) else None
  }

  /** From the opening bracket to the one that closes it. */
  function Enclosed(m: Mode, depth: int, text: string, open: char, close: char): Option<string>
    decreases |text|
  {
    if text == "" then None
    else
      var c, next := text[0], NextMode(m, text[0]);
      if Structural(m, c) && c == open then Prepended([c], Enclosed(next, depth + 1, text[1..], open, close))
      else if Structural(m, c) && c == close then
        if depth == 1 then Some([c]) else Prepended([c], Enclosed(next, depth - 1, text[1..], open, close))
      else Prepended([c], Enclosed(next, depth, text[1..], open, close))
  }

  /** The scan of get_json_member from a bracket or brace on. */
  method MemberAt(json: string, pos: nat) returns (member: Option<string>)
    requires pos < |json| && json[pos] in {'{', '['}
    ensures member == Enclosed(OUTSIDE, 0, json[pos..], json[pos], if json[pos] == '{' then '}' else ']')
  {
    hide Enclosed;
    var open := json[pos];
    var close := if open == '{' then '}' else ']';
    var depth, inString, escaped := 0, false, false;
    ghost var whole := Enclosed(OUTSIDE, 0, json[pos..], open, close);
    PrependNothing(whole);
    assert json[pos..pos] == "";
    for i := pos to |json|
      invariant whole == Prepended(json[pos..i], Enclosed(Mode(inString, escaped), depth, json[i..], open, close))
    {
      var ch := json[i];
      EnclosedNext(Mode(inString, escaped), depth, json[i..], open, close);
      assert json[i..][1..] == json[i + 1..];
      assert json[pos..i + 1] == json[pos..i] + [ch];
      ghost var later := Enclosed(NextMode(Mode(inString, escaped), ch),
                                  NextDepth(Mode(inString, escaped), depth, ch, open, close),
                                  json[i + 1..], open, close);
      PrependTwice(json[pos..i], [ch], later);
      if escaped {
        escaped := false;
        continue;
      }
      if ch == '\\' {
        escaped := true;
        continue;
      }
      if ch == '"' {
        inString := !inString;
        continue;
      }
      if inString { continue; }
      if ch == open {
        depth := depth + 1;
      } else if ch == close {
        depth := depth - 1;
        if depth == 0 {
          return Some(json[pos..i + 1]);
        }
      }
    }
    EnclosedNone(Mode(inString, escaped), depth, open, close);
    assert json[|json|..] == "";
    member := None;
  }

  lemma PrependNothing(rest: Option<string>)
    ensures Prepended("", rest) == rest
  {
    if rest.Some? {
      assert "" + rest.value == rest.value;
    }
  }

  lemma PrependTwice(x: string, y: string, rest: Option<string>)
    ensures Prepended(x, Prepended(y, rest)) == Prepended(x + y, rest)
  {
    if rest.Some? {
      assert x + (y + rest.value) == x + y + rest.value;
    }
  }

  lemma EnclosedNone(m: Mode, depth: int, open: char, close: char)
    ensures Enclosed(m, depth, "", open, close) == None
  {
  }

  ghost function NextDepth(m: Mode, depth: int, c: char, open: char, close: char): int {
    if Structural(m, c) && c == open then depth + 1
    else if Structural(m, c) && c == close then depth - 1
    else depth
  }

  lemma EnclosedNext(m: Mode, depth: int, text: string, open: char, close: char)
    requires text != ""
    requires open != close
    ensures var c := text[0];
      Enclosed(m, depth, text, open, close)
      == if Structural(m, c) && c == close && depth == 1 then Some([c])
         else Prepended([c], Enclosed(NextMode(m, c), NextDepth(m, depth, c, open, close), text[1..], open, close))
  {
  }

  lemma {:induction false} EnclosedQuiet(m: Mode, depth: int, text: string, rest: string, open: char, close: char)
    requires Quiet(m, text, open, close) && open != close
    ensures Enclosed(m, depth, text + rest, open, close)
      == Prepended(text, Enclosed(EndMode(m, text), depth, rest, open, close))
    decreases |text|
  {
    if text == "" {
      assert text + rest == rest;
      PrependNothing(Enclosed(m, depth, rest, open, close));
    } else {
      var next := NextMode(m, text[0]);
      EnclosedQuiet(next, depth, text[1..], rest, open, close);
      assert (text + rest)[1..] == text[1..] + rest;
      assert text == [text[0]] + text[1..];
      EnclosedNext(m, depth, text + rest, open, close);
      PrependTwice([text[0]], text[1..], Enclosed(EndMode(m, text), depth, rest, open, close));
      hide Enclosed, NextMode, Structural, Prepended;
    }
  }

  lemma ObjectPasses(fields: seq<Field>)
    requires Printable(fields)
    ensures Passes(OUTSIDE, PrintObject(fields), '[', ']')
  {
    hide PrintFields, Passes;
    FieldsPass(fields, '[', ']');
    PunctuationPasses();
    BothPass("{", PrintFields(fields), '[', ']');
    BothPass("{" + PrintFields(fields), "}", '[', ']');
  }

  lemma {:induction false} ObjectsPass(objects: seq<seq<Field>>)
    requires forall i :: 0 <= i < |objects| ==> Printable(objects[i])
    ensures Passes(OUTSIDE, Joined(PrintObjects(objects)), '[', ']')
  {
    hide *;
    if objects == [] {
      NothingPasses();
    } else {
      var before, last := objects[..|objects| - 1], objects[|objects| - 1];
      ObjectsPass(before);
      ObjectPasses(last);
      PunctuationPasses();
      PrintLast(objects);
      JoinedLast(PrintObjects(before), PrintObject(last));
      BothPass(Joined(PrintObjects(before)), ",", '[', ']');
      BothPass(Joined(PrintObjects(before)) + ",", PrintObject(last), '[', ']');
    }
  }

  lemma NothingPasses()
    ensures Passes(OUTSIDE, Joined(PrintObjects([])), '[', ']')
  {
  }

  lemma PunctuationPasses()
    ensures Passes(OUTSIDE, ",", '[', ']') && Passes(OUTSIDE, "{", '[', ']') && Passes(OUTSIDE, "}", '[', ']')
  {
    PlainPasses(OUTSIDE, ",", '[', ']');
    PlainPasses(OUTSIDE, "{", '[', ']');
    PlainPasses(OUTSIDE, "}", '[', ']');
  }

  lemma BothPass(x: string, y: string, a: char, b: char)
    requires Passes(OUTSIDE, x, a, b) && Passes(OUTSIDE, y, a, b)
    ensures Passes(OUTSIDE, x + y, a, b)
  {
    hide Quiet, EndMode;
    PassesAppend(OUTSIDE, x, y, a, b);
  }

  /** The array is cut out of the document whole, whatever follows it and whatever brackets its strings contain. */
  lemma ArrayIsEnclosed(objects: seq<seq<Field>>, rest: string)
    requires forall i :: 0 <= i < |objects| ==> Printable(objects[i])
    ensures Enclosed(OUTSIDE, 0, PrintArray(objects) + rest, '[', ']') == Some(PrintArray(objects))
  {
    var text := Joined(PrintObjects(objects));
    ObjectsPass(objects);
    hide Printable, PrintObjects, Enclosed, Joined, Quiet, EndMode;
    var tail := "]" + rest;
    assert PrintArray(objects) + rest == "[" + (text + tail);
    EnclosedNext(OUTSIDE, 0, "[" + (text + tail), '[', ']');
    assert ("[" + (text + tail))[1..] == text + tail;
    EnclosedQuiet(OUTSIDE, 1, text, tail, '[', ']');
    EnclosedNext(OUTSIDE, 1, tail, '[', ']');
    assert "[" + (text + "]") == PrintArray(objects);
  }
}
