/**
  Strings as section 7 of RFC 8259 reads them: whatever the session writer
  writes, a reader of the standard gets the string back.
 */
module JsonText {
  import opened SessionText

  function HexValue(c: char): int {
    if '0' <= c <= '9' then c as int - '0' as int
    else if 'a' <= c <= 'f' then c as int - 'a' as int + 10
    else if 'A' <= c <= 'F' then c as int - 'A' as int + 10
    else 0
  }

  /** The two-character escapes of the standard. */
  function ShortEscape(c: char): char {
    if c == 'b' then 8 as char
    else if c == 'f' then 12 as char
    else if c == 'n' then '\n'
    else if c == 'r' then '\r'
    else if c == 't' then '\t'
    else c
  }

  /** Four hexadecimal digits name a character of the basic plane; a surrogate half stands for nothing here. */
  function HexChar(a: char, b: char, c: char, d: char): char {
    var n := ((HexValue(a) * 16 + HexValue(b)) * 16 + HexValue(c)) * 16 + HexValue(d);
    if 0 <= n < 0xD800 then n as char else '?'
  }

  /** What the text between two quotes denotes. */
  function Denotes(text: string): string
    decreases |text|
  {
    if text == "" then ""
    else if text[0] != '\\' || |text| < 2 then [text[0]] + Denotes(text[1..])
    else if text[1] == 'u' && |text| >= 6 then [HexChar(text[2], text[3], text[4], text[5])] + Denotes(text[6..])
    else [ShortEscape(text[1])] + Denotes(text[2..])
  }

  lemma HexDigitValue(n: nat)
    requires n < 16
    ensures HexValue(HexDigit(n)) == n
  {
  }

  /** One written character is read as itself. */
  lemma CharDenotes(c: char, rest: string)
    ensures Denotes(EscapeChar(c) + rest) == [c] + Denotes(rest)
  {
    var text := EscapeChar(c);
    if text == [c] {
      assert (text + rest)[1..] == rest;
    } else if |text| == 2 {
      assert (text + rest)[2..] == rest;
    } else {
      HexDigitValue(c as int / 16);
      HexDigitValue(c as int % 16);
      assert text == ['\\', 'u', '0', '0', HexDigit(c as int / 16), HexDigit(c as int % 16)];
      assert (text + rest)[6..] == rest;
      assert (text + rest)[..6] == text;
      hide HexDigit, EscapeChar;
    }
  }

  /** Every string comes back from the standard's reading of what is written. */
  lemma {:induction false} WrittenDenotes(s: string)
    ensures Denotes(Escaped(s)) == s
  {
    hide Denotes, EscapeChar;
    if s == "" {
      NothingDenotes();
    } else {
      CharDenotes(s[0], Escaped(s[1..]));
      WrittenDenotes(s[1..]);
    }
  }

  lemma NothingDenotes()
    ensures Denotes("") == ""
  {
  }

  /** No control character is left in what is written. */
  lemma {:induction false} WrittenIsAllowed(s: string)
    ensures forall c :: c in Escaped(s) ==> !Control(c)
  {
    if s != "" {
      WrittenIsAllowed(s[1..]);
      CharIsAllowed(s[0]);
      hide EscapeChar;
    }
  }

  lemma CharIsAllowed(c: char)
    ensures forall x :: x in EscapeChar(c) ==> !Control(x)
  {
  }
}
