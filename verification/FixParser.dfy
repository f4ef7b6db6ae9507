/**
  The FIX message parser: a loop over tag=value fields that sums bytes on the
  way and checks the sum against tag 10.
 */
module FixParser {
  import opened Orders
  import opened Numbers
  import opened FixText

  const MAX_TAGS := 64

  const BEGIN_STRING := 8
  const BODY_LENGTH := 9
  const CHECK_SUM := 10
  const MSG_SEQ_NUM := 34
  const MSG_TYPE := 35

  datatype ParsedFixMessage = ParsedFixMessage(
    tags: seq<TagValue>,
    valid: bool,
    error: string,
    msgType: char,
    seqNum: int)

  /** The first field with the tag. */
  function FindTag(tags: seq<TagValue>, tag: int): Option<TagValue> {
    if tags == [] then None
    else if tags[0].tag == tag then Some(tags[0])
    else FindTag(tags[1..], tag)
  }

  method Find(tags: seq<TagValue>, tag: int) returns (r: Option<TagValue>)
    ensures r == FindTag(tags, tag)
    ensures r.None? <==> forall i :: 0 <= i < |tags| ==> tags[i].tag != tag
    ensures r.Some? ==> exists i :: 0 <= i < |tags| && tags[i] == r.value && tags[i].tag == tag
                                    && forall j :: 0 <= j < i ==> tags[j].tag != tag
  {
    r := None;
    for i := 0 to |tags|
      invariant forall j :: 0 <= j < i ==> tags[j].tag != tag
      invariant FindTag(tags, tag) == FindTag(tags[i..], tag)
    {
      if tags[i].tag == tag {
        return Some(tags[i]);
      }
    }
  }

  /** The leading digits of s. */
  function DigitPrefix(s: string): string {
    if s == "" || !IsDigit(s[0]) then "" else [s[0]] + DigitPrefix(s[1..])
  }

  /** An optional minus sign, then digits up to the first other character. */
  function AsInt(value: string, fallback: int): int {
    if value == "" then fallback
    else if value[0] == '-' then -Value(DigitPrefix(value[1..]))
    else Value(DigitPrefix(value))
  }

  lemma {:induction false} DigitPrefixStops(s: string, rest: string)
    requires AllDigits(s) && (rest == "" || !IsDigit(rest[0]))
    ensures DigitPrefix(s + rest) == s
  {
    if s == "" {
      assert s + rest == rest;
    } else {
      DigitPrefixStops(s[1..], rest);
      assert (s + rest)[1..] == s[1..] + rest;
    }
  }

  /** Reading a printed integer gives it back, sign included, whatever follows its digits. */
  lemma AsIntStops(n: int, rest: string, fallback: int)
    requires rest == "" || !IsDigit(rest[0])
    ensures AsInt(Decimal(n) + rest, fallback) == n
  {
    var digits := Digits(if n < 0 then -n else n);
    DigitsDenote(if n < 0 then -n else n);
    DigitPrefixStops(digits, rest);
    if n < 0 {
      assert (Decimal(n) + rest)[1..] == digits + rest;
    }
  }

  lemma AsIntOfDecimal(n: int, fallback: int)
    ensures AsInt(Decimal(n), fallback) == n
  {
    AsIntStops(n, "", fallback);
    assert Decimal(n) + "" == Decimal(n);
  }

  /** Text that does not begin with a digit, or with a sign and a digit, is read as nothing. */
  lemma AsIntOfNoDigit(value: string, fallback: int)
    requires value == "" || !IsDigit(if value[0] == '-' && |value| > 1 then value[1] else value[0])
    ensures AsInt(value, fallback) == if value == "" then fallback else 0
  {
  }

  // ---------- the loop ----------

  datatype Scan = Scan(pos: nat, running: nat, checksum: int, tags: seq<TagValue>)

  /** -1 if some character is not a digit. */
  function TagNumber(s: string): int {
    if AllDigits(s) then Value(s) else -1
  }

  predicate CanScan(data: string, s: Scan) {
    && s.pos < |data| && |s.tags| < MAX_TAGS
    && IndexFrom(data, '=', s.pos) < |data|
    && TagNumber(data[s.pos..IndexFrom(data, '=', s.pos)]) >= 0
  }

  function ScanField(data: string, delim: char, s: Scan): (r: Scan)
    requires CanScan(data, s)
    ensures r.pos > s.pos
  {
    var eq := IndexFrom(data, '=', s.pos);
    var tag := TagNumber(data[s.pos..eq]);
    var end := IndexFrom(data, delim, eq + 1);
    var value := data[eq + 1..end];
    var stop := if end < |data| then end + 1 else end;
    if tag == CHECK_SUM then Scan(end + 1, s.running, Value(value), s.tags + [TagValue(tag, value)])
    else Scan(end + 1, s.running + ByteSum(data[s.pos..stop]), s.checksum, s.tags + [TagValue(tag, value)])
  }

  function ScanAll(data: string, delim: char, s: Scan): Scan
    decreases |data| - s.pos
  {
    if CanScan(data, s) then ScanAll(data, delim, ScanField(data, delim, s)) else s
  }

  function Delimiter(data: string): char {
    if SOH !in data && '|' in data then '|' else SOH
  }

  function CharOf(v: Option<TagValue>): char {
    if v.Some? && v.value.value != "" then v.value.value[0] else NUL
  }

  function IntOf(v: Option<TagValue>): int {
    if v.Some? then AsInt(v.value.value, 0) else 0
  }

  /** The verdict on the scanned fields. */
  function Judge(s: Scan): ParsedFixMessage {
    var msgType := CharOf(FindTag(s.tags, MSG_TYPE));
    var r := ParsedFixMessage(s.tags, false, "", msgType, IntOf(FindTag(s.tags, MSG_SEQ_NUM)));
    if s.checksum >= 0 && s.running % 256 != s.checksum then r.(error := "Checksum mismatch")
    else if FindTag(s.tags, BEGIN_STRING).None? then r.(error := "Missing BeginString (tag 8)")
    else if msgType == NUL then r.(error := "Missing MsgType (tag 35)")
    else r.(valid := true)
  }

  const START := Scan(0, 0, -1, [])

  function Parsed(data: string): ParsedFixMessage {
    if data == "" then ParsedFixMessage([], false, "Empty message", NUL, 0)
    else Judge(ScanAll(data, Delimiter(data), START))
  }

  /** The scanning loop, up to the end, a field without '=', a tag that is no number, or 64 fields. */
  method ScanFields(data: string, delim: char) returns (pos: nat, running: nat, checksum: int, tags: seq<TagValue>)
    ensures Scan(pos, running, checksum, tags) == ScanAll(data, delim, START)
  {
    hide TagNumber, Value, ByteSum, IndexFrom;
    pos, running, checksum, tags := 0, 0, -1, [];
    ghost var goal := ScanAll(data, delim, START);
    while pos < |data| && |tags| < MAX_TAGS
      invariant ScanAll(data, delim, Scan(pos, running, checksum, tags)) == goal
      decreases |data| - pos
    {
      ghost var s := Scan(pos, running, checksum, tags);
      var eq := FindChar(data, '=', pos);
      if eq >= |data| { assert !CanScan(data, s); break; }
      var tag := ReadTag(data[pos..eq]);
      if tag < 0 { assert !CanScan(data, s); break; }
      assert CanScan(data, s);
      var start := eq + 1;
      var end := FindChar(data, delim, start);
      if tag == CHECK_SUM {
        checksum := ReadDigits(data[start..end]);
      } else {
        running := AddBytes(running, data[pos..if end < |data| then end + 1 else end]);
      }
      tags := tags + [TagValue(tag, data[start..end])];
      pos := end + 1;
      assert Scan(pos, running, checksum, tags) == ScanField(data, delim, s);
    }
  }

  method ParseFixMessage(data: string) returns (r: ParsedFixMessage)
    ensures r == Parsed(data)
  {
    if data == "" {
      return ParsedFixMessage([], false, "Empty message", NUL, 0);
    }
    var delim := SOH;
    if SOH !in data {
      if '|' in data { delim := '|'; }
    }
    var _, running, checksum, tags := ScanFields(data, delim);
    var typeField := Find(tags, MSG_TYPE);
    var seqField := Find(tags, MSG_SEQ_NUM);
    var beginField := Find(tags, BEGIN_STRING);
    var seqNum := 0;
    if seqField.Some? { seqNum := ReadInt(seqField.value.value, 0); }
    r := ParsedFixMessage(tags, false, "", CharOf(typeField), seqNum);
    if checksum >= 0 && running % 256 != checksum {
      r := r.(error := "Checksum mismatch");
    } else if beginField.None? {
      r := r.(error := "Missing BeginString (tag 8)");
    } else if r.msgType == NUL {
      r := r.(error := "Missing MsgType (tag 35)");
    } else {
      r := r.(valid := true);
    }
  }

  method ReadInt(value: string, fallback: int) returns (n: int)
    ensures n == AsInt(value, fallback)
  {
    if value == "" { return fallback; }
    var start := if value[0] == '-' then 1 else 0;
    var i := start;
    n := 0;
    while i < |value| && IsDigit(value[i])
      invariant start <= i <= |value|
      invariant AllDigits(value[start..i]) && n == Value(value[start..i])
    {
      assert value[start..i + 1][..i - start] == value[start..i];
      n := n * 10 + DigitValue(value[i]);
      i := i + 1;
    }
    DigitPrefixStops(value[start..i], value[i..]);
    assert value[start..i] + value[i..] == value[start..];
    if value[0] == '-' {
      n := -n;
    } else {
      assert value[0..] == value;
    }
  }

  method FindChar(data: string, c: char, start: nat) returns (k: nat)
    requires start <= |data|
    ensures k == IndexFrom(data, c, start)
  {
    k := start;
    while k < |data| && data[k] != c
      invariant start <= k <= |data|
      invariant IndexFrom(data, c, k) == IndexFrom(data, c, start)
    {
      k := k + 1;
    }
  }

  method ReadTag(s: string) returns (tag: int)
    ensures tag == TagNumber(s)
  {
    tag := 0;
    for i := 0 to |s|
      invariant AllDigits(s[..i]) && tag == Value(s[..i])
    {
      if !IsDigit(s[i]) { return -1; }
      assert s[..i + 1][..i] == s[..i];
      tag := tag * 10 + DigitValue(s[i]);
    }
    assert s[..|s|] == s;
  }

  method ReadDigits(s: string) returns (n: int)
    ensures n == Value(s)
  {
    n := 0;
    for i := 0 to |s|
      invariant n == Value(s[..i])
    {
      assert s[..i + 1][..i] == s[..i];
      if IsDigit(s[i]) {
        n := n * 10 + DigitValue(s[i]);
      }
    }
    assert s[..|s|] == s;
  }

  method AddBytes(running: nat, s: string) returns (sum: nat)
    ensures sum == running + ByteSum(s)
  {
    sum := running;
    for i := 0 to |s|
      invariant sum == running + ByteSum(s[..i])
    {
      assert s[..i + 1][..i] == s[..i];
      sum := sum + s[i] as int;
    }
    assert s[..|s|] == s;
  }
}
