/**
  What the builder prints, the parser reads back; and what happens to a
  message that was damaged on the way.
 */
module FixCodec {
  import opened Numbers
  import opened FixText
  import opened FixParser
  import opened FixBuilder

  /** Fields that survive the text: no delimiter in a value, no sign on a tag, no second checksum. */
  ghost predicate Clean(fields: seq<TagValue>) {
    forall i :: 0 <= i < |fields| ==> Splittable(fields[i]) && fields[i].tag != CHECK_SUM
  }

  // ---------- scanning printed fields ----------

  /** `text` stands at `pos`. */
  predicate At(data: string, pos: nat, text: string) {
    pos + |text| <= |data| && data[pos..pos + |text|] == text
  }

  lemma AtSplit(data: string, pos: nat, a: string, b: string)
    requires At(data, pos, a + b)
    ensures At(data, pos, a) && At(data, pos + |a|, b)
  {
    var all := data[pos..pos + |a + b|];
    assert data[pos..pos + |a|] == all[..|a|];
    assert data[pos + |a|..pos + |a| + |b|] == all[|a|..];
  }

  lemma AtChars(data: string, pos: nat, text: string)
    requires At(data, pos, text)
    ensures forall j :: pos <= j < pos + |text| ==> data[j] == text[j - pos]
  {
    var all := data[pos..pos + |text|];
    forall j | pos <= j < pos + |text|
      ensures data[j] == text[j - pos]
    {
      assert data[j] == all[j - pos];
    }
  }

  lemma IndexIs(s: string, c: char, i: nat, k: nat)
    requires i <= k < |s| && s[k] == c && forall j :: i <= j < k ==> s[j] != c
    ensures IndexFrom(s, c, i) == k
  {
  }

  lemma IndexPast(data: string, pos: nat, text: string, c: char)
    requires At(data, pos, text + [c]) && c !in text
    ensures IndexFrom(data, c, pos) == pos + |text| < |data| && data[pos..pos + |text|] == text
  {
    AtSplit(data, pos, text, [c]);
    AtChars(data, pos, text);
    AtChars(data, pos + |text|, [c]);
    IndexIs(data, c, pos, pos + |text|);
  }

  /** The layout of one field inside a text. */
  lemma FieldLayout(data: string, i: nat, f: TagValue)
    requires At(data, i, Field(f)) && Splittable(f)
    ensures var eq := i + |Digits(f.tag)|; var end := eq + 1 + |f.value|;
      && end < |data| && end + 1 == i + |Field(f)|
      && IndexFrom(data, '=', i) == eq && IndexFrom(data, SOH, eq + 1) == end
      && data[i..eq] == Digits(f.tag) && data[eq + 1..end] == f.value && data[i..end + 1] == Field(f)
  {
    hide *;
    FieldParts(f);
    var left, right := Digits(f.tag) + "=", f.value + [SOH];
    AtIs(data, i, Field(f));
    AtSplit(data, i, left, right);
    IndexPast(data, i, Digits(f.tag), '=');
    IndexPast(data, i + |left|, f.value, SOH);
  }

  lemma FieldParts(f: TagValue)
    requires Splittable(f)
    ensures f.tag >= 0
    ensures Field(f) == (Digits(f.tag) + "=") + (f.value + [SOH])
    ensures '=' !in Digits(f.tag) && SOH !in f.value
  {
    DecimalIsPlain(f.tag);
    hide Digits;
  }

  lemma AtIs(data: string, pos: nat, text: string)
    requires At(data, pos, text)
    ensures pos + |text| <= |data| && data[pos..pos + |text|] == text
  {
  }

  lemma ScanPrinted(data: string, f: TagValue, s: Scan)
    requires At(data, s.pos, Field(f)) && Splittable(f) && |s.tags| < MAX_TAGS
    ensures CanScan(data, s)
    ensures ScanField(data, SOH, s) ==
      if f.tag == CHECK_SUM then Scan(s.pos + |Field(f)|, s.running, Value(f.value), s.tags + [f])
      else Scan(s.pos + |Field(f)|, s.running + ByteSum(Field(f)), s.checksum, s.tags + [f])
  {
    hide *;
    FieldLayout(data, s.pos, f);
    PrintedTag(f);
    var eq := s.pos + |Digits(f.tag)|;
    ScanSpans(data, s, eq, eq + 1 + |f.value|);
  }

  lemma ScanSpans(data: string, s: Scan, eq: nat, end: nat)
    requires |s.tags| < MAX_TAGS && s.pos <= eq < end < |data|
    requires IndexFrom(data, '=', s.pos) == eq && IndexFrom(data, SOH, eq + 1) == end && TagNumber(data[s.pos..eq]) >= 0
    ensures CanScan(data, s)
    ensures var tag, value := TagNumber(data[s.pos..eq]), data[eq + 1..end];
      ScanField(data, SOH, s) ==
      if tag == CHECK_SUM then Scan(end + 1, s.running, Value(value), s.tags + [TagValue(tag, value)])
      else Scan(end + 1, s.running + ByteSum(data[s.pos..end + 1]), s.checksum, s.tags + [TagValue(tag, value)])
  {
    hide IndexFrom, TagNumber, ByteSum, Value;
  }

  lemma PrintedTag(f: TagValue)
    requires Splittable(f)
    ensures f.tag >= 0 && TagNumber(Digits(f.tag)) == f.tag
  {
    DecimalIsPlain(f.tag);
  }

  lemma {:induction false} ScanPrintedAll(data: string, fields: seq<TagValue>, s: Scan)
    requires At(data, s.pos, Render(fields)) && Clean(fields) && |s.tags| + |fields| <= MAX_TAGS
    ensures ScanAll(data, SOH, s) == ScanAll(data, SOH,
      Scan(s.pos + |Render(fields)|, s.running + ByteSum(Render(fields)), s.checksum, s.tags + fields))
    decreases |fields|
  {
    hide Field, ScanAll, ScanField, CanScan, At, Clean, Splittable, ByteSum;
    if fields == [] {
      ByteSumEmpty();
      assert s.tags + fields == s.tags;
    } else {
      var f, rest := fields[0], fields[1..];
      SplitClean(fields);
      ByteSumAppend(Field(f), Render(rest));
      AtSplit(data, s.pos, Field(f), Render(rest));
      ScanPrinted(data, f, s);
      ScanStep(data, s);
      ScanPrintedAll(data, rest, ScanField(data, SOH, s));
      assert s.tags + [f] + rest == s.tags + fields;
    }
  }

  lemma ByteSumEmpty()
    ensures ByteSum("") == 0
  {
  }

  lemma SplitClean(fields: seq<TagValue>)
    requires fields != [] && Clean(fields)
    ensures Splittable(fields[0]) && fields[0].tag != CHECK_SUM && Clean(fields[1..])
  {
  }

  lemma ScanStep(data: string, s: Scan)
    requires CanScan(data, s)
    ensures ScanAll(data, SOH, s) == ScanAll(data, SOH, ScanField(data, SOH, s))
  {
  }

  lemma {:induction false} RenderHasDelimiter(fields: seq<TagValue>)
    ensures fields != [] ==> SOH in Render(fields)
  {
    if fields != [] {
      var f := Field(fields[0]);
      assert f[|f| - 1] == SOH;
      assert Render(fields)[|f| - 1] == f[|f| - 1];
    }
  }

  lemma DelimiterOf(front: seq<TagValue>, tail: string)
    requires front != []
    ensures Delimiter(Render(front) + tail) == SOH && Render(front) + tail != ""
  {
    RenderHasDelimiter(front);
    var k :| 0 <= k < |Render(front)| && Render(front)[k] == SOH;
    assert (Render(front) + tail)[k] == SOH;
  }

  /** A text of clean fields, up to 63 of them, and a checksum field. */
  lemma ScanWithChecksum(front: seq<TagValue>, sum: string)
    requires Clean(front) && SOH !in sum && 0 < |front| < MAX_TAGS
    ensures var data := Render(front) + Field(TagValue(CHECK_SUM, sum));
      && Delimiter(data) == SOH && data != ""
      && ScanAll(data, SOH, START) == Scan(|data|, ByteSum(Render(front)), Value(sum),
                                           front + [TagValue(CHECK_SUM, sum)])
  {
    var t := TagValue(CHECK_SUM, sum);
    assert Splittable(t) && t.tag == CHECK_SUM && |front| < MAX_TAGS;
    hide *;
    var data := Render(front) + Field(t);
    DelimiterOf(front, Field(t));
    ScanFront(front, Field(t));
    AtFront(Render(front), Field(t));
    ScanLast(data, t, Scan(|Render(front)|, ByteSum(Render(front)), -1, front));
  }

  /** Scanning from the start takes in all the clean fields in front. */
  lemma ScanFront(front: seq<TagValue>, tail: string)
    requires Clean(front) && |front| <= MAX_TAGS
    ensures ScanAll(Render(front) + tail, SOH, START)
         == ScanAll(Render(front) + tail, SOH, Scan(|Render(front)|, ByteSum(Render(front)), -1, front))
  {
    hide *;
    StartAppends(front);
    AtFront(Render(front), tail);
    ScanPrintedAll(Render(front) + tail, front, START);
  }

  lemma AtFront(a: string, b: string)
    ensures At(a + b, 0, a) && At(a + b, |a|, b)
  {
  }

  lemma StartAppends(front: seq<TagValue>)
    ensures START.tags + front == front && START.pos == 0 && START.running == 0 && START.checksum == -1
  {
  }

  lemma ScanLast(data: string, t: TagValue, s: Scan)
    requires At(data, s.pos, Field(t)) && s.pos + |Field(t)| == |data| && Splittable(t) && t.tag == CHECK_SUM
    requires |s.tags| < MAX_TAGS
    ensures ScanAll(data, SOH, s) == Scan(|data|, s.running, Value(t.value), s.tags + [t])
  {
    hide Field, Value, ScanField, CanScan, ScanAll;
    ScanPrinted(data, t, s);
    ScanStep(data, s);
    EndOfText(data, Scan(|data|, s.running, Value(t.value), s.tags + [t]));
  }

  lemma CleanPrefix(fields: seq<TagValue>, n: nat)
    requires n <= |fields| && Clean(fields)
    ensures Clean(fields[..n])
  {
  }

  lemma EndOfText(data: string, s: Scan)
    requires s.pos >= |data| || |s.tags| >= MAX_TAGS
    ensures ScanAll(data, SOH, s) == s
  {
  }

  /** With 64 fields or more in front, the checksum field is never reached. */
  lemma ScanFull(front: seq<TagValue>, tail: string)
    requires Clean(front) && |front| >= MAX_TAGS
    ensures var data := Render(front) + tail;
      && Delimiter(data) == SOH && data != ""
      && ScanAll(data, SOH, START).checksum == -1 && ScanAll(data, SOH, START).tags == front[..MAX_TAGS]
  {
    var a, b := front[..MAX_TAGS], front[MAX_TAGS..];
    assert front == a + b && |a| == MAX_TAGS && front != [];
    hide *;
    CleanPrefix(front, MAX_TAGS);
    DelimiterOf(front, tail);
    RenderAppend(a, b);
    Associates(Render(a), Render(b), tail);
    ScanFront(a, Render(b) + tail);
    EndOfText(Render(front) + tail, Scan(|Render(a)|, ByteSum(Render(a)), -1, a));
  }

  lemma Associates(a: string, b: string, c: string)
    ensures (a + b) + c == a + (b + c)
  {
  }

  // ---------- round trip ----------

  /** Values that the printer neither cuts nor the parser splits. */
  predicate Plain(s: string) {
    SOH !in s && NUL !in s
  }

  ghost predicate UserFields(fields: seq<TagValue>) {
    forall i :: 0 <= i < |fields| ==> fields[i].tag >= 0 && fields[i].tag != CHECK_SUM && Plain(fields[i].value)
  }

  lemma HeaderIsClean(sender: string, target: string, msgType: char, seqNum: int, time: string)
    requires Plain(sender) && Plain(target) && Plain([msgType]) && Plain(time)
    ensures var h := Header(sender, target, msgType, seqNum, time);
      && Clean(h) && h[0] == TagValue(MSG_TYPE, [msgType]) && h[1] == TagValue(SENDER, sender)
      && h[2] == TagValue(TARGET, target) && h[3] == TagValue(MSG_SEQ_NUM, Decimal(seqNum))
        && h[4] == TagValue(SENDING_TIME, time)
  {
    NoNulNoCut(sender);
    NoNulNoCut(target);
    NoNulNoCut([msgType]);
    NoNulNoCut(time);
    DecimalIsOneField(seqNum);
    hide UpToNul, Decimal;
  }

  lemma DecimalIsOneField(n: int)
    ensures SOH !in Decimal(n)
  {
    DigitsDenote(if n < 0 then -n else n);
    hide Digits, Value;
  }

  lemma FrontIsClean(fields: seq<TagValue>)
    requires Clean(fields)
    ensures Clean(Front(fields)) && |Front(fields)| == |fields| + 2
    ensures Front(fields)[0] == TagValue(BEGIN_STRING, "FIX.4.4")
    ensures Front(fields)[1] == TagValue(BODY_LENGTH, Decimal(|Render(fields)|))
    ensures forall i :: 0 <= i < |fields| ==> Front(fields)[i + 2] == fields[i]
  {
    DecimalIsPlain(|Render(fields)|);
    var front := Front(fields);
    forall i | 0 <= i < |front|
      ensures Splittable(front[i]) && front[i].tag != CHECK_SUM
    {
      if i >= 2 { assert front[i] == fields[i - 2]; }
    }
  }

  lemma MessageText(fields: seq<TagValue>)
    ensures Message(fields) == Render(Front(fields)) + Field(Trailer(Render(Front(fields))))
  {
    hide Field, Front;
    RenderAppend(Front(fields), [Trailer(Render(Front(fields)))]);
    RenderOne(Trailer(Render(Front(fields))));
  }

  lemma {:induction false} FindAt(tags: seq<TagValue>, tag: int, k: nat)
    requires k < |tags| && tags[k].tag == tag && forall i :: 0 <= i < k ==> tags[i].tag != tag
    ensures FindTag(tags, tag) == Orders.Some(tags[k])
  {
    if k > 0 {
      FindAt(tags[1..], tag, k - 1);
    }
  }

  /**
    Building and parsing: with up to 56 user fields the parse is valid and
    returns every field in order; with more it is still called valid, but only
    the first 64 fields are returned and the checksum is not looked at.
   */
  lemma RoundTrip(sender: string, target: string, msgType: char, seqNum: int, time: string, user: seq<TagValue>)
    requires Plain(sender) && Plain(target) && Plain([msgType]) && Plain(time) && UserFields(user)
    ensures var fields := Header(sender, target, msgType, seqNum, time) + user;
      var r := Parsed(Message(fields));
      && r.valid && r.error == "" && r.msgType == msgType && r.seqNum == seqNum
      && (r.tags == AllFields(fields) <==> |user| <= 56)
      && (|user| > 56 ==> r.tags == AllFields(fields)[..MAX_TAGS])
  {
    var header := Header(sender, target, msgType, seqNum, time);
    var fields := header + user;
    HeaderIsClean(sender, target, msgType, seqNum, time);
    assert Clean(fields);
    FrontIsClean(fields);
    var front := Front(fields);
    MessageText(fields);
    var trailer := Trailer(Render(front));
    TrailerIsPlain(Render(front));
    var data := Message(fields);
    if |user| <= 56 {
      ScanWithChecksum(front, trailer.value);
      JudgeFront(ScanAll(data, SOH, START), front, msgType, seqNum);
    } else {
      ScanFull(front, Field(trailer));
      assert AllFields(fields)[..MAX_TAGS] == front[..MAX_TAGS];
      JudgeFront(ScanAll(data, SOH, START), front, msgType, seqNum);
    }
  }

  lemma TrailerIsPlain(front: string)
    ensures var t := Trailer(front); SOH !in t.value && Value(t.value) == ByteSum(front) % 256 && |t.value| == 3
  {
    Pad3Denotes(ByteSum(front) % 256);
  }

  /** The verdict when the fields begin with version, length and header. */
  lemma JudgeFront(s: Scan, front: seq<TagValue>, msgType: char, seqNum: int)
    requires |front| >= 7 && |s.tags| >= 7 && forall i :: 0 <= i < 7 ==> s.tags[i] == front[i]
    requires front[0].tag == BEGIN_STRING && front[1].tag == BODY_LENGTH
    requires front[2] == TagValue(MSG_TYPE, [msgType]) && msgType != NUL
    requires front[3].tag == SENDER && front[4].tag == TARGET && front[5] == TagValue(MSG_SEQ_NUM, Decimal(seqNum))
    requires s.checksum >= 0 ==> s.running % 256 == s.checksum
    ensures var r := Judge(s);
      r.valid && r.error == "" && r.msgType == msgType && r.seqNum == seqNum && r.tags == s.tags
  {
    FindAt(s.tags, BEGIN_STRING, 0);
    FindAt(s.tags, MSG_TYPE, 2);
    FindAt(s.tags, MSG_SEQ_NUM, 5);
    AsIntOfDecimal(seqNum, 0);
  }

  // ---------- a message that does not come back ----------

  function Repeated(f: TagValue, n: nat): (fields: seq<TagValue>)
    ensures |fields| == n && forall i :: 0 <= i < n ==> fields[i] == f
  {
    seq(n, i => f)
  }

  lemma {:induction false} RepeatedLength(f: TagValue, fields: seq<TagValue>)
    requires forall i :: 0 <= i < |fields| ==> fields[i] == f
    ensures |Render(fields)| == |fields| * |Field(f)|
  {
    hide Field;
    if fields != [] {
      RepeatedLength(f, fields[1..]);
    }
  }

  lemma FieldLength(f: TagValue)
    requires 0 <= f.tag < 100
    ensures |f.value| + 3 <= |Field(f)| <= |f.value| + 4
    ensures f.tag < 10 ==> |Field(f)| == |f.value| + 3
  {
    FewDigits(f.tag, if f.tag < 10 then 1 else 2);
  }

  lemma RenderFive(a: TagValue, b: TagValue, c: TagValue, d: TagValue, e: TagValue)
    ensures |Render([a, b, c, d, e])| == |Field(a)| + |Field(b)| + |Field(c)| + |Field(d)| + |Field(e)|
  {
    hide Field, Render;
    RenderNext([a, b, c, d, e]);
    RenderNext([b, c, d, e]);
    RenderNext([c, d, e]);
    RenderNext([d, e]);
    RenderOne(e);
    assert [a, b, c, d, e][1..] == [b, c, d, e] && [b, c, d, e][1..] == [c, d, e];
    assert [c, d, e][1..] == [d, e] && [d, e][1..] == [e];
  }

  /**
    Fifty-seven short fields: they fit the builder's buffers, and the parse
    calls the message valid without them all.
   */
  lemma OneFieldTooMany()
    ensures var header, user := Header("A", "B", '0', 1, "T"), Repeated(TagValue(1, "x"), 57);
      && |Render(header)| + |Render(user)| < MAX_MSG_SIZE && UserFields(user)
      && var r := Parsed(Message(header + user)); r.valid && r.tags != AllFields(header + user)
  {
    var user := Repeated(TagValue(1, "x"), 57);
    RoundTrip("A", "B", '0', 1, "T", user);
    FieldLength(TagValue(1, "x"));
    RepeatedLength(TagValue(1, "x"), user);
    ShortHeader();
    hide *;
  }

  lemma ShortHeader()
    ensures |Render(Header("A", "B", '0', 1, "T"))| <= 25
  {
    NoNulNoCut("A");
    NoNulNoCut("B");
    NoNulNoCut(['0']);
    NoNulNoCut("T");
    FewDigits(1, 1);
    hide Field, Render, UpToNul, Digits;
    var h := Header("A", "B", '0', 1, "T");
    RenderFive(h[0], h[1], h[2], h[3], h[4]);
    FieldLength(h[0]);
    FieldLength(h[1]);
    FieldLength(h[2]);
    FieldLength(h[3]);
    FieldLength(h[4]);
    assert h == [h[0], h[1], h[2], h[3], h[4]];
  }

  /** BodyLength counts the bytes between its own field and the checksum field. */
  lemma BodyLengthCounts(fields: seq<TagValue>)
    requires Clean(fields)
    ensures AsInt(Front(fields)[1].value, 0) == |Render(fields)|
    ensures Message(fields) == Render(Prologue(Render(fields))) + Render(fields) + Field(Trailer(Render(Front(fields))))
  {
    AsIntOfDecimal(|Render(fields)|, 0);
    MessageText(fields);
    RenderAppend(Prologue(Render(fields)), fields);
  }

  // ---------- damaged messages ----------

  /** Where byte j of the value of field i stands in the text. */
  function ValueOffset(fields: seq<TagValue>, i: nat, j: nat): nat
    requires i < |fields|
  {
    |Render(fields[..i])| + |Decimal(fields[i].tag)| + 1 + j
  }

  lemma UpdateLeft(a: string, b: string, k: nat, c: char)
    requires k < |a|
    ensures (a + b)[k := c] == a[k := c] + b && (a + b)[k] == a[k]
  {
  }

  lemma UpdateRight(a: string, b: string, k: nat, c: char)
    requires k < |b|
    ensures (a + b)[|a| + k := c] == a + b[k := c] && (a + b)[|a| + k] == b[k]
  {
  }

  lemma ChangeInField(f: TagValue, j: nat, c: char)
    requires j < |f.value|
    ensures var k := |Decimal(f.tag)| + 1 + j;
      k < |Field(f)| && Field(f)[k] == f.value[j] && Field(f.(value := f.value[j := c])) == Field(f)[k := c]
  {
    hide Decimal;
    var left := Decimal(f.tag) + "=";
    UpdateRight(left, f.value, j, c);
    UpdateLeft(left + f.value, [SOH], |left| + j, c);
  }

  lemma {:induction false} ChangeInFields(fields: seq<TagValue>, i: nat, j: nat, c: char)
    requires i < |fields| && j < |fields[i].value|
    ensures var k := ValueOffset(fields, i, j);
      var f := fields[i].(value := fields[i].value[j := c]);
      && k < |Render(fields)| && Render(fields)[k] == fields[i].value[j]
      && Render(fields[i := f]) == Render(fields)[k := c]
    decreases i
  {
    hide Field, Decimal;
    var f := fields[i].(value := fields[i].value[j := c]);
    var first, rest := Field(fields[0]), Render(fields[1..]);
    ChangeInField(fields[i], j, c);
    if i == 0 {
      assert fields[..0] == [] && fields[0 := f][1..] == fields[1..];
      UpdateLeft(first, rest, |Decimal(fields[0].tag)| + 1 + j, c);
    } else {
      ChangeInFields(fields[1..], i - 1, j, c);
      assert fields[i := f][1..] == fields[1..][i - 1 := f];
      assert fields[..i][0] == fields[0] && fields[..i][1..] == fields[1..][..i - 1];
      UpdateRight(first, rest, ValueOffset(fields[1..], i - 1, j), c);
    }
  }

  lemma ChangeOneByte(fields: seq<TagValue>, i: nat, j: nat, c: char, tail: string)
    requires i < |fields| && j < |fields[i].value|
    ensures var k := ValueOffset(fields, i, j);
      var f := fields[i].(value := fields[i].value[j := c]);
      && k < |Render(fields)| && Render(fields)[k] == fields[i].value[j]
      && (Render(fields) + tail)[k := c] == Render(fields[i := f]) + tail
      && Render(fields[i := f]) == Render(fields)[k := c]
  {
    ChangeInFields(fields, i, j, c);
    hide Render;
    UpdateLeft(Render(fields), tail, ValueOffset(fields, i, j), c);
  }

  /**
    One value byte in front of the checksum changed to another byte that is not
    the delimiter: the parser reports it if and only if there are at most 56
    user fields.
   */
  lemma DamagedByte(sender: string, target: string, msgType: char, seqNum: int, time: string, user: seq<TagValue>,
                    i: nat, j: nat, c: char)
    requires Plain(sender) && Plain(target) && Plain([msgType]) && Plain(time) && UserFields(user)
    requires var front := Front(Header(sender, target, msgType, seqNum, time) + user);
      && i < |front| && j < |front[i].value| && c != front[i].value[j] && c != SOH
      && c as int < 256 && front[i].value[j] as int < 256
    ensures var fields := Header(sender, target, msgType, seqNum, time) + user;
      var k := ValueOffset(Front(fields), i, j);
      && k < |Message(fields)|
      && (Parsed(Message(fields)[k := c]).error == "Checksum mismatch" <==> |user| <= 56)
  {
    var fields := Header(sender, target, msgType, seqNum, time) + user;
    BodyIsClean(sender, target, msgType, seqNum, time, user);
    FrontIsClean(fields);
    MessageText(fields);
    assert Message(fields) == Closed(Front(fields), SumText(Front(fields)));
    DamagedFront(Front(fields), i, j, c);
  }

  lemma BodyIsClean(sender: string, target: string, msgType: char, seqNum: int, time: string, user: seq<TagValue>)
    requires Plain(sender) && Plain(target) && Plain([msgType]) && Plain(time) && UserFields(user)
    ensures var fields := Header(sender, target, msgType, seqNum, time) + user; Clean(fields) && |fields| == |user| + 5
  {
    HeaderIsClean(sender, target, msgType, seqNum, time);
  }

  /** The text of clean fields closed with a checksum value. */
  function Closed(front: seq<TagValue>, sum: string): string {
    Render(front) + Field(TagValue(CHECK_SUM, sum))
  }

  function SumText(front: seq<TagValue>): string {
    Pad3(ByteSum(Render(front)) % 256)
  }

  lemma SumTextIsPlain(front: seq<TagValue>)
    ensures var t := SumText(front);
      SOH !in t && AllDigits(t) && |t| == 3 && Value(t) == ByteSum(Render(front)) % 256
  {
    Pad3Denotes(ByteSum(Render(front)) % 256);
  }

  /** The same for any clean fields in front of their checksum. */
  lemma DamagedFront(front: seq<TagValue>, i: nat, j: nat, c: char)
    requires Clean(front) && i < |front| && j < |front[i].value| && c != front[i].value[j] && c != SOH
    requires c as int < 256 && front[i].value[j] as int < 256
    ensures var text := Closed(front, SumText(front)); var k := ValueOffset(front, i, j);
      k < |text| && (Parsed(text[k := c]).error == "Checksum mismatch" <==> |front| < MAX_TAGS)
  {
    var damaged := front[i := front[i].(value := front[i].value[j := c])];
    hide Clean, Parsed, SumText, ByteSum;
    DamagedFrontText(front, i, j, c);
    CleanChange(front, i, j, c);
    SumTextIsPlain(front);
    ChecksumChecked(damaged, SumText(front));
  }

  lemma DamagedFrontText(front: seq<TagValue>, i: nat, j: nat, c: char)
    requires i < |front| && j < |front[i].value| && c != front[i].value[j]
    requires c as int < 256 && front[i].value[j] as int < 256
    ensures var text := Closed(front, SumText(front)); var k := ValueOffset(front, i, j);
      var damaged := front[i := front[i].(value := front[i].value[j := c])];
      && k < |text| && text[k := c] == Closed(damaged, SumText(front))
      && ByteSum(Render(damaged)) % 256 != ByteSum(Render(front)) % 256
  {
    hide ByteSum, SumText, Render, Field, ValueOffset;
    var k := ValueOffset(front, i, j);
    ChangeOneByte(front, i, j, c, Field(TagValue(CHECK_SUM, SumText(front))));
    ByteSumChange(Render(front), k, c);
    Differs(ByteSum(Render(front)), front[i].value[j] as int, c as int);
  }

  /** A mismatch is reported exactly if the checksum is reached and is not the sum of the bytes before it. */
  lemma ChecksumChecked(front: seq<TagValue>, sum: string)
    requires Clean(front) && front != [] && SOH !in sum && Value(sum) >= 0
    ensures Parsed(Closed(front, sum)).error == "Checksum mismatch"
      <==> |front| < MAX_TAGS && ByteSum(Render(front)) % 256 != Value(sum)
  {
    hide Render, Field, ScanAll, Delimiter, ByteSum, Value, Clean;
    var data := Render(front) + Field(TagValue(CHECK_SUM, sum));
    if |front| < MAX_TAGS {
      ScanWithChecksum(front, sum);
    } else {
      ScanFull(front, Field(TagValue(CHECK_SUM, sum)));
    }
    MismatchOnly(ScanAll(data, SOH, START));
  }

  lemma MismatchOnly(s: Scan)
    ensures Judge(s).error == "Checksum mismatch" <==> s.checksum >= 0 && s.running % 256 != s.checksum
  {
    var r := Judge(s);
    assert r.error == "" || r.error == "Checksum mismatch" || r.error[0] == 'M';
    assert "Checksum mismatch"[0] == 'C';
  }

  lemma CleanChange(front: seq<TagValue>, i: nat, j: nat, c: char)
    requires Clean(front) && i < |front| && j < |front[i].value| && c != SOH
    ensures Clean(front[i := front[i].(value := front[i].value[j := c])])
  {
    assert Splittable(front[i]);
  }

  lemma Differs(sum: nat, old_byte: int, new_byte: int)
    requires 0 <= old_byte < 256 && 0 <= new_byte < 256 && old_byte != new_byte && sum >= old_byte
    ensures (sum - old_byte + new_byte) % 256 != sum % 256
  {
  }

  /** A checksum digit changed to another digit is always reported while the checksum is read at all. */
  lemma DamagedChecksum(sender: string, target: string, msgType: char, seqNum: int, time: string, user: seq<TagValue>,
                        j: nat, c: char)
    requires Plain(sender) && Plain(target) && Plain([msgType]) && Plain(time) && UserFields(user)
    requires var t := Trailer(Render(Front(Header(sender, target, msgType, seqNum, time) + user)));
      j < |t.value| && c != t.value[j] && IsDigit(c)
    ensures var fields := Header(sender, target, msgType, seqNum, time) + user;
      var k := ValueOffset(AllFields(fields), |Front(fields)|, j);
      && k < |Message(fields)|
      && (Parsed(Message(fields)[k := c]).error == "Checksum mismatch" <==> |user| <= 56)
  {
    var fields := Header(sender, target, msgType, seqNum, time) + user;
    BodyIsClean(sender, target, msgType, seqNum, time, user);
    FrontIsClean(fields);
    MessageText(fields);
    assert Message(fields) == Closed(Front(fields), SumText(Front(fields)));
    DamagedSum(Front(fields), j, c);
  }

  lemma DamagedSum(front: seq<TagValue>, j: nat, c: char)
    requires Clean(front) && front != [] && j < |SumText(front)| && c != SumText(front)[j] && IsDigit(c)
    ensures var text := Closed(front, SumText(front));
      var k := ValueOffset(front + [TagValue(CHECK_SUM, SumText(front))], |front|, j);
      k < |text| && (Parsed(text[k := c]).error == "Checksum mismatch" <==> |front| < MAX_TAGS)
  {
    hide Clean, Parsed, SumText, ByteSum, Value, ValueOffset;
    SumTextIsPlain(front);
    OtherDigit(SumText(front), j, c);
    DamagedSumText(front, SumText(front), j, c);
    ChecksumChecked(front, SumText(front)[j := c]);
  }

  lemma DamagedSumText(front: seq<TagValue>, sum: string, j: nat, c: char)
    requires j < |sum|
    ensures var t := TagValue(CHECK_SUM, sum); var k := ValueOffset(front + [t], |front|, j);
      k < |Closed(front, sum)| && Closed(front, sum)[k := c] == Closed(front, sum[j := c])
  {
    var t := TagValue(CHECK_SUM, sum);
    assert (front + [t])[..|front|] == front && (front + [t])[|front|] == t;
    ChangeInField(t, j, c);
    hide Field, Render, Decimal;
    UpdateRight(Render(front), Field(t), |Decimal(CHECK_SUM)| + 1 + j, c);
  }

  lemma OtherDigit(s: string, j: nat, c: char)
    requires |s| == 3 && AllDigits(s) && j < 3 && IsDigit(c) && c != s[j]
    ensures SOH !in s[j := c] && Value(s[j := c]) != Value(s) && Value(s[j := c]) >= 0
  {
    var t := s[j := c];
    assert AllDigits(t);
    ThreeDigits(s);
    ThreeDigits(t);
  }
}
