/**
  The FIX 4.4 text itself, with the standard's own tag numbers: what a built
  message looks like on the wire, and under which tag its names come back.
 */
module FixWire {
  import opened Numbers
  import opened FixText
  import opened FixParser
  import opened FixBuilder
  import opened FixCodec

  lemma OneDigit(n: nat, c: char)
    requires n < 10 && c as int == n + 48
    ensures Decimal(n) == [c]
  {
  }

  lemma TwoDigits(n: nat, a: char, b: char)
    requires 10 <= n < 100 && a as int == n / 10 + 48 && b as int == n % 10 + 48
    ensures Decimal(n) == [a, b]
  {
    assert Digits(n / 10) == [a];
    assert Digits(n) == [a] + [b];
  }

  /** The tags as they are printed. */
  lemma TagTexts()
    ensures Decimal(8) == "8" && Decimal(9) == "9" && Decimal(10) == "10"
    ensures Decimal(34) == "34" && Decimal(35) == "35" && Decimal(49) == "49" && Decimal(52) == "52"
      && Decimal(56) == "56"
  {
    OneDigit(8, '8');
    OneDigit(9, '9');
    TwoDigits(10, '1', '0');
    TwoDigits(34, '3', '4');
    TwoDigits(35, '3', '5');
    TwoDigits(49, '4', '9');
    TwoDigits(52, '5', '2');
    TwoDigits(56, '5', '6');
  }

  /** The fields of the body: type, sender, target, sequence number and time, and then the user's. */
  function BodyText(sender: string, target: string, msgType: char, seqNum: int, time: string,
                    user: seq<TagValue>): string {
    ("35=" + [msgType] + [SOH]) + (("49=" + sender + [SOH])
      + (("56=" + target + [SOH]) + (("34=" + Decimal(seqNum) + [SOH])
      + (("52=" + time + [SOH]) + Render(user)))))
  }

  lemma FieldTexts(v: string)
    ensures Field(TagValue(8, v)) == "8=" + v + [SOH] && Field(TagValue(9, v)) == "9=" + v + [SOH]
    ensures Field(TagValue(10, v)) == "10=" + v + [SOH] && Field(TagValue(34, v)) == "34=" + v + [SOH]
    ensures Field(TagValue(35, v)) == "35=" + v + [SOH] && Field(TagValue(49, v)) == "49=" + v + [SOH]
    ensures Field(TagValue(52, v)) == "52=" + v + [SOH] && Field(TagValue(56, v)) == "56=" + v + [SOH]
  {
    TagTexts();
    hide Decimal;
  }

  /** The whole text of a message: version, length of the body, body, and three digits for its sum modulo 256. */
  lemma MessageOnTheWire(sender: string, target: string, msgType: char, seqNum: int, time: string, user: seq<TagValue>)
    requires Plain(sender) && Plain(target) && Plain([msgType]) && Plain(time)
    ensures var body := BodyText(sender, target, msgType, seqNum, time, user);
      var front := (("8=FIX.4.4" + [SOH]) + ("9=" + Decimal(|body|) + [SOH])) + body;
      && Message(Header(sender, target, msgType, seqNum, time) + user)
        == front + ("10=" + Pad3(ByteSum(front) % 256) + [SOH])
      && |Pad3(ByteSum(front) % 256)| == 3 && AllDigits(Pad3(ByteSum(front) % 256))
      && Value(Pad3(ByteSum(front) % 256)) == ByteSum(front) % 256
  {
    hide *;
    var fields := Header(sender, target, msgType, seqNum, time) + user;
    var body := BodyText(sender, target, msgType, seqNum, time, user);
    BodyIs(sender, target, msgType, seqNum, time, user);
    MessageText(fields);
    FrontText(fields);
    var front := Render(Front(fields));
    TrailerText(front);
    Pad3Denotes(ByteSum(front) % 256);
    PadDigits(ByteSum(front) % 256);
  }

  lemma TrailerText(front: string)
    ensures Field(Trailer(front)) == "10=" + Pad3(ByteSum(front) % 256) + [SOH]
  {
    FieldTexts(Pad3(ByteSum(front) % 256));
    hide Field, Pad3, ByteSum;
  }

  lemma FrontText(fields: seq<TagValue>)
    ensures Render(Front(fields))
      == (("8=FIX.4.4" + [SOH]) + ("9=" + Decimal(|Render(fields)|) + [SOH])) + Render(fields)
  {
    hide *;
    var a, b := TagValue(8, "FIX.4.4"), TagValue(9, Decimal(|Render(fields)|));
    FrontFields(fields);
    FieldTexts(a.value);
    FieldTexts(b.value);
    RenderAppend([a] + [b], fields);
    RenderAppend([a], [b]);
    RenderOne(a);
    RenderOne(b);
  }

  lemma FrontFields(fields: seq<TagValue>)
    ensures Front(fields) == ([TagValue(8, "FIX.4.4")] + [TagValue(9, Decimal(|Render(fields)|))]) + fields
  {
    hide Render, Decimal;
  }

  lemma BodyIs(sender: string, target: string, msgType: char, seqNum: int, time: string, user: seq<TagValue>)
    requires Plain(sender) && Plain(target) && Plain([msgType]) && Plain(time)
    ensures Render(Header(sender, target, msgType, seqNum, time) + user)
      == BodyText(sender, target, msgType, seqNum, time, user)
  {
    HeaderIsClean(sender, target, msgType, seqNum, time);
    var h := Header(sender, target, msgType, seqNum, time);
    assert |h| == 5;
    hide Header, Plain, Render, Field, Decimal, Clean;
    FieldTexts([msgType]);
    FieldTexts(sender);
    FieldTexts(target);
    FieldTexts(Decimal(seqNum));
    FieldTexts(time);
    FiveThen(h, user);
  }

  lemma FiveThen(h: seq<TagValue>, user: seq<TagValue>)
    requires |h| == 5
    ensures Render(h + user) == Field(h[0])
      + (Field(h[1]) + (Field(h[2]) + (Field(h[3]) + (Field(h[4]) + Render(user)))))
  {
    hide Field, Render;
    assert h + user == [h[0]] + ([h[1]] + ([h[2]] + ([h[3]] + ([h[4]] + user))));
    RenderAppend([h[0]], [h[1]] + ([h[2]] + ([h[3]] + ([h[4]] + user))));
    RenderAppend([h[1]], [h[2]] + ([h[3]] + ([h[4]] + user)));
    RenderAppend([h[2]], [h[3]] + ([h[4]] + user));
    RenderAppend([h[3]], [h[4]] + user);
    RenderAppend([h[4]], user);
    RenderOne(h[0]);
    RenderOne(h[1]);
    RenderOne(h[2]);
    RenderOne(h[3]);
    RenderOne(h[4]);
  }

  /** Every name comes back under its own tag, however many fields follow. */
  lemma NamesComeBack(sender: string, target: string, msgType: char, seqNum: int, time: string, user: seq<TagValue>)
    requires Plain(sender) && Plain(target) && Plain([msgType]) && Plain(time) && UserFields(user)
    ensures var tags := Parsed(Message(Header(sender, target, msgType, seqNum, time) + user)).tags;
      && FindTag(tags, 8) == Orders.Some(TagValue(8, "FIX.4.4"))
      && FindTag(tags, 35) == Orders.Some(TagValue(35, [msgType]))
      && FindTag(tags, 49) == Orders.Some(TagValue(49, sender))
      && FindTag(tags, 56) == Orders.Some(TagValue(56, target))
      && FindTag(tags, 34) == Orders.Some(TagValue(34, Decimal(seqNum)))
      && FindTag(tags, 52) == Orders.Some(TagValue(52, time))
  {
    hide *;
    var fields := Header(sender, target, msgType, seqNum, time) + user;
    var tags := Parsed(Message(fields)).tags;
    RoundTrip(sender, target, msgType, seqNum, time, user);
    EightMore(sender, target, msgType, seqNum, time, user);
    FirstSeven(sender, target, msgType, seqNum, time, user, tags);
    FindAt(tags, 8, 0);
    FindAt(tags, 35, 2);
    FindAt(tags, 49, 3);
    FindAt(tags, 56, 4);
    FindAt(tags, 34, 5);
    FindAt(tags, 52, 6);
  }

  lemma EightMore(sender: string, target: string, msgType: char, seqNum: int, time: string, user: seq<TagValue>)
    ensures |AllFields(Header(sender, target, msgType, seqNum, time) + user)| == |user| + 8 && MAX_TAGS == 64
  {
    hide Render, Decimal, Trailer, UpToNul;
  }

  lemma FirstSeven(sender: string, target: string, msgType: char, seqNum: int, time: string, user: seq<TagValue>,
                   tags: seq<TagValue>)
    requires Plain(sender) && Plain(target) && Plain([msgType]) && Plain(time)
    requires var all := AllFields(Header(sender, target, msgType, seqNum, time) + user);
      |all| == |user| + 8 && (tags == all || (|user| > 56 && tags == all[..64]))
    ensures |tags| >= 7 && tags[0] == TagValue(8, "FIX.4.4") && tags[1].tag == 9 && tags[2] == TagValue(35, [msgType])
    ensures tags[3] == TagValue(49, sender) && tags[4] == TagValue(56, target)
    ensures tags[5] == TagValue(34, Decimal(seqNum)) && tags[6] == TagValue(52, time)
  {
    HeaderIsClean(sender, target, msgType, seqNum, time);
    hide Render, Decimal, Clean, Plain, Trailer;
  }

  /** The verdict on fields without a checksum, by the standard's tag numbers. */
  lemma PlainFieldsParse(fields: seq<TagValue>)
    requires Clean(fields) && 0 < |fields| <= 64
    ensures var r, kind := Parsed(Render(fields)), FindTag(fields, 35);
      && r.tags == fields
      && r.seqNum == (if FindTag(fields, 34).Some? then AsInt(FindTag(fields, 34).value.value, 0) else 0)
      && (r.error == "Missing BeginString (tag 8)" <==> FindTag(fields, 8).None?)
      && (r.valid <==> FindTag(fields, 8).Some? && kind.Some? && kind.value.value != "" && kind.value.value[0] != NUL)
      && (r.valid ==> r.error == "" && r.msgType == kind.value.value[0])
  {
    hide *;
    var data := Render(fields) + "";
    assert data == Render(fields);
    SixtyFour();
    DelimiterOf(fields, "");
    ScanFront(fields, "");
    ScannedAll(data, fields);
    JudgePlain(data, ScanAll(data, Delimiter(data), START), fields);
  }

  lemma SixtyFour()
    ensures MAX_TAGS == 64
  {
  }

  lemma ScannedAll(data: string, fields: seq<TagValue>)
    requires data == Render(fields)
    ensures ScanAll(data, SOH, Scan(|data|, ByteSum(data), -1, fields)) == Scan(|data|, ByteSum(data), -1, fields)
  {
    hide Render, ByteSum;
    EndOfText(data, Scan(|data|, ByteSum(data), -1, fields));
  }

  lemma JudgePlain(data: string, s: Scan, fields: seq<TagValue>)
    requires data != "" && s == ScanAll(data, Delimiter(data), START) && s.checksum == -1 && s.tags == fields
    ensures var r, kind := Parsed(data), FindTag(fields, 35);
      && r.tags == fields
      && r.seqNum == (if FindTag(fields, 34).Some? then AsInt(FindTag(fields, 34).value.value, 0) else 0)
      && (r.error == "Missing BeginString (tag 8)" <==> FindTag(fields, 8).None?)
      && (r.valid <==> FindTag(fields, 8).Some? && kind.Some? && kind.value.value != "" && kind.value.value[0] != NUL)
      && (r.valid ==> r.error == "" && r.msgType == kind.value.value[0])
  {
    hide ScanAll, Delimiter, AsInt, FindTag;
    assert "Missing BeginString (tag 8)"[8] == 'B' && "Missing MsgType (tag 35)"[8] == 'M';
  }
}
