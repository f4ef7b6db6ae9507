/**
  The FIX message builder: user fields go into one fixed buffer, the finished
  message with header, body length and checksum into another.
 */
module FixBuilder {
  import opened Numbers
  import opened FixText
  import opened FixParser

  const MAX_MSG_SIZE := 4096

  const SENDER := 49
  const TARGET := 56
  const SENDING_TIME := 52

  /** The fields that every message body starts with. */
  function Header(sender: string, target: string, msgType: char, seqNum: int, time: string): seq<TagValue> {
    [ TagValue(MSG_TYPE, UpToNul([msgType])),
      TagValue(SENDER, UpToNul(sender)),
      TagValue(TARGET, UpToNul(target)),
      TagValue(MSG_SEQ_NUM, Decimal(seqNum)),
      TagValue(SENDING_TIME, UpToNul(time)) ]
  }

  /** Version and length of the body, which is everything from field 35 up to the trailer. */
  function Prologue(body: string): seq<TagValue> {
    [TagValue(BEGIN_STRING, "FIX.4.4"), TagValue(BODY_LENGTH, Decimal(|body|))]
  }

  /** All fields but the trailer. */
  function Front(fields: seq<TagValue>): seq<TagValue> {
    Prologue(Render(fields)) + fields
  }

  function Trailer(front: string): TagValue {
    TagValue(CHECK_SUM, Pad3(ByteSum(front) % 256))
  }

  /** A whole message around the body fields. */
  function AllFields(fields: seq<TagValue>): seq<TagValue> {
    Front(fields) + [Trailer(Render(Front(fields)))]
  }

  function Message(fields: seq<TagValue>): string {
    Render(AllFields(fields))
  }

  lemma {:induction false} FewDigits(n: nat, d: nat)
    requires 1 <= d <= 4 && n < (if d == 1 then 10 else if d == 2 then 100 else if d == 3 then 1000 else 10000)
    ensures |Digits(n)| <= d
    decreases d
  {
    if n >= 10 {
      FewDigits(n / 10, d - 1);
    }
  }

  class FixMessageBuilder {
    const body: array<char>
    const msg: array<char>
    var bodyLen: nat
    var fieldCount: nat
    var msgLen: nat
    ghost var fields: seq<TagValue>

    ghost predicate Valid()
      reads this, body
    {
      && body.Length == MAX_MSG_SIZE && msg.Length == MAX_MSG_SIZE * 2 && body != msg
      && bodyLen == |Render(fields)| && msgLen <= msg.Length && fieldCount == |fields|
      && (bodyLen < MAX_MSG_SIZE ==> body[..bodyLen] == Render(fields))
    }

    constructor ()
      ensures Valid() && fields == [] && fresh(body) && fresh(msg)
    {
      body := new char[MAX_MSG_SIZE](_ => NUL);
      msg := new char[MAX_MSG_SIZE * 2](_ => NUL);
      bodyLen, fieldCount, msgLen, fields := 0, 0, 0, [];
    }

    method Reset()
      requires Valid()
      modifies this
      ensures Valid() && fields == []
    {
      bodyLen, fieldCount, fields := 0, 0, [];
    }

    /** Copies text into a buffer; nothing else in it changes. */
    static method Copy(a: array<char>, at: nat, text: string)
      requires at + |text| <= a.Length
      modifies a
      ensures a[..at] == old(a[..at]) && a[at..at + |text|] == text && a[at + |text|..] == old(a[at + |text|..])
    {
      for i := 0 to |text|
        invariant a[..at] == old(a[..at]) && a[at..at + i] == text[..i]
        invariant a[at + |text|..] == old(a[at + |text|..])
      {
        a[at + i] := text[i];
        assert a[at..at + i + 1] == a[at..at + i] + [text[i]];
      }
    }

    /** A bounded print: as much of the text as fits in front of a terminating NUL. */
    static method PrintTo(a: array<char>, at: nat, text: string)
      requires at <= a.Length
      modifies a
      ensures a[..at] == old(a[..at])
      ensures at + |text| < a.Length ==> a[at..at + |text|] == text
      ensures at < a.Length <= at + |text| ==> a[at..] == text[..a.Length - at - 1] + [NUL]
    {
      if at == a.Length { return; }
      var shown := if at + |text| < a.Length then text else text[..a.Length - at - 1];
      Copy(a, at, shown);
      a[at + |shown|] := NUL;
      assert a[at..at + |shown|] == shown;
    }

    /**
      Appends a field; its value ends at the first NUL. The length counts the
      whole field even when the buffer takes only its beginning. Behind the end
      of the buffer there is no place to print to.
     */
    method Add(tag: int, value: string)
      requires Valid() && bodyLen <= MAX_MSG_SIZE
      modifies this, body
      ensures Valid() && fields == old(fields) + [TagValue(tag, UpToNul(value))] && msgLen == old(msgLen)
      ensures bodyLen == old(bodyLen) + |Field(TagValue(tag, UpToNul(value)))|
      ensures old(bodyLen) < MAX_MSG_SIZE <= bodyLen ==> body[..] == Render(fields)[..MAX_MSG_SIZE - 1] + [NUL]
    {
      hide Render, Field, UpToNul;
      var f := TagValue(tag, UpToNul(value));
      var text := Field(f);
      ghost var before := Render(fields);
      RenderAppend(fields, [f]);
      RenderOne(f);
      PrintTo(body, bodyLen, text);
      if bodyLen + |text| < MAX_MSG_SIZE {
        assert body[..bodyLen + |text|] == before + text;
      } else if bodyLen < MAX_MSG_SIZE {
        assert body[..] == body[..bodyLen] + body[bodyLen..];
        assert (before + text)[..MAX_MSG_SIZE - 1] == before + text[..MAX_MSG_SIZE - bodyLen - 1];
      }
      bodyLen := bodyLen + |text|;
      fieldCount := fieldCount + 1;
      fields := fields + [f];
    }

    /** The overload for integers: their decimal text. */
    method AddInt(tag: int, value: int)
      requires Valid() && bodyLen <= MAX_MSG_SIZE
      modifies this, body
      ensures Valid() && fields == old(fields) + [TagValue(tag, Decimal(value))]
    {
      hide Render, Field, Decimal, UpToNul;
      DecimalHasNoNul(value);
      NoNulNoCut(Decimal(value));
      Add(tag, Decimal(value));
    }

    /** The message for the fields added so far; they stay for the next one. */
    method Finalize(sender: string, target: string, msgType: char, seqNum: int, time: string) returns (text: string)
      requires Valid()
      requires |Render(Header(sender, target, msgType, seqNum, time))| < MAX_MSG_SIZE
      requires |Render(Header(sender, target, msgType, seqNum, time))| + bodyLen <= MAX_MSG_SIZE
      modifies this`msgLen, msg
      ensures Valid() && fields == old(fields)
      ensures text == Message(Header(sender, target, msgType, seqNum, time) + fields) == msg[..msgLen]
    {
      var header := Header(sender, target, msgType, seqNum, time);
      var fullBody, fullLen := FullBody(header);
      msgLen := Wrap(fullBody, fullLen, header + fields);
      text := msg[..msgLen];
    }

    /** Header fields and user fields in a buffer of their own. */
    method FullBody(header: seq<TagValue>) returns (fullBody: array<char>, fullLen: nat)
      requires Valid() && header != [] && |Render(header)| < MAX_MSG_SIZE && |Render(header)| + bodyLen <= MAX_MSG_SIZE
      ensures fresh(fullBody) && fullLen <= MAX_MSG_SIZE == fullBody.Length
      ensures fullBody[..fullLen] == Render(header + fields)
    {
      hide Render;
      fullBody := new char[MAX_MSG_SIZE];
      SomethingRendered(header);
      PrintTo(fullBody, 0, Render(header));
      fullLen := |Render(header)|;
      Copy(fullBody, fullLen, body[..bodyLen]);
      assert fullBody[..fullLen + bodyLen] == Render(header) + body[..bodyLen];
      fullLen := fullLen + bodyLen;
      RenderAppend(header, fields);
    }

    /** Prologue, body and trailer into the message buffer. */
    method Wrap(fullBody: array<char>, fullLen: nat, ghost all: seq<TagValue>) returns (total: nat)
      requires Valid() && fullBody != msg && fullLen <= MAX_MSG_SIZE == fullBody.Length
      requires fullBody[..fullLen] == Render(all)
      modifies msg
      ensures total <= msg.Length && msg[..total] == Message(all)
    {
      hide Render, Field, Prologue;
      var prologue := Render(Prologue(fullBody[..fullLen]));
      PrologueFits(fullBody[..fullLen]);
      PrintTo(msg, 0, prologue);
      total := |prologue|;
      Copy(msg, total, fullBody[..fullLen]);
      assert msg[..total + fullLen] == prologue + fullBody[..fullLen];
      total := total + fullLen;
      RenderAppend(Prologue(Render(all)), all);
      assert msg[..total] == Render(Front(all));
      var checksum := Checksum(total);
      var trailer := Field(TagValue(CHECK_SUM, Pad3(checksum % 256)));
      TrailerLength(checksum % 256);
      PrintTo(msg, total, trailer);
      assert msg[..total + |trailer|] == msg[..total] + trailer;
      total := total + |trailer|;
      RenderAppend(Front(all), [Trailer(Render(Front(all)))]);
      RenderOne(Trailer(Render(Front(all))));
    }

    method Checksum(total: nat) returns (sum: nat)
      requires total <= msg.Length
      ensures sum == ByteSum(msg[..total])
    {
      sum := 0;
      for i := 0 to total
        invariant sum == ByteSum(msg[..i])
      {
        assert msg[..i + 1][..i] == msg[..i];
        sum := sum + msg[i] as int;
      }
    }
  }

  lemma DecimalHasNoNul(n: int)
    ensures NUL !in Decimal(n)
  {
    DigitsDenote(if n < 0 then -n else n);
    hide Digits, Value;
  }

  lemma SomethingRendered(fields: seq<TagValue>)
    requires fields != []
    ensures |Render(fields)| > 0
  {
  }

  lemma PrologueFits(body: string)
    requires |body| <= MAX_MSG_SIZE
    ensures |Render(Prologue(body))| <= 17
  {
    var a, b := TagValue(BEGIN_STRING, "FIX.4.4"), TagValue(BODY_LENGTH, Decimal(|body|));
    FewDigits(|body|, 4);
    RenderAppend([a], [b]);
    RenderOne(a);
    RenderOne(b);
    assert Prologue(body) == [a] + [b];
    assert Digits(8) == [DigitOf(8)] && Digits(9) == [DigitOf(9)];
    assert |Field(a)| == 10 && |Field(b)| <= 7;
  }

  lemma TrailerLength(n: nat)
    requires n < 256
    ensures |Field(TagValue(CHECK_SUM, Pad3(n)))| == 7
  {
    assert Digits(10) == Digits(1) + [DigitOf(0)];
  }
}
