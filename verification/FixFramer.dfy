/**
  Cutting the byte stream into messages: a message ends with the delimiter
  after the first checksum field in the buffer.
 */
module FixFramer {
  import opened Orders
  import opened Numbers
  import opened FixText
  import opened FixParser
  import opened FixBuilder
  import opened FixCodec

  predicate SumAt(data: string, i: nat) {
    i + 2 < |data| && data[i] == '1' && data[i + 1] == '0' && data[i + 2] == '='
  }

  /** A delimiter and "10=" behind it. */
  predicate Mark(data: string, i: nat) {
    i + 3 < |data| && data[i] == SOH && SumAt(data, i + 1)
  }

  /** Where the first checksum field starts, or the length if none is in sight. */
  function SumFrom(data: string, i: nat): (k: nat)
    requires i <= |data|
    ensures k == |data| || k + 3 <= |data|
    decreases |data| - i
  {
    if i + 3 >= |data| then |data|
    else if Mark(data, i) then i + 1
    else if i == 0 && SumAt(data, 0) then 0
    else SumFrom(data, i + 1)
  }

  /** Where the first message ends, if it is complete. */
  function FrameEnd(data: string): (end: Option<nat>)
    ensures end.Some? ==> 0 < end.value <= |data|
  {
    var start := SumFrom(data, 0);
    if start == |data| then None
    else
      var end := IndexFrom(data, SOH, start + 3);
      if end == |data| then None else Some(end + 1)
  }

  datatype Extraction = Extraction(messages: seq<string>, rest: string)

  function Extract(data: string): Extraction
    decreases |data|
  {
    var end := FrameEnd(data);
    if end.None? then Extraction([], data)
    else
      var more := Extract(data[end.value..]);
      Extraction([data[..end.value]] + more.messages, more.rest)
  }

  class FixTcpClient {
    var readBuffer: string
    var delivered: seq<string>

    constructor ()
      ensures readBuffer == "" && delivered == []
    {
      readBuffer, delivered := "", [];
    }

    /** Looks for the first checksum field from the front of the buffer. */
    method FindSum(data: string) returns (start: nat)
      ensures start == SumFrom(data, 0)
    {
      var i := 0;
      while i + 3 < |data|
        invariant i <= |data| && SumFrom(data, i) == SumFrom(data, 0)
      {
        if data[i] == SOH && data[i + 1] == '1' && data[i + 2] == '0' && data[i + 3] == '=' {
          return i + 1;
        }
        if i == 0 && data[0] == '1' && data[1] == '0' && data[2] == '=' {
          return 0;
        }
        i := i + 1;
      }
      return |data|;
    }

    /** Delivers every complete message and removes it from the front of the buffer. */
    method ExtractMessages()
      modifies this
      ensures var e := Extract(old(readBuffer)); delivered == old(delivered) + e.messages && readBuffer == e.rest
    {
      ghost var goal := Extract(readBuffer);
      while true
        invariant delivered + Extract(readBuffer).messages == old(delivered) + goal.messages
        invariant Extract(readBuffer).rest == goal.rest
        decreases |readBuffer|
      {
        var start := FindSum(readBuffer);
        if start == |readBuffer| { break; }
        var end := FindChar(readBuffer, SOH, start + 3);
        if end >= |readBuffer| { break; }
        end := end + 1;
        assert FrameEnd(readBuffer) == Some(end);
        var message := readBuffer[..end];
        assert delivered + Extract(readBuffer).messages
          == (delivered + [message]) + Extract(readBuffer[end..]).messages;
        delivered := delivered + [message];
        readBuffer := readBuffer[end..];
      }
      assert FrameEnd(readBuffer) == None;
      assert delivered + [] == delivered;
    }

    /** Bytes that arrived join the buffer. */
    method Poll(received: string)
      modifies this
      ensures var e := Extract(old(readBuffer) + received);
        delivered == old(delivered) + e.messages && readBuffer == e.rest
    {
      readBuffer := readBuffer + received;
      ExtractMessages();
    }

    /** A whole stream, read in chunks: the same messages and leftover as in one read. */
    method PollAll(chunks: seq<string>)
      requires FrameEnd(readBuffer).None?
      modifies this
      ensures var e := Extract(old(readBuffer) + Concat(chunks));
        delivered == old(delivered) + e.messages && readBuffer == e.rest
    {
      hide *;
      ghost var before, done := readBuffer, delivered;
      ghost var stream := before;
      ExtractNothing(before);
      assert done + [] == done;
      ConcatEmpty(before, chunks);
      for i := 0 to |chunks|
        invariant stream == before + Concat(chunks[..i])
        invariant delivered == done + Extract(stream).messages && readBuffer == Extract(stream).rest
      {
        ExtractAppend(stream, chunks[i]);
        ConcatSnoc(chunks[..i], chunks[i]);
        assert chunks[..i + 1] == chunks[..i] + [chunks[i]];
        Associates(before, Concat(chunks[..i]), chunks[i]);
        ghost var first := Extract(stream).messages;
        Poll(chunks[i]);
        stream := stream + chunks[i];
        ghost var second := delivered[|done + first|..];
        assert delivered == done + (first + second);
      }
      assert chunks[..|chunks|] == chunks;
    }
  }

  lemma ExtractNothing(data: string)
    requires FrameEnd(data).None?
    ensures Extract(data) == Extraction([], data)
  {
  }

  lemma ConcatEmpty(data: string, chunks: seq<string>)
    ensures data + Concat(chunks[..0]) == data
  {
  }

  function Concat(chunks: seq<string>): string {
    if chunks == [] then "" else chunks[0] + Concat(chunks[1..])
  }

  lemma {:induction false} ConcatSnoc(chunks: seq<string>, c: string)
    ensures Concat(chunks + [c]) == Concat(chunks) + c
  {
    if chunks == [] {
      assert chunks + [c] == [c];
      assert Concat([c]) == c + Concat([]) == c;
    } else {
      ConcatSnoc(chunks[1..], c);
      assert (chunks + [c])[1..] == chunks[1..] + [c];
      Associates(chunks[0], Concat(chunks[1..]), c);
    }
  }

  // ---------- nothing lost, nothing depends on the chunks ----------

  /** The messages and the leftover are the input. */
  lemma {:induction false} ExtractConserves(data: string)
    ensures Concat(Extract(data).messages) + Extract(data).rest == data
    ensures FrameEnd(Extract(data).rest).None?
    decreases |data|
  {
    hide FrameEnd, Concat;
    var end := FrameEnd(data);
    if end.Some? {
      ExtractConserves(data[end.value..]);
      var more := Extract(data[end.value..]);
      ConcatFront(data[..end.value], more.messages);
      Associates(data[..end.value], Concat(more.messages), more.rest);
      assert data == data[..end.value] + data[end.value..];
    } else {
      NothingToConcat();
      assert "" + data == data;
    }
  }

  lemma ConcatFront(chunk: string, chunks: seq<string>)
    ensures Concat([chunk] + chunks) == chunk + Concat(chunks)
  {
    assert ([chunk] + chunks)[1..] == chunks;
  }

  lemma NothingToConcat()
    ensures Concat([]) == ""
  {
  }

  lemma {:induction false} SumFromStable(a: string, b: string, i: nat)
    requires i <= |a| && SumFrom(a, i) < |a|
    ensures SumFrom(a + b, i) == SumFrom(a, i)
    decreases |a| - i
  {
    assert forall j :: 0 <= j < |a| ==> (a + b)[j] == a[j];
    if !Mark(a, i) && !(i == 0 && SumAt(a, 0)) {
      SumFromStable(a, b, i + 1);
    }
  }

  lemma FrameEndStable(a: string, b: string)
    requires FrameEnd(a).Some?
    ensures FrameEnd(a + b) == FrameEnd(a)
  {
    SumFromStable(a, b, 0);
    var start := SumFrom(a, 0);
    var end := IndexFrom(a, SOH, start + 3);
    assert forall j :: 0 <= j < |a| ==> (a + b)[j] == a[j];
    IndexIs(a + b, SOH, start + 3, end);
  }

  /** Reading b after a is the same as reading them at once. */
  lemma {:induction false} ExtractAppend(a: string, b: string)
    ensures var first := Extract(a); var second := Extract(first.rest + b);
      Extract(a + b) == Extraction(first.messages + second.messages, second.rest)
    decreases |a|
  {
    hide FrameEnd, SumFrom, Mark, SumAt;
    var end := FrameEnd(a);
    if end.None? {
      assert [] + Extract(a + b).messages == Extract(a + b).messages;
    } else {
      FrameEndStable(a, b);
      var n := end.value;
      assert (a + b)[..n] == a[..n] && (a + b)[n..] == a[n..] + b;
      ExtractAppend(a[n..], b);
      var more := Extract(a[n..]);
      var second := Extract(more.rest + b);
      assert ([a[..n]] + more.messages) + second.messages == [a[..n]] + (more.messages + second.messages);
    }
  }

  /** Reading chunk after chunk. */
  function Feed(e: Extraction, chunks: seq<string>): Extraction
    decreases |chunks|
  {
    if chunks == [] then e
    else
      var next := Extract(e.rest + chunks[0]);
      Feed(Extraction(e.messages + next.messages, next.rest), chunks[1..])
  }

  /** However a stream is cut, the result is that of one big read. */
  lemma {:induction false} ChunkingDoesNotMatter(stream: string, chunks: seq<string>)
    ensures Feed(Extract(stream), chunks) == Extract(stream + Concat(chunks))
    decreases |chunks|
  {
    if chunks == [] {
      assert stream + "" == stream;
    } else {
      ExtractAppend(stream, chunks[0]);
      ChunkingDoesNotMatter(stream + chunks[0], chunks[1..]);
      Associates(stream, chunks[0], Concat(chunks[1..]));
    }
  }

  // ---------- streams of built messages ----------

  /** Two digits that read "10" are the number ten. */
  lemma TagTenOnly(tag: nat)
    requires |Digits(tag)| == 2 && Digits(tag)[0] == '1' && Digits(tag)[1] == '0'
    ensures tag == 10
  {
    DigitsDenote(tag);
    var s := Digits(tag);
    assert s[..1][..0] == "" && Value(s[..1]) == 1;
  }

  /** A clean field does not look like a checksum field. */
  lemma NotASum(data: string, pos: nat, f: TagValue)
    requires At(data, pos, Field(f)) && Splittable(f) && f.tag != CHECK_SUM
    ensures !SumAt(data, pos)
  {
    FieldLayout(data, pos, f);
    DecimalIsPlain(f.tag);
    if SumAt(data, pos) {
      var digits := Digits(f.tag);
      hide Digits;
      assert data[pos + |digits|] == '=';
      assert |digits| == 2;
      assert data[pos..pos + 2] == digits;
      TagTenOnly(f.tag);
    }
  }

  /** No delimiter stands inside a field. */
  lemma NoMarkInside(data: string, pos: nat, f: TagValue)
    requires At(data, pos, Field(f)) && Splittable(f)
    ensures forall i :: pos <= i < pos + |Field(f)| - 1 ==> data[i] != SOH
    ensures data[pos + |Field(f)| - 1] == SOH
  {
    FieldLayout(data, pos, f);
    DecimalIsPlain(f.tag);
    var digits := Digits(f.tag);
    var eq := pos + |digits|;
    var end := eq + 1 + |f.value|;
    hide Digits, Field;
    forall i | pos <= i < end
      ensures data[i] != SOH
    {
      if i < eq { assert data[i] == data[pos..eq][i - pos]; }
      else if i > eq { assert data[i] == data[eq + 1..end][i - eq - 1]; }
    }
  }

  /** Between printed fields there is no mark; only the last delimiter may start one. */
  lemma {:induction false} NoMarks(data: string, pos: nat, fields: seq<TagValue>)
    requires At(data, pos, Render(fields)) && Clean(fields) && fields != []
    ensures forall i :: pos <= i < pos + |Render(fields)| - 1 ==> !Mark(data, i)
    ensures |Render(fields)| > 0 && data[pos + |Render(fields)| - 1] == SOH
    decreases |fields|
  {
    hide *;
    var f, rest := fields[0], fields[1..];
    SplitClean(fields);
    FirstField(data, pos, fields);
    NoMarkInside(data, pos, f);
    var next := pos + |Field(f)|;
    if rest != [] {
      NoMarks(data, next, rest);
      SplitClean(rest);
      FirstField(data, next, rest);
      NotASum(data, next, rest[0]);
    }
    forall i | pos <= i < pos + |Render(fields)| - 1
      ensures !Mark(data, i)
    {
      NotAMark(data, i);
    }
  }

  lemma NotAMark(data: string, i: nat)
    requires i < |data|
    ensures data[i] != SOH || !SumAt(data, i + 1) ==> !Mark(data, i)
  {
  }

  lemma FirstField(data: string, pos: nat, fields: seq<TagValue>)
    requires At(data, pos, Render(fields)) && fields != []
    ensures At(data, pos, Field(fields[0])) && At(data, pos + |Field(fields[0])|, Render(fields[1..]))
    ensures |Render(fields)| == |Field(fields[0])| + |Render(fields[1..])| && |Field(fields[0])| > 0
    ensures |fields| == 1 ==> |Render(fields[1..])| == 0
    ensures pos + |Render(fields)| <= |data|
  {
    AtSplit(data, pos, Field(fields[0]), Render(fields[1..]));
  }

  lemma {:induction false} FirstMark(data: string, i: nat, k: nat)
    requires i <= k && Mark(data, k) && !SumAt(data, 0) && forall j :: i <= j < k ==> !Mark(data, j)
    ensures SumFrom(data, i) == k + 1
    decreases k - i
  {
    if i < k {
      FirstMark(data, i + 1, k);
    }
  }

  /** Whatever follows a closed text, its first frame is that text. */
  lemma ClosedIsFramed(front: seq<TagValue>, sum: string, tail: string)
    requires Clean(front) && front != [] && SOH !in sum
    ensures FrameEnd(Closed(front, sum) + tail) == Some(|Closed(front, sum)|)
  {
    hide *;
    var data := Closed(front, sum) + tail;
    var n := |Render(front)|;
    ClosedAt(front, sum, tail);
    NoMarks(data, 0, front);
    SplitClean(front);
    FirstField(data, 0, front);
    NotASum(data, 0, front[0]);
    SumField(data, n, sum);
    SumMakesMark(data, n);
    FirstMark(data, 0, n - 1);
    FrameAt(data, n);
  }

  lemma SumMakesMark(data: string, n: nat)
    requires n > 0 && n + 3 < |data| && SumAt(data, n) && data[n - 1] == SOH
    ensures Mark(data, n - 1)
  {
  }

  lemma FrameAt(data: string, n: nat)
    requires SumFrom(data, 0) == n && n + 3 <= |data| && IndexFrom(data, SOH, n + 3) < |data|
    ensures FrameEnd(data) == Some(IndexFrom(data, SOH, n + 3) + 1)
  {
  }

  /** A checksum field seen from its place in the text. */
  lemma SumField(data: string, n: nat, sum: string)
    requires At(data, n, Field(TagValue(CHECK_SUM, sum))) && SOH !in sum
    ensures SumAt(data, n) && n + 3 < |data|
    ensures IndexFrom(data, SOH, n + 3) + 1 == n + |Field(TagValue(CHECK_SUM, sum))|
      && IndexFrom(data, SOH, n + 3) < |data|
  {
    FieldLayout(data, n, TagValue(CHECK_SUM, sum));
    TenIsTen();
    hide Field, Digits;
    assert data[n..n + 2] == Digits(10);
  }

  lemma ClosedAt(front: seq<TagValue>, sum: string, tail: string)
    ensures var data := Closed(front, sum) + tail;
      At(data, 0, Render(front)) && At(data, |Render(front)|, Field(TagValue(CHECK_SUM, sum)))
    ensures |Closed(front, sum)| == |Render(front)| + |Field(TagValue(CHECK_SUM, sum))|
  {
    var a, b := Render(front), Field(TagValue(CHECK_SUM, sum));
    hide Render, Field;
    Associates(a, b, tail);
    AtFront(a, b + tail);
    AtFront(b, tail);
    assert (a + (b + tail))[|a|..|a| + |b|] == b;
  }

  lemma TenIsTen()
    ensures Digits(10) == "10"
  {
    assert Digits(10) == Digits(1) + [DigitOf(0)];
  }

  ghost predicate Built(messages: seq<string>) {
    forall k :: 0 <= k < |messages| ==> CanBeBuilt(messages[k])
  }

  ghost predicate CanBeBuilt(message: string) {
    exists call :: IsBuilt(message, call)
  }

  // What the builder is given for one message.
  datatype BuildCall = BuildCall(sender: string, target: string, msgType: char, seqNum: int, time: string,
                                 user: seq<TagValue>)
  {
    function Fields(): seq<TagValue> { Header(sender, target, msgType, seqNum, time) + user }
  }

  /** The text the builder makes for such a call; values hold no delimiter and no NUL. */
  ghost predicate IsBuilt(message: string, call: BuildCall) {
    && Plain(call.sender) && Plain(call.target) && Plain([call.msgType]) && Plain(call.time) && UserFields(call.user)
    && message == Message(call.Fields())
  }

  /** Every built message parses as valid. */
  lemma BuiltParses(message: string)
    requires CanBeBuilt(message)
    ensures Parsed(message).valid
  {
    var call :| IsBuilt(message, call);
    hide Parsed, Message, Plain, UserFields;
    RoundTrip(call.sender, call.target, call.msgType, call.seqNum, call.time, call.user);
  }

  lemma BuiltIsFramed(message: string, call: BuildCall, tail: string)
    requires IsBuilt(message, call)
    ensures FrameEnd(message + tail) == Some(|message|)
  {
    var fields := call.Fields();
    BodyIsClean(call.sender, call.target, call.msgType, call.seqNum, call.time, call.user);
    hide Header, Plain, UserFields, Clean, Message, Parsed;
    FrontIsClean(fields);
    MessageText(fields);
    var front := Front(fields);
    SumTextIsPlain(front);
    assert message == Closed(front, SumText(front));
    ClosedIsFramed(front, SumText(front), tail);
  }

  /** A stream of built messages comes out as exactly those messages, and what follows them is still to be framed. */
  lemma {:induction false} BuiltStream(messages: seq<string>, tail: string)
    requires Built(messages)
    ensures Extract(Concat(messages) + tail) == Extraction(messages + Extract(tail).messages, Extract(tail).rest)
    decreases |messages|
  {
    hide *;
    if messages == [] {
      ConcatNone(messages, tail);
      assert messages + Extract(tail).messages == Extract(tail).messages;
    } else {
      var m := messages[0];
      var call := FirstBuilt(messages);
      var rest := Concat(messages[1..]) + tail;
      BuiltIsFramed(m, call, rest);
      FirstFrame(m, rest);
      BuiltStream(messages[1..], tail);
      Associates(m, Concat(messages[1..]), tail);
      assert [m] + (messages[1..] + Extract(tail).messages) == messages + Extract(tail).messages;
    }
  }

  lemma ConcatNone(messages: seq<string>, tail: string)
    requires messages == []
    ensures Concat(messages) + tail == tail
  {
  }

  lemma FirstBuilt(messages: seq<string>) returns (call: BuildCall)
    requires Built(messages) && messages != []
    ensures IsBuilt(messages[0], call) && Built(messages[1..])
    ensures Concat(messages) == messages[0] + Concat(messages[1..])
  {
    assert CanBeBuilt(messages[0]);
    call :| IsBuilt(messages[0], call);
    forall k | 0 <= k < |messages[1..]|
      ensures CanBeBuilt(messages[1..][k])
    {
      assert messages[1..][k] == messages[k + 1];
    }
  }

  lemma FirstFrame(m: string, rest: string)
    requires FrameEnd(m + rest) == Some(|m|)
    ensures Extract(m + rest) == Extraction([m] + Extract(rest).messages, Extract(rest).rest)
  {
    assert (m + rest)[..|m|] == m && (m + rest)[|m|..] == rest;
  }

  /**
    However the bytes of built messages arrive, exactly those messages are
    delivered, each valid, and nothing is left.
   */
  lemma BuiltStreamInChunks(messages: seq<string>, chunks: seq<string>)
    requires Built(messages) && Concat(chunks) == Concat(messages)
    ensures Feed(Extraction([], ""), chunks) == Extraction(messages, "")
    ensures forall k :: 0 <= k < |messages| ==> Parsed(messages[k]).valid
  {
    hide Parsed, Feed;
    ChunkingDoesNotMatter("", chunks);
    BuiltStream(messages, "");
    assert "" + Concat(chunks) == Concat(messages) + "";
    assert Extract("") == Extraction([], "");
    assert messages + [] == messages;
    forall k | 0 <= k < |messages|
      ensures Parsed(messages[k]).valid
    {
      assert CanBeBuilt(messages[k]);
      BuiltParses(messages[k]);
    }
  }

  // ---------- where a message ends ----------

  /** A checksum field begins at k: at the front of a buffer that goes on behind it, or behind a delimiter. */
  predicate FieldOfSum(data: string, k: nat) {
    k + 3 <= |data| && data[k..k + 3] == "10=" && (if k == 0 then |data| > 3 else data[k - 1] == SOH)
  }

  /** The first checksum field begins at k, and its delimiter is at e. */
  predicate EndsAt(data: string, k: nat, e: nat) {
    && FieldOfSum(data, k) && (forall j :: 0 <= j < k ==> !FieldOfSum(data, j))
    && k + 3 <= e < |data| && data[e] == SOH && (forall j :: k + 3 <= j < e ==> data[j] != SOH)
  }

  lemma FieldOfSumIs(data: string, i: nat)
    requires i + 3 < |data|
    ensures Mark(data, i) <==> FieldOfSum(data, i + 1)
    ensures SumAt(data, 0) <==> FieldOfSum(data, 0)
  {
    var a, b := data[..3], data[i + 1..i + 4];
    assert |"10="| == 3 && "10="[0] == '1' && "10="[1] == '0' && "10="[2] == '=';
    if Mark(data, i) { assert b == "10="; }
    if SumAt(data, 0) { assert data[0..3] == "10="; }
    if FieldOfSum(data, i + 1) { assert data[i + 1] == b[0] && data[i + 2] == b[1] && data[i + 3] == b[2]; }
    if FieldOfSum(data, 0) { assert data[0] == data[0..3][0] && data[1] == data[0..3][1] && data[2] == data[0..3][2]; }
  }

  lemma {:induction false} FirstSum(data: string, i: nat)
    requires i <= |data| && forall j :: 0 <= j < i ==> !FieldOfSum(data, j)
    requires i > 0 ==> !FieldOfSum(data, i)
    ensures var k := SumFrom(data, i);
      && (k < |data| ==> FieldOfSum(data, k)) && (forall j :: 0 <= j < k ==> !FieldOfSum(data, j))
    decreases |data| - i
  {
    hide Mark, SumAt;
    if i + 3 < |data| {
      FieldOfSumIs(data, i);
      if !Mark(data, i) && !(i == 0 && SumAt(data, 0)) {
        FirstSum(data, i + 1);
      }
    }
  }

  /** Two places that both are the first checksum field are one place. */
  lemma FirstIsOne(data: string, f: nat, k: nat)
    requires f < |data| ==> FieldOfSum(data, f)
    requires FieldOfSum(data, k)
    requires forall j :: 0 <= j < f ==> !FieldOfSum(data, j)
    requires forall j :: 0 <= j < k ==> !FieldOfSum(data, j)
    requires k < |data|
    ensures f == k
  {
    hide FieldOfSum;
  }

  /**
   * The first message ends behind the delimiter of the first checksum field, if that delimiter has arrived, and
   * nothing else ends it.
   */
  lemma FrameEndIs(data: string, e: nat)
    ensures FrameEnd(data) == Some(e + 1) <==> exists k :: 0 <= k <= e && EndsAt(data, k, e)
  {
    if FrameEnd(data) == Some(e + 1) { FrameEndMeans(data, e); }
    if k :| 0 <= k <= e && EndsAt(data, k, e) { FrameEndAt(data, k, e); }
  }

  lemma FrameEndAt(data: string, k: nat, e: nat)
    requires EndsAt(data, k, e)
    ensures FrameEnd(data) == Some(e + 1)
  {
    FirstSum(data, 0);
    FirstIsOne(data, SumFrom(data, 0), k);
    hide SumFrom, FieldOfSum;
    var end := IndexFrom(data, SOH, k + 3);
    assert end == e;
  }

  lemma FrameEndMeans(data: string, e: nat)
    requires FrameEnd(data) == Some(e + 1)
    ensures EndsAt(data, SumFrom(data, 0), e) && SumFrom(data, 0) <= e
  {
    FirstSum(data, 0);
    hide SumFrom, FieldOfSum;
  }
}
