/**
  FIX 4.4 text: fields and byte sums. Bytes are characters with codes
  below 256.
 */
module FixText {
  import opened Numbers

  const SOH: char := 1 as char
  const NUL: char := 0 as char

  datatype TagValue = TagValue(tag: int, value: string)

  /** A value as the printer sees it: it ends at the first NUL. */
  function UpToNul(s: string): string {
    if s == "" || s[0] == NUL then "" else [s[0]] + UpToNul(s[1..])
  }

  lemma {:induction false} NoNulNoCut(s: string)
    requires NUL !in s
    ensures UpToNul(s) == s
  {
    if s != "" {
      NoNulNoCut(s[1..]);
    }
  }

  /** tag=value and the field delimiter. */
  function Field(f: TagValue): string {
    Decimal(f.tag) + "=" + f.value + [SOH]
  }

  function Render(fields: seq<TagValue>): string {
    if fields == [] then "" else Field(fields[0]) + Render(fields[1..])
  }

  lemma {:induction false} RenderAppend(a: seq<TagValue>, b: seq<TagValue>)
    ensures Render(a + b) == Render(a) + Render(b)
  {
    hide Field, Render;
    if a == [] {
      assert a + b == b;
      RenderNone(a);
      assert "" + Render(b) == Render(b);
    } else {
      RenderAppend(a[1..], b);
      assert (a + b)[1..] == a[1..] + b;
      RenderNext(a);
      RenderNext(a + b);
      assert Field(a[0]) + (Render(a[1..]) + Render(b)) == Field(a[0]) + Render(a[1..]) + Render(b);
    }
  }

  lemma RenderNone(fields: seq<TagValue>)
    requires fields == []
    ensures Render(fields) == ""
  {
  }

  lemma RenderNext(fields: seq<TagValue>)
    requires fields != []
    ensures Render(fields) == Field(fields[0]) + Render(fields[1..])
  {
    hide Field;
  }

  lemma RenderOne(f: TagValue)
    ensures Render([f]) == Field(f)
  {
  }

  /** The sum of the byte codes. */
  function ByteSum(s: string): nat {
    if s == "" then 0 else ByteSum(s[..|s| - 1]) + s[|s| - 1] as int
  }

  lemma {:induction false} ByteSumAppend(a: string, b: string)
    ensures ByteSum(a + b) == ByteSum(a) + ByteSum(b)
  {
    if b == "" {
      assert a + b == a;
    } else {
      ByteSumAppend(a, b[..|b| - 1]);
      assert (a + b)[..|a + b| - 1] == a + b[..|b| - 1];
    }
  }

  lemma ByteSumChange(s: string, k: nat, c: char)
    requires k < |s|
    ensures ByteSum(s[k := c]) == ByteSum(s) - s[k] as int + c as int && ByteSum(s) >= s[k] as int
  {
    var a, b := s[..k], s[k + 1..];
    assert s == a + [s[k]] + b && s[k := c] == a + [c] + b;
    ByteSumAppend(a + [s[k]], b);
    ByteSumAppend(a + [c], b);
    assert (a + [s[k]])[..|a|] == a && (a + [c])[..|a|] == a;
  }

  /** The position of the first c at or after i, or the length. */
  function IndexFrom(s: string, c: char, i: nat): (k: nat)
    requires i <= |s|
    ensures i <= k <= |s|
    ensures k < |s| ==> s[k] == c
    ensures forall j :: i <= j < k ==> s[j] != c
    decreases |s| - i
  {
    if i == |s| || s[i] == c then i else IndexFrom(s, c, i + 1)
  }

  /** A field whose text splits back: the value holds no delimiter and the tag is not negative. */
  predicate Splittable(f: TagValue) {
    f.tag >= 0 && SOH !in f.value
  }

  lemma DecimalIsPlain(n: nat)
    ensures Decimal(n) == Digits(n) && AllDigits(Decimal(n)) && Value(Decimal(n)) == n && Decimal(n) != ""
    ensures '=' !in Decimal(n) && SOH !in Decimal(n)
  {
    DecimalIsDigits(n);
  }
}
