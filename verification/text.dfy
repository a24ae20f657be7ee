/** The string operations of the host languages that the streamed answer path leans on. */
module Text {

  datatype Option<+T> = None | Some(value: T)

  ghost predicate OccursAt(s: string, needle: string, i: int) {
    0 <= i && i + |needle| <= |s| && s[i..i + |needle|] == needle
  }

  /** `str.find` and `String.indexOf`: the first occurrence, or -1. */
  function Find(s: string, needle: string): (r: int)
    ensures r == -1 || OccursAt(s, needle, r)
    ensures r == -1 || 0 <= r <= |s| - |needle|
    ensures forall j :: OccursAt(s, needle, j) ==> r != -1 && r <= j
  {
    FindFrom(s, needle, 0)
  }

  function FindFrom(s: string, needle: string, i: nat): (r: int)
    requires i <= |s|
    ensures r == -1 || (i <= r && OccursAt(s, needle, r))
    ensures forall j :: i <= j && OccursAt(s, needle, j) ==> r != -1 && r <= j
    decreases |s| - i
  {
    if i + |needle| > |s| then -1
    else if s[i..i + |needle|] == needle then i
    else if i == |s| then -1
    else FindFrom(s, needle, i + 1)
  }

  /** An occurrence is found at the same place however the text continues. */
  lemma FindInLonger(a: string, b: string, needle: string)
    requires Find(a, needle) != -1
    ensures Find(a + b, needle) == Find(a, needle)
  {
    var k := Find(a, needle);
    OccursWithin(a, b, needle, k);
    OccursWithin(a, b, needle, Find(a + b, needle));
  }

  // Facts about concatenation, stated once so that proofs can rewrite with them.

  lemma Assoc(a: string, b: string, c: string)
    ensures (a + b) + c == a + (b + c)
  {
  }

  lemma TakeWithin(a: string, b: string, k: nat)
    requires k <= |a|
    ensures (a + b)[..k] == a[..k] && (a + b)[k..] == a[k..] + b
  {
  }

  lemma TakeBeyond(a: string, b: string, k: nat)
    requires k <= |b|
    ensures (a + b)[..|a| + k] == a + b[..k] && (a + b)[|a| + k..] == b[k..]
  {
  }

  lemma OccursShift(a: string, b: string, needle: string, j: int)
    requires 0 <= j
    ensures OccursAt(a + b, needle, |a| + j) <==> OccursAt(b, needle, j)
  {
    if j + |needle| <= |b| {
      assert (a + b)[|a| + j..|a| + j + |needle|] == b[j..j + |needle|];
    }
  }

  lemma OccursWithin(a: string, b: string, needle: string, j: int)
    requires j + |needle| <= |a|
    ensures OccursAt(a + b, needle, j) <==> OccursAt(a, needle, j)
  {
    if 0 <= j {
      assert (a + b)[j..j + |needle|] == a[j..j + |needle|];
    }
  }

  /** `"".join(parts)` */
  function Concat(parts: seq<string>): string {
    if parts == [] then "" else parts[0] + Concat(parts[1..])
  }

  lemma ConcatAppend(xs: seq<string>, ys: seq<string>)
    ensures Concat(xs + ys) == Concat(xs) + Concat(ys)
  {
    if xs == [] {
      assert xs + ys == ys;
    } else {
      assert (xs + ys)[1..] == xs[1..] + ys;
      ConcatAppend(xs[1..], ys);
    }
  }

  lemma ConcatSnoc(xs: seq<string>, x: string)
    ensures Concat(xs + [x]) == Concat(xs) + x
  {
    ConcatAppend(xs, [x]);
    assert Concat([x]) == x;
  }

  /** Keeping only what is not empty loses no text. */
  lemma ConcatNonEmpty(xs: seq<string>, x: string)
    ensures Concat(xs + NonEmpty(x)) == Concat(xs) + x
  {
    if x == "" {
      assert xs + NonEmpty(x) == xs;
      assert Concat(xs) + x == Concat(xs);
    } else {
      ConcatSnoc(xs, x);
    }
  }

  function NonEmpty(x: string): seq<string> {
    if x == "" then [] else [x]
  }

  /** What Python's `str.strip` removes. */
  predicate PySpace(c: char) {
    || '\t' <= c <= '\r'
    || '\U{1C}' <= c <= ' '
    || c in {'\U{85}', '\U{A0}', '\U{1680}'}
    || '\U{2000}' <= c <= '\U{200A}'
    || c in {'\U{2028}', '\U{2029}', '\U{202F}', '\U{205F}', '\U{3000}'}
  }

  /** `s.strip()` with the language's own notion of white space. */
  function Trim(s: string, space: char -> bool): (r: string)
    ensures r != "" ==> !space(r[0]) && !space(r[|r| - 1])
    ensures r == "" <==> forall i :: 0 <= i < |s| ==> space(s[i])
    ensures s != "" && !space(s[0]) && !space(s[|s| - 1]) ==> r == s
  {
    TrimRight(TrimLeft(s, space), space)
  }

  /** What is trimmed is white space at the two ends; what lies between is kept as it is. */
  lemma TrimKeepsMiddle(s: string, space: char -> bool) returns (i: nat)
    ensures i + |Trim(s, space)| <= |s| && s[i..i + |Trim(s, space)|] == Trim(s, space)
    ensures forall j :: 0 <= j < i || i + |Trim(s, space)| <= j < |s| ==> space(s[j])
  {
    var left := TrimLeft(s, space);
    var r := TrimRight(left, space);
    i := |s| - |left|;
    assert r == Trim(s, space);
    assert left == s[i..] && r == left[..|r|];
    FrontOfTail(s, i, |r|);
    forall j | i + |r| <= j < |s|
      ensures space(s[j])
    {
      hide *;
      assert space(left[j - i]);
    }
    hide *;
  }

  lemma FrontOfTail(s: string, i: nat, n: nat)
    requires i + n <= |s|
    ensures s[i..][..n] == s[i..i + n]
  {
  }

  function TrimLeft(s: string, space: char -> bool): (r: string)
    ensures |r| <= |s| && r == s[|s| - |r|..]
    ensures forall i :: 0 <= i < |s| - |r| ==> space(s[i])
    ensures r != "" ==> !space(r[0])
  {
    if s != "" && space(s[0]) then
      var r := TrimLeft(s[1..], space);
      assert s[1..][|s| - 1 - |r|..] == s[|s| - |r|..];
      assert forall i :: 1 <= i < |s| - |r| ==> s[i] == s[1..][i - 1];
      r
    else s
  }

  function TrimRight(s: string, space: char -> bool): (r: string)
    ensures |r| <= |s| && r == s[..|r|]
    ensures forall i :: |r| <= i < |s| ==> space(s[i])
    ensures r != "" ==> !space(r[|r| - 1])
  {
    if s != "" && space(s[|s| - 1]) then TrimRight(s[..|s| - 1], space) else s
  }
}
