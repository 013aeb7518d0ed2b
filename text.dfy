/**
 * String helpers the feeds rely on: Python's `str.strip()`, `str.startswith`,
 * decimal rendering of a counter in an f-string, and `sep.join(parts)`.
 */
module Text {
  import opened Dates

  /** `c.isspace()`: the characters Python's `str.strip()` removes. */
  predicate IsSpace(c: char) {
    c == ' ' || '\t' <= c <= '\r' || '\U{1C}' <= c <= '\U{1F}' || c == '\U{85}' || c == '\U{A0}'
    || c == '\U{1680}' || '\U{2000}' <= c <= '\U{200A}' || c == '\U{2028}' || c == '\U{2029}'
    || c == '\U{202F}' || c == '\U{205F}' || c == '\U{3000}'
  }

  /** `s.lstrip()`: the suffix of `s` left after dropping its leading whitespace. */
  function TrimStart(s: string): (r: string)
    ensures |r| <= |s| && r == s[|s| - |r|..]
    ensures r == [] || !IsSpace(r[0])
    ensures forall k :: 0 <= k < |s| - |r| ==> IsSpace(s[k])
  {
    if s == [] || !IsSpace(s[0]) then s else TrimStart(s[1..])
  }

  /** `s.rstrip()`: the prefix of `s` left after dropping its trailing whitespace. */
  function TrimEnd(s: string): (r: string)
    ensures |r| <= |s| && r == s[..|r|]
    ensures r == [] || !IsSpace(r[|r| - 1])
    ensures forall k :: |r| <= k < |s| ==> IsSpace(s[k])
  {
    if s == [] || !IsSpace(s[|s| - 1]) then s else TrimEnd(s[..|s| - 1])
  }

  /** `s.strip()`. */
  function Strip(s: string): (r: string) {
    TrimEnd(TrimStart(s))
  }

  /**
   * What `strip` leaves is a contiguous piece of `s` that neither starts nor
   * ends with whitespace, and everything it cut off is whitespace.
   */
  lemma StripSpec(s: string)
    ensures var r := Strip(s);
      var i := |s| - |TrimStart(s)|;
      i + |r| <= |s| && r == s[i..i + |r|]
      && (r == [] || (!IsSpace(r[0]) && !IsSpace(r[|r| - 1])))
      && (forall k :: 0 <= k < i ==> IsSpace(s[k]))
      && (forall k :: i + |r| <= k < |s| ==> IsSpace(s[k]))
  {
    StripSlice(s);
    StripEnds(s);
    StripCutsSpace(s);
  }

  lemma StripSlice(s: string)
    ensures var i := |s| - |TrimStart(s)|;
      i + |Strip(s)| <= |s| && Strip(s) == s[i..i + |Strip(s)|]
  {
    var t := TrimStart(s);
    var r := TrimEnd(t);
    var i := |s| - |t|;
    assert t == s[i..];
    assert r == t[..|r|];
    assert Strip(s) == r;
    PrefixOfSuffix(s, i, |r|);
  }

  lemma StripEnds(s: string)
    ensures Strip(s) == [] || (!IsSpace(Strip(s)[0]) && !IsSpace(Strip(s)[|Strip(s)| - 1]))
  {
    var t := TrimStart(s);
    var r := TrimEnd(t);
    if r != [] {
      assert r[0] == t[0];
    }
  }

  lemma StripCutsSpace(s: string)
    ensures var i := |s| - |TrimStart(s)|;
      && (forall k :: 0 <= k < i ==> IsSpace(s[k]))
      && (forall k :: i + |Strip(s)| <= k < |s| ==> IsSpace(s[k]))
  {
    var t := TrimStart(s);
    var r := TrimEnd(t);
    var i := |s| - |t|;
    forall k | i + |r| <= k < |s| ensures IsSpace(s[k]) {
      assert s[k] == t[k - i];
    }
  }

  lemma PrefixOfSuffix(s: string, i: nat, n: nat)
    requires i + n <= |s|
    ensures s[i..][..n] == s[i..i + n]
  {
  }

  /** Stripping twice is stripping once. */
  lemma StripIdempotent(s: string)
    ensures Strip(Strip(s)) == Strip(s)
  {
    var r := Strip(s);
    StripSpec(s);
    if r != [] {
      assert TrimStart(r) == r;
      assert TrimEnd(r) == r;
    }
  }

  /** `s.startswith(p)`. */
  predicate StartsWith(s: string, p: string) {
    |p| <= |s| && s[..|p|] == p
  }

  /** `str(n)` for a natural number. */
  function Show(n: nat): (s: string)
    ensures |s| >= 1 && AllDigits(s)
    ensures |s| > 1 ==> s[0] != '0'
  {
    if n < 10 then [Digit(n)] else Show(n / 10) + [Digit(n % 10)]
  }

  /** Reading back the decimal form of `n` gives `n`. */
  lemma {:induction false} ShowRoundTrip(n: nat)
    ensures DigitsValue(Show(n)) == n
  {
    if n >= 10 {
      var s := Show(n);
      assert s[..|s| - 1] == Show(n / 10);
      ShowRoundTrip(n / 10);
    }
  }

  /** Different numbers print differently. */
  lemma ShowInjective(m: nat, n: nat)
    requires Show(m) == Show(n)
    ensures m == n
  {
    ShowRoundTrip(m);
    ShowRoundTrip(n);
  }

  /** A number printed in front of text that does not start with a digit can be read back: the number is determined. */
  lemma ShowDelimited(m: nat, n: nat, a: string, b: string)
    requires a != [] && b != [] && !IsDigit(a[0]) && !IsDigit(b[0])
    requires Show(m) + a == Show(n) + b
    ensures m == n && a == b
  {
    var sm, sn := Show(m), Show(n);
    if |sm| < |sn| {
      DigitInside(sm, a, sn, b);
      assert false;
    } else if |sn| < |sm| {
      DigitInside(sn, b, sm, a);
      assert false;
    } else {
      assert sm == (sm + a)[..|sm|] && sn == (sn + b)[..|sn|];
      ShowInjective(m, n);
      assert a == (sm + a)[|sm|..] && b == (sn + b)[|sn|..];
    }
  }

  /** Text that continues a shorter prefix where a longer run of digits goes on starts with a digit. */
  lemma DigitInside(x: string, a: string, y: string, b: string)
    requires |x| < |y| && a != [] && x + a == y + b && AllDigits(y)
    ensures IsDigit(a[0])
  {
    assert a[0] == (x + a)[|x|] == (y + b)[|x|] == y[|x|];
  }

  /** `sep.join(parts)`. */
  function Join(sep: string, parts: seq<string>): (r: string)
    ensures parts == [] ==> r == ""
    ensures |parts| == 1 ==> r == parts[0]
  {
    if parts == [] then ""
    else if |parts| == 1 then parts[0]
    else Join(sep, parts[..|parts| - 1]) + sep + parts[|parts| - 1]
  }

  /** The joined text is as long as the parts together plus one separator per gap between two parts. */
  lemma {:induction false} JoinLength(sep: string, parts: seq<string>)
    requires |parts| >= 1
    ensures |Join(sep, parts)| == TotalLength(parts) + (|parts| - 1) * |sep|
  {
    if |parts| > 1 {
      JoinLength(sep, parts[..|parts| - 1]);
      assert parts[..|parts| - 1][..|parts| - 2] == parts[..|parts| - 2];
    }
  }

  /**
   * Part `i` of `parts` sits in `text` after the parts before it and one
   * separator per gap before it, and is followed by the separator unless it
   * is the last part.
   */
  predicate PartAt(text: string, sep: string, parts: seq<string>, i: nat)
    requires i < |parts|
  {
    var at := TotalLength(parts[..i]) + i * |sep|;
    && at + |parts[i]| <= |text|
    && text[at..at + |parts[i]|] == parts[i]
    && (i < |parts| - 1 ==>
          at + |parts[i]| + |sep| <= |text| && text[at + |parts[i]|..at + |parts[i]| + |sep|] == sep)
  }

  /** Joining is associative over a split: the two joined halves with one separator between them. */
  lemma {:induction false} JoinSplit(sep: string, parts: seq<string>, i: nat)
    requires 0 < i < |parts|
    ensures Join(sep, parts) == Join(sep, parts[..i]) + sep + Join(sep, parts[i..])
  {
    var n := |parts| - 1;
    var init := parts[..n];
    if i == n {
      assert parts[i..] == [parts[n]];
    } else {
      JoinSplit(sep, init, i);
      assert init[..i] == parts[..i] && init[i..] == parts[i..][..|parts[i..]| - 1];
      assert parts[i..][|parts[i..]| - 1] == parts[n];
      calc {
        Join(sep, parts);
        Join(sep, init) + sep + parts[n];
        Join(sep, parts[..i]) + sep + Join(sep, init[i..]) + sep + parts[n];
        Join(sep, parts[..i]) + sep + (Join(sep, init[i..]) + sep + parts[n]);
        Join(sep, parts[..i]) + sep + Join(sep, parts[i..]);
      }
    }
  }

  /** The joined text before part `i`: the parts before it joined, and a separator when there are any. */
  function Before(sep: string, parts: seq<string>, i: nat): string
    requires i <= |parts|
  {
    if i == 0 then "" else Join(sep, parts[..i]) + sep
  }

  /** The joined text after part `i`: a separator and the parts after it joined, when there are any. */
  function After(sep: string, parts: seq<string>, i: nat): string
    requires i < |parts|
  {
    if i == |parts| - 1 then "" else sep + Join(sep, parts[i + 1..])
  }

  /** The joined text is what comes before part `i`, part `i`, and what comes after it. */
  lemma JoinAround(sep: string, parts: seq<string>, i: nat)
    requires i < |parts|
    ensures Join(sep, parts) == Before(sep, parts, i) + (parts[i] + After(sep, parts, i))
  {
    if i == 0 {
      JoinFrom(sep, parts);
    } else {
      JoinSplit(sep, parts, i);
      JoinFrom(sep, parts[i..]);
      assert parts[i..][1..] == parts[i + 1..];
    }
  }

  /** A join is its first part, then a separator and the join of the rest when there is a rest. */
  lemma JoinFrom(sep: string, parts: seq<string>)
    requires parts != []
    ensures Join(sep, parts) == parts[0] + After(sep, parts, 0)
  {
    if |parts| > 1 {
      JoinSplit(sep, parts, 1);
      assert parts[..1] == [parts[0]];
    }
  }

  /** What comes before part `i` is as long as the parts before it and one separator per part. */
  lemma BeforeLength(sep: string, parts: seq<string>, i: nat)
    requires i <= |parts|
    ensures |Before(sep, parts, i)| == TotalLength(parts[..i]) + i * |sep|
  {
    if i > 0 {
      JoinLength(sep, parts[..i]);
      assert i * |sep| == (i - 1) * |sep| + |sep|;
    } else {
      assert parts[..0] == [];
    }
  }

  /** Every part sits in the joined text where it belongs; with JoinLength this fixes the whole text. */
  lemma JoinParts(sep: string, parts: seq<string>, i: nat)
    requires i < |parts|
    ensures PartAt(Join(sep, parts), sep, parts, i)
  {
    JoinAround(sep, parts, i);
    BeforeLength(sep, parts, i);
    PlacedPart(Join(sep, parts), Before(sep, parts, i), After(sep, parts, i), sep, parts, i);
  }

  /** A text that is some text of the right length, then part `i`, then the separator (unless `i` is last), has part `i` where it belongs. */
  lemma PlacedPart(text: string, before: string, after: string, sep: string, parts: seq<string>, i: nat)
    requires i < |parts| && text == before + (parts[i] + after)
    requires |before| == TotalLength(parts[..i]) + i * |sep|
    requires i < |parts| - 1 ==> |sep| <= |after| && after[..|sep|] == sep
    ensures PartAt(text, sep, parts, i)
  {
    var p := parts[i];
    SliceOfBack(before, p + after, |before|, |before| + |p|);
    SliceOfFront(p, after, 0, |p|);
    if i < |parts| - 1 {
      SliceOfBack(before, p + after, |before| + |p|, |before| + |p| + |sep|);
      SliceOfBack(p, after, |p|, |p| + |sep|);
    }
  }

  lemma SliceOfFront(a: string, b: string, x: nat, y: nat)
    requires x <= y <= |a|
    ensures (a + b)[x..y] == a[x..y]
  {
  }

  lemma SliceOfBack(a: string, b: string, x: nat, y: nat)
    requires |a| <= x <= y <= |a| + |b|
    ensures (a + b)[x..y] == b[x - |a|..y - |a|]
  {
  }

  function TotalLength(parts: seq<string>): nat {
    if parts == [] then 0 else TotalLength(parts[..|parts| - 1]) + |parts[|parts| - 1]|
  }
}
