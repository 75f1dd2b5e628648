/** Normalize: turns argument text into a JSON array text so that a single
    argument may be passed without brackets. Go strings are modelled as the
    sequence of their runes. */
module Normalizer {

  /** unicode.IsSpace: the Latin-1 spaces and the rest of Unicode's White_Space
      property, which is what strings.TrimSpace trims. */
  predicate IsSpace(c: char) {
    var n := c as int;
    (0x09 <= n <= 0x0D) || n == 0x20 || n == 0x85 || n == 0xA0 ||
    n == 0x1680 || (0x2000 <= n <= 0x200A) || n == 0x2028 || n == 0x2029 ||
    n == 0x202F || n == 0x205F || n == 0x3000
  }

  /** `s` without its leading white space. */
  function TrimLeft(s: string): string {
    if s != [] && IsSpace(s[0]) then TrimLeft(s[1..]) else s
  }

  /** `s` without its trailing white space. */
  function TrimRight(s: string): string {
    if s != [] && IsSpace(s[|s| - 1]) then TrimRight(s[..|s| - 1]) else s
  }

  /** strings.TrimSpace. */
  function TrimSpace(s: string): string {
    TrimRight(TrimLeft(s))
  }

  /** TrimLeft removes a prefix made only of white space, and what is left
      does not start with white space. */
  lemma {:induction false} TrimLeftRemovesLeadingSpace(s: string)
    ensures var r := TrimLeft(s);
            && |r| <= |s| && r == s[|s| - |r|..]
            && (forall i :: 0 <= i < |s| - |r| ==> IsSpace(s[i]))
            && (r == [] || !IsSpace(r[0]))
  {
    if s != [] && IsSpace(s[0]) {
      var t := s[1..];
      TrimLeftRemovesLeadingSpace(t);
      var r := TrimLeft(t);
      assert TrimLeft(s) == r;
      assert r == t[|t| - |r|..] == s[|s| - |r|..];
      forall i | 0 <= i < |s| - |r|
        ensures IsSpace(s[i])
      {
        if i > 0 {
          assert s[i] == t[i - 1];
        }
      }
    }
  }

  /** TrimRight removes a suffix made only of white space, and what is left
      does not end with white space. */
  lemma {:induction false} TrimRightRemovesTrailingSpace(s: string)
    ensures var r := TrimRight(s);
            && |r| <= |s| && r == s[..|r|]
            && (forall i :: |r| <= i < |s| ==> IsSpace(s[i]))
            && (r == [] || !IsSpace(r[|r| - 1]))
  {
    if s != [] && IsSpace(s[|s| - 1]) {
      var t := s[..|s| - 1];
      TrimRightRemovesTrailingSpace(t);
      var r := TrimRight(t);
      assert TrimRight(s) == r;
      assert r == t[..|r|] == s[..|r|];
      forall i | |r| <= i < |s|
        ensures IsSpace(s[i])
      {
        if i < |s| - 1 {
          assert s[i] == t[i];
        }
      }
    }
  }

  /** The trimmed text is a contiguous part of `s` with only white space
      around it, and it neither starts nor ends with white space. */
  lemma TrimSpaceKeepsTheCore(s: string)
    ensures var r := TrimSpace(s);
            exists i, j :: 0 <= i <= j <= |s| && r == s[i..j] &&
              (forall k :: 0 <= k < i ==> IsSpace(s[k])) &&
              (forall k :: j <= k < |s| ==> IsSpace(s[k]))
    ensures var r := TrimSpace(s);
            r == [] || (!IsSpace(r[0]) && !IsSpace(r[|r| - 1]))
  {
    var l := TrimLeft(s);
    var r := TrimRight(l);
    TrimLeftRemovesLeadingSpace(s);
    TrimRightRemovesTrailingSpace(l);
    var i := |s| - |l|;
    assert r == s[i..i + |r|];
    assert forall k :: i + |r| <= k < |s| ==> s[k] == l[k - i];
  }

  /** Text that neither starts nor ends with white space is left alone. */
  lemma TrimSpaceOfTrimmed(s: string)
    requires s == [] || (!IsSpace(s[0]) && !IsSpace(s[|s| - 1]))
    ensures TrimSpace(s) == s
  {
  }

  /** Normalize: the trimmed text if it already starts with '[', otherwise the
      trimmed text wrapped in brackets. Either way the result is array text. */
  function Normalize(s: string): (r: string)
    ensures |r| > 0 && r[0] == '['
  {
    var t := TrimSpace(s);
    if |t| > 0 && t[0] == '[' then t else "[" + t + "]"
  }

  /** Normalizing twice is normalizing once. */
  lemma {:induction false} NormalizeIdempotent(s: string)
    ensures Normalize(Normalize(s)) == Normalize(s)
  {
    var r := Normalize(s);
    var t := TrimSpace(s);
    TrimSpaceKeepsTheCore(s);
    assert !IsSpace('[') && !IsSpace(']');
    assert !IsSpace(r[|r| - 1]) by {
      if r != t {
        assert r[|r| - 1] == ']';
      }
    }
    TrimSpaceOfTrimmed(r);
  }

  /** The trimmed text is returned as it is exactly when it starts with '[',
      and wrapped in brackets exactly when it does not. */
  lemma NormalizeWrapsUnlessArray(s: string)
    ensures var t := TrimSpace(s);
            (|t| > 0 && t[0] == '[') <==> Normalize(s) == t
    ensures var t := TrimSpace(s);
            !(|t| > 0 && t[0] == '[') <==> Normalize(s) == "[" + t + "]"
  {
  }

  /** Leading white space is dropped whatever follows it. */
  lemma {:induction false} TrimLeftSpaces(a: string, x: string)
    requires forall i :: 0 <= i < |a| ==> IsSpace(a[i])
    ensures TrimLeft(a + x) == TrimLeft(x)
  {
    if a == [] {
      assert a + x == x;
    } else {
      assert (a + x)[0] == a[0] && (a + x)[1..] == a[1..] + x;
      TrimLeftSpaces(a[1..], x);
    }
  }

  /** Trailing white space is dropped whatever precedes it. */
  lemma {:induction false} TrimRightSpaces(x: string, b: string)
    requires forall i :: 0 <= i < |b| ==> IsSpace(b[i])
    ensures TrimRight(x + b) == TrimRight(x)
  {
    if b == [] {
      assert x + b == x;
    } else {
      assert (x + b)[|x + b| - 1] == b[|b| - 1] && (x + b)[..|x + b| - 1] == x + b[..|b| - 1];
      TrimRightSpaces(x, b[..|b| - 1]);
    }
  }

  /** Surrounding white space does not change what Normalize gives for a text
      that neither starts nor ends with white space. */
  lemma NormalizeIgnoresPadding(a: string, x: string, b: string)
    requires forall i :: 0 <= i < |a| ==> IsSpace(a[i])
    requires forall i :: 0 <= i < |b| ==> IsSpace(b[i])
    requires x == [] || (!IsSpace(x[0]) && !IsSpace(x[|x| - 1]))
    ensures TrimSpace(a + x + b) == x
    ensures Normalize(a + x + b) == Normalize(x)
  {
    assert a + x + b == a + (x + b);
    TrimLeftSpaces(a, x + b);
    if x == [] {
      assert x + b == b + [];
      TrimLeftSpaces(b, []);
    } else {
      assert (x + b)[0] == x[0];
      assert TrimLeft(x + b) == x + b;
      TrimRightSpaces(x, b);
      assert TrimRight(x) == x;
    }
  }

  /** The cases the package's own examples name. */
  lemma NormalizeExamples()
    ensures Normalize("") == "[]"
    ensures Normalize("[]") == "[]"
    ensures Normalize("5") == "[5]"
    ensures Normalize("[1, 2, 3]") == "[1, 2, 3]"
  {
    TrimSpaceOfTrimmed("");
    TrimSpaceOfTrimmed("[]");
    TrimSpaceOfTrimmed("5");
    TrimSpaceOfTrimmed("[1, 2, 3]");
  }

  /** Surrounding white space is dropped before wrapping. */
  lemma NormalizeSpacedExamples()
    ensures Normalize("  5") == "[5]"
    ensures Normalize(" 5 ") == "[5]"
  {
    NormalizeExamples();
    assert "  5" == "  " + "5" + "";
    NormalizeIgnoresPadding("  ", "5", "");
    assert " 5 " == " " + "5" + " ";
    NormalizeIgnoresPadding(" ", "5", " ");
  }
}
