/**
  Python's str.splitlines() and '\n'.join(...), which decode_issue combines to give
  every text value of an issue a single line-break convention.
 */
module Lines {

  /** The characters str.splitlines() treats as line boundaries; "\r\n" counts as one. */
  predicate IsLineBreak(c: char) {
    || c == '\n' || c == '\r'
    || c == '\U{B}' || c == '\U{C}'
    || c == '\U{1C}' || c == '\U{1D}' || c == '\U{1E}'
    || c == '\U{85}' || c == '\U{2028}' || c == '\U{2029}'
  }

  predicate NoBreaks(s: string) {
    forall i :: 0 <= i < |s| ==> !IsLineBreak(s[i])
  }

  /** The only line boundary that occurs in s is '\n'. */
  predicate NewlinesOnly(s: string) {
    forall i :: 0 <= i < |s| ==> IsLineBreak(s[i]) ==> s[i] == '\n'
  }

  /** Index of the first line boundary in s, or |s| when there is none. */
  function FirstBreak(s: string): (i: nat)
    ensures i <= |s|
    ensures forall k :: 0 <= k < i ==> !IsLineBreak(s[k])
    ensures i < |s| ==> IsLineBreak(s[i])
  {
    if s == [] then 0
    else if IsLineBreak(s[0]) then 0
    else 1 + FirstBreak(s[1..])
  }

  /** Number of characters of the line boundary at s[i]: two for "\r\n", else one. */
  function BreakLength(s: string, i: nat): (n: nat)
    requires i < |s| && IsLineBreak(s[i])
    ensures 1 <= n <= 2 && i + n <= |s|
    ensures n == 2 <==> s[i] == '\r' && i + 1 < |s| && s[i + 1] == '\n'
  {
    if s[i] == '\r' && i + 1 < |s| && s[i + 1] == '\n' then 2 else 1
  }

  /**
    str.splitlines(): the text between consecutive line boundaries. A boundary at
    the very end does not start another (empty) line, and "" has no lines at all.
   */
  function SplitLines(s: string): (lines: seq<string>)
    ensures forall k :: 0 <= k < |lines| ==> NoBreaks(lines[k])
    ensures lines == [] <==> s == []
    decreases |s|
  {
    if s == [] then []
    else
      var i := FirstBreak(s);
      if i == |s| then [s]
      else [s[..i]] + SplitLines(s[i + BreakLength(s, i)..])
  }

  /** '\n'.join(lines). */
  function JoinLines(lines: seq<string>): string
  {
    if lines == [] then ""
    else if |lines| == 1 then lines[0]
    else lines[0] + "\n" + JoinLines(lines[1..])
  }

  /** '\n'.join(s.splitlines()): the normalisation decode_issue applies to text. */
  function UniversalNewlines(s: string): (r: string)
    ensures NewlinesOnly(r)
    ensures r == DropFinalNewline(Normalize(s))
  {
    UniversalNewlinesDropsFinalBreak(s);
    JoinLines(SplitLines(s))
  }

  /**
    An independent description of the same normalisation: every line boundary
    replaced by one '\n' ("\r\n" by a single one), all other characters kept.
   */
  function Normalize(s: string): (r: string)
    ensures NewlinesOnly(r)
    ensures r == [] <==> s == []
    decreases |s|
  {
    if s == [] then ""
    else if IsLineBreak(s[0]) then "\n" + Normalize(s[BreakLength(s, 0)..])
    else [s[0]] + Normalize(s[1..])
  }

  function DropFinalNewline(s: string): string {
    if s != [] && s[|s| - 1] == '\n' then s[..|s| - 1] else s
  }

  /** s.split('\n'): the pieces between '\n' characters; there is always at least one. */
  function SplitAtNewlines(s: string): (parts: seq<string>)
    ensures |parts| >= 1
    decreases |s|
  {
    var i := FirstNewline(s);
    if i == |s| then [s] else [s[..i]] + SplitAtNewlines(s[i + 1..])
  }

  /** Index of the first '\n' in s, or |s| when there is none. */
  function FirstNewline(s: string): (i: nat)
    ensures i <= |s|
    ensures forall k :: 0 <= k < i ==> s[k] != '\n'
    ensures i < |s| ==> s[i] == '\n'
  {
    if s == [] then 0
    else if s[0] == '\n' then 0
    else 1 + FirstNewline(s[1..])
  }

  // ---------------------------------------------------------------------------
  // Lemmas
  // ---------------------------------------------------------------------------

  /** Text without line boundaries passes through Normalize unchanged. */
  lemma {:induction false} NormalizePrefix(a: string, b: string)
    requires NoBreaks(a)
    ensures Normalize(a + b) == a + Normalize(b)
    decreases |a|
  {
    if a != [] {
      assert !IsLineBreak(a[0]);
      assert (a + b)[0] == a[0];
      assert (a + b)[1..] == a[1..] + b;
      assert NoBreaks(a[1..]) by {
        forall k | 0 <= k < |a[1..]| ensures !IsLineBreak(a[1..][k]) {
          assert a[1..][k] == a[k + 1];
        }
      }
      NormalizePrefix(a[1..], b);
      assert Normalize(a + b) == [a[0]] + Normalize(a[1..] + b);
      assert a == [a[0]] + a[1..];
    } else {
      assert a + b == b;
    }
  }

  /** Normalize at the first boundary of s: the line, one '\n', and the rest. */
  lemma NormalizeAtBreak(s: string, i: nat)
    requires i < |s| && i == FirstBreak(s)
    ensures Normalize(s) == s[..i] + "\n" + Normalize(s[i + BreakLength(s, i)..])
  {
    var a := s[..i];
    var t := s[i..];
    assert s == a + t;
    assert NoBreaks(a) by {
      forall k | 0 <= k < |a| ensures !IsLineBreak(a[k]) {
        assert a[k] == s[k];
      }
    }
    assert t[0] == s[i];
    assert BreakLength(s, i) == BreakLength(t, 0) by {
      assert i + 1 < |s| ==> t[1] == s[i + 1];
    }
    assert t[BreakLength(t, 0)..] == s[i + BreakLength(s, i)..];
    NormalizeLineThenBreak(a, t);
  }

  lemma NormalizeLineThenBreak(a: string, t: string)
    requires NoBreaks(a) && t != [] && IsLineBreak(t[0])
    ensures Normalize(a + t) == a + "\n" + Normalize(t[BreakLength(t, 0)..])
  {
    var m := t[BreakLength(t, 0)..];
    var rest := Normalize(m);
    assert a + ("\n" + rest) == a + "\n" + rest;
    NormalizePrefix(a, t);
    NormalizeBreakFirst(t, BreakLength(t, 0));
  }

  lemma NormalizeBreakFirst(t: string, n: nat)
    requires t != [] && IsLineBreak(t[0]) && n == BreakLength(t, 0)
    ensures Normalize(t) == "\n" + Normalize(t[n..])
  {
  }

  lemma DropFinalNewlineAfter(x: string, y: string)
    requires y != []
    ensures DropFinalNewline(x + "\n" + y) == x + "\n" + DropFinalNewline(y)
  {
    var z := x + "\n" + y;
    assert z[|z| - 1] == y[|y| - 1];
    if y[|y| - 1] == '\n' {
      assert z[..|z| - 1] == x + "\n" + y[..|y| - 1];
    }
  }

  /**
    '\n'.join(s.splitlines()) is Normalize(s) without its final '\n': the final
    boundary of s, if any, is dropped and every other boundary becomes '\n'.
   */
  lemma {:induction false} UniversalNewlinesDropsFinalBreak(s: string)
    ensures JoinLines(SplitLines(s)) == DropFinalNewline(Normalize(s))
    decreases |s|
  {
    if s != [] {
      var i := FirstBreak(s);
      if i == |s| {
        assert NoBreaks(s);
        NormalizePrefix(s, []);
        assert s + [] == s;
        assert !IsLineBreak(s[|s| - 1]);
      } else {
        var rest := s[i + BreakLength(s, i)..];
        NormalizeAtBreak(s, i);
        UniversalNewlinesDropsFinalBreak(rest);
        var lines := [s[..i]] + SplitLines(rest);
        assert SplitLines(s) == lines;
        if rest == [] {
          assert lines == [s[..i]];
          assert (s[..i] + "\n")[..i] == s[..i];
        } else {
          assert lines[1..] == SplitLines(rest);
          assert JoinLines(lines) == s[..i] + "\n" + JoinLines(SplitLines(rest));
          DropFinalNewlineAfter(s[..i], Normalize(rest));
        }
      }
    }
  }

  /** Normalize leaves text whose only boundary is '\n' as it is. */
  lemma {:induction false} NormalizeNewlinesOnly(s: string)
    requires NewlinesOnly(s)
    ensures Normalize(s) == s
    decreases |s|
  {
    if s != [] {
      assert NewlinesOnly(s[1..]) by {
        forall k | 0 <= k < |s[1..]| ensures IsLineBreak(s[1..][k]) ==> s[1..][k] == '\n' {
          assert s[1..][k] == s[k + 1];
        }
      }
      NormalizeNewlinesOnly(s[1..]);
      assert s == [s[0]] + s[1..];
    }
  }

  /**
    The normalisation changes nothing exactly when the text already uses only '\n'
    and does not end with one. Text that ends in '\n' loses that '\n', which is why
    the normalisation is not idempotent.
   */
  lemma UniversalNewlinesFixedPoint(s: string)
    ensures UniversalNewlines(s) == s <==> NewlinesOnly(s) && (s == [] || s[|s| - 1] != '\n')
  {
    if NewlinesOnly(s) {
      NormalizeNewlinesOnly(s);
    }
  }

  /** The example "a\r\nb\rc\n" normalises to "a\nb\nc": the final break is dropped. */
  lemma UniversalNewlinesExample(s: string)
    requires s == "a\r\nb\rc\n"
    ensures UniversalNewlines(s) == "a\nb\nc"
  {
    assert Normalize(s[7..]) == "";
    assert Normalize(s[6..]) == "\n";
    assert Normalize(s[5..]) == "c\n";
    assert Normalize(s[4..]) == "\nc\n";
    assert Normalize(s[3..]) == "b\nc\n";
    assert BreakLength(s[1..], 0) == 2;
    assert Normalize(s[1..]) == "\nb\nc\n";
    assert Normalize(s) == "a\nb\nc\n";
  }

  /** Applying the normalisation twice can differ from applying it once. */
  lemma UniversalNewlinesNotIdempotent()
    ensures UniversalNewlines("a\n\n") == "a\n"
    ensures UniversalNewlines(UniversalNewlines("a\n\n")) == "a"
  {
    var s := "a\n\n";
    assert Normalize(s[2..]) == "\n";
    assert Normalize(s[1..]) == "\n\n";
    assert Normalize(s) == s;
    var t := "a\n";
    assert Normalize(t[1..]) == "\n";
    assert Normalize(t) == t;
  }

  /** The first '\n' of a + "\n" + rest is the one after a, when a has none. */
  lemma {:induction false} FirstNewlineAfter(a: string, rest: string)
    requires '\n' !in a
    ensures FirstNewline(a + "\n" + rest) == |a|
    decreases |a|
  {
    var j := a + "\n" + rest;
    if a == [] {
      assert j[0] == '\n';
    } else {
      assert j[0] == a[0] && a[0] != '\n';
      assert j[1..] == a[1..] + "\n" + rest;
      assert '\n' !in a[1..] by {
        assert forall k :: 0 <= k < |a[1..]| ==> a[1..][k] == a[k + 1];
      }
      FirstNewlineAfter(a[1..], rest);
    }
  }

  /** Splitting a '\n'-join at '\n' gives back the lines, when no line holds a '\n'. */
  lemma {:induction false} SplitJoinRoundTrip(lines: seq<string>)
    requires lines != []
    requires forall k :: 0 <= k < |lines| ==> '\n' !in lines[k]
    ensures SplitAtNewlines(JoinLines(lines)) == lines
    decreases |lines|
  {
    var a := lines[0];
    if |lines| == 1 {
      assert '\n' !in a;
      assert FirstNewline(a) == |a|;
    } else {
      var rest := JoinLines(lines[1..]);
      var j := a + "\n" + rest;
      assert JoinLines(lines) == j;
      FirstNewlineAfter(a, rest);
      assert j[..|a|] == a;
      assert j[|a| + 1..] == rest;
      SplitJoinRoundTrip(lines[1..]);
      assert lines == [a] + lines[1..];
    }
  }

  /**
    For non-empty s, the lines of the normalised text (split at '\n') are exactly
    s.splitlines().
   */
  lemma LinesOfUniversalNewlines(s: string)
    requires s != []
    ensures SplitAtNewlines(UniversalNewlines(s)) == SplitLines(s)
  {
    var lines := SplitLines(s);
    assert forall k :: 0 <= k < |lines| ==> '\n' !in lines[k];
    SplitJoinRoundTrip(lines);
  }
}
