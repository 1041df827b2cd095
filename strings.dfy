/**
 * The three pieces of Python's `str` that the client and the front end rely on:
 * `str(int)` (the VERSION header and error messages), `str.replace` (the boolean
 * body fix) and `str.split()` with no argument (command parsing).
 */
module Strings {

  // ---------------------------------------------------------------------------
  // str(int) and its inverse

  predicate IsDigit(c: char)
  {
    '0' <= c <= '9'
  }

  predicate AllDigits(s: string)
  {
    forall i :: 0 <= i < |s| ==> IsDigit(s[i])
  }

  function DigitChar(d: nat): (c: char)
    requires d < 10
    ensures IsDigit(c)
  {
    "0123456789"[d]
  }

  function DigitValue(c: char): (d: nat)
    requires IsDigit(c)
    ensures d < 10
  {
    (c as int - '0' as int) as nat
  }

  /** Decimal digits of `n`, most significant first, without leading zeros. */
  function NatToString(n: nat): (s: string)
    ensures |s| >= 1 && AllDigits(s)
    ensures |s| > 1 ==> s[0] != '0'
    decreases n
  {
    if n < 10 then [DigitChar(n)] else NatToString(n / 10) + [DigitChar(n % 10)]
  }

  /** `str(i)` for a Python int. */
  function IntToString(i: int): (s: string)
    ensures |s| >= 1
    ensures s[0] == '-' <==> i < 0
    ensures s[0] == '-' ==> AllDigits(s[1..])
    ensures s[0] != '-' ==> AllDigits(s)
  {
    if i < 0 then
      var digits := NatToString(-i);
      assert ("-" + digits)[1..] == digits;
      "-" + digits
    else NatToString(i)
  }

  function ParseNat(s: string): nat
    requires AllDigits(s)
    decreases |s|
  {
    if s == [] then 0 else ParseNat(s[..|s| - 1]) * 10 + DigitValue(s[|s| - 1])
  }

  /** `int(s)` on the strings `IntToString` produces. */
  function ParseInt(s: string): int
    requires |s| >= 1
    requires s[0] == '-' ==> AllDigits(s[1..])
    requires s[0] != '-' ==> AllDigits(s)
  {
    if s[0] == '-' then -(ParseNat(s[1..]) as int) else ParseNat(s)
  }

  lemma {:induction false} NatToStringRoundTrip(n: nat)
    ensures ParseNat(NatToString(n)) == n
    decreases n
  {
    var s := NatToString(n);
    if n >= 10 {
      NatToStringRoundTrip(n / 10);
      assert s[..|s| - 1] == NatToString(n / 10);
      assert DigitValue(DigitChar(n % 10)) == n % 10;
    } else {
      assert DigitValue(DigitChar(n)) == n;
      assert s[..0] == [];
    }
  }

  /** `int(str(i)) == i`: the decimal text names exactly one integer. */
  lemma IntToStringRoundTrip(i: int)
    ensures ParseInt(IntToString(i)) == i
  {
    if i < 0 {
      var digits := NatToString(-i);
      assert IntToString(i) == "-" + digits;
      assert ("-" + digits)[1..] == digits;
      NatToStringRoundTrip(-i);
    } else {
      NatToStringRoundTrip(i);
    }
  }

  /** Distinct integers have distinct decimal text. */
  lemma IntToStringInjective(i: int, j: int)
    requires IntToString(i) == IntToString(j)
    ensures i == j
  {
    IntToStringRoundTrip(i);
    IntToStringRoundTrip(j);
  }

  // ---------------------------------------------------------------------------
  // str.replace

  predicate StartsWith(s: string, p: string)
  {
    |p| <= |s| && s[..|p|] == p
  }

  /** `p` sits in `s` at index `i`. */
  predicate OccursAt(s: string, p: string, i: int)
  {
    0 <= i && i + |p| <= |s| && s[i..i + |p|] == p
  }

  /** `p in s` is false. */
  ghost predicate Free(s: string, p: string)
  {
    forall i :: !OccursAt(s, p, i)
  }

  /**
   * `s.replace(pat, rep)`: scanning left to right, every non-overlapping
   * occurrence of `pat` is replaced by `rep`; everything else is copied.
   */
  function Replace(s: string, pat: string, rep: string): (r: string)
    requires pat != []
    ensures |rep| >= |pat| ==> |r| >= |s|
    decreases |s|
  {
    if |s| < |pat| then s
    else if s[..|pat|] == pat then rep + Replace(s[|pat|..], pat, rep)
    else [s[0]] + Replace(s[1..], pat, rep)
  }

  lemma FreeSuffix(s: string, p: string, k: nat)
    requires k <= |s| && Free(s, p)
    ensures Free(s[k..], p)
  {
    forall i
      ensures !OccursAt(s[k..], p, i)
    {
      assert !OccursAt(s, p, k + i);
    }
  }

  /** Text in which `pat` does not occur comes back unchanged. */
  lemma {:induction false} ReplaceAbsent(s: string, pat: string, rep: string)
    requires pat != [] && Free(s, pat)
    ensures Replace(s, pat, rep) == s
    decreases |s|
  {
    if |s| >= |pat| {
      assert !OccursAt(s, pat, 0);
      FreeSuffix(s, pat, 1);
      ReplaceAbsent(s[1..], pat, rep);
      assert [s[0]] + s[1..] == s;
    }
  }

  /** `s` starts with `p` when their first characters agree and the rests do. */
  lemma StartsWithCons(s: string, p: string)
    requires s != [] && p != [] && s[0] == p[0] && StartsWith(s[1..], p[1..])
    ensures StartsWith(s, p) && OccursAt(s, p, 0)
  {
    assert s[..|p|] == [s[0]] + s[1..][..|p| - 1];
  }

  /**
   * A prefix `w` of the output that does not contain the first character of
   * `pat` (which is also the first character of `rep`) was already a prefix of
   * the input: replacing never manufactures such text.
   */
  lemma {:induction false} ReplaceKeepsPrefix(t: string, pat: string, rep: string, w: string)
    requires pat != [] && rep != [] && rep[0] == pat[0]
    requires forall k :: 0 <= k < |w| ==> w[k] != pat[0]
    requires StartsWith(Replace(t, pat, rep), w)
    ensures StartsWith(t, w)
    decreases |t|
  {
    var out := Replace(t, pat, rep);
    if w != [] && |t| >= |pat| {
      assert out[0] == out[..|w|][0] == w[0];
      if t[..|pat|] != pat {
        var r := Replace(t[1..], pat, rep);
        assert out == [t[0]] + r;
        assert r[..|w| - 1] == out[1..|w|] == w[1..];
        ReplaceKeepsPrefix(t[1..], pat, rep, w[1..]);
        StartsWithCons(t, w);
      }
    }
  }

  /** `rep` cannot take part in an occurrence of `p` placed in front of text free of `p`. */
  lemma FreeAfterReplacement(rep: string, r: string, p: string)
    requires p != [] && |p| <= |rep| && rep[..|p|] != p
    requires forall k :: 0 < k < |rep| ==> rep[k] != p[0]
    requires Free(r, p)
    ensures Free(rep + r, p)
  {
    var out := rep + r;
    forall i
      ensures !OccursAt(out, p, i)
    {
      if 0 <= i && i + |p| <= |out| {
        if i == 0 {
          assert out[..|p|] == rep[..|p|];
        } else if i < |rep| {
          assert out[i..i + |p|][0] == rep[i];
        } else {
          assert out[i..i + |p|] == r[i - |rep|..i - |rep| + |p|];
          assert !OccursAt(r, p, i - |rep|);
        }
      }
    }
  }

  /** One character in front of text free of `p` starts an occurrence only if it begins one. */
  lemma FreeAfterCharacter(c: char, r: string, p: string)
    requires p != [] && Free(r, p)
    requires !(c == p[0] && StartsWith(r, p[1..]))
    ensures Free([c] + r, p)
  {
    var out := [c] + r;
    forall i
      ensures !OccursAt(out, p, i)
    {
      if 0 < i && i + |p| <= |out| {
        assert out[i..i + |p|] == r[i - 1..i - 1 + |p|];
        assert !OccursAt(r, p, i - 1);
      } else if i == 0 && |p| <= |out| {
        assert out[..|p|] == [c] + r[..|p| - 1];
      }
    }
  }

  /**
   * After replacing `pat` by `rep`, the pattern `p` does not occur in the
   * output, provided `p` is `pat` itself or was already absent, and `rep`
   * cannot take part in an occurrence of `p`: `p`, `pat` and `rep` start with
   * the same character, that character appears nowhere else in `p` or `rep`,
   * and `rep` does not start with `p`.
   */
  lemma {:induction false} ReplaceLeavesNoOccurrence(s: string, pat: string, rep: string, p: string)
    requires pat != [] && p != [] && |p| <= |rep|
    requires p[0] == pat[0] && rep[0] == p[0]
    requires forall k :: 0 < k < |p| ==> p[k] != p[0]
    requires forall k :: 0 < k < |rep| ==> rep[k] != p[0]
    requires rep[..|p|] != p
    requires p == pat || Free(s, p)
    ensures Free(Replace(s, pat, rep), p)
    decreases |s|
  {
    if |s| < |pat| {
      forall i
        ensures !OccursAt(s, p, i)
      {
        assert p != pat ==> !OccursAt(s, p, i);
      }
    } else if s[..|pat|] == pat {
      var rest := s[|pat|..];
      if p != pat {
        FreeSuffix(s, p, |pat|);
      }
      ReplaceLeavesNoOccurrence(rest, pat, rep, p);
      FreeAfterReplacement(rep, Replace(rest, pat, rep), p);
    } else {
      var rest := s[1..];
      if p != pat {
        FreeSuffix(s, p, 1);
      }
      ReplaceLeavesNoOccurrence(rest, pat, rep, p);
      var r := Replace(rest, pat, rep);
      if s[0] == p[0] && StartsWith(r, p[1..]) {
        ReplaceKeepsPrefix(rest, pat, rep, p[1..]);
        StartsWithCons(s, p);
      }
      FreeAfterCharacter(s[0], r, p);
    }
  }

  // ---------------------------------------------------------------------------
  // str.split() with no argument

  /** `c.isspace()` for Python 3 strings. */
  predicate IsSpace(c: char)
  {
    c == ' ' || ('\t' <= c <= '\r') || ('\U{1C}' <= c <= '\U{1F}') || c == '\U{85}' ||
    c == '\U{A0}' || c == '\U{1680}' || ('\U{2000}' <= c <= '\U{200A}') ||
    c == '\U{2028}' || c == '\U{2029}' || c == '\U{202F}' || c == '\U{205F}' || c == '\U{3000}'
  }

  predicate AllSpace(s: string)
  {
    forall i :: 0 <= i < |s| ==> IsSpace(s[i])
  }

  predicate NoSpace(s: string)
  {
    forall i :: 0 <= i < |s| ==> !IsSpace(s[i])
  }

  /** Length of the run of non-whitespace characters at the front of `s`. */
  function WordLength(s: string): (n: nat)
    ensures n <= |s| && NoSpace(s[..n])
    ensures n == |s| || IsSpace(s[n])
    ensures s != [] && !IsSpace(s[0]) ==> n > 0
    decreases |s|
  {
    if s == [] || IsSpace(s[0]) then 0
    else
      var n := 1 + WordLength(s[1..]);
      assert s[..n] == [s[0]] + s[1..][..n - 1];
      n
  }

  /** `s.split()`: the maximal runs of non-whitespace characters, in order. */
  function Split(s: string): seq<string>
    decreases |s|
  {
    if s == [] then []
    else if IsSpace(s[0]) then Split(s[1..])
    else
      var n := WordLength(s);
      [s[..n]] + Split(s[n..])
  }

  /** The characters of `s` that are not whitespace, in order. */
  function WithoutSpace(s: string): string
    decreases |s|
  {
    if s == [] then []
    else if IsSpace(s[0]) then WithoutSpace(s[1..])
    else [s[0]] + WithoutSpace(s[1..])
  }

  function Concat(words: seq<string>): string
  {
    if words == [] then [] else words[0] + Concat(words[1..])
  }

  /** Every token `split` returns is non-empty and free of whitespace. */
  lemma {:induction false} SplitTokensAreWords(s: string)
    ensures forall k :: 0 <= k < |Split(s)| ==> Split(s)[k] != [] && NoSpace(Split(s)[k])
    decreases |s|
  {
    if s == [] {
    } else if IsSpace(s[0]) {
      SplitTokensAreWords(s[1..]);
    } else {
      var n := WordLength(s);
      SplitTokensAreWords(s[n..]);
      assert Split(s) == [s[..n]] + Split(s[n..]);
    }
  }

  lemma {:induction false} WithoutSpaceOfWord(s: string)
    requires NoSpace(s)
    ensures WithoutSpace(s) == s
    decreases |s|
  {
    if s != [] {
      WithoutSpaceOfWord(s[1..]);
    }
  }

  lemma {:induction false} WithoutSpaceAppend(a: string, b: string)
    ensures WithoutSpace(a + b) == WithoutSpace(a) + WithoutSpace(b)
    decreases |a|
  {
    if a == [] {
      assert a + b == b;
    } else {
      assert (a + b)[0] == a[0];
      assert (a + b)[1..] == a[1..] + b;
      WithoutSpaceAppend(a[1..], b);
      if !IsSpace(a[0]) {
        assert WithoutSpace(a + b) == [a[0]] + (WithoutSpace(a[1..]) + WithoutSpace(b));
      }
    }
  }

  /** Splitting drops exactly the whitespace: gluing the tokens back gives the other characters. */
  lemma {:induction false} SplitKeepsEveryOtherCharacter(s: string)
    ensures Concat(Split(s)) == WithoutSpace(s)
    decreases |s|
  {
    if s == [] {
    } else if IsSpace(s[0]) {
      SplitKeepsEveryOtherCharacter(s[1..]);
    } else {
      var n := WordLength(s);
      SplitKeepsEveryOtherCharacter(s[n..]);
      assert Split(s) == [s[..n]] + Split(s[n..]);
      assert Concat(Split(s)) == s[..n] + Concat(Split(s[n..]));
      assert s == s[..n] + s[n..];
      WithoutSpaceAppend(s[..n], s[n..]);
      WithoutSpaceOfWord(s[..n]);
    }
  }

  /** `s.split()` is empty exactly when `s` holds only whitespace. */
  lemma {:induction false} SplitEmptyIffBlank(s: string)
    ensures Split(s) == [] <==> AllSpace(s)
    decreases |s|
  {
    if s != [] {
      SplitEmptyIffBlank(s[1..]);
      if IsSpace(s[0]) {
        assert AllSpace(s) <==> AllSpace(s[1..]);
      } else {
        assert !AllSpace(s);
      }
    }
  }
}
