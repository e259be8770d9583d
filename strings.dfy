/** String helpers with the JavaScript meanings the dashboard relies on:
    `String.prototype.trim`, the `\s` class of regular expressions, ASCII
    `toLowerCase`, `includes`, `startsWith` and the decimal rendering of a
    non-negative integer in a template literal. */
module Strings {

  /** The characters JavaScript's `trim()` removes and `\s` matches:
      the WhiteSpace and LineTerminator code points of ECMAScript. */
  predicate IsWhitespace(c: char) {
    c == ' ' || c == '\t' || c == '\n' || c == '\r' || c == '\U{000B}' || c == '\U{000C}'
    || c == '\U{00A0}' || c == '\U{1680}' || ('\U{2000}' <= c <= '\U{200A}')
    || c == '\U{2028}' || c == '\U{2029}' || c == '\U{202F}' || c == '\U{205F}'
    || c == '\U{3000}' || c == '\U{FEFF}'
  }

  /** A string made only of whitespace (the empty string included):
      exactly the strings for which `s.trim() === ''`. */
  predicate IsBlank(s: string) {
    forall i :: 0 <= i < |s| ==> IsWhitespace(s[i])
  }

  /** Removes leading whitespace. */
  function TrimStart(s: string): (r: string)
    ensures |r| <= |s| && r == s[|s| - |r|..]
    ensures forall i :: 0 <= i < |s| - |r| ==> IsWhitespace(s[i])
    ensures r != [] ==> !IsWhitespace(r[0])
  {
    if s != [] && IsWhitespace(s[0]) then TrimStart(s[1..]) else s
  }

  /** Removes trailing whitespace. */
  function TrimEnd(s: string): (r: string)
    ensures |r| <= |s| && r == s[..|r|]
    ensures forall i :: |r| <= i < |s| ==> IsWhitespace(s[i])
    ensures r != [] ==> !IsWhitespace(r[|r| - 1])
  {
    if s != [] && IsWhitespace(s[|s| - 1]) then TrimEnd(s[..|s| - 1]) else s
  }

  /** JavaScript `s.trim()`: the part of `s` between a blank start and a
      blank end, which itself neither starts nor ends with whitespace. */
  function Trim(s: string): (r: string)
    ensures exists i :: BlankFramed(s, i, r)
    ensures r == [] <==> IsBlank(s)
    ensures r != [] ==> !IsWhitespace(r[0]) && !IsWhitespace(r[|r| - 1])
  {
    TrimFacts(s);
    TrimEnd(TrimStart(s))
  }

  lemma TrimFacts(s: string)
    ensures var r := TrimEnd(TrimStart(s));
      (exists i :: BlankFramed(s, i, r))
      && (r == [] <==> IsBlank(s))
      && (r != [] ==> !IsWhitespace(r[0]) && !IsWhitespace(r[|r| - 1]))
  {
    TrimBlank(s);
    TrimInfix(s);
  }

  /** `r` sits in `s` at position `i` with only whitespace before and after it. */
  predicate BlankFramed(s: string, i: int, r: string) {
    0 <= i <= |s| - |r| && r == s[i..i + |r|] && IsBlank(s[..i]) && IsBlank(s[i + |r|..])
  }

  /** Trimming cuts a blank start and a blank end. */
  lemma TrimInfix(s: string)
    ensures exists i :: BlankFramed(s, i, TrimEnd(TrimStart(s)))
  {
    var t := TrimStart(s);
    var r := TrimEnd(t);
    var k := |s| - |t|;
    assert r == t[..|r|];
    assert IsBlank(s[..k]) by {
      forall m | 0 <= m < k ensures IsWhitespace(s[..k][m]) {
        assert s[..k][m] == s[m];
      }
    }
    var tail := s[k + |r|..];
    assert IsBlank(tail) by {
      forall m | 0 <= m < |tail| ensures IsWhitespace(tail[m]) {
        assert tail[m] == t[|r| + m];
      }
    }
    assert BlankFramed(s, k, r);
  }

  lemma TrimBlank(s: string)
    ensures TrimEnd(TrimStart(s)) == [] <==> IsBlank(s)
  {
    if IsBlank(s) {
      TrimStartOfBlank(s);
    } else {
      NonBlankSurvivesTrimStart(s);
    }
  }

  lemma NonBlankSurvivesTrimStart(s: string)
    requires !IsBlank(s)
    ensures !IsBlank(TrimStart(s))
  {
    var t := TrimStart(s);
    var i :| 0 <= i < |s| && !IsWhitespace(s[i]);
    var k := |s| - |t|;
    assert i >= k;
    assert t[i - k] == s[i];
  }

  lemma {:induction false} TrimStartOfBlank(s: string)
    requires IsBlank(s)
    ensures TrimStart(s) == []
  {
    if s != [] {
      TrimStartOfBlank(s[1..]);
    }
  }

  /** Trimming the start drops exactly the leading run of whitespace. */
  lemma {:induction false} TrimStartSkips(s: string, k: nat)
    requires k <= |s| && IsBlank(s[..k]) && (k == |s| || !IsWhitespace(s[k]))
    ensures TrimStart(s) == s[k..]
    decreases k
  {
    if k > 0 {
      assert IsWhitespace(s[..k][0]);
      var t := s[1..][..k - 1];
      assert IsBlank(t) by {
        forall i | 0 <= i < k - 1 ensures IsWhitespace(t[i]) {
          assert t[i] == s[..k][i + 1];
        }
      }
      TrimStartSkips(s[1..], k - 1);
      assert s[1..][k - 1..] == s[k..];
    }
  }

  /** Trimming twice is trimming once. */
  lemma TrimIdempotent(s: string)
    ensures Trim(Trim(s)) == Trim(s)
  {
    var r := Trim(s);
    if r != [] {
      assert TrimStart(r) == r;
      assert TrimEnd(r) == r;
    }
  }

  /** A string that neither starts nor ends with whitespace is its own trim. */
  lemma TrimOfTrimmed(s: string)
    requires s != [] && !IsWhitespace(s[0]) && !IsWhitespace(s[|s| - 1])
    ensures Trim(s) == s
  {
    assert TrimStart(s) == s;
    assert TrimEnd(s) == s;
  }

  /** ASCII lower-casing of one character. */
  function LowerChar(c: char): (d: char)
    ensures 'A' <= c <= 'Z' ==> d as int == c as int + 32
    ensures !('A' <= c <= 'Z') ==> d == c
  {
    if 'A' <= c <= 'Z' then (c as int + 32) as char else c
  }

  /** `s.toLowerCase()`, restricted to the ASCII letters. */
  function ToLower(s: string): (r: string)
    ensures |r| == |s| && forall i :: 0 <= i < |s| ==> r[i] == LowerChar(s[i])
  {
    seq(|s|, i requires 0 <= i < |s| => LowerChar(s[i]))
  }

  /** `s.startsWith(p)`. */
  predicate StartsWith(s: string, p: string) {
    |p| <= |s| && s[..|p|] == p
  }

  /** `s.includes(sub)`: `sub` occurs in `s` at some position. */
  predicate Contains(s: string, sub: string)
    decreases |s|
  {
    StartsWith(s, sub) || (s != [] && Contains(s[1..], sub))
  }

  predicate IsDigit(c: char) {
    '0' <= c <= '9'
  }

  function DigitChar(d: nat): (c: char)
    requires d < 10
    ensures IsDigit(c) && c as int - '0' as int == d
  {
    ('0' as int + d) as char
  }

  /** The decimal rendering of `n`, as `${n}` gives it. */
  function NatToString(n: nat): (r: string)
    ensures |r| >= 1 && forall i :: 0 <= i < |r| ==> IsDigit(r[i])
    ensures (n < 10) == (|r| == 1)
    decreases n
  {
    if n < 10 then [DigitChar(n)] else NatToString(n / 10) + [DigitChar(n % 10)]
  }

  /** Distinct numbers have distinct decimal renderings. */
  lemma {:induction false} NatToStringInjective(a: nat, b: nat)
    requires NatToString(a) == NatToString(b)
    ensures a == b
    decreases a
  {
    var sa, sb := NatToString(a), NatToString(b);
    if a >= 10 && b >= 10 {
      assert sa[..|sa| - 1] == NatToString(a / 10);
      assert sb[..|sb| - 1] == NatToString(b / 10);
      NatToStringInjective(a / 10, b / 10);
      assert sa[|sa| - 1] == DigitChar(a % 10);
      assert sb[|sb| - 1] == DigitChar(b % 10);
    } else {
      assert sa[0] == DigitChar(a % 10) || a >= 10;
    }
  }

  /** A string free of the character `c`. */
  predicate Free(s: string, c: char) {
    forall i :: 0 <= i < |s| ==> s[i] != c
  }

  /** The position of the first `c` in `s`, or `|s|` when there is none. */
  function IndexOf(s: string, c: char): (i: nat)
    ensures i <= |s| && Free(s[..i], c)
    ensures i < |s| ==> s[i] == c
  {
    if s == [] then 0
    else if s[0] == c then 0
    else
      var j := IndexOf(s[1..], c);
      assert s[..j + 1] == [s[0]] + s[1..][..j];
      j + 1
  }

  /** In `a + [c] + x` with `a` free of `c`, the first `c` follows `a`. */
  lemma {:induction false} IndexPastFree(a: string, c: char, x: string)
    requires Free(a, c)
    ensures IndexOf(a + [c] + x, c) == |a|
    decreases |a|
  {
    var s := a + [c] + x;
    if a != [] {
      assert s[0] == a[0];
      assert s[1..] == a[1..] + [c] + x;
      IndexPastFree(a[1..], c, x);
    }
  }
}
