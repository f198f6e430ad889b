/**
 * The few string primitives of the JavaScript runtime that the lyric wizard
 * relies on: `String.prototype.trim` and its truthiness test, `includes`,
 * and the decimal rendering of a number inside a template literal.
 */
module Text {

  /** The whitespace characters `trim` strips (ECMAScript WhiteSpace and
      LineTerminator, restricted to the code points listed here). */
  predicate IsSpace(c: char) {
    c == ' ' || c == '\t' || c == '\n' || c == '\r' || c == '\U{000B}' || c == '\U{000C}'
    || c == '\U{00A0}' || c == '\U{2028}' || c == '\U{2029}' || c == '\U{3000}' || c == '\U{FEFF}'
  }

  /** `s.trim()` is the empty string, i.e. `s.trim()` is falsy. */
  predicate IsBlank(s: string) {
    forall i :: 0 <= i < |s| ==> IsSpace(s[i])
  }

  /** Drops leading whitespace. */
  function TrimStart(s: string): (r: string)
    ensures |r| <= |s| && r == s[|s| - |r|..]
    ensures IsBlank(s[..|s| - |r|])
    ensures r == [] || !IsSpace(r[0])
  {
    if |s| > 0 && IsSpace(s[0]) then
      var r := TrimStart(s[1..]);
      DropTwice(s, |s| - 1 - |r|);
      BlankCons(s, |s| - |r|);
      r
    else
      assert s[..0] == [];
      s
  }

  /** Drops trailing whitespace. */
  function TrimEnd(s: string): (r: string)
    ensures |r| <= |s| && r == s[..|r|]
    ensures IsBlank(s[|r|..])
    ensures r == [] || !IsSpace(r[|r| - 1])
  {
    if |s| > 0 && IsSpace(s[|s| - 1]) then
      var r := TrimEnd(s[..|s| - 1]);
      TakeTwice(s, |r|);
      BlankSnoc(s, |r|);
      r
    else
      assert s[|s|..] == [];
      s
  }

  /** A blank prefix of the tail, after one leading space, is a blank prefix. */
  lemma BlankCons(s: string, n: nat)
    requires 0 < n <= |s| && IsSpace(s[0]) && IsBlank(s[1..][..n - 1])
    ensures IsBlank(s[..n])
  {
    forall i | 0 <= i < n ensures IsSpace(s[..n][i]) {
      if i > 0 { assert s[..n][i] == s[1..][..n - 1][i - 1]; }
    }
  }

  /** A blank suffix of the front, followed by one trailing space, is a blank suffix. */
  lemma BlankSnoc(s: string, n: nat)
    requires n < |s| && IsSpace(s[|s| - 1]) && IsBlank(s[..|s| - 1][n..])
    ensures IsBlank(s[n..])
  {
    forall i | 0 <= i < |s| - n ensures IsSpace(s[n..][i]) {
      if i < |s| - 1 - n { assert s[n..][i] == s[..|s| - 1][n..][i]; }
    }
  }

  lemma DropTwice<T>(s: seq<T>, k: nat)
    requires 0 < |s| && k <= |s| - 1
    ensures s[1..][k..] == s[1 + k..]
  {
  }

  lemma TakeTwice<T>(s: seq<T>, k: nat)
    requires k < |s|
    ensures s[..|s| - 1][..k] == s[..k]
  {
  }

  /** A string whose head and rest are both blank is blank. */
  lemma BlankSplit(s: string, k: nat)
    requires k <= |s| && IsBlank(s[..k]) && IsBlank(s[k..])
    ensures IsBlank(s)
  {
    forall i | 0 <= i < |s| ensures IsSpace(s[i]) {
      if i < k { assert s[..k][i] == s[i]; } else { assert s[k..][i - k] == s[i]; }
    }
  }

  /** `s.trim()`: the result is empty exactly when `s` is blank, and a
      non-empty result neither starts nor ends with whitespace. */
  function Trim(s: string): (r: string)
    ensures r == [] <==> IsBlank(s)
    ensures IsBlank(r) <==> IsBlank(s)
    ensures r != [] ==> !IsSpace(r[0]) && !IsSpace(r[|r| - 1])
  {
    var t := TrimStart(s);
    var r := TrimEnd(t);
    if r == [] then
      assert t[|r|..] == t;
      BlankSplit(s, |s| - |t|);
      r
    else
      assert r[0] == t[0] == s[|s| - |t|];
      assert !IsBlank(s) && !IsBlank(r) by { assert !IsSpace(r[0]); }
      r
  }

  /** Trimming both ends cuts a blank prefix and a blank suffix. */
  lemma TrimCut(s: string, t: string, r: string)
    requires t == TrimStart(s) && r == TrimEnd(t)
    ensures Surrounds(s, s[..|s| - |t|], r, t[|r|..])
  {
    SplitTail(s, |t|);
    SplitHead(t, |r|);
    Regroup(s[..|s| - |t|], r, t[|r|..]);
  }

  lemma SplitTail<T>(s: seq<T>, n: nat)
    requires n <= |s|
    ensures s == s[..|s| - n] + s[|s| - n..]
  {
  }

  lemma SplitHead<T>(s: seq<T>, n: nat)
    requires n <= |s|
    ensures s == s[..n] + s[n..]
  {
  }

  lemma Regroup<T>(a: seq<T>, r: seq<T>, b: seq<T>)
    ensures a + (r + b) == a + r + b
  {
  }

  /** `s.trim()` is `s` with a blank prefix and a blank suffix cut off. */
  lemma TrimSurrounded(s: string)
    ensures exists a, b :: Surrounds(s, a, Trim(s), b)
  {
    var t := TrimStart(s);
    var r := TrimEnd(t);
    assert Trim(s) == r;
    TrimCut(s, t, r);
  }

  /** `s` is `r` with the blank text `a` before it and the blank text `b` after it. */
  predicate Surrounds(s: string, a: string, r: string, b: string) {
    s == a + r + b && IsBlank(a) && IsBlank(b)
  }

  /** `sub` occurs in `s` at position `i`. */
  predicate OccursAt(s: string, sub: string, i: nat) {
    i + |sub| <= |s| && s[i..i + |sub|] == sub
  }

  predicate StartsWith(s: string, prefix: string) {
    |prefix| <= |s| && s[..|prefix|] == prefix
  }

  /** `s.includes(sub)`. */
  predicate Contains(s: string, sub: string)
    decreases |s|
  {
    StartsWith(s, sub) || (|s| > 0 && Contains(s[1..], sub))
  }

  /** `sub` is included in `s` exactly when it occurs in `s` at some position. */
  lemma {:induction false} ContainsOccurs(s: string, sub: string)
    ensures Contains(s, sub) <==> exists i: nat :: OccursAt(s, sub, i)
    decreases |s|
  {
    if StartsWith(s, sub) {
      assert OccursAt(s, sub, 0);
    } else if |s| > 0 {
      ContainsOccurs(s[1..], sub);
      if Contains(s[1..], sub) {
        var i: nat :| OccursAt(s[1..], sub, i);
        assert s[i + 1..i + 1 + |sub|] == s[1..][i..i + |sub|];
        assert OccursAt(s, sub, i + 1);
      }
      if i: nat :| OccursAt(s, sub, i) {
        assert i != 0;
        assert s[1..][i - 1..i - 1 + |sub|] == s[i..i + |sub|];
        assert OccursAt(s[1..], sub, i - 1);
      }
    }
  }

  predicate IsDigit(c: char) {
    '0' <= c <= '9'
  }

  function DigitChar(d: nat): (c: char)
    requires d < 10
    ensures IsDigit(c) && (c as int) - ('0' as int) == d
  {
    (('0' as int) + d) as char
  }

  /** The decimal numeral a template literal `${n}` produces for a natural number. */
  function Decimal(n: nat): (r: string)
    ensures |r| > 0 && forall i :: 0 <= i < |r| ==> IsDigit(r[i])
    ensures r[0] == '0' <==> n == 0
    decreases n
  {
    if n < 10 then [DigitChar(n)]
    else
      var init := Decimal(n / 10);
      assert (init + [DigitChar(n % 10)])[0] == init[0];
      init + [DigitChar(n % 10)]
  }

  /** The value of a numeral: the partner of Decimal. */
  function DecimalValue(s: string): nat
    requires forall i :: 0 <= i < |s| ==> IsDigit(s[i])
  {
    if |s| == 0 then 0
    else
      assert IsDigit(s[|s| - 1]);
      DecimalValue(s[..|s| - 1]) * 10 + ((s[|s| - 1] as int) - ('0' as int))
  }

  lemma {:induction false} DecimalRoundTrip(n: nat)
    ensures DecimalValue(Decimal(n)) == n
    decreases n
  {
    if n >= 10 {
      var s := Decimal(n);
      assert s[..|s| - 1] == Decimal(n / 10);
      DecimalRoundTrip(n / 10);
    }
  }

  /** Distinct numbers have distinct numerals. */
  lemma DecimalInjective(m: nat, n: nat)
    requires Decimal(m) == Decimal(n)
    ensures m == n
  {
    DecimalRoundTrip(m);
    DecimalRoundTrip(n);
  }
}
