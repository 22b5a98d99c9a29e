/** The JavaScript string operations the screens and the store rely on,
    over strings as sequences of Unicode scalar values: `String(n)` for a
    non-negative integer, `padStart(2, '0')`, `trim`, `toLowerCase`,
    `includes`, `split(c)[0]`, and the ordering `localeCompare` gives to the
    digit-and-hyphen month keys. */
module Strings {

  // ---------------------------------------------------------------------
  // Decimal notation

  predicate IsDigit(c: char) {
    '0' <= c <= '9'
  }

  predicate AllDigits(s: string) {
    forall i :: 0 <= i < |s| ==> IsDigit(s[i])
  }

  function DigitChar(d: nat): (c: char)
    requires d < 10
    ensures IsDigit(c)
  {
    "0123456789"[d]
  }

  function DigitValue(c: char): (d: nat)
    requires IsDigit(c)
    ensures d < 10
  {
    (c as int) - ('0' as int)
  }

  /** The number a digit string denotes, most significant digit first. */
  function Value(s: string): nat
    requires AllDigits(s)
  {
    if |s| == 0 then 0 else 10 * Value(s[..|s| - 1]) + DigitValue(s[|s| - 1])
  }

  /** `String(n)` for a non-negative integer: shortest decimal notation. */
  function Decimal(n: nat): (s: string)
    ensures |s| >= 1
    ensures AllDigits(s)
    ensures Value(s) == n
    ensures s[0] == '0' ==> n == 0
    decreases n
  {
    if n < 10 then [DigitChar(n)]
    else
      var front := Decimal(n / 10);
      var s := front + [DigitChar(n % 10)];
      assert s[..|s| - 1] == front;
      s
  }

  lemma DecimalInjective(m: nat, n: nat)
    requires Decimal(m) == Decimal(n)
    ensures m == n
  {
  }

  lemma FourDigitYear(n: nat)
    requires 1000 <= n <= 9999
    ensures |Decimal(n)| == 4
  {
    var a := n / 10;
    var b := a / 10;
    var c := b / 10;
    assert 1 <= c < 10 && 10 <= b < 100 && 100 <= a < 1000;
    assert |Decimal(c)| == 1;
    assert |Decimal(b)| == |Decimal(c)| + 1;
    assert |Decimal(a)| == |Decimal(b)| + 1;
    assert |Decimal(n)| == |Decimal(a)| + 1;
  }

  /** `String(n).padStart(2, '0')`. */
  function Pad2(n: nat): (s: string)
    ensures AllDigits(s)
    ensures Value(s) == n
    ensures n < 100 ==> |s| == 2
  {
    if n < 10 then "0" + Decimal(n)
    else
      assert n >= 100 || |Decimal(n / 10)| == 1;
      Decimal(n)
  }

  // ---------------------------------------------------------------------
  // Lexicographic order (the order `localeCompare` gives month keys)

  /** `a` sorts strictly before `b`, comparing code points left to right. */
  predicate LexLess(a: string, b: string) {
    if |a| == 0 then |b| > 0
    else if |b| == 0 then false
    else a[0] < b[0] || (a[0] == b[0] && LexLess(a[1..], b[1..]))
  }

  lemma {:induction false} LexIrreflexive(a: string)
    ensures !LexLess(a, a)
  {
    if |a| > 0 {
      LexIrreflexive(a[1..]);
    }
  }

  lemma {:induction false} LexAsymmetric(a: string, b: string)
    requires LexLess(a, b)
    ensures !LexLess(b, a)
  {
    if |a| > 0 && |b| > 0 && a[0] == b[0] {
      LexAsymmetric(a[1..], b[1..]);
    }
  }

  lemma {:induction false} LexTransitive(a: string, b: string, c: string)
    requires LexLess(a, b) && LexLess(b, c)
    ensures LexLess(a, c)
  {
    if |a| > 0 && a[0] == b[0] && b[0] == c[0] {
      LexTransitive(a[1..], b[1..], c[1..]);
    }
  }

  lemma {:induction false} LexConnected(a: string, b: string)
    requires a != b
    ensures LexLess(a, b) || LexLess(b, a)
  {
    if |a| > 0 && |b| > 0 && a[0] == b[0] {
      assert a == [a[0]] + a[1..] && b == [b[0]] + b[1..];
      LexConnected(a[1..], b[1..]);
    }
  }

  /** Comparing two concatenations whose first parts have equal length
      compares the first parts, and the second parts only on a tie. */
  lemma {:induction false} LexConcat(p: string, x: string, q: string, y: string)
    requires |p| == |q|
    ensures LexLess(p + x, q + y) <==> LexLess(p, q) || (p == q && LexLess(x, y))
    decreases |p|
  {
    if |p| > 0 {
      assert (p + x)[0] == p[0] && (q + y)[0] == q[0];
      assert (p + x)[1..] == p[1..] + x && (q + y)[1..] == q[1..] + y;
      LexConcat(p[1..], x, q[1..], y);
      if p[0] == q[0] && p[1..] == q[1..] {
        assert p == [p[0]] + p[1..] && q == [q[0]] + q[1..];
      }
    } else {
      assert p + x == x && q + y == y;
    }
  }

  /** For digit strings of equal length, the lexicographic order is the
      numeric order and equality is equality of the numbers. */
  lemma {:induction false} DigitOrderIsNumeric(s: string, t: string)
    requires AllDigits(s) && AllDigits(t) && |s| == |t|
    ensures LexLess(s, t) <==> Value(s) < Value(t)
    ensures s == t <==> Value(s) == Value(t)
    decreases |s|
  {
    if |s| > 0 {
      var s', t' := s[..|s| - 1], t[..|t| - 1];
      var a, b := s[|s| - 1], t[|t| - 1];
      assert s == s' + [a] && t == t' + [b];
      DigitOrderIsNumeric(s', t');
      LexConcat(s', [a], t', [b]);
      assert LexLess([a], [b]) <==> a < b;
      assert DigitValue(a) < DigitValue(b) <==> a < b;
    }
  }

  // ---------------------------------------------------------------------
  // Whitespace and trimming

  /** The WhiteSpace and LineTerminator code points that `String.prototype.trim` removes. */
  predicate IsWhitespace(c: char) {
    || c == ' ' || c == '\t' || c == '\n' || c == '\r'
    || c == '\U{000B}' || c == '\U{000C}' || c == '\U{00A0}' || c == '\U{FEFF}'
    || c == '\U{1680}' || ('\U{2000}' <= c <= '\U{200A}') || c == '\U{2028}' || c == '\U{2029}'
    || c == '\U{202F}' || c == '\U{205F}' || c == '\U{3000}'
  }

  predicate AllWhitespace(s: string) {
    forall i :: 0 <= i < |s| ==> IsWhitespace(s[i])
  }

  function TrimStart(s: string): (r: string)
    ensures |r| <= |s| && r == s[|s| - |r|..]
    ensures AllWhitespace(s[..|s| - |r|])
    ensures |r| > 0 ==> !IsWhitespace(r[0])
    decreases |s|
  {
    if |s| > 0 && IsWhitespace(s[0]) then
      var r := TrimStart(s[1..]);
      assert s[..|s| - |r|] == [s[0]] + s[1..][..|s| - 1 - |r|];
      r
    else s
  }

  function TrimEnd(s: string): (r: string)
    ensures |r| <= |s| && r == s[..|r|]
    ensures AllWhitespace(s[|r|..])
    ensures |r| > 0 ==> !IsWhitespace(r[|r| - 1])
    decreases |s|
  {
    if |s| > 0 && IsWhitespace(s[|s| - 1]) then
      var r := TrimEnd(s[..|s| - 1]);
      assert s[|r|..] == s[..|s| - 1][|r|..] + [s[|s| - 1]];
      r
    else s
  }

  /** `String.prototype.trim`: the text with leading and trailing whitespace removed. */
  function Trim(s: string): (r: string)
    ensures |r| <= |s|
    ensures |r| > 0 ==> !IsWhitespace(r[0]) && !IsWhitespace(r[|r| - 1])
  {
    TrimEnd(TrimStart(s))
  }

  /** A text trims to nothing exactly when every code point in it is whitespace. */
  lemma TrimBlank(s: string)
    ensures Trim(s) == [] <==> AllWhitespace(s)
  {
    var front := TrimStart(s);
    if Trim(s) == [] {
      BlankWhenTrimmedAway(s, front);
    }
    if AllWhitespace(s) {
      WhitespaceTrimsAway(s);
    }
  }

  /** Whatever `TrimStart` and then `TrimEnd` cut away was whitespace. */
  lemma BlankWhenTrimmedAway(s: string, front: string)
    requires front == TrimStart(s) && TrimEnd(front) == []
    ensures AllWhitespace(s)
  {
    assert front[0..] == front;
    assert |front| == 0;
    assert s[..|s|] == s;
  }

  /** Whitespace only: `TrimStart` keeps nothing. */
  lemma WhitespaceTrimsAway(s: string)
    requires AllWhitespace(s)
    ensures TrimStart(s) == []
  {
    var r := TrimStart(s);
    WhitespaceSuffix(s, |s| - |r|);
  }

  lemma WhitespaceSuffix(s: string, i: nat)
    requires AllWhitespace(s) && i <= |s|
    ensures AllWhitespace(s[i..])
  {
    assert forall k :: 0 <= k < |s[i..]| ==> s[i..][k] == s[i + k];
  }

  // ---------------------------------------------------------------------
  // Case folding, substring search, splitting

  /** `toLowerCase` on one code point; only the ASCII letters are folded. */
  function LowerChar(c: char): (d: char)
    ensures 'A' <= c <= 'Z' ==> 'a' <= d <= 'z'
    ensures !('A' <= c <= 'Z') ==> d == c
  {
    if 'A' <= c <= 'Z' then ((c as int) + 32) as char else c
  }

  function ToLower(s: string): (r: string)
    ensures |r| == |s|
    ensures forall i :: 0 <= i < |s| ==> r[i] == LowerChar(s[i])
  {
    seq(|s|, i requires 0 <= i < |s| => LowerChar(s[i]))
  }

  /** Lower-casing twice is lower-casing once. */
  lemma ToLowerIdempotent(s: string)
    ensures ToLower(ToLower(s)) == ToLower(s)
  {
  }

  /** `hay.includes(needle)`: `needle` occurs in `hay` as a contiguous block. */
  predicate Contains(hay: string, needle: string)
    decreases |hay|
  {
    needle <= hay || (|hay| > 0 && Contains(hay[1..], needle))
  }

  /** `s.split(sep)[0]`: the text before the first `sep`, or all of `s`. */
  function BeforeFirst(s: string, sep: char): (r: string)
    ensures r <= s
    ensures sep !in r
    ensures |r| < |s| ==> s[|r|] == sep
    decreases |s|
  {
    if |s| == 0 || s[0] == sep then []
    else
      var r := [s[0]] + BeforeFirst(s[1..], sep);
      assert s == [s[0]] + s[1..];
      r
  }

  /** On text of the form `p + [sep] + q` with no `sep` in `p`, the part
      before the first `sep` is `p`. */
  lemma {:induction false} BeforeFirstOf(p: string, sep: char, q: string)
    requires sep !in p
    ensures BeforeFirst(p + [sep] + q, sep) == p
    decreases |p|
  {
    var s := p + [sep] + q;
    if |p| > 0 {
      assert s[1..] == p[1..] + [sep] + q;
      BeforeFirstOf(p[1..], sep, q);
      assert [p[0]] + p[1..] == p;
    }
  }
}
