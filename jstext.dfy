/**
 * The few JavaScript string operations the core relies on, stated over
 * `seq<char>`: `toLowerCase`, the relational operator `<` on strings,
 * `slice`, and the decimal text that `BigInt.prototype.toString` produces.
 */
module JsText {

  // ---------------------------------------------------------------------------
  // toLowerCase (account addresses are ASCII hex, so only A-Z are mapped)

  function LowerChar(c: char): (r: char)
    ensures 'A' <= c <= 'Z' ==> 'a' <= r <= 'z'
    ensures 'A' <= c <= 'Z' ==> r as int == c as int + 32
    ensures !('A' <= c <= 'Z') ==> r == c
  {
    if 'A' <= c <= 'Z' then (c as int + 32) as char else c
  }

  /** `s.toLowerCase()`: same length, every character lower-cased. */
  function Lower(s: string): (r: string)
    ensures |r| == |s|
    ensures forall i :: 0 <= i < |s| ==> r[i] == LowerChar(s[i])
    ensures forall i :: 0 <= i < |r| ==> !('A' <= r[i] <= 'Z')
  {
    seq(|s|, i requires 0 <= i < |s| => LowerChar(s[i]))
  }

  // ---------------------------------------------------------------------------
  // `x < y` on strings: lexicographic order of code units, a proper prefix first

  predicate LexLess(x: string, y: string)
    decreases |x|
  {
    if x == [] then y != []
    else if y == [] then false
    else if x[0] != y[0] then x[0] < y[0]
    else LexLess(x[1..], y[1..])
  }

  lemma {:induction false} LexIrreflexive(x: string)
    ensures !LexLess(x, x)
    decreases |x|
  {
    if x != [] {
      LexIrreflexive(x[1..]);
    }
  }

  lemma {:induction false} LexAsymmetric(x: string, y: string)
    requires LexLess(x, y)
    ensures !LexLess(y, x)
    decreases |x|
  {
    if x != [] && y != [] && x[0] == y[0] {
      LexAsymmetric(x[1..], y[1..]);
    }
  }

  /** Two strings neither of which is below the other are the same string. */
  lemma {:induction false} LexTrichotomy(x: string, y: string)
    ensures x == y || LexLess(x, y) || LexLess(y, x)
    decreases |x|
  {
    if x != [] && y != [] && x[0] == y[0] {
      LexTrichotomy(x[1..], y[1..]);
      if x[1..] == y[1..] {
        assert x == [x[0]] + x[1..] && y == [y[0]] + y[1..];
      }
    }
  }

  lemma {:induction false} LexTransitive(x: string, y: string, z: string)
    requires LexLess(x, y) && LexLess(y, z)
    ensures LexLess(x, z)
    decreases |x|
  {
    if x != [] && y != [] && z != [] && x[0] == y[0] && y[0] == z[0] {
      LexTransitive(x[1..], y[1..], z[1..]);
    }
  }

  /** "Not below" is transitive: the order is a total preorder. */
  lemma LexNotLessTransitive(x: string, y: string, z: string)
    requires !LexLess(y, x) && !LexLess(z, y)
    ensures !LexLess(z, x)
  {
    LexTrichotomy(x, y);
    LexTrichotomy(y, z);
    if LexLess(x, y) && LexLess(y, z) {
      LexTransitive(x, y, z);
      LexAsymmetric(x, z);
    }
  }

  // ---------------------------------------------------------------------------
  // String.prototype.slice

  /** A `slice` bound: negative counts from the end, then clamped into [0, len]. */
  function ClampIndex(k: int, len: nat): (r: nat)
    ensures r <= len
    ensures 0 <= k <= len ==> r == k
    ensures k < 0 && len + k >= 0 ==> r == len + k
  {
    if k < 0 then (if len + k < 0 then 0 else len + k)
    else if k > len then len
    else k
  }

  /** `s.slice(start, end)`; the empty string when the clamped bounds cross. */
  function Slice(s: string, start: int, end: int): string
  {
    var from, to := ClampIndex(start, |s|), ClampIndex(end, |s|);
    if from < to then s[from..to] else ""
  }

  /** `s.slice(start)`. */
  function SliceFrom(s: string, start: int): string
  {
    Slice(s, start, |s|)
  }

  // ---------------------------------------------------------------------------
  // BigInt.prototype.toString() on a non-negative value

  predicate IsDigits(s: string)
  {
    forall i :: 0 <= i < |s| ==> '0' <= s[i] <= '9'
  }

  function DigitChar(d: nat): (c: char)
    requires d < 10
    ensures '0' <= c <= '9'
  {
    ('0' as int + d) as char
  }

  /** Decimal text: at least one digit, and a leading `0` only for zero itself. */
  function ToDecimal(n: nat): (s: string)
    ensures |s| >= 1 && IsDigits(s)
    ensures s[0] == '0' <==> n == 0
    ensures n == 0 ==> s == "0"
    decreases n
  {
    if n < 10 then [DigitChar(n)] else ToDecimal(n / 10) + [DigitChar(n % 10)]
  }

  /** The value a reader of the decimal text recovers (`BigInt(s)`). */
  function DecimalValue(s: string): nat
    requires IsDigits(s)
    decreases |s|
  {
    if s == [] then 0 else DecimalValue(s[..|s| - 1]) * 10 + (s[|s| - 1] as int - '0' as int)
  }

  lemma {:induction false} DecimalRoundTrip(n: nat)
    ensures DecimalValue(ToDecimal(n)) == n
    decreases n
  {
    if n >= 10 {
      var t := ToDecimal(n / 10);
      assert (t + [DigitChar(n % 10)])[..|t|] == t;
      DecimalRoundTrip(n / 10);
    }
  }

  /** Distinct values never share a decimal text. */
  lemma ToDecimalInjective(m: nat, n: nat)
    requires ToDecimal(m) == ToDecimal(n)
    ensures m == n
  {
    DecimalRoundTrip(m);
    DecimalRoundTrip(n);
  }
}
