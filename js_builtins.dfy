/**
 * The handful of JavaScript built-ins that the booking screens rely on, stated
 * over Dafny values: `Array.prototype.find` keyed by an id, `split(sep)[0]`,
 * `charAt(0).toUpperCase() + slice(1)`, the decimal rendering of a
 * non-negative integer in a template literal. It also defines the code-unit
 * order on strings, used only to state facts about mock timestamps.
 */
module JsBuiltins {
  import opened Wrappers

  // ---------------------------------------------------------------------------
  // Array.prototype.find(x => key(x) === id)
  // ---------------------------------------------------------------------------

  /** Index of the first element whose key is `id`, if any. */
  function FindIndex<T>(xs: seq<T>, key: T -> string, id: string): (r: Option<nat>)
    ensures r.None? <==> forall j :: 0 <= j < |xs| ==> key(xs[j]) != id
    ensures r.Some? ==> r.value < |xs| && key(xs[r.value]) == id
    ensures r.Some? ==> forall j :: 0 <= j < r.value ==> key(xs[j]) != id
    decreases |xs|
  {
    if |xs| == 0 then None
    else if key(xs[0]) == id then Some(0)
    else
      match FindIndex(xs[1..], key, id)
      case None => None
      case Some(i) => Some(i + 1)
  }

  /** `xs.find(x => key(x) === id)`: the first element with that key, or undefined. */
  function Find<T>(xs: seq<T>, key: T -> string, id: string): (r: Option<T>)
    ensures r.None? <==> forall j :: 0 <= j < |xs| ==> key(xs[j]) != id
    ensures r.Some? ==> FindIndex(xs, key, id).Some? && r.value == xs[FindIndex(xs, key, id).value]
  {
    match FindIndex(xs, key, id)
    case None => None
    case Some(i) => Some(xs[i])
  }

  // ---------------------------------------------------------------------------
  // s.split(sep)[0]
  // ---------------------------------------------------------------------------

  /** `s.split(sep)[0]`: the longest prefix of `s` not containing `sep`. */
  function BeforeFirst(s: string, sep: char): (r: string)
    ensures r <= s
    ensures sep !in r
    ensures |r| < |s| ==> s[|r|] == sep
    decreases |s|
  {
    if |s| == 0 || s[0] == sep then ""
    else [s[0]] + BeforeFirst(s[1..], sep)
  }

  /** A string without the separator is its own first part. */
  lemma {:induction false} BeforeFirstNoSep(s: string, sep: char)
    requires sep !in s
    ensures BeforeFirst(s, sep) == s
    decreases |s|
  {
    if |s| > 0 {
      assert s[0] != sep;
      assert sep !in s[1..];
      BeforeFirstNoSep(s[1..], sep);
      assert s == [s[0]] + s[1..];
    }
  }

  /** Taking the first part twice changes nothing. */
  lemma BeforeFirstIdempotent(s: string, sep: char)
    ensures BeforeFirst(BeforeFirst(s, sep), sep) == BeforeFirst(s, sep)
  {
    BeforeFirstNoSep(BeforeFirst(s, sep), sep);
  }

  // ---------------------------------------------------------------------------
  // s.charAt(0).toUpperCase() + s.slice(1)
  // ---------------------------------------------------------------------------

  /** `toUpperCase` on one character, for the ASCII letters. */
  function ToUpperAscii(c: char): (r: char)
    ensures 'a' <= c <= 'z' ==> 'A' <= r <= 'Z' && r as int == c as int - 32
    ensures !('a' <= c <= 'z') ==> r == c
  {
    if 'a' <= c <= 'z' then (c as int - 32) as char else c
  }

  /** `s.charAt(0).toUpperCase() + s.slice(1)`; for the empty string both parts are empty. */
  function Capitalize(s: string): (r: string)
    ensures |r| == |s|
    ensures |s| > 0 ==> r[0] == ToUpperAscii(s[0])
    ensures |s| > 0 ==> r[1..] == s[1..]
  {
    if |s| == 0 then "" else [ToUpperAscii(s[0])] + s[1..]
  }

  /** Capitalising an already capitalised string changes nothing. */
  lemma CapitalizeIdempotent(s: string)
    ensures Capitalize(Capitalize(s)) == Capitalize(s)
  {
    if |s| > 0 {
      var r := Capitalize(s);
      assert Capitalize(r) == [ToUpperAscii(r[0])] + r[1..];
      assert r == [r[0]] + r[1..];
    }
  }

  // ---------------------------------------------------------------------------
  // `${n}` for a non-negative integer
  // ---------------------------------------------------------------------------

  predicate IsDigit(c: char) { '0' <= c <= '9' }

  predicate AllDigits(s: string) { forall i :: 0 <= i < |s| ==> IsDigit(s[i]) }

  function DigitChar(d: nat): (c: char)
    requires d < 10
    ensures IsDigit(c) && c as int - '0' as int == d
  {
    ('0' as int + d) as char
  }

  /** The decimal numeral of `n`, without leading zeros. */
  function DecimalString(n: nat): (r: string)
    ensures |r| >= 1 && AllDigits(r)
    ensures r[0] == '0' ==> n == 0
    decreases n
  {
    if n < 10 then [DigitChar(n)]
    else DecimalString(n / 10) + [DigitChar(n % 10)]
  }

  /** The value of a decimal numeral (the inverse of DecimalString). */
  function DecimalValue(s: string): nat
    requires AllDigits(s)
    decreases |s|
  {
    if |s| == 0 then 0
    else DecimalValue(s[..|s| - 1]) * 10 + (s[|s| - 1] as int - '0' as int)
  }

  /** Reading back the numeral gives the number again. */
  lemma {:induction false} DecimalRoundTrip(n: nat)
    ensures DecimalValue(DecimalString(n)) == n
    decreases n
  {
    var r := DecimalString(n);
    if n >= 10 {
      DecimalRoundTrip(n / 10);
      assert r[..|r| - 1] == DecimalString(n / 10);
    }
  }

  /** Different numbers have different numerals. */
  lemma DecimalStringInjective(m: nat, n: nat)
    requires DecimalString(m) == DecimalString(n)
    ensures m == n
  {
    DecimalRoundTrip(m);
    DecimalRoundTrip(n);
  }

  /** Every number from 1000 to 9999 is written with exactly four digits. */
  lemma FourDigitNumeral(n: nat)
    requires 1000 <= n <= 9999
    ensures |DecimalString(n)| == 4
  {
    assert |DecimalString(n / 1000)| == 1;
    assert |DecimalString(n / 100)| == 2 by { assert (n / 100) / 10 == n / 1000; }
    assert |DecimalString(n / 10)| == 3 by { assert (n / 10) / 10 == n / 100; }
  }

  // ---------------------------------------------------------------------------
  // Code-unit order on strings
  // ---------------------------------------------------------------------------

  /**
   * Lexicographic order over code units, the order in which ISO timestamps
   * sort chronologically. No screen compares strings; this order is used only
   * to state facts about the mock timestamps.
   */
  predicate LexLessEq(a: string, b: string)
    decreases |a|
  {
    if |a| == 0 then true
    else if |b| == 0 then false
    else if a[0] != b[0] then a[0] < b[0]
    else LexLessEq(a[1..], b[1..])
  }

  /** Two strings that agree up to position k and differ there are ordered by that character. */
  lemma {:induction false} LexLessEqAt(a: string, b: string, k: nat)
    requires k < |a| && k < |b| && a[..k] == b[..k] && a[k] < b[k]
    ensures LexLessEq(a, b)
    decreases k
  {
    if k > 0 {
      assert a[0] == a[..k][0] == b[..k][0] == b[0];
      assert a[1..][..k - 1] == a[1..k] == a[..k][1..];
      assert b[1..][..k - 1] == b[1..k] == b[..k][1..];
      LexLessEqAt(a[1..], b[1..], k - 1);
    }
  }
}
