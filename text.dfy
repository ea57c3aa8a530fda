/**
 * The pieces of Go's `strconv` and `strings` packages that the display manager relies on:
 * decimal rendering (`strconv.Itoa`), decimal parsing into 32 bits (`strconv.ParseInt(s, 10, 32)`),
 * `strings.Split` on a one-character separator, `strings.TrimSuffix` and `strings.Contains`.
 */
module Text {
  import opened Wrappers

  const MinInt32: int := -0x8000_0000
  const MaxInt32: int := 0x7fff_ffff

  predicate IsDigit(c: char) {
    '0' <= c <= '9'
  }

  predicate AllDigits(s: string) {
    forall i :: 0 <= i < |s| ==> IsDigit(s[i])
  }

  function DigitValue(c: char): nat
    requires IsDigit(c)
  {
    c as int - '0' as int
  }

  function DigitChar(d: nat): (c: char)
    requires d < 10
    ensures IsDigit(c) && DigitValue(c) == d
  {
    ('0' as int + d) as char
  }

  /** The number a string of decimal digits denotes (most significant digit first). */
  function DecimalValue(s: string): nat
    requires AllDigits(s)
  {
    if s == [] then 0 else DecimalValue(s[..|s| - 1]) * 10 + DigitValue(s[|s| - 1])
  }

  /** The decimal digits of `n`, without leading zeros. */
  function Digits(n: nat): (s: string)
    ensures |s| > 0 && AllDigits(s)
    ensures DecimalValue(s) == n
    ensures |s| > 1 ==> s[0] != '0'
  {
    if n < 10 then [DigitChar(n)]
    else
      var p := Digits(n / 10);
      var s := p + [DigitChar(n % 10)];
      assert s[..|s| - 1] == p;
      s
  }

  /** `strconv.Itoa`: the decimal rendering of an integer, with a leading '-' when negative. */
  function Itoa(n: int): (s: string)
    ensures |s| > 0
    ensures n >= 0 ==> AllDigits(s) && DecimalValue(s) == n
    ensures n < 0 ==> s[0] == '-' && AllDigits(s[1..]) && DecimalValue(s[1..]) == -n
  {
    if n < 0 then "-" + Digits(-n) else Digits(n)
  }

  /**
   * `strconv.ParseInt(s, 10, 32)` when it succeeds: an optional sign followed by at least one
   * decimal digit, whose value fits in a signed 32-bit integer. Any other text is an error (None).
   */
  function ParseInt32(s: string): (r: Option<int>)
    ensures r.Some? ==> MinInt32 <= r.value <= MaxInt32
    ensures r.Some? ==> |s| > 0 && (IsDigit(s[0]) || s[0] == '+' || s[0] == '-')
    ensures AllDigits(s) && s != [] && DecimalValue(s) <= MaxInt32 ==> r == Some(DecimalValue(s) as int)
  {
    var negative := |s| > 0 && s[0] == '-';
    var body := if |s| > 0 && (s[0] == '+' || s[0] == '-') then s[1..] else s;
    if body == [] || !AllDigits(body) then None
    else
      var v := if negative then -(DecimalValue(body) as int) else DecimalValue(body) as int;
      if MinInt32 <= v <= MaxInt32 then Some(v) else None
  }

  /** Parsing the rendering of any 32-bit integer gives that integer back. */
  lemma {:induction false} ParseItoa(n: int)
    requires MinInt32 <= n <= MaxInt32
    ensures ParseInt32(Itoa(n)) == Some(n)
  {
    var s := Itoa(n);
    if n < 0 {
      assert s == "-" + Digits(-n);
      assert s[1..] == Digits(-n);
    } else {
      assert IsDigit(s[0]);
    }
  }

  /** `strings.Join(parts, string(sep))`. */
  function Join(parts: seq<string>, sep: char): string {
    if |parts| == 0 then []
    else if |parts| == 1 then parts[0]
    else parts[0] + [sep] + Join(parts[1..], sep)
  }

  /**
   * `strings.Split(s, string(sep))`: the maximal separator-free pieces between occurrences of `sep`.
   * There is always at least one piece; joining the pieces again gives `s` back.
   */
  function Split(s: string, sep: char): (parts: seq<string>)
    ensures |parts| >= 1
    ensures forall i :: 0 <= i < |parts| ==> sep !in parts[i]
    ensures Join(parts, sep) == s
  {
    if s == [] then [[]]
    else
      var rest := Split(s[1..], sep);
      if s[0] == sep then
        var parts := [[]] + rest;
        assert parts[1..] == rest;
        assert Join(parts, sep) == [sep] + s[1..];
        parts
      else
        var parts := [[s[0]] + rest[0]] + rest[1..];
        assert Join(parts, sep) == [s[0]] + Join(rest, sep) by {
          if |rest| > 1 {
            assert parts[1..] == rest[1..];
          }
        }
        parts
  }

  /** A separator-free piece followed by a separator is split off as the first piece. */
  lemma {:induction false} SplitFront(a: string, b: string, sep: char)
    requires sep !in a
    ensures Split(a + [sep] + b, sep) == [a] + Split(b, sep)
  {
    if a == [] {
      assert [] + [sep] + b == [sep] + b;
      assert ([sep] + b)[1..] == b;
    } else {
      var s := a + [sep] + b;
      assert s[0] == a[0] && s[1..] == a[1..] + [sep] + b;
      SplitFront(a[1..], b, sep);
      var rest := Split(s[1..], sep);
      assert rest[0] == a[1..] && rest[1..] == Split(b, sep);
      assert [a[0]] + a[1..] == a;
    }
  }

  /** A separator-free string is a single piece. */
  lemma {:induction false} SplitNoSep(a: string, sep: char)
    requires sep !in a
    ensures Split(a, sep) == [a]
  {
    if a != [] {
      SplitNoSep(a[1..], sep);
      assert [a[0]] + a[1..] == a;
    }
  }

  /** Splitting the join of separator-free pieces gives the pieces back. */
  lemma {:induction false} SplitJoin(parts: seq<string>, sep: char)
    requires |parts| >= 1
    requires forall i :: 0 <= i < |parts| ==> sep !in parts[i]
    ensures Split(Join(parts, sep), sep) == parts
  {
    if |parts| == 1 {
      SplitNoSep(parts[0], sep);
    } else {
      SplitJoin(parts[1..], sep);
      SplitFront(parts[0], Join(parts[1..], sep), sep);
      assert [parts[0]] + parts[1..] == parts;
    }
  }

  /** `strings.TrimSuffix(s, suffix)`. */
  function TrimSuffix(s: string, suffix: string): (r: string)
    ensures |s| >= |suffix| && s[|s| - |suffix|..] == suffix ==> r + suffix == s
    ensures !(|s| >= |suffix| && s[|s| - |suffix|..] == suffix) ==> r == s
  {
    if |s| >= |suffix| && s[|s| - |suffix|..] == suffix then s[..|s| - |suffix|] else s
  }

  /** `strings.Contains(s, sub)`: `sub` occurs in `s` at some position. */
  predicate Contains(s: string, sub: string) {
    if |s| < |sub| then false
    else s[..|sub|] == sub || Contains(s[1..], sub)
  }

  /** The position-based reading of `Contains`. */
  lemma {:induction false} ContainsAt(s: string, sub: string, k: nat)
    requires k + |sub| <= |s| && s[k..k + |sub|] == sub
    ensures Contains(s, sub)
  {
    if k > 0 {
      assert s[1..][k - 1..k - 1 + |sub|] == s[k..k + |sub|];
      ContainsAt(s[1..], sub, k - 1);
    }
  }
}
