/** Small pieces of JavaScript's standard behaviour that the dashboard code leans on:
    optional values, `Array.prototype.slice(0, end)`, number-to-string conversion,
    `String.prototype.padStart` and `String.prototype.replace` with a string pattern. */
module Common {

  /** An optional value: `undefined`/`null` in the source is `None`. */
  datatype Option<+T> = None | Some(value: T)

  function Min(a: int, b: int): int { if a <= b then a else b }

  function Max(a: int, b: int): int { if a >= b then a else b }

  /** The length `s.slice(0, end)` keeps: a negative `end` counts back from the end. */
  function SliceLength(n: nat, end: int): (k: nat)
    ensures k <= n
    ensures 0 <= end ==> k == Min(end, n)
    ensures end < 0 ==> k + Min(-end, n) == n
  {
    if end >= 0 then Min(end, n) else Max(n + end, 0)
  }

  /** A prefix holds each element at most as often as the whole sequence does. */
  lemma PrefixIncluded<T>(s: seq<T>, k: nat)
    requires k <= |s|
    ensures multiset(s[..k]) <= multiset(s)
  {
    assert s == s[..k] + s[k..];
  }

  /** `s.slice(0, end)`: the prefix of `s` of length `SliceLength(|s|, end)`. */
  function Slice<T>(s: seq<T>, end: int): (r: seq<T>)
    ensures |r| == SliceLength(|s|, end)
    ensures forall i :: 0 <= i < |r| ==> r[i] == s[i]
    ensures 0 <= end ==> |r| == Min(end, |s|)
  {
    s[..SliceLength(|s|, end)]
  }

  /** The numeric value of a decimal digit character. */
  function DigitValue(c: char): int
  {
    c as int - '0' as int
  }

  function DigitChar(d: nat): (c: char)
    requires d < 10
    ensures '0' <= c <= '9' && DigitValue(c) == d
  {
    ('0' as int + d) as char
  }

  predicate AllDigits(s: string)
  {
    forall i :: 0 <= i < |s| ==> '0' <= s[i] <= '9'
  }

  /** The number a string of decimal digits denotes, most significant digit first. */
  function DigitsValue(s: string): (v: nat)
    requires AllDigits(s)
    decreases |s|
  {
    if s == [] then 0 else DigitsValue(s[..|s| - 1]) * 10 + DigitValue(s[|s| - 1])
  }

  /** Decimal digits of `n` as `String(n)` writes them, most significant first. */
  function NatToString(n: nat): (s: string)
    ensures 1 <= |s| && AllDigits(s)
    ensures n < 10 <==> |s| == 1
    decreases n
  {
    if n < 10 then [DigitChar(n)] else NatToString(n / 10) + [DigitChar(n % 10)]
  }

  /** The digits read back as `n` and, beyond `"0"` itself, never start with a zero; so different
      numbers give different texts. */
  lemma {:induction false} NatToStringValue(n: nat)
    ensures DigitsValue(NatToString(n)) == n
    ensures n >= 1 ==> NatToString(n)[0] != '0'
    decreases n
  {
    if n >= 10 {
      var t := NatToString(n / 10);
      var s := NatToString(n);
      NatToStringValue(n / 10);
      assert s == t + [DigitChar(n % 10)];
      assert s[..|s| - 1] == t;
    }
  }

  /** JavaScript `a || b` on an optional string: `undefined` and `""` are falsy. */
  function OrElse(a: Option<string>, b: string): string
  {
    if a.Some? && a.value != "" then a.value else b
  }

  /** `r` is `s` with some elements left out and the rest in their original order. */
  ghost predicate SubsequenceOf<T>(r: seq<T>, s: seq<T>)
    decreases |s|
  {
    if s == [] then r == []
    else (r != [] && r[0] == s[0] && SubsequenceOf(r[1..], s[1..])) || SubsequenceOf(r, s[1..])
  }

  lemma {:induction false} SubsequenceOfSelf<T>(s: seq<T>)
    ensures SubsequenceOf(s, s)
    decreases |s|
  {
    if s != [] {
      SubsequenceOfSelf(s[1..]);
    }
  }

  /** `s.padStart(width, fill)` with a one-character fill. */
  function PadStart(s: string, width: nat, fill: char): (r: string)
    ensures |r| == Max(width, |s|)
    ensures r[|r| - |s|..] == s
    ensures forall i :: 0 <= i < |r| - |s| ==> r[i] == fill
  {
    if |s| >= width then s else seq(width - |s|, _ => fill) + s
  }

  predicate MatchesAt(s: string, p: string, i: nat)
  {
    i + |p| <= |s| && s[i..i + |p|] == p
  }

  /** The first index at or after `from` where `p` occurs in `s`, as `s.indexOf(p, from)`. */
  function IndexOf(s: string, p: string, from: nat): (r: Option<nat>)
    ensures r.Some? ==> from <= r.value && MatchesAt(s, p, r.value)
    ensures r.Some? ==> forall j :: from <= j < r.value ==> !MatchesAt(s, p, j)
    ensures r.None? ==> forall j :: from <= j ==> !MatchesAt(s, p, j)
    decreases |s| - from
  {
    if from + |p| > |s| then None
    else if MatchesAt(s, p, from) then Some(from)
    else IndexOf(s, p, from + 1)
  }

  /** `s.replace(p, q)` for a string pattern: only the first occurrence is replaced. */
  function ReplaceFirst(s: string, p: string, q: string): (r: string)
    ensures IndexOf(s, p, 0).None? ==> r == s
    ensures IndexOf(s, p, 0).Some? ==> |r| == |s| - |p| + |q|
    ensures IndexOf(s, p, 0).Some? ==>
      var i := IndexOf(s, p, 0).value; r == s[..i] + q + s[i + |p|..]
  {
    match IndexOf(s, p, 0)
    case None => s
    case Some(i) => s[..i] + q + s[i + |p|..]
  }

  /** Removing the first occurrence of `p` from `p + x` gives back `x`, whatever `x` holds
      (a later occurrence of `p` inside `x` is left alone). */
  lemma ReplaceFirstOfPrefix(p: string, x: string)
    ensures ReplaceFirst(p + x, p, "") == x
  {
    var s := p + x;
    assert s[0..|p|] == p;
    assert MatchesAt(s, p, 0);
    assert s[..0] + "" + s[|p|..] == x;
  }
}
