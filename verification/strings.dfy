/** The few .NET string operations the SDK relies on: `Trim(char)`,
    `Replace`, `char.IsWhiteSpace`, `string.IsNullOrWhiteSpace` and
    `int.ToString()`, each stated by what it does to the characters. */
module Strings {
  import opened Wrappers

  /** Number of leading occurrences of `c` in `s`. */
  function LeadingCount(s: string, c: char): (n: nat)
    ensures n <= |s|
    ensures forall k :: 0 <= k < n ==> s[k] == c
    ensures n == |s| || s[n] != c
  {
    if s != [] && s[0] == c then 1 + LeadingCount(s[1..], c) else 0
  }

  /** Number of trailing occurrences of `c` in `s`. */
  function TrailingCount(s: string, c: char): (n: nat)
    ensures n <= |s|
    ensures forall k :: |s| - n <= k < |s| ==> s[k] == c
    ensures n == |s| || s[|s| - n - 1] != c
  {
    if s != [] && s[|s| - 1] == c then 1 + TrailingCount(s[..|s| - 1], c) else 0
  }

  /** `s.Trim(c)`: the slice of `s` left once the runs of `c` at both ends
      are cut off; nothing inside the slice is touched. */
  function Trim(s: string, c: char): (r: string)
    ensures var i := LeadingCount(s, c);
            && i + |r| <= |s| && r == s[i..i + |r|]
            && (forall k :: 0 <= k < i ==> s[k] == c)
            && (forall k :: i + |r| <= k < |s| ==> s[k] == c)
    ensures r == [] || (r[0] != c && r[|r| - 1] != c)
  {
    var i := LeadingCount(s, c);
    var j := TrailingCount(s[i..], c);
    s[i..|s| - j]
  }

  /** `s.Replace(from, to)` for single characters. */
  function ReplaceChar(s: string, from: char, to: char): (r: string)
    ensures |r| == |s|
    ensures forall k :: 0 <= k < |s| ==> r[k] == if s[k] == from then to else s[k]
  {
    seq(|s|, k requires 0 <= k < |s| => if s[k] == from then to else s[k])
  }

  /** `s.Replace(c.ToString(), "")`: deletes every occurrence of `c`. */
  function RemoveChar(s: string, c: char): (r: string)
    ensures |r| <= |s|
    ensures c !in r
    ensures forall x :: x in r ==> x in s
  {
    if s == [] then [] else (if s[0] == c then [] else [s[0]]) + RemoveChar(s[1..], c)
  }

  /** `char.IsWhiteSpace`: the Unicode separators (Zs, Zl, Zp) and the
      control characters U+0009 to U+000D and U+0085. */
  predicate IsWhiteSpace(c: char) {
    || ('\U{9}' <= c <= '\U{D}')
    || c == ' ' || c == '\U{85}' || c == '\U{A0}' || c == '\U{1680}'
    || ('\U{2000}' <= c <= '\U{200A}')
    || c == '\U{2028}' || c == '\U{2029}' || c == '\U{202F}' || c == '\U{205F}' || c == '\U{3000}'
  }

  /** `string.IsNullOrWhiteSpace`. */
  predicate IsNullOrWhiteSpace(s: Option<string>) {
    match s
    case None => true
    case Some(t) => forall k :: 0 <= k < |t| ==> IsWhiteSpace(t[k])
  }

  /** An ASCII letter, the only characters whose case a header-name
      comparison ignores. */
  predicate IsAsciiLetter(c: char) {
    'a' <= c <= 'z' || 'A' <= c <= 'Z'
  }

  /** The upper-case form of an ASCII lower-case letter; any other
      character is kept. */
  function ToUpperAscii(c: char): (r: char)
    ensures 'a' <= c <= 'z' ==> r as int == c as int - 32
    ensures !('a' <= c <= 'z') ==> r == c
  {
    if 'a' <= c <= 'z' then (c as int - 32) as char else c
  }

  /** The key under which `StringComparer.OrdinalIgnoreCase` compares a
      header name (header names are ASCII tokens). */
  function FoldCase(s: string): (r: string)
    ensures |r| == |s|
    ensures forall k :: 0 <= k < |s| ==> r[k] == ToUpperAscii(s[k])
  {
    seq(|s|, k requires 0 <= k < |s| => ToUpperAscii(s[k]))
  }

  /** Two names that differ at most in the case of ASCII letters. */
  predicate EqualsIgnoreCase(a: string, b: string) {
    && |a| == |b|
    && forall k :: 0 <= k < |a| ==>
         || a[k] == b[k]
         || (IsAsciiLetter(a[k]) && IsAsciiLetter(b[k]) && (a[k] as int - b[k] as int == 32 || b[k] as int - a[k] as int == 32))
  }

  /** Folding identifies exactly the names that differ only in the case of
      ASCII letters. */
  lemma FoldCaseIff(a: string, b: string)
    ensures FoldCase(a) == FoldCase(b) <==> EqualsIgnoreCase(a, b)
  {
    if FoldCase(a) == FoldCase(b) {
      forall k | 0 <= k < |a|
        ensures || a[k] == b[k]
                || (IsAsciiLetter(a[k]) && IsAsciiLetter(b[k])
                    && (a[k] as int - b[k] as int == 32 || b[k] as int - a[k] as int == 32))
      {
        assert FoldCase(a)[k] == FoldCase(b)[k];
      }
    }
    if EqualsIgnoreCase(a, b) {
      forall k | 0 <= k < |a|
        ensures FoldCase(a)[k] == FoldCase(b)[k]
      {
      }
    }
  }

  /** A folded name folds to itself. */
  lemma FoldCaseIdempotent(s: string)
    ensures FoldCase(FoldCase(s)) == FoldCase(s)
  {
  }

  function Digit(d: nat): (c: char)
    requires d < 10
    ensures '0' <= c <= '9'
    ensures c as int - '0' as int == d
  {
    ('0' as int + d) as char
  }

  /** Decimal digits of `n`, most significant first, without leading zeros. */
  function NatToString(n: nat): (r: string)
    ensures 1 <= |r|
    ensures forall k :: 0 <= k < |r| ==> '0' <= r[k] <= '9'
  {
    if n < 10 then [Digit(n)] else NatToString(n / 10) + [Digit(n % 10)]
  }

  /** `int.ToString()` in the invariant culture. */
  function IntToString(n: int): (r: string)
    ensures 1 <= |r|
    ensures '.' !in r
    ensures (n < 0) == (r[0] == '-')
  {
    if n < 0 then "-" + NatToString(-n) else NatToString(n)
  }

  /** Exactly the naturals below ten are written with one digit. */
  lemma SingleDigitIff(n: nat)
    ensures n < 10 <==> |NatToString(n)| == 1
  {
  }

  /** Different naturals have different decimal texts. */
  lemma {:induction false} NatToStringInjective(a: nat, b: nat)
    requires NatToString(a) == NatToString(b)
    ensures a == b
    decreases a
  {
    var s := NatToString(a);
    SingleDigitIff(a);
    SingleDigitIff(b);
    if a < 10 {
      assert s == [Digit(a)] && s == [Digit(b)];
    } else {
      var pa, pb := NatToString(a / 10), NatToString(b / 10);
      assert s == pa + [Digit(a % 10)] && s == pb + [Digit(b % 10)];
      assert Digit(a % 10) == s[|s| - 1] == Digit(b % 10);
      assert pa == s[..|s| - 1] == pb;
      NatToStringInjective(a / 10, b / 10);
    }
  }

  /** Different integers have different decimal texts, so a status code
      can be read back from the name that carries it. */
  lemma IntToStringInjective(a: int, b: int)
    requires IntToString(a) == IntToString(b)
    ensures a == b
  {
    if a < 0 {
      assert IntToString(a)[1..] == NatToString(-a) && IntToString(b)[1..] == NatToString(-b);
      NatToStringInjective(-a, -b);
    } else {
      NatToStringInjective(a, b);
    }
  }
}
