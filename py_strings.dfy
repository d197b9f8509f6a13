/** The few Python string operations the configuration validator and the
    connection manager rely on, over `string` = `seq<char>`. */
module PyStrings {

  /** `s.startswith(p)`. */
  predicate StartsWith(s: string, p: string) {
    |p| <= |s| && s[..|p|] == p
  }

  /** `s.endswith(p)`. */
  predicate EndsWith(s: string, p: string) {
    |p| <= |s| && s[|s| - |p|..] == p
  }

  /** `needle in hay` for two strings: `needle` occurs at some offset of `hay`. */
  predicate IsSubstring(needle: string, hay: string)
    decreases |hay|
  {
    StartsWith(hay, needle) || (|hay| > 0 && IsSubstring(needle, hay[1..]))
  }

  lemma {:induction false} SubstringAt(needle: string, hay: string, k: nat)
    requires k + |needle| <= |hay| && hay[k..k + |needle|] == needle
    ensures IsSubstring(needle, hay)
    decreases k
  {
    if k > 0 {
      assert hay[1..][k - 1..k - 1 + |needle|] == hay[k..k + |needle|];
      SubstringAt(needle, hay[1..], k - 1);
    }
  }

  /** Characters `a` and `b` of `needle` stand in `hay` at offset `k`. */
  predicate PairAt(hay: string, needle: string, k: nat, a: nat, b: nat)
    requires a < b < |needle| && k + |needle| <= |hay|
  {
    hay[k + a] == needle[a] && hay[k + b] == needle[b]
  }

  /** `needle` is not in `hay` when two of its characters never appear
      in `hay` at the same distance apart. */
  lemma {:induction false} NotSubstring(needle: string, hay: string, a: nat, b: nat)
    requires a < b < |needle|
    requires forall k: nat :: k + |needle| <= |hay| ==> !PairAt(hay, needle, k, a, b)
    ensures !IsSubstring(needle, hay)
    decreases |hay|
  {
    if |needle| <= |hay| {
      assert !PairAt(hay, needle, 0, a, b);
      assert hay[..|needle|][a] == hay[a] && hay[..|needle|][b] == hay[b];
    }
    if |hay| > 0 {
      var rest := hay[1..];
      forall k: nat | k + |needle| <= |rest|
        ensures !PairAt(rest, needle, k, a, b)
      {
        assert !PairAt(hay, needle, k + 1, a, b);
      }
      NotSubstring(needle, rest, a, b);
    }
  }

  /** `needle` is not in `hay` when one of its characters is not. */
  lemma {:induction false} MissingChar(needle: string, hay: string, a: nat)
    requires a < |needle| && needle[a] !in hay
    ensures !IsSubstring(needle, hay)
    decreases |hay|
  {
    if |needle| <= |hay| {
      assert hay[..|needle|][a] == hay[a];
    }
    if |hay| > 0 {
      assert needle[a] !in hay[1..] by {
        assert forall x :: x in hay[1..] ==> x in hay;
      }
      MissingChar(needle, hay[1..], a);
    }
  }

  /** ASCII part of `str.lower()`. */
  function LowerChar(c: char): char {
    if 'A' <= c <= 'Z' then (c as int + 32) as char else c
  }

  function Lower(s: string): (r: string)
    ensures |r| == |s|
    ensures forall i :: 0 <= i < |s| ==> r[i] == LowerChar(s[i])
  {
    seq(|s|, i requires 0 <= i < |s| => LowerChar(s[i]))
  }

  /** A lower-case letter is in `s.lower()` only if it or its upper-case
      form is in `s`. */
  lemma NotInLower(s: string, c: char, upper: char)
    requires 'a' <= c <= 'z' && upper as int == c as int - 32
    requires c !in s && upper !in s
    ensures c !in Lower(s)
  {
    forall i | 0 <= i < |s|
      ensures Lower(s)[i] != c
    {
      assert s[i] != c && s[i] != upper;
    }
  }

  /** If `p` stands in `s` at offset `k` and `p` lowers to `q`, then `q`
      is in `s.lower()`. */
  lemma LowerAt(s: string, k: nat, p: string, q: string)
    requires k + |p| <= |s| && s[k..k + |p|] == p && |q| == |p|
    requires forall j :: 0 <= j < |p| ==> LowerChar(p[j]) == q[j]
    ensures IsSubstring(q, Lower(s))
  {
    forall j | 0 <= j < |q|
      ensures Lower(s)[k + j] == q[j]
    {
      assert s[k + j] == s[k..k + |p|][j] == p[j];
    }
    assert Lower(s)[k..k + |q|] == q;
    SubstringAt(q, Lower(s), k);
  }

  /** The digit a character `'0'`..`'9'` stands for. */
  function DigitValue(c: char): int {
    c as int - '0' as int
  }

  /** The number a string of decimal digits spells, read from the left. */
  function DecimalValue(s: string): int
    decreases |s|
  {
    if s == [] then 0 else 10 * DecimalValue(s[..|s| - 1]) + DigitValue(s[|s| - 1])
  }

  function DigitChar(d: nat): (r: char)
    requires d < 10
    ensures '0' <= r <= '9'
    ensures DigitValue(r) == d
  {
    "0123456789"[d]
  }

  /** `str(n)` for a non-negative integer: its decimal digits. */
  function NatToString(n: nat): (r: string)
    ensures |r| > 0
    ensures forall i :: 0 <= i < |r| ==> '0' <= r[i] <= '9'
    ensures r[0] == '0' ==> r == "0"
    ensures DecimalValue(r) == n
    decreases n
  {
    if n < 10 then [DigitChar(n)]
    else
      var high := NatToString(n / 10);
      var r := high + [DigitChar(n % 10)];
      assert r[..|r| - 1] == high;
      r
  }

  /** A decimal numeral in Python's spelling: digits only, and no leading
      zero unless the numeral is `"0"` itself. */
  predicate Canonical(s: string) {
    |s| > 0 && (forall i :: 0 <= i < |s| ==> '0' <= s[i] <= '9') && (s[0] == '0' ==> s == "0")
  }

  /** A string of digits spells at least its first digit. */
  lemma DecimalAtLeastFirst(s: string)
    requires |s| > 0 && forall i :: 0 <= i < |s| ==> '0' <= s[i] <= '9'
    ensures DecimalValue(s) >= DigitValue(s[0])
    decreases |s|
  {
    if |s| > 1 {
      var p := s[..|s| - 1];
      assert p[0] == s[0];
      DecimalAtLeastFirst(p);
    }
  }

  /** `NatToString` is the only canonical numeral for its number, so its
      contract pins down `str(n)` completely. */
  lemma {:induction false} NatToStringUnique(s: string, n: nat)
    requires Canonical(s) && DecimalValue(s) == n
    ensures s == NatToString(n)
    decreases |s|
  {
    var last := s[|s| - 1];
    if |s| == 1 {
      assert DigitChar(n) as int == last as int;
      assert s == [last];
    } else {
      var p := s[..|s| - 1];
      assert p[0] == s[0] != '0';
      DecimalAtLeastFirst(p);
      var v := DecimalValue(p);
      assert n == 10 * v + DigitValue(last) && 0 <= DigitValue(last) < 10;
      assert n / 10 == v && n % 10 == DigitValue(last);
      NatToStringUnique(p, v);
      assert DigitChar(n % 10) as int == last as int;
      assert s == p + [last];
    }
  }

  /** `str(n)` for any integer. */
  function IntToString(n: int): (r: string)
    ensures |r| > 0
    ensures r[0] == '-' <==> n < 0
    ensures forall i :: 0 < i < |r| ==> '0' <= r[i] <= '9'
    ensures n >= 0 ==> '0' <= r[0] <= '9' && (r[0] == '0' ==> r == "0")
    ensures n < 0 ==> |r| > 1 && r[1] != '0'
    ensures n >= 0 ==> DecimalValue(r) == n
    ensures n < 0 ==> DecimalValue(r[1..]) == -n
  {
    if n < 0 then
      var r := "-" + NatToString(-n);
      assert r[1..] == NatToString(-n);
      r
    else NatToString(n)
  }

  /** `", ".join(parts)`. */
  function Join(parts: seq<string>, sep: string): string
    decreases |parts|
  {
    if |parts| == 0 then ""
    else if |parts| == 1 then parts[0]
    else parts[0] + sep + Join(parts[1..], sep)
  }
}
