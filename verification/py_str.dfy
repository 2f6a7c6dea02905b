/** The handful of Python `str` operations the plugin relies on, with their
    Python semantics written out: `replace` of one character, `startswith`,
    `split(sep, 1)[-1]`, `strip(chars)` for a single character and `str(int)`. */
module PyStr {
  import opened Wrappers

  // ---------------------------------------------------------------------------
  // s.replace(a, b) for single characters
  // ---------------------------------------------------------------------------

  /** `s.replace(from, to)`: every `from` becomes `to`, everything else keeps its place. */
  function ReplaceChar(s: string, from: char, to: char): (r: string)
    ensures |r| == |s|
    ensures forall i :: 0 <= i < |s| && s[i] == from ==> r[i] == to
    ensures forall i :: 0 <= i < |s| && s[i] != from ==> r[i] == s[i]
  {
    if s == [] then []
    else [if s[0] == from then to else s[0]] + ReplaceChar(s[1..], from, to)
  }

  /** After replacing `from` by a different character, `from` no longer occurs. */
  lemma ReplaceCharRemoves(s: string, from: char, to: char)
    requires from != to
    ensures from !in ReplaceChar(s, from, to)
  {
    var r := ReplaceChar(s, from, to);
    forall i | 0 <= i < |r|
      ensures r[i] != from
    {
    }
  }

  /** Replacing is idempotent: a second pass finds nothing left to change. */
  lemma ReplaceCharIdempotent(s: string, from: char, to: char)
    ensures ReplaceChar(ReplaceChar(s, from, to), from, to) == ReplaceChar(s, from, to)
  {
    var r := ReplaceChar(s, from, to);
    var r2 := ReplaceChar(r, from, to);
    assert |r2| == |r|;
    forall i | 0 <= i < |r|
      ensures r2[i] == r[i]
    {
    }
  }

  // ---------------------------------------------------------------------------
  // s.startswith(p) and occurrences
  // ---------------------------------------------------------------------------

  /** `s.startswith(p)`. */
  predicate StartsWith(s: string, p: string) {
    |p| <= |s| && s[..|p|] == p
  }

  /** `sep` occurs in `s` starting at index `i`. */
  predicate OccursAt(s: string, sep: string, i: nat) {
    i + |sep| <= |s| && s[i..i + |sep|] == sep
  }

  /** The first index at or after `k` where `sep` occurs, if any. */
  function FindFrom(s: string, sep: string, k: nat): (r: Option<nat>)
    requires k <= |s|
    ensures r.Some? ==> k <= r.value && OccursAt(s, sep, r.value)
    ensures r.Some? ==> forall j :: k <= j < r.value ==> !OccursAt(s, sep, j)
    ensures r.None? ==> forall j :: k <= j <= |s| ==> !OccursAt(s, sep, j)
    decreases |s| - k
  {
    if OccursAt(s, sep, k) then Some(k)
    else if k == |s| then None
    else FindFrom(s, sep, k + 1)
  }

  /** `s.split(sep, 1)[-1]`: the text after the first occurrence of `sep`, or
      all of `s` when `sep` does not occur. Python raises `ValueError` for an
      empty separator, which is `None` here. */
  function SplitOnceTail(s: string, sep: string): (r: Option<string>)
    ensures r.None? <==> sep == []
    ensures r.Some? ==> |r.value| <= |s| && r.value == s[|s| - |r.value|..]
    ensures r.Some? && r.value == s ==> forall j :: 0 <= j <= |s| ==> !OccursAt(s, sep, j)
    ensures sep != [] && (forall j :: 0 <= j <= |s| ==> !OccursAt(s, sep, j)) ==> r == Some(s)
    ensures r.Some? && r.value != s ==>
              var cut := |s| - |r.value| - |sep|;
              0 <= cut && OccursAt(s, sep, cut) && forall j :: 0 <= j < cut ==> !OccursAt(s, sep, j)
  {
    if sep == [] then None
    else match FindFrom(s, sep, 0)
      case None => Some(s)
      case Some(i) => Some(s[i + |sep|..])
  }

  /** When `s` starts with a non-empty `sep`, splitting once removes exactly that prefix. */
  lemma SplitOnceTailOfPrefix(s: string, sep: string)
    requires sep != [] && StartsWith(s, sep)
    ensures SplitOnceTail(s, sep) == Some(s[|sep|..])
  {
    assert OccursAt(s, sep, 0);
  }

  /** Splitting once at the first occurrence `i` of `sep` keeps what follows it. */
  lemma SplitOnceTailAtFirst(s: string, sep: string, i: nat)
    requires sep != [] && OccursAt(s, sep, i)
    requires forall j :: 0 <= j < i ==> !OccursAt(s, sep, j)
    ensures SplitOnceTail(s, sep) == Some(s[i + |sep|..])
  {
    var r := FindFrom(s, sep, 0);
    assert r.Some?;
    assert r.value == i;
  }

  // ---------------------------------------------------------------------------
  // s.strip(c) for a single character c
  // ---------------------------------------------------------------------------

  /** The number of leading `c` in `s`. */
  function LeadCount(s: string, c: char): (k: nat)
    ensures k <= |s|
    ensures forall i :: 0 <= i < k ==> s[i] == c
    ensures k < |s| ==> s[k] != c
  {
    if s != [] && s[0] == c then 1 + LeadCount(s[1..], c) else 0
  }

  /** Where `s[lo..hi]` ends once its trailing `c` are dropped. */
  function TrimEnd(s: string, c: char, lo: nat, hi: nat): (e: nat)
    requires lo <= hi <= |s|
    ensures lo <= e <= hi
    ensures forall i :: e <= i < hi ==> s[i] == c
    ensures lo < e ==> s[e - 1] != c
    decreases hi
  {
    if lo < hi && s[hi - 1] == c then TrimEnd(s, c, lo, hi - 1) else hi
  }

  /** `s.strip(c)`: what is left of `s` once every leading and trailing `c` is
      removed. It is a contiguous piece of `s` starting after the leading `c`,
      everything outside it is `c`, and it neither starts nor ends with `c`. */
  function Strip(s: string, c: char): (r: string)
    ensures r == [] || (r[0] != c && r[|r| - 1] != c)
    ensures var lo := LeadCount(s, c);
            lo + |r| <= |s|
            && (forall i :: 0 <= i < |r| ==> r[i] == s[lo + i])
            && (forall i :: lo + |r| <= i < |s| ==> s[i] == c)
  {
    var lo := LeadCount(s, c);
    s[lo..TrimEnd(s, c, lo, |s|)]
  }

  /** Independent characterisation of `strip`: any slice `s[lo..hi]` whose
      outside is all `c` and whose ends are not `c` is the stripped string. */
  lemma StripCharacterisation(s: string, c: char, lo: nat, hi: nat)
    requires lo <= hi <= |s|
    requires forall i :: 0 <= i < lo ==> s[i] == c
    requires forall i :: hi <= i < |s| ==> s[i] == c
    requires lo == hi || (s[lo] != c && s[hi - 1] != c)
    ensures Strip(s, c) == s[lo..hi]
  {
    var r := Strip(s, c);
    var k := LeadCount(s, c);
    if r == [] {
      assert lo == hi;
    } else {
      var e := k + |r| - 1;
      assert s[k] == r[0] != c;
      assert s[e] == r[|r| - 1] != c;
      assert lo < hi;
      assert s[lo] != c && s[hi - 1] != c;
      assert k == lo && e == hi - 1;
      assert r == s[lo..hi];
    }
  }

  /** Stripping twice is stripping once. */
  lemma StripIdempotent(s: string, c: char)
    ensures Strip(Strip(s, c), c) == Strip(s, c)
  {
    var r := Strip(s, c);
    StripCharacterisation(r, c, 0, |r|);
    assert r[0..|r|] == r;
  }

  // ---------------------------------------------------------------------------
  // str(n) for integers
  // ---------------------------------------------------------------------------

  predicate IsDigit(ch: char) {
    '0' <= ch <= '9'
  }

  function DigitChar(d: nat): (ch: char)
    requires d < 10
    ensures IsDigit(ch)
  {
    ('0' as int + d) as char
  }

  function DigitValue(ch: char): nat
    requires IsDigit(ch)
  {
    ch as int - '0' as int
  }

  /** Decimal digits of `n`, most significant first, without leading zeros. */
  function NatToString(n: nat): (r: string)
    ensures r != []
    ensures forall i :: 0 <= i < |r| ==> IsDigit(r[i])
    ensures |r| > 1 ==> r[0] != '0'
    decreases n
  {
    if n < 10 then [DigitChar(n)] else NatToString(n / 10) + [DigitChar(n % 10)]
  }

  /** The number a string of decimal digits denotes. */
  function DigitsValue(s: string): nat
    requires forall i :: 0 <= i < |s| ==> IsDigit(s[i])
  {
    if s == [] then 0 else DigitsValue(s[..|s| - 1]) * 10 + DigitValue(s[|s| - 1])
  }

  /** Reading the digits back gives the number. */
  lemma {:induction false} NatToStringRoundTrip(n: nat)
    ensures DigitsValue(NatToString(n)) == n
    decreases n
  {
    if n >= 10 {
      var s := NatToString(n / 10);
      NatToStringRoundTrip(n / 10);
      var t := s + [DigitChar(n % 10)];
      assert t == NatToString(n);
      assert t[..|t| - 1] == s;
    }
  }

  /** Python's `str(n)`: an optional minus sign followed by the digits of |n|. */
  function IntToString(n: int): (r: string)
    ensures r != []
    ensures n < 0 <==> r[0] == '-'
    ensures IsCanonicalIntText(r)
  {
    if n < 0 then "-" + NatToString(-n) else NatToString(n)
  }

  /** The shape of `str(n)`: an optional `-` followed by at least one digit. */
  predicate IsIntText(s: string) {
    && s != []
    && (forall i :: 0 < i < |s| ==> IsDigit(s[i]))
    && (s[0] == '-' || IsDigit(s[0]))
    && (s[0] == '-' ==> |s| > 1)
  }

  /** The exact shape `str` gives an integer: no leading zero on the digits,
      and no `-0`. */
  predicate IsCanonicalIntText(s: string) {
    && IsIntText(s)
    && (s[0] != '-' && |s| > 1 ==> s[0] != '0')
    && (s[0] == '-' ==> s[1] != '0')
  }

  /** Python's `int(s)` on the strings `str` produces. */
  function ParseInt(s: string): int
    requires IsIntText(s)
  {
    if s[0] == '-' then 0 - DigitsValue(s[1..]) as int else DigitsValue(s)
  }

  /** `int(str(n)) == n`, so the rendering of a line number loses nothing. */
  lemma IntToStringRoundTrip(n: int)
    ensures IsIntText(IntToString(n)) && ParseInt(IntToString(n)) == n
  {
    var s := IntToString(n);
    if n < 0 {
      NatToStringRoundTrip(-n);
      assert s[1..] == NatToString(-n);
    } else {
      NatToStringRoundTrip(n);
    }
  }

  /** A digit string whose first digit is not `0` denotes a positive number. */
  lemma {:induction false} DigitsValuePositive(t: string)
    requires t != [] && (forall i :: 0 <= i < |t| ==> IsDigit(t[i])) && t[0] != '0'
    ensures DigitsValue(t) > 0
    decreases |t|
  {
    if |t| > 1 {
      var u := t[..|t| - 1];
      assert u[0] == t[0];
      DigitsValuePositive(u);
    }
  }

  /** The digits of the number a digit string denotes are that string, when it
      has no leading zero. */
  lemma {:induction false} DigitsRoundTrip(t: string)
    requires t != [] && forall i :: 0 <= i < |t| ==> IsDigit(t[i])
    requires |t| > 1 ==> t[0] != '0'
    ensures NatToString(DigitsValue(t)) == t
    decreases |t|
  {
    if |t| > 1 {
      var u := t[..|t| - 1];
      assert u[0] == t[0];
      DigitsRoundTrip(u);
      DigitsValuePositive(u);
      var n := DigitsValue(t);
      var d := DigitValue(t[|t| - 1]);
      assert n == DigitsValue(u) * 10 + d;
      assert n / 10 == DigitsValue(u) && n % 10 == d;
      assert DigitChar(d) == t[|t| - 1];
      assert t == u + [t[|t| - 1]];
    }
  }

  /** `str(int(s)) == s` for every string in the shape `str` produces, so that
      shape determines the rendering: `str` is a bijection onto it. */
  lemma ParseIntRoundTrip(s: string)
    requires IsCanonicalIntText(s)
    ensures IntToString(ParseInt(s)) == s
  {
    if s[0] == '-' {
      var t := s[1..];
      DigitsValuePositive(t);
      DigitsRoundTrip(t);
      assert s == "-" + t;
    } else {
      DigitsRoundTrip(s);
    }
  }

  /** Different integers render differently. */
  lemma IntToStringInjective(m: int, n: int)
    requires IntToString(m) == IntToString(n)
    ensures m == n
  {
    IntToStringRoundTrip(m);
    IntToStringRoundTrip(n);
  }
}
