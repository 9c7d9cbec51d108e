/**
 * Decimal text: how numbers become strings (`Number.prototype.toString`, the
 * `+n` net display) and how digit strings are read back, plus the
 * `String.prototype.split(':')` used on report times.
 */
module Text {
  import opened Wrappers

  predicate IsDigit(c: char) { '0' <= c <= '9' }

  predicate AllDigits(s: string) { forall i :: 0 <= i < |s| ==> IsDigit(s[i]) }

  function DigitValue(c: char): (d: nat)
    requires IsDigit(c)
    ensures d < 10
  {
    (c as int) - ('0' as int)
  }

  function DigitChar(d: nat): (c: char)
    requires d < 10
    ensures IsDigit(c) && DigitValue(c) == d
  {
    (('0' as int) + d) as char
  }

  /** Value of a decimal digit string, leading zeros allowed; the empty string reads as 0. */
  function DigitsValue(s: string): nat
    requires AllDigits(s)
    decreases |s|
  {
    if s == [] then 0 else DigitsValue(s[..|s| - 1]) * 10 + DigitValue(s[|s| - 1])
  }

  /** A digit string without superfluous leading zeros. */
  predicate Canonical(s: string) {
    |s| >= 1 && AllDigits(s) && (|s| > 1 ==> s[0] != '0')
  }

  /** Decimal rendering of a natural number. */
  function NatToString(n: nat): (s: string)
    ensures Canonical(s)
  {
    if n < 10 then [DigitChar(n)]
    else
      var p := NatToString(n / 10);
      p + [DigitChar(n % 10)]
  }

  lemma {:induction false} NatToStringRoundTrip(n: nat)
    ensures DigitsValue(NatToString(n)) == n
  {
    if n >= 10 {
      NatToStringRoundTrip(n / 10);
      var s := NatToString(n);
      assert s[..|s| - 1] == NatToString(n / 10);
    }
  }

  lemma {:induction false} DigitsValueAtLeastLead(s: string)
    requires |s| >= 1 && AllDigits(s)
    ensures DigitsValue(s) >= DigitValue(s[0])
  {
    if |s| > 1 {
      DigitsValueAtLeastLead(s[..|s| - 1]);
    }
  }

  /** Reading a canonical digit string and printing it again gives the same string. */
  lemma {:induction false} CanonicalRoundTrip(s: string)
    requires Canonical(s)
    ensures NatToString(DigitsValue(s)) == s
  {
    if |s| > 1 {
      var p := s[..|s| - 1];
      assert Canonical(p);
      DigitsValueAtLeastLead(p);
      CanonicalRoundTrip(p);
      assert p + [s[|s| - 1]] == s;
    }
  }

  /** `i.toString()` for a JavaScript integer. */
  function IntToString(i: int): (s: string)
    ensures |s| >= 1
    ensures s[0] == '-' <==> i < 0
  {
    if i < 0 then "-" + NatToString(-i) else NatToString(i)
  }

  /** The net display: `+n` when positive, otherwise the plain `toString()`. */
  function SignedDisplay(n: int): (s: string)
    ensures |s| >= 1
    ensures s[0] == '+' <==> n > 0
    ensures s[0] == '-' <==> n < 0
  {
    if n > 0 then "+" + NatToString(n) else IntToString(n)
  }

  /** Reads back an optionally signed decimal integer. */
  function ParseSigned(s: string): Option<int> {
    if |s| >= 2 && s[0] == '+' && AllDigits(s[1..]) then Some(DigitsValue(s[1..]))
    else if |s| >= 2 && s[0] == '-' && AllDigits(s[1..]) then Some(-(DigitsValue(s[1..]) as int))
    else if |s| >= 1 && AllDigits(s) then Some(DigitsValue(s))
    else None
  }

  lemma SignedDisplayRoundTrip(n: int)
    ensures ParseSigned(SignedDisplay(n)) == Some(n)
  {
    var s := SignedDisplay(n);
    if n > 0 {
      assert s[1..] == NatToString(n);
      NatToStringRoundTrip(n);
    } else if n < 0 {
      assert s[1..] == NatToString(-n);
      NatToStringRoundTrip(-n);
    } else {
      NatToStringRoundTrip(0);
    }
  }

  /** Position of the first ':' in `s`, if any. */
  function ColonIndex(s: string): (r: Option<nat>)
    ensures r.Some? ==> r.value < |s| && s[r.value] == ':' && ':' !in s[..r.value]
    ensures r.None? ==> ':' !in s
  {
    if s == [] then None
    else if s[0] == ':' then Some(0)
    else
      var rest := ColonIndex(s[1..]);
      if rest.Some? then
        assert s[..rest.value + 1] == [s[0]] + s[1..][..rest.value];
        Some(rest.value + 1)
      else None
  }

  /** `s.split(':')`: the pieces between colons, in order; never empty. */
  function SplitColon(s: string): (parts: seq<string>)
    ensures |parts| >= 1
    ensures ':' !in s <==> parts == [s]
    decreases |s|
  {
    match ColonIndex(s)
    case None => [s]
    case Some(i) => [s[..i]] + SplitColon(s[i + 1..])
  }

  /** The pieces of `h + ":" + m` when only the middle colon is present. */
  lemma SplitOneColon(h: string, m: string)
    requires ':' !in h && ':' !in m
    ensures SplitColon(h + ":" + m) == [h, m]
  {
    var s := h + ":" + m;
    assert s[|h|] == ':';
    assert s[..|h|] == h;
    assert s[|h| + 1..] == m;
    assert ColonIndex(s) == Some(|h|);
  }
}
