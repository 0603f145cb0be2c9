/** Arbitrary-precision decimal numbers written as strings, as `toBN` from
    web3-utils reads them and `BN.prototype.toString()` writes them. */
module Decimal {
  import opened Wrappers

  predicate IsDigit(c: char) {
    '0' <= c <= '9'
  }

  predicate AllDigits(s: string) {
    forall i :: 0 <= i < |s| ==> IsDigit(s[i])
  }

  function DigitValue(c: char): (v: nat)
    requires IsDigit(c)
    ensures v < 10
  {
    c as int - '0' as int
  }

  function DigitChar(v: nat): (c: char)
    requires v < 10
    ensures IsDigit(c) && DigitValue(c) == v
  {
    ('0' as int + v) as char
  }

  /** The number a string of decimal digits denotes (the empty string denotes 0). */
  function ValueOf(s: string): nat
    requires AllDigits(s)
  {
    if |s| == 0 then 0 else ValueOf(s[..|s| - 1]) * 10 + DigitValue(s[|s| - 1])
  }

  /** `toBN(s)` for a string: digit strings (and the empty string) are read as
      decimal; any other string makes the conversion throw, modelled as None. */
  function ToBN(s: string): (r: Option<nat>)
    ensures r.Some? <==> AllDigits(s)
    ensures s == "" ==> r == Some(0)
  {
    if AllDigits(s) then Some(ValueOf(s)) else None
  }

  /** The shape `BN.toString()` produces: digits only, no leading zero except "0". */
  predicate Canonical(s: string) {
    && |s| > 0
    && AllDigits(s)
    && (s[0] == '0' ==> |s| == 1)
  }

  /** `toBN(n).toString()`: the decimal representation of `n`. */
  function Format(n: nat): (s: string)
    ensures Canonical(s)
    ensures ValueOf(s) == n
  {
    if n < 10 then [DigitChar(n)]
    else
      var prefix := Format(n / 10);
      var s := prefix + [DigitChar(n % 10)];
      assert s[..|s| - 1] == prefix;
      s
  }

  /** A canonical digit string that starts with a non-zero digit denotes a positive number. */
  lemma {:induction false} LeadingDigitPositive(s: string)
    requires |s| > 0 && AllDigits(s) && s[0] != '0'
    ensures ValueOf(s) > 0
  {
    if |s| > 1 {
      LeadingDigitPositive(s[..|s| - 1]);
    }
  }

  /** Writing back what was read gives the same string, for every canonical
      string: together with `Format`'s contract, `Format` and `ToBN` are
      inverse bijections between naturals and canonical strings. */
  lemma {:induction false} FormatValueOf(s: string)
    requires Canonical(s)
    ensures Format(ValueOf(s)) == s
  {
    var n := ValueOf(s);
    var last := s[|s| - 1];
    if |s| == 1 {
      assert s == [last];
      assert DigitChar(DigitValue(last)) == last;
    } else {
      var prefix := s[..|s| - 1];
      assert Canonical(prefix);
      LeadingDigitPositive(prefix);
      FormatValueOf(prefix);
      assert n / 10 == ValueOf(prefix) && n % 10 == DigitValue(last);
      assert DigitChar(DigitValue(last)) == last;
      assert s == prefix + [last];
    }
  }

  /** Reading what `Format` wrote returns the number. */
  lemma ToBNFormat(n: nat)
    ensures ToBN(Format(n)) == Some(n)
  {
  }
}
