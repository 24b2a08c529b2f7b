/**
 * The file names of the dashboard charts (app.py:162, app.py:172), built
 * from the category name and the decimal form of the business id.
 */
module Paths {
  /** The character of one decimal digit. */
  function Digit(d: nat): (c: char)
    requires d < 10
    ensures '0' <= c <= '9' && (c as int) - ('0' as int) == d
  {
    (('0' as int) + d) as char
  }

  /** True when every character of `s` is a decimal digit. */
  predicate AllDigits(s: string) {
    forall i :: 0 <= i < |s| ==> '0' <= s[i] <= '9'
  }

  /** The decimal form of `n` without leading zeros, as Python's `str` gives it for an int. */
  function NatToString(n: nat): (s: string)
    ensures |s| >= 1 && AllDigits(s)
    ensures (s[0] == '0') == (n == 0)
  {
    if n < 10 then [Digit(n)] else NatToString(n / 10) + [Digit(n % 10)]
  }

  /** The number a string of decimal digits denotes. */
  function DigitsValue(s: string): nat
    requires AllDigits(s)
  {
    if s == [] then 0
    else DigitsValue(s[..|s| - 1]) * 10 + ((s[|s| - 1] as int) - ('0' as int))
  }

  /** Reading back the decimal form of `n` gives `n`: the decimal form is unambiguous. */
  lemma {:induction false} NatToStringRoundTrip(n: nat)
    ensures DigitsValue(NatToString(n)) == n
  {
    if n >= 10 {
      var s := NatToString(n);
      assert s[..|s| - 1] == NatToString(n / 10);
      NatToStringRoundTrip(n / 10);
    }
  }

  const GraphsDir: string := "static/graphs/"

  /** The histogram file of one rating category of one business (app.py:162). */
  function GraphPath(category: string, id: nat): string {
    GraphsDir + category + "_" + NatToString(id) + ".png"
  }

  /** The pie chart file of the location split of one business (app.py:172). */
  function LocationPath(id: nat): string {
    GraphsDir + "location_" + NatToString(id) + ".png"
  }

  /** Two businesses never share a histogram file of the same category. */
  lemma GraphPathInjective(category: string, a: nat, b: nat)
    requires GraphPath(category, a) == GraphPath(category, b)
    ensures a == b
  {
    var prefix := GraphsDir + category + "_";
    var sa, sb := NatToString(a), NatToString(b);
    assert GraphPath(category, a) == prefix + sa + ".png";
    assert GraphPath(category, b) == prefix + sb + ".png";
    assert |sa| == |sb|;
    assert sa == (prefix + sa + ".png")[|prefix|..|prefix| + |sa|];
    assert sb == (prefix + sb + ".png")[|prefix|..|prefix| + |sb|];
    NatToStringRoundTrip(a);
    NatToStringRoundTrip(b);
  }

  /** Two businesses never share a pie chart file. */
  lemma LocationPathInjective(a: nat, b: nat)
    requires LocationPath(a) == LocationPath(b)
    ensures a == b
  {
    var prefix := GraphsDir + "location_";
    var sa, sb := NatToString(a), NatToString(b);
    assert LocationPath(a) == prefix + sa + ".png";
    assert LocationPath(b) == prefix + sb + ".png";
    assert |sa| == |sb|;
    assert sa == (prefix + sa + ".png")[|prefix|..|prefix| + |sa|];
    assert sb == (prefix + sb + ".png")[|prefix|..|prefix| + |sb|];
    NatToStringRoundTrip(a);
    NatToStringRoundTrip(b);
  }
}
