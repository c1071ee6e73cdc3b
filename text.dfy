/**
  String helpers the client relies on: `String.prototype.includes` (a substring
  test) and the decimal rendering of a numeric id inside a template literal.
 */
module Text {

  /** `pat` occurs in `text` starting at index `i`. */
  ghost predicate OccursAt(text: string, pat: string, i: int)
  {
    0 <= i && i + |pat| <= |text| && text[i..i + |pat|] == pat
  }

  /** `text.includes(pat)`: true when `pat` occurs somewhere in `text`
      (the empty pattern occurs everywhere). */
  function Contains(text: string, pat: string): bool
    decreases |text|
  {
    if |pat| > |text| then false
    else if text[..|pat|] == pat then true
    else Contains(text[1..], pat)
  }

  /** The scanning definition agrees with "occurs at some index". */
  lemma {:induction false} ContainsIffOccurs(text: string, pat: string)
    ensures Contains(text, pat) <==> exists i :: OccursAt(text, pat, i)
    decreases |text|
  {
    if |pat| <= |text| && text[..|pat|] == pat {
      assert OccursAt(text, pat, 0);
    } else if |pat| <= |text| {
      ContainsIffOccurs(text[1..], pat);
      assert text[0..|pat|] == text[..|pat|];
      forall i | 1 <= i
        ensures OccursAt(text, pat, i) <==> OccursAt(text[1..], pat, i - 1)
      {
        if i + |pat| <= |text| {
          var here, there := text[i..i + |pat|], text[1..][i - 1..i - 1 + |pat|];
          assert forall k | 0 <= k < |pat| :: here[k] == there[k];
          assert here == there;
        }
      }
      if Contains(text[1..], pat) {
        var j :| OccursAt(text[1..], pat, j);
        assert OccursAt(text, pat, j + 1);
      }
    }
  }

  /** Every string includes itself. */
  lemma ContainsSelf(s: string)
    ensures Contains(s, s)
  {
  }

  /** A pattern holding a character the text lacks cannot occur in the text. */
  lemma CharMissingExcludes(text: string, pat: string, c: char)
    requires c in pat && c !in text
    ensures !Contains(text, pat)
  {
    var k :| 0 <= k < |pat| && pat[k] == c;
    forall i | 0 <= i && i + |pat| <= |text|
      ensures !OccursAt(text, pat, i)
    {
      assert text[i..i + |pat|][k] == text[i + k];
    }
    ContainsIffOccurs(text, pat);
  }

  predicate IsDigit(c: char)
  {
    '0' <= c <= '9'
  }

  function DigitChar(d: nat): (c: char)
    requires d < 10
    ensures IsDigit(c)
  {
    (48 + d) as char
  }

  function DigitValue(c: char): (d: nat)
    requires IsDigit(c)
    ensures d < 10
  {
    c as int - 48
  }

  /** `${n}` for a non-negative safe integer id (below 2^53), which JavaScript
      prints as its decimal digits with no leading zero. */
  function NatToString(n: nat): (s: string)
    ensures |s| > 0
    ensures forall c :: c in s ==> IsDigit(c)
    ensures s[0] == '0' ==> n == 0
    decreases n
  {
    if n < 10 then [DigitChar(n)] else NatToString(n / 10) + [DigitChar(n % 10)]
  }

  /** The number a string of decimal digits denotes. */
  function DigitsValue(s: string): nat
    requires forall c :: c in s ==> IsDigit(c)
  {
    if s == [] then 0 else DigitsValue(s[..|s| - 1]) * 10 + DigitValue(s[|s| - 1])
  }

  /** Reading back the rendered digits gives the same number. */
  lemma {:induction false} NatToStringRoundTrip(n: nat)
    ensures DigitsValue(NatToString(n)) == n
    decreases n
  {
    var s := NatToString(n);
    if n >= 10 {
      NatToStringRoundTrip(n / 10);
      assert s[..|s| - 1] == NatToString(n / 10);
      assert DigitValue(s[|s| - 1]) == n % 10;
    }
  }

  /** Different numbers render differently. */
  lemma NatToStringInjective(a: nat, b: nat)
    ensures NatToString(a) == NatToString(b) ==> a == b
  {
    NatToStringRoundTrip(a);
    NatToStringRoundTrip(b);
  }

}
