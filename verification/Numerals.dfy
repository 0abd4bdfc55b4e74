/** Decimal numerals inside names, and why names built from them can be taken apart again. */
module Numerals {
  predicate IsDigit(c: char) {
    '0' <= c <= '9'
  }

  predicate AllDigits(s: string) {
    forall i | 0 <= i < |s| :: IsDigit(s[i])
  }

  function Digit(d: nat): char
    requires d < 10
  {
    "0123456789"[d]
  }

  function Decimal(n: nat): string {
    if n < 10 then [Digit(n)] else Decimal(n / 10) + [Digit(n % 10)]
  }

  /** `{n:03d}`. */
  function Padded(n: nat): string {
    if n < 10 then "00" + Decimal(n) else if n < 100 then "0" + Decimal(n) else Decimal(n)
  }

  function Number(s: string): nat
    requires AllDigits(s)
  {
    if s == [] then 0 else Number(s[..|s| - 1]) * 10 + (s[|s| - 1] as int - '0' as int)
  }

  lemma DigitValue(d: nat)
    requires d < 10
    ensures IsDigit(Digit(d)) && Digit(d) as int - '0' as int == d
  {
  }

  lemma {:induction false} DecimalReads(n: nat)
    ensures AllDigits(Decimal(n)) && Number(Decimal(n)) == n
  {
    DigitValue(n % 10);
    if n < 10 {
      assert Decimal(n)[..0] == [];
    } else {
      DecimalReads(n / 10);
      assert Decimal(n)[..|Decimal(n)| - 1] == Decimal(n / 10);
    }
  }

  lemma {:induction false} LeadingZero(s: string)
    requires AllDigits(s)
    ensures AllDigits("0" + s) && Number("0" + s) == Number(s)
  {
    var t := "0" + s;
    if s == [] {
      assert t[..0] == [];
    } else {
      LeadingZero(s[..|s| - 1]);
      assert t[..|t| - 1] == "0" + s[..|s| - 1];
    }
  }

  /** A numeral has no leading zero, and a larger number no fewer digits. */
  lemma {:induction false} DecimalLeads(n: nat)
    ensures Decimal(n) != "" && (Decimal(n)[0] == '0' <==> n == 0)
    ensures (n < 10 <==> |Decimal(n)| == 1) && (10 <= n < 100 <==> |Decimal(n)| == 2) && (100 <= n < 1000 <==> |Decimal(n)| == 3)
  {
    if n >= 10 { DecimalLeads(n / 10); }
  }

  /** Padding to three places loses nothing. */
  lemma PaddedReads(n: nat)
    ensures AllDigits(Padded(n)) && Number(Padded(n)) == n
    ensures |Padded(n)| >= 3 && (|Padded(n)| > 3 ==> Padded(n)[0] != '0')
  {
    DecimalLeads(n);
    DecimalReads(n);
    LeadingZero(Decimal(n));
    LeadingZero("0" + Decimal(n));
    assert "00" + Decimal(n) == "0" + ("0" + Decimal(n));
  }

  /** `{n:04d}`. */
  function Padded4(n: nat): string {
    if n < 1000 then "0" + Padded(n) else Decimal(n)
  }

  lemma Padded4Reads(n: nat)
    ensures AllDigits(Padded4(n)) && Number(Padded4(n)) == n
    ensures |Padded4(n)| >= 4 && (|Padded4(n)| > 4 ==> Padded4(n)[0] != '0')
  {
    DecimalReads(n);
    DecimalLeads(n);
    PaddedReads(n);
    LeadingZero(Padded(n));
  }

  /** A numeral at the start of a name, before a character that is not a digit, can be cut off in one way only. */
  lemma CutFirstNumeral(d: string, a: string, e: string, b: string, mark: char)
    requires d + [mark] + a == e + [mark] + b
    requires AllDigits(d) && AllDigits(e) && !IsDigit(mark)
    ensures d == e && a == b
  {
    var s := d + [mark] + a;
    assert s[|d|] == mark && s[|e|] == mark;
    assert forall i | 0 <= i < |d| :: s[i] == d[i];
    assert forall i | 0 <= i < |e| :: s[i] == e[i];
    assert |d| == |e|;
    assert d == s[..|d|] && e == s[..|e|];
    assert a == s[|d| + 1..] && b == s[|e| + 1..];
  }

  /** A numeral at the end of a name, after a character that is not a digit, can be cut off in one way only. */
  lemma CutNumeral(a: string, d: string, b: string, e: string, mark: char)
    requires a + [mark] + d == b + [mark] + e
    requires AllDigits(d) && AllDigits(e) && !IsDigit(mark)
    ensures a == b && d == e
  {
    var s := a + [mark] + d;
    assert s[|a|] == mark && s[|b|] == mark;
    assert forall i | |a| < i < |s| :: s[i] == d[i - |a| - 1];
    assert forall i | |b| < i < |s| :: s[i] == e[i - |b| - 1];
    assert |a| == |b|;
    assert a == s[..|a|] && b == s[..|b|];
    assert d == s[|a| + 1..] && e == s[|b| + 1..];
  }
}
