/**
 * Rendering of integers as text: `Int32.ToString()` (decimal) and `ToString("X")`
 * (upper-case hexadecimal), together with the reading-back function that shows the
 * rendering loses nothing.
 */
module Numerals {

  /** The numeral for digit `d`: '0'..'9', then upper-case 'A'..'F'. */
  function Digit(d: nat): (c: char)
    requires d < 16
    ensures DigitValue(c) == d
  {
    if d < 10 then ('0' as int + d) as char else ('A' as int + d - 10) as char
  }

  /** The lower-case numeral for digit `d`, as the `x2` format writes it. */
  function LowerDigit(d: nat): (c: char)
    requires d < 16
    ensures d < 10 ==> c == Digit(d)
    ensures d >= 10 ==> c as int == Digit(d) as int + ('a' as int - 'A' as int)
  {
    if d < 10 then ('0' as int + d) as char else ('a' as int + d - 10) as char
  }

  /** The value of an upper-case numeral; 16 for any other character. */
  function DigitValue(c: char): nat
  {
    if '0' <= c <= '9' then c as int - '0' as int
    else if 'A' <= c <= 'F' then c as int - 'A' as int + 10
    else 16
  }

  /** The digits of `n` in `base`, most significant first, without leading zeros. */
  function NatToString(n: nat, base: nat): (s: string)
    requires 2 <= base <= 16
    ensures |s| >= 1
    ensures n < base <==> |s| == 1
    ensures forall i :: 0 <= i < |s| ==> DigitValue(s[i]) < base
    ensures s[0] == '0' ==> n == 0
    decreases n
  {
    if n < base then [Digit(n)]
    else
      DivLess(n, base);
      NatToString(n / base, base) + [Digit(n % base)]
  }

  /** Reads a string of digits in `base` back into a number. */
  function ParseNat(s: string, base: nat): nat
  {
    if |s| == 0 then 0 else ParseNat(s[..|s| - 1], base) * base + DigitValue(s[|s| - 1])
  }

  lemma {:induction false} ParseNatToString(n: nat, base: nat)
    requires 2 <= base <= 16
    ensures ParseNat(NatToString(n, base), base) == n
    decreases n
  {
    var s := NatToString(n, base);
    if n < base {
      assert s[..0] == [];
    } else {
      var q, r := n / base, n % base;
      assert s == NatToString(q, base) + [Digit(r)];
      DivLess(n, base);
      ParseNatToString(q, base);
      ParseNatSnoc(NatToString(q, base), Digit(r), base);
      assert ParseNat(s, base) == q * base + r;
      DivMod(n, base);
    }
  }

  lemma ParseNatSnoc(s: string, c: char, base: nat)
    ensures ParseNat(s + [c], base) == ParseNat(s, base) * base + DigitValue(c)
  {
    assert (s + [c])[..|s|] == s;
  }

  lemma DivMod(n: nat, base: nat)
    requires base > 0
    ensures n == (n / base) * base + n % base
  {
  }

  lemma DivLess(n: nat, base: nat)
    requires 2 <= base <= n
    ensures 1 <= n / base < n
  {
    DivMod(n, base);
  }

  /** Distinct numbers have distinct numerals. */
  lemma NatToStringInjective(m: nat, n: nat, base: nat)
    requires 2 <= base <= 16
    requires NatToString(m, base) == NatToString(n, base)
    ensures m == n
  {
    ParseNatToString(m, base);
    ParseNatToString(n, base);
  }

  /** `Int32.ToString()`: a minus sign for negative numbers, then the decimal digits. */
  function Decimal(n: int): (s: string)
    ensures |s| >= 1
    ensures n >= 0 ==> DigitValue(s[0]) < 10 && ParseNat(s, 10) == n
    ensures n < 0 ==> s[0] == '-' && ParseNat(s[1..], 10) == -n
    ensures s[0] == '0' ==> s == "0"
    ensures forall i :: (if n < 0 then 1 else 0) <= i < |s| ==> DigitValue(s[i]) < 10
    ensures n < 0 ==> |s| >= 2 && s[1] != '0'
  {
    if n < 0 then
      var digits := NatToString(-n, 10);
      ParseNatToString(-n, 10);
      assert ("-" + digits)[1..] == digits;
      assert forall i :: 1 <= i < |digits| + 1 ==> ("-" + digits)[i] == digits[i - 1];
      "-" + digits
    else
      ParseNatToString(n, 10);
      NatToString(n, 10)
  }
}
