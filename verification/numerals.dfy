/**
 * Positional numerals: how a non-negative integer is rendered in base 2..16
 * with lower-case digits (JavaScript's `n.toString(base)` and template-literal
 * interpolation of integers), and how such a numeral is read back.
 */
module Numerals {

  /** The digit character for `d`: '0'..'9' then 'a'..'f'. */
  function DigitChar(d: nat): (c: char)
    requires d < 16
    ensures '0' <= c <= '9' || 'a' <= c <= 'f'
  {
    if d < 10 then ('0' as int + d) as char else ('a' as int + d - 10) as char
  }

  /** The value of a digit character; characters that are not digits read as 0. */
  function DigitValue(c: char): nat {
    if '0' <= c <= '9' then c as int - '0' as int
    else if 'a' <= c <= 'f' then c as int - 'a' as int + 10
    else 0
  }

  predicate IsDigitIn(c: char, base: nat) {
    ('0' <= c <= '9' && c as int - '0' as int < base) ||
    ('a' <= c <= 'f' && c as int - 'a' as int + 10 < base)
  }

  predicate IsDecimalDigit(c: char) {
    '0' <= c <= '9'
  }

  predicate AllDigitsIn(s: string, base: nat) {
    forall i :: 0 <= i < |s| ==> IsDigitIn(s[i], base)
  }

  /** The base-`base` numeral of `n`, most significant digit first, without leading zeros. */
  function ToBase(n: nat, base: nat): (s: string)
    requires 2 <= base <= 16
    ensures |s| >= 1 && AllDigitsIn(s, base)
    ensures |s| == 1 <==> n < base
    ensures n > 0 ==> s[0] != '0'
    decreases n
  {
    if n < base then [DigitChar(n)]
    else
      DivFacts(n, base);
      ToBase(n / base, base) + [DigitChar(n % base)]
  }

  /** Division facts used for numerals, stated once for the solver. */
  lemma DivFacts(n: nat, base: nat)
    requires 2 <= base <= n
    ensures 1 <= n / base < n && n % base < base
    ensures (n / base) * base + n % base == n
  {
  }

  /** The value of a numeral read in base `base`, most significant digit first. */
  function ValueIn(s: string, base: nat): nat
    decreases |s|
  {
    if s == [] then 0 else ValueIn(s[..|s| - 1], base) * base + DigitValue(s[|s| - 1])
  }

  /** Decimal rendering, as JavaScript prints a non-negative integer. */
  function Decimal(n: nat): (s: string)
    ensures |s| >= 1 && forall i :: 0 <= i < |s| ==> IsDecimalDigit(s[i])
  {
    ToBase(n, 10)
  }

  /** Reading back a rendered numeral gives the number rendered. */
  lemma {:induction false} ValueOfToBase(n: nat, base: nat)
    requires 2 <= base <= 16
    ensures ValueIn(ToBase(n, base), base) == n
    decreases n
  {
    var s := ToBase(n, base);
    if n < base {
      assert s[..0] == [];
    } else {
      DivFacts(n, base);
      ValueOfToBase(n / base, base);
      assert s[..|s| - 1] == ToBase(n / base, base);
      assert s[|s| - 1] == DigitChar(n % base);
    }
  }

  lemma ValueOfDecimal(n: nat)
    ensures ValueIn(Decimal(n), 10) == n
  {
    ValueOfToBase(n, 10);
  }

  /** A base-16 numeral has exactly two digits for 16..255 and at least three from 256 on. */
  lemma HexLength(n: nat)
    ensures 16 <= n < 256 ==> |ToBase(n, 16)| == 2
    ensures 256 <= n ==> |ToBase(n, 16)| >= 3
  {
    if n >= 16 {
      assert ToBase(n, 16) == ToBase(n / 16, 16) + [DigitChar(n % 16)];
      if n >= 256 {
        assert n / 16 >= 16;
      }
    }
  }
}
