/**
 * Decimal integers as the plugin reads and prints them: Swift's failable
 * `Int(String)` initialiser on a 64-bit platform, and the decimal text that
 * string interpolation of an `Int` produces.
 */
module Integers {
  import opened Wrappers
  import opened Strings

  /** The bounds of Swift's `Int`, a 64-bit two's-complement integer. */
  const Int64Min: int := -0x8000_0000_0000_0000
  const Int64Max: int := 0x7FFF_FFFF_FFFF_FFFF

  predicate IsDigit(c: char) {
    '0' <= c <= '9'
  }

  predicate AllDigits(s: string) {
    forall k | 0 <= k < |s| :: IsDigit(s[k])
  }

  function DigitValue(c: char): nat
    requires IsDigit(c)
  {
    c as int - '0' as int
  }

  function DigitChar(d: nat): char
    requires d < 10
  {
    ('0' as int + d) as char
  }

  /** The value of a string of decimal digits, most significant first. */
  function DigitsValue(ds: string): nat
    requires AllDigits(ds)
  {
    if ds == [] then 0 else DigitsValue(ds[..|ds| - 1]) * 10 + DigitValue(ds[|ds| - 1])
  }

  /**
   * `Int(s)`: an optional `+` or `-`, then one or more ASCII digits (leading
   * zeros allowed), nothing else; `None` when the text is malformed or the
   * value does not fit in 64 bits.
   */
  function ParseInt(s: string): (r: Option<int>)
    ensures r.Some? ==> Int64Min <= r.value <= Int64Max
    ensures r.Some? && r.value < 0 ==> |s| > 0 && s[0] == '-'
  {
    var negative := |s| > 0 && s[0] == '-';
    var digits := if |s| > 0 && (s[0] == '+' || s[0] == '-') then s[1..] else s;
    if |digits| == 0 || !AllDigits(digits) then None
    else
      var magnitude: int := DigitsValue(digits);
      var n: int := if negative then -magnitude else magnitude;
      if Int64Min <= n <= Int64Max then Some(n) else None
  }

  /** The decimal digits of a natural number, without leading zeros. */
  function ShowNat(n: nat): (s: string)
    ensures |s| >= 1 && AllDigits(s)
  {
    if n < 10 then [DigitChar(n)] else ShowNat(n / 10) + [DigitChar(n % 10)]
  }

  /** `"\(n)"`: the decimal text of an integer, with a leading `-` when negative. */
  function Show(n: int): string {
    if n < 0 then "-" + ShowNat(-n) else ShowNat(n)
  }

  lemma {:induction false} DigitsValueShowNat(n: nat)
    ensures DigitsValue(ShowNat(n)) == n
  {
    if n >= 10 {
      DigitsValueShowNat(n / 10);
      var s := ShowNat(n);
      assert s[..|s| - 1] == ShowNat(n / 10);
    }
  }

  /**
   * Printing then parsing gives the number back exactly when it fits in 64
   * bits, and gives `None` (Swift's overflow) otherwise.
   */
  lemma ParseShow(n: int)
    ensures ParseInt(Show(n)) == if Int64Min <= n <= Int64Max then Some(n) else None
  {
    var s := Show(n);
    if n < 0 {
      assert s[0] == '-' && s[1..] == ShowNat(-n);
      DigitsValueShowNat(-n);
      assert DigitsValue(s[1..]) == -n;
    } else {
      assert IsDigit(s[0]) && s == ShowNat(n);
      DigitsValueShowNat(n);
    }
  }

  /** Reads back the text `Show` prints (any other text gives 0). */
  function Unshow(s: string): int {
    if |s| > 0 && s[0] == '-' && AllDigits(s[1..]) then -(DigitsValue(s[1..]) as int)
    else if AllDigits(s) then DigitsValue(s)
    else 0
  }

  lemma UnshowShow(n: int)
    ensures Unshow(Show(n)) == n
  {
    if n < 0 {
      var s := Show(n);
      assert s[1..] == ShowNat(-n);
      DigitsValueShowNat(-n);
    } else {
      assert IsDigit(ShowNat(n)[0]);
      DigitsValueShowNat(n);
    }
  }

  /** Different numbers print differently. */
  lemma ShowInjective(m: int, n: int)
    requires Show(m) == Show(n)
    ensures m == n
  {
    UnshowShow(m);
    UnshowShow(n);
  }

  /** Text that parses holds only digits and sign characters, so never the field separator. */
  lemma ParseIntAlphabet(s: string)
    requires ParseInt(s).Some?
    ensures forall k | 0 <= k < |s| :: IsDigit(s[k]) || s[k] == '+' || s[k] == '-'
    ensures Bar !in s
  {
    if |s| > 0 && (s[0] == '+' || s[0] == '-') {
      forall k | 1 <= k < |s| ensures IsDigit(s[k]) {
        assert s[k] == s[1..][k - 1];
      }
    }
  }

  /** The empty text and a lone sign are not numbers. */
  lemma ParseIntNeedsADigit()
    ensures ParseInt("") == None && ParseInt("+") == None && ParseInt("-") == None
  {
  }

  lemma {:induction false} DigitsValueLeadingZero(ds: string)
    requires AllDigits(ds)
    ensures AllDigits("0" + ds) && DigitsValue("0" + ds) == DigitsValue(ds)
  {
    var z := "0" + ds;
    if ds != [] {
      assert z[..|z| - 1] == "0" + ds[..|ds| - 1];
      DigitsValueLeadingZero(ds[..|ds| - 1]);
    } else {
      assert z[..|z| - 1] == [];
    }
  }

  /** A leading zero does not change the number read. */
  lemma ParseIgnoresLeadingZero(ds: string)
    requires |ds| > 0 && AllDigits(ds)
    ensures ParseInt("0" + ds) == ParseInt(ds)
  {
    DigitsValueLeadingZero(ds);
  }

  /** A leading plus sign does not change the number read. */
  lemma ParseIgnoresPlus(ds: string)
    requires |ds| > 0 && AllDigits(ds)
    ensures ParseInt("+" + ds) == ParseInt(ds)
  {
    assert ("+" + ds)[1..] == ds;
  }

  /** Reading four digits. */
  lemma ParseFourDigits(ds: string)
    requires |ds| == 4 && AllDigits(ds)
    ensures ParseInt(ds) ==
      Some(1000 * DigitValue(ds[0]) + 100 * DigitValue(ds[1]) + 10 * DigitValue(ds[2]) + DigitValue(ds[3]))
  {
    assert IsDigit(ds[0]);
    assert ds[..3][..2] == ds[..2] && ds[..2][..1] == ds[..1] && ds[..1][..0] == [];
    assert DigitsValue(ds[..1]) == DigitValue(ds[0]);
    assert DigitsValue(ds[..2]) == DigitsValue(ds[..1]) * 10 + DigitValue(ds[1]);
    assert DigitsValue(ds[..3]) == DigitsValue(ds[..2]) * 10 + DigitValue(ds[2]);
    assert DigitsValue(ds) == DigitsValue(ds[..3]) * 10 + DigitValue(ds[3]);
  }
}
