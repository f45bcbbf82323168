/** Fixed-width positional numerals, as they occur in ISO dates (decimal) and in UUIDs
    and JSON escapes (hexadecimal). */
module Digits {
  import opened Wrappers

  predicate IsBase(base: nat) {
    base == 10 || base == 16
  }

  function Power(base: nat, width: nat): (p: nat)
    requires IsBase(base)
    ensures p > 0
  {
    if width == 0 then 1 else base * Power(base, width - 1)
  }

  /** The digit character of `d`; hexadecimal digits are written in lower case. */
  function DigitChar(d: nat): char
    requires d < 16
  {
    "0123456789abcdef"[d]
  }

  /** The value of a digit character in `base`; both cases of a hexadecimal digit are read. */
  function DigitValue(c: char, base: nat): (v: Option<nat>)
    requires IsBase(base)
    ensures v.Some? ==> v.value < base
  {
    if '0' <= c <= '9' then Some(c as int - '0' as int)
    else if base == 16 && 'a' <= c <= 'f' then Some(10 + c as int - 'a' as int)
    else if base == 16 && 'A' <= c <= 'F' then Some(10 + c as int - 'A' as int)
    else None
  }

  /** `n` written with exactly `width` digits. */
  function Render(n: nat, base: nat, width: nat): (s: string)
    requires IsBase(base)
    ensures |s| == width
  {
    if width == 0 then "" else Render(n / base, base, width - 1) + [DigitChar(n % base)]
  }

  /** The number a numeral denotes, or nothing if some character is not a digit. */
  function Read(s: string, base: nat): (v: Option<nat>)
    requires IsBase(base)
    ensures v.Some? ==> v.value < Power(base, |s|)
  {
    if s == "" then Some(0)
    else
      match (Read(s[..|s| - 1], base), DigitValue(s[|s| - 1], base))
      case (Some(high), Some(low)) => Some(high * base + low)
      case _ => None
  }

  lemma Powers()
    ensures Power(10, 2) == 100 && Power(10, 3) == 1000 && Power(10, 4) == 10000
  {
    assert Power(10, 1) == 10;
  }

  lemma DropDigit(n: nat, base: nat, width: nat)
    requires IsBase(base)
    requires 0 < width && n < Power(base, width)
    ensures n / base < Power(base, width - 1)
    ensures n / base * base + n % base == n
    ensures DigitValue(DigitChar(n % base), base) == Some(n % base)
  {
    var p := Power(base, width - 1);
    if base == 10 {
      assert n < 10 * p;
    } else {
      assert n < 16 * p;
    }
  }

  lemma {:induction false} ReadRender(n: nat, base: nat, width: nat)
    requires IsBase(base)
    requires n < Power(base, width)
    ensures Read(Render(n, base, width), base) == Some(n)
  {
    if width > 0 {
      var s := Render(n, base, width);
      var high := Render(n / base, base, width - 1);
      DropDigit(n, base, width);
      ReadRender(n / base, base, width - 1);
      hide Power, DigitChar, DigitValue;
      assert s[..|s| - 1] == high && s[|s| - 1] == DigitChar(n % base);
      assert Read(s, base) == Some(n / base * base + n % base);
    }
  }

  /** A rendered numeral contains digits only, all of them ASCII. */
  lemma {:induction false} RenderIsDigits(n: nat, base: nat, width: nat, k: nat)
    requires IsBase(base)
    requires k < width
    ensures var c := Render(n, base, width)[k]; '0' <= c <= '9' || 'a' <= c <= 'f'
  {
    var high := Render(n / base, base, width - 1);
    assert Render(n, base, width) == high + [DigitChar(n % base)];
    if k < width - 1 {
      RenderIsDigits(n / base, base, width - 1, k);
    }
  }
}
