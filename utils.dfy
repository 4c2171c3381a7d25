/**
 * The formatting that the enum macros of src/utils.rs give an enum: its
 * discriminant, as a `u8`, written in decimal (`Display`) or in one of the
 * radixes of `Binary`, `Octal`, `LowerHex` and `UpperHex`.  A parser for the
 * same text is the partner that shows nothing is lost in the rendering.
 */
module Utils {
  import opened Prim

  /** The formatting traits `enum_fmt_impl` and `enum_display` implement. */
  datatype Radix = Binary | Octal | Decimal | LowerHex | UpperHex {
    function Base(): (b: nat)
      ensures 2 <= b <= 16
    {
      match this
      case Binary => 2
      case Octal => 8
      case Decimal => 10
      case LowerHex => 16
      case UpperHex => 16
    }
  }

  /** The character for digit `d`; letters are lower case except for `UpperHex`. */
  function Digit(d: nat, radix: Radix): char
    requires d < radix.Base()
  {
    if d < 10 then ('0' as int + d) as char
    else if radix == UpperHex then ('A' as int + d - 10) as char
    else ('a' as int + d - 10) as char
  }

  /** The digit that `c` stands for in `radix`, if any. */
  function DigitValue(c: char, radix: Radix): (v: Option<nat>)
    ensures v.Some? ==> v.value < radix.Base()
  {
    var d :=
      if '0' <= c <= '9' then Some(c as int - '0' as int)
      else if radix == LowerHex && 'a' <= c <= 'f' then Some(c as int - 'a' as int + 10)
      else if radix == UpperHex && 'A' <= c <= 'F' then Some(c as int - 'A' as int + 10)
      else None;
    if d.Some? && d.value < radix.Base() then d else None
  }

  lemma DigitRoundTrip(d: nat, radix: Radix)
    requires d < radix.Base()
    ensures DigitValue(Digit(d, radix), radix) == Some(d)
  {
  }

  /** Every character is a digit of `radix`; in particular none is the SGR final byte `m`. */
  predicate IsDigitText(s: string, radix: Radix)
  {
    forall k :: 0 <= k < |s| ==> DigitValue(s[k], radix).Some?
  }

  /**
   * `n` written in `radix`, most significant digit first, without leading
   * zeros and without a prefix such as `0x`: the text Rust's formatter
   * produces for an unsigned integer under default flags.
   */
  function Format(n: nat, radix: Radix): (s: string)
    ensures |s| >= 1
    ensures IsDigitText(s, radix)
    ensures (s[0] == '0') <==> n == 0
    ensures n == 0 ==> s == "0"
    decreases n
  {
    var b := radix.Base();
    if n < b then [Digit(n, radix)]
    else Format(n / b, radix) + [Digit(n % b, radix)]
  }

  /** Reads digits of `radix` back into a number; `None` on empty text or a foreign character. */
  function Parse(s: string, radix: Radix): Option<nat>
    decreases |s|
  {
    if s == [] then None
    else
      var last := DigitValue(s[|s| - 1], radix);
      if last.None? then None
      else if |s| == 1 then last
      else
        match Parse(s[..|s| - 1], radix)
        case None => None
        case Some(high) => Some(high * radix.Base() + last.value)
  }

  /** Appending a digit multiplies the parsed value by the base and adds the digit. */
  lemma ParseSnoc(s: string, c: char, radix: Radix)
    requires s != []
    requires Parse(s, radix).Some? && DigitValue(c, radix).Some?
    ensures Parse(s + [c], radix) == Some(Parse(s, radix).value * radix.Base() + DigitValue(c, radix).value)
  {
    assert (s + [c])[..|s|] == s;
  }

  /** Parsing the formatted text gives the number back, in every radix. */
  lemma {:induction false} FormatParse(n: nat, radix: Radix)
    ensures Parse(Format(n, radix), radix) == Some(n)
    decreases n
  {
    var b := radix.Base();
    if n < b {
      DigitRoundTrip(n, radix);
    } else {
      var q, r := n / b, n % b;
      FormatParse(q, radix);
      DigitRoundTrip(r, radix);
      ParseSnoc(Format(q, radix), Digit(r, radix), radix);
      assert q * b + r == n;
    }
  }

  /** Two numbers with the same text in the same radix are equal. */
  lemma FormatInjective(m: nat, n: nat, radix: Radix)
    requires Format(m, radix) == Format(n, radix)
    ensures m == n
  {
    FormatParse(m, radix);
    FormatParse(n, radix);
  }

  /** The decimal text of a `u8` has one, two or three digits by magnitude. */
  lemma {:induction false} DecimalLength(n: u8)
    ensures |Format(n, Decimal)| == if n < 10 then 1 else if n < 100 then 2 else 3
  {
    if n >= 10 {
      assert Format(n, Decimal) == Format(n / 10, Decimal) + [Digit(n % 10, Decimal)];
      if n >= 100 {
        assert Format(n / 10, Decimal) == Format(n / 100, Decimal) + [Digit((n / 10) % 10, Decimal)];
      }
    }
  }

  /**
   * `enum_fmt_impl`: an enum rendered with a radix trait is its discriminant,
   * as a `u8`, formatted in that radix; the text parses back to it.
   */
  function Fmt(discriminant: u8, radix: Radix): (s: string)
    ensures |s| >= 1
    ensures Parse(s, radix) == Some(discriminant)
    ensures IsDigitText(s, radix)
    ensures (s[0] == '0') <==> discriminant == 0
    ensures discriminant == 0 ==> s == "0"
  {
    FormatParse(discriminant, radix);
    Format(discriminant, radix)
  }

  /**
   * `enum_display`: an enum displayed with `{}` is its discriminant, as a
   * `u8`, in decimal: one to three digits that parse back to it.
   */
  function Display(discriminant: u8): (s: string)
    ensures |s| == if discriminant < 10 then 1 else if discriminant < 100 then 2 else 3
    ensures Parse(s, Decimal) == Some(discriminant)
    ensures IsDigitText(s, Decimal)
    ensures (s[0] == '0') <==> discriminant == 0
  {
    DecimalLength(discriminant);
    Fmt(discriminant, Decimal)
  }
}
