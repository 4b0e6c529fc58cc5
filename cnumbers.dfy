/** The parts of the C library's `strtoul` and `strtoull` that the client
    calls, with no end argument (`nullptr`) and base 10 or 16, on a platform where
    `unsigned long` and `unsigned long long` are 64 bits wide. */
module CNumbers {
  import opened Wrappers

  const ULongMax: nat := 0xFFFF_FFFF_FFFF_FFFF

  type u64 = x: int | 0 <= x <= 0xFFFF_FFFF_FFFF_FFFF
  type u32 = x: int | 0 <= x <= 0xFFFF_FFFF

  type Base = b: nat | b == 10 || b == 16 witness 10

  /** `isspace` in the "C" locale. */
  predicate IsSpace(c: char)
  {
    c == ' ' || c == '\t' || c == '\n' || c == '\U{000B}' || c == '\U{000C}' || c == '\r'
  }

  /** The value a character has as a digit or letter, in any base up to 36. */
  function DigitOf(c: char): Option<nat>
  {
    if '0' <= c <= '9' then Some(c as int - '0' as int)
    else if 'a' <= c <= 'z' then Some(c as int - 'a' as int + 10)
    else if 'A' <= c <= 'Z' then Some(c as int - 'A' as int + 10)
    else None
  }

  predicate IsDigit(c: char, base: Base)
  {
    DigitOf(c).Some? && DigitOf(c).value < base
  }

  function DigitValue(c: char, base: Base): (d: nat)
    requires IsDigit(c, base)
    ensures d < base
  {
    DigitOf(c).value
  }

  predicate AllDigits(ds: string, base: Base)
  {
    forall i :: 0 <= i < |ds| ==> IsDigit(ds[i], base)
  }

  /** The longest prefix of `s` made of digits of `base`. */
  function LeadingDigits(s: string, base: Base): (ds: string)
    ensures ds <= s
    ensures AllDigits(ds, base)
    ensures |ds| < |s| ==> !IsDigit(s[|ds|], base)
  {
    if s != [] && IsDigit(s[0], base) then [s[0]] + LeadingDigits(s[1..], base) else []
  }

  /** The number a digit string denotes, most significant digit first. */
  function DigitsValue(ds: string, base: Base): nat
    requires AllDigits(ds, base)
  {
    if ds == [] then 0
    else DigitsValue(ds[..|ds| - 1], base) * base + DigitValue(ds[|ds| - 1], base)
  }

  function DigitChar(d: nat): (c: char)
    requires d < 16
    ensures DigitOf(c) == Some(d)
  {
    if d < 10 then ('0' as int + d) as char else ('a' as int + d - 10) as char
  }

  /** The canonical digits of `n` (lower-case letters in base 16), as
      `std::to_string` or `{:x}` would write them. */
  function ToDigits(n: nat, base: Base): (ds: string)
    ensures |ds| > 0 && AllDigits(ds, base)
    ensures DigitsValue(ds, base) == n
    decreases n
  {
    if n < base then [DigitChar(n)]
    else
      var init := ToDigits(n / base, base);
      var ds := init + [DigitChar(n % base)];
      assert ds[..|ds| - 1] == init;
      ds
  }

  /** `s` without its leading white space. */
  function SkipSpace(s: string): (t: string)
    ensures |t| <= |s| && t == s[|s| - |t|..]
    ensures t == [] || !IsSpace(t[0])
  {
    if s != [] && IsSpace(s[0]) then SkipSpace(s[1..]) else s
  }

  /** What remains once white space, an optional sign and, in base 16, an
      optional `0x`/`0X` are passed over. */
  function Magnitude(s: string, base: Base): (w: string)
    ensures |w| <= |s| && w == s[|s| - |w|..]
  {
    var t := SkipSpace(s);
    var u := if t != [] && (t[0] == '+' || t[0] == '-') then t[1..] else t;
    if base == 16 && |u| >= 2 && u[0] == '0' && (u[1] == 'x' || u[1] == 'X') then u[2..] else u
  }

  predicate IsNegative(s: string)
  {
    var t := SkipSpace(s);
    t != [] && t[0] == '-'
  }

  /** The value of the digits `strtoul` reads, before any range check. */
  function ReadValue(s: string, base: Base): nat
  {
    DigitsValue(LeadingDigits(Magnitude(s, base), base), base)
  }

  /** A value clamped to `ULONG_MAX`, as on `ERANGE`. */
  function Saturate(v: nat): (r: u64)
    ensures v <= ULongMax ==> r == v
    ensures v > ULongMax ==> r == ULongMax
  {
    if v > ULongMax then ULongMax else v
  }

  /** `strtoul`/`strtoull`: the value of the leading digits (0 when there
      are none), `ULONG_MAX` when that value does not fit (`ERANGE`), and
      negated modulo 2^64 after a minus sign. */
  function StrToUnsigned(s: string, base: Base): (r: u64)
    ensures LeadingDigits(Magnitude(s, base), base) == [] ==> r == 0
    ensures ReadValue(s, base) > ULongMax ==> r == ULongMax
    ensures ReadValue(s, base) <= ULongMax && !IsNegative(s) ==> r == ReadValue(s, base)
    ensures ReadValue(s, base) <= ULongMax && IsNegative(s) ==> r + ReadValue(s, base) in {0, 0x1_0000_0000_0000_0000}
  {
    var v := ReadValue(s, base);
    if v > ULongMax then ULongMax
    else if IsNegative(s) && v > 0 then ULongMax + 1 - v
    else v
  }

  /** The conversion of an `unsigned long` to `uint32_t`: the low 32 bits. */
  function Low32(v: u64): (w: u32)
    ensures v <= 0xFFFF_FFFF ==> w == v
    ensures v - w == (v / 0x1_0000_0000) * 0x1_0000_0000
  {
    v % 0x1_0000_0000
  }

  /** `std::strtoul(s, nullptr, 10)`: a string that starts with a digit
      reads as its leading digits, saturated at `ULONG_MAX`. */
  function ParseDecimal(s: string): (r: u64)
    ensures s != [] && IsDigit(s[0], 10) ==> r == Saturate(DigitsValue(LeadingDigits(s, 10), 10))
  {
    if s != [] && IsDigit(s[0], 10) then
      MagnitudeOfDigitStart(s, 10);
      StrToUnsigned(s, 10)
    else
      StrToUnsigned(s, 10)
  }

  predicate HasHexPrefix(s: string)
  {
    |s| >= 2 && s[0] == '0' && (s[1] == 'x' || s[1] == 'X')
  }

  /** `std::strtoull(s, nullptr, 16)`: a `0x`/`0X` prefix is passed over,
      and otherwise a string that starts with a hex digit reads as its
      leading digits; either way saturated at `ULONG_MAX`. */
  function ParseHex(s: string): (r: u64)
    ensures HasHexPrefix(s) ==> r == Saturate(DigitsValue(LeadingDigits(s[2..], 16), 16))
    ensures s != [] && IsDigit(s[0], 16) && !HasHexPrefix(s) ==> r == Saturate(DigitsValue(LeadingDigits(s, 16), 16))
  {
    if HasHexPrefix(s) then
      assert s == s[..2] + s[2..];
      MagnitudeOfHexPrefix(s[..2], s[2..]);
      StrToUnsigned(s, 16)
    else if s != [] && IsDigit(s[0], 16) then
      MagnitudeOfDigitStart(s, 16);
      StrToUnsigned(s, 16)
    else
      StrToUnsigned(s, 16)
  }

  /** A digit string followed by something that is not a digit is exactly
      the leading digits. */
  lemma {:induction false} LeadingDigitsOfDigits(ds: string, rest: string, base: Base)
    requires AllDigits(ds, base)
    requires rest == [] || !IsDigit(rest[0], base)
    ensures LeadingDigits(ds + rest, base) == ds
  {
    if ds != [] {
      assert (ds + rest)[0] == ds[0];
      assert (ds + rest)[1..] == ds[1..] + rest;
      LeadingDigitsOfDigits(ds[1..], rest, base);
    } else {
      assert ds + rest == rest;
    }
  }

  lemma DigitIsNotSpecial(c: char, base: Base)
    requires IsDigit(c, base)
    ensures !IsSpace(c) && c != '+' && c != '-' && c != 'x' && c != 'X'
  {
  }

  /** Nothing is passed over in a string that starts with a digit, unless
      it starts with `0x` in base 16. */
  lemma MagnitudeOfDigitStart(s: string, base: Base)
    requires s != [] && IsDigit(s[0], base)
    requires base == 16 ==> |s| < 2 || s[0] != '0' || (s[1] != 'x' && s[1] != 'X')
    ensures Magnitude(s, base) == s && !IsNegative(s)
  {
    DigitIsNotSpecial(s[0], base);
    assert SkipSpace(s) == s;
  }

  /** A `0x`/`0X` prefix is passed over in base 16. */
  lemma MagnitudeOfHexPrefix(prefix: string, t: string)
    requires prefix == "0x" || prefix == "0X"
    ensures Magnitude(prefix + t, 16) == t && !IsNegative(prefix + t)
  {
    var s := prefix + t;
    assert s[0] == '0' && !IsSpace(s[0]);
    assert SkipSpace(s) == s;
    assert s[2..] == t;
  }

  /** A string without any digit is read as 0. */
  lemma NoDigitsIsZero(s: string, base: Base)
    requires forall i :: 0 <= i < |s| ==> !IsDigit(s[i], base)
    ensures StrToUnsigned(s, base) == 0
  {
    var w := Magnitude(s, base);
    assert w == [] || !IsDigit(s[|s| - |w|], base);
    assert LeadingDigits(w, base) == [];
  }

  /** Parsing the decimal digits of `n`, followed by anything that is not
      a digit (`"85%"`, say), gives back `n`. */
  lemma ParseDecimalRendered(n: u64, rest: string)
    requires rest == [] || !IsDigit(rest[0], 10)
    ensures ParseDecimal(ToDigits(n, 10) + rest) == n
  {
    var ds := ToDigits(n, 10);
    var s := ds + rest;
    LeadingDigitsOfDigits(ds, rest, 10);
    assert s[0] == ds[0];
  }

  /** Parsing the hexadecimal digits of `n`, with or without a `0x`/`0X`
      prefix and followed by anything that is neither a hex digit nor an
      `x`, gives back `n`. */
  lemma ParseHexRendered(n: u64, prefix: string, rest: string)
    requires prefix == "" || prefix == "0x" || prefix == "0X"
    requires rest == [] || (!IsDigit(rest[0], 16) && rest[0] != 'x' && rest[0] != 'X')
    ensures ParseHex(prefix + ToDigits(n, 16) + rest) == n
  {
    var ds := ToDigits(n, 16);
    var t := ds + rest;
    var s := prefix + ds + rest;
    assert s == prefix + t;
    LeadingDigitsOfDigits(ds, rest, 16);
    if prefix == "" {
      assert s == t;
      BareHexMagnitude(ds, rest);
    } else {
      MagnitudeOfHexPrefix(prefix, t);
    }
    ValueOfMagnitude(s, 16, ds);
  }

  /** Hex digits without a prefix are not mistaken for one: the second
      character is a digit, or the `rest`, and neither is an `x`. */
  lemma BareHexMagnitude(ds: string, rest: string)
    requires ds != [] && AllDigits(ds, 16)
    requires rest == [] || (!IsDigit(rest[0], 16) && rest[0] != 'x' && rest[0] != 'X')
    ensures Magnitude(ds + rest, 16) == ds + rest && !IsNegative(ds + rest)
  {
    var t := ds + rest;
    assert t[0] == ds[0];
    if |t| >= 2 {
      if |ds| >= 2 {
        assert t[1] == ds[1];
        DigitIsNotSpecial(ds[1], 16);
      } else {
        assert t[1] == rest[0];
      }
    }
    MagnitudeOfDigitStart(t, 16);
  }

  /** A non-negative reading whose leading digits are `ds` has their value. */
  lemma ValueOfMagnitude(s: string, base: Base, ds: string)
    requires LeadingDigits(Magnitude(s, base), base) == ds && !IsNegative(s)
    ensures StrToUnsigned(s, base) == if DigitsValue(ds, base) > ULongMax then ULongMax else DigitsValue(ds, base)
  {
  }
}
