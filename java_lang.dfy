/**
 * The few pieces of the Java platform the modelled classes rely on:
 * 32-bit `int` arithmetic with wrap-around, `^` on `int`, the decimal text
 * of an `int` (string concatenation), `String.toLowerCase` (ASCII only),
 * `String.trim` and the `Class` objects used as type tags.
 */
module JavaLang {

  const INT32_MIN: int := -0x8000_0000
  const INT32_MAX: int := 0x7fff_ffff
  const TWO_TO_THE_32: int := 0x1_0000_0000

  /** Java's `int`. */
  type int32 = v: int | -0x8000_0000 <= v < 0x8000_0000

  /** Java's `byte`. */
  type int8 = v: int | -0x80 <= v < 0x80

  /** Two's-complement wrap-around of an exact integer result into an `int`. */
  function Wrap32(v: int): (r: int32)
    ensures (v - r) % TWO_TO_THE_32 == 0
    ensures INT32_MIN <= v <= INT32_MAX ==> r == v
  {
    var m := v % TWO_TO_THE_32;
    assert v == TWO_TO_THE_32 * (v / TWO_TO_THE_32) + m;
    if m < 0x8000_0000 then m else m - TWO_TO_THE_32
  }

  function Pow2(k: nat): (r: nat)
    ensures r >= 1
  {
    if k == 0 then 1 else 2 * Pow2(k - 1)
  }

  lemma Pow2Of32()
    ensures Pow2(32) == TWO_TO_THE_32
  {
    assert Pow2(8) == 256;
    assert Pow2(16) == 65536;
    assert Pow2(24) == 0x100_0000;
  }

  /** Bitwise exclusive or of two naturals, lowest bit first. */
  function XorNat(a: nat, b: nat): (r: nat)
    decreases a + b
  {
    if a == 0 && b == 0 then 0 else (if a % 2 == b % 2 then 0 else 1) + 2 * XorNat(a / 2, b / 2)
  }

  lemma {:induction false} XorNatBelow(a: nat, b: nat, k: nat)
    requires a < Pow2(k) && b < Pow2(k)
    ensures XorNat(a, b) < Pow2(k)
    decreases k
  {
    if k > 0 && !(a == 0 && b == 0) {
      XorNatBelow(a / 2, b / 2, k - 1);
    }
  }

  lemma {:induction false} XorNatSymmetric(a: nat, b: nat)
    ensures XorNat(a, b) == XorNat(b, a)
    decreases a + b
  {
    if !(a == 0 && b == 0) {
      XorNatSymmetric(a / 2, b / 2);
    }
  }

  lemma {:induction false} XorNatWithZero(a: nat)
    ensures XorNat(a, 0) == a
    decreases a
  {
    if a != 0 {
      XorNatWithZero(a / 2);
    }
  }

  lemma {:induction false} XorNatSelf(a: nat)
    ensures XorNat(a, a) == 0
    decreases a
  {
    if a != 0 {
      XorNatSelf(a / 2);
    }
  }

  /** Xoring by `b` twice gives back what one started from. */
  lemma {:induction false} XorNatCancel(a: nat, b: nat)
    ensures XorNat(XorNat(a, b), b) == a
    decreases a + b
  {
    if a == 0 && b == 0 {
    } else {
      var c := XorNat(a, b);
      assert c % 2 == (if a % 2 == b % 2 then 0 else 1) && c / 2 == XorNat(a / 2, b / 2);
      XorNatCancel(a / 2, b / 2);
      if c == 0 && b == 0 {
        XorNatWithZero(a);
      }
    }
  }

  function Unsigned32(v: int32): (u: nat)
    ensures u < TWO_TO_THE_32
    ensures v >= 0 ==> u == v
    ensures v < 0 ==> u == v + TWO_TO_THE_32
  {
    v % TWO_TO_THE_32
  }

  function Signed32(u: nat): (v: int32)
    requires u < TWO_TO_THE_32
    ensures Unsigned32(v) == u
  {
    if u < 0x8000_0000 then u else u - TWO_TO_THE_32
  }

  /** Java's `a ^ b` on `int`: the exclusive or of the two's-complement bits. */
  function Xor32(a: int32, b: int32): (r: int32)
    ensures Unsigned32(r) == XorNat(Unsigned32(a), Unsigned32(b))
  {
    Pow2Of32();
    XorNatBelow(Unsigned32(a), Unsigned32(b), 32);
    Signed32(XorNat(Unsigned32(a), Unsigned32(b)))
  }

  lemma XorCommutes(a: int32, b: int32)
    ensures Xor32(a, b) == Xor32(b, a)
  {
    XorNatSymmetric(Unsigned32(a), Unsigned32(b));
  }

  lemma XorWithZero(a: int32)
    ensures Xor32(a, 0) == a && Xor32(0, a) == a && Xor32(a, a) == 0
  {
    XorNatWithZero(Unsigned32(a));
    XorNatSymmetric(Unsigned32(a), 0);
    XorNatSelf(Unsigned32(a));
  }

  lemma XorCancels(a: int32, b: int32)
    ensures Xor32(Xor32(a, b), b) == a
  {
    XorNatCancel(Unsigned32(a), Unsigned32(b));
  }

  // ---------------------------------------------------------------------
  // Decimal text of an int, as produced by `"" + n` in Java.

  predicate IsDigit(c: char) {
    '0' <= c <= '9'
  }

  predicate IsDigits(s: string) {
    forall i :: 0 <= i < |s| ==> IsDigit(s[i])
  }

  function DigitChar(d: nat): (c: char)
    requires d < 10
    ensures IsDigit(c) && c as int - '0' as int == d
  {
    (d + '0' as int) as char
  }

  /** The decimal digits of `n`, without leading zeros. */
  function NatToDecimal(n: nat): (s: string)
    ensures |s| >= 1 && IsDigits(s)
    ensures |s| > 1 ==> s[0] != '0'
  {
    if n < 10 then [DigitChar(n)] else NatToDecimal(n / 10) + [DigitChar(n % 10)]
  }

  /** The number that a string of decimal digits denotes. */
  function DecimalValue(s: string): (n: nat)
    requires IsDigits(s)
  {
    if s == [] then 0 else DecimalValue(s[..|s| - 1]) * 10 + (s[|s| - 1] as int - '0' as int)
  }

  lemma {:induction false} DecimalRoundTrip(n: nat)
    ensures DecimalValue(NatToDecimal(n)) == n
  {
    if n >= 10 {
      var s := NatToDecimal(n);
      assert s[..|s| - 1] == NatToDecimal(n / 10);
      DecimalRoundTrip(n / 10);
    }
  }

  /** Java's decimal text of an `int`: an optional minus sign, then the digits. */
  function IntToString(n: int): (s: string)
    ensures |s| >= 1
    ensures forall i :: 0 <= i < |s| ==> IsDigit(s[i]) || (i == 0 && s[i] == '-')
    ensures s[0] == '-' <==> n < 0
  {
    if n < 0 then "-" + NatToDecimal(-n) else NatToDecimal(n)
  }

  /** Reads back the text that `IntToString` produces. */
  function ParseInt(s: string): (n: int)
    requires forall i :: 0 <= i < |s| ==> IsDigit(s[i]) || (i == 0 && s[i] == '-')
  {
    if |s| > 0 && s[0] == '-' then -(DecimalValue(s[1..]) as int) else DecimalValue(s)
  }

  lemma IntToStringRoundTrip(n: int)
    ensures ParseInt(IntToString(n)) == n
  {
    if n < 0 {
      assert IntToString(n)[1..] == NatToDecimal(-n);
      DecimalRoundTrip(-n);
    } else {
      DecimalRoundTrip(n);
    }
  }

  lemma IntToStringInjective(a: int, b: int)
    ensures IntToString(a) == IntToString(b) <==> a == b
  {
    IntToStringRoundTrip(a);
    IntToStringRoundTrip(b);
  }

  // ---------------------------------------------------------------------
  // String.toLowerCase, restricted to ASCII letters.

  predicate IsUpper(c: char) {
    'A' <= c <= 'Z'
  }

  function ToLowerChar(c: char): (d: char)
    ensures !IsUpper(d)
    ensures IsUpper(c) ==> d as int == c as int + 32
    ensures !IsUpper(c) ==> d == c
  {
    if IsUpper(c) then (c as int + 32) as char else c
  }

  function ToLower(s: string): (r: string)
    ensures |r| == |s|
    ensures forall i :: 0 <= i < |s| ==> r[i] == ToLowerChar(s[i])
  {
    seq(|s|, i requires 0 <= i < |s| => ToLowerChar(s[i]))
  }

  lemma ToLowerIdempotent(s: string)
    ensures ToLower(ToLower(s)) == ToLower(s)
  {
    assert forall i :: 0 <= i < |s| ==> ToLower(ToLower(s))[i] == ToLower(s)[i];
  }

  lemma ToLowerHasNoUpper(s: string)
    ensures forall i :: 0 <= i < |ToLower(s)| ==> !IsUpper(ToLower(s)[i])
  {
  }

  // ---------------------------------------------------------------------
  // String.trim: removes every leading and trailing character <= ' '.

  predicate IsTrimmable(c: char) {
    c <= ' '
  }

  function TrimStart(s: string): (r: string)
    ensures |r| <= |s| && r == s[|s| - |r|..]
    ensures forall i :: 0 <= i < |s| - |r| ==> IsTrimmable(s[i])
    ensures r != [] ==> !IsTrimmable(r[0])
  {
    if s != [] && IsTrimmable(s[0]) then TrimStart(s[1..]) else s
  }

  function TrimEnd(s: string): (r: string)
    ensures |r| <= |s| && r == s[..|r|]
    ensures forall i :: |r| <= i < |s| ==> IsTrimmable(s[i])
    ensures r != [] ==> !IsTrimmable(r[|r| - 1])
  {
    if s != [] && IsTrimmable(s[|s| - 1]) then TrimEnd(s[..|s| - 1]) else s
  }

  /** Java's `String.trim()`. */
  function Trim(s: string): (r: string)
    ensures r != [] ==> !IsTrimmable(r[0]) && !IsTrimmable(r[|r| - 1])
  {
    TrimEnd(TrimStart(s))
  }

  /** Trimming a text that starts with a visible character and ends with one blank removes just that blank. */
  lemma TrimDropsOneTrailingBlank(s: string)
    requires |s| >= 2 && !IsTrimmable(s[0]) && !IsTrimmable(s[|s| - 2]) && IsTrimmable(s[|s| - 1])
    ensures Trim(s) == s[..|s| - 1]
  {
    assert TrimStart(s) == s;
    var e := s[..|s| - 1];
    assert TrimEnd(s) == TrimEnd(e);
    assert TrimEnd(e) == e;
  }

  // ---------------------------------------------------------------------

  /** The `Class` objects of the model: the boxed types the settings code tests for, or any other class. */
  datatype JavaClass =
    | StringClass | BooleanClass | FloatClass | DoubleClass
    | ByteClass | ShortClass | IntegerClass | LongClass
    | OtherClass(name: string)
}
