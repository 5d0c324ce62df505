/** Bytes, fixed-width integers and the little-endian layouts the helper shares across its formats. */
module Bytes {

  type byte = x: int | 0 <= x < 256

  const TWO16: nat := 0x1_0000
  const TWO31: nat := 0x8000_0000
  const TWO32: nat := 0x1_0000_0000
  const TWO63: nat := 0x8000_0000_0000_0000
  const TWO64: nat := 0x1_0000_0000_0000_0000

  type uint32 = x: int | 0 <= x < 0x1_0000_0000
  type uint64 = x: int | 0 <= x < 0x1_0000_0000_0000_0000

  datatype Option<+T> = None | Some(value: T)

  function Min(a: int, b: int): int {
    if a < b then a else b
  }

  /** The two's-complement view of the low 32 bits of an unsigned value. */
  function ToInt32(v: nat): int {
    var w := v % TWO32;
    if w < TWO31 then w else w - TWO32
  }

  /** The 32 bits of a signed value, as an unsigned one. */
  function FromInt32(v: int): nat
    requires -(TWO31 as int) <= v < TWO31
  {
    if v < 0 then v + TWO32 else v
  }

  function LE16(v: nat): (s: seq<byte>)
    requires v < TWO16
  {
    [v % 256, v / 256]
  }

  function LE32(v: nat): (s: seq<byte>)
    requires v < TWO32
  {
    [v % 256, v / 256 % 256, v / 65536 % 256, v / 16777216]
  }

  function ReadLE32(s: seq<byte>): nat
    requires |s| == 4
  {
    s[0] as int + 256 * (s[1] as int) + 65536 * (s[2] as int) + 16777216 * (s[3] as int)
  }

  lemma LE32Inverse(v: nat)
    requires v < TWO32
    ensures ReadLE32(LE32(v)) == v
  {
    var q1, q2 := v / 256, v / 65536;
    assert q1 / 256 == q2 && q2 / 256 == v / 16777216;
    assert v == 256 * q1 + v % 256 && q1 == 256 * q2 + q1 % 256 && q2 == 256 * (q2 / 256) + q2 % 256;
  }

  /** ReadLE32 is one-to-one, so a header fixes its four bytes. */
  lemma ReadLE32Inverse(s: seq<byte>)
    requires |s| == 4
    ensures ReadLE32(s) < TWO32 && LE32(ReadLE32(s)) == s
  {
    var v := ReadLE32(s);
    var b1, b2, b3 := s[1] as int, s[2] as int, s[3] as int;
    assert v / 256 == b1 + 256 * b2 + 65536 * b3;
    assert v / 65536 == b2 + 256 * b3;
    assert v / 16777216 == b3;
  }

  /** The decimal digits std::to_string writes. */
  function Decimal(n: nat): (s: seq<byte>)
    ensures |s| > 0
    ensures forall i | 0 <= i < |s| :: 48 <= s[i] <= 57
  {
    if n < 10 then [48 + n] else Decimal(n / 10) + [48 + n % 10]
  }

  lemma {:induction false} DecimalInjective(a: nat, b: nat)
    requires Decimal(a) == Decimal(b)
    ensures a == b
    decreases a
  {
    var s := Decimal(a);
    if a >= 10 && b >= 10 {
      assert Decimal(a)[..|s| - 1] == Decimal(a / 10);
      assert Decimal(b)[..|s| - 1] == Decimal(b / 10);
      assert Decimal(a)[|s| - 1] == 48 + a % 10;
      assert Decimal(b)[|s| - 1] == 48 + b % 10;
      DecimalInjective(a / 10, b / 10);
    }
  }

  /** Bytes of a field, lowest first. */
  lemma LittleEndian(v: nat)
    ensures v < 0x1_0000 ==> v == LE16(v)[0] as int + 256 * (LE16(v)[1] as int)
    ensures v < 0x1_0000_0000 ==>
              |LE32(v)| == 4 &&
              v == LE32(v)[0] as int + 0x100 * (LE32(v)[1] as int) + 0x1_0000 * (LE32(v)[2] as int) +
                   0x100_0000 * (LE32(v)[3] as int)
  {
    if v < TWO32 { LE32Inverse(v); }
  }

  /** The number a string of decimal digits stands for. */
  ghost function DigitsValue(digits: seq<byte>): int {
    if digits == [] then 0 else 10 * DigitsValue(digits[..|digits| - 1]) + (digits[|digits| - 1] as int - 48)
  }

  /** Decimal writes the number itself, without a leading zero. */
  lemma {:induction false} DecimalValue(n: nat)
    ensures DigitsValue(Decimal(n)) == n && (n > 0 ==> Decimal(n)[0] != 48) && (n == 0 ==> Decimal(n) == [48])
    decreases n
  {
    if n >= 10 {
      DecimalValue(n / 10);
      assert Decimal(n)[..|Decimal(n)| - 1] == Decimal(n / 10);
    } else {
      assert [48 + n as byte][..0] == [];
    }
  }
}
