/** Little-endian fields at fixed offsets of a byte buffer. */
module Layout {
  import opened Bytes

  function Zeros(n: nat): seq<byte> {
    seq(n, i => 0 as byte)
  }

  function U16At(s: seq<byte>, at: nat): nat
    requires at + 2 <= |s|
  {
    s[at] as int + 256 * (s[at + 1] as int)
  }

  function U32At(s: seq<byte>, at: nat): nat
    requires at + 4 <= |s|
  {
    s[at] as int + 256 * (s[at + 1] as int) + 65536 * (s[at + 2] as int) + 16777216 * (s[at + 3] as int)
  }

  /** A field is the value whose little-endian bytes stand there. */
  lemma FieldBytes(s: seq<byte>, at: nat)
    ensures at + 2 <= |s| ==> U16At(s, at) < TWO16 && s[at..at + 2] == LE16(U16At(s, at))
    ensures at + 4 <= |s| ==> U32At(s, at) < TWO32 && s[at..at + 4] == LE32(U32At(s, at))
  {
    if at + 4 <= |s| { ReadLE32Inverse(s[at..at + 4]); }
  }

  predicate Apart(a: int, n: nat, b: int, m: nat) {
    a + n <= b || b + m <= a
  }

  /** Overwrite 16 bits; every other field stays what it is. */
  function Poke16(s: seq<byte>, at: nat, v: nat): (r: seq<byte>)
    requires at + 2 <= |s| && v < TWO16
    ensures |r| == |s| && U16At(r, at) == v
    ensures forall b | 0 <= b <= |s| - 4 && Apart(at, 2, b, 4) :: U32At(r, b) == U32At(s, b)
    ensures forall b | 0 <= b <= |s| - 2 && Apart(at, 2, b, 2) :: U16At(r, b) == U16At(s, b)
    ensures forall i | 0 <= i < |s| && Apart(at, 2, i, 1) :: r[i] == s[i]
  {
    s[at := v % 256][at + 1 := v / 256]
  }

  /** Overwrite 32 bits; every other field stays what it is. */
  function Poke32(s: seq<byte>, at: nat, v: nat): (r: seq<byte>)
    requires at + 4 <= |s| && v < TWO32
    ensures |r| == |s| && U32At(r, at) == v
    ensures forall b | 0 <= b <= |s| - 4 && Apart(at, 4, b, 4) :: U32At(r, b) == U32At(s, b)
    ensures forall b | 0 <= b <= |s| - 2 && Apart(at, 4, b, 2) :: U16At(r, b) == U16At(s, b)
    ensures forall i | 0 <= i < |s| && Apart(at, 4, i, 1) :: r[i] == s[i]
  {
    LE32Inverse(v);
    s[at := v % 256][at + 1 := v / 256 % 256][at + 2 := v / 65536 % 256][at + 3 := v / 16777216]
  }

  method Put16(a: array<byte>, at: nat, v: nat)
    requires at + 2 <= a.Length && v < TWO16
    modifies a
    ensures a[..] == Poke16(old(a[..]), at, v)
  {
    a[at], a[at + 1] := v % 256, v / 256;
  }

  method Put32(a: array<byte>, at: nat, v: nat)
    requires at + 4 <= a.Length && v < TWO32
    modifies a
    ensures a[..] == Poke32(old(a[..]), at, v)
  {
    a[at], a[at + 1] := v % 256, v / 256 % 256;
    a[at + 2], a[at + 3] := v / 65536 % 256, v / 16777216;
  }

  /** memcpy into a buffer. */
  method Copy(a: array<byte>, at: nat, data: seq<byte>)
    requires at + |data| <= a.Length
    modifies a
    ensures a[..] == old(a[..at]) + data + old(a[at + |data|..])
  {
    var i := 0;
    while i < |data|
      invariant 0 <= i <= |data|
      invariant forall k | 0 <= k < a.Length :: a[k] == if at <= k < at + i then data[k - at] else old(a[k])
    {
      a[at + i] := data[i];
      i := i + 1;
    }
  }
}
