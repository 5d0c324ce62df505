/** The protobuf wire layer: base-128 varints, tags and fields, as a printer and as a reader over a cursor. */
module ProtoWire {
  import opened Bytes

  /** What reading from the front of a byte sequence yields: a value and the number of bytes it took. */
  datatype Scan<+T> = NoMatch | Match(value: T, used: nat)

  // ---------------------------------------------------------------- varints

  /** The encoding of an unsigned value: seven bits a byte, low bits first, the top bit set on all but the last. */
  function VarintBytes(v: nat): (s: seq<byte>)
    ensures |s| > 0
  {
    if v < 128 then [v] else [v % 128 + 128] + VarintBytes(v / 128)
  }

  /** The weight of the k-th varint byte: the reader's `<< shift` with shift == 7 * k. */
  function Weight(k: nat): (w: nat)
    ensures w > 0
  {
    if k == 0 then 1 else 128 * Weight(k - 1)
  }

  lemma WeightBound(k: nat)
    requires k <= 9
    ensures Weight(k) <= TWO63
    ensures k <= 8 ==> Weight(k) * 128 <= TWO63
    ensures k == 9 ==> Weight(k) == TWO63
  {
    assert Weight(1) == 128 && Weight(2) == 128 * 128;
    assert Weight(3) == 128 * 128 * 128;
    assert Weight(4) == 128 * Weight(3);
    assert Weight(5) == 128 * Weight(4);
    assert Weight(6) == 128 * Weight(5);
    assert Weight(7) == 128 * Weight(6);
    assert Weight(8) == 128 * Weight(7);
    assert Weight(9) == 128 * Weight(8);
  }

  /** Adding the byte `b` at position `k`; the shift drops what does not fit in 64 bits. */
  function Accumulate(acc: nat, b: byte, k: nat): nat {
    acc + ((b % 128) as int * Weight(k)) % TWO64
  }

  /** The tenth byte keeps its low bit only. */
  lemma WrapAt63(c: nat)
    ensures (c * 0x8000_0000_0000_0000) % 0x1_0000_0000_0000_0000 == (c % 2) * 0x8000_0000_0000_0000
  {
    var h, l := c / 2, c % 2;
    assert c == 2 * h + l;
    assert c * 0x8000_0000_0000_0000 == h * 0x1_0000_0000_0000_0000 + l * 0x8000_0000_0000_0000;
  }

  lemma MulMono(a: nat, b: nat, w: nat)
    requires a <= b
    ensures a * w <= b * w
  {
  }

  lemma SplitWeight(m: nat, d: nat, w: nat)
    ensures m * w + d * (128 * w) == (128 * d + m) * w
  {
  }

  lemma ShiftFits(acc: nat, c: nat, w: nat)
    requires acc < w && c < 128 && 128 * w <= TWO63
    ensures c * w < TWO64 && acc + c * w < 128 * w
  {
    MulMono(c, 127, w);
  }

  lemma AccumulateBound(acc: nat, b: byte, k: nat)
    requires k <= 9 && acc < Weight(k)
    ensures Accumulate(acc, b, k) < TWO64
    ensures k < 9 ==> Accumulate(acc, b, k) == acc + (b % 128) as int * Weight(k) < Weight(k + 1)
  {
    WeightBound(k);
    var c := (b % 128) as int;
    if k < 9 {
      ShiftFits(acc, c, Weight(k));
      assert Weight(k + 1) == 128 * Weight(k);
    } else {
      WrapAt63(c);
      assert Weight(k) == 0x8000_0000_0000_0000;
    }
  }

  function ScanVarint(s: seq<byte>, k: nat := 0, acc: nat := 0): (r: Scan<nat>)
    requires k <= 9 && acc < Weight(k)
    ensures r.Match? ==> r.value < TWO64 && 1 <= r.used <= |s| && r.used <= 10 - k
    decreases |s|
  {
    if s == [] then NoMatch else
    AccumulateBound(acc, s[0], k);
    var v := Accumulate(acc, s[0], k);
    if s[0] < 128 then Match(v, 1)
    else if k == 9 then NoMatch
    else match ScanVarint(s[1..], k + 1, v)
      case NoMatch => NoMatch
      case Match(x, n) => Match(x, n + 1)
  }

  lemma LastByte(v: nat, k: nat)
    requires v < 128 && k <= 9 && v * Weight(k) < TWO64
    ensures (v * Weight(k)) % TWO64 == v * Weight(k)
  {
    var product := v * Weight(k);
  }

  lemma {:induction false} ScanVarintBytes(v: nat, rest: seq<byte>, k: nat, acc: nat)
    requires k <= 9 && acc < Weight(k)
    requires acc + v * Weight(k) < TWO64
    ensures ScanVarint(VarintBytes(v) + rest, k, acc) == Match(acc + v * Weight(k), |VarintBytes(v)|)
    decreases v
  {
    var s := VarintBytes(v) + rest;
    AccumulateBound(acc, s[0], k);
    if v < 128 {
      assert s[0] == v;
      LastByte(v, k);
    } else {
      var d, m := v / 128, v % 128;
      if k == 9 {
        MulMono(128, v, Weight(k));
        assert false;
      }
      assert s[0] == m + 128 && s[0] % 128 == m;
      assert s[1..] == VarintBytes(d) + rest;
      assert Weight(k + 1) == 128 * Weight(k);
      SplitWeight(m, d, Weight(k));
      ScanVarintBytes(d, rest, k + 1, Accumulate(acc, s[0], k));
    }
  }

  /** Reading a written uint64 returns it and stops exactly at whatever follows. */
  lemma VarintRoundTrip(v: nat, rest: seq<byte>)
    requires v < TWO64
    ensures ScanVarint(VarintBytes(v) + rest) == Match(v, |VarintBytes(v)|)
    ensures 1 <= |VarintBytes(v)| <= 10
  {
    ScanVarintBytes(v, rest, 0, 0);
  }

  lemma {:induction false} VarintLength(v: nat, n: nat)
    requires n > 0 && v < Weight(n)
    ensures |VarintBytes(v)| <= n
    decreases n
  {
    if v >= 128 {
      assert Weight(1) == 128;
      assert Weight(n) == 128 * Weight(n - 1);
      VarintLength(v / 128, n - 1);
    }
  }

  lemma {:induction false} ScanVarintBound(s: seq<byte>, k: nat, acc: nat)
    requires k <= 9 && acc < Weight(k) && ScanVarint(s, k, acc).Match?
    ensures k + ScanVarint(s, k, acc).used <= 9 ==> ScanVarint(s, k, acc).value < Weight(k + ScanVarint(s, k, acc).used)
    decreases |s|
  {
    AccumulateBound(acc, s[0], k);
    if s[0] >= 128 {
      ScanVarintBound(s[1..], k + 1, Accumulate(acc, s[0], k));
    }
  }

  /** No byte string that reads as v is shorter than the one the writer produces. */
  lemma VarintMinimal(s: seq<byte>)
    requires ScanVarint(s).Match?
    ensures |VarintBytes(ScanVarint(s).value)| <= ScanVarint(s).used
  {
    var r := ScanVarint(s);
    if r.used <= 9 {
      ScanVarintBound(s, 0, 0);
      VarintLength(r.value, r.used);
    } else {
      VarintRoundTrip(r.value, []);
    }
  }

  /** The value of base-128 digits, low digits first; a byte's top bit is no part of its digit. */
  ghost function Digits(s: seq<byte>): nat {
    if s == [] then 0 else s[0] % 128 + 128 * Digits(s[1..])
  }

  lemma DigitsOne(s: seq<byte>)
    requires |s| == 1
    ensures Digits(s) == s[0] % 128
  {
    assert s[1..] == [];
  }

  /** The tenth digit loses all but its low bit, so nothing carries past 64 bits. */
  lemma LastDigit(acc: nat, b: byte, k: nat)
    requires k <= 9 && acc < Weight(k)
    ensures Accumulate(acc, b, k) == (acc + (b % 128) as int * Weight(k)) % TWO64
  {
    AccumulateBound(acc, b, k);
    WeightBound(k);
    if k == 9 {
      TenthDigit(acc, (b % 128) as int);
    } else {
      WeightBound(k + 1);
      hide Accumulate, Weight;
    }
  }

  lemma TenthDigit(acc: nat, c: nat)
    requires acc < 0x8000_0000_0000_0000
    ensures acc + (c * 0x8000_0000_0000_0000) % 0x1_0000_0000_0000_0000 ==
            (acc + c * 0x8000_0000_0000_0000) % 0x1_0000_0000_0000_0000
  {
    WrapAt63(c);
    assert c == 2 * (c / 2) + c % 2;
    ModDrops(acc + c % 2 * 0x8000_0000_0000_0000, c / 2);
  }

  lemma ModDrops(a: nat, h: nat)
    requires a < 0x1_0000_0000_0000_0000
    ensures (a + h * 0x1_0000_0000_0000_0000) % 0x1_0000_0000_0000_0000 == a
  {
  }

  lemma {:induction false} VarintReads(s: seq<byte>, k: nat, acc: nat)
    requires k <= 9 && acc < Weight(k)
    ensures var r := ScanVarint(s, k, acc);
            if r.Match? then
              s[r.used - 1] < 128 && (forall i | 0 <= i < r.used - 1 :: s[i] >= 128) &&
              r.value == (acc + Digits(s[..r.used]) * Weight(k)) % TWO64
            else forall i | 0 <= i < |s| && i < 10 - k :: s[i] >= 128
    decreases |s|
  {
    if s != [] {
      var next := Accumulate(acc, s[0], k);
      AccumulateBound(acc, s[0], k);
      if s[0] < 128 {
        DigitsOne(s[..1]);
        LastDigit(acc, s[0], k);
      } else if k < 9 {
        VarintReads(s[1..], k + 1, next);
        if ScanVarint(s, k, acc).Match? {
          var n := ScanVarint(s, k, acc).used;
          assert s[..n][1..] == s[1..][..n - 1] && s[..n][0] == s[0];
          assert s[n - 1] == s[1..][n - 2];
          forall i | 0 <= i < n - 1 ensures s[i] >= 128 {
            if i > 0 { assert s[i] == s[1..][i - 1]; }
          }
          SplitWeight(s[0] % 128, Digits(s[1..][..n - 1]), Weight(k));
        } else {
          forall i | 0 <= i < |s| && i < 10 - k ensures s[i] >= 128 {
            if i > 0 { assert s[i] == s[1..][i - 1]; }
          }
        }
      }
    }
  }

  /** What any bytes read as: the bytes up to the first below 128, which must be among the first ten, are base-128 digits
      of the value, low digits first, cut to 64 bits. */
  lemma VarintMeaning(s: seq<byte>)
    ensures var r := ScanVarint(s);
            if r.Match? then
              r.used <= 10 && s[r.used - 1] < 128 && (forall i | 0 <= i < r.used - 1 :: s[i] >= 128) &&
              r.value == Digits(s[..r.used]) % 0x1_0000_0000_0000_0000
            else forall i | 0 <= i < |s| && i < 10 :: s[i] >= 128
  {
    VarintReads(s, 0, 0);
  }

  /** Sign extension of an int32 to the 64 bits the writer emits. */
  function SignExtend(v: int): uint64
    requires -(TWO31 as int) <= v < TWO31
  {
    if v < 0 then v + TWO64 else v
  }

  /** An int32 survives the wire; a negative one always takes ten bytes. */
  lemma Int32RoundTrip(v: int, rest: seq<byte>)
    requires -(TWO31 as int) <= v < TWO31
    ensures ScanVarint(VarintBytes(SignExtend(v)) + rest).Match?
    ensures ToInt32(ScanVarint(VarintBytes(SignExtend(v)) + rest).value) == v
    ensures v < 0 ==> |VarintBytes(SignExtend(v))| == 10
  {
    var u := SignExtend(v);
    VarintRoundTrip(u, rest);
    if v < 0 {
      assert u % TWO32 == v + TWO32;
      VarintRoundTrip(u, []);
      if |VarintBytes(u)| <= 9 {
        ScanVarintBound(VarintBytes(u) + [], 0, 0);
        WeightBound(9);
        VarintWeightMono(|VarintBytes(u)|, 9);
        assert false;
      }
    }
  }

  lemma {:induction false} VarintWeightMono(a: nat, b: nat)
    requires a <= b
    ensures Weight(a) <= Weight(b)
    decreases b - a
  {
    if a < b {
      assert Weight(a + 1) == 128 * Weight(a);
      VarintWeightMono(a + 1, b);
    }
  }

  // ----------------------------------------------------------------- fields

  const VARINT: nat := 0
  const FIXED64: nat := 1
  const LENGTH_DELIM: nat := 2
  const FIXED32: nat := 5

  datatype Payload = Number(n: uint64) | Eight(bytes: seq<byte>) | Blob(data: seq<byte>) | Four(bytes: seq<byte>)
  {
    function Wire(): nat {
      match this
      case Number(_) => VARINT
      case Eight(_) => FIXED64
      case Blob(_) => LENGTH_DELIM
      case Four(_) => FIXED32
    }

    /** The payloads the wire can carry. */
    predicate Fits() {
      match this
      case Number(_) => true
      case Eight(b) => |b| == 8
      case Blob(d) => |d| < TWO64
      case Four(b) => |b| == 4
    }
  }

  datatype Field = Field(number: nat, payload: Payload)
  {
    predicate Fits() {
      number < TWO32 / 8 && payload.Fits()
    }
  }

  datatype Tag = Tag(number: nat, wire: nat)

  /** The field number is cut to 32 bits, as the reader's cast does. */
  function ScanTag(s: seq<byte>): Scan<Tag> {
    match ScanVarint(s)
    case NoMatch => NoMatch
    case Match(t, n) => Match(Tag(t / 8 % TWO32, t % 8), n)
  }

  function ScanBlob(s: seq<byte>): (r: Scan<seq<byte>>)
    ensures r.Match? ==> 1 <= r.used <= |s|
  {
    match ScanVarint(s)
    case NoMatch => NoMatch
    case Match(len, n) => if len > |s| - n then NoMatch else Match(s[n..n + len], n + len)
  }

  /** The payload of a field of the given wire type; group and reserved wire types are refused. */
  function ScanPayload(wire: nat, s: seq<byte>): (r: Scan<Payload>)
    ensures r.Match? ==> r.used <= |s| && r.value.Wire() == wire
  {
    if wire == VARINT then
      match ScanVarint(s) case NoMatch => NoMatch case Match(v, n) => Match(Number(v), n)
    else if wire == FIXED64 then
      if |s| < 8 then NoMatch else Match(Eight(s[..8]), 8)
    else if wire == LENGTH_DELIM then
      match ScanBlob(s) case NoMatch => NoMatch case Match(d, n) => Match(Blob(d), n)
    else if wire == FIXED32 then
      if |s| < 4 then NoMatch else Match(Four(s[..4]), 4)
    else
      NoMatch
  }

  function ScanField(s: seq<byte>): (r: Scan<Field>)
    ensures r.Match? ==> 1 <= r.used <= |s|
  {
    match ScanTag(s)
    case NoMatch => NoMatch
    case Match(t, n) =>
      match ScanPayload(t.wire, s[n..])
      case NoMatch => NoMatch
      case Match(p, m) => Match(Field(t.number, p), n + m)
  }

  /** A whole buffer as its sequence of fields, or None when some field is malformed or cut short. */
  function ScanFields(s: seq<byte>): Option<seq<Field>>
    decreases |s|
  {
    if s == [] then Some([]) else
    match ScanField(s)
    case NoMatch => None
    case Match(f, n) => Prepend([f], ScanFields(s[n..]))
  }

  function Prepend(front: seq<Field>, tail: Option<seq<Field>>): Option<seq<Field>> {
    match tail case None => None case Some(fs) => Some(front + fs)
  }

  lemma PrependPrepend(a: seq<Field>, b: seq<Field>, tail: Option<seq<Field>>)
    ensures Prepend(a, Prepend(b, tail)) == Prepend(a + b, tail)
  {
    if tail.Some? {
      Associates(a, b, tail.value);
    }
  }

  function FieldBytes(f: Field): (s: seq<byte>)
    ensures |s| > 0
  {
    VarintBytes((f.number * 8) % TWO32 + f.payload.Wire()) + PayloadBytes(f.payload)
  }

  function FieldsBytes(fs: seq<Field>): seq<byte> {
    if fs == [] then [] else FieldBytes(fs[0]) + FieldsBytes(fs[1..])
  }

  lemma {:induction false} FieldsBytesConcat(a: seq<Field>, b: seq<Field>)
    ensures FieldsBytes(a + b) == FieldsBytes(a) + FieldsBytes(b)
    decreases |a|
  {
    if a == [] {
      assert a + b == b;
    } else {
      assert (a + b)[1..] == a[1..] + b;
      FieldsBytesConcat(a[1..], b);
      Associates(FieldBytes(a[0]), FieldsBytes(a[1..]), FieldsBytes(b));
    }
  }

  lemma Empties<T>(a: seq<T>)
    ensures [] + a == a && a + [] == a
  {
  }

  lemma Associates<T>(a: seq<T>, b: seq<T>, c: seq<T>)
    ensures a + b + c == a + (b + c)
  {
  }

  lemma ScanBlobBytes(d: seq<byte>, rest: seq<byte>)
    requires |d| < TWO64
    ensures ScanBlob(VarintBytes(|d|) + d + rest) == Match(d, |VarintBytes(|d|)| + |d|)
  {
    var head := VarintBytes(|d|);
    var s := head + d + rest;
    assert s == head + (d + rest);
    VarintRoundTrip(|d|, d + rest);
    assert s[|head|..|head| + |d|] == d;
  }

  function PayloadBytes(p: Payload): seq<byte> {
    match p
    case Number(n) => VarintBytes(n)
    case Eight(b) => b
    case Blob(d) => VarintBytes(|d|) + d
    case Four(b) => b
  }

  /** A field with a number below 16, byte by byte: one tag byte, the number above three bits of wire type (0 varint, 1
      eight bytes, 2 length and bytes, 5 four bytes), then the payload. */
  lemma FieldByByte(number: nat, p: Payload)
    requires number < 16
    ensures FieldBytes(Field(number, p)) ==
            match p
            case Number(n) => [8 * number] + VarintBytes(n)
            case Eight(b) => [8 * number + 1] + b
            case Blob(d) => [8 * number + 2] + VarintBytes(|d|) + d
            case Four(b) => [8 * number + 5] + b
  {
    if p.Blob? {
      Associates([8 * number + 2], VarintBytes(|p.data|), p.data);
    }
  }

  /** What any bytes read as: a varint, its low three bits the wire type and the rest, cut to 32 bits, the number; then
      by wire type a varint, eight bytes, a counted string or four bytes, and nothing for the other four types. */
  lemma FieldMeaning(s: seq<byte>)
    ensures var tag := ScanVarint(s);
            if tag.NoMatch? then ScanField(s) == NoMatch else
            var wire, number, rest := tag.value % 8, tag.value / 8 % 0x1_0000_0000, s[tag.used..];
            var v := ScanVarint(rest);
            ScanField(s) ==
            if wire == 0 && v.Match? then Match(Field(number, Number(v.value)), tag.used + v.used)
            else if wire == 1 && |rest| >= 8 then Match(Field(number, Eight(rest[..8])), tag.used + 8)
            else if wire == 2 && v.Match? && v.value <= |rest| - v.used then
              Match(Field(number, Blob(rest[v.used..v.used + v.value])), tag.used + (v.used + v.value))
            else if wire == 5 && |rest| >= 4 then Match(Field(number, Four(rest[..4])), tag.used + 4)
            else NoMatch
  {
    hide ScanVarint;
  }

  lemma ScanPayloadBytes(p: Payload, rest: seq<byte>)
    requires p.Fits()
    ensures ScanPayload(p.Wire(), PayloadBytes(p) + rest) == Match(p, |PayloadBytes(p)|)
  {
    match p {
      case Number(n) => VarintRoundTrip(n, rest);
      case Eight(b) => assert (b + rest)[..8] == b;
      case Blob(d) => ScanBlobBytes(d, rest);
      case Four(b) => assert (b + rest)[..4] == b;
    }
  }

  lemma ScanTagged(t: nat, tail: seq<byte>, p: Payload, used: nat)
    requires t < TWO32 && ScanPayload(t % 8, tail) == Match(p, used)
    ensures ScanField(VarintBytes(t) + tail) == Match(Field(t / 8, p), |VarintBytes(t)| + used)
  {
    hide ScanVarint, VarintBytes, ScanPayload;
    VarintRoundTrip(t, tail);
    assert (VarintBytes(t) + tail)[|VarintBytes(t)|..] == tail;
  }

  lemma TagParts(number: nat, wire: nat)
    requires wire < 8
    ensures (number * 8 + wire) / 8 == number && (number * 8 + wire) % 8 == wire
  {
  }

  lemma ScanFieldBytes(f: Field, rest: seq<byte>)
    requires f.Fits()
    ensures ScanField(FieldBytes(f) + rest) == Match(f, |FieldBytes(f)|)
  {
    var t := f.number * 8 + f.payload.Wire();
    TagParts(f.number, f.payload.Wire());
    var body := PayloadBytes(f.payload);
    assert FieldBytes(f) == VarintBytes(t) + body;
    Associates(VarintBytes(t), body, rest);
    ScanPayloadBytes(f.payload, rest);
    ScanTagged(t, body + rest, f.payload, |body|);
  }

  /** Reading back what was printed gives the same fields in the same order. */
  lemma {:induction false} FieldsRoundTrip(fs: seq<Field>)
    requires forall f | f in fs :: f.Fits()
    ensures ScanFields(FieldsBytes(fs)) == Some(fs)
    decreases |fs|
  {
    if fs != [] {
      ScanFieldBytes(fs[0], FieldsBytes(fs[1..]));
      var s := FieldsBytes(fs);
      assert s[|FieldBytes(fs[0])|..] == FieldsBytes(fs[1..]);
      FieldsRoundTrip(fs[1..]);
      assert [fs[0]] + fs[1..] == fs;
    }
  }

  // ------------------------------------------------------ reading is local

  lemma {:induction false} ScanVarintLocal(s: seq<byte>, t: seq<byte>, k: nat, acc: nat)
    requires k <= 9 && acc < Weight(k) && ScanVarint(s, k, acc).Match?
    ensures ScanVarint(s + t, k, acc) == ScanVarint(s, k, acc)
    decreases |s|
  {
    assert (s + t)[0] == s[0];
    AccumulateBound(acc, s[0], k);
    if s[0] >= 128 {
      assert (s + t)[1..] == s[1..] + t;
      ScanVarintLocal(s[1..], t, k + 1, Accumulate(acc, s[0], k));
    }
  }

  lemma ScanBlobLocal(s: seq<byte>, t: seq<byte>)
    requires ScanBlob(s).Match?
    ensures ScanBlob(s + t) == ScanBlob(s)
  {
    ScanVarintLocal(s, t, 0, 0);
    var r := ScanVarint(s);
    assert (s + t)[r.used..r.used + r.value] == s[r.used..r.used + r.value];
  }

  lemma ScanFieldLocal(s: seq<byte>, t: seq<byte>)
    requires ScanField(s).Match?
    ensures ScanField(s + t) == ScanField(s)
  {
    ScanVarintLocal(s, t, 0, 0);
    var tag := ScanTag(s);
    var rest := s[tag.used..];
    assert (s + t)[tag.used..] == rest + t;
    if tag.value.wire == VARINT {
      ScanVarintLocal(rest, t, 0, 0);
    } else if tag.value.wire == LENGTH_DELIM {
      ScanBlobLocal(rest, t);
    } else if tag.value.wire == FIXED64 {
      assert (rest + t)[..8] == rest[..8];
    } else {
      assert (rest + t)[..4] == rest[..4];
    }
  }

  /** Parsing is compositional: after a complete field sequence, the reader goes on with what follows. */
  lemma {:induction false} ScanFieldsConcat(a: seq<byte>, b: seq<byte>)
    requires ScanFields(a).Some?
    ensures ScanFields(a + b) == Prepend(ScanFields(a).value, ScanFields(b))
    decreases |a|
  {
    if a == [] {
      assert a + b == b;
      if ScanFields(b).Some? {
        assert [] + ScanFields(b).value == ScanFields(b).value;
      }
    } else {
      ScanFieldLocal(a, b);
      var r := ScanField(a);
      var tail := a[r.used..];
      assert (a + b)[r.used..] == tail + b;
      ScanFieldsConcat(tail, b);
      PrependPrepend([r.value], ScanFields(tail).value, ScanFields(b));
    }
  }

  // ------------------------------------------------------------ the writer

  /** The append-only encoder. The field writers keep `buf` the print-out of the fields written so far. */
  class Writer {
    var buf: seq<byte>
    ghost var fields: seq<Field>

    ghost predicate Valid()
      reads this
    {
      buf == FieldsBytes(fields)
    }

    constructor ()
      ensures Valid() && fields == []
    {
      buf := [];
      fields := [];
    }

    method WriteVarint(value: uint64)
      modifies this`buf
      ensures buf == old(buf) + VarintBytes(value)
    {
      var v: nat := value;
      while v >= 128
        invariant v < TWO64
        invariant buf + VarintBytes(v) == old(buf) + VarintBytes(value)
      {
        buf := buf + [v % 128 + 128];
        assert VarintBytes(v) == [v % 128 + 128] + VarintBytes(v / 128);
        v := v / 128;
      }
      buf := buf + [v];
    }

    method WriteTag(number: uint32, wire: nat)
      requires wire < 8
      modifies this`buf
      ensures buf == old(buf) + VarintBytes((number as nat * 8) % TWO32 + wire)
    {
      WriteVarint((number as nat * 8) % TWO32 + wire);
    }

    /** A zero value is left out of the message. */
    method WriteUint64Field(number: uint32, value: uint64)
      requires Valid()
      modifies this
      ensures Valid() && fields == old(fields) + OptNumber(number, value)
    {
      if value == 0 { return; }
      WriteTag(number, VARINT);
      WriteVarint(value);
      Associates(old(buf), VarintBytes((number as nat * 8) % TWO32 + VARINT), VarintBytes(value));
      Append(Field(number, Number(value)));
    }

    /** WriteEnumField is this method too. */
    method WriteInt32Field(number: uint32, value: int)
      requires Valid() && -(TWO31 as int) <= value < TWO31
      modifies this
      ensures Valid() && fields == old(fields) + OptNumber(number, SignExtend(value))
    {
      if value == 0 { return; }
      WriteTag(number, VARINT);
      WriteVarint(SignExtend(value));
      Associates(old(buf), VarintBytes((number as nat * 8) % TWO32 + VARINT), VarintBytes(SignExtend(value)));
      Append(Field(number, Number(SignExtend(value))));
    }

    method WriteBoolField(number: uint32, value: bool)
      requires Valid()
      modifies this
      ensures Valid() && fields == old(fields) + OptNumber(number, if value then 1 else 0)
    {
      if !value { return; }
      WriteTag(number, VARINT);
      WriteVarint(1);
      Associates(old(buf), VarintBytes((number as nat * 8) % TWO32 + VARINT), VarintBytes(1));
      Append(Field(number, Number(1)));
    }

    /** Never left out, even when empty. */
    method WriteSubMessageField(number: uint32, sub: seq<byte>)
      requires Valid() && |sub| < TWO64
      modifies this
      ensures Valid() && fields == old(fields) + [Field(number, Blob(sub))]
    {
      ghost var tag := VarintBytes((number as nat * 8) % TWO32 + LENGTH_DELIM);
      WriteTag(number, LENGTH_DELIM);
      WriteVarint(|sub|);
      buf := buf + sub;
      Associates(old(buf) + tag, VarintBytes(|sub|), sub);
      Associates(old(buf), tag, VarintBytes(|sub|) + sub);
      Append(Field(number, Blob(sub)));
    }

    /** WriteStringField and WriteBytesField: an empty value is left out. */
    method WriteBytesField(number: uint32, data: seq<byte>)
      requires Valid() && |data| < TWO64
      modifies this
      ensures Valid() && fields == old(fields) + OptBlob(number, data)
    {
      if |data| == 0 { return; }
      WriteSubMessageField(number, data);
    }

    ghost method Append(f: Field)
      requires buf == FieldsBytes(fields) + FieldBytes(f)
      modifies this`fields
      ensures Valid() && fields == old(fields) + [f]
    {
      FieldsBytesConcat(fields, [f]);
      SingleFieldBytes(f);
      fields := fields + [f];
    }
  }

  /** Default suppression: a zero number or an empty string is not on the wire at all. */
  function OptNumber(number: nat, n: uint64): seq<Field> {
    if n == 0 then [] else [Field(number, Number(n))]
  }

  function OptBlob(number: nat, d: seq<byte>): seq<Field> {
    if d == [] then [] else [Field(number, Blob(d))]
  }

  lemma SingleFieldBytes(f: Field)
    ensures FieldsBytes([f]) == FieldBytes(f)
  {
    assert [f][1..] == [];
    assert FieldsBytes([f][1..]) == [];
  }

  // ------------------------------------------------------------ the reader

  class Reader {
    const data: seq<byte>
    var pos: nat

    ghost predicate Valid()
      reads this
    {
      pos <= |data|
    }

    ghost function Rest(): seq<byte>
      requires Valid()
      reads this
    {
      data[pos..]
    }

    constructor (data: seq<byte>)
      ensures this.data == data && pos == 0 && Valid() && Rest() == data
    {
      this.data := data;
      pos := 0;
    }

    method ReadVarint() returns (ok: bool, value: nat)
      requires Valid()
      modifies this
      ensures Valid() && old(pos) <= pos && Rest() == old(Rest())[pos - old(pos)..]
      ensures ok == ScanVarint(old(Rest())).Match?
      ensures ok ==> Match(value, pos - old(pos)) == ScanVarint(old(Rest()))
    {
      value := 0;
      var k := 0;  // shift / 7
      while true
        invariant Valid() && k <= 9 && value < Weight(k) && pos == old(pos) + k
        invariant ScanVarint(old(Rest())) ==
                  match ScanVarint(Rest(), k, value) case NoMatch => NoMatch case Match(x, n) => Match(x, n + k)
        decreases |data| - pos
      {
        if pos >= |data| { return false, value; }
        var b := data[pos];
        assert Rest()[1..] == data[pos + 1..];
        AccumulateBound(value, b, k);
        pos := pos + 1;
        value := Accumulate(value, b, k);
        if b < 128 { return true, value; }
        k := k + 1;
        if k > 9 { return false, value; }
      }
    }

    method ReadTag() returns (ok: bool, tag: Tag)
      requires Valid()
      modifies this
      ensures Valid() && old(pos) <= pos && Rest() == old(Rest())[pos - old(pos)..]
      ensures ok == ScanTag(old(Rest())).Match?
      ensures ok ==> Match(tag, pos - old(pos)) == ScanTag(old(Rest()))
    {
      var t;
      ok, t := ReadVarint();
      tag := Tag(t / 8 % TWO32, t % 8);
    }

    method ReadLengthDelim() returns (ok: bool, out: seq<byte>)
      requires Valid()
      modifies this
      ensures Valid() && old(pos) <= pos && Rest() == old(Rest())[pos - old(pos)..]
      ensures ok == ScanBlob(old(Rest())).Match?
      ensures ok ==> Match(out, pos - old(pos)) == ScanBlob(old(Rest()))
    {
      out := [];
      var len;
      ok, len := ReadVarint();
      if !ok { return; }
      if len > |data| - pos { return false, []; }
      out := data[pos..pos + len];
      assert out == old(Rest())[pos - old(pos)..pos - old(pos) + len];
      pos := pos + len;
    }

    method SkipField(wire: nat) returns (ok: bool)
      requires Valid()
      modifies this
      ensures Valid() && old(pos) <= pos && Rest() == old(Rest())[pos - old(pos)..]
      ensures ok == ScanPayload(wire, old(Rest())).Match?
      ensures ok ==> pos - old(pos) == ScanPayload(wire, old(Rest())).used
    {
      if wire == VARINT {
        var dummy;
        ok, dummy := ReadVarint();
      } else if wire == FIXED64 {
        if |data| - pos < 8 { return false; }
        pos := pos + 8;
        ok := true;
      } else if wire == LENGTH_DELIM {
        var dummy;
        ok, dummy := ReadLengthDelim();
      } else if wire == FIXED32 {
        if |data| - pos < 4 { return false; }
        pos := pos + 4;
        ok := true;
      } else {
        ok := false;
      }
    }
  }
}
