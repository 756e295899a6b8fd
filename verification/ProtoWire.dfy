/**
 The Protocol Buffers wire format as far as the streams use it: base 128
 varints, and messages as lists of fields. A message is marshalled in field
 order with zero-valued fields left out, so the zero message is zero bytes.
 */
module ProtoWire {
  import opened Sequences

  type byte = x: int | 0 <= x < 256

  // ---- Base 128 varints ----

  function Uvarint(n: nat): (bs: seq<byte>)
    ensures |bs| > 0
  {
    if n < 128 then [n] else [128 + n % 128] + Uvarint(n / 128)
  }

  datatype VarintRead =
    | Value(n: nat, rest: seq<byte>)
    | NoByte                        // nothing to read at all
    | Cut                           // input ends inside the varint
    | Overflow

  /** Reads the i-th and following bytes of a varint of at most ten bytes. */
  function GetUvarint(bs: seq<byte>, i: nat): (r: VarintRead)
    ensures r.Value? ==> |r.rest| < |bs|
  {
    if i == 10 then Overflow
    else if bs == [] then (if i == 0 then NoByte else Cut)
    else if bs[0] < 128 then (if i == 9 && bs[0] > 1 then Overflow else Value(bs[0], bs[1..]))
    else
      match GetUvarint(bs[1..], i + 1)
      case Value(n, rest) => Value(bs[0] - 128 + 128 * n, rest)
      case other => other
  }

  /** What still fits when i bytes are taken: below 2^64 in all, below 2 for the tenth. */
  ghost function Room(i: nat): (r: nat)
    requires i <= 9
    ensures r >= 2
    decreases 9 - i
  {
    if i == 9 then 2 else 128 * Room(i + 1)
  }

  lemma RoomIs64Bits()
    ensures Room(0) == 0x1_0000_0000_0000_0000
  {
    assert Room(9) == 2;
    assert Room(8) == 0x100;
    assert Room(7) == 0x8000;
    assert Room(6) == 0x40_0000;
    assert Room(5) == 0x2000_0000;
    assert Room(4) == 0x10_0000_0000;
    assert Room(3) == 0x800_0000_0000;
    assert Room(2) == 0x4_0000_0000_0000;
    assert Room(1) == 0x200_0000_0000_0000;
  }

  lemma {:induction false} UvarintReads(n: nat, rest: seq<byte>, i: nat)
    requires i <= 9 && n < Room(i)
    ensures GetUvarint(Uvarint(n) + rest, i) == Value(n, rest)
    decreases 9 - i
  {
    var bs := Uvarint(n) + rest;
    if n < 128 {
      assert bs[1..] == rest;
    } else {
      var q, r := n / 128, n % 128;
      assert n == 128 * q + r && 0 <= r < 128 && q < Room(i + 1);
      UvarintReads(q, rest, i + 1);
      assert bs[0] == 128 + r && bs[1..] == Uvarint(q) + rest;
    }
  }

  lemma {:induction false} UvarintCut(n: nat, p: seq<byte>, i: nat)
    requires i <= 9 && n < Room(i) && p < Uvarint(n)
    ensures GetUvarint(p, i) == if p == [] && i == 0 then NoByte else Cut
    decreases 9 - i
  {
    if p != [] {
      assert p[1..] < Uvarint(n / 128);
      UvarintCut(n / 128, p[1..], i + 1);
    }
  }

  /** A number that does not fit in 64 bits is refused. */
  lemma {:induction false} UvarintOverflows(n: nat, rest: seq<byte>, i: nat)
    requires i <= 9 && n >= Room(i)
    ensures GetUvarint(Uvarint(n) + rest, i).Overflow?
    decreases 9 - i
  {
    var bs := Uvarint(n) + rest;
    if n >= 128 {
      var q := n / 128;
      assert bs[0] >= 128 && bs[1..] == Uvarint(q) + rest;
      if i < 9 {
        assert Room(i) == 128 * Room(i + 1) && q >= Room(i + 1);
        UvarintOverflows(q, rest, i + 1);
      } else {
        assert GetUvarint(bs[1..], 10).Overflow?;
      }
    }
  }

  // ---- Messages ----

  datatype FieldValue = Num(n: nat) | Blob(b: seq<byte>)

  datatype Field = Field(number: nat, value: FieldValue)

  const UINT64: nat := 0x1_0000_0000_0000_0000
  const MAX_FIELD: nat := 0x1FFF_FFFF

  ghost predicate FieldOk(f: Field) {
    && 1 <= f.number <= MAX_FIELD
    && match f.value case Num(n) => n < UINT64 case Blob(b) => |b| < UINT64
  }

  ghost predicate MessageOk(fs: seq<Field>) {
    forall i :: 0 <= i < |fs| ==> FieldOk(fs[i])
  }

  function MarshalField(f: Field): (bs: seq<byte>)
    ensures |bs| > 0
  {
    match f.value
    case Num(n) => Uvarint(8 * f.number) + Uvarint(n)
    case Blob(b) => Uvarint(8 * f.number + 2) + Uvarint(|b|) + b
  }

  function Marshal(fs: seq<Field>): seq<byte> {
    if fs == [] then [] else MarshalField(fs[0]) + Marshal(fs[1..])
  }

  /** The fields merged before the input ended or turned out malformed. */
  datatype Decoded = Decoded(fields: seq<Field>, ok: bool)

  datatype FieldRead = One(field: Field, after: seq<byte>) | Skip(beyond: seq<byte>) | Malformed

  /** Reads one field; fixed-width fields are skipped, groups are not modelled. */
  function ReadField(bs: seq<byte>): (r: FieldRead)
    ensures r.One? ==> |r.after| < |bs|
    ensures r.Skip? ==> |r.beyond| < |bs|
  {
    match GetUvarint(bs, 0)
    case Value(tag, rest) => ReadValue(tag / 8, tag % 8, rest)
    case _ => Malformed
  }

  function ReadValue(number: nat, wire: nat, bs: seq<byte>): (r: FieldRead)
    ensures r.One? ==> |r.after| <= |bs|
    ensures r.Skip? ==> |r.beyond| <= |bs|
  {
    if number < 1 || number > MAX_FIELD then Malformed
    else if wire == 0 then
      match GetUvarint(bs, 0)
      case Value(n, rest) => One(Field(number, Num(n)), rest)
      case _ => Malformed
    else if wire == 2 then
      match GetUvarint(bs, 0)
      case Value(len, rest) => if len <= |rest| then One(Field(number, Blob(rest[..len])), rest[len..]) else Malformed
      case _ => Malformed
    else if wire == 1 then (if |bs| >= 8 then Skip(bs[8..]) else Malformed)
    else if wire == 5 then (if |bs| >= 4 then Skip(bs[4..]) else Malformed)
    else Malformed
  }

  function Unmarshal(bs: seq<byte>): Decoded
    decreases |bs|
  {
    if bs == [] then Decoded([], true)
    else
      match ReadField(bs)
      case One(f, rest) => var d := Unmarshal(rest); Decoded([f] + d.fields, d.ok)
      case Skip(rest) => Unmarshal(rest)
      case Malformed => Decoded([], false)
  }

  lemma ValueRoundTrip(number: nat, value: FieldValue, rest: seq<byte>)
    requires FieldOk(Field(number, value))
    ensures match value
      case Num(n) => ReadValue(number, 0, Uvarint(n) + rest) == One(Field(number, value), rest)
      case Blob(b) => ReadValue(number, 2, Uvarint(|b|) + (b + rest)) == One(Field(number, value), rest)
  {
    RoomIs64Bits();
    match value
    case Num(n) => UvarintReads(n, rest, 0);
    case Blob(b) =>
      UvarintReads(|b|, b + rest, 0);
      assert (b + rest)[..|b|] == b && (b + rest)[|b|..] == rest;
  }

  lemma TagRoundTrip(number: nat, wire: nat, rest: seq<byte>)
    requires 1 <= number <= MAX_FIELD && wire < 8
    ensures ReadField(Uvarint(8 * number + wire) + rest) == ReadValue(number, wire, rest)
  {
    RoomIs64Bits();
    UvarintReads(8 * number + wire, rest, 0);
    assert (8 * number + wire) / 8 == number && (8 * number + wire) % 8 == wire;
  }

  /** Fixed-width fields, which no message here has, are skipped; groups and the unused wire types are refused. */
  lemma OtherWires(number: nat, wire: nat, fixed: seq<byte>, rest: seq<byte>)
    requires 1 <= number <= MAX_FIELD && wire < 8 && wire != 0 && wire != 2
    ensures var r := ReadField(Uvarint(8 * number + wire) + (fixed + rest));
      if (wire == 1 && |fixed| == 8) || (wire == 5 && |fixed| == 4) then r == Skip(rest)
      else wire != 1 && wire != 5 ==> r.Malformed?
  {
    TagRoundTrip(number, wire, fixed + rest);
    assert (fixed + rest)[|fixed|..] == rest;
  }

  lemma FieldRoundTrip(f: Field, rest: seq<byte>)
    requires FieldOk(f)
    ensures ReadField(MarshalField(f) + rest) == One(f, rest)
  {
    hide Uvarint, ReadField, ReadValue;
    ValueRoundTrip(f.number, f.value, rest);
    match f.value
    case Num(n) =>
      Regroup(Uvarint(8 * f.number), Uvarint(n), rest);
      TagRoundTrip(f.number, 0, Uvarint(n) + rest);
    case Blob(b) =>
      Regroup(Uvarint(8 * f.number + 2) + Uvarint(|b|), b, rest);
      Regroup(Uvarint(8 * f.number + 2), Uvarint(|b|), b + rest);
      TagRoundTrip(f.number, 2, Uvarint(|b|) + (b + rest));
  }

  lemma {:induction false} MessageRoundTrip(fs: seq<Field>)
    requires MessageOk(fs)
    ensures Unmarshal(Marshal(fs)) == Decoded(fs, true)
  {
    if fs != [] {
      FieldRoundTrip(fs[0], Marshal(fs[1..]));
      MessageRoundTrip(fs[1..]);
    }
  }

  // ---- Typed access: the last field of that number and type wins, others are ignored ----

  function GetNum(fs: seq<Field>, number: nat): nat {
    if fs == [] then 0
    else
      var last := fs[|fs| - 1];
      if last.number == number && last.value.Num? then last.value.n else GetNum(fs[..|fs| - 1], number)
  }

  function GetBlob(fs: seq<Field>, number: nat): seq<byte> {
    if fs == [] then []
    else
      var last := fs[|fs| - 1];
      if last.number == number && last.value.Blob? then last.value.b else GetBlob(fs[..|fs| - 1], number)
  }

  /** One number field, left out when zero. */
  function NumField(number: nat, n: nat): seq<Field> {
    if n == 0 then [] else [Field(number, Num(n))]
  }

  function BlobField(number: nat, b: seq<byte>): seq<Field> {
    if b == [] then [] else [Field(number, Blob(b))]
  }

  /** What a 32-bit field keeps of a number. */
  function Low32(n: nat): (r: nat)
    ensures n < 0x1_0000_0000 ==> r == n
  {
    n % 0x1_0000_0000
  }

  /** int32 and int64 travel as 64-bit two's complement. */
  function Signed(x: int): nat
    requires -0x8000_0000_0000_0000 <= x < 0x8000_0000_0000_0000
  {
    if x < 0 then x + UINT64 else x
  }

  function ToSigned(n: nat): int {
    if n < 0x8000_0000_0000_0000 then n else n - UINT64
  }
}
