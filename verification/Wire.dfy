/** The Protocol Buffers wire format: Base 128 varints, ZigZag, keys,
    length-delimited records and skippable groups. */
module Wire {
  import opened Basics
  import opened Utf8

  type Bytes = seq<Byte>

  const U64: nat := 0x1_0000_0000_0000_0000
  const U32: nat := 0x1_0000_0000
  const I64_MIN: int := -0x8000_0000_0000_0000
  const I64_MAX: int := 0x7FFF_FFFF_FFFF_FFFF
  const RECURSION_LIMIT: nat := 100

  // ----- varints -----

  function Varint(n: nat): (b: Bytes)
    ensures 1 <= |b|
  {
    if n < 128 then [n] else [n % 128 + 128] + Varint(n / 128)
  }

  /** A number and how many bytes it took. */
  datatype Read = Read(value: nat, size: nat)

  /** Reads a varint after `k` of its bytes; the tenth byte may only be 0 or 1. */
  function VarintAt(b: Bytes, k: nat): (r: Option<Read>)
    requires k < 10
    ensures r.Some? ==> 1 <= r.value.size <= |b|
    decreases 10 - k
  {
    if b == [] then None
    else if k == 9 then if b[0] < 2 then Some(Read(b[0], 1)) else None
    else if b[0] < 128 then Some(Read(b[0], 1))
    else
      var rest := VarintAt(b[1..], k + 1);
      if rest.None? then None else Some(Read(b[0] - 128 + 128 * rest.value.value, rest.value.size + 1))
  }

  function ReadVarint(b: Bytes): (r: Option<Read>)
    ensures r.Some? ==> 1 <= r.value.size <= |b|
  {
    VarintAt(b, 0)
  }

  /** One more than the largest number the remaining bytes can hold. */
  function Room(k: nat): nat
    requires k < 10
    decreases 10 - k
  {
    if k == 9 then 2 else 128 * Room(k + 1)
  }

  lemma RoomIsU64()
    ensures Room(0) == U64
  {
    assert Room(8) == 256 && Room(7) == 0x8000;
    assert Room(6) == 0x40_0000 && Room(5) == 0x2000_0000 && Room(4) == 0x10_0000_0000;
    assert Room(3) == 0x800_0000_0000 && Room(2) == 0x4_0000_0000_0000;
    assert Room(1) == 0x200_0000_0000_0000;
  }

  lemma {:induction false} VarintReads(n: nat, rest: Bytes, k: nat)
    requires k < 10 && n < Room(k)
    ensures VarintAt(Varint(n) + rest, k) == Some(Read(n, |Varint(n)|))
    decreases 10 - k
  {
    var b := Varint(n) + rest;
    if n >= 128 {
      VarintReads(n / 128, rest, k + 1);
      assert b[1..] == Varint(n / 128) + rest;
    }
  }

  /** Every 64-bit number is read back from its varint. */
  lemma VarintRoundTrip(n: nat, rest: Bytes)
    requires n < U64
    ensures ReadVarint(Varint(n) + rest) == Some(Read(n, |Varint(n)|))
  {
    RoomIsU64();
    VarintReads(n, rest, 0);
  }

  function Log2(n: nat): nat {
    if n < 2 then 0 else 1 + Log2(n / 2)
  }

  /** The branch-free length formula of the encoder's library. */
  function VarintLen(n: nat): nat {
    (Log2(n) * 9 + 73) / 64
  }

  lemma {:induction false} VarintBits(n: nat)
    ensures |Varint(n)| == Log2(n) / 7 + 1
  {
    if n >= 128 {
      VarintBits(n / 128);
      assert n / 2 / 2 / 2 / 2 / 2 / 2 / 2 == n / 128;
      assert Log2(n) == 7 + Log2(n / 128) by {
        assert Log2(n) == 1 + Log2(n / 2);
        assert Log2(n / 2) == 1 + Log2(n / 2 / 2);
        assert Log2(n / 2 / 2) == 1 + Log2(n / 2 / 2 / 2);
        assert Log2(n / 2 / 2 / 2) == 1 + Log2(n / 2 / 2 / 2 / 2);
        assert Log2(n / 2 / 2 / 2 / 2) == 1 + Log2(n / 2 / 2 / 2 / 2 / 2);
        assert Log2(n / 2 / 2 / 2 / 2 / 2) == 1 + Log2(n / 2 / 2 / 2 / 2 / 2 / 2);
      }
    } else {
      SmallLog(n);
    }
  }

  lemma SmallLog(n: nat)
    requires n < 128
    ensures Log2(n) <= 6
  {
    assert n / 2 < 64 && n / 2 / 2 < 32 && n / 2 / 2 / 2 < 16 && n / 2 / 2 / 2 / 2 < 8;
    assert Log2(n / 2 / 2 / 2 / 2) <= 2;
    assert Log2(n / 2 / 2) <= 4;
  }

  function Pow256(k: nat): nat { if k == 0 then 1 else 256 * Pow256(k - 1) }

  lemma {:induction false} LogBound(n: nat, k: nat)
    requires k > 0 && n < Pow256(k)
    ensures Log2(n) < 8 * k
  {
    if k == 1 {
      SmallLog(n / 2);
    } else {
      LogBound(n / 256, k - 1);
      LogByte(n);
    }
  }

  lemma LogByte(n: nat)
    ensures Log2(n) <= 8 + Log2(n / 256)
  {
    assert n / 2 / 2 / 2 / 2 / 2 / 2 / 2 / 2 == n / 256;
    assert Log2(n) <= 2 + Log2(n / 2 / 2);
    assert Log2(n / 2 / 2) <= 2 + Log2(n / 2 / 2 / 2 / 2);
    assert Log2(n / 2 / 2 / 2 / 2) <= 2 + Log2(n / 2 / 2 / 2 / 2 / 2 / 2);
    assert Log2(n / 2 / 2 / 2 / 2 / 2 / 2) <= 2 + Log2(n / 2 / 2 / 2 / 2 / 2 / 2 / 2 / 2);
  }

  /** The formula counts exactly the bytes a 64-bit varint takes. */
  lemma VarintLenExact(n: nat)
    requires n < U64
    ensures VarintLen(n) == |Varint(n)|
  {
    assert Pow256(4) == U32;
    assert Pow256(6) == 0x1_0000_0000_0000;
    assert Pow256(8) == U64;
    LogBound(n, 8);
    VarintBits(n);
  }

  // ----- signed numbers -----

  function ZigZag(v: int): nat {
    if v >= 0 then 2 * v else -2 * v - 1
  }

  function UnZigZag(n: nat): int {
    if n % 2 == 0 then n / 2 else -((n + 1) / 2)
  }

  lemma ZigZagRoundTrip(v: int)
    ensures UnZigZag(ZigZag(v)) == v
    ensures I64_MIN <= v <= I64_MAX ==> ZigZag(v) < U64
  {
  }

  // ----- fields -----

  datatype Payload = VarintField(value: nat) | Fixed64Field | BytesField(bytes: Bytes) | GroupField | Fixed32Field

  datatype Field = Field(tag: nat, payload: Payload)

  datatype Key = Key(tag: nat, wire: nat, size: nat)

  function ReadKey(b: Bytes): (k: Option<Key>)
    ensures k.Some? ==> 1 <= k.value.size <= |b|
  {
    var r := ReadVarint(b);
    if r.None? || r.value.value >= U32 then None
    else
      var wire, tag := r.value.value % 8, r.value.value / 8;
      if wire > 5 || tag == 0 then None else Some(Key(tag, wire, r.value.size))
  }

  /** Bytes a field's payload takes, groups nested up to `depth`. */
  function Skip(tag: nat, wire: nat, b: Bytes, depth: nat): (n: Option<nat>)
    ensures n.Some? ==> n.value <= |b|
    decreases |b|, 1
  {
    if depth == 0 then None
    else if wire == 0 then
      var r := ReadVarint(b);
      if r.None? then None else Some(r.value.size)
    else if wire == 1 then if |b| >= 8 then Some(8) else None
    else if wire == 2 then
      var r := ReadVarint(b);
      if r.None? || r.value.value > |b| - r.value.size then None else Some(r.value.size + r.value.value)
    else if wire == 3 then SkipGroup(tag, b, depth)
    else if wire == 5 then if |b| >= 4 then Some(4) else None
    else None
  }

  function SkipGroup(tag: nat, b: Bytes, depth: nat): (n: Option<nat>)
    requires depth > 0
    ensures n.Some? ==> n.value <= |b|
    decreases |b|, 0
  {
    var k := ReadKey(b);
    if k.None? then None
    else
      var size := k.value.size;
      if k.value.wire == 4 then if k.value.tag == tag then Some(size) else None
      else
        var inner := Skip(k.value.tag, k.value.wire, b[size..], depth - 1);
        if inner.None? then None
        else
          var rest := SkipGroup(tag, b[size + inner.value..], depth);
          if rest.None? then None else Some(size + inner.value + rest.value)
  }

  function PayloadOf(wire: nat, b: Bytes): Payload
    requires wire in {0, 2} ==> ReadVarint(b).Some?
    requires wire == 2 ==> ReadVarint(b).value.value <= |b| - ReadVarint(b).value.size
  {
    if wire == 0 then VarintField(ReadVarint(b).value.value)
    else if wire == 1 then Fixed64Field
    else if wire == 2 then
      var r := ReadVarint(b).value;
      BytesField(b[r.size..r.size + r.value])
    else if wire == 3 then GroupField
    else Fixed32Field
  }

  datatype Parsed = Parsed(field: Field, size: nat)

  function ParseField(b: Bytes, depth: nat): (p: Option<Parsed>)
    ensures p.Some? ==> 1 <= p.value.size <= |b|
  {
    var k := ReadKey(b);
    if k.None? then None
    else
      var rest := b[k.value.size..];
      var n := Skip(k.value.tag, k.value.wire, rest, depth);
      if n.None? then None
      else Some(Parsed(Field(k.value.tag, PayloadOf(k.value.wire, rest)), k.value.size + n.value))
  }

  function ParseFields(b: Bytes, depth: nat): Option<seq<Field>>
    decreases |b|
  {
    if b == [] then Some([])
    else
      var p := ParseField(b, depth);
      if p.None? then None
      else
        var rest := ParseFields(b[p.value.size..], depth);
        if rest.None? then None else Some([p.value.field] + rest.value)
  }

  // ----- printing -----

  function WireOf(p: Payload): nat {
    if p.VarintField? then 0 else 2
  }

  /** Fields the encoder writes: numbers and length-delimited records. */
  predicate Encodable(f: Field) {
    && 0 < f.tag < 0x2000_0000
    && (f.payload.VarintField? || f.payload.BytesField?)
    && (f.payload.VarintField? ==> f.payload.value < U64)
    && (f.payload.BytesField? ==> |f.payload.bytes| < U64)
  }

  function KeyBytes(tag: nat, wire: nat): Bytes { Varint(tag * 8 + wire) }

  function PrintField(f: Field): Bytes {
    KeyBytes(f.tag, WireOf(f.payload)) + PrintPayload(f.payload)
  }

  function Joined(encode: Field -> Bytes, fs: seq<Field>): Bytes {
    if fs == [] then [] else encode(fs[0]) + Joined(encode, fs[1..])
  }

  function Print(fs: seq<Field>): Bytes {
    Joined(PrintField, fs)
  }

  lemma KeyReads(tag: nat, wire: nat, tail: Bytes)
    requires 0 < tag < 0x2000_0000 && wire <= 5
    ensures ReadKey(KeyBytes(tag, wire) + tail) == Some(Key(tag, wire, |KeyBytes(tag, wire)|))
  {
    VarintRoundTrip(tag * 8 + wire, tail);
  }

  function PrintPayload(p: Payload): Bytes {
    match p
    case VarintField(v) => Varint(v)
    case BytesField(b) => Varint(|b|) + b
    case _ => []
  }

  lemma PayloadReads(f: Field, rest: Bytes, depth: nat)
    requires Encodable(f) && depth > 0
    ensures Skip(f.tag, WireOf(f.payload), PrintPayload(f.payload) + rest, depth) == Some(|PrintPayload(f.payload)|)
    ensures PayloadOf(WireOf(f.payload), PrintPayload(f.payload) + rest) == f.payload
  {
    var tail := PrintPayload(f.payload) + rest;
    if f.payload.VarintField? {
      VarintRoundTrip(f.payload.value, rest);
    } else {
      var x := f.payload.bytes;
      assert tail == Varint(|x|) + (x + rest);
      VarintRoundTrip(|x|, x + rest);
      assert tail[|Varint(|x|)|..|Varint(|x|)| + |x|] == x;
    }
  }

  lemma Regroup(a: Bytes, b: Bytes, c: Bytes)
    ensures a + b + c == a + (b + c) && (a + (b + c))[|a|..] == b + c
  {
  }

  lemma ParseTail(all: Bytes, tail: Bytes, k: Key, n: nat, depth: nat)
    requires ReadKey(all) == Some(k) && all[k.size..] == tail && Skip(k.tag, k.wire, tail, depth) == Some(n)
    ensures ParseField(all, depth) == Some(Parsed(Field(k.tag, PayloadOf(k.wire, tail)), k.size + n))
  {
  }

  lemma ParseFrom(key: Bytes, body: Bytes, rest: Bytes, k: Key, depth: nat)
    requires ReadKey(key + (body + rest)) == Some(k) && k.size == |key|
    requires Skip(k.tag, k.wire, body + rest, depth) == Some(|body|)
    ensures ParseField(key + body + rest, depth)
            == Some(Parsed(Field(k.tag, PayloadOf(k.wire, body + rest)), |key + body|))
  {
    Regroup(key, body, rest);
    ParseTail(key + (body + rest), body + rest, k, |body|, depth);
  }

  lemma ParsePrintedField(f: Field, rest: Bytes, depth: nat)
    requires Encodable(f) && depth > 0
    ensures ParseField(PrintField(f) + rest, depth) == Some(Parsed(f, |PrintField(f)|))
  {
    KeyReads(f.tag, WireOf(f.payload), PrintPayload(f.payload) + rest);
    PayloadReads(f, rest, depth);
    ParseFrom(KeyBytes(f.tag, WireOf(f.payload)), PrintPayload(f.payload), rest,
              Key(f.tag, WireOf(f.payload), |KeyBytes(f.tag, WireOf(f.payload))|), depth);
  }

  /** Reading back what was printed gives the same fields. */
  lemma {:induction false} ParsePrinted(fs: seq<Field>, depth: nat)
    requires depth > 0 && forall i :: 0 <= i < |fs| ==> Encodable(fs[i])
    ensures ParseFields(Print(fs), depth) == Some(fs)
    decreases |fs|
  {
    if fs != [] {
      ParsePrintedField(fs[0], Print(fs[1..]), depth);
      ParsePrinted(fs[1..], depth);
      assert Print(fs)[|PrintField(fs[0])|..] == Print(fs[1..]);
      assert [fs[0]] + fs[1..] == fs;
    }
  }

  lemma {:induction false} JoinConcat(encode: Field -> Bytes, a: seq<Field>, b: seq<Field>)
    ensures Joined(encode, a + b) == Joined(encode, a) + Joined(encode, b)
    decreases |a|
  {
    if a == [] {
      assert a + b == b;
    } else {
      JoinConcat(encode, a[1..], b);
      assert (a + b)[1..] == a[1..] + b;
    }
  }

  lemma PrintConcat(a: seq<Field>, b: seq<Field>)
    ensures Print(a + b) == Print(a) + Print(b)
  {
    JoinConcat(PrintField, a, b);
  }
}
