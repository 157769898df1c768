/** What the bytes of the wire format stand for. */
module WireLaws {
  import opened Basics
  import opened Utf8
  import opened Wire

  /** Seven bits a byte, the low ones first. */
  ghost function Groups(b: Bytes): nat {
    if b == [] then 0 else b[0] % 128 + 128 * Groups(b[1..])
  }

  /** The first `n` bytes are one varint of at most 64 bits: every byte but the last
      has its high bit set, and a tenth byte holds one bit. */
  ghost predicate Terminated(b: Bytes, n: int) {
    && 1 <= n <= 10 && n <= |b|
    && b[n - 1] < 128 && (n == 10 ==> b[9] < 2)
    && forall i :: 0 <= i < n - 1 ==> b[i] >= 128
  }

  /** A printed varint says its number, with the high bit on all bytes but the last. */
  lemma {:induction false} VarintMeans(n: nat)
    ensures Groups(Varint(n)) == n
    ensures var b := Varint(n); b[|b| - 1] < 128 && forall i :: 0 <= i < |b| - 1 ==> b[i] >= 128
    ensures n >= 128 ==> var b := Varint(n); b[|b| - 1] > 0
  {
    if n >= 128 {
      VarintMeans(n / 128);
      var b := Varint(n);
      assert b[1..] == Varint(n / 128);
      forall i | 0 <= i < |b| - 1 ensures b[i] >= 128 { assert i > 0 ==> b[i] == b[1..][i - 1]; }
    } else {
      assert [n][1..] == [];
    }
  }

  lemma {:induction false} ReadsAt(b: Bytes, k: nat)
    requires k < 10
    ensures VarintAt(b, k).Some? ==>
              var r := VarintAt(b, k).value;
              && r.size <= 10 - k && r.value == Groups(b[..r.size]) && b[r.size - 1] < 128
              && (r.size == 10 - k ==> b[r.size - 1] < 2) && forall i :: 0 <= i < r.size - 1 ==> b[i] >= 128
    decreases 10 - k
  {
    var r := VarintAt(b, k);
    if r.Some? && r.value.size > 1 {
      ReadsAt(b[1..], k + 1);
      var n := r.value.size;
      assert b[..n][1..] == b[1..][..n - 1];
      forall i | 0 <= i < n - 1 ensures b[i] >= 128 { assert i > 0 ==> b[i] == b[1..][i - 1]; }
    } else if r.Some? {
      assert b[..1][1..] == [];
    }
  }

  lemma {:induction false} AcceptsAt(b: Bytes, k: nat, n: nat)
    requires k < 10 && 1 <= n <= 10 - k && n <= |b| && b[n - 1] < 128 && (n == 10 - k ==> b[n - 1] < 2)
    requires forall i :: 0 <= i < n - 1 ==> b[i] >= 128
    ensures VarintAt(b, k).Some? && VarintAt(b, k).value.size == n
    decreases n
  {
    if n > 1 {
      assert forall i :: 0 <= i < n - 2 ==> b[1..][i] == b[i + 1];
      AcceptsAt(b[1..], k + 1, n - 1);
    }
  }

  /** Exactly which bytes are read as a number, which number, and how many of them. */
  lemma ReadExactly(b: Bytes)
    ensures ReadVarint(b).Some? <==> exists n :: Terminated(b, n)
    ensures ReadVarint(b).Some? ==>
              Terminated(b, ReadVarint(b).value.size) && ReadVarint(b).value.value == Groups(b[..ReadVarint(b).value.size])
  {
    if ReadVarint(b).Some? {
      ReadsAt(b, 0);
      assert Terminated(b, ReadVarint(b).value.size);
    }
    if n :| Terminated(b, n) { AcceptsAt(b, 0, n); }
  }

  /** Signed numbers fan out from zero: 0, -1, 1, -2, ... */
  lemma ZigZagMeans(n: nat)
    ensures ZigZag(n) == n + n && ZigZag(-1 - n) == n + n + 1
    ensures UnZigZag(n + n) == n && UnZigZag(n + n + 1) == -1 - n
  {
  }

  /** A field is its key (eight times the tag, and 0 for a number or 2 for bytes),
      then the number, or the length and the bytes. */
  lemma FieldMeans(f: Field)
    requires Encodable(f)
    ensures match f.payload
            case VarintField(v) => PrintField(f) == Varint(8 * f.tag) + Varint(v)
            case BytesField(b) => PrintField(f) == Varint(8 * f.tag + 2) + (Varint(|b|) + b)
            case _ => false
  {
  }

  /** The format's own examples: 150 under tag 1, "testing" under tag 2. */
  lemma DocumentedBytes()
    ensures PrintField(Field(1, VarintField(150))) == [0x08, 0x96, 0x01]
    ensures PrintField(Field(2, BytesField([0x74, 0x65, 0x73, 0x74, 0x69, 0x6E, 0x67])))
            == [0x12, 0x07, 0x74, 0x65, 0x73, 0x74, 0x69, 0x6E, 0x67]
  {
    assert Varint(150) == [0x96] + Varint(1);
  }

  /** How much of the input a field that is not understood takes. */
  lemma SkipMeans(tag: nat, wire: nat, b: Bytes, depth: nat)
    ensures depth == 0 ==> Skip(tag, wire, b, depth) == None
    ensures depth > 0 && wire == 0 ==>
              (Skip(tag, wire, b, depth).Some? <==> ReadVarint(b).Some?)
              && (ReadVarint(b).Some? ==> Skip(tag, wire, b, depth) == Some(ReadVarint(b).value.size))
    ensures depth > 0 && wire == 1 ==> Skip(tag, wire, b, depth) == if |b| < 8 then None else Some(8)
    ensures depth > 0 && wire == 5 ==> Skip(tag, wire, b, depth) == if |b| < 4 then None else Some(4)
    ensures depth > 0 && wire == 2 && ReadVarint(b).Some? ==>
              var r := ReadVarint(b).value;
              Skip(tag, wire, b, depth) == if r.size + r.value <= |b| then Some(r.size + r.value) else None
    ensures wire == 4 || wire > 5 ==> Skip(tag, wire, b, depth) == None
  {
  }
}
