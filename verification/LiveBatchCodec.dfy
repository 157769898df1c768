/** The hand-written encoder, its precomputed lengths, and the decoder loop. */
module LiveBatchCodec {
  import opened Basics
  import opened Utf8
  import opened Wire
  import opened LiveBatch
  import opened LiveBatchProofs

  // ----- lengths -----

  function KeyLen(tag: nat): nat { VarintLen(tag * 8) }

  function NumberLen(tag: nat, v: nat): nat { KeyLen(tag) + VarintLen(v) }

  function RecordLen(tag: nat, n: nat): nat { KeyLen(tag) + VarintLen(n) + n }

  lemma LogKey(tag: nat, wire: nat)
    requires tag > 0 && wire < 8
    ensures Log2(tag * 8 + wire) == 3 + Log2(tag)
  {
    var k := tag * 8 + wire;
    assert k / 2 / 2 / 2 == tag;
    assert Log2(k) == 1 + Log2(k / 2) && Log2(k / 2) == 1 + Log2(k / 2 / 2);
    assert Log2(k / 2 / 2) == 1 + Log2(k / 2 / 2 / 2);
  }

  /** The wire type in the low bits never lengthens a key. */
  lemma KeyLenExact(tag: nat, wire: nat)
    requires 0 < tag < 0x2000_0000 && wire < 8
    ensures |KeyBytes(tag, wire)| == KeyLen(tag)
  {
    LogKey(tag, wire);
    LogKey(tag, 0);
    VarintBits(tag * 8 + wire);
    VarintBits(tag * 8);
    VarintLenExact(tag * 8);
  }

  lemma JoinSnoc(encode: Field -> Bytes, before: Bytes, done: seq<Field>, f: Field)
    ensures before + Joined(encode, done) + encode(f) == before + Joined(encode, done + [f])
    ensures |Joined(encode, done + [f])| == |Joined(encode, done)| + |encode(f)|
  {
    JoinConcat(encode, done, [f]);
    assert [f][1..] == [];
    assert Joined(encode, [f]) == encode(f);
  }

  lemma NumberLenExact(done: seq<Field>, tag: nat, v: nat)
    requires 0 < tag < 0x2000_0000 && v < U64
    ensures |Print(done + Number(tag, v))| == |Print(done)| + NumberLen(tag, v)
  {
    JoinSnoc(PrintField, [], done, Field(tag, VarintField(v)));
    KeyLenExact(tag, 0);
    VarintLenExact(v);
  }

  lemma RecordLenExact(done: seq<Field>, tag: nat, b: Bytes)
    requires 0 < tag < 0x2000_0000 && |b| < U64
    ensures |Print(done + Record(tag, b))| == |Print(done)| + RecordLen(tag, |b|)
  {
    JoinSnoc(PrintField, [], done, Field(tag, BytesField(b)));
    KeyLenExact(tag, 2);
    VarintLenExact(|b|);
  }

  // ----- writing into a buffer that already holds `before` -----

  method PutNumber(out: Bytes, tag: nat, v: nat, ghost before: Bytes, ghost done: seq<Field>) returns (r: Bytes)
    requires out == before + Print(done)
    ensures r == before + Print(done + Number(tag, v))
  {
    JoinSnoc(PrintField, before, done, Field(tag, VarintField(v)));
    r := out + PrintField(Field(tag, VarintField(v)));
  }

  method PutRecord(out: Bytes, tag: nat, b: Bytes, ghost before: Bytes, ghost done: seq<Field>) returns (r: Bytes)
    requires out == before + Print(done)
    ensures r == before + Print(done + Record(tag, b))
  {
    JoinSnoc(PrintField, before, done, Field(tag, BytesField(b)));
    r := out + PrintField(Field(tag, BytesField(b)));
  }

  method PutNonZero(out: Bytes, tag: nat, v: nat, ghost before: Bytes, ghost done: seq<Field>) returns (r: Bytes)
    requires out == before + Print(done)
    ensures r == before + Print(done + NonZero(tag, v))
  {
    assert done + [] == done;
    if v != 0 { r := PutNumber(out, tag, v, before, done); } else { r := out; }
  }

  method PutSome(out: Bytes, tag: nat, v: Option<nat>, ghost before: Bytes, ghost done: seq<Field>) returns (r: Bytes)
    requires out == before + Print(done)
    ensures r == before + Print(done + SomeNumber(tag, v))
  {
    assert done + [] == done;
    if v.Some? { r := PutNumber(out, tag, v.value, before, done); } else { r := out; }
  }

  method PutSomeRecord(out: Bytes, tag: nat, b: Option<Bytes>, ghost before: Bytes, ghost done: seq<Field>)
    returns (r: Bytes)
    requires out == before + Print(done)
    ensures r == before + Print(done + SomeRecord(tag, b))
  {
    assert done + [] == done;
    if b.Some? { r := PutRecord(out, tag, b.value, before, done); } else { r := out; }
  }

  function Strings(pairs: seq<(nat, Bytes)>): seq<Field> {
    if pairs == [] then [] else
      Strings(pairs[..|pairs| - 1]) + NonEmpty(pairs[|pairs| - 1].0, pairs[|pairs| - 1].1)
  }

  lemma StringsSnoc(pairs: seq<(nat, Bytes)>, i: nat, done: seq<Field>)
    requires i < |pairs|
    ensures done + Strings(pairs[..i + 1]) == done + Strings(pairs[..i]) + NonEmpty(pairs[i].0, pairs[i].1)
  {
    assert pairs[..i + 1][..i] == pairs[..i];
  }

  /** The loop over tagged strings, which skips the empty ones. */
  method PutStrings(out: Bytes, pairs: seq<(nat, Bytes)>, ghost before: Bytes, ghost done: seq<Field>) returns (r: Bytes)
    requires out == before + Print(done)
    ensures r == before + Print(done + Strings(pairs))
  {
    r := out;
    assert done + Strings(pairs[..0]) == done;
    for i := 0 to |pairs|
      invariant r == before + Print(done + Strings(pairs[..i]))
    {
      StringsSnoc(pairs, i, done);
      var value := pairs[i].1;
      if value != [] {
        r := PutRecord(r, pairs[i].0, value, before, done + Strings(pairs[..i]));
      } else {
        assert done + Strings(pairs[..i]) + [] == done + Strings(pairs[..i]);
      }
    }
    assert pairs[..|pairs|] == pairs;
  }

  lemma FourStrings(done: seq<Field>, p: (nat, Bytes), q: (nat, Bytes), r: (nat, Bytes), t: (nat, Bytes))
    ensures done + Strings([p, q, r, t])
            == done + NonEmpty(p.0, p.1) + NonEmpty(q.0, q.1) + NonEmpty(r.0, r.1) + NonEmpty(t.0, t.1)
  {
    StringsSnoc([p, q, r, t], 3, done);
    StringsSnoc([p, q, r, t], 2, done);
    StringsSnoc([p, q, r, t], 1, done);
    StringsSnoc([p, q, r, t], 0, done);
    assert [p, q, r, t][..4] == [p, q, r, t];
    assert done + Strings([p, q, r, t][..0]) == done;
  }

  lemma ThreeStrings(done: seq<Field>, p: (nat, Bytes), q: (nat, Bytes), r: (nat, Bytes))
    ensures done + Strings([p, q, r]) == done + NonEmpty(p.0, p.1) + NonEmpty(q.0, q.1) + NonEmpty(r.0, r.1)
  {
    StringsSnoc([p, q, r], 2, done);
    StringsSnoc([p, q, r], 1, done);
    StringsSnoc([p, q, r], 0, done);
    assert [p, q, r][..3] == [p, q, r];
    assert done + Strings([p, q, r][..0]) == done;
  }

  /** `encode_raw` of one event, appended to the output. */
  method EncodeRaw(c: Codec, e: CloudEvent, before: Bytes) returns (out: Bytes)
    ensures out == before + Print(EventFields(c, e))
  {
    ghost var fs: seq<Field> := [];
    assert Print(fs) == [];
    out := PutNumber(before, 1, e.protocolVersion, before, fs);
    fs := Number(1, e.protocolVersion);
    assert [] + fs == fs;
    out := PutRecord(out, 2, e.eventId, before, fs);
    fs := fs + Record(2, e.eventId);
    FourStrings(fs, (3, e.runtimeId), (4, e.strategyId), (5, e.liveSessionId), (7, e.entityId));
    out := PutStrings(out, [(3, e.runtimeId), (4, e.strategyId), (5, e.liveSessionId), (7, e.entityId)], before, fs);
    fs := fs + NonEmpty(3, e.runtimeId) + NonEmpty(4, e.strategyId) + NonEmpty(5, e.liveSessionId)
          + NonEmpty(7, e.entityId);
    out := PutSomeRecord(out, 6, e.runId, before, fs);
    fs := fs + SomeRecord(6, e.runId);
    out := PutNonZero(out, 8, e.entityRevision, before, fs);
    fs := fs + NonZero(8, e.entityRevision);
    out := PutSome(out, 9, e.criticalSequence, before, fs);
    fs := fs + SomeNumber(9, e.criticalSequence);
    out := PutNonZero(out, 10, PriorityNumber(e.priority), before, fs);
    fs := fs + NonZero(10, PriorityNumber(e.priority));
    out := PutRecord(out, 11, c.writeKind(e.kind), before, fs);
    fs := fs + Record(11, c.writeKind(e.kind));
    out := PutRecord(out, 12, c.writeJson(e.payload), before, fs);
    fs := fs + Record(12, c.writeJson(e.payload));
    out := PutRecord(out, 13, Print(TraceFields(ToTrace(e.latency))), before, fs);
    fs := fs + Record(13, Print(TraceFields(ToTrace(e.latency))));
    out := PutNonZero(out, 14, ZigZag(e.createdAt.seconds), before, fs);
    fs := fs + NonZero(14, ZigZag(e.createdAt.seconds));
    out := PutNonZero(out, 15, e.createdAt.nanos, before, fs);
  }

  // ----- the length pass -----

  /** Any string or vector of the source is shorter than its address space. */
  predicate Held(b: Bytes) { |b| < U64 }

  predicate HeldEvent(c: Codec, e: CloudEvent) {
    && Held(e.runtimeId) && Held(e.strategyId) && Held(e.liveSessionId) && Held(e.entityId)
    && (e.runId.Some? ==> Held(e.runId.value))
    && Held(c.writeKind(e.kind)) && Held(c.writeJson(e.payload)) && Held(Print(TraceFields(ToTrace(e.latency))))
  }

  lemma NonZeroLen(done: seq<Field>, tag: nat, v: nat)
    requires 0 < tag < 0x2000_0000 && v < U64
    ensures |Print(done + NonZero(tag, v))| == |Print(done)| + if v == 0 then 0 else NumberLen(tag, v)
  {
    assert done + [] == done;
    NumberLenExact(done, tag, v);
  }

  lemma SomeLen(done: seq<Field>, tag: nat, v: Option<nat>)
    requires 0 < tag < 0x2000_0000 && U64Opt(v)
    ensures |Print(done + SomeNumber(tag, v))| == |Print(done)| + if v.None? then 0 else NumberLen(tag, v.value)
  {
    assert done + [] == done;
    if v.Some? { NumberLenExact(done, tag, v.value); }
  }

  lemma SomeRecordLen(done: seq<Field>, tag: nat, b: Option<Bytes>)
    requires 0 < tag < 0x2000_0000 && (b.Some? ==> Held(b.value))
    ensures |Print(done + SomeRecord(tag, b))| == |Print(done)| + if b.None? then 0 else RecordLen(tag, |b.value|)
  {
    assert done + [] == done;
    if b.Some? { RecordLenExact(done, tag, b.value); }
  }

  method StringsLen(n: nat, pairs: seq<(nat, Bytes)>, ghost done: seq<Field>) returns (r: nat)
    requires n == |Print(done)|
    requires forall i :: 0 <= i < |pairs| ==> 0 < pairs[i].0 < 0x2000_0000 && Held(pairs[i].1)
    ensures r == |Print(done + Strings(pairs))|
  {
    r := n;
    assert done + Strings(pairs[..0]) == done;
    for i := 0 to |pairs|
      invariant r == |Print(done + Strings(pairs[..i]))|
    {
      StringsSnoc(pairs, i, done);
      var value := pairs[i].1;
      if value != [] {
        RecordLenExact(done + Strings(pairs[..i]), pairs[i].0, value);
        r := r + RecordLen(pairs[i].0, |value|);
      } else {
        assert done + Strings(pairs[..i]) + [] == done + Strings(pairs[..i]);
      }
    }
    assert pairs[..|pairs|] == pairs;
  }

  /** `encoded_len` of one event: exactly the bytes `encode_raw` writes. */
  method EncodedLen(c: Codec, e: CloudEvent) returns (n: nat)
    requires WellFormedEvent(e) && HeldEvent(c, e)
    ensures n == |Print(EventFields(c, e))|
  {
    ghost var fs := Number(1, e.protocolVersion) + Record(2, e.eventId) + NonEmpty(3, e.runtimeId)
                    + NonEmpty(4, e.strategyId) + NonEmpty(5, e.liveSessionId) + NonEmpty(7, e.entityId);
    n := IdentityLen(e);
    n := SubjectLen(n, e, fs);
    fs := fs + SomeRecord(6, e.runId) + NonZero(8, e.entityRevision) + SomeNumber(9, e.criticalSequence)
          + NonZero(10, PriorityNumber(e.priority));
    n := TailLen(n, e, c.writeKind(e.kind), c.writeJson(e.payload), Print(TraceFields(ToTrace(e.latency))), fs);
  }

  method IdentityLen(e: CloudEvent) returns (n: nat)
    requires e.protocolVersion < 0x1_0000 && |e.eventId| == 16
    requires Held(e.runtimeId) && Held(e.strategyId) && Held(e.liveSessionId) && Held(e.entityId)
    ensures n == |Print(Number(1, e.protocolVersion) + Record(2, e.eventId) + NonEmpty(3, e.runtimeId)
                        + NonEmpty(4, e.strategyId) + NonEmpty(5, e.liveSessionId) + NonEmpty(7, e.entityId))|
  {
    ghost var fs := Number(1, e.protocolVersion);
    NumberLenExact([], 1, e.protocolVersion);
    assert [] + fs == fs && Print([]) == [];
    RecordLenExact(fs, 2, e.eventId);
    assert VarintLen(16) == 1 by { VarintLenExact(16); }
    n := NumberLen(1, e.protocolVersion) + KeyLen(2) + 1 + 16;
    fs := fs + Record(2, e.eventId);
    FourStrings(fs, (3, e.runtimeId), (4, e.strategyId), (5, e.liveSessionId), (7, e.entityId));
    n := StringsLen(n, [(3, e.runtimeId), (4, e.strategyId), (5, e.liveSessionId), (7, e.entityId)], fs);
  }

  method SubjectLen(start: nat, e: CloudEvent, ghost done: seq<Field>) returns (n: nat)
    requires start == |Print(done)| && (e.runId.Some? ==> Held(e.runId.value))
    requires e.entityRevision < U64 && U64Opt(e.criticalSequence)
    ensures n == |Print(done + SomeRecord(6, e.runId) + NonZero(8, e.entityRevision)
                        + SomeNumber(9, e.criticalSequence) + NonZero(10, PriorityNumber(e.priority)))|
  {
    ghost var f6 := done + SomeRecord(6, e.runId);
    SomeRecordLen(done, 6, e.runId);
    NonZeroLen(f6, 8, e.entityRevision);
    n := start;
    if e.runId.Some? { n := n + RecordLen(6, |e.runId.value|); }
    if e.entityRevision != 0 { n := n + NumberLen(8, e.entityRevision); }
    n := RankLen(n, e.criticalSequence, PriorityNumber(e.priority), f6 + NonZero(8, e.entityRevision));
  }

  method RankLen(start: nat, sequence: Option<nat>, priority: nat, ghost done: seq<Field>) returns (n: nat)
    requires start == |Print(done)| && U64Opt(sequence) && priority < U64
    ensures n == |Print(done + SomeNumber(9, sequence) + NonZero(10, priority))|
  {
    SomeLen(done, 9, sequence);
    NonZeroLen(done + SomeNumber(9, sequence), 10, priority);
    n := start;
    if sequence.Some? { n := n + NumberLen(9, sequence.value); }
    if priority != 0 { n := n + NumberLen(10, priority); }
  }

  method TailLen(start: nat, e: CloudEvent, kind: Bytes, payload: Bytes, trace: Bytes, ghost done: seq<Field>)
    returns (n: nat)
    requires start == |Print(done)| && ValidTime(e.createdAt) && Held(kind) && Held(payload) && Held(trace)
    ensures n == |Print(done + Record(11, kind) + Record(12, payload) + Record(13, trace)
                        + NonZero(14, ZigZag(e.createdAt.seconds)) + NonZero(15, e.createdAt.nanos))|
  {
    ghost var fs := done;
    RecordLenExact(fs, 11, kind);
    fs := fs + Record(11, kind);
    RecordLenExact(fs, 12, payload);
    fs := fs + Record(12, payload);
    RecordLenExact(fs, 13, trace);
    fs := fs + Record(13, trace);
    n := start + RecordLen(11, |kind|) + RecordLen(12, |payload|) + RecordLen(13, |trace|);
    ZigZagRoundTrip(e.createdAt.seconds);
    NonZeroLen(fs, 14, ZigZag(e.createdAt.seconds));
    if e.createdAt.seconds != 0 { n := n + NumberLen(14, ZigZag(e.createdAt.seconds)); }
    fs := fs + NonZero(14, ZigZag(e.createdAt.seconds));
    NonZeroLen(fs, 15, e.createdAt.nanos);
    if e.createdAt.nanos != 0 { n := n + NumberLen(15, e.createdAt.nanos); }
  }

  // ----- the batch -----

  /** Records of the first `i` events, critical ones first. */
  function RecordsUpTo(critical: nat, bodies: seq<Bytes>, i: nat): seq<Field>
    requires i <= |bodies|
  {
    seq(i, k requires 0 <= k < i => Field(if k < critical then 7 else 8, BytesField(bodies[k])))
  }

  lemma RecordsSplit(critical: seq<Bytes>, telemetry: seq<Bytes>)
    ensures RecordsUpTo(|critical|, critical + telemetry, |critical| + |telemetry|)
            == Records(7, critical) + Records(8, telemetry)
  {
  }

  lemma RecordsSnoc(critical: nat, bodies: seq<Bytes>, i: nat, done: seq<Field>)
    requires i < |bodies|
    ensures done + RecordsUpTo(critical, bodies, i + 1)
            == done + RecordsUpTo(critical, bodies, i) + Record(if i < critical then 7 else 8, bodies[i])
  {
  }

  predicate HeldBatch(c: Codec, b: Batch) {
    && Held(b.runtimeId) && Held(b.strategyId) && Held(b.liveSessionId)
    && HeldEvents(c, b.criticalEvents) && HeldEvents(c, b.telemetry)
  }

  predicate HeldEvents(c: Codec, es: seq<CloudEvent>) {
    forall i :: 0 <= i < |es| ==> HeldEvent(c, es[i]) && Held(EventBodies(c, es)[i])
  }

  /** The batch's own fields and their length. */
  method EncodeHead(b: Batch) returns (out: Bytes, len: nat)
    requires b.protocolVersion < 0x1_0000 && U64Opt(b.firstCriticalSequence) && U64Opt(b.lastCriticalSequence)
    requires Held(b.runtimeId) && Held(b.strategyId) && Held(b.liveSessionId)
    ensures out == Print(Head(b)) && len == |out|
  {
    var strings := [(2, b.runtimeId), (3, b.strategyId), (4, b.liveSessionId)];
    ghost var fs := Number(1, b.protocolVersion);
    assert Print([]) == [] && [] + fs == fs && [] + Print([]) == [];
    NumberLenExact([], 1, b.protocolVersion);
    len := NumberLen(1, b.protocolVersion);
    out := PutNumber([], 1, b.protocolVersion, [], []);
    assert [] + Print(fs) == Print(fs);
    ThreeStrings(fs, (2, b.runtimeId), (3, b.strategyId), (4, b.liveSessionId));
    len := StringsLen(len, strings, fs);
    out := PutStrings(out, strings, [], fs);
    fs := fs + NonEmpty(2, b.runtimeId) + NonEmpty(3, b.strategyId) + NonEmpty(4, b.liveSessionId);
    SomeLen(fs, 5, b.firstCriticalSequence);
    if b.firstCriticalSequence.Some? { len := len + NumberLen(5, b.firstCriticalSequence.value); }
    out := PutSome(out, 5, b.firstCriticalSequence, [], fs);
    fs := fs + SomeNumber(5, b.firstCriticalSequence);
    SomeLen(fs, 6, b.lastCriticalSequence);
    if b.lastCriticalSequence.Some? { len := len + NumberLen(6, b.lastCriticalSequence.value); }
    out := PutSome(out, 6, b.lastCriticalSequence, [], fs);
    assert [] + Print(Head(b)) == Print(Head(b));
  }

  ghost predicate Writes(c: Codec, e: CloudEvent, body: Bytes) {
    WellFormedEvent(e) && HeldEvent(c, e) && body == Print(EventFields(c, e)) && Held(body)
  }

  /** One event: key, length, then the event itself. */
  method PutEvent(c: Codec, e: CloudEvent, tag: nat, before: Bytes, ghost done: seq<Field>, ghost body: Bytes)
    returns (out: Bytes, len: nat)
    requires Writes(c, e, body) && tag in {7, 8} && before == Print(done)
    ensures out == Print(done + Record(tag, body)) && len == |out| - |before|
  {
    var n := EncodedLen(c, e);
    out := EncodeRaw(c, e, before + (KeyBytes(tag, 2) + Varint(n)));
    RecordLenExact(done, tag, body);
    Framed(before, done, tag, body);
    len := KeyLen(tag) + VarintLen(n) + n;
  }

  method PutEvents(c: Codec, events: seq<CloudEvent>, critical: nat, before: Bytes,
                   ghost done: seq<Field>, ghost bodies: seq<Bytes>) returns (out: Bytes, len: nat)
    requires |bodies| == |events| && before == Print(done)
    requires forall i :: 0 <= i < |events| ==> Writes(c, events[i], bodies[i])
    ensures out == Print(done + RecordsUpTo(critical, bodies, |bodies|)) && len == |out| - |before|
  {
    out, len := before, 0;
    assert done + RecordsUpTo(critical, bodies, 0) == done;
    for i := 0 to |events|
      invariant out == Print(done + RecordsUpTo(critical, bodies, i)) && len == |out| - |before|
    {
      RecordsSnoc(critical, bodies, i, done);
      assert Writes(c, events[i], bodies[i]);
      var more;
      out, more := PutEvent(c, events[i], if i < critical then 7 else 8, out,
                            done + RecordsUpTo(critical, bodies, i), bodies[i]);
      len := len + more;
    }
  }

  lemma Framed(before: Bytes, done: seq<Field>, tag: nat, body: Bytes)
    requires before == Print(done)
    ensures before + (KeyBytes(tag, 2) + Varint(|body|)) + body == Print(done + Record(tag, body))
  {
    var f := Field(tag, BytesField(body));
    JoinLast(PrintField, done, f);
    Reassociate(before, KeyBytes(tag, 2), Varint(|body|), body, PrintField(f), Print(done + [f]));
  }

  lemma JoinLast(encode: Field -> Bytes, done: seq<Field>, f: Field)
    ensures Joined(encode, done + [f]) == Joined(encode, done) + encode(f)
  {
    JoinSnoc(encode, [], done, f);
    assert [] + Joined(encode, done) == Joined(encode, done);
    assert [] + Joined(encode, done + [f]) == Joined(encode, done + [f]);
  }

  lemma Reassociate(a: Bytes, b: Bytes, c: Bytes, d: Bytes, whole: Bytes, all: Bytes)
    requires whole == b + (c + d) && all == a + whole
    ensures a + (b + c) + d == all
  {
  }

  lemma ListWritten(c: Codec, es: seq<CloudEvent>, i: nat)
    requires i < |es| && WellFormedEvent(es[i]) && HeldEvents(c, es)
    ensures Writes(c, es[i], EventBodies(c, es)[i])
  {
  }

  lemma BodiesWritten(c: Codec, critical: seq<CloudEvent>, telemetry: seq<CloudEvent>, i: nat)
    requires HeldEvents(c, critical) && HeldEvents(c, telemetry) && i < |critical| + |telemetry|
    requires forall k :: 0 <= k < |critical| ==> WellFormedEvent(critical[k])
    requires forall k :: 0 <= k < |telemetry| ==> WellFormedEvent(telemetry[k])
    ensures Writes(c, (critical + telemetry)[i], (EventBodies(c, critical) + EventBodies(c, telemetry))[i])
  {
    if i < |critical| { ListWritten(c, critical, i); } else { ListWritten(c, telemetry, i - |critical|); }
  }

  /** The whole encoder: the length announced up front is the length written. */
  method EncodeBatch(c: Codec, b: Batch) returns (out: Bytes, len: nat)
    requires WellFormed(b) && HeldBatch(c, b)
    ensures out == Encode(c, b) && len == |out|
  {
    var events := b.criticalEvents + b.telemetry;
    ghost var critical, telemetry := EventBodies(c, b.criticalEvents), EventBodies(c, b.telemetry);
    forall i | 0 <= i < |events| ensures Writes(c, events[i], (critical + telemetry)[i]) {
      BodiesWritten(c, b.criticalEvents, b.telemetry, i);
    }
    out, len := EncodeHead(b);
    var more;
    out, more := PutEvents(c, events, |b.criticalEvents|, out, Head(b), critical + telemetry);
    len := len + more;
    RecordsSplit(critical, telemetry);
    BatchShape(Head(b), Records(7, critical), Records(8, telemetry));
  }

  lemma BatchShape(a: seq<Field>, b: seq<Field>, c: seq<Field>)
    ensures a + (b + c) == a + b + c
  {
  }

  // ----- the decoder -----

  lemma ParsePrefix(b: Bytes, p: Parsed)
    requires b != [] && ParseField(b, RECURSION_LIMIT) == Some(p)
    ensures ParseFields(b, RECURSION_LIMIT)
            == var rest := ParseFields(b[p.size..], RECURSION_LIMIT);
               if rest.None? then None else Some([p.field] + rest.value)
  {
  }

  /** Counts event fields before anything is built. */
  method CountEvents(b: Bytes) returns (ok: bool)
    ensures ok <==> ParseFields(b, RECURSION_LIMIT).Some?
                    && EventFieldsIn(ParseFields(b, RECURSION_LIMIT).value) <= MAX_EVENTS
  {
    var cursor := b;
    var events := 0;
    while cursor != []
      invariant events <= MAX_EVENTS
      invariant ParseFields(b, RECURSION_LIMIT).Some? <==> ParseFields(cursor, RECURSION_LIMIT).Some?
      invariant ParseFields(b, RECURSION_LIMIT).Some? ==>
                  EventFieldsIn(ParseFields(b, RECURSION_LIMIT).value)
                  == events + EventFieldsIn(ParseFields(cursor, RECURSION_LIMIT).value)
      decreases |cursor|
    {
      var p := ParseField(cursor, RECURSION_LIMIT);
      if p.None? { return false; }
      ParsePrefix(cursor, p.value);
      ghost var rest := ParseFields(cursor[p.value.size..], RECURSION_LIMIT);
      if rest.Some? { assert ([p.value.field] + rest.value)[1..] == rest.value; }
      if p.value.field.tag == 7 || p.value.field.tag == 8 {
        events := events + 1;
        if events > MAX_EVENTS { return false; }
      }
      cursor := cursor[p.value.size..];
    }
    return true;
  }

  /** `decode_bytes`: bounded, counted, merged and restored. */
  method DecodeBytes(c: Codec, b: Bytes) returns (r: Option<Batch>)
    ensures r == Decode(c, b)
  {
    if |b| > MAX_BYTES { return None; }
    var counted := CountEvents(b);
    if !counted { return None; }
    var m := Fold(MergeBatch, EmptyBatch(), ParseFields(b, RECURSION_LIMIT).value);
    if m.None? || m.value.version >= 0x1_0000 { return None; }
    var critical := RestoreAll(c, m.value.critical);
    var telemetry := RestoreAll(c, m.value.telemetry);
    if critical.None? || telemetry.None? { return None; }
    return Some(Batch(m.value.version, m.value.runtime, m.value.strategy, m.value.session, m.value.first,
                      m.value.last, critical.value, telemetry.value));
  }
}
