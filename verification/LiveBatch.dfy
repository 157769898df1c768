/** The live batch envelope: its messages, what each field of the wire does to
    them, and the fields a batch is written as. */
module LiveBatch {
  import opened Basics
  import opened Utf8
  import opened Wire

  // ----- the domain envelope -----

  datatype LatencyTrace = LatencyTrace(
    sourceOccurredAt: Option<int>, adapterQueuedAt: Option<int>, runtimeReceivedAt: Option<int>,
    localBusPublishedAt: Option<int>, localOutboxCommittedAt: Option<int>, persistenceRequestSentAt: Option<int>,
    persistenceCommittedAt: Option<int>, persistenceAckReceivedAt: Option<int>, clientAppliedAt: Option<int>,
    clockOffset: Option<int>, clockUncertainty: Option<nat>)

  datatype EventPriority = Critical | Telemetry | Audit | Reconciliation

  /** An event kind and a JSON value, known only through the codec. */
  datatype EventKind = EventKind(name: Bytes)
  datatype Json =
    | JNull | JBool(b: bool) | JNumber(digits: Bytes) | JString(text: Bytes)
    | JArray(items: seq<Json>) | JObject(members: seq<(Bytes, Json)>)

  /** Seconds since 1970 and nanoseconds; a leap second runs past one billion. */
  datatype Time = Time(seconds: int, nanos: nat)

  datatype CloudEvent = CloudEvent(
    protocolVersion: nat, eventId: Bytes, runtimeId: Bytes, strategyId: Bytes, liveSessionId: Bytes,
    runId: Option<Bytes>, entityId: Bytes, entityRevision: nat, criticalSequence: Option<nat>,
    priority: EventPriority, kind: EventKind, payload: Json, latency: LatencyTrace, createdAt: Time)

  datatype Batch = Batch(
    protocolVersion: nat, runtimeId: Bytes, strategyId: Bytes, liveSessionId: Bytes,
    firstCriticalSequence: Option<nat>, lastCriticalSequence: Option<nat>,
    criticalEvents: seq<CloudEvent>, telemetry: seq<CloudEvent>)

  datatype Codec = Codec(
    writeKind: EventKind -> Bytes, readKind: Bytes -> Option<EventKind>,
    writeJson: Json -> Bytes, readJson: Bytes -> Option<Json>)

  /** The codec reads back what this event carries. */
  predicate Faithful(c: Codec, e: CloudEvent) {
    && c.readKind(c.writeKind(e.kind)) == Some(e.kind)
    && c.readJson(c.writeJson(e.payload)) == Some(e.payload)
  }

  predicate AllFaithful(c: Codec, es: seq<CloudEvent>) {
    forall i :: 0 <= i < |es| ==> Faithful(c, es[i])
  }

  /** Times a `DateTime<Utc>` can hold. */
  predicate ValidTime(t: Time) {
    && -8334601228800 <= t.seconds <= 8210266876799
    && t.nanos < 2_000_000_000
    && (t.nanos >= 1_000_000_000 ==> t.seconds % 60 == 59)
  }

  predicate I64(v: Option<int>) { v.Some? ==> I64_MIN <= v.value <= I64_MAX }

  predicate U64Opt(v: Option<nat>) { v.Some? ==> v.value < U64 }

  predicate WellFormedTrace(t: LatencyTrace) {
    && I64(t.sourceOccurredAt) && I64(t.adapterQueuedAt) && I64(t.runtimeReceivedAt) && I64(t.localBusPublishedAt)
    && I64(t.localOutboxCommittedAt) && I64(t.persistenceRequestSentAt) && I64(t.persistenceCommittedAt)
    && I64(t.persistenceAckReceivedAt) && I64(t.clientAppliedAt) && I64(t.clockOffset) && U64Opt(t.clockUncertainty)
  }

  /** The ranges the source's types enforce. */
  predicate WellFormedEvent(e: CloudEvent) {
    && e.protocolVersion < 0x1_0000 && |e.eventId| == 16
    && Valid(e.runtimeId) && Valid(e.strategyId) && Valid(e.liveSessionId) && Valid(e.entityId)
    && (e.runId.Some? ==> Valid(e.runId.value))
    && e.entityRevision < U64 && U64Opt(e.criticalSequence)
    && WellFormedTrace(e.latency) && ValidTime(e.createdAt)
  }

  predicate WellFormed(b: Batch) {
    && b.protocolVersion < 0x1_0000
    && Valid(b.runtimeId) && Valid(b.strategyId) && Valid(b.liveSessionId)
    && U64Opt(b.firstCriticalSequence) && U64Opt(b.lastCriticalSequence)
    && (forall i :: 0 <= i < |b.criticalEvents| ==> WellFormedEvent(b.criticalEvents[i]))
    && (forall i :: 0 <= i < |b.telemetry| ==> WellFormedEvent(b.telemetry[i]))
  }

  // ----- the wire messages -----

  datatype TraceMsg = TraceMsg(
    source: Option<int>, adapter: Option<int>, runtime: Option<int>, bus: Option<int>, outbox: Option<int>,
    request: Option<int>, committed: Option<int>, ack: Option<int>, applied: Option<int>, offset: Option<int>,
    uncertainty: Option<nat>)

  datatype EventMsg = EventMsg(
    version: nat, id: Bytes, runtime: Bytes, strategy: Bytes, session: Bytes, run: Option<Bytes>, entity: Bytes,
    revision: nat, sequence: Option<nat>, priority: nat, kindJson: Bytes, payloadJson: Bytes,
    latency: Option<TraceMsg>, seconds: int, nanos: nat)

  datatype BatchMsg = BatchMsg(
    version: nat, runtime: Bytes, strategy: Bytes, session: Bytes, first: Option<nat>, last: Option<nat>,
    critical: seq<EventMsg>, telemetry: seq<EventMsg>)

  function EmptyTrace(): TraceMsg {
    TraceMsg(None, None, None, None, None, None, None, None, None, None, None)
  }

  function EmptyEvent(): EventMsg {
    EventMsg(0, [], [], [], [], None, [], 0, None, 0, [], [], None, 0, 0)
  }

  function EmptyBatch(): BatchMsg { BatchMsg(0, [], [], [], None, None, [], []) }

  // ----- merging one field into a message; `None` refuses the input -----

  function Fold<M>(merge: (M, Field) -> Option<M>, m: M, fs: seq<Field>): Option<M>
    decreases |fs|
  {
    if fs == [] then Some(m)
    else
      var next := merge(m, fs[0]);
      if next.None? then None else Fold(merge, next.value, fs[1..])
  }

  function SignedOf(p: Payload): Option<Option<int>> {
    if p.VarintField? then Some(Some(UnZigZag(p.value))) else None
  }

  function NumberOf(p: Payload): Option<nat> {
    if p.VarintField? then Some(p.value) else None
  }

  /** A 32-bit field keeps the low half of a longer varint. */
  function Number32Of(p: Payload): Option<nat> {
    if p.VarintField? then Some(p.value % U32) else None
  }

  function BytesOf(p: Payload): Option<Bytes> {
    if p.BytesField? then Some(p.bytes) else None
  }

  function TextOf(p: Payload): Option<Bytes> {
    if p.BytesField? && Valid(p.bytes) then Some(p.bytes) else None
  }

  function Then<A, B>(a: Option<A>, f: A -> B): Option<B> {
    if a.None? then None else Some(f(a.value))
  }

  function MergeTrace(m: TraceMsg, f: Field): Option<TraceMsg> {
    match f.tag
    case 1 => Then(SignedOf(f.payload), v => m.(source := v))
    case 2 => Then(SignedOf(f.payload), v => m.(adapter := v))
    case 3 => Then(SignedOf(f.payload), v => m.(runtime := v))
    case 4 => Then(SignedOf(f.payload), v => m.(bus := v))
    case 5 => Then(SignedOf(f.payload), v => m.(outbox := v))
    case 6 => Then(SignedOf(f.payload), v => m.(request := v))
    case 7 => Then(SignedOf(f.payload), v => m.(committed := v))
    case 8 => Then(SignedOf(f.payload), v => m.(ack := v))
    case 9 => Then(SignedOf(f.payload), v => m.(applied := v))
    case 10 => Then(SignedOf(f.payload), v => m.(offset := v))
    case 11 => Then(NumberOf(f.payload), v => m.(uncertainty := Some(v)))
    case _ => Some(m)
  }

  /** A repeated trace merges into the one already there. */
  function MergeTraceBytes(m: Option<TraceMsg>, p: Payload): Option<TraceMsg> {
    if !p.BytesField? then None
    else
      var fs := ParseFields(p.bytes, RECURSION_LIMIT - 2);
      if fs.None? then None
      else Fold(MergeTrace, if m.Some? then m.value else EmptyTrace(), fs.value)
  }

  function MergeEvent(m: EventMsg, f: Field): Option<EventMsg> {
    match f.tag
    case 1 => Then(Number32Of(f.payload), v => m.(version := v))
    case 2 => Then(BytesOf(f.payload), v => m.(id := v))
    case 3 => Then(TextOf(f.payload), v => m.(runtime := v))
    case 4 => Then(TextOf(f.payload), v => m.(strategy := v))
    case 5 => Then(TextOf(f.payload), v => m.(session := v))
    case 6 => Then(TextOf(f.payload), v => m.(run := Some(v)))
    case 7 => Then(TextOf(f.payload), v => m.(entity := v))
    case 8 => Then(NumberOf(f.payload), v => m.(revision := v))
    case 9 => Then(NumberOf(f.payload), v => m.(sequence := Some(v)))
    case 10 => Then(Number32Of(f.payload), v => m.(priority := v))
    case 11 => Then(BytesOf(f.payload), v => m.(kindJson := v))
    case 12 => Then(BytesOf(f.payload), v => m.(payloadJson := v))
    case 13 => Then(MergeTraceBytes(m.latency, f.payload), v => m.(latency := Some(v)))
    case 14 => Then(NumberOf(f.payload), v => m.(seconds := UnZigZag(v)))
    case 15 => Then(Number32Of(f.payload), v => m.(nanos := v))
    case _ => Some(m)
  }

  function ReadEvent(p: Payload): Option<EventMsg> {
    if !p.BytesField? then None
    else
      var fs := ParseFields(p.bytes, RECURSION_LIMIT - 1);
      if fs.None? then None else Fold(MergeEvent, EmptyEvent(), fs.value)
  }

  function MergeBatch(m: BatchMsg, f: Field): Option<BatchMsg> {
    match f.tag
    case 1 => Then(Number32Of(f.payload), v => m.(version := v))
    case 2 => Then(TextOf(f.payload), v => m.(runtime := v))
    case 3 => Then(TextOf(f.payload), v => m.(strategy := v))
    case 4 => Then(TextOf(f.payload), v => m.(session := v))
    case 5 => Then(NumberOf(f.payload), v => m.(first := Some(v)))
    case 6 => Then(NumberOf(f.payload), v => m.(last := Some(v)))
    case 7 => Then(ReadEvent(f.payload), v => m.(critical := m.critical + [v]))
    case 8 => Then(ReadEvent(f.payload), v => m.(telemetry := m.telemetry + [v]))
    case _ => Some(m)
  }

  // ----- from messages to the envelope -----

  function FromTrace(t: TraceMsg): LatencyTrace {
    LatencyTrace(t.source, t.adapter, t.runtime, t.bus, t.outbox, t.request, t.committed, t.ack, t.applied, t.offset,
                 t.uncertainty)
  }

  function PriorityFrom(n: nat): Option<EventPriority> {
    match n
    case 0 => Some(Critical)
    case 1 => Some(Telemetry)
    case 2 => Some(Audit)
    case 3 => Some(Reconciliation)
    case _ => None
  }

  function Restore(c: Codec, e: EventMsg): Option<CloudEvent> {
    var priority := PriorityFrom(e.priority);
    var kind := c.readKind(e.kindJson);
    var payload := c.readJson(e.payloadJson);
    if || e.version >= 0x1_0000 || |e.id| != 16 || priority.None? || kind.None? || payload.None?
       || e.latency.None? || !ValidTime(Time(e.seconds, e.nanos))
    then None
    else
      Some(CloudEvent(e.version, e.id, e.runtime, e.strategy, e.session, e.run, e.entity, e.revision, e.sequence,
                      priority.value, kind.value, payload.value, FromTrace(e.latency.value), Time(e.seconds, e.nanos)))
  }

  function RestoreAll(c: Codec, es: seq<EventMsg>): Option<seq<CloudEvent>> {
    if es == [] then Some([])
    else
      var first, rest := Restore(c, es[0]), RestoreAll(c, es[1..]);
      if first.None? || rest.None? then None else Some([first.value] + rest.value)
  }

  function EventFieldsIn(fs: seq<Field>): nat {
    if fs == [] then 0 else (if fs[0].tag in {7, 8} then 1 else 0) + EventFieldsIn(fs[1..])
  }

  const MAX_BYTES: nat := 256 * 1024
  const MAX_EVENTS: nat := 100

  /** What the decoder answers; `None` stands for every error text. */
  function Decode(c: Codec, b: Bytes): Option<Batch> {
    if |b| > MAX_BYTES then None
    else
      var fs := ParseFields(b, RECURSION_LIMIT);
      if fs.None? || EventFieldsIn(fs.value) > MAX_EVENTS then None
      else
        var m := Fold(MergeBatch, EmptyBatch(), fs.value);
        if m.None? || m.value.version >= 0x1_0000 then None
        else
          var critical, telemetry := RestoreAll(c, m.value.critical), RestoreAll(c, m.value.telemetry);
          if critical.None? || telemetry.None? then None
          else Some(Batch(m.value.version, m.value.runtime, m.value.strategy, m.value.session, m.value.first,
                          m.value.last, critical.value, telemetry.value))
  }

  // ----- the fields written -----

  function Number(tag: nat, v: nat): seq<Field> { [Field(tag, VarintField(v))] }

  function Record(tag: nat, b: Bytes): seq<Field> { [Field(tag, BytesField(b))] }

  function NonZero(tag: nat, v: nat): seq<Field> { if v == 0 then [] else Number(tag, v) }

  function NonEmpty(tag: nat, b: Bytes): seq<Field> { if b == [] then [] else Record(tag, b) }

  function SomeNumber(tag: nat, v: Option<nat>): seq<Field> { if v.None? then [] else Number(tag, v.value) }

  function SomeSigned(tag: nat, v: Option<int>): seq<Field> { if v.None? then [] else Number(tag, ZigZag(v.value)) }

  function SomeRecord(tag: nat, b: Option<Bytes>): seq<Field> { if b.None? then [] else Record(tag, b.value) }

  function ToTrace(t: LatencyTrace): TraceMsg {
    TraceMsg(t.sourceOccurredAt, t.adapterQueuedAt, t.runtimeReceivedAt, t.localBusPublishedAt,
             t.localOutboxCommittedAt, t.persistenceRequestSentAt, t.persistenceCommittedAt,
             t.persistenceAckReceivedAt, t.clientAppliedAt, t.clockOffset, t.clockUncertainty)
  }

  function TraceFields(t: TraceMsg): seq<Field> {
    SomeSigned(1, t.source) + SomeSigned(2, t.adapter) + SomeSigned(3, t.runtime) + SomeSigned(4, t.bus)
    + SomeSigned(5, t.outbox) + SomeSigned(6, t.request) + SomeSigned(7, t.committed) + SomeSigned(8, t.ack)
    + SomeSigned(9, t.applied) + SomeSigned(10, t.offset) + SomeNumber(11, t.uncertainty)
  }

  function PriorityNumber(p: EventPriority): nat {
    match p
    case Critical => 0
    case Telemetry => 1
    case Audit => 2
    case Reconciliation => 3
  }

  /** Version, identity, kind, payload and trace are always written; other
      fields only when they differ from their default. */
  function EventFields(c: Codec, e: CloudEvent): seq<Field> {
    Number(1, e.protocolVersion) + Record(2, e.eventId)
    + NonEmpty(3, e.runtimeId) + NonEmpty(4, e.strategyId) + NonEmpty(5, e.liveSessionId) + NonEmpty(7, e.entityId)
    + SomeRecord(6, e.runId) + NonZero(8, e.entityRevision) + SomeNumber(9, e.criticalSequence)
    + NonZero(10, PriorityNumber(e.priority)) + Record(11, c.writeKind(e.kind)) + Record(12, c.writeJson(e.payload))
    + Record(13, Print(TraceFields(ToTrace(e.latency))))
    + NonZero(14, ZigZag(e.createdAt.seconds)) + NonZero(15, e.createdAt.nanos)
  }

  function EventBodies(c: Codec, es: seq<CloudEvent>): seq<Bytes> {
    seq(|es|, i requires 0 <= i < |es| => Print(EventFields(c, es[i])))
  }

  function Records(tag: nat, bodies: seq<Bytes>): seq<Field> {
    seq(|bodies|, i requires 0 <= i < |bodies| => Field(tag, BytesField(bodies[i])))
  }

  function EventRecords(c: Codec, tag: nat, es: seq<CloudEvent>): seq<Field> {
    Records(tag, EventBodies(c, es))
  }

  function BatchFields(c: Codec, b: Batch): seq<Field> {
    Number(1, b.protocolVersion) + NonEmpty(2, b.runtimeId) + NonEmpty(3, b.strategyId) + NonEmpty(4, b.liveSessionId)
    + SomeNumber(5, b.firstCriticalSequence) + SomeNumber(6, b.lastCriticalSequence)
    + EventRecords(c, 7, b.criticalEvents) + EventRecords(c, 8, b.telemetry)
  }

  function Encode(c: Codec, b: Batch): Bytes { Print(BatchFields(c, b)) }
}
