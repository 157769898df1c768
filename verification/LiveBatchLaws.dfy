/** The live batch on the wire: which field carries what, and what a decoder takes. */
module LiveBatchLaws {
  import opened Basics
  import opened Utf8
  import opened Wire
  import opened LiveBatch

  ghost predicate Signed(p: Payload, v: Option<int>) { v != None && p == VarintField(ZigZag(v.value)) }

  ghost predicate Counted(p: Payload, v: Option<nat>) { v != None && p == VarintField(v.value) }

  ghost predicate Filled(p: Payload, b: Bytes) { b != [] && p == BytesField(b) }

  ghost predicate TraceCarries(t: LatencyTrace, f: Field) {
    match f.tag
    case 1 => Signed(f.payload, t.sourceOccurredAt)
    case 2 => Signed(f.payload, t.adapterQueuedAt)
    case 3 => Signed(f.payload, t.runtimeReceivedAt)
    case 4 => Signed(f.payload, t.localBusPublishedAt)
    case 5 => Signed(f.payload, t.localOutboxCommittedAt)
    case 6 => Signed(f.payload, t.persistenceRequestSentAt)
    case 7 => Signed(f.payload, t.persistenceCommittedAt)
    case 8 => Signed(f.payload, t.persistenceAckReceivedAt)
    case 9 => Signed(f.payload, t.clientAppliedAt)
    case 10 => Signed(f.payload, t.clockOffset)
    case 11 => Counted(f.payload, t.clockUncertainty)
    case _ => false
  }

  /** Priorities are numbered critical, telemetry, audit, reconciliation. */
  ghost predicate Ranked(p: Payload, priority: EventPriority) {
    match priority
    case Critical => false
    case Telemetry => p == VarintField(1)
    case Audit => p == VarintField(2)
    case Reconciliation => p == VarintField(3)
  }

  ghost predicate EventCarries(c: Codec, e: CloudEvent, trace: Bytes, f: Field) {
    match f.tag
    case 1 => f.payload == VarintField(e.protocolVersion)
    case 2 => f.payload == BytesField(e.eventId)
    case 3 => Filled(f.payload, e.runtimeId)
    case 4 => Filled(f.payload, e.strategyId)
    case 5 => Filled(f.payload, e.liveSessionId)
    case 6 => e.runId != None && f.payload == BytesField(e.runId.value)
    case 7 => Filled(f.payload, e.entityId)
    case 8 => e.entityRevision > 0 && f.payload == VarintField(e.entityRevision)
    case 9 => Counted(f.payload, e.criticalSequence)
    case 10 => Ranked(f.payload, e.priority)
    case 11 => f.payload == BytesField(c.writeKind(e.kind))
    case 12 => f.payload == BytesField(c.writeJson(e.payload))
    case 13 => f.payload == BytesField(trace)
    case 14 => e.createdAt.seconds != 0 && f.payload == VarintField(ZigZag(e.createdAt.seconds))
    case 15 => e.createdAt.nanos > 0 && f.payload == VarintField(e.createdAt.nanos)
    case _ => false
  }

  ghost predicate HeadCarries(b: Batch, f: Field) {
    match f.tag
    case 1 => f.payload == VarintField(b.protocolVersion)
    case 2 => Filled(f.payload, b.runtimeId)
    case 3 => Filled(f.payload, b.strategyId)
    case 4 => Filled(f.payload, b.liveSessionId)
    case 5 => Counted(f.payload, b.firstCriticalSequence)
    case 6 => Counted(f.payload, b.lastCriticalSequence)
    case _ => false
  }

  /** The timestamps of a trace, one tag each. */
  lemma TraceLayout(t: LatencyTrace, f: Field)
    ensures f in TraceFields(ToTrace(t)) <==> TraceCarries(t, f)
  {
    var m := ToTrace(t);
    var early := SomeSigned(1, m.source) + SomeSigned(2, m.adapter) + SomeSigned(3, m.runtime) + SomeSigned(4, m.bus)
                 + SomeSigned(5, m.outbox);
    EarlyLayout(t, f);
    LateLayout(t, f, early);
  }

  lemma EarlyLayout(t: LatencyTrace, f: Field)
    ensures var m := ToTrace(t);
            f in SomeSigned(1, m.source) + SomeSigned(2, m.adapter) + SomeSigned(3, m.runtime) + SomeSigned(4, m.bus)
                 + SomeSigned(5, m.outbox)
            <==> f.tag <= 5 && TraceCarries(t, f)
  {
  }

  lemma LateLayout(t: LatencyTrace, f: Field, early: seq<Field>)
    requires f in early <==> f.tag <= 5 && TraceCarries(t, f)
    ensures var m := ToTrace(t);
            f in early + SomeSigned(6, m.request) + SomeSigned(7, m.committed) + SomeSigned(8, m.ack)
                 + SomeSigned(9, m.applied) + SomeSigned(10, m.offset) + SomeNumber(11, m.uncertainty)
            <==> TraceCarries(t, f)
  {
  }

  lemma IdentityLayout(c: Codec, e: CloudEvent, trace: Bytes, f: Field)
    ensures f in Number(1, e.protocolVersion) + Record(2, e.eventId)
                 + NonEmpty(3, e.runtimeId) + NonEmpty(4, e.strategyId) + NonEmpty(5, e.liveSessionId) + NonEmpty(7, e.entityId)
                 + SomeRecord(6, e.runId)
            <==> f.tag <= 7 && EventCarries(c, e, trace, f)
  {
  }

  lemma RankLayout(c: Codec, e: CloudEvent, trace: Bytes, f: Field, before: seq<Field>)
    requires f in before <==> f.tag <= 7 && EventCarries(c, e, trace, f)
    ensures f in before + NonZero(8, e.entityRevision) + SomeNumber(9, e.criticalSequence)
                 + NonZero(10, PriorityNumber(e.priority)) + Record(11, c.writeKind(e.kind))
            <==> f.tag <= 11 && EventCarries(c, e, trace, f)
  {
  }

  lemma TailLayout(c: Codec, e: CloudEvent, trace: Bytes, f: Field, before: seq<Field>)
    requires f in before <==> f.tag <= 11 && EventCarries(c, e, trace, f)
    ensures f in before + Record(12, c.writeJson(e.payload)) + Record(13, trace)
                 + NonZero(14, ZigZag(e.createdAt.seconds)) + NonZero(15, e.createdAt.nanos)
            <==> EventCarries(c, e, trace, f)
  {
  }

  /** The fields of an event, one tag each. */
  lemma EventLayout(c: Codec, e: CloudEvent, f: Field)
    ensures f in EventFields(c, e) <==> EventCarries(c, e, Print(TraceFields(ToTrace(e.latency))), f)
  {
    var trace := Print(TraceFields(ToTrace(e.latency)));
    var identity := Number(1, e.protocolVersion) + Record(2, e.eventId) + NonEmpty(3, e.runtimeId)
                    + NonEmpty(4, e.strategyId) + NonEmpty(5, e.liveSessionId) + NonEmpty(7, e.entityId)
                    + SomeRecord(6, e.runId);
    IdentityLayout(c, e, trace, f);
    RankLayout(c, e, trace, f, identity);
    TailLayout(c, e, trace, f, identity + NonZero(8, e.entityRevision) + SomeNumber(9, e.criticalSequence)
                               + NonZero(10, PriorityNumber(e.priority)) + Record(11, c.writeKind(e.kind)));
  }

  ghost predicate Holds(c: Codec, es: seq<CloudEvent>, p: Payload) {
    exists i :: 0 <= i < |es| && p == BytesField(Print(EventFields(c, es[i])))
  }

  lemma RecordsHold(c: Codec, tag: nat, es: seq<CloudEvent>, f: Field)
    ensures f in EventRecords(c, tag, es) <==> f.tag == tag && Holds(c, es, f.payload)
  {
    if f in EventRecords(c, tag, es) {
      var i :| 0 <= i < |es| && EventRecords(c, tag, es)[i] == f;
      assert f.payload == BytesField(Print(EventFields(c, es[i])));
    }
    if f.tag == tag && Holds(c, es, f.payload) {
      var i :| 0 <= i < |es| && f.payload == BytesField(Print(EventFields(c, es[i])));
      assert EventRecords(c, tag, es)[i] == f;
    }
  }

  /** The fields of a batch: its head, critical events under tag 7 and telemetry
      under tag 8. */
  lemma BatchLayout(c: Codec, b: Batch, f: Field)
    ensures f in BatchFields(c, b) <==>
            || HeadCarries(b, f)
            || (f.tag == 7 && Holds(c, b.criticalEvents, f.payload))
            || (f.tag == 8 && Holds(c, b.telemetry, f.payload))
  {
    RecordsHold(c, 7, b.criticalEvents, f);
    RecordsHold(c, 8, b.telemetry, f);
  }

  /** Exactly the event messages that are events, and which priority each number is. */
  lemma RestoreExactly(c: Codec, e: EventMsg)
    ensures Restore(c, e).Some? <==>
            && e.version <= 65535 && |e.id| == 16 && e.priority <= 3 && e.latency != None
            && c.readKind(e.kindJson) != None && c.readJson(e.payloadJson) != None
            && -8334601228800 <= e.seconds <= 8210266876799 && e.nanos < 2000000000
            && (e.nanos >= 1000000000 ==> e.seconds % 60 == 59)
    ensures Restore(c, e).Some? ==>
              var x := Restore(c, e).value;
              && x.priority == (match e.priority
                                case 0 => Critical
                                case 1 => Telemetry
                                case 2 => Audit
                                case _ => Reconciliation)
              && x.protocolVersion == e.version && x.eventId == e.id && x.runtimeId == e.runtime
              && x.strategyId == e.strategy && x.liveSessionId == e.session && x.runId == e.run
              && x.entityId == e.entity && x.entityRevision == e.revision && x.criticalSequence == e.sequence
              && c.readKind(e.kindJson) == Some(x.kind) && c.readJson(e.payloadJson) == Some(x.payload)
              && x.createdAt.seconds == e.seconds && x.createdAt.nanos == e.nanos
  {
  }

  /** Fields of later versions are passed over. */
  lemma UnknownIsIgnored(t: TraceMsg, e: EventMsg, b: BatchMsg, f: Field)
    ensures f.tag == 0 || f.tag > 11 ==> MergeTrace(t, f) == Some(t)
    ensures f.tag == 0 || f.tag > 15 ==> MergeEvent(e, f) == Some(e)
    ensures f.tag == 0 || f.tag > 8 ==> MergeBatch(b, f) == Some(b)
  {
  }

  /** A known field of the wrong kind, or text that is not UTF-8, refuses the input. */
  lemma WrongKindIsRefused(t: TraceMsg, e: EventMsg, b: BatchMsg, f: Field)
    ensures 1 <= f.tag <= 11 ==> (MergeTrace(t, f) == None <==> !f.payload.VarintField?)
    ensures f.tag in {1, 8, 9, 10, 14, 15} ==> (MergeEvent(e, f) == None <==> !f.payload.VarintField?)
    ensures f.tag in {2, 11, 12} ==> (MergeEvent(e, f) == None <==> !f.payload.BytesField?)
    ensures f.tag in {3, 4, 5, 6, 7} ==>
              (MergeEvent(e, f) == None <==> !(f.payload.BytesField? && Valid(f.payload.bytes)))
    ensures f.tag in {1, 5, 6} ==> (MergeBatch(b, f) == None <==> !f.payload.VarintField?)
    ensures f.tag in {2, 3, 4} ==>
              (MergeBatch(b, f) == None <==> !(f.payload.BytesField? && Valid(f.payload.bytes)))
  {
  }

  /** Events are appended one by one. */
  lemma {:induction false} EventsAreCounted(m: BatchMsg, fs: seq<Field>)
    requires Fold(MergeBatch, m, fs).Some?
    ensures var r := Fold(MergeBatch, m, fs).value;
            |r.critical| + |r.telemetry| == |m.critical| + |m.telemetry| + EventFieldsIn(fs)
    decreases |fs|
  {
    if fs != [] {
      var next := MergeBatch(m, fs[0]).value;
      EventsAreCounted(next, fs[1..]);
    }
  }

  lemma {:induction false} RestoredLength(c: Codec, es: seq<EventMsg>)
    requires RestoreAll(c, es).Some?
    ensures |RestoreAll(c, es).value| == |es|
    decreases |es|
  {
    if es != [] { RestoredLength(c, es[1..]); }
  }

  /** A decoded batch came in at most a quarter of a mebibyte and holds at most a
      hundred events. */
  lemma DecodeLimits(c: Codec, b: Bytes)
    requires Decode(c, b).Some?
    ensures |b| <= 262144
    ensures |Decode(c, b).value.criticalEvents| + |Decode(c, b).value.telemetry| <= 100
    ensures Decode(c, b).value.protocolVersion <= 65535
  {
    var fs := ParseFields(b, RECURSION_LIMIT).value;
    EventsAreCounted(EmptyBatch(), fs);
    var m := Fold(MergeBatch, EmptyBatch(), fs).value;
    RestoredLength(c, m.critical);
    RestoredLength(c, m.telemetry);
  }
}
