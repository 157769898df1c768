/** Decoding what was encoded gives the batch back. */
module LiveBatchProofs {
  import opened Basics
  import opened Utf8
  import opened Wire
  import opened LiveBatch

  // ----- folding fields, piece by piece -----

  lemma {:induction false} FoldConcat<M>(merge: (M, Field) -> Option<M>, m: M, a: seq<Field>, b: seq<Field>)
    ensures Fold(merge, m, a + b)
            == if Fold(merge, m, a).None? then None else Fold(merge, Fold(merge, m, a).value, b)
    decreases |a|
  {
    if a == [] {
      assert a + b == b;
    } else {
      assert (a + b)[1..] == a[1..] + b;
      if merge(m, a[0]).Some? { FoldConcat(merge, merge(m, a[0]).value, a[1..], b); }
    }
  }

  lemma FoldMore<M>(merge: (M, Field) -> Option<M>, m: M, a: seq<Field>, m1: M, b: seq<Field>, m2: M)
    requires Fold(merge, m, a) == Some(m1) && Fold(merge, m1, b) == Some(m2)
    ensures Fold(merge, m, a + b) == Some(m2)
  {
    FoldConcat(merge, m, a, b);
  }

  lemma FoldOne<M>(merge: (M, Field) -> Option<M>, m: M, f: Field, m': M)
    requires merge(m, f) == Some(m')
    ensures Fold(merge, m, [f]) == Some(m')
  {
    assert [f][1..] == [];
  }

  // One more piece, which writes one field or, for a default, none.

  lemma AddField<M>(merge: (M, Field) -> Option<M>, start: M, done: seq<Field>, m: M, f: Field, m': M)
    requires Fold(merge, start, done) == Some(m) && merge(m, f) == Some(m')
    ensures Fold(merge, start, done + [f]) == Some(m')
  {
    FoldOne(merge, m, f, m');
    FoldMore(merge, start, done, m, [f], m');
  }

  lemma AddSigned<M>(merge: (M, Field) -> Option<M>, start: M, done: seq<Field>, m: M, tag: nat, v: Option<int>, m': M)
    requires Fold(merge, start, done) == Some(m)
    requires if v.Some? then merge(m, Field(tag, VarintField(ZigZag(v.value)))) == Some(m') else m' == m
    ensures Fold(merge, start, done + SomeSigned(tag, v)) == Some(m')
  {
    if v.Some? { FoldOne(merge, m, Field(tag, VarintField(ZigZag(v.value))), m'); }
    FoldMore(merge, start, done, m, SomeSigned(tag, v), m');
  }

  lemma AddSome<M>(merge: (M, Field) -> Option<M>, start: M, done: seq<Field>, m: M, tag: nat, v: Option<nat>, m': M)
    requires Fold(merge, start, done) == Some(m)
    requires if v.Some? then merge(m, Field(tag, VarintField(v.value))) == Some(m') else m' == m
    ensures Fold(merge, start, done + SomeNumber(tag, v)) == Some(m')
  {
    if v.Some? { FoldOne(merge, m, Field(tag, VarintField(v.value)), m'); }
    FoldMore(merge, start, done, m, SomeNumber(tag, v), m');
  }

  lemma AddSomeRecord<M>(merge: (M, Field) -> Option<M>, start: M, done: seq<Field>, m: M, tag: nat, v: Option<Bytes>, m': M)
    requires Fold(merge, start, done) == Some(m)
    requires if v.Some? then merge(m, Field(tag, BytesField(v.value))) == Some(m') else m' == m
    ensures Fold(merge, start, done + SomeRecord(tag, v)) == Some(m')
  {
    if v.Some? { FoldOne(merge, m, Field(tag, BytesField(v.value)), m'); }
    FoldMore(merge, start, done, m, SomeRecord(tag, v), m');
  }

  lemma AddNonZero<M>(merge: (M, Field) -> Option<M>, start: M, done: seq<Field>, m: M, tag: nat, v: nat, m': M)
    requires Fold(merge, start, done) == Some(m)
    requires if v != 0 then merge(m, Field(tag, VarintField(v))) == Some(m') else m' == m
    ensures Fold(merge, start, done + NonZero(tag, v)) == Some(m')
  {
    if v != 0 { FoldOne(merge, m, Field(tag, VarintField(v)), m'); }
    FoldMore(merge, start, done, m, NonZero(tag, v), m');
  }

  lemma AddNonEmpty<M>(merge: (M, Field) -> Option<M>, start: M, done: seq<Field>, m: M, tag: nat, v: Bytes, m': M)
    requires Fold(merge, start, done) == Some(m)
    requires if v != [] then merge(m, Field(tag, BytesField(v))) == Some(m') else m' == m
    ensures Fold(merge, start, done + NonEmpty(tag, v)) == Some(m')
  {
    if v != [] { FoldOne(merge, m, Field(tag, BytesField(v)), m'); }
    FoldMore(merge, start, done, m, NonEmpty(tag, v), m');
  }

  // ----- printing is parsed back -----

  predicate Plain(f: Field) {
    && 0 < f.tag <= 15
    && (f.payload.VarintField? || f.payload.BytesField?)
    && (f.payload.VarintField? ==> f.payload.value < U64)
  }

  ghost predicate AllPlain(fs: seq<Field>) {
    forall i :: 0 <= i < |fs| ==> Plain(fs[i])
  }

  lemma PlainConcat(a: seq<Field>, b: seq<Field>)
    requires AllPlain(a) && AllPlain(b)
    ensures AllPlain(a + b)
  {
  }

  lemma {:induction false} FieldFits(encode: Field -> Bytes, fs: seq<Field>, i: nat)
    requires i < |fs|
    ensures |encode(fs[i])| <= |Joined(encode, fs)|
    decreases |fs|
  {
    if i > 0 { FieldFits(encode, fs[1..], i - 1); }
  }

  lemma RecordFits(fs: seq<Field>, i: nat)
    requires i < |fs| && fs[i].payload.BytesField?
    ensures |fs[i].payload.bytes| <= |Print(fs)|
  {
    FieldFits(PrintField, fs, i);
  }

  lemma ParseBack(fs: seq<Field>, depth: nat)
    requires AllPlain(fs) && |Print(fs)| < U64 && depth > 0
    ensures ParseFields(Print(fs), depth) == Some(fs)
  {
    forall i | 0 <= i < |fs| ensures Encodable(fs[i]) {
      assert Plain(fs[i]);
      if fs[i].payload.BytesField? { RecordFits(fs, i); }
    }
    ParsePrinted(fs, depth);
  }

  // ----- traces -----

  ghost function StampOf(m: TraceMsg, tag: nat): Option<int> {
    match tag
    case 1 => m.source
    case 2 => m.adapter
    case 3 => m.runtime
    case 4 => m.bus
    case 5 => m.outbox
    case 6 => m.request
    case 7 => m.committed
    case 8 => m.ack
    case 9 => m.applied
    case _ => m.offset
  }

  /** The message with one stamp set. */
  ghost function Stamped(m: TraceMsg, tag: nat, v: Option<int>): TraceMsg {
    match tag
    case 1 => m.(source := v)
    case 2 => m.(adapter := v)
    case 3 => m.(runtime := v)
    case 4 => m.(bus := v)
    case 5 => m.(outbox := v)
    case 6 => m.(request := v)
    case 7 => m.(committed := v)
    case 8 => m.(ack := v)
    case 9 => m.(applied := v)
    case _ => m.(offset := v)
  }

  lemma StampMerges(m: TraceMsg, tag: nat, v: int)
    requires 1 <= tag <= 10
    ensures MergeTrace(m, Field(tag, VarintField(ZigZag(v)))) == Some(Stamped(m, tag, Some(v)))
  {
    ZigZagRoundTrip(v);
  }

  lemma AddStamp(done: seq<Field>, m: TraceMsg, tag: nat, v: Option<int>)
    requires 1 <= tag <= 10 && Fold(MergeTrace, EmptyTrace(), done) == Some(m) && StampOf(m, tag).None?
    ensures Fold(MergeTrace, EmptyTrace(), done + SomeSigned(tag, v)) == Some(Stamped(m, tag, v))
  {
    if v.Some? { StampMerges(m, tag, v.value); }
    AddSigned(MergeTrace, EmptyTrace(), done, m, tag, v, Stamped(m, tag, v));
  }

  lemma EarlyStamps(t: TraceMsg)
    ensures Fold(MergeTrace, EmptyTrace(),
                 SomeSigned(1, t.source) + SomeSigned(2, t.adapter) + SomeSigned(3, t.runtime) + SomeSigned(4, t.bus)
                 + SomeSigned(5, t.outbox))
            == Some(EmptyTrace().(source := t.source, adapter := t.adapter, runtime := t.runtime, bus := t.bus,
                                  outbox := t.outbox))
  {
    var f1, m1 := SomeSigned(1, t.source), EmptyTrace().(source := t.source);
    var f2, m2 := f1 + SomeSigned(2, t.adapter), m1.(adapter := t.adapter);
    var f3, m3 := f2 + SomeSigned(3, t.runtime), m2.(runtime := t.runtime);
    assert [] + f1 == f1;
    AddStamp([], EmptyTrace(), 1, t.source);
    AddStamp(f1, m1, 2, t.adapter);
    AddStamp(f2, m2, 3, t.runtime);
    AddStamp(f3, m3, 4, t.bus);
    AddStamp(f3 + SomeSigned(4, t.bus), m3.(bus := t.bus), 5, t.outbox);
  }

  lemma LateStamps(t: TraceMsg, done: seq<Field>, m5: TraceMsg)
    requires Fold(MergeTrace, EmptyTrace(), done) == Some(m5)
    requires m5.request.None? && m5.committed.None? && m5.ack.None? && m5.applied.None? && m5.offset.None?
    ensures Fold(MergeTrace, EmptyTrace(),
                 done + SomeSigned(6, t.request) + SomeSigned(7, t.committed) + SomeSigned(8, t.ack)
                 + SomeSigned(9, t.applied) + SomeSigned(10, t.offset))
            == Some(m5.(request := t.request, committed := t.committed, ack := t.ack, applied := t.applied,
                        offset := t.offset))
  {
    var f6, m6 := done + SomeSigned(6, t.request), m5.(request := t.request);
    var f7, m7 := f6 + SomeSigned(7, t.committed), m6.(committed := t.committed);
    var f8, m8 := f7 + SomeSigned(8, t.ack), m7.(ack := t.ack);
    AddStamp(done, m5, 6, t.request);
    AddStamp(f6, m6, 7, t.committed);
    AddStamp(f7, m7, 8, t.ack);
    AddStamp(f8, m8, 9, t.applied);
    AddStamp(f8 + SomeSigned(9, t.applied), m8.(applied := t.applied), 10, t.offset);
  }

  lemma AddUncertainty(done: seq<Field>, m: TraceMsg, v: Option<nat>)
    requires Fold(MergeTrace, EmptyTrace(), done) == Some(m) && m.uncertainty.None?
    ensures Fold(MergeTrace, EmptyTrace(), done + SomeNumber(11, v)) == Some(m.(uncertainty := v))
  {
    AddSome(MergeTrace, EmptyTrace(), done, m, 11, v, m.(uncertainty := v));
  }

  lemma TraceFolds(t: TraceMsg)
    ensures Fold(MergeTrace, EmptyTrace(), TraceFields(t)) == Some(t)
  {
    EarlyStamps(t);
    var f5 := SomeSigned(1, t.source) + SomeSigned(2, t.adapter) + SomeSigned(3, t.runtime) + SomeSigned(4, t.bus)
              + SomeSigned(5, t.outbox);
    var m5 := EmptyTrace().(source := t.source, adapter := t.adapter, runtime := t.runtime, bus := t.bus,
                            outbox := t.outbox);
    LateStamps(t, f5, m5);
    AddUncertainty(f5 + SomeSigned(6, t.request) + SomeSigned(7, t.committed) + SomeSigned(8, t.ack)
                   + SomeSigned(9, t.applied) + SomeSigned(10, t.offset),
                   t.(uncertainty := None), t.uncertainty);
  }

  lemma SignedPlain(tag: nat, v: Option<int>)
    requires 0 < tag <= 15 && I64(v)
    ensures AllPlain(SomeSigned(tag, v))
  {
  }

  lemma TracePlain(t: LatencyTrace)
    requires WellFormedTrace(t)
    ensures AllPlain(TraceFields(ToTrace(t)))
  {
    var m := ToTrace(t);
    SignedPlain(1, m.source);
    SignedPlain(2, m.adapter);
    SignedPlain(3, m.runtime);
    SignedPlain(4, m.bus);
    SignedPlain(5, m.outbox);
    SignedPlain(6, m.request);
    SignedPlain(7, m.committed);
    SignedPlain(8, m.ack);
    SignedPlain(9, m.applied);
    SignedPlain(10, m.offset);
    assert AllPlain(SomeNumber(11, m.uncertainty));
  }

  /** The always-present trace record is read back, every `None` included. */
  lemma TraceReads(t: LatencyTrace)
    requires WellFormedTrace(t) && |Print(TraceFields(ToTrace(t)))| < U64
    ensures MergeTraceBytes(None, BytesField(Print(TraceFields(ToTrace(t))))) == Some(ToTrace(t))
  {
    TracePlain(t);
    ParseBack(TraceFields(ToTrace(t)), RECURSION_LIMIT - 2);
    TraceFolds(ToTrace(t));
  }

  // ----- events -----

  function EventOf(c: Codec, e: CloudEvent): EventMsg {
    EventMsg(e.protocolVersion, e.eventId, e.runtimeId, e.strategyId, e.liveSessionId, e.runId, e.entityId,
             e.entityRevision, e.criticalSequence, PriorityNumber(e.priority), c.writeKind(e.kind),
             c.writeJson(e.payload), Some(ToTrace(e.latency)), e.createdAt.seconds, e.createdAt.nanos)
  }

  lemma TextMerges(m: EventMsg, v: Bytes)
    requires Valid(v)
    ensures MergeEvent(m, Field(3, BytesField(v))) == Some(m.(runtime := v))
    ensures MergeEvent(m, Field(4, BytesField(v))) == Some(m.(strategy := v))
    ensures MergeEvent(m, Field(5, BytesField(v))) == Some(m.(session := v))
    ensures MergeEvent(m, Field(6, BytesField(v))) == Some(m.(run := Some(v)))
    ensures MergeEvent(m, Field(7, BytesField(v))) == Some(m.(entity := v))
  {
  }

  lemma BytesMerge(m: EventMsg, v: Bytes)
    ensures MergeEvent(m, Field(2, BytesField(v))) == Some(m.(id := v))
    ensures MergeEvent(m, Field(11, BytesField(v))) == Some(m.(kindJson := v))
    ensures MergeEvent(m, Field(12, BytesField(v))) == Some(m.(payloadJson := v))
  {
  }

  lemma NumberMerges(m: EventMsg, v: nat)
    ensures v < U32 ==> MergeEvent(m, Field(1, VarintField(v))) == Some(m.(version := v))
    ensures MergeEvent(m, Field(8, VarintField(v))) == Some(m.(revision := v))
    ensures MergeEvent(m, Field(9, VarintField(v))) == Some(m.(sequence := Some(v)))
    ensures v < U32 ==> MergeEvent(m, Field(10, VarintField(v))) == Some(m.(priority := v))
    ensures MergeEvent(m, Field(14, VarintField(v))) == Some(m.(seconds := UnZigZag(v)))
    ensures v < U32 ==> MergeEvent(m, Field(15, VarintField(v))) == Some(m.(nanos := v))
  {
  }

  lemma IdentityFolds(e: CloudEvent)
    requires e.protocolVersion < U32 && Valid(e.runtimeId)
    ensures Fold(MergeEvent, EmptyEvent(),
                 Number(1, e.protocolVersion) + Record(2, e.eventId) + NonEmpty(3, e.runtimeId))
            == Some(EmptyEvent().(version := e.protocolVersion, id := e.eventId, runtime := e.runtimeId))
  {
    var m0 := EmptyEvent();
    var m1 := m0.(version := e.protocolVersion);
    var m2 := m1.(id := e.eventId);
    var f1 := Number(1, e.protocolVersion);
    NumberMerges(m0, e.protocolVersion);
    FoldOne(MergeEvent, m0, Field(1, VarintField(e.protocolVersion)), m1);
    BytesMerge(m1, e.eventId);
    AddField(MergeEvent, m0, f1, m1, Field(2, BytesField(e.eventId)), m2);
    TextMerges(m2, e.runtimeId);
    AddNonEmpty(MergeEvent, m0, f1 + Record(2, e.eventId), m2, 3, e.runtimeId, m2.(runtime := e.runtimeId));
  }

  lemma ScopeFolds(e: CloudEvent, done: seq<Field>, m3: EventMsg)
    requires Valid(e.strategyId) && Valid(e.liveSessionId) && Valid(e.entityId)
    requires Fold(MergeEvent, EmptyEvent(), done) == Some(m3) && m3.strategy == m3.session == m3.entity == []
    ensures Fold(MergeEvent, EmptyEvent(),
                 done + NonEmpty(4, e.strategyId) + NonEmpty(5, e.liveSessionId) + NonEmpty(7, e.entityId))
            == Some(m3.(strategy := e.strategyId, session := e.liveSessionId, entity := e.entityId))
  {
    var m0 := EmptyEvent();
    var m4 := m3.(strategy := e.strategyId);
    var m5 := m4.(session := e.liveSessionId);
    var f4 := done + NonEmpty(4, e.strategyId);
    TextMerges(m3, e.strategyId);
    AddNonEmpty(MergeEvent, m0, done, m3, 4, e.strategyId, m4);
    TextMerges(m4, e.liveSessionId);
    AddNonEmpty(MergeEvent, m0, f4, m4, 5, e.liveSessionId, m5);
    TextMerges(m5, e.entityId);
    AddNonEmpty(MergeEvent, m0, f4 + NonEmpty(5, e.liveSessionId), m5, 7, e.entityId, m5.(entity := e.entityId));
  }

  lemma SubjectFolds(e: CloudEvent, done: seq<Field>, m6: EventMsg)
    requires e.runId.Some? ==> Valid(e.runId.value)
    requires Fold(MergeEvent, EmptyEvent(), done) == Some(m6) && m6.run.None? && m6.revision == 0 && m6.sequence.None?
    ensures Fold(MergeEvent, EmptyEvent(),
                 done + SomeRecord(6, e.runId) + NonZero(8, e.entityRevision) + SomeNumber(9, e.criticalSequence))
            == Some(m6.(run := e.runId, revision := e.entityRevision, sequence := e.criticalSequence))
  {
    var m0 := EmptyEvent();
    var m7 := m6.(run := e.runId);
    var m8 := m7.(revision := e.entityRevision);
    var f7 := done + SomeRecord(6, e.runId);
    if e.runId.Some? { TextMerges(m6, e.runId.value); }
    AddSomeRecord(MergeEvent, m0, done, m6, 6, e.runId, m7);
    NumberMerges(m7, e.entityRevision);
    AddNonZero(MergeEvent, m0, f7, m7, 8, e.entityRevision, m8);
    if e.criticalSequence.Some? { NumberMerges(m8, e.criticalSequence.value); }
    AddSome(MergeEvent, m0, f7 + NonZero(8, e.entityRevision), m8, 9, e.criticalSequence,
            m8.(sequence := e.criticalSequence));
  }

  lemma ContentFolds(priority: nat, kind: Bytes, payload: Bytes, done: seq<Field>, m9: EventMsg)
    requires priority < U32 && Fold(MergeEvent, EmptyEvent(), done) == Some(m9) && m9.priority == 0
    ensures Fold(MergeEvent, EmptyEvent(), done + NonZero(10, priority) + Record(11, kind) + Record(12, payload))
            == Some(m9.(priority := priority, kindJson := kind, payloadJson := payload))
  {
    var m0 := EmptyEvent();
    var m10 := m9.(priority := priority);
    var m11 := m10.(kindJson := kind);
    var f10 := done + NonZero(10, priority);
    NumberMerges(m9, priority);
    AddNonZero(MergeEvent, m0, done, m9, 10, priority, m10);
    BytesMerge(m10, kind);
    AddField(MergeEvent, m0, f10, m10, Field(11, BytesField(kind)), m11);
    BytesMerge(m11, payload);
    AddField(MergeEvent, m0, f10 + Record(11, kind), m11, Field(12, BytesField(payload)), m11.(payloadJson := payload));
  }

  lemma TraceFold(t: TraceMsg, trace: Bytes, done: seq<Field>, m12: EventMsg)
    requires Fold(MergeEvent, EmptyEvent(), done) == Some(m12) && m12.latency.None?
    requires MergeTraceBytes(None, BytesField(trace)) == Some(t)
    ensures Fold(MergeEvent, EmptyEvent(), done + Record(13, trace)) == Some(m12.(latency := Some(t)))
  {
    AddField(MergeEvent, EmptyEvent(), done, m12, Field(13, BytesField(trace)), m12.(latency := Some(t)));
  }

  lemma TimesFold(time: Time, done: seq<Field>, m13: EventMsg)
    requires Fold(MergeEvent, EmptyEvent(), done) == Some(m13) && ValidTime(time)
    requires m13.seconds == 0 && m13.nanos == 0
    ensures Fold(MergeEvent, EmptyEvent(), done + NonZero(14, ZigZag(time.seconds)) + NonZero(15, time.nanos))
            == Some(m13.(seconds := time.seconds, nanos := time.nanos))
  {
    ZigZagRoundTrip(time.seconds);
    var m0 := EmptyEvent();
    var m14 := m13.(seconds := time.seconds);
    NumberMerges(m13, ZigZag(time.seconds));
    AddNonZero(MergeEvent, m0, done, m13, 14, ZigZag(time.seconds), m14);
    NumberMerges(m14, time.nanos);
    AddNonZero(MergeEvent, m0, done + NonZero(14, ZigZag(time.seconds)), m14, 15, time.nanos, m14.(nanos := time.nanos));
  }

  lemma HeadOfEvent(e: CloudEvent)
    requires WellFormedEvent(e)
    ensures Fold(MergeEvent, EmptyEvent(),
                 Number(1, e.protocolVersion) + Record(2, e.eventId) + NonEmpty(3, e.runtimeId)
                 + NonEmpty(4, e.strategyId) + NonEmpty(5, e.liveSessionId) + NonEmpty(7, e.entityId)
                 + SomeRecord(6, e.runId) + NonZero(8, e.entityRevision) + SomeNumber(9, e.criticalSequence))
            == Some(EventMsg(e.protocolVersion, e.eventId, e.runtimeId, e.strategyId, e.liveSessionId, e.runId,
                             e.entityId, e.entityRevision, e.criticalSequence, 0, [], [], None, 0, 0))
  {
    IdentityFolds(e);
    var f3 := Number(1, e.protocolVersion) + Record(2, e.eventId) + NonEmpty(3, e.runtimeId);
    var m3 := EmptyEvent().(version := e.protocolVersion, id := e.eventId, runtime := e.runtimeId);
    ScopeFolds(e, f3, m3);
    SubjectFolds(e, f3 + NonEmpty(4, e.strategyId) + NonEmpty(5, e.liveSessionId) + NonEmpty(7, e.entityId),
                 m3.(strategy := e.strategyId, session := e.liveSessionId, entity := e.entityId));
  }

  lemma EventFolds(c: Codec, e: CloudEvent)
    requires WellFormedEvent(e) && |Print(TraceFields(ToTrace(e.latency)))| < U64
    ensures Fold(MergeEvent, EmptyEvent(), EventFields(c, e)) == Some(EventOf(c, e))
  {
    TraceReads(e.latency);
    HeadOfEvent(e);
    var kind, payload, trace := c.writeKind(e.kind), c.writeJson(e.payload), Print(TraceFields(ToTrace(e.latency)));
    var f9 := Number(1, e.protocolVersion) + Record(2, e.eventId) + NonEmpty(3, e.runtimeId)
              + NonEmpty(4, e.strategyId) + NonEmpty(5, e.liveSessionId) + NonEmpty(7, e.entityId)
              + SomeRecord(6, e.runId) + NonZero(8, e.entityRevision) + SomeNumber(9, e.criticalSequence);
    var m9 := EventMsg(e.protocolVersion, e.eventId, e.runtimeId, e.strategyId, e.liveSessionId, e.runId,
                       e.entityId, e.entityRevision, e.criticalSequence, 0, [], [], None, 0, 0);
    ContentFolds(PriorityNumber(e.priority), kind, payload, f9, m9);
    var f12 := f9 + NonZero(10, PriorityNumber(e.priority)) + Record(11, kind) + Record(12, payload);
    var m12 := m9.(priority := PriorityNumber(e.priority), kindJson := kind, payloadJson := payload);
    TraceFold(ToTrace(e.latency), trace, f12, m12);
    TimesFold(e.createdAt, f12 + Record(13, trace), m12.(latency := Some(ToTrace(e.latency))));
  }

  lemma IdentityPlain(e: CloudEvent)
    requires WellFormedEvent(e)
    ensures AllPlain(Number(1, e.protocolVersion) + Record(2, e.eventId) + NonEmpty(3, e.runtimeId)
                     + NonEmpty(4, e.strategyId) + NonEmpty(5, e.liveSessionId))
  {
  }

  lemma SubjectPlain(e: CloudEvent, done: seq<Field>)
    requires WellFormedEvent(e) && AllPlain(done)
    ensures AllPlain(done + NonEmpty(7, e.entityId) + SomeRecord(6, e.runId) + NonZero(8, e.entityRevision))
  {
    PlainConcat(done, NonEmpty(7, e.entityId));
    PlainConcat(done + NonEmpty(7, e.entityId), SomeRecord(6, e.runId));
    PlainConcat(done + NonEmpty(7, e.entityId) + SomeRecord(6, e.runId), NonZero(8, e.entityRevision));
  }

  lemma ContentPlain(e: CloudEvent, kind: Bytes, payload: Bytes, done: seq<Field>)
    requires WellFormedEvent(e) && AllPlain(done)
    ensures AllPlain(done + SomeNumber(9, e.criticalSequence) + NonZero(10, PriorityNumber(e.priority))
                     + Record(11, kind) + Record(12, payload))
  {
    var f9 := done + SomeNumber(9, e.criticalSequence);
    var f10 := f9 + NonZero(10, PriorityNumber(e.priority));
    PlainConcat(done, SomeNumber(9, e.criticalSequence));
    PlainConcat(f9, NonZero(10, PriorityNumber(e.priority)));
    PlainConcat(f10, Record(11, kind));
    PlainConcat(f10 + Record(11, kind), Record(12, payload));
  }

  lemma TimesPlain(e: CloudEvent, trace: Bytes, done: seq<Field>)
    requires WellFormedEvent(e) && AllPlain(done)
    ensures AllPlain(done + Record(13, trace) + NonZero(14, ZigZag(e.createdAt.seconds)) + NonZero(15, e.createdAt.nanos))
  {
    var f13 := done + Record(13, trace);
    PlainConcat(done, Record(13, trace));
    PlainConcat(f13, NonZero(14, ZigZag(e.createdAt.seconds)));
    PlainConcat(f13 + NonZero(14, ZigZag(e.createdAt.seconds)), NonZero(15, e.createdAt.nanos));
  }

  lemma EventPlain(c: Codec, e: CloudEvent)
    requires WellFormedEvent(e)
    ensures AllPlain(EventFields(c, e))
  {
    IdentityPlain(e);
    var f5 := Number(1, e.protocolVersion) + Record(2, e.eventId) + NonEmpty(3, e.runtimeId)
              + NonEmpty(4, e.strategyId) + NonEmpty(5, e.liveSessionId);
    SubjectPlain(e, f5);
    var f8 := f5 + NonEmpty(7, e.entityId) + SomeRecord(6, e.runId) + NonZero(8, e.entityRevision);
    ContentPlain(e, c.writeKind(e.kind), c.writeJson(e.payload), f8);
    TimesPlain(e, Print(TraceFields(ToTrace(e.latency))),
               f8 + SomeNumber(9, e.criticalSequence) + NonZero(10, PriorityNumber(e.priority))
               + Record(11, c.writeKind(e.kind)) + Record(12, c.writeJson(e.payload)));
  }

  /** Where the trace record stands among the fields of an event. */
  lemma TraceFits(c: Codec, e: CloudEvent)
    ensures |Print(TraceFields(ToTrace(e.latency)))| <= |Print(EventFields(c, e))|
  {
    var trace := Field(13, BytesField(Print(TraceFields(ToTrace(e.latency)))));
    var f12 := Number(1, e.protocolVersion) + Record(2, e.eventId) + NonEmpty(3, e.runtimeId)
               + NonEmpty(4, e.strategyId) + NonEmpty(5, e.liveSessionId)
               + NonEmpty(7, e.entityId) + SomeRecord(6, e.runId) + NonZero(8, e.entityRevision)
               + SomeNumber(9, e.criticalSequence) + NonZero(10, PriorityNumber(e.priority))
               + Record(11, c.writeKind(e.kind)) + Record(12, c.writeJson(e.payload));
    var rest := NonZero(14, ZigZag(e.createdAt.seconds));
    assert EventFields(c, e) == f12 + [trace] + rest + NonZero(15, e.createdAt.nanos);
    assert EventFields(c, e)[|f12|] == trace;
    RecordFits(EventFields(c, e), |f12|);
  }

  lemma EventReads(c: Codec, e: CloudEvent)
    requires WellFormedEvent(e) && |Print(EventFields(c, e))| < U64
    ensures ReadEvent(BytesField(Print(EventFields(c, e)))) == Some(EventOf(c, e))
  {
    TraceFits(c, e);
    EventPlain(c, e);
    ParseBack(EventFields(c, e), RECURSION_LIMIT - 1);
    EventFolds(c, e);
  }

  lemma EventRestores(c: Codec, e: CloudEvent)
    requires WellFormedEvent(e) && Faithful(c, e)
    ensures Restore(c, EventOf(c, e)) == Some(e)
  {
  }

  // ----- batches -----

  function EventsOf(c: Codec, es: seq<CloudEvent>): seq<EventMsg> {
    seq(|es|, i requires 0 <= i < |es| => EventOf(c, es[i]))
  }

  ghost predicate Readable(c: Codec, es: seq<CloudEvent>) {
    forall i :: 0 <= i < |es| ==> ReadEvent(BytesField(Print(EventFields(c, es[i])))) == Some(EventOf(c, es[i]))
  }

  /** A repeated field: every occurrence appends one message. */
  function AppendAll<M, V>(append: (M, V) -> M, m: M, vs: seq<V>): M
    decreases |vs|
  {
    if vs == [] then m else AppendAll(append, append(m, vs[0]), vs[1..])
  }

  ghost predicate Appends<M(!new), V>(merge: (M, Field) -> Option<M>, append: (M, V) -> M, f: Field, v: V) {
    forall m :: merge(m, f) == Some(append(m, v))
  }

  lemma {:induction false} RepeatFolds<M(!new), V>(merge: (M, Field) -> Option<M>, append: (M, V) -> M, m: M,
                                                   fs: seq<Field>, vs: seq<V>)
    requires |fs| == |vs| && forall i :: 0 <= i < |fs| ==> Appends(merge, append, fs[i], vs[i])
    ensures Fold(merge, m, fs) == Some(AppendAll(append, m, vs))
    decreases |fs|
  {
    if fs != [] {
      assert Appends(merge, append, fs[0], vs[0]);
      forall i | 0 <= i < |fs[1..]| ensures Appends(merge, append, fs[1..][i], vs[1..][i]) {
        assert Appends(merge, append, fs[i + 1], vs[i + 1]);
      }
      RepeatFolds(merge, append, append(m, vs[0]), fs[1..], vs[1..]);
    }
  }

  function AddCritical(m: BatchMsg, v: EventMsg): BatchMsg { m.(critical := m.critical + [v]) }

  function AddTelemetry(m: BatchMsg, v: EventMsg): BatchMsg { m.(telemetry := m.telemetry + [v]) }

  lemma {:induction false} AppendedAll(m: BatchMsg, vs: seq<EventMsg>)
    ensures AppendAll(AddCritical, m, vs) == m.(critical := m.critical + vs)
    ensures AppendAll(AddTelemetry, m, vs) == m.(telemetry := m.telemetry + vs)
    decreases |vs|
  {
    if vs == [] {
      assert m.critical + vs == m.critical && m.telemetry + vs == m.telemetry;
    } else {
      AppendedAll(AddCritical(m, vs[0]), vs[1..]);
      AppendedAll(AddTelemetry(m, vs[0]), vs[1..]);
      assert m.critical + [vs[0]] + vs[1..] == m.critical + vs;
      assert m.telemetry + [vs[0]] + vs[1..] == m.telemetry + vs;
    }
  }

  lemma EventAppends(f: Field, v: EventMsg)
    requires ReadEvent(f.payload) == Some(v)
    ensures f.tag == 7 ==> Appends(MergeBatch, AddCritical, f, v)
    ensures f.tag == 8 ==> Appends(MergeBatch, AddTelemetry, f, v)
  {
  }

  lemma EventsFold(c: Codec, es: seq<CloudEvent>, m: BatchMsg)
    requires Readable(c, es)
    ensures Fold(MergeBatch, m, EventRecords(c, 7, es)) == Some(m.(critical := m.critical + EventsOf(c, es)))
    ensures Fold(MergeBatch, m, EventRecords(c, 8, es)) == Some(m.(telemetry := m.telemetry + EventsOf(c, es)))
  {
    var f7, f8, vs := EventRecords(c, 7, es), EventRecords(c, 8, es), EventsOf(c, es);
    forall i | 0 <= i < |es|
      ensures Appends(MergeBatch, AddCritical, f7[i], vs[i]) && Appends(MergeBatch, AddTelemetry, f8[i], vs[i])
    {
      EventAppends(f7[i], vs[i]);
      EventAppends(f8[i], vs[i]);
    }
    RepeatFolds(MergeBatch, AddCritical, m, f7, vs);
    RepeatFolds(MergeBatch, AddTelemetry, m, f8, vs);
    AppendedAll(m, vs);
  }

  function Head(b: Batch): seq<Field> {
    Number(1, b.protocolVersion) + NonEmpty(2, b.runtimeId) + NonEmpty(3, b.strategyId) + NonEmpty(4, b.liveSessionId)
    + SomeNumber(5, b.firstCriticalSequence) + SomeNumber(6, b.lastCriticalSequence)
  }

  function HeadOf(b: Batch): BatchMsg {
    BatchMsg(b.protocolVersion, b.runtimeId, b.strategyId, b.liveSessionId, b.firstCriticalSequence,
             b.lastCriticalSequence, [], [])
  }

  lemma HeadFolds(b: Batch)
    requires WellFormed(b)
    ensures Fold(MergeBatch, EmptyBatch(), Head(b)) == Some(HeadOf(b))
  {
    var m0 := EmptyBatch();
    var m1 := m0.(version := b.protocolVersion);
    var m2 := m1.(runtime := b.runtimeId);
    var m3 := m2.(strategy := b.strategyId);
    var m4 := m3.(session := b.liveSessionId);
    var m5 := m4.(first := b.firstCriticalSequence);
    var f1 := Number(1, b.protocolVersion);
    var f2 := f1 + NonEmpty(2, b.runtimeId);
    var f3 := f2 + NonEmpty(3, b.strategyId);
    var f4 := f3 + NonEmpty(4, b.liveSessionId);
    FoldOne(MergeBatch, m0, Field(1, VarintField(b.protocolVersion)), m1);
    AddNonEmpty(MergeBatch, m0, f1, m1, 2, b.runtimeId, m2);
    AddNonEmpty(MergeBatch, m0, f2, m2, 3, b.strategyId, m3);
    AddNonEmpty(MergeBatch, m0, f3, m3, 4, b.liveSessionId, m4);
    AddSome(MergeBatch, m0, f4, m4, 5, b.firstCriticalSequence, m5);
    AddSome(MergeBatch, m0, f4 + SomeNumber(5, b.firstCriticalSequence), m5, 6, b.lastCriticalSequence, HeadOf(b));
  }

  lemma BatchFolds(c: Codec, b: Batch)
    requires WellFormed(b) && Readable(c, b.criticalEvents) && Readable(c, b.telemetry)
    ensures Fold(MergeBatch, EmptyBatch(), BatchFields(c, b))
            == Some(HeadOf(b).(critical := EventsOf(c, b.criticalEvents), telemetry := EventsOf(c, b.telemetry)))
  {
    var m0, m6 := EmptyBatch(), HeadOf(b);
    var m7 := m6.(critical := EventsOf(c, b.criticalEvents));
    var m8 := m7.(telemetry := EventsOf(c, b.telemetry));
    HeadFolds(b);
    EventsFold(c, b.criticalEvents, m6);
    assert [] + EventsOf(c, b.criticalEvents) == EventsOf(c, b.criticalEvents);
    FoldMore(MergeBatch, m0, Head(b), m6, EventRecords(c, 7, b.criticalEvents), m7);
    EventsFold(c, b.telemetry, m7);
    assert [] + EventsOf(c, b.telemetry) == EventsOf(c, b.telemetry);
    FoldMore(MergeBatch, m0, Head(b) + EventRecords(c, 7, b.criticalEvents), m7, EventRecords(c, 8, b.telemetry), m8);
  }

  lemma {:induction false} AllRestore(c: Codec, es: seq<CloudEvent>)
    requires AllFaithful(c, es) && forall i :: 0 <= i < |es| ==> WellFormedEvent(es[i])
    ensures RestoreAll(c, EventsOf(c, es)) == Some(es)
    decreases |es|
  {
    if es != [] {
      EventRestores(c, es[0]);
      AllRestore(c, es[1..]);
      assert EventsOf(c, es)[1..] == EventsOf(c, es[1..]);
      assert [es[0]] + es[1..] == es;
    }
  }

  // ----- sizes and counts -----

  lemma {:induction false} CountRecords(fs: seq<Field>)
    requires forall i :: 0 <= i < |fs| ==> fs[i].tag in {7, 8}
    ensures EventFieldsIn(fs) == |fs|
    decreases |fs|
  {
    if fs != [] { CountRecords(fs[1..]); }
  }

  lemma {:induction false} CountConcat(a: seq<Field>, b: seq<Field>)
    ensures EventFieldsIn(a + b) == EventFieldsIn(a) + EventFieldsIn(b)
    decreases |a|
  {
    if a == [] {
      assert a + b == b;
    } else {
      CountConcat(a[1..], b);
      assert (a + b)[1..] == a[1..] + b;
    }
  }

  lemma HeadCounts(b: Batch)
    ensures EventFieldsIn(Head(b)) == 0
  {
    var f1 := Number(1, b.protocolVersion);
    var f2 := f1 + NonEmpty(2, b.runtimeId);
    var f3 := f2 + NonEmpty(3, b.strategyId);
    var f4 := f3 + NonEmpty(4, b.liveSessionId);
    CountConcat(f1, NonEmpty(2, b.runtimeId));
    CountConcat(f2, NonEmpty(3, b.strategyId));
    CountConcat(f3, NonEmpty(4, b.liveSessionId));
    CountConcat(f4, SomeNumber(5, b.firstCriticalSequence));
    CountConcat(f4 + SomeNumber(5, b.firstCriticalSequence), SomeNumber(6, b.lastCriticalSequence));
  }

  lemma HeadPlain(b: Batch)
    requires WellFormed(b)
    ensures AllPlain(Head(b))
  {
  }

  lemma BatchPlain(c: Codec, b: Batch)
    requires WellFormed(b)
    ensures AllPlain(BatchFields(c, b))
    ensures EventFieldsIn(BatchFields(c, b)) == |b.criticalEvents| + |b.telemetry|
  {
    var critical, telemetry := EventRecords(c, 7, b.criticalEvents), EventRecords(c, 8, b.telemetry);
    HeadPlain(b);
    assert AllPlain(critical) && AllPlain(telemetry);
    PlainConcat(Head(b), critical);
    PlainConcat(Head(b) + critical, telemetry);
    HeadCounts(b);
    CountRecords(critical);
    CountRecords(telemetry);
    CountConcat(Head(b), critical);
    CountConcat(Head(b) + critical, telemetry);
  }

  lemma BodyFits(tag: nat, bodies: seq<Bytes>, all: seq<Field>, before: seq<Field>, after: seq<Field>, i: nat)
    requires all == before + Records(tag, bodies) + after && i < |bodies|
    ensures |bodies[i]| <= |Print(all)|
  {
    assert all[|before| + i] == Records(tag, bodies)[i];
    RecordFits(all, |before| + i);
  }

  lemma EventsReadable(c: Codec, tag: nat, es: seq<CloudEvent>, all: seq<Field>, before: seq<Field>, after: seq<Field>)
    requires all == before + EventRecords(c, tag, es) + after && |Print(all)| < U64
    requires forall i :: 0 <= i < |es| ==> WellFormedEvent(es[i])
    ensures Readable(c, es)
  {
    forall i | 0 <= i < |es|
      ensures ReadEvent(BytesField(Print(EventFields(c, es[i])))) == Some(EventOf(c, es[i]))
    {
      BodyFits(tag, EventBodies(c, es), all, before, after, i);
      EventReads(c, es[i]);
    }
  }

  /** Every batch within the limits survives the wire: omitted defaults, empty
      optionals, the trace and the critical/telemetry split included. */
  lemma RoundTrip(c: Codec, b: Batch)
    requires AllFaithful(c, b.criticalEvents) && AllFaithful(c, b.telemetry) && WellFormed(b)
    requires |Encode(c, b)| <= 262144 && |b.criticalEvents| + |b.telemetry| <= 100
    ensures Decode(c, Encode(c, b)) == Some(b)
  {
    var fs := BatchFields(c, b);
    var critical, telemetry := EventRecords(c, 7, b.criticalEvents), EventRecords(c, 8, b.telemetry);
    BatchPlain(c, b);
    ParseBack(fs, RECURSION_LIMIT);
    EventsReadable(c, 7, b.criticalEvents, fs, Head(b), telemetry);
    assert fs == Head(b) + critical + telemetry + [];
    EventsReadable(c, 8, b.telemetry, fs, Head(b) + critical, []);
    BatchFolds(c, b);
    AllRestore(c, b.criticalEvents);
    AllRestore(c, b.telemetry);
  }
}
