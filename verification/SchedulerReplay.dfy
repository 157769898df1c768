/** Alternating steps replay every bar of every stream, once and in order. */
module SchedulerReplay {
  import opened Basics
  import opened Streams
  import opened SchedulerSpec
  import opened Scheduler

  ghost predicate EventBefore(a: Event, b: Event) {
    a.timestamp < b.timestamp || (a.timestamp == b.timestamp && KeyBefore(a.key, b.key))
  }

  /** Strictly increasing in (timestamp, symbol, timeframe label). */
  ghost predicate Ordered(log: seq<Event>) {
    forall i, j :: 0 <= i < j < |log| ==> EventBefore(log[i], log[j])
  }

  /** The bars of one stream, in the order the log shows them. */
  ghost function Shown(log: seq<Event>, k: StreamKey): seq<Bar> {
    if log == [] then [] else
      var n := |log| - 1;
      Shown(log[..n], k) + if log[n].key == k then [log[n].bar] else []
  }

  lemma {:induction false} ShownConcat(a: seq<Event>, b: seq<Event>, k: StreamKey)
    ensures Shown(a + b, k) == Shown(a, k) + Shown(b, k)
    decreases |b|
  {
    if b == [] {
      assert a + b == a;
    } else {
      var n := |b| - 1;
      ShownConcat(a, b[..n], k);
      assert (a + b)[..|a + b| - 1] == a + b[..n];
      assert (a + b)[|a + b| - 1] == b[n];
    }
  }

  lemma {:induction false} NotShown(events: seq<Event>, k: StreamKey)
    requires !HasKey(events, k)
    ensures Shown(events, k) == []
    decreases |events|
  {
    if events != [] {
      var n := |events| - 1;
      assert forall i :: 0 <= i < n ==> events[..n][i] == events[i];
      NotShown(events[..n], k);
    }
  }

  lemma ShownOnce(events: seq<Event>, i: nat)
    requires i < |events|
    requires forall a, b :: 0 <= a < b < |events| ==> KeyBefore(events[a].key, events[b].key)
    ensures Shown(events, events[i].key) == [events[i].bar]
  {
    var k := events[i].key;
    forall j | 0 <= j < |events| && j != i ensures events[j].key != k { KeyTotal(events[j].key, k); }
    OthersNotShown(events, i, k);
  }

  lemma OthersNotShown(events: seq<Event>, i: nat, k: StreamKey)
    requires i < |events| && events[i].key == k
    requires forall j :: 0 <= j < |events| && j != i ==> events[j].key != k
    ensures Shown(events, k) == [events[i].bar]
  {
    var before, after := events[..i], events[i + 1..];
    NotShown(before, k);
    NotShown(after, k);
    ShownLast(before, events[i], k);
    ShownConcat(before + [events[i]], after, k);
    assert events == before + [events[i]] + after;
  }

  lemma ShownLast(events: seq<Event>, e: Event, k: StreamKey)
    ensures Shown(events + [e], k) == Shown(events, k) + if e.key == k then [e.bar] else []
  {
    assert (events + [e])[..|events|] == events;
  }

  ghost predicate Past(log: seq<Event>, t: int) {
    forall i :: 0 <= i < |log| ==> log[i].timestamp < t
  }

  ghost predicate ShownUpTo(bars: Bars, start: Indices, indices: Indices, log: seq<Event>, k: StreamKey) {
    && k in start && k in indices && k in bars && start[k] <= indices[k] <= |bars[k]|
    && Shown(log, k) == bars[k][start[k]..indices[k]]
  }

  /** The event shows a bar of a registered stream, at the bar's own time and
      with that stream's flags. */
  ghost predicate FromStream(start: Indices, streams: map<StreamKey, Stream>, e: Event) {
    && e.key in start && e.key in streams && e.timestamp == e.bar.timestamp
    && e.isFeature == streams[e.key].isFeature && e.allowTrading == streams[e.key].allowTrading
  }

  ghost predicate AllFromStreams(start: Indices, streams: map<StreamKey, Stream>, log: seq<Event>) {
    forall i :: 0 <= i < |log| ==> FromStream(start, streams, log[i])
  }

  ghost predicate ReplayInv(bars: Bars, start: Indices, indices: Indices, streams: map<StreamKey, Stream>,
                            log: seq<Event>) {
    && Ordered(log) && AllFromStreams(start, streams, log)
    && (forall k :: k in indices ==> ShownUpTo(bars, start, indices, log, k))
    && (forall k :: Unfinished(bars, indices, k) ==> Past(log, Due(bars, indices, k)))
  }

  lemma SliceMore(bs: seq<Bar>, a: nat, i: nat)
    requires a <= i < |bs|
    ensures bs[a..i] + [bs[i]] == bs[a..i + 1]
  {
  }

  lemma StepShows(bars: Bars, start: Indices, indices: Indices, streams: map<StreamKey, Stream>, log: seq<Event>,
                  step: Step, k: StreamKey)
    requires ShownUpTo(bars, start, indices, log, k) && IsStep(bars, indices, streams, step)
    ensures ShownUpTo(bars, start, Advanced(indices, step.events), log + step.events, k)
  {
    ShownConcat(log, step.events, k);
    if HasKey(step.events, k) {
      var i :| 0 <= i < |step.events| && step.events[i].key == k;
      ShownOnce(step.events, i);
      assert EventOf(bars, indices, streams, step.timestamp, step.events[i]);
      SliceMore(bars[k], start[k], indices[k]);
    } else {
      NotShown(step.events, k);
    }
  }

  /** After a step every remaining bar is later than it. */
  lemma StepIsPast(bars: Bars, indices: Indices, streams: map<StreamKey, Stream>, step: Step, k: StreamKey)
    requires StrictlyTimed(bars) && IsStep(bars, indices, streams, step)
    requires Unfinished(bars, Advanced(indices, step.events), k)
    ensures step.timestamp < Due(bars, Advanced(indices, step.events), k)
  {
    if HasKey(step.events, k) {
      var i :| 0 <= i < |step.events| && step.events[i].key == k;
      assert EventOf(bars, indices, streams, step.timestamp, step.events[i]);
    } else {
      assert Unfinished(bars, indices, k);
    }
  }

  lemma StepOrdered(bars: Bars, indices: Indices, streams: map<StreamKey, Stream>, log: seq<Event>, step: Step)
    requires Ordered(log) && IsStep(bars, indices, streams, step)
    requires forall k :: Unfinished(bars, indices, k) ==> Past(log, Due(bars, indices, k))
    ensures Ordered(log + step.events) && Past(log, step.timestamp)
  {
    assert EventOf(bars, indices, streams, step.timestamp, step.events[0]);
    assert Past(log, Due(bars, indices, step.events[0].key));
    var all := log + step.events;
    forall i, j | 0 <= i < j < |all| ensures EventBefore(all[i], all[j]) {
      if j >= |log| { assert EventOf(bars, indices, streams, step.timestamp, step.events[j - |log|]); }
      if i >= |log| { assert EventOf(bars, indices, streams, step.timestamp, step.events[i - |log|]); }
    }
  }

  lemma StepFromStreams(bars: Bars, start: Indices, indices: Indices, streams: map<StreamKey, Stream>, log: seq<Event>,
                        step: Step)
    requires AllFromStreams(start, streams, log) && start.Keys == indices.Keys && IsStep(bars, indices, streams, step)
    ensures AllFromStreams(start, streams, log + step.events)
  {
    var all := log + step.events;
    forall i | 0 <= i < |all| ensures FromStream(start, streams, all[i]) {
      if i >= |log| { assert EventOf(bars, indices, streams, step.timestamp, step.events[i - |log|]); }
    }
  }

  lemma StepReplays(bars: Bars, start: Indices, indices: Indices, streams: map<StreamKey, Stream>, log: seq<Event>,
                    step: Step)
    requires StrictlyTimed(bars) && ReplayInv(bars, start, indices, streams, log) && start.Keys == indices.Keys
    requires IsStep(bars, indices, streams, step)
    ensures ReplayInv(bars, start, Advanced(indices, step.events), streams, log + step.events)
  {
    StepFromStreams(bars, start, indices, streams, log, step);
    var next := Advanced(indices, step.events);
    var all := log + step.events;
    StepOrdered(bars, indices, streams, log, step);
    forall k | k in next ensures ShownUpTo(bars, start, next, all, k) {
      StepShows(bars, start, indices, streams, log, step, k);
    }
    forall k | Unfinished(bars, next, k) ensures Past(all, Due(bars, next, k)) {
      StepIsPast(bars, indices, streams, step, k);
      forall i | 0 <= i < |all| ensures all[i].timestamp < Due(bars, next, k) {
        if i >= |log| { assert EventOf(bars, indices, streams, step.timestamp, step.events[i - |log|]); }
      }
    }
  }

  lemma StepProgress(bars: Bars, indices: Indices, streams: map<StreamKey, Stream>, step: Step)
    requires IsStep(bars, indices, streams, step)
    ensures Sum(indices) < Sum(Advanced(indices, step.events))
  {
    var next := Advanced(indices, step.events);
    assert EventOf(bars, indices, streams, step.timestamp, step.events[0]);
    assert next[step.events[0].key] != indices[step.events[0].key];
    SumCompares(indices, next);
  }

  // ----- the merge the replay must be -----

  /** The event of one bar that was still to come at the start. */
  ghost predicate Remaining(bars: Bars, start: Indices, streams: map<StreamKey, Stream>, e: Event) {
    && FromStream(start, streams, e) && e.key in bars
    && exists i :: start[e.key] <= i < |bars[e.key]| && bars[e.key][i] == e.bar
  }

  ghost predicate ShowsRest(bars: Bars, start: Indices, log: seq<Event>, k: StreamKey) {
    k in start && k in bars && start[k] <= |bars[k]| && Shown(log, k) == bars[k][start[k]..]
  }

  /** An ordered log that shows every stream from its start to its end, and
      nothing else. */
  ghost predicate IsMerge(bars: Bars, start: Indices, streams: map<StreamKey, Stream>, log: seq<Event>) {
    && Ordered(log) && AllFromStreams(start, streams, log)
    && forall k :: k in start ==> ShowsRest(bars, start, log, k)
  }

  /** The replay loop over loaded streams yields the merge of all their
      remaining bars. */
  method Replay(state: BacktestState) returns (log: seq<Event>)
    requires state.Valid() && state.out == {} && StrictlyTimed(state.bars)
    modifies state
    ensures state.Valid() && state.out == {} && state.bars == old(state.bars) && state.streams == old(state.streams)
    ensures Exhausted(state.bars, state.indices)
    ensures IsMerge(state.bars, old(state.indices), state.streams, log)
    ensures forall e :: multiset(log)[e] == if Remaining(state.bars, old(state.indices), state.streams, e) then 1 else 0
  {
    log := [];
    ghost var start := state.indices;
    while true
      invariant state.Valid() && state.out == {}
      invariant state.bars == old(state.bars) && state.indices.Keys == start.Keys
      invariant state.streams == old(state.streams)
      invariant ReplayInv(state.bars, start, state.indices, state.streams, log)
      decreases Sum(Lengths(state.bars)) - Sum(state.indices)
    {
      ghost var before := state.indices;
      var step := state.StepStreams();
      if step.None? {
        Finished(state.bars, start, state.indices, state.streams, log);
        MergeHoldsEachOnce(state.bars, start, state.streams, log);
        return;
      }
      StepReplays(state.bars, start, before, state.streams, log, step.value);
      StepProgress(state.bars, before, state.streams, step.value);
      SumCompares(state.indices, Lengths(state.bars));
      log := log + step.value.events;
    }
  }

  lemma Finished(bars: Bars, start: Indices, indices: Indices, streams: map<StreamKey, Stream>, log: seq<Event>)
    requires Consistent(bars, indices, streams) && Exhausted(bars, indices) && start.Keys == indices.Keys
    requires ReplayInv(bars, start, indices, streams, log)
    ensures IsMerge(bars, start, streams, log)
  {
    forall k | k in start ensures ShowsRest(bars, start, log, k) {
      assert !Unfinished(bars, indices, k) && ShownUpTo(bars, start, indices, log, k);
    }
  }

  lemma SameHead(a: seq<Event>, b: seq<Event>)
    requires Ordered(a) && Ordered(b) && multiset(a) == multiset(b) && a != [] && b != []
    ensures a[0] == b[0]
  {
    assert a[0] in multiset(b) && b[0] in multiset(a);
    var i :| 0 <= i < |b| && b[i] == a[0];
    var j :| 0 <= j < |a| && a[j] == b[0];
    KeyTotal(a[0].key, b[0].key);
    assert i > 0 ==> EventBefore(b[0], b[i]);
    assert j > 0 ==> EventBefore(a[0], a[j]);
  }

  /** Ordering leaves no freedom: two ordered logs of the same events are equal. */
  lemma {:induction false} MergeIsUnique(a: seq<Event>, b: seq<Event>)
    requires Ordered(a) && Ordered(b) && multiset(a) == multiset(b)
    ensures a == b
    decreases |a|
  {
    assert |b| == |multiset(b)| && |a| == |multiset(a)|;
    if a != [] {
      SameHead(a, b);
      assert a == [a[0]] + a[1..] && b == [b[0]] + b[1..];
      assert multiset(a[1..]) == multiset(a) - multiset{a[0]} == multiset(b[1..]);
      MergeIsUnique(a[1..], b[1..]);
    }
  }

  lemma {:induction false} ShownHas(log: seq<Event>, k: StreamKey, b: Bar)
    ensures b in Shown(log, k) <==> exists i :: 0 <= i < |log| && log[i].key == k && log[i].bar == b
    decreases |log|
  {
    if log != [] {
      var n := |log| - 1;
      ShownHas(log[..n], k, b);
      if b in Shown(log[..n], k) {
        var i :| 0 <= i < n && log[..n][i].key == k && log[..n][i].bar == b;
        assert log[i].key == k && log[i].bar == b;
      }
      if i :| 0 <= i < |log| && log[i].key == k && log[i].bar == b {
        assert i < n ==> log[..n][i].key == k && log[..n][i].bar == b;
      }
    }
  }

  lemma {:induction false} OrderedCounts(log: seq<Event>, e: Event)
    requires Ordered(log)
    ensures multiset(log)[e] == if e in log then 1 else 0
    decreases |log|
  {
    if log != [] {
      var n := |log| - 1;
      OrderedCounts(log[..n], e);
      assert log == log[..n] + [log[n]];
      if e in log[..n] {
        var i :| 0 <= i < n && log[..n][i] == e;
        assert EventBefore(log[i], log[n]);
        KeyTotal(log[i].key, log[n].key);
      }
    }
  }

  lemma MergeHolds(bars: Bars, start: Indices, streams: map<StreamKey, Stream>, log: seq<Event>, e: Event)
    requires IsMerge(bars, start, streams, log)
    ensures e in log <==> Remaining(bars, start, streams, e)
  {
    var k := e.key;
    ShownHas(log, k, e.bar);
    if e in log {
      var i :| 0 <= i < |log| && log[i] == e;
      assert FromStream(start, streams, log[i]) && ShowsRest(bars, start, log, k);
      var j :| 0 <= j < |Shown(log, k)| && Shown(log, k)[j] == e.bar;
      assert bars[k][start[k] + j] == e.bar;
    }
    if Remaining(bars, start, streams, e) {
      assert ShowsRest(bars, start, log, k);
      var i :| start[k] <= i < |bars[k]| && bars[k][i] == e.bar;
      assert bars[k][start[k]..][i - start[k]] == e.bar;
      var j :| 0 <= j < |log| && log[j].key == k && log[j].bar == e.bar;
      assert FromStream(start, streams, log[j]) && log[j] == e;
    }
  }

  /** A merge holds the event of every remaining bar exactly once, and no other. */
  lemma MergeHoldsEachOnce(bars: Bars, start: Indices, streams: map<StreamKey, Stream>, log: seq<Event>)
    requires IsMerge(bars, start, streams, log)
    ensures forall e :: multiset(log)[e] == if Remaining(bars, start, streams, e) then 1 else 0
  {
    forall e ensures multiset(log)[e] == if Remaining(bars, start, streams, e) then 1 else 0 {
      OrderedCounts(log, e);
      MergeHolds(bars, start, streams, log, e);
    }
  }

  /** There is one merge only: any ordered log of the same remaining bars is the
      log the replay yields. */
  lemma OneMerge(bars: Bars, start: Indices, streams: map<StreamKey, Stream>, a: seq<Event>, b: seq<Event>)
    requires IsMerge(bars, start, streams, a) && Ordered(b)
    requires forall e :: e in b <==> Remaining(bars, start, streams, e)
    ensures a == b
  {
    MergeHoldsEachOnce(bars, start, streams, a);
    forall e ensures multiset(b)[e] == multiset(a)[e] { OrderedCounts(b, e); }
    MergeIsUnique(a, b);
  }
}
