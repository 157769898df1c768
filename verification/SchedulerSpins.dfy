/** When a request for the next step never returns. */
module SchedulerSpins {
  import opened Basics
  import opened Sets
  import opened Rounds
  import opened Streams
  import opened SchedulerSpec
  import opened SchedulerLoops
  import opened Scheduler

  // ----- a fit schedule always answers -----

  lemma FitRound(bars: Bars, indices: Indices, t: int, s: Rest)
    requires LazyHeap(s.heap, bars, indices, s.keys) && SameRound(bars, indices, t, s).Some?
    ensures var r := SameRound(bars, indices, t, s).value;
            && LazyHeap(r.heap, bars, indices, r.keys)
            && |Stale(r.heap, bars, indices)| + |r.heap| < |Stale(s.heap, bars, indices)| + |s.heap|
  {
    var e := Least(s.heap);
    if IsCurrent(bars, indices, e) && e.key !in s.keys {
      PopCurrent(s.heap, bars, indices, s.keys, e);
    } else {
      StaleOnly(s.heap, bars, indices, s.keys, e);
      RepushStale(s.heap, bars, indices, s.keys, e);
    }
  }

  lemma FitEnds(bars: Bars, indices: Indices, t: int, s: Rest)
    requires LazyHeap(s.heap, bars, indices, s.keys)
    ensures Ends(SameLoop(bars, indices, t), s)
  {
    var round := SameLoop(bars, indices, t);
    var keeps := (r: Rest) => LazyHeap(r.heap, bars, indices, r.keys);
    var left := (r: Rest) => |Stale(r.heap, bars, indices)| + |r.heap|;
    forall r | keeps(r) && round(r).Some? ensures keeps(round(r).value) && left(round(r).value) < left(r) {
      FitRound(bars, indices, t, r);
    }
    var n := ComesToEnd(round, keeps, left, s);
  }

  lemma FitSearch(bars: Bars, indices: Indices, heap: multiset<Entry>, n: nat, e: Entry, rest: multiset<Entry>)
    requires LazyHeap(heap, bars, indices, {}) && FindsAfter(bars, indices, heap, n, e, rest)
    ensures LazyHeap(rest, bars, indices, {e.key})
  {
    var round := SearchLoop(bars, indices);
    var keeps := (h: multiset<Entry>) => LazyHeap(h, bars, indices, {});
    forall h | keeps(h) && round(h).Some? ensures keeps(round(h).value) {
      RepushStale(h, bars, indices, {}, Least(h));
    }
    Keeps(round, keeps, heap, n);
    PopCurrent(Iterate(round, heap, n).value, bars, indices, {}, e);
    assert {} + {e.key} == {e.key};
  }

  /** One entry a stream is enough: from a fit heap, stale entries included, the
      request returns. */
  lemma FitReturns(bars: Bars, indices: Indices, heap: multiset<Entry>)
    requires LazyHeap(heap, bars, indices, {})
    ensures !NeverReturns(bars, indices, heap)
  {
    SearchEnds(bars, indices, heap);
    forall e, rest | Finds(bars, indices, heap, e, rest)
      ensures Ends(SameLoop(bars, indices, e.timestamp), Rest(rest, {e.key}))
    {
      var n: nat :| FindsAfter(bars, indices, heap, n, e, rest);
      FitSearch(bars, indices, heap, n, e, rest);
      FitEnds(bars, indices, e.timestamp, Rest(rest, {e.key}));
    }
  }

  // ----- any heap of entries that are current or behind -----

  ghost predicate Behind(bars: Bars, indices: Indices, heap: multiset<Entry>) {
    forall e :: e in heap && Unfinished(bars, indices, e.key) ==>
      IsCurrent(bars, indices, e) || e.timestamp < Due(bars, indices, e.key)
  }

  ghost function OfStream(k: StreamKey): Entry -> bool { (e: Entry) => e.key == k }

  ghost function Entries(heap: multiset<Entry>, k: StreamKey): nat { Count(heap, OfStream(k)) }

  lemma SomeEntry(heap: multiset<Entry>, k: StreamKey)
    ensures Entries(heap, k) > 0 <==> exists e :: e in heap && e.key == k
  {
    if Entries(heap, k) > 0 {
      var p :| p in Copies(heap, OfStream(k));
      assert p.0 in heap && p.0.key == k;
    }
    if e :| e in heap && e.key == k { CountRemoved(heap, e, OfStream(k)); }
  }

  lemma TwoCopies(heap: multiset<Entry>, e: Entry)
    requires heap[e] >= 2
    ensures Entries(heap, e.key) >= 2
  {
    CountRemoved(heap, e, OfStream(e.key));
    CountRemoved(heap - multiset{e}, e, OfStream(e.key));
  }

  lemma OneCopy(heap: multiset<Entry>, c: Entry)
    requires (forall e :: e in heap && e.key == c.key ==> e == c) && Entries(heap, c.key) >= 2
    ensures heap[c] >= 2
  {
    if heap[c] < 2 { SubsetSize(Copies(heap, OfStream(c.key)), {(c, 0)}); }
  }

  /** The stream has two entries, and no stream with an entry is due before it. */
  ghost predicate Repeats(bars: Bars, indices: Indices, heap: multiset<Entry>, k: StreamKey) {
    && Unfinished(bars, indices, k) && Entries(heap, k) >= 2
    && forall x :: Unfinished(bars, indices, x) && Entries(heap, x) > 0 ==> Due(bars, indices, k) <= Due(bars, indices, x)
  }

  ghost predicate SameEntries(bars: Bars, indices: Indices, a: multiset<Entry>, b: multiset<Entry>) {
    forall x :: Unfinished(bars, indices, x) ==> Entries(a, x) == Entries(b, x)
  }

  lemma SearchKeeps(bars: Bars, indices: Indices, heap: multiset<Entry>, n: nat)
    requires Behind(bars, indices, heap) && Iterate(SearchLoop(bars, indices), heap, n).Some?
    ensures var h := Iterate(SearchLoop(bars, indices), heap, n).value;
            Behind(bars, indices, h) && SameEntries(bars, indices, heap, h)
  {
    var round := SearchLoop(bars, indices);
    var keeps := (h: multiset<Entry>) => Behind(bars, indices, h) && SameEntries(bars, indices, heap, h);
    forall h | keeps(h) && round(h).Some? ensures keeps(round(h).value) {
      forall x | Unfinished(bars, indices, x) ensures Entries(heap, x) == Entries(round(h).value, x) {
        CountReplaced(h, bars, indices, Least(h), OfStream(x));
      }
    }
    Keeps(round, keeps, heap, n);
  }

  lemma Foremost(bars: Bars, indices: Indices, heap: multiset<Entry>, e: Entry, k: StreamKey)
    requires Behind(bars, indices, heap) && IsMin(heap, e) && IsCurrent(bars, indices, e)
    requires Unfinished(bars, indices, k) && Entries(heap, k) > 0
    ensures e.timestamp <= Due(bars, indices, k)
  {
    SomeEntry(heap, k);
    var z :| z in heap && z.key == k;
    assert !EntryBefore(z, e);
  }

  lemma StuckRepeats(bars: Bars, indices: Indices, heap: multiset<Entry>, e: Entry, x: Entry)
    requires Behind(bars, indices, heap) && IsMin(heap, e) && IsCurrent(bars, indices, e)
    requires Stuck(bars, indices, e.timestamp, Rest(heap - multiset{e}, {e.key}), x)
    ensures Repeats(bars, indices, heap, x.key)
  {
    TwoCopies(heap, x);
    forall y | Unfinished(bars, indices, y) && Entries(heap, y) > 0 ensures e.timestamp <= Due(bars, indices, y) {
      Foremost(bars, indices, heap, e, y);
    }
  }

  lemma RepeatsStuck(bars: Bars, indices: Indices, heap: multiset<Entry>, e: Entry, k: StreamKey)
    requires Behind(bars, indices, heap) && IsMin(heap, e) && IsCurrent(bars, indices, e)
    requires Repeats(bars, indices, heap, k)
    ensures Stuck(bars, indices, e.timestamp, Rest(heap - multiset{e}, {e.key}), Current(bars, indices, k))
  {
    var c := Current(bars, indices, k);
    SomeEntry(heap, e.key);
    Foremost(bars, indices, heap, e, k);
    forall z | z in heap && z.key == k ensures z == c { assert !EntryBefore(z, e); }
    OneCopy(heap, c);
  }

  lemma FoundSpinsIff(bars: Bars, indices: Indices, heap: multiset<Entry>, e: Entry)
    requires Behind(bars, indices, heap) && IsMin(heap, e) && IsCurrent(bars, indices, e)
    ensures !Ends(SameLoop(bars, indices, e.timestamp), Rest(heap - multiset{e}, {e.key}))
            <==> exists k :: Repeats(bars, indices, heap, k)
  {
    var t, s := e.timestamp, Rest(heap - multiset{e}, {e.key});
    forall x | x in s.heap ensures x.timestamp >= t { assert !EntryBefore(x, e); }
    assert Settled(bars, indices, t, s);
    EndsIffNoneStuck(bars, indices, t, s);
    if x :| Stuck(bars, indices, t, s, x) { StuckRepeats(bars, indices, heap, e, x); }
    if k :| Repeats(bars, indices, heap, k) { RepeatsStuck(bars, indices, heap, e, k); }
  }

  lemma SameRepeats(bars: Bars, indices: Indices, a: multiset<Entry>, b: multiset<Entry>, k: StreamKey)
    requires SameEntries(bars, indices, a, b)
    ensures Repeats(bars, indices, a, k) <==> Repeats(bars, indices, b, k)
  {
  }

  lemma SpinRepeats(bars: Bars, indices: Indices, heap: multiset<Entry>, n: nat, e: Entry, rest: multiset<Entry>)
    returns (k: StreamKey)
    requires Behind(bars, indices, heap) && FindsAfter(bars, indices, heap, n, e, rest)
    requires !Ends(SameLoop(bars, indices, e.timestamp), Rest(rest, {e.key}))
    ensures Repeats(bars, indices, heap, k)
  {
    var h := Iterate(SearchLoop(bars, indices), heap, n).value;
    SearchKeeps(bars, indices, heap, n);
    FoundSpinsIff(bars, indices, h, e);
    k :| Repeats(bars, indices, h, k);
    SameRepeats(bars, indices, heap, h, k);
  }

  lemma RepeatSpins(bars: Bars, indices: Indices, heap: multiset<Entry>, k: StreamKey)
    requires Behind(bars, indices, heap) && Repeats(bars, indices, heap, k)
    ensures Spins(bars, indices, heap)
  {
    var loop := SearchLoop(bars, indices);
    SearchEnds(bars, indices, heap);
    var n: nat :| Iterate(loop, heap, n).None?;
    var m := LastState(loop, heap, n);
    var h := Iterate(loop, heap, m).value;
    SearchKeeps(bars, indices, heap, m);
    SameRepeats(bars, indices, heap, h, k);
    SomeEntry(h, k);
    assert |h| > 0;
    var e := Least(h);
    FoundSpinsIff(bars, indices, h, e);
    assert FindsAfter(bars, indices, heap, m, e, h - multiset{e});
    assert Finds(bars, indices, heap, e, h - multiset{e});
  }

  /** From entries that are current or behind, the request never returns exactly
      when a stream has two of them and none with an entry is due before it. */
  lemma NeverReturnsIff(bars: Bars, indices: Indices, heap: multiset<Entry>)
    requires Behind(bars, indices, heap)
    ensures NeverReturns(bars, indices, heap) <==> exists k :: Repeats(bars, indices, heap, k)
  {
    SearchEnds(bars, indices, heap);
    if Spins(bars, indices, heap) {
      var e, rest :| Finds(bars, indices, heap, e, rest)
                     && !Ends(SameLoop(bars, indices, e.timestamp), Rest(rest, {e.key}));
      var n: nat :| FindsAfter(bars, indices, heap, n, e, rest);
      var k := SpinRepeats(bars, indices, heap, n, e, rest);
    }
    if k :| Repeats(bars, indices, heap, k) { RepeatSpins(bars, indices, heap, k); }
  }

  // ----- after an advance of whatever step -----

  ghost function Occurrences(events: seq<Event>, k: StreamKey): nat {
    if events == [] then 0
    else Occurrences(events[..|events| - 1], k) + if events[|events| - 1].key == k then 1 else 0
  }

  /** Entries a stream with bars left has after the advance: the one it kept if it
      was not handed out, and one for each event of it. */
  ghost function Owed(out: set<StreamKey>, events: seq<Event>, k: StreamKey): nat {
    (if k in out then 0 else 1) + Occurrences(events, k)
  }

  /** A stream with bars left is owed two entries, and no stream that is owed one
      is due before it. */
  ghost predicate OwedTwice(bars: Bars, start: Indices, out: set<StreamKey>, events: seq<Event>, k: StreamKey) {
    var now := AdvancedBy(bars, start, events);
    && Unfinished(bars, now, k) && Owed(out, events, k) >= 2
    && forall x :: Unfinished(bars, now, x) && Owed(out, events, x) > 0 ==> Due(bars, now, k) <= Due(bars, now, x)
  }

  lemma {:induction false} AdvancedBehind(heap: multiset<Entry>, bars: Bars, start: Indices, events: seq<Event>)
    requires AllCurrent(heap, bars, start) && StrictlyTimed(bars)
    ensures Behind(bars, AdvancedBy(bars, start, events), AdvancedHeap(heap, bars, start, events))
    decreases |events|
  {
    if events != [] {
      var n := |events| - 1;
      AdvancedBehind(heap, bars, start, events[..n]);
      BumpedBehind(AdvancedHeap(heap, bars, start, events[..n]), bars, AdvancedBy(bars, start, events[..n]), events[n].key);
    }
  }

  lemma BumpedBehind(heap: multiset<Entry>, bars: Bars, indices: Indices, k: StreamKey)
    requires Behind(bars, indices, heap) && StrictlyTimed(bars)
    ensures Behind(bars, Bumped(bars, indices, k), Pushed(heap, bars, Bumped(bars, indices, k), k))
  {
    var next := Bumped(bars, indices, k);
    forall e | e in Pushed(heap, bars, next, k) && Unfinished(bars, next, e.key)
      ensures IsCurrent(bars, next, e) || e.timestamp < Due(bars, next, e.key)
    {
      if e in heap { assert Unfinished(bars, indices, e.key); }
    }
  }

  lemma {:induction false} AdvancedEntries(heap: multiset<Entry>, bars: Bars, start: Indices, events: seq<Event>,
                                           k: StreamKey)
    requires Unfinished(bars, AdvancedBy(bars, start, events), k)
    ensures Unfinished(bars, start, k)
    ensures Entries(AdvancedHeap(heap, bars, start, events), k) == Entries(heap, k) + Occurrences(events, k)
    decreases |events|
  {
    if events != [] {
      var n := |events| - 1;
      var now, j := AdvancedBy(bars, start, events), events[n].key;
      AdvancedEntries(heap, bars, start, events[..n], k);
      if Unfinished(bars, now, j) {
        CountAdded(AdvancedHeap(heap, bars, start, events[..n]), Current(bars, now, j), OfStream(k));
      }
    }
  }

  lemma FitEntries(heap: multiset<Entry>, bars: Bars, indices: Indices, out: set<StreamKey>, k: StreamKey)
    requires LazyHeap(heap, bars, indices, out) && Unfinished(bars, indices, k)
    ensures Entries(heap, k) == if k in out then 0 else 1
  {
    SomeEntry(heap, k);
    if k in out {
      forall e | e in heap ensures e.key != k { assert Alone(heap, out, e); }
    } else {
      assert Covered(heap, bars, indices, k);
      var e :| e in heap && e.key == k;
      assert Alone(heap, out, e);
      if Entries(heap, k) >= 2 { OneCopy(heap, e); }
    }
  }

  lemma OwedEntries(heap: multiset<Entry>, bars: Bars, start: Indices, out: set<StreamKey>, events: seq<Event>,
                    k: StreamKey)
    requires LazyHeap(heap, bars, start, out) && Unfinished(bars, AdvancedBy(bars, start, events), k)
    ensures Entries(AdvancedHeap(heap, bars, start, events), k) == Owed(out, events, k)
  {
    AdvancedEntries(heap, bars, start, events, k);
    FitEntries(heap, bars, start, out, k);
  }

  /** From any state the scheduler keeps by itself, with or without a step handed
      out, and whatever step is then advanced: the next request never returns
      exactly when some stream is owed two entries before anything else is due. */
  lemma AdvanceNeverReturnsIff(heap: multiset<Entry>, bars: Bars, start: Indices, out: set<StreamKey>,
                               events: seq<Event>)
    requires LazyHeap(heap, bars, start, out) && AllCurrent(heap, bars, start) && StrictlyTimed(bars)
    ensures NeverReturns(bars, AdvancedBy(bars, start, events), AdvancedHeap(heap, bars, start, events))
            <==> exists k :: OwedTwice(bars, start, out, events, k)
  {
    var now, after := AdvancedBy(bars, start, events), AdvancedHeap(heap, bars, start, events);
    AdvancedBehind(heap, bars, start, events);
    NeverReturnsIff(bars, now, after);
    forall k ensures Repeats(bars, now, after, k) <==> OwedTwice(bars, start, out, events, k) {
      forall x | Unfinished(bars, now, x) ensures Entries(after, x) == Owed(out, events, x) {
        OwedEntries(heap, bars, start, out, events, x);
      }
    }
  }

  /** The same of the object, for any step it is told to advance. */
  method AdvanceAny(state: BacktestState, step: Step)
    requires state.Valid() && state.Fresh() && state.initialized && StrictlyTimed(state.bars)
    modifies state
    ensures state.bars == old(state.bars) && state.initialized
    ensures state.indices == AdvancedBy(state.bars, old(state.indices), step.events)
    ensures NeverReturns(state.bars, state.indices, state.heap)
            <==> exists k :: OwedTwice(state.bars, old(state.indices), old(state.out), step.events, k)
  {
    AdvanceNeverReturnsIff(state.heap, state.bars, state.indices, state.out, step.events);
    state.Advance(step);
  }

  lemma OnlyEvent(bars: Bars, indices: Indices, streams: map<StreamKey, Stream>, step: Step, k: StreamKey)
    requires IsStep(bars, indices, streams, step) && bars.Keys == {k} && Unfinished(bars, indices, k)
    ensures |step.events| == 1 && step.events[0].key == k
  {
    forall i | 0 <= i < |step.events| ensures step.events[i].key == k {
      assert EventOf(bars, indices, streams, step.timestamp, step.events[i]);
    }
    if |step.events| > 1 { KeyTotal(step.events[0].key, step.events[1].key); }
  }

  method LoadOne(k: StreamKey, stream: Stream, bs: seq<Bar>) returns (state: BacktestState)
    ensures fresh(state) && state.Valid() && state.Fresh() && state.out == {}
    ensures state.bars == map[k := bs] && state.indices == map[k := 0]
  {
    state := new BacktestState();
    assert state.bars.Keys == {};
    state.Load(k, stream, bs);
  }

  /** Asks a state with one stream for a step and advances it. */
  method StepOne(state: BacktestState, k: StreamKey) returns (step: Step)
    requires state.Valid() && state.Fresh() && state.out == {} && state.bars.Keys == {k}
    requires Unfinished(state.bars, state.indices, k)
    modifies state
    ensures state.Valid() && state.Fresh() && state.out == {} && state.initialized && state.bars == old(state.bars)
    ensures state.indices == old(state.indices)[k := old(state.indices)[k] + 1]
    ensures |step.events| == 1 && step.events[0].key == k
  {
    ghost var start := state.indices;
    var r := state.StepStreams();
    step := r.value;
    OnlyEvent(state.bars, start, state.streams, step, k);
    OnlyMoved(start, step.events, k);
  }

  lemma OnlyMoved(indices: Indices, events: seq<Event>, k: StreamKey)
    requires indices.Keys == {k} && |events| == 1 && events[0].key == k
    ensures Advanced(indices, events) == indices[k := indices[k] + 1]
  {
    assert HasKey(events, k);
  }

  /** One stream of three bars: a step is asked for and advanced, and the same step
      is advanced once more. The next request never returns. */
  method AdvancedTwiceSpins(k: StreamKey, stream: Stream, a: Bar, b: Bar, c: Bar) returns (state: BacktestState)
    requires a.timestamp < b.timestamp < c.timestamp
    ensures state.initialized && state.bars == map[k := [a, b, c]] && state.indices == map[k := 2]
    ensures NeverReturns(state.bars, state.indices, state.heap)
  {
    state := LoadOne(k, stream, [a, b, c]);
    var step := StepOne(state, k);
    OneEvent(state.bars, state.indices, step.events, k);
    AdvanceAny(state, step);
  }

  lemma OneEvent(bars: Bars, indices: Indices, events: seq<Event>, k: StreamKey)
    requires |events| == 1 && events[0].key == k && indices.Keys == {k}
    requires k in bars && indices[k] + 1 < |bars[k]|
    ensures AdvancedBy(bars, indices, events) == indices[k := indices[k] + 1]
    ensures OwedTwice(bars, indices, {}, events, k)
  {
    assert events[..0] == [];
    assert Occurrences(events, k) == 1;
  }
}
