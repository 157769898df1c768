/** What a market step must be, and the heap that finds it lazily. */
module SchedulerSpec {
  import opened Streams

  datatype Bar = Bar(timestamp: int, open: real, high: real, low: real, close: real, volume: real)

  datatype Stream = Stream(isFeature: bool, allowTrading: bool)

  datatype Event = Event(key: StreamKey, isFeature: bool, allowTrading: bool, timestamp: int, bar: Bar)

  datatype Step = Step(timestamp: int, events: seq<Event>, executionBars: map<string, Bar>, hasTradableEvents: bool)

  type Bars = map<StreamKey, seq<Bar>>
  type Indices = map<StreamKey, nat>

  ghost predicate StrictlyTimed(bars: Bars) {
    forall k, i, j :: k in bars && 0 <= i < j < |bars[k]| ==> bars[k][i].timestamp < bars[k][j].timestamp
  }

  predicate Unfinished(bars: Bars, indices: Indices, k: StreamKey) {
    k in indices && k in bars && indices[k] < |bars[k]|
  }

  function Due(bars: Bars, indices: Indices, k: StreamKey): int
    requires Unfinished(bars, indices, k)
  {
    bars[k][indices[k]].timestamp
  }

  function Current(bars: Bars, indices: Indices, k: StreamKey): Entry
    requires Unfinished(bars, indices, k)
  {
    Entry(Due(bars, indices, k), k, indices[k])
  }

  predicate IsCurrent(bars: Bars, indices: Indices, e: Entry) {
    Unfinished(bars, indices, e.key) && e == Current(bars, indices, e.key)
  }

  // ----- the reference: one step of a plain k-way merge -----

  ghost predicate EventOf(bars: Bars, indices: Indices, streams: map<StreamKey, Stream>, t: int, e: Event) {
    && Unfinished(bars, indices, e.key) && e.key in streams
    && Due(bars, indices, e.key) == t && e.timestamp == t
    && e.bar == bars[e.key][indices[e.key]]
    && e.isFeature == streams[e.key].isFeature && e.allowTrading == streams[e.key].allowTrading
  }

  ghost predicate HasKey(events: seq<Event>, k: StreamKey) {
    exists i :: 0 <= i < |events| && events[i].key == k
  }

  /** Exactly the streams whose current bar has the least remaining time, in
      (symbol, label) order. */
  ghost predicate IsStep(bars: Bars, indices: Indices, streams: map<StreamKey, Stream>, step: Step) {
    && step.events != []
    && (forall k :: Unfinished(bars, indices, k) ==> step.timestamp <= Due(bars, indices, k))
    && (forall i :: 0 <= i < |step.events| ==> EventOf(bars, indices, streams, step.timestamp, step.events[i]))
    && (forall k :: Unfinished(bars, indices, k) && Due(bars, indices, k) == step.timestamp ==> HasKey(step.events, k))
    && (forall i, j :: 0 <= i < j < |step.events| ==> KeyBefore(step.events[i].key, step.events[j].key))
  }

  /** What a step lets the broker trade on. */
  ghost predicate Trades(step: Step) {
    && (step.hasTradableEvents <==> exists i :: 0 <= i < |step.events| && step.events[i].allowTrading)
    && (forall symbol :: ExecutesOn(step.events, step.executionBars, symbol))
  }

  /** The event fills orders of this symbol. */
  ghost predicate Executable(e: Event, symbol: string) {
    e.allowTrading && !e.isFeature && e.key.symbol == symbol
  }

  ghost predicate LastFor(events: seq<Event>, symbol: string, i: int) {
    && 0 <= i < |events| && Executable(events[i], symbol)
    && forall j :: i < j < |events| ==> !Executable(events[j], symbol)
  }

  /** Orders of a symbol are filled on the bar of its last executable event. */
  ghost predicate ExecutesOn(events: seq<Event>, bars: map<string, Bar>, symbol: string) {
    && (symbol in bars <==> exists i :: LastFor(events, symbol, i))
    && (forall i :: LastFor(events, symbol, i) ==> symbol in bars && bars[symbol] == events[i].bar)
  }

  // ----- the heap -----

  ghost predicate Covered(heap: multiset<Entry>, bars: Bars, indices: Indices, k: StreamKey)
    requires Unfinished(bars, indices, k)
  {
    exists e :: e in heap && e.key == k && e.timestamp <= Due(bars, indices, k)
  }

  /** The only entry of its stream, and its stream is not handed out. */
  ghost predicate Alone(heap: multiset<Entry>, out: set<StreamKey>, e: Entry) {
    && heap[e] == 1 && e.key !in out
    && forall x :: x in heap && x.key == e.key ==> x == e
  }

  /** At most one entry a stream, none for a stream handed out, and one that is
      not too late for every other unfinished stream. An entry may be stale. */
  ghost predicate LazyHeap(heap: multiset<Entry>, bars: Bars, indices: Indices, out: set<StreamKey>) {
    && (forall e {:trigger Alone(heap, out, e)} :: e in heap ==> Alone(heap, out, e))
    && (forall k {:trigger Covered(heap, bars, indices, k)} ::
          Unfinished(bars, indices, k) && k !in out ==> Covered(heap, bars, indices, k))
  }

  ghost predicate AllCurrent(heap: multiset<Entry>, bars: Bars, indices: Indices) {
    forall e {:trigger IsCurrent(bars, indices, e)} :: e in heap ==> IsCurrent(bars, indices, e)
  }

  ghost function Stale(heap: multiset<Entry>, bars: Bars, indices: Indices): set<Entry> {
    set e | e in heap && !IsCurrent(bars, indices, e)
  }

  /** Scheduling a stream's current bar, if it has one left. */
  ghost function Pushed(heap: multiset<Entry>, bars: Bars, indices: Indices, k: StreamKey): multiset<Entry> {
    if Unfinished(bars, indices, k) then heap + multiset{Current(bars, indices, k)} else heap
  }

  lemma PopCurrent(heap: multiset<Entry>, bars: Bars, indices: Indices, out: set<StreamKey>, e: Entry)
    requires LazyHeap(heap, bars, indices, out) && e in heap && IsCurrent(bars, indices, e)
    ensures LazyHeap(heap - multiset{e}, bars, indices, out + {e.key})
    ensures Stale(heap - multiset{e}, bars, indices) == Stale(heap, bars, indices)
  {
    var rest := heap - multiset{e};
    assert Alone(heap, out, e);
    forall x | x in rest ensures Alone(rest, out + {e.key}, x) { assert Alone(heap, out, x); }
    forall k | Unfinished(bars, indices, k) && k !in out + {e.key} ensures Covered(rest, bars, indices, k) {
      assert Covered(heap, bars, indices, k);
      var x :| x in heap && x.key == k && x.timestamp <= Due(bars, indices, k);
      assert x in rest;
    }
  }

  /** Putting a stream's current bar into a heap that holds nothing of it. */
  lemma Scheduled(heap: multiset<Entry>, bars: Bars, indices: Indices, keys: set<StreamKey>, k: StreamKey)
    requires LazyHeap(heap, bars, indices, keys) && k in keys
    ensures LazyHeap(Pushed(heap, bars, indices, k), bars, indices, keys - {k})
  {
    var next := Pushed(heap, bars, indices, k);
    forall x | x in next ensures Alone(next, keys - {k}, x) {
      assert x in heap ==> Alone(heap, keys, x);
      forall y | y in heap ensures y.key != k { assert Alone(heap, keys, y); }
    }
    forall x | Unfinished(bars, indices, x) && x !in keys - {k} ensures Covered(next, bars, indices, x) {
      if x == k {
        assert Current(bars, indices, k) in next;
      } else {
        assert Covered(heap, bars, indices, x);
        var e :| e in heap && e.key == x && e.timestamp <= Due(bars, indices, x);
        assert e in next;
      }
    }
  }

  lemma ScheduledCurrent(heap: multiset<Entry>, bars: Bars, indices: Indices, k: StreamKey)
    requires AllCurrent(heap, bars, indices)
    ensures AllCurrent(Pushed(heap, bars, indices, k), bars, indices)
  {
  }

  /** A stream with an entry that is not current counts as having none. */
  lemma Withdrawn(heap: multiset<Entry>, bars: Bars, indices: Indices, out: set<StreamKey>, e: Entry)
    requires LazyHeap(heap, bars, indices, out) && e in heap
    ensures LazyHeap(heap - multiset{e}, bars, indices, out + {e.key})
    ensures Unfinished(bars, indices, e.key) ==> e.timestamp <= Due(bars, indices, e.key)
    ensures e.key !in out
  {
    var rest := heap - multiset{e};
    assert Alone(heap, out, e);
    forall x | x in rest ensures Alone(rest, out + {e.key}, x) { assert Alone(heap, out, x); }
    forall k | Unfinished(bars, indices, k) && k !in out + {e.key} ensures Covered(rest, bars, indices, k) {
      assert Covered(heap, bars, indices, k);
      var x :| x in heap && x.key == k && x.timestamp <= Due(bars, indices, k);
      assert x in rest;
    }
    if Unfinished(bars, indices, e.key) { assert Covered(heap, bars, indices, e.key); }
  }

  lemma StaleShrinks(heap: multiset<Entry>, bars: Bars, indices: Indices, e: Entry)
    requires heap[e] == 1 && !IsCurrent(bars, indices, e)
    ensures Stale(Pushed(heap - multiset{e}, bars, indices, e.key), bars, indices)
            == Stale(heap, bars, indices) - {e}
    ensures e in Stale(heap, bars, indices)
  {
  }

  /** A stale entry is replaced by the current one, which is no earlier. */
  lemma RepushStale(heap: multiset<Entry>, bars: Bars, indices: Indices, out: set<StreamKey>, e: Entry)
    requires LazyHeap(heap, bars, indices, out) && e in heap && !IsCurrent(bars, indices, e)
    ensures var next := Pushed(heap - multiset{e}, bars, indices, e.key);
            && LazyHeap(next, bars, indices, out)
            && |Stale(next, bars, indices)| < |Stale(heap, bars, indices)|
    ensures Unfinished(bars, indices, e.key) ==> e.timestamp <= Due(bars, indices, e.key)
  {
    Withdrawn(heap, bars, indices, out, e);
    Scheduled(heap - multiset{e}, bars, indices, out + {e.key}, e.key);
    assert out + {e.key} - {e.key} == out;
    assert Alone(heap, out, e);
    StaleShrinks(heap, bars, indices, e);
  }

  /** A handed-out stream's index does not concern the heap. */
  lemma Moved(heap: multiset<Entry>, bars: Bars, indices: Indices, out: set<StreamKey>, k: StreamKey, i: nat)
    requires LazyHeap(heap, bars, indices, out) && k in out && k in indices
    ensures LazyHeap(heap, bars, indices[k := i], out)
    ensures AllCurrent(heap, bars, indices) ==> AllCurrent(heap, bars, indices[k := i])
  {
    forall x | Unfinished(bars, indices[k := i], x) && x !in out ensures Covered(heap, bars, indices[k := i], x) {
      assert Covered(heap, bars, indices, x);
    }
    forall e | e in heap ensures e.key != k { assert Alone(heap, out, e); }
    forall e | e in heap && AllCurrent(heap, bars, indices) ensures IsCurrent(bars, indices[k := i], e) {
      assert IsCurrent(bars, indices, e);
    }
  }

  lemma EmptyMeansExhausted(heap: multiset<Entry>, bars: Bars, indices: Indices)
    requires LazyHeap(heap, bars, indices, {})
    ensures |heap| > 0 || Exhausted(bars, indices)
  {
    if !Exhausted(bars, indices) {
      var k :| Unfinished(bars, indices, k);
      assert Covered(heap, bars, indices, k);
    }
  }

  /** Between steps: one entry per unfinished stream, and it is current. */
  lemma ExactHeap(heap: multiset<Entry>, bars: Bars, indices: Indices)
    requires LazyHeap(heap, bars, indices, {}) && AllCurrent(heap, bars, indices)
    ensures forall e :: heap[e] == if IsCurrent(bars, indices, e) then 1 else 0
  {
    forall e ensures heap[e] == if IsCurrent(bars, indices, e) then 1 else 0 {
      if IsCurrent(bars, indices, e) {
        assert Covered(heap, bars, indices, e.key);
        var x :| x in heap && x.key == e.key;
        assert IsCurrent(bars, indices, x) && Alone(heap, {}, x);
      }
    }
  }

  // ----- cached counters -----

  ghost function Sum(m: map<StreamKey, nat>): nat
    decreases |m|
  {
    if m == map[] then 0 else
      var k :| k in m;
      m[k] + Sum(m - {k})
  }

  function Lengths(bars: Bars): map<StreamKey, nat> {
    map k | k in bars :: |bars[k]|
  }

  lemma {:induction false} SumRemove(m: map<StreamKey, nat>, k: StreamKey)
    requires k in m
    ensures Sum(m) == m[k] + Sum(m - {k})
    decreases |m|
  {
    var c :| c in m && Sum(m) == m[c] + Sum(m - {c});
    if c != k {
      SumRemove(m - {c}, k);
      SumRemove(m - {k}, c);
      assert m - {c} - {k} == m - {k} - {c};
    }
  }

  lemma SumAdds(m: map<StreamKey, nat>, keys: set<StreamKey>, k: StreamKey)
    requires k in keys && k in m
    ensures Sum(m - (keys - {k})) == Sum(m - keys) + m[k]
  {
    SumRemove(m - (keys - {k}), k);
    assert m - (keys - {k}) - {k} == m - keys;
  }

  lemma SumEnds(m: map<StreamKey, nat>)
    ensures Sum(m - m.Keys) == 0 && Sum(m - {}) == Sum(m)
  {
    assert m - m.Keys == map[] && m - {} == m;
  }

  lemma SumUpdate(m: map<StreamKey, nat>, k: StreamKey, v: nat)
    requires k in m
    ensures Sum(m[k := v]) == Sum(m) - m[k] + v
  {
    SumRemove(m, k);
    SumRemove(m[k := v], k);
    assert m[k := v] - {k} == m - {k};
  }

  /** Progress is complete exactly when nothing is unfinished. */
  lemma {:induction false} SumCompares(a: map<StreamKey, nat>, b: map<StreamKey, nat>)
    requires a.Keys == b.Keys && forall k :: k in a ==> a[k] <= b[k]
    ensures Sum(a) <= Sum(b)
    ensures Sum(a) == Sum(b) <==> forall k :: k in a ==> a[k] == b[k]
    decreases |a|
  {
    if a != map[] {
      var k :| k in a;
      SumRemove(a, k);
      SumRemove(b, k);
      SumCompares(a - {k}, b - {k});
      assert forall x :: x in a && x != k ==> x in a - {k} && (a - {k})[x] == a[x] && (b - {k})[x] == b[x];
    } else {
      assert b == map[];
    }
  }

  ghost predicate Consistent(bars: Bars, indices: Indices, streams: map<StreamKey, Stream>) {
    && bars.Keys == indices.Keys && streams.Keys == indices.Keys
    && forall k :: k in indices ==> indices[k] <= |bars[k]|
  }

  ghost predicate Exhausted(bars: Bars, indices: Indices) {
    forall k :: !Unfinished(bars, indices, k)
  }

  lemma CountersAgree(bars: Bars, indices: Indices, streams: map<StreamKey, Stream>)
    requires Consistent(bars, indices, streams)
    ensures Sum(indices) >= Sum(Lengths(bars)) <==> Exhausted(bars, indices)
  {
    SumCompares(indices, Lengths(bars));
    if Exhausted(bars, indices) {
      forall k | k in indices ensures indices[k] == Lengths(bars)[k] { assert !Unfinished(bars, indices, k); }
    }
  }
}
