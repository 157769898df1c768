/** The backtest market scheduler: a heap-based merge of all registered streams. */
module Scheduler {
  import opened Basics
  import opened Streams
  import opened SchedulerSpec

  /** Entries in hand of one step: current, all due at `t`, in key order. */
  ghost predicate Collected(bars: Bars, indices: Indices, t: int, scheduled: seq<Entry>) {
    && (forall i :: 0 <= i < |scheduled| ==> IsCurrent(bars, indices, scheduled[i]) && scheduled[i].timestamp == t)
    && (forall i, j :: 0 <= i < j < |scheduled| ==> KeyBefore(scheduled[i].key, scheduled[j].key))
  }

  ghost function KeysOf(scheduled: seq<Entry>): set<StreamKey> {
    set i | 0 <= i < |scheduled| :: scheduled[i].key
  }

  ghost predicate After(last: Entry, x: Entry) {
    x.timestamp > last.timestamp || (x.timestamp == last.timestamp && KeyBefore(last.key, x.key))
  }

  /** What is left in the heap comes after the last entry taken. */
  ghost predicate Follows(heap: multiset<Entry>, last: Entry) {
    forall x {:trigger After(last, x)} :: x in heap ==> After(last, x)
  }

  lemma FollowsMin(heap: multiset<Entry>, bars: Bars, indices: Indices, out: set<StreamKey>, e: Entry)
    requires LazyHeap(heap, bars, indices, out) && IsMin(heap, e)
    ensures Follows(heap - multiset{e}, e)
  {
    forall x | x in heap - multiset{e}
      ensures After(e, x)
    {
      assert Alone(heap, out, e);
      assert x in heap && x != e;
      EntryTotal(x, e);
      KeyTotal(x.key, e.key);
    }
  }

  lemma Appended(bars: Bars, indices: Indices, t: int, scheduled: seq<Entry>, e: Entry)
    requires Collected(bars, indices, t, scheduled) && scheduled != [] && IsCurrent(bars, indices, e) && e.timestamp == t
    requires KeyBefore(scheduled[|scheduled| - 1].key, e.key)
    ensures Collected(bars, indices, t, scheduled + [e])
    ensures KeysOf(scheduled + [e]) == KeysOf(scheduled) + {e.key}
  {
    var longer := scheduled + [e];
    forall i | 0 <= i < |scheduled| ensures KeyBefore(longer[i].key, e.key) {
      if i < |scheduled| - 1 { KeyTransitive(scheduled[i].key, scheduled[|scheduled| - 1].key, e.key); }
    }
    assert longer[|scheduled|].key in KeysOf(longer);
    forall k | k in KeysOf(scheduled) + {e.key} ensures k in KeysOf(longer) {
      if k in KeysOf(scheduled) {
        var i :| 0 <= i < |scheduled| && scheduled[i].key == k;
        assert longer[i].key == k;
      }
    }
  }

  lemma OnlyFirst(bars: Bars, indices: Indices, first: Entry)
    requires IsCurrent(bars, indices, first)
    ensures KeysOf([first]) == {first.key} && Collected(bars, indices, first.timestamp, [first])
  {
    assert [first][0].key in KeysOf([first]);
  }

  /** Every stream due at `t` is in hand once later entries are all that is left. */
  lemma NothingMissed(heap: multiset<Entry>, bars: Bars, indices: Indices, t: int, scheduled: seq<Entry>)
    requires LazyHeap(heap, bars, indices, KeysOf(scheduled)) && Collected(bars, indices, t, scheduled)
    requires forall x {:trigger Later(t, x)} :: x in heap ==> Later(t, x)
    ensures forall k :: Unfinished(bars, indices, k) ==> t <= Due(bars, indices, k)
    ensures forall k :: Unfinished(bars, indices, k) && Due(bars, indices, k) == t ==> k in KeysOf(scheduled)
  {
    forall k | Unfinished(bars, indices, k)
      ensures t <= Due(bars, indices, k) && (Due(bars, indices, k) == t ==> k in KeysOf(scheduled))
    {
      if k !in KeysOf(scheduled) {
        assert Covered(heap, bars, indices, k);
        var e :| e in heap && e.key == k && e.timestamp <= Due(bars, indices, k);
        assert Later(t, e);
      }
    }
  }

  ghost predicate Later(t: int, x: Entry) { x.timestamp > t }

  lemma RestIsLater(heap: multiset<Entry>, last: Entry, e: Entry)
    requires Follows(heap, last) && IsMin(heap, e) && e.timestamp != last.timestamp
    ensures forall x {:trigger Later(last.timestamp, x)} :: x in heap ==> Later(last.timestamp, x)
  {
    assert After(last, e);
    forall x | x in heap ensures Later(last.timestamp, x) { assert After(last, x) && !EntryBefore(x, e); }
  }

  lemma TakenNext(heap: multiset<Entry>, bars: Bars, indices: Indices, t: int, scheduled: seq<Entry>, e: Entry)
    requires scheduled != [] && Collected(bars, indices, t, scheduled)
    requires LazyHeap(heap, bars, indices, KeysOf(scheduled)) && Follows(heap, scheduled[|scheduled| - 1])
    requires IsMin(heap, e) && IsCurrent(bars, indices, e) && e.timestamp == t
    ensures Collected(bars, indices, t, scheduled + [e]) && KeysOf(scheduled + [e]) == KeysOf(scheduled) + {e.key}
    ensures LazyHeap(heap - multiset{e}, bars, indices, KeysOf(scheduled + [e])) && Follows(heap - multiset{e}, e)
    ensures Stale(heap - multiset{e}, bars, indices) == Stale(heap, bars, indices)
  {
    assert After(scheduled[|scheduled| - 1], e);
    Appended(bars, indices, t, scheduled, e);
    PopCurrent(heap, bars, indices, KeysOf(scheduled), e);
    FollowsMin(heap, bars, indices, KeysOf(scheduled), e);
  }

  /** With one entry a stream, what is put back is never a duplicate. */
  lemma StaleOnly(heap: multiset<Entry>, bars: Bars, indices: Indices, keys: set<StreamKey>, e: Entry)
    requires LazyHeap(heap, bars, indices, keys) && e in heap
    requires !(IsCurrent(bars, indices, e) && e.key !in keys)
    ensures !IsCurrent(bars, indices, e)
  {
    assert Alone(heap, keys, e);
  }

  lemma RepushFollows(heap: multiset<Entry>, bars: Bars, indices: Indices, keys: set<StreamKey>, last: Entry, e: Entry)
    requires LazyHeap(heap, bars, indices, keys) && Follows(heap, last) && e in heap && !IsCurrent(bars, indices, e)
    ensures Follows(Pushed(heap - multiset{e}, bars, indices, e.key), last)
  {
    Withdrawn(heap, bars, indices, keys, e);
    assert After(last, e);
    forall x | x in Pushed(heap - multiset{e}, bars, indices, e.key) ensures After(last, x) {
      assert x in heap ==> After(last, x);
    }
  }

  /** The first pop: a current entry is the step's first, a stale one goes back. */
  lemma FirstPopped(heap: multiset<Entry>, bars: Bars, indices: Indices, e: Entry)
    requires LazyHeap(heap, bars, indices, {}) && IsMin(heap, e)
    ensures Follows(heap - multiset{e}, e)
    ensures IsCurrent(bars, indices, e) ==> LazyHeap(heap - multiset{e}, bars, indices, {e.key})
    ensures !IsCurrent(bars, indices, e) ==>
              var next := Pushed(heap - multiset{e}, bars, indices, e.key);
              LazyHeap(next, bars, indices, {}) && |Stale(next, bars, indices)| < |Stale(heap, bars, indices)|
    ensures AllCurrent(heap, bars, indices) ==> IsCurrent(bars, indices, e) && AllCurrent(heap - multiset{e}, bars, indices)
  {
    FollowsMin(heap, bars, indices, {}, e);
    if IsCurrent(bars, indices, e) {
      PopCurrent(heap, bars, indices, {}, e);
      assert {} + {e.key} == {e.key};
    } else {
      RepushStale(heap, bars, indices, {}, e);
    }
  }

  /** An entry that cannot be taken is stale; its stream goes back with its
      current bar, and less is stale. */
  lemma PutBack(heap: multiset<Entry>, bars: Bars, indices: Indices, keys: set<StreamKey>, last: Entry, e: Entry)
    requires LazyHeap(heap, bars, indices, keys) && Follows(heap, last) && e in heap
    requires !(IsCurrent(bars, indices, e) && e.key !in keys)
    ensures var next := Pushed(heap - multiset{e}, bars, indices, e.key);
            && LazyHeap(next, bars, indices, keys) && Follows(next, last)
            && |Stale(next, bars, indices)| < |Stale(heap, bars, indices)|
    ensures !AllCurrent(heap, bars, indices)
  {
    StaleOnly(heap, bars, indices, keys, e);
    RepushFollows(heap, bars, indices, keys, last, e);
    RepushStale(heap, bars, indices, keys, e);
  }

  // ----- building and advancing a step -----

  function AddEvent(step: Step, e: Event): Step {
    Step(step.timestamp, step.events + [e],
         if e.allowTrading && !e.isFeature then step.executionBars[e.key.symbol := e.bar] else step.executionBars,
         step.hasTradableEvents || e.allowTrading)
  }

  lemma AddExecutes(step: Step, e: Event, symbol: string)
    requires ExecutesOn(step.events, step.executionBars, symbol)
    ensures ExecutesOn(AddEvent(step, e).events, AddEvent(step, e).executionBars, symbol)
  {
    var events, n := step.events + [e], |step.events|;
    assert forall i :: 0 <= i < n ==> events[i] == step.events[i];
    if Executable(e, symbol) {
      assert LastFor(events, symbol, n);
    } else {
      forall i: int ensures LastFor(events, symbol, i) <==> LastFor(step.events, symbol, i) { }
    }
  }

  lemma AddTrades(step: Step, e: Event)
    requires Trades(step)
    ensures Trades(AddEvent(step, e))
  {
    var next := AddEvent(step, e);
    assert forall i :: 0 <= i < |step.events| ==> next.events[i] == step.events[i];
    assert next.events[|step.events|] == e;
    forall symbol ensures ExecutesOn(next.events, next.executionBars, symbol) { AddExecutes(step, e, symbol); }
  }

  ghost function EventKeys(events: seq<Event>): set<StreamKey> {
    set i | 0 <= i < |events| :: events[i].key
  }

  /** Events built from collected entries, entry by entry. */
  ghost predicate Built(bars: Bars, indices: Indices, streams: map<StreamKey, Stream>, t: int,
                        scheduled: seq<Entry>, events: seq<Event>) {
    && |events| <= |scheduled|
    && forall i :: 0 <= i < |events| ==>
         events[i].key == scheduled[i].key && EventOf(bars, indices, streams, t, events[i])
  }

  lemma BuiltMore(bars: Bars, indices: Indices, streams: map<StreamKey, Stream>, t: int, scheduled: seq<Entry>,
                  step: Step, event: Event)
    requires Built(bars, indices, streams, t, scheduled, step.events) && |step.events| < |scheduled| && Trades(step)
    requires event.key == scheduled[|step.events|].key && EventOf(bars, indices, streams, t, event)
    ensures Built(bars, indices, streams, t, scheduled, AddEvent(step, event).events) && Trades(AddEvent(step, event))
  {
    AddTrades(step, event);
  }

  lemma BuiltIsStep(heap: multiset<Entry>, bars: Bars, indices: Indices, streams: map<StreamKey, Stream>,
                    scheduled: seq<Entry>, step: Step)
    requires scheduled != [] && Collected(bars, indices, step.timestamp, scheduled)
    requires LazyHeap(heap, bars, indices, KeysOf(scheduled))
    requires forall x {:trigger Later(step.timestamp, x)} :: x in heap ==> Later(step.timestamp, x)
    requires Built(bars, indices, streams, step.timestamp, scheduled, step.events) && |step.events| == |scheduled|
    ensures IsStep(bars, indices, streams, step) && EventKeys(step.events) == KeysOf(scheduled)
  {
    NothingMissed(heap, bars, indices, step.timestamp, scheduled);
    forall k | k in KeysOf(scheduled) ensures HasKey(step.events, k) && k in EventKeys(step.events) {
      var i :| 0 <= i < |scheduled| && scheduled[i].key == k;
      assert step.events[i].key == k;
    }
    forall k | k in EventKeys(step.events) ensures k in KeysOf(scheduled) {
      var i :| 0 <= i < |step.events| && step.events[i].key == k;
      assert scheduled[i].key == k;
    }
  }

  lemma StepNotExhausted(bars: Bars, indices: Indices, streams: map<StreamKey, Stream>, step: Step)
    requires IsStep(bars, indices, streams, step)
    ensures !Exhausted(bars, indices)
  {
    assert EventOf(bars, indices, streams, step.timestamp, step.events[0]);
  }

  /** Every stream of the step moves one bar on. */
  ghost function Advanced(indices: Indices, events: seq<Event>): Indices {
    map k | k in indices :: if HasKey(events, k) then indices[k] + 1 else indices[k]
  }

  lemma AdvancedMore(indices: Indices, events: seq<Event>, i: nat)
    requires i < |events| && events[i].key in indices
    requires forall a, b :: 0 <= a < b < |events| ==> KeyBefore(events[a].key, events[b].key)
    ensures events[i].key !in EventKeys(events[..i]) && events[i].key in EventKeys(events)
    ensures events[i].key in Advanced(indices, events[..i])
    ensures Advanced(indices, events[..i])[events[i].key] == indices[events[i].key]
    ensures Advanced(indices, events[..i + 1]) == Advanced(indices, events[..i])[events[i].key := indices[events[i].key] + 1]
  {
    var k := events[i].key;
    forall j | 0 <= j < |events| && j != i ensures events[j].key != k { KeyTotal(events[j].key, k); }
    assert !HasKey(events[..i], k);
    assert events[..i + 1][i].key == k;
    forall x | x in indices && x != k ensures HasKey(events[..i + 1], x) == HasKey(events[..i], x) {
      if HasKey(events[..i], x) {
        var j :| 0 <= j < i && events[..i][j].key == x;
        assert events[..i + 1][j].key == x;
      }
    }
  }

  // ----- advancing over any list of events -----

  /** The position of one stream after an event of it, held at its end. */
  ghost function Bumped(bars: Bars, indices: Indices, k: StreamKey): Indices {
    if Unfinished(bars, indices, k) then indices[k := indices[k] + 1] else indices
  }

  ghost function AdvancedBy(bars: Bars, indices: Indices, events: seq<Event>): Indices {
    if events == [] then indices
    else Bumped(bars, AdvancedBy(bars, indices, events[..|events| - 1]), events[|events| - 1].key)
  }

  ghost function AdvancedHeap(heap: multiset<Entry>, bars: Bars, indices: Indices, events: seq<Event>): multiset<Entry> {
    if events == [] then heap
    else
      var n := |events| - 1;
      Pushed(AdvancedHeap(heap, bars, indices, events[..n]), bars, AdvancedBy(bars, indices, events), events[n].key)
  }

  /** One entry a stream, which is all the same-time loop needs to end. */
  ghost predicate Unique(heap: multiset<Entry>) {
    forall e, x {:trigger heap[e], heap[x]} :: e in heap && x in heap && e.key == x.key ==> e == x && heap[e] == 1
  }

  /** Each event is of a stream handed out and not yet taken back, or of one that
      then has no bar left to schedule. */
  ghost predicate HandedOut(bars: Bars, indices: Indices, out: set<StreamKey>, events: seq<Event>) {
    events == []
    || (var n := |events| - 1;
        && HandedOut(bars, indices, out, events[..n])
        && (events[n].key in out - EventKeys(events[..n])
            || !Unfinished(bars, AdvancedBy(bars, indices, events), events[n].key)))
  }

  lemma FitIsUnique(heap: multiset<Entry>, bars: Bars, indices: Indices, out: set<StreamKey>)
    requires LazyHeap(heap, bars, indices, out)
    ensures Unique(heap)
  {
    forall e, x | e in heap && x in heap && e.key == x.key ensures e == x && heap[e] == 1 { assert Alone(heap, out, e); }
  }

  lemma DuplicatesStay(heap: multiset<Entry>, more: multiset<Entry>)
    requires !Unique(heap) && heap <= more
    ensures !Unique(more)
  {
    var e, x :| e in heap && x in heap && e.key == x.key && !(e == x && heap[e] == 1);
    assert more[e] >= heap[e] && more[x] >= heap[x];
    assert e in more && x in more;
  }

  /** A stream that ends without having been handed out leaves its last entry
      behind, stale and alone. */
  lemma EndsInPlace(heap: multiset<Entry>, bars: Bars, indices: Indices, out: set<StreamKey>, k: StreamKey)
    requires LazyHeap(heap, bars, indices, out) && !Unfinished(bars, Bumped(bars, indices, k), k)
    ensures LazyHeap(heap, bars, Bumped(bars, indices, k), out)
  {
    var next := Bumped(bars, indices, k);
    forall x | Unfinished(bars, next, x) && x !in out ensures Covered(heap, bars, next, x) {
      assert Covered(heap, bars, indices, x);
    }
  }

  /** A stream that was not handed out gets a second entry. */
  lemma SecondEntry(heap: multiset<Entry>, bars: Bars, indices: Indices, out: set<StreamKey>, k: StreamKey)
    requires LazyHeap(heap, bars, indices, out) && k !in out && Unfinished(bars, Bumped(bars, indices, k), k)
    ensures !Unique(Pushed(heap, bars, Bumped(bars, indices, k), k))
  {
    var next := Bumped(bars, indices, k);
    assert Covered(heap, bars, indices, k);
    var e :| e in heap && e.key == k && e.timestamp <= Due(bars, indices, k);
    var more := Pushed(heap, bars, next, k);
    var x := Current(bars, next, k);
    assert x in more && e in more;
    assert e == x ==> more[e] > 1;
  }

  /** Whether the heap stays fit after one event, both ways. */
  lemma EventFits(heap: multiset<Entry>, bars: Bars, indices: Indices, out: set<StreamKey>, k: StreamKey)
    requires LazyHeap(heap, bars, indices, out)
    ensures var next := Bumped(bars, indices, k);
            var more := Pushed(heap, bars, next, k);
            && (if k in out || !Unfinished(bars, next, k) then LazyHeap(more, bars, next, out - {k}) else !Unique(more))
            && (k in out && AllCurrent(heap, bars, indices) ==> AllCurrent(more, bars, next))
  {
    var next := Bumped(bars, indices, k);
    if k in out {
      if Unfinished(bars, indices, k) { Moved(heap, bars, indices, out, k, indices[k] + 1); }
      Scheduled(heap, bars, next, out, k);
      if AllCurrent(heap, bars, indices) { ScheduledCurrent(heap, bars, next, k); }
    } else if !Unfinished(bars, next, k) {
      EndsInPlace(heap, bars, indices, out, k);
      assert out - {k} == out;
    } else {
      SecondEntry(heap, bars, indices, out, k);
    }
  }

  /** What the loop knows of the heap after some of the events. */
  ghost predicate Advancing(heap: multiset<Entry>, bars: Bars, start: Indices, out: set<StreamKey>, done: seq<Event>) {
    if HandedOut(bars, start, out, done)
    then LazyHeap(heap, bars, AdvancedBy(bars, start, done), out - EventKeys(done))
    else !Unique(heap)
  }

  lemma EventKeysMore(events: seq<Event>, i: nat)
    requires i < |events|
    ensures EventKeys(events[..i + 1]) == EventKeys(events[..i]) + {events[i].key}
    ensures events[..i + 1][..i] == events[..i]
  {
    forall k | k in EventKeys(events[..i]) + {events[i].key} ensures k in EventKeys(events[..i + 1]) {
      if k in EventKeys(events[..i]) {
        var j :| 0 <= j < i && events[..i][j].key == k;
        assert events[..i + 1][j].key == k;
      } else {
        assert events[..i + 1][i].key == k;
      }
    }
  }

  lemma AdvancingMore(heap: multiset<Entry>, bars: Bars, start: Indices, out: set<StreamKey>, events: seq<Event>, i: nat)
    requires i < |events| && Advancing(heap, bars, start, out, events[..i])
    ensures AdvancedBy(bars, start, events[..i + 1]) == Bumped(bars, AdvancedBy(bars, start, events[..i]), events[i].key)
    ensures Advancing(Pushed(heap, bars, AdvancedBy(bars, start, events[..i + 1]), events[i].key),
                      bars, start, out, events[..i + 1])
  {
    var now, k := AdvancedBy(bars, start, events[..i]), events[i].key;
    EventKeysMore(events, i);
    if HandedOut(bars, start, out, events[..i]) {
      EventFits(heap, bars, now, out - EventKeys(events[..i]), k);
      assert out - EventKeys(events[..i]) - {k} == out - EventKeys(events[..i + 1]);
    } else {
      DuplicatesStay(heap, Pushed(heap, bars, Bumped(bars, now, k), k));
    }
  }

  lemma BumpedSum(bars: Bars, indices: Indices, streams: map<StreamKey, Stream>, k: StreamKey)
    requires Consistent(bars, indices, streams)
    ensures Consistent(bars, Bumped(bars, indices, k), streams)
    ensures Sum(Bumped(bars, indices, k)) == Sum(indices) + if Unfinished(bars, indices, k) then 1 else 0
  {
    if Unfinished(bars, indices, k) { SumUpdate(indices, k, indices[k] + 1); }
  }

  lemma TakenBack(bars: Bars, indices: Indices, out: set<StreamKey>, events: seq<Event>, i: nat)
    requires i < |events| && HandedOut(bars, indices, out, events[..i]) && events[i].key in out - EventKeys(events[..i])
    ensures HandedOut(bars, indices, out, events[..i + 1])
  {
    assert events[..i + 1][..i] == events[..i];
  }

  lemma BumpedIsAdvanced(bars: Bars, indices: Indices, streams: map<StreamKey, Stream>, step: Step, i: nat)
    requires IsStep(bars, indices, streams, step) && i < |step.events|
    ensures Bumped(bars, Advanced(indices, step.events[..i]), step.events[i].key) == Advanced(indices, step.events[..i + 1])
    ensures step.events[i].key in EventKeys(step.events) - EventKeys(step.events[..i])
  {
    assert EventOf(bars, indices, streams, step.timestamp, step.events[i]);
    AdvancedMore(indices, step.events, i);
  }

  lemma AdvancedByMore(heap: multiset<Entry>, bars: Bars, indices: Indices, events: seq<Event>, i: nat)
    requires i < |events|
    ensures AdvancedBy(bars, indices, events[..i + 1]) == Bumped(bars, AdvancedBy(bars, indices, events[..i]), events[i].key)
    ensures AdvancedHeap(heap, bars, indices, events[..i + 1])
            == Pushed(AdvancedHeap(heap, bars, indices, events[..i]), bars, AdvancedBy(bars, indices, events[..i + 1]),
                      events[i].key)
  {
    assert events[..i + 1][..i] == events[..i];
  }

  /** The step handed out is taken back event by event. */
  lemma {:induction false} StepIsHandedOut(bars: Bars, indices: Indices, streams: map<StreamKey, Stream>, step: Step, i: nat)
    requires IsStep(bars, indices, streams, step) && i <= |step.events|
    ensures HandedOut(bars, indices, EventKeys(step.events), step.events[..i])
    ensures AdvancedBy(bars, indices, step.events[..i]) == Advanced(indices, step.events[..i])
    decreases i
  {
    if i == 0 {
      assert Advanced(indices, step.events[..0]) == indices;
    } else {
      StepIsHandedOut(bars, indices, streams, step, i - 1);
      BumpedIsAdvanced(bars, indices, streams, step, i - 1);
      AdvancedByMore(multiset{}, bars, indices, step.events, i - 1);
      TakenBack(bars, indices, EventKeys(step.events), step.events, i - 1);
    }
  }

  lemma StepTakenBack(bars: Bars, indices: Indices, streams: map<StreamKey, Stream>, step: Step)
    requires IsStep(bars, indices, streams, step)
    ensures HandedOut(bars, indices, EventKeys(step.events), step.events)
    ensures AdvancedBy(bars, indices, step.events) == Advanced(indices, step.events)
    ensures EventKeys(step.events) - EventKeys(step.events) == {}
  {
    StepIsHandedOut(bars, indices, streams, step, |step.events|);
    assert step.events[..|step.events|] == step.events;
  }

  /** The next event of the step handed out leaves every entry current. */
  lemma StepStaysCurrent(heap: multiset<Entry>, bars: Bars, start: Indices, streams: map<StreamKey, Stream>, step: Step,
                         i: nat)
    requires IsStep(bars, start, streams, step) && i < |step.events|
    requires Advancing(heap, bars, start, EventKeys(step.events), step.events[..i])
    requires AllCurrent(heap, bars, AdvancedBy(bars, start, step.events[..i]))
    ensures var next := AdvancedBy(bars, start, step.events[..i + 1]);
            AllCurrent(Pushed(heap, bars, next, step.events[i].key), bars, next)
  {
    StepIsHandedOut(bars, start, streams, step, i);
    BumpedIsAdvanced(bars, start, streams, step, i);
    AdvancedByMore(heap, bars, start, step.events, i);
    EventFits(heap, bars, AdvancedBy(bars, start, step.events[..i]), EventKeys(step.events) - EventKeys(step.events[..i]),
              step.events[i].key);
  }

  /** All the loop over a step's events knows, carried over one event. */
  lemma NextEvent(heap: multiset<Entry>, first: multiset<Entry>, bars: Bars, start: Indices,
                  streams: map<StreamKey, Stream>, out: set<StreamKey>, step: Step, i: nat, initialized: bool, proper: bool)
    requires i < |step.events| && heap == AdvancedHeap(first, bars, start, step.events[..i])
    requires initialized ==> Advancing(heap, bars, start, out, step.events[..i])
    requires proper ==> && initialized && IsStep(bars, start, streams, step) && out == EventKeys(step.events)
                        && AllCurrent(heap, bars, AdvancedBy(bars, start, step.events[..i]))
    ensures var next := AdvancedBy(bars, start, step.events[..i + 1]);
            var more := Pushed(heap, bars, next, step.events[i].key);
            && next == Bumped(bars, AdvancedBy(bars, start, step.events[..i]), step.events[i].key)
            && more == AdvancedHeap(first, bars, start, step.events[..i + 1])
            && (initialized ==> Advancing(more, bars, start, out, step.events[..i + 1]))
            && (proper ==> AllCurrent(more, bars, next))
  {
    if initialized { AdvancingMore(heap, bars, start, out, step.events, i); }
    if proper { StepStaysCurrent(heap, bars, start, streams, step, i); }
    AdvancedByMore(first, bars, start, step.events, i);
  }

  lemma NothingAdvanced(heap: multiset<Entry>, bars: Bars, start: Indices, out: set<StreamKey>, events: seq<Event>)
    requires LazyHeap(heap, bars, start, out) && events == []
    ensures Advancing(heap, bars, start, out, events)
  {
    assert out - EventKeys(events) == out;
  }

  /** After all events: the heap is fit exactly when they were handed out. */
  lemma AllAdvanced(heap: multiset<Entry>, bars: Bars, start: Indices, out: set<StreamKey>, events: seq<Event>)
    requires Advancing(heap, bars, start, out, events)
    ensures var now, left := AdvancedBy(bars, start, events), out - EventKeys(events);
            LazyHeap(heap, bars, now, left) <==> HandedOut(bars, start, out, events)
    ensures HandedOut(bars, start, out, events) || !Unique(heap)
  {
    var now, left := AdvancedBy(bars, start, events), out - EventKeys(events);
    if LazyHeap(heap, bars, now, left) { FitIsUnique(heap, bars, now, left); }
  }

  lemma NothingScheduled(bars: Bars, indices: Indices, keys: set<StreamKey>)
    requires keys == indices.Keys
    ensures LazyHeap(multiset{}, bars, indices, keys) && AllCurrent(multiset{}, bars, indices)
  {
  }

  class BacktestState {
    var bars: Bars
    var indices: Indices
    var streams: map<StreamKey, Stream>
    var heap: multiset<Entry>
    var initialized: bool
    var total: nat
    var processed: nat
    var currentTime: int
    /** Streams of the step handed out and not yet advanced. */
    ghost var out: set<StreamKey>

    ghost predicate Valid()
      reads this
    {
      && Consistent(bars, indices, streams)
      && (initialized ==>
            LazyHeap(heap, bars, indices, out) && total == Sum(Lengths(bars)) && processed == Sum(indices))
      && (!initialized ==> out == {})
    }

    /** No stale entry is ever left behind between steps. */
    ghost predicate Fresh()
      reads this
    {
      initialized ==> AllCurrent(heap, bars, indices)
    }

    constructor ()
      ensures Valid() && Fresh() && indices == map[] && out == {}
    {
      bars, indices, streams := map[], map[], map[];
      heap, initialized, total, processed, currentTime := multiset{}, false, 0, 0, 0;
      out := {};
    }

    /** Loading restarts that stream and forgets the schedule, and with it the
        step that may be out. */
    method Load(k: StreamKey, stream: Stream, newBars: seq<Bar>)
      requires Valid()
      modifies this
      ensures Valid() && Fresh() && out == {} && !initialized
      ensures bars == old(bars)[k := newBars] && indices == old(indices)[k := 0] && streams == old(streams)[k := stream]
    {
      indices := indices[k := 0];
      bars := bars[k := newBars];
      streams := streams[k := stream];
      heap := multiset{};
      initialized := false;
      out := {};
    }

    method Schedule(k: StreamKey)
      modifies `heap
      ensures heap == Pushed(old(heap), bars, indices, k)
    {
      if k !in indices { return; }
      if k !in bars || indices[k] >= |bars[k]| { return; }
      heap := heap + multiset{Entry(bars[k][indices[k]].timestamp, k, indices[k])};
    }

    method PeekMin() returns (e: Entry)
      requires |heap| > 0
      ensures IsMin(heap, e)
    {
      MinExists(heap);
      e :| e in heap && IsMin(heap, e);
    }

    method CountBars() returns (all: nat, done: nat)
      requires Consistent(bars, indices, streams)
      ensures all == Sum(Lengths(bars)) && done == Sum(indices)
    {
      all, done := 0, 0;
      var keys := indices.Keys;
      ghost var lengths := Lengths(bars);
      SumEnds(lengths);
      SumEnds(indices);
      while keys != {}
        invariant keys <= indices.Keys
        invariant all == Sum(lengths - keys) && done == Sum(indices - keys)
        decreases |keys|
      {
        var k :| k in keys;
        SumAdds(lengths, keys, k);
        SumAdds(indices, keys, k);
        all := all + |bars[k]|;
        done := done + if indices[k] < |bars[k]| then indices[k] else |bars[k]|;
        keys := keys - {k};
      }
    }

    method ScheduleAll()
      requires Consistent(bars, indices, streams) && heap == multiset{}
      modifies `heap
      ensures LazyHeap(heap, bars, indices, {}) && AllCurrent(heap, bars, indices)
    {
      var keys := indices.Keys;
      NothingScheduled(bars, indices, keys);
      while keys != {}
        invariant LazyHeap(heap, bars, indices, keys) && AllCurrent(heap, bars, indices)
        decreases |keys|
      {
        var k :| k in keys;
        Scheduled(heap, bars, indices, keys, k);
        ScheduledCurrent(heap, bars, indices, k);
        Schedule(k);
        keys := keys - {k};
      }
    }

    /** Sets up the heap and the counters once per set of loaded streams. */
    method Initialize()
      requires Valid()
      modifies `heap, `initialized, `total, `processed
      ensures Valid() && initialized
      ensures old(Fresh()) ==> Fresh()
    {
      if initialized { return; }
      heap := multiset{};
      total, processed := CountBars();
      ScheduleAll();
      initialized := true;
    }

    /** Pops stale entries until a current one comes up. */
    method TakeFirst() returns (first: Option<Entry>)
      requires LazyHeap(heap, bars, indices, {})
      modifies `heap
      ensures first.None? ==> Exhausted(bars, indices) && LazyHeap(heap, bars, indices, {})
      ensures first.Some? ==> IsCurrent(bars, indices, first.value) && Follows(heap, first.value)
      ensures first.Some? ==> LazyHeap(heap, bars, indices, {first.value.key})
      ensures old(AllCurrent(heap, bars, indices)) ==> AllCurrent(heap, bars, indices)
    {
      while |heap| > 0
        invariant LazyHeap(heap, bars, indices, {})
        invariant old(AllCurrent(heap, bars, indices)) ==> AllCurrent(heap, bars, indices)
        decreases |Stale(heap, bars, indices)|
      {
        var e := PeekMin();
        FirstPopped(heap, bars, indices, e);
        heap := heap - multiset{e};
        if IsCurrent(bars, indices, e) { return Some(e); }
        Schedule(e.key);
      }
      EmptyMeansExhausted(heap, bars, indices);
      return None;
    }

    /** Everything else due at the first entry's time, still in heap order. */
    method TakeSame(first: Entry) returns (scheduled: seq<Entry>)
      requires IsCurrent(bars, indices, first) && Follows(heap, first) && LazyHeap(heap, bars, indices, {first.key})
      modifies `heap
      ensures scheduled != [] && Collected(bars, indices, first.timestamp, scheduled)
      ensures LazyHeap(heap, bars, indices, KeysOf(scheduled))
      ensures forall x {:trigger Later(first.timestamp, x)} :: x in heap ==> Later(first.timestamp, x)
      ensures old(AllCurrent(heap, bars, indices)) ==> AllCurrent(heap, bars, indices)
    {
      var t := first.timestamp;
      var keys := {first.key};
      scheduled := [first];
      OnlyFirst(bars, indices, first);
      while |heap| > 0
        invariant scheduled != [] && keys == KeysOf(scheduled) && Collected(bars, indices, t, scheduled)
        invariant LazyHeap(heap, bars, indices, keys) && Follows(heap, scheduled[|scheduled| - 1])
        invariant old(AllCurrent(heap, bars, indices)) ==> AllCurrent(heap, bars, indices)
        decreases |Stale(heap, bars, indices)|, |heap|
      {
        var e := PeekMin();
        if e.timestamp != t {
          RestIsLater(heap, scheduled[|scheduled| - 1], e);
          return;
        }
        if IsCurrent(bars, indices, e) && e.key !in keys {
          TakenNext(heap, bars, indices, t, scheduled, e);
          heap := heap - multiset{e};
          keys, scheduled := keys + {e.key}, scheduled + [e];
        } else {
          PutBack(heap, bars, indices, keys, scheduled[|scheduled| - 1], e);
          heap := heap - multiset{e};
          Schedule(e.key);
        }
      }
    }

    method Build(t: int, scheduled: seq<Entry>) returns (step: Step)
      requires Consistent(bars, indices, streams) && Collected(bars, indices, t, scheduled)
      ensures step.timestamp == t && |step.events| == |scheduled| && Trades(step)
      ensures Built(bars, indices, streams, t, scheduled, step.events)
    {
      step := Step(t, [], map[], false);
      for i := 0 to |scheduled|
        invariant step.timestamp == t && |step.events| == i && Trades(step)
        invariant Built(bars, indices, streams, t, scheduled, step.events)
      {
        var e := scheduled[i];
        assert IsCurrent(bars, indices, e) && e.timestamp == t;
        if e.key in bars && e.index < |bars[e.key]| && bars[e.key][e.index].timestamp == t && e.key in streams {
          var event := Event(e.key, streams[e.key].isFeature, streams[e.key].allowTrading, t, bars[e.key][e.index]);
          BuiltMore(bars, indices, streams, t, scheduled, step, event);
          step := AddEvent(step, event);
        }
      }
    }

    /** The entries of the next step; none exactly when nothing is left. */
    method Collect() returns (scheduled: seq<Entry>)
      requires LazyHeap(heap, bars, indices, {})
      modifies `heap
      ensures scheduled == [] ==> Exhausted(bars, indices)
      ensures scheduled != [] ==> Collected(bars, indices, scheduled[0].timestamp, scheduled)
      ensures scheduled != [] ==>
                forall x {:trigger Later(scheduled[0].timestamp, x)} :: x in heap ==> Later(scheduled[0].timestamp, x)
      ensures LazyHeap(heap, bars, indices, KeysOf(scheduled))
      ensures old(AllCurrent(heap, bars, indices)) ==> AllCurrent(heap, bars, indices)
    {
      var first := TakeFirst();
      if first.None? {
        assert KeysOf([]) == {};
        return [];
      }
      scheduled := TakeSame(first.value);
    }

    /** The next step, or `None` exactly when every stream is exhausted. */
    method Next() returns (r: Option<Step>)
      requires Valid() && out == {}
      modifies `heap, `initialized, `total, `processed, `currentTime, `out
      ensures Valid() && initialized
      ensures r.None? <==> Exhausted(bars, indices)
      ensures r.None? ==> out == {} && currentTime == old(currentTime)
      ensures r.Some? ==> IsStep(bars, indices, streams, r.value) && Trades(r.value)
      ensures r.Some? ==> out == EventKeys(r.value.events) && currentTime == r.value.timestamp
      ensures old(Fresh()) ==> Fresh()
    {
      Initialize();
      var scheduled := Collect();
      out := KeysOf(scheduled);
      if scheduled == [] { return None; }
      currentTime := scheduled[0].timestamp;
      var step := Build(currentTime, scheduled);
      BuiltIsStep(heap, bars, indices, streams, scheduled, step);
      StepNotExhausted(bars, indices, streams, step);
      return Some(step);
    }

    method AdvanceStream(k: StreamKey)
      requires Consistent(bars, indices, streams)
      modifies `indices, `processed, `heap
      ensures indices == Bumped(bars, old(indices), k) && Consistent(bars, indices, streams)
      ensures heap == Pushed(old(heap), bars, indices, k)
      ensures processed - Sum(indices) == old(processed) - Sum(old(indices))
    {
      BumpedSum(bars, indices, streams, k);
      if k in indices && indices[k] < |bars[k]| {
        indices := indices[k := indices[k] + 1];
        processed := processed + 1;
      }
      Schedule(k);
    }

    /** The loop over a step's events; `proper` says it is the step handed out. */
    method AdvanceAll(step: Step, ghost proper: bool)
      requires Valid()
      requires proper ==> && initialized && IsStep(bars, indices, streams, step) && out == EventKeys(step.events)
                          && AllCurrent(heap, bars, indices)
      modifies `indices, `processed, `heap
      ensures indices == AdvancedBy(bars, old(indices), step.events) && Consistent(bars, indices, streams)
      ensures heap == AdvancedHeap(old(heap), bars, old(indices), step.events)
      ensures processed - Sum(indices) == old(processed) - Sum(old(indices))
      ensures initialized ==> Advancing(heap, bars, old(indices), out, step.events)
      ensures proper ==> AllCurrent(heap, bars, indices)
    {
      ghost var events, start := step.events, indices;
      if initialized { NothingAdvanced(heap, bars, start, out, events[..0]); }
      for i := 0 to |step.events|
        invariant Consistent(bars, indices, streams) && indices == AdvancedBy(bars, start, events[..i])
        invariant heap == AdvancedHeap(old(heap), bars, start, events[..i])
        invariant processed - Sum(indices) == old(processed) - Sum(start)
        invariant initialized ==> Advancing(heap, bars, start, out, events[..i])
        invariant proper ==> AllCurrent(heap, bars, indices)
      {
        NextEvent(heap, old(heap), bars, start, streams, out, step, i, initialized, proper);
        AdvanceStream(step.events[i].key);
      }
      assert events[..|events|] == events;
    }

    /** Consumes a step. The step just handed out is taken back whole; any other
        keeps the schedule fit exactly when its streams are out, or end. */
    method Advance(step: Step)
      requires Valid()
      modifies `indices, `processed, `heap, `out
      ensures indices == AdvancedBy(bars, old(indices), step.events) && Consistent(bars, indices, streams)
      ensures out == old(out) - EventKeys(step.events) && heap == AdvancedHeap(old(heap), bars, old(indices), step.events)
      ensures Valid() <==> !initialized || HandedOut(bars, old(indices), old(out), step.events)
      ensures !Valid() ==> !Unique(heap)
      ensures initialized && IsStep(bars, old(indices), streams, step) && old(out) == EventKeys(step.events) ==>
                Valid() && out == {} && indices == Advanced(old(indices), step.events) && (old(Fresh()) ==> Fresh())
    {
      ghost var start, out0 := indices, out;
      ghost var handed := initialized && IsStep(bars, start, streams, step) && out == EventKeys(step.events);
      AdvanceAll(step, handed && Fresh());
      out := out - EventKeys(step.events);
      if initialized { AllAdvanced(heap, bars, start, out0, step.events); }
      if handed { StepTakenBack(bars, start, streams, step); }
    }

    /** Cached counters and full scan give the same answer. */
    method IsComplete() returns (done: bool)
      requires Valid()
      ensures done <==> Exhausted(bars, indices)
    {
      CountersAgree(bars, indices, streams);
      if initialized { return processed >= total; }
      return forall k :: k in indices ==> !Unfinished(bars, indices, k);
    }

    /** One round of the replay loop: look, hand out, execute, advance. */
    method StepStreams() returns (r: Option<Step>)
      requires Valid() && out == {}
      modifies `heap, `initialized, `total, `processed, `currentTime, `out, `indices
      ensures Valid() && out == {}
      ensures r.None? <==> Exhausted(bars, old(indices))
      ensures r.None? ==> indices == old(indices)
      ensures r.Some? ==> IsStep(bars, old(indices), streams, r.value) && Trades(r.value)
      ensures r.Some? ==> indices == Advanced(old(indices), r.value.events) && initialized
      ensures old(Fresh()) ==> Fresh()
    {
      var done := IsComplete();
      if done { return None; }
      r := Next();
      if r.Some? { Advance(r.value); }
    }
  }
}
