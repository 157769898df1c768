/** A loop as repeated rounds; `None` is its end. */
module Rounds {
  import opened Basics

  ghost function Iterate<S(!new)>(round: S -> Option<S>, s: S, n: nat): Option<S> {
    if n == 0 then Some(s)
    else
      var before := Iterate(round, s, n - 1);
      if before.None? then None else round(before.value)
  }

  ghost predicate Ends<S(!new)>(round: S -> Option<S>, s: S) {
    exists n :: Iterate(round, s, n).None?
  }

  lemma {:induction false} FirstThenRest<S(!new)>(round: S -> Option<S>, s: S, n: nat)
    requires round(s).Some?
    ensures Iterate(round, round(s).value, n) == Iterate(round, s, n + 1)
  {
    if n == 0 {
      assert Iterate(round, s, 0) == Some(s);
    } else {
      FirstThenRest(round, s, n - 1);
    }
  }

  lemma {:induction false} Keeps<S(!new)>(round: S -> Option<S>, keeps: S -> bool, s: S, n: nat)
    requires keeps(s) && forall r :: keeps(r) && round(r).Some? ==> keeps(round(r).value)
    ensures Iterate(round, s, n).Some? ==> keeps(Iterate(round, s, n).value)
  {
    if n > 0 { Keeps(round, keeps, s, n - 1); }
  }

  /** A loop that ends has a last state. */
  lemma {:induction false} LastState<S(!new)>(round: S -> Option<S>, s: S, n: nat) returns (m: nat)
    requires Iterate(round, s, n).None?
    ensures Iterate(round, s, m).Some? && round(Iterate(round, s, m).value).None?
  {
    if Iterate(round, s, n - 1).None? { m := LastState(round, s, n - 1); } else { m := n - 1; }
  }

  /** A loop that keeps a condition under which it goes on never ends. */
  lemma {:induction false} GoesOn<S(!new)>(round: S -> Option<S>, keeps: S -> bool, s: S, n: nat)
    requires keeps(s) && forall r :: keeps(r) ==> round(r).Some? && keeps(round(r).value)
    ensures Iterate(round, s, n).Some? && keeps(Iterate(round, s, n).value)
  {
    if n > 0 { GoesOn(round, keeps, s, n - 1); }
  }

  lemma NeverEnds<S(!new)>(round: S -> Option<S>, keeps: S -> bool, s: S)
    requires keeps(s) && forall r :: keeps(r) ==> round(r).Some? && keeps(round(r).value)
    ensures !Ends(round, s)
  {
    forall n: nat ensures Iterate(round, s, n).Some? { GoesOn(round, keeps, s, n); }
  }

  /** A loop that keeps a condition and counts something down ends. */
  lemma {:induction false} ComesToEnd<S(!new)>(round: S -> Option<S>, keeps: S -> bool, left: S -> nat, s: S)
    returns (n: nat)
    requires keeps(s)
    requires forall r :: keeps(r) && round(r).Some? ==> keeps(round(r).value) && left(round(r).value) < left(r)
    ensures Iterate(round, s, n).None?
    decreases left(s)
  {
    if round(s).None? {
      assert Iterate(round, s, 0) == Some(s);
      n := 1;
    } else {
      var m := ComesToEnd(round, keeps, left, round(s).value);
      FirstThenRest(round, s, m);
      n := m + 1;
    }
  }
}

/** The two loops that look for a step, round by round, so that one can also say
    of them that they never end. */
module SchedulerLoops {
  import opened Basics
  import opened Rounds
  import opened Streams
  import opened SchedulerSpec

  /** What a pop yields. */
  ghost function Least(heap: multiset<Entry>): (e: Entry)
    requires |heap| > 0
    ensures IsMin(heap, e)
  {
    MinExists(heap);
    var e :| IsMin(heap, e);
    e
  }

  // ----- counting entries, copies included -----

  ghost function Copies(heap: multiset<Entry>, f: Entry -> bool): set<(Entry, nat)> {
    set e, i | e in heap && 0 <= i < heap[e] && f(e) :: (e, i)
  }

  ghost function Count(heap: multiset<Entry>, f: Entry -> bool): nat { |Copies(heap, f)| }

  lemma CountAdded(heap: multiset<Entry>, e: Entry, f: Entry -> bool)
    ensures Count(heap + multiset{e}, f) == Count(heap, f) + if f(e) then 1 else 0
  {
    var more := heap + multiset{e};
    assert Copies(more, f) == Copies(heap, f) + if f(e) then {(e, heap[e])} else {};
  }

  lemma CountRemoved(heap: multiset<Entry>, e: Entry, f: Entry -> bool)
    requires e in heap
    ensures Count(heap, f) == Count(heap - multiset{e}, f) + if f(e) then 1 else 0
  {
    CountAdded(heap - multiset{e}, e, f);
    assert heap - multiset{e} + multiset{e} == heap;
  }

  /** An entry replaced by its stream's current one, if there is one. */
  lemma CountReplaced(heap: multiset<Entry>, bars: Bars, indices: Indices, e: Entry, f: Entry -> bool)
    requires e in heap
    ensures Count(Pushed(heap - multiset{e}, bars, indices, e.key), f) + (if f(e) then 1 else 0)
            == Count(heap, f) + if Unfinished(bars, indices, e.key) && f(Current(bars, indices, e.key)) then 1 else 0
  {
    CountRemoved(heap, e, f);
    if Unfinished(bars, indices, e.key) { CountAdded(heap - multiset{e}, Current(bars, indices, e.key), f); }
  }

  // ----- the search for the first entry -----

  datatype Search = Nothing | Found(e: Entry, rest: multiset<Entry>) | Again(heap: multiset<Entry>)

  ghost function FirstRound(bars: Bars, indices: Indices, heap: multiset<Entry>): Search {
    if |heap| == 0 then Nothing
    else
      var e := Least(heap);
      if IsCurrent(bars, indices, e) then Found(e, heap - multiset{e})
      else Again(Pushed(heap - multiset{e}, bars, indices, e.key))
  }

  ghost function SearchLoop(bars: Bars, indices: Indices): multiset<Entry> -> Option<multiset<Entry>> {
    heap => if FirstRound(bars, indices, heap).Again? then Some(FirstRound(bars, indices, heap).heap) else None
  }

  ghost predicate FindsAfter(bars: Bars, indices: Indices, heap: multiset<Entry>, n: nat, e: Entry, rest: multiset<Entry>) {
    var h := Iterate(SearchLoop(bars, indices), heap, n);
    h.Some? && FirstRound(bars, indices, h.value) == Found(e, rest)
  }

  /** The search ends with this entry and leaves that heap. */
  ghost predicate Finds(bars: Bars, indices: Indices, heap: multiset<Entry>, e: Entry, rest: multiset<Entry>) {
    exists n :: FindsAfter(bars, indices, heap, n, e, rest)
  }

  /** Whatever the heap holds, the search ends: each round rids it of a stale entry. */
  lemma SearchEnds(bars: Bars, indices: Indices, heap: multiset<Entry>)
    ensures Ends(SearchLoop(bars, indices), heap)
  {
    var round, stale := SearchLoop(bars, indices), (e: Entry) => !IsCurrent(bars, indices, e);
    var keeps, left := (h: multiset<Entry>) => true, (h: multiset<Entry>) => Count(h, stale);
    forall h | keeps(h) && round(h).Some? ensures keeps(round(h).value) && left(round(h).value) < left(h) {
      CountReplaced(h, bars, indices, Least(h), stale);
    }
    var n := ComesToEnd(round, keeps, left, heap);
  }

  // ----- the collection of everything due at the same time -----

  /** The heap and the streams collected so far. */
  datatype Rest = Rest(heap: multiset<Entry>, keys: set<StreamKey>)

  /** One round; `None` when nothing of this time is left on top. */
  ghost function SameRound(bars: Bars, indices: Indices, t: int, s: Rest): Option<Rest> {
    if |s.heap| == 0 then None
    else
      var e := Least(s.heap);
      if e.timestamp != t then None
      else if IsCurrent(bars, indices, e) && e.key !in s.keys then Some(Rest(s.heap - multiset{e}, s.keys + {e.key}))
      else Some(Rest(Pushed(s.heap - multiset{e}, bars, indices, e.key), s.keys))
  }

  ghost function SameLoop(bars: Bars, indices: Indices, t: int): Rest -> Option<Rest> {
    s => SameRound(bars, indices, t, s)
  }

  // ----- when it ends -----

  /** An entry of this time that the loop cannot get rid of: it is current, and
      there is it and one more, in the heap or already collected. */
  ghost predicate Stuck(bars: Bars, indices: Indices, t: int, s: Rest, e: Entry) {
    && e in s.heap && e.timestamp == t && IsCurrent(bars, indices, e)
    && s.heap[e] + (if e.key in s.keys then 1 else 0) >= 2
  }

  /** Nothing in the heap is earlier, and what is stale at this time belongs to a
      stream that is over or due later. */
  ghost predicate Settled(bars: Bars, indices: Indices, t: int, s: Rest) {
    forall x :: x in s.heap ==>
      && x.timestamp >= t
      && (x.timestamp == t && !IsCurrent(bars, indices, x) ==>
            Unfinished(bars, indices, x.key) ==> Due(bars, indices, x.key) > t)
  }

  lemma SettledRound(bars: Bars, indices: Indices, t: int, s: Rest)
    requires Settled(bars, indices, t, s) && SameRound(bars, indices, t, s).Some?
    ensures Settled(bars, indices, t, SameRound(bars, indices, t, s).value)
  {
  }

  lemma StuckRound(bars: Bars, indices: Indices, t: int, s: Rest, e: Entry)
    requires Settled(bars, indices, t, s) && Stuck(bars, indices, t, s, e)
    ensures SameRound(bars, indices, t, s).Some? && Stuck(bars, indices, t, SameRound(bars, indices, t, s).value, e)
  {
    var m := Least(s.heap);
    assert !EntryBefore(e, m);
  }

  ghost function AtTime(t: int): Entry -> bool { (e: Entry) => e.timestamp == t }

  ghost predicate NoneStuck(bars: Bars, indices: Indices, t: int, s: Rest) {
    forall e :: !Stuck(bars, indices, t, s, e)
  }

  /** With nothing stuck, each round rids the heap of one entry of this time. */
  lemma FreeRound(bars: Bars, indices: Indices, t: int, s: Rest)
    requires Settled(bars, indices, t, s) && NoneStuck(bars, indices, t, s) && SameRound(bars, indices, t, s).Some?
    ensures var r := SameRound(bars, indices, t, s).value;
            NoneStuck(bars, indices, t, r) && Count(r.heap, AtTime(t)) < Count(s.heap, AtTime(t))
  {
    var m, r := Least(s.heap), SameRound(bars, indices, t, s).value;
    assert !Stuck(bars, indices, t, s, m);
    if IsCurrent(bars, indices, m) {
      CountRemoved(s.heap, m, AtTime(t));
    } else {
      CountReplaced(s.heap, bars, indices, m, AtTime(t));
    }
    forall e ensures !Stuck(bars, indices, t, r, e) { assert !Stuck(bars, indices, t, s, e); }
  }

  /** The loop ends exactly when no entry of its time is stuck. */
  lemma EndsIffNoneStuck(bars: Bars, indices: Indices, t: int, s: Rest)
    requires Settled(bars, indices, t, s)
    ensures Ends(SameLoop(bars, indices, t), s) <==> NoneStuck(bars, indices, t, s)
  {
    if NoneStuck(bars, indices, t, s) {
      FreeEnds(bars, indices, t, s);
    } else {
      var e :| Stuck(bars, indices, t, s, e);
      StuckForEver(bars, indices, t, s, e);
    }
  }

  lemma FreeEnds(bars: Bars, indices: Indices, t: int, s: Rest)
    requires Settled(bars, indices, t, s) && NoneStuck(bars, indices, t, s)
    ensures Ends(SameLoop(bars, indices, t), s)
  {
    var round := SameLoop(bars, indices, t);
    var keeps := (r: Rest) => Settled(bars, indices, t, r) && NoneStuck(bars, indices, t, r);
    var left := (r: Rest) => Count(r.heap, AtTime(t));
    forall r | keeps(r) && round(r).Some? ensures keeps(round(r).value) && left(round(r).value) < left(r) {
      SettledRound(bars, indices, t, r);
      FreeRound(bars, indices, t, r);
    }
    var n := ComesToEnd(round, keeps, left, s);
  }

  lemma StuckForEver(bars: Bars, indices: Indices, t: int, s: Rest, e: Entry)
    requires Settled(bars, indices, t, s) && Stuck(bars, indices, t, s, e)
    ensures !Ends(SameLoop(bars, indices, t), s)
  {
    var round := SameLoop(bars, indices, t);
    var keeps := (r: Rest) => Settled(bars, indices, t, r) && Stuck(bars, indices, t, r, e);
    forall r | keeps(r) ensures round(r).Some? && keeps(round(r).value) {
      StuckRound(bars, indices, t, r, e);
      SettledRound(bars, indices, t, r);
    }
    NeverEnds(round, keeps, s);
  }

  /** A first entry is found, and the collection of its time goes on for ever. */
  ghost predicate Spins(bars: Bars, indices: Indices, heap: multiset<Entry>) {
    exists e, rest ::
      Finds(bars, indices, heap, e, rest) && !Ends(SameLoop(bars, indices, e.timestamp), Rest(rest, {e.key}))
  }

  /** A request for the next step that one of the two loops keeps for ever. */
  ghost predicate NeverReturns(bars: Bars, indices: Indices, heap: multiset<Entry>) {
    !Ends(SearchLoop(bars, indices), heap) || Spins(bars, indices, heap)
  }
}
