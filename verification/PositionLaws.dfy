/** What the position comparison promises its consumer, in whatever order the
    broker lists the fills. */
module PositionLaws {
  import opened Basics
  import opened Numbers
  import opened Text
  import opened FillHistory
  import opened PositionLedger

  // ----- the consumer's validator -----

  datatype Observation = Observation(
    provider: string, positionId: string, symbol: string, insightId: string, ledgerSequence: nat, asOf: int,
    check: Option<Check>)

  datatype Record = Record(sequence: nat, executionEpoch: nat, recordedAt: int, observation: Observation)

  predicate ScopeSound(r: Record) {
    var o := r.observation;
    && 0 < r.sequence <= I64_MAX && 0 < r.executionEpoch <= I64_MAX && r.recordedAt > 0 && o.asOf > 0
    && 0 < o.ledgerSequence < r.sequence
    && Identity(o.provider, 128) && Identity(o.positionId, 128) && Identity(o.symbol, 256) && Identity(o.insightId, 128)
  }

  predicate ComparisonSound(o: Observation, c: Check) {
    && c.definition == DEFINITION
    && c.snapshot.positionId == o.positionId && c.snapshot.symbol == o.symbol && c.snapshot.asOf == o.asOf
    && c.snapshot.quantity >= 0.0 && (c.snapshot.quantity == 0.0 <==> c.snapshot.side.None?)
    && (c.ledgerQuantity.Some? ==> c.ledgerQuantity.value >= 0.0)
    && ((c.ledgerQuantity.Some? && c.ledgerQuantity.value > 0.0) <==> c.ledgerSide.Some?)
    && (c.matched <==>
          c.ledgerQuantity.Some? && c.ledgerSide == c.snapshot.side && Near(c.ledgerQuantity.value, c.snapshot.quantity))
  }

  /** Two quantities within a billionth of the larger. */
  predicate Near(a: real, b: real)
  {
    var larger := if a < b then b else a;
    a - b <= larger / 1000000000.0 && b - a <= larger / 1000000000.0
  }

  predicate ValidRecord(r: Record) {
    ScopeSound(r) && (r.observation.check.Some? ==> ComparisonSound(r.observation, r.observation.check.value))
  }

  lemma {:induction false} NoEntriesNoQuantity(l: Ledger, buckets: Buckets, times: set<int>)
    requires times <= buckets.Keys && l.remaining <= 0.0
    requires forall t :: t in buckets ==> buckets[t].0 == 0.0 && buckets[t].1 >= 0.0
    ensures Fold(Bucket, l, buckets, times).remaining <= 0.0
    decreases |times|
  {
    if times != {} {
      var t := Least(times);
      NoEntriesNoQuantity(Bucket(l, buckets[t].0, buckets[t].1), buckets, times - {t});
    }
  }

  lemma {:induction false} SumSign(weight: Fill -> real, fills: seq<Fill>)
    requires forall i :: 0 <= i < |fills| ==> weight(fills[i]) >= 0.0
    ensures Sum(weight, fills) >= 0.0
    ensures (forall i :: 0 <= i < |fills| ==> weight(fills[i]) == 0.0) ==> Sum(weight, fills) == 0.0
    decreases |fills|
  {
    if fills != [] { SumSign(weight, fills[..|fills| - 1]); }
  }

  lemma SidelessBucket(fills: seq<Fill>, t: int)
    requires AllSound(fills) && EntrySide(fills).None?
    ensures EntriesAt(fills, t) == 0.0 && ExitsAt(fills, t) >= 0.0
  {
    EntrySideSeen(fills);
    var sound: Fill -> bool := SoundFill;
    forall i | 0 <= i < |fills| ensures AtTime(t, EntryAmount)(fills[i]) == 0.0 && AtTime(t, ExitAmount)(fills[i]) >= 0.0 {
      assert !Enters(fills[i].fact) && sound(fills[i]);
      assert EntryAmount(fills[i]) == 0.0 && ExitAmount(fills[i]) >= 0.0;
    }
    SumSign(AtTime(t, EntryAmount), fills);
    SumSign(AtTime(t, ExitAmount), fills);
  }

  /** A positive ledger always knows its side. */
  lemma QuantityHasSide(fills: seq<Fill>)
    requires AllSound(fills)
    ensures LedgerOf(fills).remaining <= 0.0 || EntrySide(fills).Some?
  {
    if EntrySide(fills).None? {
      var buckets := BucketsOf(fills);
      forall t | t in buckets ensures buckets[t].0 == 0.0 && buckets[t].1 >= 0.0 {
        BucketAt(fills, t);
        SidelessBucket(fills, t);
      }
      NoEntriesNoQuantity(EMPTY, buckets, buckets.Keys);
    }
  }

  lemma NearMeans(a: real, b: real)
    requires a >= 0.0 && b >= 0.0
    ensures Near(a, b) <==> Abs(a - b) <= Max(Abs(a), Abs(b)) * TOLERANCE
  {
  }

  /** Whatever the ledger found, a record that carries it under a sound scope of
      the same position passes the consumer's checks. */
  lemma ConsumerAccepts(h: History, r: Record)
    requires PositionCheck(h).Some? && ScopeSound(r) && r.observation.check == PositionCheck(h)
    requires r.observation.positionId == h.positionId && r.observation.symbol == h.symbol && r.observation.asOf == h.asOf
    ensures ValidRecord(r)
  {
    LedgerBounds(h.fills);
    QuantityHasSide(h.fills);
    if LedgerOf(h.fills).valid { NearMeans(LedgerOf(h.fills).remaining, h.snapshot.value.quantity); }
  }

  // ----- order -----

  lemma {:induction false} SumConcat(weight: Fill -> real, a: seq<Fill>, b: seq<Fill>)
    ensures Sum(weight, a + b) == Sum(weight, a) + Sum(weight, b)
    decreases |b|
  {
    if b == [] {
      assert a + b == a;
    } else {
      SumConcat(weight, a, b[..|b| - 1]);
      assert (a + b)[..|a + b| - 1] == a + b[..|b| - 1];
    }
  }

  lemma RemoveAt<T>(b: seq<T>, k: nat)
    requires k < |b|
    ensures multiset(b[..k] + b[k + 1..]) == multiset(b) - multiset{b[k]}
  {
    assert b == b[..k] + [b[k]] + b[k + 1..];
  }

  lemma SumRemoved(weight: Fill -> real, b: seq<Fill>, k: nat)
    requires k < |b|
    ensures Sum(weight, b) == Sum(weight, b[..k] + b[k + 1..]) + weight(b[k])
  {
    SumConcat(weight, b[..k], b[k + 1..]);
    SumMore(weight, b, k);
    SumConcat(weight, b[..k + 1], b[k + 1..]);
    assert b == b[..k + 1] + b[k + 1..];
  }

  lemma {:induction false} PermutedSum(weight: Fill -> real, a: seq<Fill>, b: seq<Fill>)
    requires multiset(a) == multiset(b)
    ensures Sum(weight, a) == Sum(weight, b)
    decreases |a|
  {
    assert |a| == |multiset(a)| && |b| == |multiset(b)|;
    if a != [] {
      var k := PermutedElement(a, b, 0);
      RemoveAt(a, 0);
      RemoveAt(b, k);
      PermutedSum(weight, a[..0] + a[1..], b[..k] + b[k + 1..]);
      SumRemoved(weight, a, 0);
      SumRemoved(weight, b, k);
    }
  }

  lemma PermutedElement<T>(a: seq<T>, b: seq<T>, i: nat) returns (j: nat)
    requires multiset(a) == multiset(b) && i < |a|
    ensures j < |b| && b[j] == a[i]
  {
    assert a[i] in multiset(b);
    j :| 0 <= j < |b| && b[j] == a[i];
  }

  lemma PermutedTimes(a: seq<Fill>, b: seq<Fill>)
    requires multiset(a) == multiset(b)
    ensures Times(a) <= Times(b)
  {
    forall t | t in Times(a) ensures t in Times(b) {
      var i :| 0 <= i < |a| && a[i].fact.occurredAt == t;
      var j := PermutedElement(a, b, i);
      assert b[j].fact.occurredAt == t;
    }
  }

  /** Buckets, and so the whole ledger, do not see the order of the fills. */
  lemma PermutedLedger(a: seq<Fill>, b: seq<Fill>)
    requires multiset(a) == multiset(b)
    ensures LedgerOf(a) == LedgerOf(b)
  {
    PermutedTimes(a, b);
    PermutedTimes(b, a);
    forall t | t in Times(a) ensures EntriesAt(a, t) == EntriesAt(b, t) && ExitsAt(a, t) == ExitsAt(b, t) {
      PermutedSum(AtTime(t, EntryAmount), a, b);
      PermutedSum(AtTime(t, ExitAmount), a, b);
    }
    assert BucketsOf(a) == BucketsOf(b);
  }

  lemma PermutedSide(a: seq<Fill>, b: seq<Fill>)
    requires multiset(a) == multiset(b) && OneSide(a)
    ensures EntrySide(a) == EntrySide(b)
  {
    EntrySideSeen(a);
    EntrySideSeen(b);
    if EntrySide(a).Some? {
      var i :| 0 <= i < |a| && Enters(a[i].fact) && EntrySide(a) == Some(a[i].fact.side);
      var j := PermutedElement(a, b, i);
      assert Enters(b[j].fact);
      if EntrySide(b).Some? {
        var l :| 0 <= l < |b| && Enters(b[l].fact) && EntrySide(b) == Some(b[l].fact.side);
        var m := PermutedElement(b, a, l);
        assert SameSide(a[i], a[m]);
      }
    }
    if EntrySide(b).Some? {
      var j :| 0 <= j < |b| && Enters(b[j].fact) && EntrySide(b) == Some(b[j].fact.side);
      var i := PermutedElement(b, a, j);
      assert Enters(a[i].fact);
    }
  }

  lemma PermutedAll<T>(good: T -> bool, a: seq<T>, b: seq<T>)
    requires multiset(a) == multiset(b) && All(good, a)
    ensures All(good, b)
  {
    forall i | 0 <= i < |b| ensures good(b[i]) {
      var j := PermutedElement(b, a, i);
      assert good(a[j]);
    }
  }

  lemma Occurs<T>(a: seq<T>, i: nat, j: nat)
    requires i < j < |a| && a[i] == a[j]
    ensures multiset(a)[a[i]] >= 2
  {
    assert a == a[..i] + [a[i]] + a[i + 1..];
    assert a[j] == a[i + 1..][j - i - 1];
  }

  lemma OccursTwice<T>(a: seq<T>, x: T) returns (i: nat, j: nat)
    requires multiset(a)[x] >= 2
    ensures i < j < |a| && a[i] == x && a[j] == x
  {
    assert x in multiset(a);
    i :| 0 <= i < |a| && a[i] == x;
    RemoveAt(a, i);
    var rest := a[..i] + a[i + 1..];
    assert x in multiset(rest);
    var k :| 0 <= k < |rest| && rest[k] == x;
    if k < i { j := i; i := k; } else { j := k + 1; }
  }

  lemma PermutedDistinct(a: seq<Fact>, b: seq<Fact>)
    requires multiset(a) == multiset(b) && Distinct(a)
    ensures Distinct(b)
  {
    forall i, j | 0 <= i < j < |b| ensures !SameId(b[i], b[j]) {
      if b[i] == b[j] {
        Occurs(b, i, j);
        var k, l := OccursTwice(a, b[i]);
        assert !SameId(a[k], a[l]);
      } else {
        var k := PermutedElement(b, a, i);
        var l := PermutedElement(b, a, j);
        assert k < l ==> !SameId(a[k], a[l]);
        assert l < k ==> !SameId(a[l], a[k]);
      }
    }
  }

  lemma PermutedEntries(a: seq<Fact>, b: seq<Fact>, side: Side)
    requires multiset(a) == multiset(b) && EntersOn(a, side) && ExitsFollow(a, side)
    ensures EntersOn(b, side) && ExitsFollow(b, side)
  {
    var i :| 0 <= i < |a| && Enters(a[i]);
    var j := PermutedElement(a, b, i);
    assert Enters(b[j]);
    forall k | 0 <= k < |b| ensures OnSide(b[k], side) {
      var l := PermutedElement(b, a, k);
      assert OnSide(a[l], side);
    }
    forall k | 0 <= k < |b| && b[k].effect == Exit ensures b[k].side != side && EnteredBy(b, b[k].occurredAt) {
      var l := PermutedElement(b, a, k);
      assert EnteredBy(a, a[l].occurredAt);
      var m :| 0 <= m < |a| && EntersBy(a[m], a[l].occurredAt);
      var n := PermutedElement(a, b, m);
      assert EntersBy(b[n], b[k].occurredAt);
    }
  }

  /** The same history with its fills and invalidations listed differently. */
  ghost predicate Reordered(h: History, g: History) {
    && g == h.(fills := g.fills, invalidations := g.invalidations)
    && multiset(g.fills) == multiset(h.fills) && multiset(g.invalidations) == multiset(h.invalidations)
  }

  ghost function Mapped<A, B>(f: A -> B, a: seq<A>): (r: seq<B>)
    ensures |r| == |a|
  {
    seq(|a|, i requires 0 <= i < |a| => f(a[i]))
  }

  lemma {:induction false} MappedBag<A, B>(f: A -> B, a: seq<A>, b: seq<A>)
    requires multiset(a) == multiset(b)
    ensures multiset(Mapped(f, a)) == multiset(Mapped(f, b))
    decreases |a|
  {
    assert |a| == |multiset(a)| && |b| == |multiset(b)|;
    if a != [] {
      var k := PermutedElement(a, b, 0);
      RemoveAt(a, 0);
      RemoveAt(b, k);
      MappedBag(f, a[..0] + a[1..], b[..k] + b[k + 1..]);
      MappedRemove(f, a, 0);
      MappedRemove(f, b, k);
    }
  }

  lemma MappedRemove<A, B>(f: A -> B, b: seq<A>, k: nat)
    requires k < |b|
    ensures multiset(Mapped(f, b)) == multiset(Mapped(f, b[..k] + b[k + 1..])) + multiset{f(b[k])}
  {
    RemoveAt(Mapped(f, b), k);
    assert Mapped(f, b)[..k] + Mapped(f, b)[k + 1..] == Mapped(f, b[..k] + b[k + 1..]);
  }

  function FactOf(f: Fill): Fact { f.fact }

  lemma FactBag(a: seq<Fill>, b: seq<Fill>)
    requires multiset(a) == multiset(b)
    ensures multiset(FactsOf(a)) == multiset(FactsOf(b))
  {
    MappedBag(FactOf, a, b);
    assert FactsOf(a) == Mapped(FactOf, a) && FactsOf(b) == Mapped(FactOf, b);
  }

  lemma ReorderedFacts(h: History, g: History)
    requires Reordered(h, g)
    ensures multiset(Facts(h)) == multiset(Facts(g)) && |g.fills| == |h.fills| && |g.invalidations| == |h.invalidations|
  {
    FactBag(h.fills, g.fills);
    assert |multiset(h.fills)| == |h.fills| && |multiset(g.fills)| == |g.fills|;
    assert |multiset(h.invalidations)| == |h.invalidations| && |multiset(g.invalidations)| == |g.invalidations|;
  }

  lemma ReorderedBelong(h: History, g: History, order: string, symbol: string)
    requires Reordered(h, g) && |Facts(h)| > 0
    requires AllBelong(h, order, symbol, Facts(h)[0].provider, Facts(h))
    ensures |Facts(g)| > 0 && AllBelong(g, order, symbol, Facts(g)[0].provider, Facts(g))
  {
    ReorderedFacts(h, g);
    var provider := Facts(h)[0].provider;
    var belongs := (f: Fact) => Belongs(h, order, symbol, provider, f);
    PermutedAll(belongs, Facts(h), Facts(g));
    assert belongs(Facts(g)[0]);
    forall i | 0 <= i < |Facts(g)| ensures Belongs(g, order, symbol, provider, Facts(g)[i]) {
      assert belongs(Facts(g)[i]);
    }
  }

  lemma PermutedCurrency(a: seq<Fill>, b: seq<Fill>)
    requires multiset(a) == multiset(b) && OneCurrency(a)
    ensures OneCurrency(b)
  {
    forall i, j | 0 <= i < |b| && 0 <= j < |b| ensures SameCurrency(b[i], b[j]) {
      var k := PermutedElement(b, a, i);
      var l := PermutedElement(b, a, j);
      assert SameCurrency(a[k], a[l]);
    }
  }

  lemma PermutedCancelled(a: seq<Fact>, b: seq<Fact>)
    requires multiset(a) == multiset(b) && Cancelled(a)
    ensures Cancelled(b)
  {
    var i :| 0 <= i < |a| && a[i].effect == Entry;
    var j := PermutedElement(a, b, i);
  }

  lemma ReorderedCovered(h: History, g: History)
    requires Reordered(h, g) && Covered(h)
    ensures Covered(g)
  {
    PermutedSum(EntryAmount, h.fills, g.fills);
    PermutedSum(ExitAmount, h.fills, g.fills);
    if Cancelled(h.invalidations) { PermutedCancelled(h.invalidations, g.invalidations); }
  }

  lemma ReorderedAccepts(h: History, g: History, account: string, order: string, symbol: string)
    requires Reordered(h, g) && Accepts(h, account, order, symbol)
    ensures Accepts(g, account, order, symbol)
  {
    ReorderedFacts(h, g);
    ReorderedBelong(h, g, order, symbol);
    PermutedAll(SoundFill, h.fills, g.fills);
    PermutedCurrency(h.fills, g.fills);
    PermutedDistinct(Facts(h), Facts(g));
    var side :| EntersOn(Facts(h), side) && ExitsFollow(Facts(h), side);
    PermutedEntries(Facts(h), Facts(g), side);
    ReorderedCovered(h, g);
  }

  /** The comparison is the same however the broker orders its history. */
  lemma CheckIgnoresOrder(h: History, g: History)
    requires Reordered(h, g)
    ensures PositionCheck(h) == PositionCheck(g)
  {
    if Accepts(h, h.accountId, h.entryOrderId, h.symbol) {
      ReorderedAccepts(h, g, h.accountId, h.entryOrderId, h.symbol);
      AcceptedSides(h);
      PermutedSide(h.fills, g.fills);
      PermutedLedger(h.fills, g.fills);
    } else if Accepts(g, g.accountId, g.entryOrderId, g.symbol) {
      ReorderedAccepts(g, h, g.accountId, g.entryOrderId, g.symbol);
    }
  }
}
