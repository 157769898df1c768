/** What the comparison of ledger and snapshot says about the fills themselves. */
module PositionMeaning {
  import opened Basics
  import opened Numbers
  import opened FillHistory
  import opened PositionLedger
  import opened PositionLaws

  // ----- one bucket -----

  /** Entries first, then exits; what is left within a billionth of the larger of
      the two counts as nothing, and a shortfall beyond that spoils the ledger. */
  lemma BucketMeans(l: Ledger, entries: real, exits: real)
    requires l.remaining >= 0.0 && entries >= 0.0 && exits >= 0.0
    ensures var b, held := Bucket(l, entries, exits), l.remaining + entries;
            var dust := (if held < exits then exits else held) / 1000000000.0;
            && (b.valid <==> l.valid && exits - held <= dust)
            && b.remaining == if -dust <= held - exits <= dust then 0.0 else held - exits
  {
    var held := l.remaining + entries;
    assert Dust(l, entries, exits) == (if held < exits then exits else held) / 1000000000.0;
  }

  // ----- never short, at any time -----

  ghost function UpTo(at: int, weight: Fill -> real): Fill -> real {
    (f: Fill) => if f.fact.occurredAt <= at then weight(f) else 0.0
  }

  ghost function Before(times: set<int>, at: int): set<int> { set t | t in times && t <= at }

  lemma {:induction false} SumOverBefore(fills: seq<Fill>, weight: Fill -> real, times: set<int>, at: int)
    requires Times(fills) <= times
    ensures SumOver(fills, weight, Before(times, at)) == Sum(UpTo(at, weight), fills)
    decreases |fills|
  {
    if fills == [] {
      SumOverNothing(weight, Before(times, at));
    } else {
      var n := |fills| - 1;
      assert fills[..n] + [fills[n]] == fills;
      TimesMore(fills[..n], fills[n]);
      SumOverBefore(fills[..n], weight, times, at);
      SumOverMore(fills[..n], fills[n], weight, Before(times, at));
    }
  }

  /** Buckets are settled earliest first: those up to any time, then the rest. */
  lemma {:induction false} FoldSplits(step: (Ledger, real, real) -> Ledger, l: Ledger, buckets: Buckets, times: set<int>,
                                      at: int)
    requires times <= buckets.Keys
    ensures Fold(step, l, buckets, times)
            == Fold(step, Fold(step, l, buckets, Before(times, at)), buckets, times - Before(times, at))
    decreases |times|
  {
    var before := Before(times, at);
    if before == {} {
      assert times - before == times;
    } else {
      var t := Least(times);
      var u :| u in before;
      assert t in before && IsLeast(before, t);
      assert Least(before) == t;
      var next := step(l, buckets[t].0, buckets[t].1);
      FoldSplits(step, next, buckets, times - {t}, at);
      assert Before(times - {t}, at) == before - {t};
      assert times - {t} - (before - {t}) == times - before;
    }
  }

  lemma {:induction false} SpoiltStays(l: Ledger, buckets: Buckets, times: set<int>)
    requires times <= buckets.Keys && Fold(Bucket, l, buckets, times).valid
    ensures l.valid
    decreases |times|
  {
    if times != {} {
      var t := Least(times);
      SpoiltStays(Bucket(l, buckets[t].0, buckets[t].1), buckets, times - {t});
    }
  }

  lemma PrefixBounds(buckets: Buckets, at: int)
    requires Fold(Bucket, EMPTY, buckets, buckets.Keys).valid
    ensures Net(buckets, Before(buckets.Keys, at)) >= -Slack(EMPTY, buckets, Before(buckets.Keys, at))
  {
    var before := Before(buckets.Keys, at);
    FoldSplits(Bucket, EMPTY, buckets, buckets.Keys, at);
    SpoiltStays(Fold(Bucket, EMPTY, buckets, before), buckets, buckets.Keys - before);
    FoldKeeps(EMPTY, buckets, before);
  }

  /** The tolerances of the buckets up to a time. */
  ghost function SlackUpTo(fills: seq<Fill>, at: int): real {
    Slack(EMPTY, BucketsOf(fills), Before(BucketsOf(fills).Keys, at))
  }

  /** If the ledger reports a quantity, the exits up to any time never exceeded the
      entries up to that time by more than the tolerances so far. */
  lemma NeverShort(h: History, at: int)
    requires PositionCheck(h).Some? && PositionCheck(h).value.ledgerQuantity.Some?
    ensures Sum(UpTo(at, ExitAmount), h.fills) <= Sum(UpTo(at, EntryAmount), h.fills) + SlackUpTo(h.fills, at)
  {
    var buckets := BucketsOf(h.fills);
    var before := Before(buckets.Keys, at);
    BucketTimes(h.fills);
    PrefixBounds(buckets, at);
    NetIsSums(h.fills, before);
    SumOverBefore(h.fills, EntryAmount, buckets.Keys, at);
    SumOverBefore(h.fills, ExitAmount, buckets.Keys, at);
  }

  // ----- a history without exits -----

  lemma {:induction false} OnlyEntriesFold(l: Ledger, buckets: Buckets, times: set<int>)
    requires times <= buckets.Keys && l.valid && l.remaining >= 0.0
    requires forall t :: t in times ==> buckets[t].0 > 0.0 && buckets[t].1 == 0.0
    ensures Fold(Bucket, l, buckets, times) == Ledger(l.remaining + Net(buckets, times), true)
    decreases |times|
  {
    if times != {} {
      var t := Least(times);
      BucketMeans(l, buckets[t].0, buckets[t].1);
      OnlyEntriesFold(Bucket(l, buckets[t].0, buckets[t].1), buckets, times - {t});
    }
  }

  lemma {:induction false} EntriesAtPositive(fills: seq<Fill>, t: int)
    requires forall i :: 0 <= i < |fills| ==> fills[i].quantity > 0.0 && fills[i].fact.effect == Entry
    ensures EntriesAt(fills, t) >= 0.0 && ExitsAt(fills, t) == 0.0
    ensures t in Times(fills) ==> EntriesAt(fills, t) > 0.0
    decreases |fills|
  {
    if fills != [] {
      var n := |fills| - 1;
      assert fills[..n] + [fills[n]] == fills;
      TimesMore(fills[..n], fills[n]);
      AtMore(fills[..n], fills[n], t);
      EntriesAtPositive(fills[..n], t);
    }
  }

  lemma EntriesLedger(fills: seq<Fill>)
    requires forall i :: 0 <= i < |fills| ==> fills[i].quantity > 0.0 && fills[i].fact.effect == Entry
    ensures LedgerOf(fills) == Ledger(Sum(EntryAmount, fills), true)
  {
    var buckets := BucketsOf(fills);
    BucketTimes(fills);
    forall t | t in buckets ensures buckets[t].0 > 0.0 && buckets[t].1 == 0.0 {
      BucketAt(fills, t);
      EntriesAtPositive(fills, t);
    }
    OnlyEntriesFold(EMPTY, buckets, buckets.Keys);
    NetOfFills(fills);
    EntriesSum(fills);
  }

  /** Without exits the ledger reports the whole entered quantity, and no tolerance
      is spent. */
  lemma EntriesAreReported(h: History)
    requires PositionCheck(h).Some? && h.fills != []
    requires forall i :: 0 <= i < |h.fills| ==> h.fills[i].fact.effect == Entry
    ensures var check := PositionCheck(h).value;
            check.ledgerQuantity == Some(Sum(EntryAmount, h.fills)) && check.ledgerSide == EntrySide(h.fills)
  {
    var sound: Fill -> bool := SoundFill;
    forall i | 0 <= i < |h.fills| ensures h.fills[i].quantity > 0.0 { assert sound(h.fills[i]); }
    EntriesLedger(h.fills);
    EntriesSum(h.fills);
  }

  lemma {:induction false} EntriesSum(fills: seq<Fill>)
    requires forall i :: 0 <= i < |fills| ==> fills[i].quantity > 0.0 && fills[i].fact.effect == Entry
    ensures Sum(ExitAmount, fills) == 0.0 && (fills != [] ==> Sum(EntryAmount, fills) > 0.0)
    ensures Sum(EntryAmount, fills) >= 0.0
    decreases |fills|
  {
    if fills != [] { EntriesSum(fills[..|fills| - 1]); }
  }

  // ----- matched -----

  /** The ledger's side is that of the history's entries. */
  lemma SideIsEntrySide(h: History, i: nat)
    requires PositionCheck(h).Some? && PositionCheck(h).value.ledgerSide.Some?
    requires i < |h.fills| && h.fills[i].fact.effect == Entry
    ensures PositionCheck(h).value.ledgerSide == Some(h.fills[i].fact.side)
  {
    AcceptedSides(h);
    EntrySideSeen(h.fills);
    var k :| 0 <= k < |h.fills| && Enters(h.fills[k].fact) && EntrySide(h.fills) == Some(h.fills[k].fact.side);
    assert Enters(h.fills[i].fact) && SameSide(h.fills[i], h.fills[k]);
  }

  /** Matched means: a quantity is reported, on the snapshot's side, within a
      billionth of the larger of the two; and nothing else. */
  lemma MatchedExactly(h: History)
    requires PositionCheck(h).Some?
    ensures var check := PositionCheck(h).value;
            && check.snapshot == h.snapshot.value
            && (check.matched <==>
                  && check.ledgerQuantity.Some? && check.ledgerSide == h.snapshot.value.side
                  && Near(check.ledgerQuantity.value, h.snapshot.value.quantity))
  {
    LedgerBounds(h.fills);
    if LedgerOf(h.fills).valid { NearMeans(LedgerOf(h.fills).remaining, h.snapshot.value.quantity); }
  }

  /** A matched snapshot agrees with the fills: its quantity is what was entered
      minus what was exited, up to the tolerances, and its side is the entries'. */
  lemma MatchedMeans(h: History)
    requires PositionCheck(h).Some? && PositionCheck(h).value.matched
    ensures var held := h.snapshot.value.quantity;
            var ledger := PositionCheck(h).value.ledgerQuantity.value;
            var net := Sum(EntryAmount, h.fills) - Sum(ExitAmount, h.fills);
            var larger := if ledger < held then held else ledger;
            && net - SlackOf(h.fills) - larger / 1000000000.0 <= held <= net + SlackOf(h.fills) + larger / 1000000000.0
    ensures forall i :: 0 <= i < |h.fills| && h.fills[i].fact.effect == Entry && h.snapshot.value.side.Some? ==>
              h.snapshot.value.side == Some(h.fills[i].fact.side)
  {
    MatchedExactly(h);
    LedgerBounds(h.fills);
    forall i | 0 <= i < |h.fills| && h.fills[i].fact.effect == Entry && h.snapshot.value.side.Some?
      ensures h.snapshot.value.side == Some(h.fills[i].fact.side)
    {
      SideIsEntrySide(h, i);
    }
  }

  /** A snapshot that says what the ledger says is matched. */
  lemma EqualIsMatched(h: History)
    requires PositionCheck(h).Some?
    requires PositionCheck(h).value.ledgerQuantity == Some(h.snapshot.value.quantity)
    requires PositionCheck(h).value.ledgerSide == h.snapshot.value.side
    ensures PositionCheck(h).value.matched
  {
    MatchedExactly(h);
  }
}
