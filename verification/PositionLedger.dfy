/** The quantity a fill history's ledger reconstructs, bucket by bucket in time,
    and its comparison with the broker's own snapshot. */
module PositionLedger {
  import opened Basics
  import opened Numbers
  import opened FillHistory

  const DEFINITION: string := "aqe-owned-position-quantity-1"

  datatype Check = Check(
    definition: string, snapshot: Snapshot, ledgerQuantity: Option<real>, ledgerSide: Option<Side>, matched: bool)

  /** What is left after some buckets, and whether it ever went short. */
  datatype Ledger = Ledger(remaining: real, valid: bool)

  const EMPTY := Ledger(0.0, true)

  // ----- buckets -----

  function Times(fills: seq<Fill>): set<int> {
    set i | 0 <= i < |fills| :: fills[i].fact.occurredAt
  }

  ghost function AtTime(t: int, weight: Fill -> real): Fill -> real {
    (f: Fill) => if f.fact.occurredAt == t then weight(f) else 0.0
  }

  ghost function EntriesAt(fills: seq<Fill>, t: int): real { Sum(AtTime(t, EntryAmount), fills) }

  ghost function ExitsAt(fills: seq<Fill>, t: int): real { Sum(AtTime(t, ExitAmount), fills) }

  function Dust(l: Ledger, entries: real, exits: real): real {
    Max(Abs(l.remaining + entries), Abs(exits)) * TOLERANCE
  }

  /** One bucket: entries first, then exits, and dust counts as nothing. */
  function Bucket(l: Ledger, entries: real, exits: real): Ledger {
    var after := l.remaining + entries - exits;
    var dust := Dust(l, entries, exits);
    Ledger(if Abs(after) <= dust then 0.0 else after, l.valid && after >= -dust)
  }

  predicate IsLeast(s: set<int>, m: int) {
    m in s && forall x :: x in s ==> m <= x
  }

  lemma Pick<T>(s: set<T>) returns (a: T)
    requires s != {}
    ensures a in s
  {
    a :| a in s;
  }

  lemma {:induction false} LeastExists(s: set<int>)
    requires s != {}
    ensures exists m :: IsLeast(s, m)
    decreases |s|
  {
    var a := Pick(s);
    var rest := s - {a};
    if rest == {} {
      assert s == {a};
      assert IsLeast(s, a);
    } else {
      LeastExists(rest);
      var m :| IsLeast(rest, m);
      assert s == rest + {a};
      assert IsLeast(s, if a < m then a else m);
    }
  }

  ghost function Least(s: set<int>): (m: int)
    requires s != {}
    ensures IsLeast(s, m)
  {
    LeastExists(s);
    var m :| IsLeast(s, m);
    m
  }

  type Buckets = map<int, (real, real)>

  ghost function BucketsOf(fills: seq<Fill>): Buckets {
    map t | t in Times(fills) :: (EntriesAt(fills, t), ExitsAt(fills, t))
  }

  /** The buckets of these times, earliest first. */
  ghost function Fold(step: (Ledger, real, real) -> Ledger, l: Ledger, buckets: Buckets, times: set<int>): Ledger
    requires times <= buckets.Keys
    decreases |times|
  {
    if times == {} then l
    else
      var t := Least(times);
      Fold(step, step(l, buckets[t].0, buckets[t].1), buckets, times - {t})
  }

  /** The tolerances of these buckets, added up. */
  ghost function Slack(l: Ledger, buckets: Buckets, times: set<int>): real
    requires times <= buckets.Keys
    decreases |times|
  {
    if times == {} then 0.0
    else
      var t := Least(times);
      Dust(l, buckets[t].0, buckets[t].1)
      + Slack(Bucket(l, buckets[t].0, buckets[t].1), buckets, times - {t})
  }

  ghost function LedgerOf(fills: seq<Fill>): Ledger {
    Fold(Bucket, EMPTY, BucketsOf(fills), BucketsOf(fills).Keys)
  }

  ghost function SlackOf(fills: seq<Fill>): real { Slack(EMPTY, BucketsOf(fills), BucketsOf(fills).Keys) }

  /** The side of the last entry fill. */
  function EntrySide(fills: seq<Fill>): Option<Side> {
    if fills == [] then None
    else if fills[|fills| - 1].fact.effect == Entry then Some(fills[|fills| - 1].fact.side)
    else EntrySide(fills[..|fills| - 1])
  }

  function Matches(quantity: real, side: Option<Side>, s: Snapshot): bool {
    side == s.side && Abs(quantity - s.quantity) <= Max(Abs(quantity), Abs(s.quantity)) * TOLERANCE
  }

  ghost function Compare(fills: seq<Fill>, s: Snapshot): Check {
    var l := LedgerOf(fills);
    var side := if l.valid && l.remaining > 0.0 then EntrySide(fills) else None;
    Check(DEFINITION, s, if l.valid then Some(l.remaining) else None, side, l.valid && Matches(l.remaining, side, s))
  }

  /** What `position_check` answers. */
  ghost function PositionCheck(h: History): Option<Check> {
    if !Accepts(h, h.accountId, h.entryOrderId, h.symbol) || h.snapshot.None? then None
    else Some(Compare(h.fills, h.snapshot.value))
  }

  // ----- the ledger's meaning -----

  ghost function SumOver(fills: seq<Fill>, weight: Fill -> real, times: set<int>): real
    decreases |times|
  {
    if times == {} then 0.0
    else
      var t := Least(times);
      Sum(AtTime(t, weight), fills) + SumOver(fills, weight, times - {t})
  }

  lemma {:induction false} SumOverMore(fills: seq<Fill>, f: Fill, weight: Fill -> real, times: set<int>)
    ensures SumOver(fills + [f], weight, times)
            == SumOver(fills, weight, times) + if f.fact.occurredAt in times then weight(f) else 0.0
    decreases |times|
  {
    if times != {} {
      var t := Least(times);
      SumOverMore(fills, f, weight, times - {t});
      assert (fills + [f])[..|fills|] == fills;
    }
  }

  lemma {:induction false} SumOverNothing(weight: Fill -> real, times: set<int>)
    ensures SumOver([], weight, times) == 0.0
    decreases |times|
  {
    if times != {} { SumOverNothing(weight, times - {Least(times)}); }
  }

  /** Buckets partition the fills: their totals are the history's totals. */
  lemma {:induction false} BucketsPartition(fills: seq<Fill>, weight: Fill -> real, times: set<int>)
    requires Times(fills) <= times
    ensures SumOver(fills, weight, times) == Sum(weight, fills)
    decreases |fills|
  {
    if fills == [] {
      SumOverNothing(weight, times);
    } else {
      var n := |fills| - 1;
      assert fills[..n] + [fills[n]] == fills;
      TimesMore(fills[..n], fills[n]);
      BucketsPartition(fills[..n], weight, times);
      SumOverMore(fills[..n], fills[n], weight, times);
    }
  }

  lemma BucketKeeps(l: Ledger, entries: real, exits: real)
    requires l.valid ==> l.remaining >= 0.0
    ensures var b := Bucket(l, entries, exits);
            && (b.valid ==> b.remaining >= 0.0)
            && Abs(b.remaining - (l.remaining + entries - exits)) <= Dust(l, entries, exits)
  {
    assert Dust(l, entries, exits) >= 0.0;
  }

  ghost function Net(buckets: Buckets, times: set<int>): real
    requires times <= buckets.Keys
    decreases |times|
  {
    if times == {} then 0.0
    else
      var t := Least(times);
      buckets[t].0 - buckets[t].1 + Net(buckets, times - {t})
  }

  /** Non-negative when valid, and within the slack of entered minus exited. */
  lemma {:induction false} FoldKeeps(l: Ledger, buckets: Buckets, times: set<int>)
    requires times <= buckets.Keys && (l.valid ==> l.remaining >= 0.0)
    ensures var s := Fold(Bucket, l, buckets, times);
            && (s.valid ==> s.remaining >= 0.0)
            && Abs(s.remaining - (l.remaining + Net(buckets, times))) <= Slack(l, buckets, times)
    decreases |times|
  {
    if times != {} {
      var t := Least(times);
      BucketKeeps(l, buckets[t].0, buckets[t].1);
      FoldKeeps(Bucket(l, buckets[t].0, buckets[t].1), buckets, times - {t});
    }
  }

  lemma {:induction false} NetIsSums(fills: seq<Fill>, times: set<int>)
    requires times <= BucketsOf(fills).Keys
    ensures Net(BucketsOf(fills), times) == SumOver(fills, EntryAmount, times) - SumOver(fills, ExitAmount, times)
    decreases |times|
  {
    if times != {} {
      BucketAt(fills, Least(times));
      NetIsSums(fills, times - {Least(times)});
    }
  }

  lemma BucketTimes(fills: seq<Fill>)
    ensures BucketsOf(fills).Keys == Times(fills)
  {
  }

  lemma BucketAt(fills: seq<Fill>, t: int)
    requires t in BucketsOf(fills)
    ensures BucketsOf(fills)[t].0 == EntriesAt(fills, t) && BucketsOf(fills)[t].1 == ExitsAt(fills, t)
  {
  }

  /** A reported ledger quantity is non-negative and differs from entered minus
      exited by no more than the accumulated bucket tolerances. */
  lemma LedgerQuantityBounds(h: History)
    requires PositionCheck(h).Some? && PositionCheck(h).value.ledgerQuantity.Some?
    ensures var q := PositionCheck(h).value.ledgerQuantity.value;
            q >= 0.0 && Abs(q - (Sum(EntryAmount, h.fills) - Sum(ExitAmount, h.fills))) <= SlackOf(h.fills)
  {
    LedgerBounds(h.fills);
  }

  lemma NetOfFills(fills: seq<Fill>)
    ensures Net(BucketsOf(fills), BucketsOf(fills).Keys) == Sum(EntryAmount, fills) - Sum(ExitAmount, fills)
  {
    var times := BucketsOf(fills).Keys;
    BucketTimes(fills);
    NetIsSums(fills, times);
    BucketsPartition(fills, EntryAmount, times);
    BucketsPartition(fills, ExitAmount, times);
  }

  lemma LedgerBounds(fills: seq<Fill>)
    ensures LedgerOf(fills).valid ==> LedgerOf(fills).remaining >= 0.0
    ensures Abs(LedgerOf(fills).remaining - (Sum(EntryAmount, fills) - Sum(ExitAmount, fills))) <= SlackOf(fills)
  {
    var net := Sum(EntryAmount, fills) - Sum(ExitAmount, fills);
    NetOfFills(fills);
    FoldBounds(BucketsOf(fills), net);
  }

  lemma FoldBounds(buckets: Buckets, net: real)
    requires Net(buckets, buckets.Keys) == net
    ensures var s := Fold(Bucket, EMPTY, buckets, buckets.Keys);
            (s.valid ==> s.remaining >= 0.0) && Abs(s.remaining - net) <= Slack(EMPTY, buckets, buckets.Keys)
  {
    FoldKeeps(EMPTY, buckets, buckets.Keys);
  }

  // ----- the loops -----

  lemma {:induction false} NothingAt(fills: seq<Fill>, weight: Fill -> real, t: int)
    requires t !in Times(fills)
    ensures Sum(AtTime(t, weight), fills) == 0.0
    decreases |fills|
  {
    if fills != [] {
      var n := |fills| - 1;
      assert fills[..n] + [fills[n]] == fills;
      TimesMore(fills[..n], fills[n]);
      NothingAt(fills[..n], weight, t);
    }
  }

  lemma TimesMore(fills: seq<Fill>, f: Fill)
    ensures Times(fills + [f]) == Times(fills) + {f.fact.occurredAt}
  {
    var more := fills + [f];
    assert more[|fills|] == f;
    forall t | t in Times(fills) + {f.fact.occurredAt} ensures t in Times(more) {
      if t in Times(fills) {
        var i :| 0 <= i < |fills| && fills[i].fact.occurredAt == t;
        assert more[i] == fills[i];
      }
    }
  }

  lemma SumSnoc(weight: Fill -> real, fills: seq<Fill>, f: Fill)
    ensures Sum(weight, fills + [f]) == Sum(weight, fills) + weight(f)
  {
    assert (fills + [f])[..|fills|] == fills;
  }

  lemma AtMore(fills: seq<Fill>, f: Fill, t: int)
    ensures EntriesAt(fills + [f], t) == EntriesAt(fills, t) + if f.fact.occurredAt == t then EntryAmount(f) else 0.0
    ensures ExitsAt(fills + [f], t) == ExitsAt(fills, t) + if f.fact.occurredAt == t then ExitAmount(f) else 0.0
  {
    SumSnoc(AtTime(t, EntryAmount), fills, f);
    SumSnoc(AtTime(t, ExitAmount), fills, f);
  }

  ghost function Added(was: (real, real), f: Fill): (real, real) { (was.0 + EntryAmount(f), was.1 + ExitAmount(f)) }

  ghost function BucketIn(buckets: Buckets, t: int): (real, real) {
    if t in buckets then buckets[t] else (0.0, 0.0)
  }

  lemma NewBucket(fills: seq<Fill>, t: int)
    ensures BucketIn(BucketsOf(fills), t) == (EntriesAt(fills, t), ExitsAt(fills, t))
  {
    if t !in Times(fills) {
      NothingAt(fills, EntryAmount, t);
      NothingAt(fills, ExitAmount, t);
    }
  }

  lemma BucketMore(fills: seq<Fill>, f: Fill, u: int)
    ensures BucketIn(BucketsOf(fills + [f]), u)
            == if f.fact.occurredAt == u then Added(BucketIn(BucketsOf(fills), u), f) else BucketIn(BucketsOf(fills), u)
  {
    NewBucket(fills, u);
    NewBucket(fills + [f], u);
    AtMore(fills, f, u);
  }

  lemma BucketsMore(fills: seq<Fill>, f: Fill)
    ensures var t := f.fact.occurredAt;
            BucketsOf(fills + [f]) == BucketsOf(fills)[t := Added(BucketIn(BucketsOf(fills), t), f)]
  {
    var t := f.fact.occurredAt;
    var before, after := BucketsOf(fills), BucketsOf(fills + [f]);
    TimesMore(fills, f);
    BucketTimes(fills);
    BucketTimes(fills + [f]);
    assert after.Keys == before.Keys + {t};
    forall u | u in after ensures after[u] == before[t := Added(BucketIn(before, t), f)][u] { BucketMore(fills, f, u); }
  }

  predicate SameSide(a: Fill, b: Fill) {
    Enters(a.fact) && Enters(b.fact) ==> a.fact.side == b.fact.side
  }

  ghost predicate OneSide(fills: seq<Fill>) {
    forall i, j {:trigger SameSide(fills[i], fills[j])} ::
      0 <= i < |fills| && 0 <= j < |fills| ==> SameSide(fills[i], fills[j])
  }

  predicate Moves(f: Fill) { f.fact.effect == Entry || f.fact.effect == Exit }

  ghost predicate EntriesAndExits(fills: seq<Fill>) {
    forall i {:trigger Moves(fills[i])} :: 0 <= i < |fills| ==> Moves(fills[i])
  }

  lemma AcceptedSides(h: History)
    requires Accepts(h, h.accountId, h.entryOrderId, h.symbol)
    ensures OneSide(h.fills) && EntriesAndExits(h.fills)
  {
    var facts := Facts(h);
    var side :| EntersOn(facts, side) && ExitsFollow(facts, side);
    var belongs := (f: Fact) => Belongs(h, h.entryOrderId, h.symbol, facts[0].provider, f);
    forall i | 0 <= i < |h.fills| ensures Moves(h.fills[i]) && OnSide(h.fills[i].fact, side) {
      assert facts[i] == h.fills[i].fact;
      assert OnSide(facts[i], side) && belongs(facts[i]);
    }
    forall i, j | 0 <= i < |h.fills| && 0 <= j < |h.fills| ensures SameSide(h.fills[i], h.fills[j]) {
      assert OnSide(h.fills[i].fact, side) && OnSide(h.fills[j].fact, side);
    }
  }

  lemma {:induction false} EntrySideSeen(fills: seq<Fill>)
    ensures EntrySide(fills).Some? ==>
              exists i :: 0 <= i < |fills| && Enters(fills[i].fact) && EntrySide(fills) == Some(fills[i].fact.side)
    ensures EntrySide(fills).None? ==> forall i :: 0 <= i < |fills| ==> !Enters(fills[i].fact)
    decreases |fills|
  {
    if fills != [] {
      var n := |fills| - 1;
      EntrySideSeen(fills[..n]);
      if fills[n].fact.effect == Entry {
        assert Enters(fills[n].fact);
      } else if EntrySide(fills).Some? {
        var i :| 0 <= i < n && Enters(fills[..n][i].fact) && EntrySide(fills) == Some(fills[..n][i].fact.side);
        assert Enters(fills[i].fact);
      } else {
        forall i | 0 <= i < |fills| ensures !Enters(fills[i].fact) { assert i < n ==> !Enters(fills[..n][i].fact); }
      }
    }
  }

  lemma GatherMore(fills: seq<Fill>, i: nat)
    requires i < |fills|
    ensures var t := fills[i].fact.occurredAt;
            BucketsOf(fills[..i + 1])
            == BucketsOf(fills[..i])[t := Added(BucketIn(BucketsOf(fills[..i]), t), fills[i])]
    ensures EntrySide(fills[..i + 1])
            == if fills[i].fact.effect == Entry then Some(fills[i].fact.side) else EntrySide(fills[..i])
  {
    assert fills[..i] + [fills[i]] == fills[..i + 1] && fills[..i + 1][..i] == fills[..i];
    BucketsMore(fills[..i], fills[i]);
  }

  /** One fill's quantity into its bucket. */
  method AddFill(buckets: Buckets, fill: Fill) returns (after: Buckets)
    requires Moves(fill)
    ensures after == buckets[fill.fact.occurredAt := Added(BucketIn(buckets, fill.fact.occurredAt), fill)]
  {
    var t := fill.fact.occurredAt;
    var bucket := if t in buckets then buckets[t] else (0.0, 0.0);
    if fill.fact.effect == Entry {
      bucket := (bucket.0 + fill.quantity, bucket.1);
    } else {
      bucket := (bucket.0, bucket.1 + fill.quantity);
    }
    after := buckets[t := bucket];
  }

  lemma NothingYet(fills: seq<Fill>)
    ensures BucketsOf(fills[..0]) == map[] && EntrySide(fills[..0]) == None && fills[..|fills|] == fills
  {
  }

  /** First loop: quantities per time, and the side of the entries. */
  method Gather(fills: seq<Fill>) returns (buckets: Buckets, side: Option<Side>, valid: bool)
    requires OneSide(fills) && EntriesAndExits(fills)
    ensures buckets == BucketsOf(fills) && side == EntrySide(fills) && valid
  {
    buckets, side, valid := map[], None, true;
    NothingYet(fills);
    for i := 0 to |fills|
      invariant buckets == BucketsOf(fills[..i]) && side == EntrySide(fills[..i]) && valid
    {
      GatherMore(fills, i);
      assert Moves(fills[i]);
      if fills[i].fact.effect == Entry {
        SideAgrees(fills, i, side);
        valid := valid && (side.None? || side.value == fills[i].fact.side);
        side := Some(fills[i].fact.side);
      }
      buckets := AddFill(buckets, fills[i]);
    }
  }

  lemma SideAgrees(fills: seq<Fill>, i: nat, side: Option<Side>)
    requires OneSide(fills) && i < |fills| && Enters(fills[i].fact) && side == EntrySide(fills[..i])
    ensures side.None? || side.value == fills[i].fact.side
  {
    EntrySideSeen(fills[..i]);
    if side.Some? {
      var k :| 0 <= k < i && Enters(fills[..i][k].fact) && side == Some(fills[..i][k].fact.side);
      assert SameSide(fills[k], fills[i]);
    }
  }

  lemma FoldStep(step: (Ledger, real, real) -> Ledger, l: Ledger, buckets: Buckets, times: set<int>, t: int)
    requires IsLeast(times, t) && times <= buckets.Keys
    ensures Fold(step, l, buckets, times) == Fold(step, step(l, buckets[t].0, buckets[t].1), buckets, times - {t})
  {
    assert t == Least(times);
  }

  method Earliest(times: set<int>) returns (t: int)
    requires times != {}
    ensures IsLeast(times, t)
  {
    LeastExists(times);
    t :| t in times && IsLeast(times, t);
  }

  /** Second loop: the buckets in time order. */
  method Reduce(step: (Ledger, real, real) -> Ledger, start: Ledger, buckets: Buckets) returns (l: Ledger)
    ensures l == Fold(step, start, buckets, buckets.Keys)
  {
    l := start;
    var times := buckets.Keys;
    while times != {}
      invariant times <= buckets.Keys
      invariant Fold(step, l, buckets, times) == Fold(step, start, buckets, buckets.Keys)
      decreases |times|
    {
      var t := Earliest(times);
      FoldStep(step, l, buckets, times, t);
      l := step(l, buckets[t].0, buckets[t].1);
      times := times - {t};
    }
  }

  /** `position_check`: validate, gather, reduce, compare. */
  method CheckPosition(h: History) returns (r: Option<Check>)
    ensures r == PositionCheck(h)
  {
    var accepted := Validate(h, h.accountId, h.entryOrderId, h.symbol);
    if !accepted || h.snapshot.None? { return None; }
    AcceptedSides(h);
    var s := h.snapshot.value;
    var buckets, side, sided := Gather(h.fills);
    var l := Reduce(Bucket, EMPTY, buckets);
    var remaining, valid := l.remaining, sided && l.valid;
    var ledgerSide := if valid && remaining > 0.0 then side else None;
    return Some(Check(DEFINITION, s, if valid then Some(remaining) else None, ledgerSide,
                      valid && Matches(remaining, ledgerSide, s)));
  }
}
