/** Which lists of fills and cancelled fills are accepted as the history of one
    position. Quantities are reals. */
module FillHistory {
  import opened Basics
  import opened Numbers
  import opened Text

  const MAX_HISTORY_FILLS: nat := 256
  const TOLERANCE: real := 1.0 / 1000000000.0
  const I64_MAX: int := 0x7FFF_FFFF_FFFF_FFFF

  datatype Side = Buy | Sell
  datatype Effect = Entry | Exit | Reversal | Unknown

  /** What a fill and the invalidation of a fill have in common. */
  datatype Fact = Fact(
    provider: string, fillId: string, orderId: string, positionId: Option<string>, symbol: string,
    side: Side, effect: Effect, occurredAt: int, asOf: int)

  /** `currency` is the fill's cash currency, if it reports cash. */
  datatype Fill = Fill(version: nat, fact: Fact, quantity: real, price: real, currency: Option<string>, notional: Option<real>)

  datatype Clock = Utc | DeclaredFixedOffset(seconds: int, validFrom: int, validThrough: int)

  datatype Snapshot = Snapshot(positionId: string, symbol: string, quantity: real, side: Option<Side>, asOf: int)

  datatype History = History(
    accountId: string, entryOrderId: string, positionId: string, symbol: string, asOf: int, clock: Clock,
    fills: seq<Fill>, invalidations: seq<Fact>, snapshot: Option<Snapshot>)

  // ----- one fact, one fill -----

  predicate SoundFact(f: Fact) {
    && Identity(f.provider, 128) && Identity(f.fillId, 128) && Identity(f.orderId, 128) && Identity(f.symbol, 256)
    && (f.positionId.Some? ==> Identity(f.positionId.value, 128))
    && 0 < f.occurredAt <= f.asOf
  }

  predicate SoundFill(f: Fill) {
    && f.version == 1 && SoundFact(f.fact) && f.quantity > 0.0
    && (f.currency.Some? ==> Identity(f.currency.value, 32))
    && (f.notional.Some? ==> f.notional.value >= 0.0 && f.currency.Some?)
  }

  predicate SoundClock(c: Clock) {
    c.DeclaredFixedOffset? ==> -50400 <= c.seconds <= 50400 && 0 < c.validFrom <= c.validThrough
  }

  predicate InClock(c: Clock, at: int) {
    c.DeclaredFixedOffset? ==> c.validFrom <= at <= c.validThrough
  }

  /** Entries belong to the entry order; exits may close through any order. */
  predicate Belongs(h: History, order: string, symbol: string, provider: string, f: Fact) {
    && SoundFact(f)
    && f.positionId == Some(h.positionId) && f.symbol == symbol && f.asOf == h.asOf && f.provider == provider
    && InClock(h.clock, f.occurredAt)
    && (f.effect == Exit || (f.effect == Entry && f.orderId == order))
  }

  predicate Header(h: History, account: string, order: string, symbol: string) {
    && h.accountId == account && h.entryOrderId == order && h.symbol == symbol
    && h.positionId != [] && ByteLen(h.positionId) <= 128
    && 0 < |h.fills| + |h.invalidations| <= MAX_HISTORY_FILLS
    && h.asOf > 0
    && SoundClock(h.clock)
  }

  predicate SnapshotFits(h: History) {
    h.snapshot.Some? ==>
      var s := h.snapshot.value;
      && s.positionId == h.positionId && s.symbol == h.symbol && s.asOf == h.asOf
      && s.quantity >= 0.0 && (s.quantity == 0.0 <==> s.side.None?)
  }

  // ----- the whole history -----

  function FactsOf(fills: seq<Fill>): (r: seq<Fact>)
    ensures |r| == |fills|
  {
    seq(|fills|, i requires 0 <= i < |fills| => fills[i].fact)
  }

  function Facts(h: History): seq<Fact> { FactsOf(h.fills) + h.invalidations }

  ghost predicate All<T>(good: T -> bool, xs: seq<T>) {
    forall i {:trigger good(xs[i])} :: 0 <= i < |xs| ==> good(xs[i])
  }

  ghost predicate AllBelong(h: History, order: string, symbol: string, provider: string, facts: seq<Fact>) {
    All(f => Belongs(h, order, symbol, provider, f), facts)
  }

  predicate SameId(a: Fact, b: Fact) { a.provider == b.provider && a.fillId == b.fillId }

  ghost predicate Distinct(facts: seq<Fact>) {
    forall i, j {:trigger SameId(facts[i], facts[j])} :: 0 <= i < j < |facts| ==> !SameId(facts[i], facts[j])
  }

  ghost predicate AllSound(fills: seq<Fill>) {
    All(SoundFill, fills)
  }

  predicate SameCurrency(a: Fill, b: Fill) {
    a.currency.Some? && b.currency.Some? ==> a.currency == b.currency
  }

  ghost predicate OneCurrency(fills: seq<Fill>) {
    forall i, j {:trigger SameCurrency(fills[i], fills[j])} ::
      0 <= i < |fills| && 0 <= j < |fills| ==> SameCurrency(fills[i], fills[j])
  }

  predicate Enters(f: Fact) { f.effect == Entry }

  predicate OnSide(f: Fact, side: Side) { f.effect == Entry ==> f.side == side }

  ghost predicate EntersOn(facts: seq<Fact>, side: Side) {
    && (exists i {:trigger Enters(facts[i])} :: 0 <= i < |facts| && Enters(facts[i]))
    && forall i {:trigger OnSide(facts[i], side)} :: 0 <= i < |facts| ==> OnSide(facts[i], side)
  }

  predicate EntersBy(f: Fact, at: int) { f.effect == Entry && f.occurredAt <= at }

  ghost predicate EnteredBy(facts: seq<Fact>, at: int) {
    exists i {:trigger EntersBy(facts[i], at)} :: 0 <= i < |facts| && EntersBy(facts[i], at)
  }

  /** No exit on the entry side, and none before the first entry. */
  ghost predicate ExitsFollow(facts: seq<Fact>, side: Side) {
    forall i :: 0 <= i < |facts| && facts[i].effect == Exit ==>
      facts[i].side != side && EnteredBy(facts, facts[i].occurredAt)
  }

  ghost predicate Cancelled(invalidations: seq<Fact>) {
    exists i :: 0 <= i < |invalidations| && invalidations[i].effect == Entry
  }

  /** Quantity a fill adds under one effect. */
  function Amount(effect: Effect, f: Fill): real { if f.fact.effect == effect then f.quantity else 0.0 }

  ghost function Sum(weight: Fill -> real, fills: seq<Fill>): real {
    if fills == [] then 0.0 else Sum(weight, fills[..|fills| - 1]) + weight(fills[|fills| - 1])
  }

  function EntryAmount(f: Fill): real { Amount(Entry, f) }

  function ExitAmount(f: Fill): real { Amount(Exit, f) }

  ghost predicate Covered(h: History) {
    var entered, exited := Sum(EntryAmount, h.fills), Sum(ExitAmount, h.fills);
    Cancelled(h.invalidations) || exited <= entered + Max(Abs(entered), 1.0) * TOLERANCE
  }

  /** What `validate` accepts. */
  ghost predicate Accepts(h: History, account: string, order: string, symbol: string) {
    && Header(h, account, order, symbol)
    && AllBelong(h, order, symbol, Facts(h)[0].provider, Facts(h))
    && AllSound(h.fills) && OneCurrency(h.fills) && Distinct(Facts(h))
    && (exists side :: EntersOn(Facts(h), side) && ExitsFollow(Facts(h), side))
    && Covered(h) && SnapshotFits(h)
  }

  // ----- the validator's loops -----

  ghost function IdsOf(facts: seq<Fact>): set<(string, string)> {
    set i | 0 <= i < |facts| :: (facts[i].provider, facts[i].fillId)
  }

  /** The one side entries seen so far are on, if there were any. */
  ghost predicate SideSeen(done: seq<Fact>, side: Option<Side>) {
    if side.Some? then EntersOn(done, side.value)
    else forall i {:trigger Enters(done[i])} :: 0 <= i < |done| ==> !Enters(done[i])
  }

  ghost predicate FirstSeen(done: seq<Fact>, side: Option<Side>, firstEntry: int) {
    side.Some? ==> forall at :: EnteredBy(done, at) <==> firstEntry <= at
  }

  /** What both loops know after the facts `done`. */
  ghost predicate Tracked(done: seq<Fact>, ids: set<(string, string)>, side: Option<Side>, firstEntry: int) {
    ids == IdsOf(done) && Distinct(done) && SideSeen(done, side) && FirstSeen(done, side, firstEntry)
  }

  lemma IdsMore(done: seq<Fact>, f: Fact)
    requires Distinct(done)
    ensures IdsOf(done + [f]) == IdsOf(done) + {(f.provider, f.fillId)}
    ensures (f.provider, f.fillId) !in IdsOf(done) <==> Distinct(done + [f])
  {
    var more := done + [f];
    assert more[|done|] == f;
    forall id | id in IdsOf(done) + {(f.provider, f.fillId)} ensures id in IdsOf(more) {
      if id in IdsOf(done) {
        var i :| 0 <= i < |done| && (done[i].provider, done[i].fillId) == id;
        assert more[i] == done[i];
      }
    }
    if (f.provider, f.fillId) in IdsOf(done) {
      var i :| 0 <= i < |done| && (done[i].provider, done[i].fillId) == (f.provider, f.fillId);
      assert SameId(more[i], more[|done|]);
    } else {
      forall i, j | 0 <= i < j < |more| ensures !SameId(more[i], more[j]) {
        if j < |done| {
          assert !SameId(done[i], done[j]);
        } else {
          assert (done[i].provider, done[i].fillId) in IdsOf(done);
        }
      }
    }
  }

  lemma SideMore(done: seq<Fact>, side: Option<Side>, f: Fact)
    requires SideSeen(done, side)
    requires f.effect == Entry ==> side.None? || side == Some(f.side)
    ensures SideSeen(done + [f], if f.effect == Entry then Some(f.side) else side)
  {
    var more := done + [f];
    assert more[|done|] == f && Enters(more[|done|]) == (f.effect == Entry);
    if side.Some? {
      var i :| 0 <= i < |done| && Enters(done[i]);
      assert Enters(more[i]);
      forall k | 0 <= k < |more| ensures OnSide(more[k], side.value) { assert k < |done| ==> OnSide(done[k], side.value); }
    } else {
      forall k | 0 <= k < |done| ensures !Enters(more[k]) { assert !Enters(done[k]); }
      forall k | 0 <= k < |more| ensures OnSide(more[k], f.side) { assert k < |done| ==> !Enters(done[k]); }
    }
  }

  /** An entry on another side leaves no single side. */
  lemma SideClash(done: seq<Fact>, side: Side, f: Fact, all: seq<Fact>)
    requires SideSeen(done, Some(side)) && f.effect == Entry && f.side != side && done + [f] <= all
    ensures forall s :: !EntersOn(all, s)
  {
    var i :| 0 <= i < |done| && Enters(done[i]);
    assert OnSide(done[i], side);
    assert all[i] == done[i] && all[|done|] == (done + [f])[|done|] == f;
    forall s ensures !EntersOn(all, s) { assert !OnSide(all[i], s) || !OnSide(all[|done|], s); }
  }

  lemma EnteredMore(done: seq<Fact>, f: Fact, at: int)
    ensures EnteredBy(done + [f], at) <==> EnteredBy(done, at) || EntersBy(f, at)
  {
    var more := done + [f];
    assert more[|done|] == f && EntersBy(more[|done|], at) == EntersBy(f, at);
    if EnteredBy(done, at) {
      var i :| 0 <= i < |done| && EntersBy(done[i], at);
      assert EntersBy(more[i], at);
    }
    if EnteredBy(more, at) && !EntersBy(f, at) {
      var i :| 0 <= i < |more| && EntersBy(more[i], at);
      assert EntersBy(done[i], at);
    }
  }

  lemma NotEntered(done: seq<Fact>, at: int)
    requires SideSeen(done, None)
    ensures !EnteredBy(done, at)
  {
    forall i | 0 <= i < |done| ensures !EntersBy(done[i], at) { assert !Enters(done[i]); }
  }

  lemma FirstMore(done: seq<Fact>, side: Option<Side>, firstEntry: int, f: Fact)
    requires SideSeen(done, side) && FirstSeen(done, side, firstEntry)
    ensures FirstSeen(done + [f], if f.effect == Entry then Some(f.side) else side,
                      if f.effect == Entry && (side.None? || f.occurredAt < firstEntry) then f.occurredAt else firstEntry)
  {
    forall at ensures EnteredBy(done + [f], at) <==> EnteredBy(done, at) || EntersBy(f, at) {
      EnteredMore(done, f, at);
    }
    if side.None? {
      forall at ensures !EnteredBy(done, at) { NotEntered(done, at); }
    }
  }

  ghost predicate Consistent(facts: seq<Fact>) {
    Distinct(facts) && exists s :: EntersOn(facts, s)
  }

  /** One fact of either loop; a refusal is a reason to refuse the history. */
  method Track(f: Fact, ids: set<(string, string)>, side: Option<Side>, firstEntry: int,
               ghost done: seq<Fact>, ghost all: seq<Fact>)
    returns (ok: bool, ids': set<(string, string)>, side': Option<Side>, firstEntry': int)
    requires Tracked(done, ids, side, firstEntry) && done + [f] <= all
    ensures ok ==> Tracked(done + [f], ids', side', firstEntry')
    ensures !ok ==> !Consistent(all)
  {
    ok, ids', side', firstEntry' := false, ids, side, firstEntry;
    IdsMore(done, f);
    if (f.provider, f.fillId) in ids {
      NotDistinct(done + [f], all);
      return;
    }
    if f.effect == Entry && side.Some? && side.value != f.side {
      SideClash(done, side.value, f, all);
      return;
    }
    SideMore(done, side, f);
    FirstMore(done, side, firstEntry, f);
    ids' := ids + {(f.provider, f.fillId)};
    if f.effect == Entry {
      side' := Some(f.side);
      firstEntry' := if side.None? || f.occurredAt < firstEntry then f.occurredAt else firstEntry;
    }
    ok := true;
  }

  lemma NotDistinct(part: seq<Fact>, all: seq<Fact>)
    requires part <= all && !Distinct(part)
    ensures !Distinct(all)
  {
    var i, j :| 0 <= i < j < |part| && SameId(part[i], part[j]);
    assert SameId(all[i], all[j]);
  }

  ghost predicate CurrencySeen(fills: seq<Fill>, currency: Option<string>) {
    && (forall i {:trigger Reports(fills[i], currency)} :: 0 <= i < |fills| ==> fills[i].currency.None? || Reports(fills[i], currency))
    && (currency.Some? ==> exists i {:trigger Reports(fills[i], currency)} :: 0 <= i < |fills| && Reports(fills[i], currency))
  }

  predicate Reports(f: Fill, currency: Option<string>) { f.currency == currency }

  lemma CurrencyMore(fills: seq<Fill>, i: nat, currency: Option<string>)
    requires i < |fills| && CurrencySeen(fills[..i], currency)
    ensures fills[i].currency.None? ==> CurrencySeen(fills[..i + 1], currency)
    ensures fills[i].currency.Some? && (currency.None? || currency == fills[i].currency) ==>
              CurrencySeen(fills[..i + 1], fills[i].currency)
    ensures fills[i].currency.Some? && currency.Some? && currency != fills[i].currency ==> !OneCurrency(fills)
  {
    var more, latest := fills[..i + 1], fills[i].currency;
    assert more == fills[..i] + [fills[i]] && more[i] == fills[i];
    assert Reports(more[i], latest);
    forall k | 0 <= k < i ensures more[k].currency.None? || Reports(more[k], currency) {
      assert fills[..i][k].currency.None? || Reports(fills[..i][k], currency);
    }
    if latest.Some? && (currency.None? || currency == latest) {
      forall k | 0 <= k < |more| ensures more[k].currency.None? || Reports(more[k], latest) {
        assert k < i ==> more[k].currency.None? || Reports(more[k], currency);
      }
    }
    if currency.Some? {
      var k :| 0 <= k < i && Reports(fills[..i][k], currency);
      assert Reports(more[k], currency) && fills[k] == more[k];
      assert SameCurrency(fills[k], fills[i]) <==> (latest.Some? ==> currency == latest);
    }
  }

  method TrackCurrency(fills: seq<Fill>, i: nat, currency: Option<string>) returns (ok: bool, next: Option<string>)
    requires i < |fills| && CurrencySeen(fills[..i], currency)
    ensures ok ==> CurrencySeen(fills[..i + 1], next)
    ensures !ok ==> !OneCurrency(fills)
  {
    CurrencyMore(fills, i, currency);
    var reported := fills[i].currency;
    if reported.None? { return true, currency; }
    return currency.None? || currency == reported, reported;
  }

  lemma CurrencyDone(fills: seq<Fill>, currency: Option<string>)
    requires CurrencySeen(fills, currency)
    ensures OneCurrency(fills)
  {
    forall i, j | 0 <= i < |fills| && 0 <= j < |fills| ensures SameCurrency(fills[i], fills[j]) {
      assert fills[i].currency.None? || Reports(fills[i], currency);
      assert fills[j].currency.None? || Reports(fills[j], currency);
    }
  }

  lemma AllMore<T>(good: T -> bool, xs: seq<T>, x: T)
    ensures All(good, xs + [x]) <==> All(good, xs) && good(x)
  {
    var more := xs + [x];
    if All(good, more) {
      assert good(more[|xs|]);
      forall i | 0 <= i < |xs| ensures good(xs[i]) { assert good(more[i]); }
    }
    if All(good, xs) && good(x) {
      forall i | 0 <= i < |more| ensures good(more[i]) { assert i < |xs| ==> good(xs[i]); }
    }
  }

  lemma AllPart<T>(good: T -> bool, part: seq<T>, xs: seq<T>)
    requires part <= xs && !All(good, part)
    ensures !All(good, xs)
  {
    var i :| 0 <= i < |part| && !good(part[i]);
    assert !good(xs[i]);
  }

  /** Reasons to refuse that a scan can meet. */
  ghost predicate Refusable(belongs: Fact -> bool, sound: Fill -> bool, h: History) {
    !All(belongs, Facts(h)) || !Consistent(Facts(h)) || !All(sound, h.fills) || !OneCurrency(h.fills)
  }

  lemma SumMore(weight: Fill -> real, fills: seq<Fill>, i: nat)
    requires i < |fills|
    ensures Sum(weight, fills[..i + 1]) == Sum(weight, fills[..i]) + weight(fills[i])
  {
    assert fills[..i + 1][..i] == fills[..i];
  }

  lemma FactsUpTo(h: History, i: nat)
    requires i < |h.fills|
    ensures FactsOf(h.fills[..i + 1]) == FactsOf(h.fills[..i]) + [h.fills[i].fact]
    ensures FactsOf(h.fills[..i]) + [h.fills[i].fact] <= Facts(h)
  {
  }

  /** The loop over fills; `belongs` and `sound` are the tests on one item. */
  method ScanFills(h: History, belongs: Fact -> bool, sound: Fill -> bool)
    returns (ok: bool, ids: set<(string, string)>, side: Option<Side>, firstEntry: int, entered: real, exited: real)
    requires forall f :: belongs(f) ==> f.effect == Entry || f.effect == Exit
    ensures ok ==> All(belongs, FactsOf(h.fills)) && All(sound, h.fills) && OneCurrency(h.fills)
    ensures ok ==> Tracked(FactsOf(h.fills), ids, side, firstEntry)
    ensures ok ==> entered == Sum(EntryAmount, h.fills) && exited == Sum(ExitAmount, h.fills)
    ensures !ok ==> Refusable(belongs, sound, h)
  {
    ok, ids, side, firstEntry, entered, exited := true, {}, None, I64_MAX, 0.0, 0.0;
    var currency: Option<string> := None;
    for i := 0 to |h.fills|
      invariant ok && All(belongs, FactsOf(h.fills[..i])) && All(sound, h.fills[..i])
      invariant CurrencySeen(h.fills[..i], currency) && Tracked(FactsOf(h.fills[..i]), ids, side, firstEntry)
      invariant entered == Sum(EntryAmount, h.fills[..i]) && exited == Sum(ExitAmount, h.fills[..i])
    {
      var fill := h.fills[i];
      FillsUpTo(h, i, belongs, sound);
      if !sound(fill) || !belongs(fill.fact) {
        ok := false;
        return;
      }
      ok, ids, side, firstEntry := Track(fill.fact, ids, side, firstEntry, FactsOf(h.fills[..i]), Facts(h));
      if !ok { return; }
      ok, currency := TrackCurrency(h.fills, i, currency);
      if !ok { return; }
      SumMore(EntryAmount, h.fills, i);
      SumMore(ExitAmount, h.fills, i);
      if fill.fact.effect == Entry { entered := entered + fill.quantity; } else { exited := exited + fill.quantity; }
    }
    assert h.fills[..|h.fills|] == h.fills;
    CurrencyDone(h.fills, currency);
  }

  lemma FillsUpTo(h: History, i: nat, belongs: Fact -> bool, sound: Fill -> bool)
    requires i < |h.fills| && All(belongs, FactsOf(h.fills[..i])) && All(sound, h.fills[..i])
    ensures FactsOf(h.fills[..i + 1]) == FactsOf(h.fills[..i]) + [h.fills[i].fact]
    ensures FactsOf(h.fills[..i]) + [h.fills[i].fact] <= Facts(h)
    ensures if sound(h.fills[i]) then All(sound, h.fills[..i + 1]) else !All(sound, h.fills)
    ensures if belongs(h.fills[i].fact) then All(belongs, FactsOf(h.fills[..i + 1])) else !All(belongs, Facts(h))
  {
    FactsUpTo(h, i);
    assert h.fills[..i + 1] == h.fills[..i] + [h.fills[i]] && h.fills[..i + 1] <= h.fills;
    AllMore(sound, h.fills[..i], h.fills[i]);
    AllMore(belongs, FactsOf(h.fills[..i]), h.fills[i].fact);
    if !sound(h.fills[i]) { AllPart(sound, h.fills[..i + 1], h.fills); }
    if !belongs(h.fills[i].fact) { AllPart(belongs, FactsOf(h.fills[..i + 1]), Facts(h)); }
  }

  lemma InvalidationsUpTo(h: History, i: nat, belongs: Fact -> bool)
    requires i < |h.invalidations| && All(belongs, FactsOf(h.fills) + h.invalidations[..i])
    ensures FactsOf(h.fills) + h.invalidations[..i + 1] == FactsOf(h.fills) + h.invalidations[..i] + [h.invalidations[i]]
    ensures FactsOf(h.fills) + h.invalidations[..i] + [h.invalidations[i]] <= Facts(h)
    ensures if belongs(h.invalidations[i]) then All(belongs, FactsOf(h.fills) + h.invalidations[..i + 1])
            else !All(belongs, Facts(h))
  {
    var done := FactsOf(h.fills) + h.invalidations[..i];
    assert FactsOf(h.fills) + h.invalidations[..i + 1] == done + [h.invalidations[i]];
    AllMore(belongs, done, h.invalidations[i]);
    if !belongs(h.invalidations[i]) { AllPart(belongs, done + [h.invalidations[i]], Facts(h)); }
  }

  /** The loop over invalidations goes on where the fills ended. */
  method ScanInvalidations(h: History, belongs: Fact -> bool, ghost sound: Fill -> bool,
                           ids0: set<(string, string)>, side0: Option<Side>, firstEntry0: int)
    returns (ok: bool, side: Option<Side>, firstEntry: int, cancelled: bool)
    requires All(belongs, FactsOf(h.fills)) && Tracked(FactsOf(h.fills), ids0, side0, firstEntry0)
    ensures ok ==> All(belongs, Facts(h)) && Distinct(Facts(h))
    ensures ok ==> SideSeen(Facts(h), side) && FirstSeen(Facts(h), side, firstEntry)
    ensures ok ==> (cancelled <==> Cancelled(h.invalidations))
    ensures !ok ==> Refusable(belongs, sound, h)
  {
    ok, side, firstEntry, cancelled := true, side0, firstEntry0, false;
    var ids := ids0;
    assert FactsOf(h.fills) + h.invalidations[..0] == FactsOf(h.fills);
    for i := 0 to |h.invalidations|
      invariant ok && All(belongs, FactsOf(h.fills) + h.invalidations[..i])
      invariant Tracked(FactsOf(h.fills) + h.invalidations[..i], ids, side, firstEntry)
      invariant cancelled <==> exists k :: 0 <= k < i && h.invalidations[k].effect == Entry
    {
      InvalidationsUpTo(h, i, belongs);
      if !belongs(h.invalidations[i]) {
        ok := false;
        return;
      }
      ok, ids, side, firstEntry := Track(h.invalidations[i], ids, side, firstEntry,
                                         FactsOf(h.fills) + h.invalidations[..i], Facts(h));
      if !ok { return; }
      if h.invalidations[i].effect == Entry { cancelled := true; }
    }
    assert h.invalidations[..|h.invalidations|] == h.invalidations;
  }

  predicate BadExit(f: Fact, side: Side, firstEntry: int) {
    f.effect == Exit && (f.side == side || f.occurredAt < firstEntry)
  }

  lemma ExitsChecked(facts: seq<Fact>, side: Side, firstEntry: int)
    requires SideSeen(facts, Some(side)) && FirstSeen(facts, Some(side), firstEntry)
    ensures (exists s :: EntersOn(facts, s) && ExitsFollow(facts, s))
            <==> forall i :: 0 <= i < |facts| ==> !BadExit(facts[i], side, firstEntry)
  {
    if forall i :: 0 <= i < |facts| ==> !BadExit(facts[i], side, firstEntry) {
      assert ExitsFollow(facts, side);
    }
    forall s | EntersOn(facts, s) && ExitsFollow(facts, s)
      ensures forall i :: 0 <= i < |facts| ==> !BadExit(facts[i], side, firstEntry)
    {
      var k :| 0 <= k < |facts| && Enters(facts[k]);
      assert OnSide(facts[k], s) && OnSide(facts[k], side);
    }
  }

  lemma EitherList(h: History, side: Side, firstEntry: int)
    ensures (forall i :: 0 <= i < |Facts(h)| ==> !BadExit(Facts(h)[i], side, firstEntry))
            <==> (forall i :: 0 <= i < |h.fills| ==> !BadExit(h.fills[i].fact, side, firstEntry))
                 && forall i :: 0 <= i < |h.invalidations| ==> !BadExit(h.invalidations[i], side, firstEntry)
  {
    var facts, n := Facts(h), |h.fills|;
    assert forall i :: 0 <= i < n ==> facts[i] == h.fills[i].fact;
    assert forall i :: 0 <= i < |h.invalidations| ==> facts[n + i] == h.invalidations[i];
  }

  lemma NoSide(facts: seq<Fact>)
    requires SideSeen(facts, None)
    ensures forall s :: !EntersOn(facts, s)
  {
  }

  /** The whole validator. */
  method Validate(h: History, account: string, order: string, symbol: string) returns (ok: bool)
    ensures ok <==> Accepts(h, account, order, symbol)
  {
    if !Header(h, account, order, symbol) { return false; }
    var provider := if |h.fills| > 0 then h.fills[0].fact.provider else h.invalidations[0].provider;
    assert provider == Facts(h)[0].provider;
    var belongs := (f: Fact) => Belongs(h, order, symbol, provider, f);
    assert AllBelong(h, order, symbol, provider, Facts(h)) <==> All(belongs, Facts(h));
    var ids, side, firstEntry, entered, exited, cancelled;
    ok, ids, side, firstEntry, entered, exited := ScanFills(h, belongs, SoundFill);
    if !ok { return; }
    ok, side, firstEntry, cancelled := ScanInvalidations(h, belongs, SoundFill, ids, side, firstEntry);
    if !ok { return; }
    if side.None? {
      NoSide(Facts(h));
      return false;
    }
    ExitsChecked(Facts(h), side.value, firstEntry);
    EitherList(h, side.value, firstEntry);
    if !cancelled && exited > entered + Max(Abs(entered), 1.0) * TOLERANCE { return false; }
    if exists i :: 0 <= i < |h.fills| && BadExit(h.fills[i].fact, side.value, firstEntry) { return false; }
    if exists i :: 0 <= i < |h.invalidations| && BadExit(h.invalidations[i], side.value, firstEntry) { return false; }
    return SnapshotFits(h);
  }
}
