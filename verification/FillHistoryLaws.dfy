/** What an accepted history promises about its facts, spelled out, and which
    facts are enough for one. */
module FillHistoryLaws {
  import opened Basics
  import opened Numbers
  import opened FillHistory

  /** Every fact of an accepted history names its position, symbol, provider and
      reading; entries name the entry order and are on one side; exits are on the
      other, and none comes before every entry. */
  lemma AcceptedFacts(h: History, account: string, order: string, symbol: string) returns (side: Side)
    requires Accepts(h, account, order, symbol)
    ensures h.accountId == account && h.entryOrderId == order && h.symbol == symbol
    ensures 0 < |h.fills| + |h.invalidations| <= 256
    ensures exists i :: 0 <= i < |Facts(h)| && Facts(h)[i].effect == Entry
    ensures forall i :: 0 <= i < |Facts(h)| ==>
              var f := Facts(h)[i];
              && f.positionId == Some(h.positionId) && f.symbol == symbol && f.asOf == h.asOf
              && f.provider == Facts(h)[0].provider && 0 < f.occurredAt <= f.asOf
              && (f.effect == Entry ==> f.orderId == order && f.side == side)
              && (f.effect != Entry ==> f.effect == Exit && f.side != side)
    ensures forall i :: 0 <= i < |Facts(h)| && Facts(h)[i].effect == Exit ==>
              exists k :: 0 <= k < |Facts(h)| && Facts(h)[k].effect == Entry
                          && Facts(h)[k].occurredAt <= Facts(h)[i].occurredAt
    ensures forall i, k :: 0 <= i < k < |Facts(h)| ==> Facts(h)[i].fillId != Facts(h)[k].fillId
  {
    var facts := Facts(h);
    var belongs := (f: Fact) => Belongs(h, order, symbol, facts[0].provider, f);
    side :| EntersOn(facts, side) && ExitsFollow(facts, side);
    forall i | 0 <= i < |facts|
      ensures Belongs(h, order, symbol, facts[0].provider, facts[i]) && OnSide(facts[i], side)
    {
      assert belongs(facts[i]);
    }
    var e :| 0 <= e < |facts| && Enters(facts[e]);
    forall i | 0 <= i < |facts| && facts[i].effect == Exit
      ensures exists k :: 0 <= k < |facts| && facts[k].effect == Entry && facts[k].occurredAt <= facts[i].occurredAt
    {
      assert EnteredBy(facts, facts[i].occurredAt);
      var k :| 0 <= k < |facts| && EntersBy(facts[k], facts[i].occurredAt);
      assert facts[k].effect == Entry;
    }
    forall i, k | 0 <= i < k < |facts| ensures facts[i].fillId != facts[k].fillId {
      assert !SameId(facts[i], facts[k]);
      assert belongs(facts[i]) && belongs(facts[k]);
    }
  }

  /** Fills of an accepted history have quantity and report cash in one currency,
      and unless an entry was cancelled they exit no more than they entered, up to
      a billionth. */
  lemma AcceptedFills(h: History, account: string, order: string, symbol: string)
    requires Accepts(h, account, order, symbol)
    ensures forall i :: 0 <= i < |h.fills| ==>
              h.fills[i].quantity > 0.0 && (h.fills[i].notional.Some? ==> h.fills[i].notional.value >= 0.0)
    ensures forall i, k :: 0 <= i < |h.fills| && 0 <= k < |h.fills| ==>
              h.fills[i].currency.None? || h.fills[k].currency.None? || h.fills[i].currency == h.fills[k].currency
    ensures (forall i :: 0 <= i < |h.invalidations| ==> h.invalidations[i].effect != Entry) ==>
              var entered, exited := Sum(EntryAmount, h.fills), Sum(ExitAmount, h.fills);
              exited - entered <= (if entered > 1.0 then entered else if entered < -1.0 then -entered else 1.0) / 1000000000.0
    ensures h.snapshot.Some? ==>
              var s := h.snapshot.value;
              && s.positionId == h.positionId && s.symbol == h.symbol && s.asOf == h.asOf && s.quantity >= 0.0
              && (s.quantity > 0.0 <==> s.side.Some?)
  {
    var sound: Fill -> bool := SoundFill;
    forall i | 0 <= i < |h.fills| ensures SoundFill(h.fills[i]) { assert sound(h.fills[i]); }
    forall i, k | 0 <= i < |h.fills| && 0 <= k < |h.fills|
      ensures h.fills[i].currency.None? || h.fills[k].currency.None? || h.fills[i].currency == h.fills[k].currency
    {
      assert SameCurrency(h.fills[i], h.fills[k]);
    }
  }

  /** The fact names this position, symbol, provider and reading, within the clock,
      and it is an entry of the order on the side, or an exit on the other. */
  ghost predicate Proper(h: History, f: Fact, provider: string, side: Side) {
    && SoundFact(f) && f.positionId == Some(h.positionId) && f.symbol == h.symbol && f.asOf == h.asOf
    && f.provider == provider
    && (h.clock == Utc || h.clock.validFrom <= f.occurredAt <= h.clock.validThrough)
    && (if f.side == side then f.effect == Entry && f.orderId == h.entryOrderId else f.effect == Exit)
  }

  /** Conversely, up to 256 proper facts with an entry before every exit, distinct
      fill ids, sound fills of one currency and no more exited than entered are a
      history. */
  lemma ProperIsAccepted(h: History, side: Side, e: nat)
    requires h.positionId != "" && Text.ByteLen(h.positionId) <= 128 && h.asOf > 0 && h.snapshot == None
    requires h.clock.Utc? || (-50400 <= h.clock.seconds <= 50400 && 0 < h.clock.validFrom <= h.clock.validThrough)
    requires |h.fills| + |h.invalidations| <= 256 && e < |Facts(h)| && Facts(h)[e].effect == Entry
    requires forall i :: 0 <= i < |Facts(h)| ==> Proper(h, Facts(h)[i], Facts(h)[0].provider, side)
    requires forall i :: 0 <= i < |Facts(h)| ==> Facts(h)[e].occurredAt <= Facts(h)[i].occurredAt
    requires forall i, k :: 0 <= i < k < |Facts(h)| ==> Facts(h)[i].fillId != Facts(h)[k].fillId
    requires AllSound(h.fills)
    requires forall i, k :: 0 <= i < |h.fills| && 0 <= k < |h.fills| ==>
               h.fills[i].currency.None? || h.fills[k].currency.None? || h.fills[i].currency == h.fills[k].currency
    requires Sum(ExitAmount, h.fills) <= Sum(EntryAmount, h.fills)
    ensures Accepts(h, h.accountId, h.entryOrderId, h.symbol)
  {
    var facts := Facts(h);
    forall i | 0 <= i < |facts| ensures Belongs(h, h.entryOrderId, h.symbol, facts[0].provider, facts[i]) {
      assert Proper(h, facts[i], facts[0].provider, side);
    }
    assert Proper(h, facts[e], facts[0].provider, side) && Enters(facts[e]);
    forall i | 0 <= i < |facts| ensures OnSide(facts[i], side) { assert Proper(h, facts[i], facts[0].provider, side); }
    assert EntersOn(facts, side);
    forall i | 0 <= i < |facts| && facts[i].effect == Exit
      ensures facts[i].side != side && EnteredBy(facts, facts[i].occurredAt)
    {
      assert Proper(h, facts[i], facts[0].provider, side) && EntersBy(facts[e], facts[i].occurredAt);
    }
    assert ExitsFollow(facts, side);
    assert Max(Abs(Sum(EntryAmount, h.fills)), 1.0) * TOLERANCE >= 0.0;
  }
}
