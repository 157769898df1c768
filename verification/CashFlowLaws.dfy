/** Which pages a cash-flow reader accepts, and what one leaves, field by field. */
module CashFlowLaws {
  import opened Basics
  import opened Text
  import opened CashFlowSpec

  ghost predicate Named(s: string, limit: nat) {
    Trim(s) != "" && ByteLen(s) <= limit && forall i :: 0 <= i < |s| ==> !IsControl(s[i])
  }

  lemma NamedExactly(s: string, limit: nat)
    ensures Identity(s, limit) <==> Named(s, limit)
  {
    if Named(s, limit) {
      forall c | c in s ensures !IsControl(c) { var i :| 0 <= i < |s| && s[i] == c; }
    }
  }

  /** Money in is never negative, money out never positive; an event happens at
      most five seconds after it was seen. */
  ghost predicate SoundRecord(page: Page, i: int, r: Flow) {
    && r.sequence == page.after + 1 + i && Named(r.eventId, 128)
    && 1 <= r.observedAt <= page.throughUs
    && (r.occurredAt != None ==>
        && 1 <= r.occurredAt.value <= 9223372036854775807 && r.occurredAt.value - r.observedAt <= 5_000_000)
    && (r.brokerTime != None ==> 1 <= r.brokerTime.value)
    && match r.kind
       case Deposit => 0.0 <= r.amount
       case Withdrawal => r.amount <= 0.0
       case _ => true
  }

  ghost predicate SoundPage(page: Page, account: string) {
    && page.version == 1 && page.accountId == account && page.jsonBytes <= 32768
    && Named(account, 128) && Named(page.currency, 32) && Named(page.provider, 128) && Named(page.sourceId, 128)
    && 1 <= page.fromUs <= page.throughUs
    && page.firstAfter <= page.after && page.next <= page.through <= 9223372036854775807
    && page.next == page.after + |page.records| && |page.records| <= 32
    && (|page.records| == 0 ==> page.next == page.through)
    && (page.coverage == ClosedSimulation ==> page.through == 0)
    && forall i :: 0 <= i < |page.records| ==> SoundRecord(page, i, page.records[i])
  }

  lemma RecordExactly(page: Page, i: nat, r: Flow)
    ensures ValidFlow(page, i, r) <==> SoundRecord(page, i, r)
  {
    NamedExactly(r.eventId, 128);
  }

  /** Exactly the pages that may be read at all. */
  lemma PageExactly(page: Page, account: string)
    ensures ValidPage(page, account) <==> SoundPage(page, account)
  {
    NamedExactly(account, 128);
    NamedExactly(page.currency, 32);
    NamedExactly(page.provider, 128);
    NamedExactly(page.sourceId, 128);
    forall i | 0 <= i < |page.records|
      ensures ValidFlow(page, i, page.records[i]) <==> SoundRecord(page, i, page.records[i])
    {
      RecordExactly(page, i, page.records[i]);
    }
  }

  /** The same source, read from where the reader stands, with watermarks that do
      not go back. */
  ghost predicate FollowsOn(s: Flows, p: Page) {
    && p.provider == s.provider && p.sourceId == s.sourceId && p.currency == s.currency && p.fromUs == s.fromUs
    && p.after == s.cursor && s.throughUs <= p.throughUs && s.through <= p.through
  }

  ghost function Seen(s: Flows, p: Page): set<string> {
    s.records.Keys + set r | r in p.records :: r.eventId
  }

  /** Exactly the pages that move the reader on, and exactly those that are taken
      for a repetition of the last one. */
  lemma AdvancesExactly(valid: Test, s: Flows, p: Page)
    ensures OutcomeOf(valid, s, p) == Repeated <==> valid(p, s.accountId) && p.next == s.cursor && s.lastPage == Some(p)
    ensures OutcomeOf(valid, s, p) == Advanced <==>
            && valid(p, s.accountId) && !(p.next == s.cursor && s.lastPage == Some(p))
            && FollowsOn(s, p) && |Seen(s, p)| <= 256
    ensures OutcomeOf(valid, s, p) == Full <==>
            && valid(p, s.accountId) && !(p.next == s.cursor && s.lastPage == Some(p))
            && FollowsOn(s, p) && |Seen(s, p)| > 256
  {
    SeenIs(s, p);
  }

  lemma SeenIs(s: Flows, p: Page)
    ensures |Seen(s, p)| == |s.records| + |Ids(p.records) - s.records.Keys|
  {
    forall id ensures id in (set r | r in p.records :: r.eventId) <==> id in Ids(p.records) {
      if r :| r in p.records && r.eventId == id {
        var i :| 0 <= i < |p.records| && p.records[i] == r;
      }
    }
    assert Seen(s, p) == s.records.Keys + (Ids(p.records) - s.records.Keys);
    assert |s.records| == |s.records.Keys|;
  }

  /** What an accepted page leaves: its own bounds and coverage, a prefix missing
      as soon as one page began after the log's start, and each of its events at
      its last revision over what was there. */
  lemma AdvanceLeaves(valid: Test, s: Flows, p: Page, id: string)
    requires OutcomeOf(valid, s, p) == Advanced
    ensures var t := Applied(valid, s, p);
            && t.cursor == p.next && t.through == p.through && t.throughUs == p.throughUs && t.coverage == p.coverage
            && (t.missingPrefix <==> s.missingPrefix || p.firstAfter >= 1)
            && t.capacityExceeded == s.capacityExceeded && t.lastPage == Some(p)
            && t.accountId == s.accountId && t.provider == s.provider && t.sourceId == s.sourceId
            && t.currency == s.currency && t.fromUs == s.fromUs
            && (id in t.records <==> id in s.records || exists i :: LastAt(p.records, i, id))
            && (forall i :: LastAt(p.records, i, id) ==> id in t.records && t.records[id] == p.records[i])
            && ((forall i :: !LastAt(p.records, i, id)) && id in s.records ==>
                t.records[id] == s.records[id])
  {
    InsertedMeans(s.records, p.records, id);
  }

  lemma {:induction false} InsertedMeans(m: map<string, Flow>, rs: seq<Flow>, id: string)
    ensures id in Inserted(m, rs) <==> id in m || exists i :: LastAt(rs, i, id)
    ensures forall i :: LastAt(rs, i, id) ==> id in Inserted(m, rs) && Inserted(m, rs)[id] == rs[i]
    ensures (forall i :: !LastAt(rs, i, id)) && id in m ==> id in Inserted(m, rs) && Inserted(m, rs)[id] == m[id]
    decreases |rs|
  {
    if rs != [] {
      var n := |rs| - 1;
      InsertedMeans(m, rs[..n], id);
      if rs[n].eventId == id {
        assert LastAt(rs, n, id);
      } else {
        forall i: int ensures LastAt(rs, i, id) <==> LastAt(rs[..n], i, id) {
          if LastAt(rs[..n], i, id) {
            forall j | i < j < |rs| ensures rs[j].eventId != id { assert j < n ==> rs[..n][j].eventId != id; }
          }
        }
      }
    }
  }

  /** A reader opened on a first page knows that page's scope and bounds, and holds
      nothing yet. */
  lemma OpensWith(p: Page)
    ensures MayOpen(p) <==> ValidPage(p, p.accountId) && p.after == p.firstAfter
    ensures var s := Opened(p);
            && s.accountId == p.accountId && FollowsOn(s, p) && s.coverage == p.coverage
            && s.cursor == p.after && s.through == p.through && s.throughUs == p.throughUs
            && (s.missingPrefix <==> p.firstAfter >= 1) && !s.capacityExceeded
            && |s.records| == 0 && s.lastPage == None
  {
  }
}
