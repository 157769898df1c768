/** Cash flows of an account: a source hands out its revision log in pages, and a
    reader keeps each event's latest revision. A page's SHA-256 digest is the page
    itself, and `jsonBytes` is the length of its JSON text. */
module CashFlowSpec {
  import opened Basics
  import opened Text

  const PAGE_ROWS: nat := 32
  const RETAINED_ROWS: nat := 256
  const PAGE_BYTES: nat := 32 * 1024
  const I64_MAX: int := 0x7FFF_FFFF_FFFF_FFFF

  datatype Kind =
    | Deposit | Withdrawal | Balance | Credit | Charge | Correction | Bonus
    | Commission | Interest | Dividend | Tax | CancelledTrade | UnknownKind

  datatype Coverage = ObservedOnly | Complete | ClosedSimulation

  datatype Flow = Flow(
    sequence: nat, eventId: string, kind: Kind, amount: real, occurredAt: Option<int>, observedAt: int,
    brokerTime: Option<int>, deleted: bool)

  datatype Page = Page(
    version: nat, provider: string, sourceId: string, accountId: string, currency: string, fromUs: int, throughUs: int,
    coverage: Coverage, firstAfter: nat, after: nat, next: nat, through: nat, records: seq<Flow>, jsonBytes: nat)

  function Saturated(x: int): int { if x > I64_MAX then I64_MAX else x }

  predicate ValidFlow(page: Page, i: nat, r: Flow) {
    && r.sequence == page.after + i + 1
    && Identity(r.eventId, 128)
    && 0 < r.observedAt <= page.throughUs
    && (r.occurredAt.Some? ==> 0 < r.occurredAt.value <= Saturated(r.observedAt + 5_000_000))
    && (r.brokerTime.Some? ==> r.brokerTime.value > 0)
    && (r.kind == Deposit ==> r.amount >= 0.0)
    && (r.kind == Withdrawal ==> r.amount <= 0.0)
  }

  predicate ValidHeader(page: Page, account: string) {
    && page.version == 1 && page.accountId == account
    && Identity(account, 128) && Identity(page.currency, 32) && Identity(page.provider, 128)
    && Identity(page.sourceId, 128)
    && 0 < page.fromUs <= page.throughUs
    && page.firstAfter <= page.after <= page.next <= page.through <= I64_MAX
    && |page.records| <= PAGE_ROWS && page.next - page.after == |page.records|
    && (page.records == [] ==> page.next == page.through)
    && (page.coverage == ClosedSimulation ==> page.through == 0 && page.records == [])
  }

  predicate ValidPage(page: Page, account: string) {
    && ValidHeader(page, account)
    && (forall i :: 0 <= i < |page.records| ==> ValidFlow(page, i, page.records[i]))
    && page.jsonBytes <= PAGE_BYTES
  }

  datatype Flows = Flows(
    provider: string, sourceId: string, accountId: string, currency: string, fromUs: int, throughUs: int,
    cursor: nat, through: nat, coverage: Coverage, missingPrefix: bool, capacityExceeded: bool,
    records: map<string, Flow>, lastPage: Option<Page>)

  predicate IsRetry(s: Flows, p: Page) { s.cursor == p.next && s.lastPage == Some(p) }

  predicate Continues(s: Flows, p: Page) {
    && s.provider == p.provider && s.sourceId == p.sourceId && s.currency == p.currency && s.fromUs == p.fromUs
    && p.after == s.cursor && p.throughUs >= s.throughUs && p.through >= s.through
  }

  function Ids(rs: seq<Flow>): set<string> { set i | 0 <= i < |rs| :: rs[i].eventId }

  predicate Fits(s: Flows, p: Page) {
    |s.records| + |Ids(p.records) - s.records.Keys| <= RETAINED_ROWS
  }

  /** Later revisions of an event replace earlier ones. */
  function Inserted(m: map<string, Flow>, rs: seq<Flow>): map<string, Flow> {
    if rs == [] then m
    else
      var r := rs[|rs| - 1];
      Inserted(m, rs[..|rs| - 1])[r.eventId := r]
  }

  function Latest(log: seq<Flow>): map<string, Flow> { Inserted(map[], log) }

  datatype Outcome = Advanced | Repeated | Invalid | Moved | Full

  /** The page test, passed along as a value. */
  type Test = (Page, string) -> bool

  function OutcomeOf(valid: Test, s: Flows, p: Page): Outcome {
    if !valid(p, s.accountId) then Invalid
    else if IsRetry(s, p) then Repeated
    else if !Continues(s, p) then Moved
    else if !Fits(s, p) then Full
    else Advanced
  }

  function Advance(s: Flows, p: Page): Flows {
    s.(records := Inserted(s.records, p.records), cursor := p.next, through := p.through, throughUs := p.throughUs,
       coverage := p.coverage, missingPrefix := s.missingPrefix || p.firstAfter > 0, lastPage := Some(p))
  }

  function Applied(valid: Test, s: Flows, p: Page): Flows {
    match OutcomeOf(valid, s, p)
    case Full => s.(capacityExceeded := true)
    case Advanced => Advance(s, p)
    case _ => s
  }

  function Opened(p: Page): Flows {
    Flows(p.provider, p.sourceId, p.accountId, p.currency, p.fromUs, p.throughUs, p.after, p.through, p.coverage,
          p.firstAfter != 0, false, map[], None)
  }

  predicate MayOpen(p: Page) { ValidPage(p, p.accountId) && p.after == p.firstAfter }

  // ----- what the retained map means -----

  ghost predicate LastAt(log: seq<Flow>, i: int, id: string) {
    && 0 <= i < |log| && log[i].eventId == id
    && forall j :: i < j < |log| ==> log[j].eventId != id
  }

  ghost predicate HoldsLatest(m: map<string, Flow>, log: seq<Flow>, id: string) {
    && (id in m <==> exists i :: LastAt(log, i, id))
    && (id in m ==> forall i :: LastAt(log, i, id) ==> m[id] == log[i])
  }

  /** The map holds every event of the log, each at its latest revision. */
  lemma {:induction false} LatestMeans(log: seq<Flow>, id: string)
    ensures HoldsLatest(Latest(log), log, id)
    decreases |log|
  {
    if log != [] {
      var n := |log| - 1;
      LatestMeans(log[..n], id);
      if log[n].eventId == id {
        assert LastAt(log, n, id);
      } else {
        forall i: int ensures LastAt(log, i, id) <==> LastAt(log[..n], i, id) {
          if LastAt(log[..n], i, id) {
            forall j | i < j < |log| ensures log[j].eventId != id { assert j < n ==> log[..n][j].eventId != id; }
          }
        }
      }
    }
  }

  lemma {:induction false} InsertedConcat(m: map<string, Flow>, a: seq<Flow>, b: seq<Flow>)
    ensures Inserted(Inserted(m, a), b) == Inserted(m, a + b)
    decreases |b|
  {
    if b == [] {
      assert a + b == a;
    } else {
      InsertedConcat(m, a, b[..|b| - 1]);
      assert (a + b)[..|a + b| - 1] == a + b[..|b| - 1];
    }
  }

  lemma {:induction false} InsertedKeys(m: map<string, Flow>, rs: seq<Flow>)
    ensures Inserted(m, rs).Keys == m.Keys + Ids(rs)
    decreases |rs|
  {
    if rs != [] {
      var n := |rs| - 1;
      InsertedKeys(m, rs[..n]);
      IdsMore(rs[..n], rs[n]);
      assert rs[..n] + [rs[n]] == rs;
    }
  }

  lemma IdsMore(rs: seq<Flow>, r: Flow)
    ensures Ids(rs + [r]) == Ids(rs) + {r.eventId}
  {
    var more := rs + [r];
    assert more[|rs|] == r;
    forall id | id in Ids(rs) + {r.eventId} ensures id in Ids(more) {
      if id in Ids(rs) {
        var i :| 0 <= i < |rs| && rs[i].eventId == id;
        assert more[i] == rs[i];
      }
    }
  }

  lemma InsertedSize(m: map<string, Flow>, rs: seq<Flow>)
    ensures |Inserted(m, rs)| == |m| + |Ids(rs) - m.Keys|
  {
    InsertedKeys(m, rs);
    assert |Inserted(m, rs)| == |Inserted(m, rs).Keys| && |m| == |m.Keys|;
    assert m.Keys + Ids(rs) == m.Keys + (Ids(rs) - m.Keys);
  }

  // ----- runs -----

  /** What every accepted page looks like. */
  ghost predicate Shaped(p: Page) {
    && p.after <= p.next <= p.through && p.next - p.after == |p.records|
    && forall i :: 0 <= i < |p.records| ==> p.records[i].sequence == p.after + i + 1
  }

  ghost predicate Tests(valid: Test) {
    forall p, account {:trigger valid(p, account)} :: valid(p, account) ==> Shaped(p)
  }

  lemma ValidPageTests()
    ensures Tests(ValidPage)
  {
    forall p, account | ValidPage(p, account) ensures Shaped(p) {
      forall i | 0 <= i < |p.records| ensures p.records[i].sequence == p.after + i + 1 {
        assert ValidFlow(p, i, p.records[i]);
      }
    }
  }

  ghost predicate Sequenced(log: seq<Flow>, first: nat) {
    forall i :: 0 <= i < |log| ==> log[i].sequence == first + i + 1
  }

  /** The state is the fold of the part `log` of the revision log that follows
      the first boundary. */
  ghost predicate Inv(s: Flows, first: nat, log: seq<Flow>) {
    && s.cursor == first + |log| <= s.through
    && Sequenced(log, first)
    && s.records == Latest(log) && |s.records| <= RETAINED_ROWS
  }

  /** What a page adds to the log. */
  ghost function Added(valid: Test, s: Flows, p: Page): seq<Flow> {
    if OutcomeOf(valid, s, p) == Advanced then p.records else []
  }

  lemma AdvanceKeeps(s: Flows, p: Page, first: nat, log: seq<Flow>)
    requires Inv(s, first, log) && Shaped(p) && Continues(s, p) && Fits(s, p)
    ensures Inv(Advance(s, p), first, log + p.records)
  {
    InsertedConcat(map[], log, p.records);
    InsertedSize(s.records, p.records);
  }

  lemma AppliedKeeps(valid: Test, s: Flows, p: Page, first: nat, log: seq<Flow>)
    requires Inv(s, first, log) && Tests(valid)
    ensures Inv(Applied(valid, s, p), first, log + Added(valid, s, p))
  {
    assert log + [] == log;
    if OutcomeOf(valid, s, p) == Advanced { AdvanceKeeps(s, p, first, log); }
  }

  lemma OpenedKeeps(p: Page)
    requires MayOpen(p)
    ensures Inv(Opened(p), p.firstAfter, [])
  {
  }

  ghost function Run(valid: Test, s: Flows, pages: seq<Page>): Flows
    decreases |pages|
  {
    if pages == [] then s else Run(valid, Applied(valid, s, pages[0]), pages[1..])
  }

  /** The accepted records of a run, in order. */
  ghost function LogOf(valid: Test, s: Flows, pages: seq<Page>): seq<Flow>
    decreases |pages|
  {
    if pages == [] then [] else Added(valid, s, pages[0]) + LogOf(valid, Applied(valid, s, pages[0]), pages[1..])
  }

  /** Watermarks and the cursor only move forward; the scope never changes. */
  ghost predicate Forward(s: Flows, t: Flows) {
    && s.cursor <= t.cursor && s.through <= t.through && s.throughUs <= t.throughUs
    && (s.missingPrefix ==> t.missingPrefix) && (s.capacityExceeded ==> t.capacityExceeded)
    && t.provider == s.provider && t.sourceId == s.sourceId && t.accountId == s.accountId
    && t.currency == s.currency && t.fromUs == s.fromUs
  }

  lemma AppliedForward(valid: Test, s: Flows, p: Page)
    requires Tests(valid)
    ensures Forward(s, Applied(valid, s, p))
  {
  }

  /** After any run of accepted, rejected and repeated pages the retained map is
      the latest-revision fold of the log from the first boundary to the cursor. */
  lemma {:induction false} RunKeeps(valid: Test, s: Flows, pages: seq<Page>, first: nat, log: seq<Flow>)
    requires Inv(s, first, log) && Tests(valid)
    ensures Inv(Run(valid, s, pages), first, log + LogOf(valid, s, pages))
    decreases |pages|
  {
    if pages == [] {
      assert log + [] == log;
    } else {
      var s1, more := Applied(valid, s, pages[0]), Added(valid, s, pages[0]);
      AppliedKeeps(valid, s, pages[0], first, log);
      RunKeeps(valid, s1, pages[1..], first, log + more);
      Regroup(log, more, LogOf(valid, s1, pages[1..]));
    }
  }

  lemma Regroup(a: seq<Flow>, b: seq<Flow>, c: seq<Flow>)
    ensures a + b + c == a + (b + c)
  {
  }

  /** Cursor and watermarks never regress over a run. */
  lemma {:induction false} RunForward(valid: Test, s: Flows, pages: seq<Page>)
    requires Tests(valid)
    ensures Forward(s, Run(valid, s, pages))
    decreases |pages|
  {
    if pages != [] {
      AppliedForward(valid, s, pages[0]);
      RunForward(valid, Applied(valid, s, pages[0]), pages[1..]);
    }
  }

  /** A page is the stretch of the source's log that its bounds announce. */
  ghost predicate SliceOf(source: seq<Flow>, p: Page) {
    p.after <= p.next <= |source| && p.records == source[p.after..p.next]
  }

  /** Each page the run accepts as new is a stretch of that log; a page that is
      refused, or that repeats the last one, may hold anything. */
  ghost predicate ReadsFrom(valid: Test, s: Flows, pages: seq<Page>, source: seq<Flow>)
    decreases |pages|
  {
    pages == []
    || (&& (OutcomeOf(valid, s, pages[0]) == Advanced ==> SliceOf(source, pages[0]))
        && ReadsFrom(valid, Applied(valid, s, pages[0]), pages[1..], source))
  }

  lemma {:induction false} LogIsSlice(valid: Test, s: Flows, pages: seq<Page>, source: seq<Flow>)
    requires s.cursor <= |source| && ReadsFrom(valid, s, pages, source)
    ensures s.cursor <= Run(valid, s, pages).cursor <= |source|
    ensures LogOf(valid, s, pages) == source[s.cursor..Run(valid, s, pages).cursor]
    decreases |pages|
  {
    if pages != [] {
      var s1 := Applied(valid, s, pages[0]);
      LogIsSlice(valid, s1, pages[1..], source);
      Slices(source, s.cursor, s1.cursor, Run(valid, s1, pages[1..]).cursor);
    }
  }

  lemma Slices(source: seq<Flow>, a: nat, b: nat, c: nat)
    requires a <= b <= c <= |source|
    ensures source[a..b] + source[b..c] == source[a..c] && (a == b ==> source[a..b] == [])
  {
  }

  /** After any run of pages, malformed and foreign ones included, that accepts
      only stretches of one source log, the map is exactly the fold of that log
      between the first boundary and the cursor, with at most 256 events. */
  lemma RetainedIsFold(p: Page, pages: seq<Page>, source: seq<Flow>)
    requires MayOpen(p) && p.after <= |source| && ReadsFrom(ValidPage, Opened(p), pages, source)
    ensures var t := Run(ValidPage, Opened(p), pages);
            && p.firstAfter <= t.cursor <= |source|
            && t.records == Latest(source[p.firstAfter..t.cursor]) && |t.records| <= RETAINED_ROWS
            && Forward(Opened(p), t)
  {
    ValidPageTests();
    OpenedKeeps(p);
    RunKeeps(ValidPage, Opened(p), pages, p.firstAfter, []);
    RunForward(ValidPage, Opened(p), pages);
    LogIsSlice(ValidPage, Opened(p), pages, source);
    assert [] + LogOf(ValidPage, Opened(p), pages) == LogOf(ValidPage, Opened(p), pages);
  }

  /** A rejection changes nothing but the capacity flag, and that only for lack
      of room. */
  lemma RejectionChangesNothing(valid: Test, s: Flows, p: Page)
    requires OutcomeOf(valid, s, p) != Advanced
    ensures Applied(valid, s, p).(capacityExceeded := s.capacityExceeded) == s
    ensures Applied(valid, s, p) != s ==> OutcomeOf(valid, s, p) == Full && Applied(valid, s, p).capacityExceeded
  {
  }

  ghost predicate NoneAdvances(valid: Test, s: Flows, pages: seq<Page>)
    decreases |pages|
  {
    pages == [] || (OutcomeOf(valid, s, pages[0]) != Advanced && NoneAdvances(valid, Applied(valid, s, pages[0]), pages[1..]))
  }

  /** The last accepted page may be retried at any time, rejections in between
      included: it is accepted again and changes nothing. */
  lemma {:induction false} RetryIsNoOp(valid: Test, s: Flows, p: Page, pages: seq<Page>)
    requires valid(p, s.accountId) && IsRetry(s, p) && NoneAdvances(valid, s, pages)
    ensures var t := Run(valid, s, pages);
            OutcomeOf(valid, t, p) == Repeated && Applied(valid, t, p) == t
    decreases |pages|
  {
    if pages != [] { RetryIsNoOp(valid, Applied(valid, s, pages[0]), p, pages[1..]); }
  }

  lemma AcceptedMayRetry(valid: Test, s: Flows, p: Page)
    requires OutcomeOf(valid, s, p) == Advanced
    ensures var t := Applied(valid, s, p);
            valid(p, t.accountId) && IsRetry(t, p)
  {
  }
}

/** The retained state as the object a reader updates in place. */
module CashFlow {
  import opened Basics
  import opened CashFlowSpec

  method ValidatePage(page: Page, account: string) returns (ok: bool)
    ensures ok <==> ValidPage(page, account)
  {
    if !ValidHeader(page, account) { return false; }
    for i := 0 to |page.records|
      invariant forall k :: 0 <= k < i ==> ValidFlow(page, k, page.records[k])
    {
      if !ValidFlow(page, i, page.records[i]) { return false; }
    }
    return page.jsonBytes <= PAGE_BYTES;
  }

  class AccountCashFlows {
    const provider: string
    const sourceId: string
    const accountId: string
    const currency: string
    const fromUs: int
    var throughUs: int
    var cursor: nat
    var through: nat
    var coverage: Coverage
    var missingPrefix: bool
    var capacityExceeded: bool
    var records: map<string, Flow>
    var lastPage: Option<Page>

    ghost function Value(): Flows
      reads this
    {
      Flows(provider, sourceId, accountId, currency, fromUs, throughUs, cursor, through, coverage, missingPrefix,
            capacityExceeded, records, lastPage)
    }

    /** Scope and watermarks of a source's first page, before its records. */
    constructor (p: Page)
      requires MayOpen(p)
      ensures Value() == Opened(p) && Inv(Value(), p.firstAfter, [])
    {
      provider, sourceId, accountId, currency, fromUs := p.provider, p.sourceId, p.accountId, p.currency, p.fromUs;
      throughUs, cursor, through, coverage := p.throughUs, p.after, p.through, p.coverage;
      missingPrefix, capacityExceeded, records, lastPage := p.firstAfter != 0, false, map[], None;
    }

    /** Inserts the page's records one by one. */
    method Insert(rs: seq<Flow>)
      modifies `records
      ensures records == Inserted(old(records), rs)
    {
      for i := 0 to |rs|
        invariant records == Inserted(old(records), rs[..i])
      {
        assert rs[..i + 1][..i] == rs[..i];
        records := records[rs[i].eventId := rs[i]];
      }
      assert rs[..|rs|] == rs;
    }

    method Apply(p: Page) returns (ok: bool)
      modifies this
      ensures Value() == Applied(ValidPage, old(Value()), p)
      ensures ok <==> OutcomeOf(ValidPage, old(Value()), p) in {Advanced, Repeated}
    {
      var valid := ValidatePage(p, accountId);
      if !valid { return false; }
      ok := ApplyValid(p, ValidPage);
    }

    /** What a page that passed its test leads to. */
    method Judge(p: Page, ghost valid: Test) returns (o: Outcome)
      requires valid(p, accountId)
      ensures o == OutcomeOf(valid, Value(), p)
    {
      if cursor == p.next && lastPage == Some(p) { return Repeated; }
      if || provider != p.provider || sourceId != p.sourceId || currency != p.currency || fromUs != p.fromUs
         || p.after != cursor || p.throughUs < throughUs || p.through < through
      {
        return Moved;
      }
      if |records| + |Ids(p.records) - records.Keys| > RETAINED_ROWS { return Full; }
      return Advanced;
    }

    /** The rest of `apply`. */
    method ApplyValid(p: Page, ghost valid: Test) returns (ok: bool)
      requires valid(p, accountId)
      modifies this
      ensures Value() == Applied(valid, old(Value()), p)
      ensures ok <==> OutcomeOf(valid, old(Value()), p) in {Advanced, Repeated}
    {
      var o := Judge(p, valid);
      if o == Full { capacityExceeded := true; }
      if o == Advanced {
        Insert(p.records);
        cursor, through, throughUs, coverage := p.next, p.through, p.throughUs, p.coverage;
        missingPrefix := missingPrefix || p.firstAfter > 0;
        lastPage := Some(p);
      }
      return o == Advanced || o == Repeated;
    }
  }

  /** `from_page`: the first page must start at the retained boundary, and its
      records are applied like any other page's. */
  method FromPage(p: Page) returns (r: Option<AccountCashFlows>)
    ensures r.Some? ==> MayOpen(p) && fresh(r.value) && r.value.Value() == Applied(ValidPage, Opened(p), p)
    ensures r.Some? <==> MayOpen(p) && OutcomeOf(ValidPage, Opened(p), p) in {Advanced, Repeated}
  {
    var valid := ValidatePage(p, p.accountId);
    if !valid || p.after != p.firstAfter { return None; }
    var state := new AccountCashFlows(p);
    var ok := state.Apply(p);
    if !ok { return None; }
    return Some(state);
  }
}
