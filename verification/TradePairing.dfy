/** Pairing entries with exits, once for the metrics and once for the stored
    trade log. Prices and quantities are reals. */
module TradePairing {
  import opened Basics
  import opened Numbers

  datatype OrderSide = Buy | Sell
  datatype RecordType = Entry | Exit

  datatype TradeRecord = TradeRecord(
    orderId: string, recordType: RecordType, side: OrderSide, price: real, qty: real, commission: real, swap: real)

  datatype Open = Open(entry: TradeRecord, remaining: real)

  type Book = map<string, Open>

  /** One exit matched against one entry. */
  datatype Match = Match(entry: TradeRecord, exit: TradeRecord, qty: real)

  datatype RoundTrip = RoundTrip(
    orderId: string, entryPrice: real, exitPrice: real, qty: real, pnl: real, commission: real, swap: real, returnPct: real)

  datatype Status = ClosedRow | PartialRow | ExitRow | OpenRow

  datatype Row = Row(
    qty: real, entryPrice: real, exitPrice: Option<real>, pnl: Option<real>, commission: real, swap: real,
    returnPct: Option<real>, status: Status)

  /** The entry's commission in proportion to the matched quantity. */
  function EntryShare(entry: TradeRecord, qty: real): real {
    if Abs(entry.qty) > EPSILON then entry.commission * (qty / entry.qty) else 0.0
  }

  function Gross(m: Match): real {
    match m.entry.side
    case Buy => (m.exit.price - m.entry.price) * m.qty
    case Sell => (m.entry.price - m.exit.price) * m.qty
  }

  function Charged(m: Match): real { EntryShare(m.entry, m.qty) + m.exit.commission }

  function Pnl(m: Match): real { Gross(m) + m.exit.swap - Charged(m) }

  function Percent(pnl: real, basis: real): real { if basis == 0.0 then 0.0 else pnl / basis * 100.0 }

  function TripReturn(m: Match): real {
    if m.entry.price != 0.0 then Percent(Pnl(m), m.entry.price * m.qty) else 0.0
  }

  function TripOf(m: Match): RoundTrip {
    RoundTrip(m.entry.orderId, m.entry.price, m.exit.price, m.qty, Pnl(m), Charged(m), m.exit.swap, TripReturn(m))
  }

  function RowReturn(m: Match): real {
    if Abs(m.entry.price) > EPSILON then Percent(Pnl(m), m.entry.price * m.qty) else 0.0
  }

  function RowOf(m: Match, closed: bool): Row {
    Row(m.qty, m.entry.price, Some(m.exit.price), Some(Pnl(m)), Charged(m), m.exit.swap, Some(RowReturn(m)),
        if closed then ClosedRow else PartialRow)
  }

  // ----- the two passes as folds -----

  datatype Pairing = Pairing(book: Book, matches: seq<Match>)

  const EMPTY := Pairing(map[], [])

  function Left(book: Book, id: string, matched: real): Book
    requires id in book
  {
    var left := book[id].remaining - matched;
    if left <= EPSILON then book - {id} else book[id := Open(book[id].entry, left)]
  }

  function Take(s: Pairing, rec: TradeRecord): Pairing
    requires rec.orderId in s.book
  {
    var open := s.book[rec.orderId];
    var matched := Min(rec.qty, open.remaining);
    Pairing(Left(s.book, rec.orderId, matched), s.matches + [Match(open.entry, rec, matched)])
  }

  function Enter(s: Pairing, rec: TradeRecord): Pairing {
    s.(book := s.book[rec.orderId := Open(rec, rec.qty)])
  }

  /** `round_trip_trades` skips an exit that matches nothing. */
  function TripStep(s: Pairing, rec: TradeRecord): Pairing {
    if rec.recordType == Entry then Enter(s, rec)
    else if rec.orderId !in s.book || Min(rec.qty, s.book[rec.orderId].remaining) <= 0.0 then s
    else Take(s, rec)
  }

  /** `build_trade_log_rows` writes a row for every exit of an open order. */
  function RowStep(s: Pairing, rec: TradeRecord): Pairing {
    if rec.recordType == Entry then Enter(s, rec)
    else if rec.orderId !in s.book then s
    else Take(s, rec)
  }

  ghost function Fold(step: (Pairing, TradeRecord) -> Pairing, log: seq<TradeRecord>): Pairing {
    if log == [] then EMPTY else step(Fold(step, log[..|log| - 1]), log[|log| - 1])
  }

  lemma FoldMore(step: (Pairing, TradeRecord) -> Pairing, log: seq<TradeRecord>, i: nat)
    requires i < |log|
    ensures Fold(step, log[..i + 1]) == step(Fold(step, log[..i]), log[i])
  {
    assert log[..i + 1][..i] == log[..i];
  }

  // ----- the loops -----

  ghost function Trips(ms: seq<Match>): seq<RoundTrip> { seq(|ms|, i requires 0 <= i < |ms| => TripOf(ms[i])) }

  lemma TripsMore(ms: seq<Match>, m: Match)
    ensures Trips(ms + [m]) == Trips(ms) + [TripOf(m)]
  {
  }

  /** The arithmetic of one round trip. */
  method PriceTrip(entry: TradeRecord, rec: TradeRecord, matched: real) returns (trip: RoundTrip)
    requires matched > 0.0
    ensures trip == TripOf(Match(entry, rec, matched))
  {
    var gross;
    match entry.side {
      case Buy => gross := (rec.price - entry.price) * matched;
      case Sell => gross := (entry.price - rec.price) * matched;
    }
    var entryCommission := if Abs(entry.qty) > EPSILON then entry.commission * (matched / entry.qty) else 0.0;
    var commission := entryCommission + rec.commission;
    var pnl := gross + rec.swap - commission;
    ghost var m := Match(entry, rec, matched);
    assert gross == Gross(m) && commission == Charged(m) && pnl == Pnl(m);
    var returnPct := if entry.price != 0.0 then Percent(pnl, entry.price * matched) else 0.0;
    assert returnPct == TripReturn(m);
    trip := RoundTrip(entry.orderId, entry.price, rec.price, matched, pnl, commission, rec.swap, returnPct);
  }

  method RoundTripTrades(log: seq<TradeRecord>) returns (trips: seq<RoundTrip>)
    ensures trips == Trips(Fold(TripStep, log).matches)
  {
    var book: Book := map[];
    trips := [];
    for i := 0 to |log|
      invariant book == Fold(TripStep, log[..i]).book && trips == Trips(Fold(TripStep, log[..i]).matches)
    {
      var rec := log[i];
      FoldMore(TripStep, log, i);
      match rec.recordType
      case Entry => book := book[rec.orderId := Open(rec, rec.qty)];
      case Exit =>
        if rec.orderId in book {
          var open := book[rec.orderId];
          var matched := Min(rec.qty, open.remaining);
          if matched <= 0.0 { continue; }
          var trip := PriceTrip(open.entry, rec, matched);
          TripsMore(Fold(TripStep, log[..i]).matches, Match(open.entry, rec, matched));
          trips := trips + [trip];
          book := Left(book, rec.orderId, matched);
        }
    }
    assert log[..|log|] == log;
  }

  predicate Paired(r: Row) { r.status == ClosedRow || r.status == PartialRow }

  /** The PARTIAL and CLOSED rows, in order. */
  function PairedRows(rows: seq<Row>): seq<Row> {
    if rows == [] then []
    else PairedRows(rows[..|rows| - 1]) + if Paired(rows[|rows| - 1]) then [rows[|rows| - 1]] else []
  }

  lemma PairedMore(rows: seq<Row>, r: Row)
    ensures PairedRows(rows + [r]) == PairedRows(rows) + if Paired(r) then [r] else []
  {
    assert (rows + [r])[..|rows|] == rows;
  }

  /** A stored row tells what its match was. */
  ghost predicate Tells(r: Row, m: Match) { r == RowOf(m, true) || r == RowOf(m, false) }

  ghost predicate AllTell(rows: seq<Row>, ms: seq<Match>) {
    |rows| == |ms| && forall i :: 0 <= i < |rows| ==> Tells(rows[i], ms[i])
  }

  /** The arithmetic of one stored row. */
  method PriceRow(entry: TradeRecord, trade: TradeRecord, exitQty: real, fullyClosed: bool) returns (row: Row)
    ensures row == RowOf(Match(entry, trade, exitQty), fullyClosed)
  {
    var gross;
    match entry.side {
      case Buy => gross := (trade.price - entry.price) * exitQty;
      case Sell => gross := (entry.price - trade.price) * exitQty;
    }
    var entryCommission := if Abs(entry.qty) > EPSILON then entry.commission * (exitQty / entry.qty) else 0.0;
    var commission := entryCommission + trade.commission;
    var pnl := gross + trade.swap - commission;
    ghost var m := Match(entry, trade, exitQty);
    assert gross == Gross(m) && commission == Charged(m) && pnl == Pnl(m);
    var returnPct := if Abs(entry.price) > EPSILON then Percent(pnl, entry.price * exitQty) else 0.0;
    assert returnPct == RowReturn(m);
    row := Row(exitQty, entry.price, Some(trade.price), Some(pnl), commission, trade.swap, Some(returnPct),
               if fullyClosed then ClosedRow else PartialRow);
  }

  function UnmatchedRow(rec: TradeRecord): Row {
    Row(rec.qty, rec.price, None, None, rec.commission, rec.swap, None, ExitRow)
  }

  function StillOpenRow(open: Open): Row {
    Row(open.remaining, open.entry.price, None, None, open.entry.commission, open.entry.swap, None, OpenRow)
  }

  /** The rows one record gets, given the orders open before it. */
  ghost function RowsFor(book: Book, rec: TradeRecord): seq<Row> {
    if rec.recordType == Entry then []
    else if rec.orderId !in book then [UnmatchedRow(rec)]
    else
      var open := book[rec.orderId];
      var qty := Min(rec.qty, open.remaining);
      [RowOf(Match(open.entry, rec, qty), open.remaining - qty <= EPSILON)]
  }

  ghost function LogRows(log: seq<TradeRecord>): seq<Row> {
    if log == [] then []
    else
      var n := |log| - 1;
      LogRows(log[..n]) + RowsFor(Fold(RowStep, log[..n]).book, log[n])
  }

  lemma LogRowsMore(log: seq<TradeRecord>, i: nat)
    requires i < |log|
    ensures LogRows(log[..i + 1]) == LogRows(log[..i]) + RowsFor(Fold(RowStep, log[..i]).book, log[i])
  {
    assert log[..i + 1][..i] == log[..i];
  }

  lemma TellsMore(rows: seq<Row>, ms: seq<Match>, r: Row, m: Match)
    requires AllTell(rows, ms) && Tells(r, m)
    ensures AllTell(rows + [r], ms + [m])
  {
  }

  lemma RecordTells(rows: seq<Row>, s: Pairing, rec: TradeRecord)
    requires AllTell(PairedRows(rows), s.matches)
    ensures AllTell(PairedRows(rows + RowsFor(s.book, rec)), RowStep(s, rec).matches)
  {
    if rec.recordType == Entry {
      assert rows + [] == rows;
    } else {
      var row := RowsFor(s.book, rec)[0];
      PairedMore(rows, row);
      if rec.orderId in s.book {
        var open := s.book[rec.orderId];
        TellsMore(PairedRows(rows), s.matches, row, Match(open.entry, rec, Min(rec.qty, open.remaining)));
      }
    }
  }

  lemma {:induction false} LogRowsTell(log: seq<TradeRecord>)
    ensures AllTell(PairedRows(LogRows(log)), Fold(RowStep, log).matches)
    decreases |log|
  {
    if log != [] {
      var n := |log| - 1;
      LogRowsTell(log[..n]);
      RecordTells(LogRows(log[..n]), Fold(RowStep, log[..n]), log[n]);
    }
  }

  /** `ids` names each order with more than one epsilon left open, once. */
  ghost predicate ListsOpen(book: Book, ids: seq<string>) {
    && (forall i, j :: 0 <= i < j < |ids| ==> ids[i] != ids[j])
    && (forall id :: id in ids <==> id in book && book[id].remaining > EPSILON)
  }

  ghost predicate AllOpenRows(book: Book, ids: seq<string>, rows: seq<Row>) {
    |rows| == |ids| && forall i :: 0 <= i < |ids| ==> ids[i] in book && rows[i] == StillOpenRow(book[ids[i]])
  }

  lemma {:induction false} OpenRowsUnpaired(rows: seq<Row>, opens: seq<Row>)
    requires forall i :: 0 <= i < |opens| ==> opens[i].status == OpenRow
    ensures PairedRows(rows + opens) == PairedRows(rows)
    decreases |opens|
  {
    if opens == [] {
      assert rows + opens == rows;
    } else {
      var n := |opens| - 1;
      OpenRowsUnpaired(rows, opens[..n]);
      PairedMore(rows + opens[..n], opens[n]);
      assert rows + opens == rows + opens[..n] + [opens[n]];
    }
  }

  /** One record of the loop: the orders open after it and the rows it gets. */
  method RecordRows(book: Book, rec: TradeRecord) returns (after: Book, rows: seq<Row>)
    ensures rows == RowsFor(book, rec)
    ensures forall ms :: after == RowStep(Pairing(book, ms), rec).book
  {
    match rec.recordType
    case Entry => return book[rec.orderId := Open(rec, rec.qty)], [];
    case Exit =>
      if rec.orderId in book {
        var open := book[rec.orderId];
        var exitQty := Min(rec.qty, open.remaining);
        var row := PriceRow(open.entry, rec, exitQty, open.remaining - exitQty <= EPSILON);
        return Left(book, rec.orderId, exitQty), [row];
      } else {
        return book, [UnmatchedRow(rec)];
      }
  }

  /** The orders left open at the end, in whatever order the map gives them. */
  method ListOpen(book: Book) returns (rows: seq<Row>, ghost ids: seq<string>)
    ensures ListsOpen(book, ids) && AllOpenRows(book, ids, rows)
  {
    rows, ids := [], [];
    var todo := book.Keys;
    while todo != {}
      invariant todo <= book.Keys && AllOpenRows(book, ids, rows)
      invariant forall i, j :: 0 <= i < j < |ids| ==> ids[i] != ids[j]
      invariant forall id :: id in ids <==> id in book && id !in todo && book[id].remaining > EPSILON
      decreases |todo|
    {
      var id :| id in todo;
      if book[id].remaining > EPSILON {
        rows, ids := rows + [StillOpenRow(book[id])], ids + [id];
      }
      todo := todo - {id};
    }
  }

  /** Before sorting, the stored log is one row for each exit, in order, and one
      for each order still open; its PARTIAL and CLOSED rows tell the matches. */
  method BuildTradeLogRows(log: seq<TradeRecord>) returns (rows: seq<Row>, ghost ids: seq<string>)
    ensures AllTell(PairedRows(rows), Fold(RowStep, log).matches)
    ensures LogRows(log) <= rows && ListsOpen(Fold(RowStep, log).book, ids)
    ensures AllOpenRows(Fold(RowStep, log).book, ids, rows[|LogRows(log)|..])
  {
    var book: Book := map[];
    rows := [];
    for i := 0 to |log|
      invariant book == Fold(RowStep, log[..i]).book && rows == LogRows(log[..i])
    {
      FoldMore(RowStep, log, i);
      LogRowsMore(log, i);
      var after, more := RecordRows(book, log[i]);
      assert Fold(RowStep, log[..i]) == Pairing(book, Fold(RowStep, log[..i]).matches);
      book, rows := after, rows + more;
    }
    assert log[..|log|] == log;
    var opens;
    opens, ids := ListOpen(book);
    LogRowsTell(log);
    OpenRowsUnpaired(rows, opens);
    rows := rows + opens;
  }

  // ----- agreement -----

  ghost predicate PositiveLog(log: seq<TradeRecord>) { forall i :: 0 <= i < |log| ==> log[i].qty > 0.0 }

  ghost predicate PositiveBook(book: Book) { forall id :: id in book ==> book[id].remaining > 0.0 }

  lemma StepsAgree(s: Pairing, rec: TradeRecord)
    requires PositiveBook(s.book) && rec.qty > 0.0
    ensures TripStep(s, rec) == RowStep(s, rec) && PositiveBook(TripStep(s, rec).book)
  {
  }

  lemma {:induction false} FoldsAgree(log: seq<TradeRecord>)
    requires PositiveLog(log)
    ensures Fold(TripStep, log) == Fold(RowStep, log) && PositiveBook(Fold(TripStep, log).book)
    decreases |log|
  {
    if log != [] {
      var n := |log| - 1;
      FoldsAgree(log[..n]);
      StepsAgree(Fold(TripStep, log[..n]), log[n]);
    }
  }

  /** On every log of positive quantities the metrics' round trips and the stored
      PARTIAL/CLOSED rows tell the same trades, one for one. */
  lemma PassesAgree(log: seq<TradeRecord>, rows: seq<Row>)
    requires PositiveLog(log) && AllTell(PairedRows(rows), Fold(RowStep, log).matches)
    ensures var trips := Trips(Fold(TripStep, log).matches);
            && |PairedRows(rows)| == |trips|
            && forall i :: 0 <= i < |trips| ==>
                 var row := PairedRows(rows)[i];
                 && row.qty == trips[i].qty && row.pnl == Some(trips[i].pnl)
                 && row.commission == trips[i].commission && row.swap == trips[i].swap
                 && row.entryPrice == trips[i].entryPrice && row.exitPrice == Some(trips[i].exitPrice)
  {
    FoldsAgree(log);
    var ms := Fold(TripStep, log).matches;
    forall i | 0 <= i < |ms| ensures Tells(PairedRows(rows)[i], ms[i]) { }
  }

  /** The entry of an order, if the log has one. */
  ghost function EntryOf(log: seq<TradeRecord>, id: string): Option<TradeRecord> {
    if log == [] then None
    else
      var r := log[|log| - 1];
      if r.recordType == Entry && r.orderId == id then Some(r) else EntryOf(log[..|log| - 1], id)
  }

  /** What the log has exited of an order since its entry. */
  ghost function Exited(log: seq<TradeRecord>, id: string): real {
    if log == [] then 0.0
    else
      var n := |log| - 1;
      if log[n].orderId != id || EntryOf(log, id).None? then Exited(log[..n], id)
      else if log[n].recordType == Entry then 0.0
      else Exited(log[..n], id) + log[n].qty
  }

  /** Every exit that finds its order open matches a positive quantity. */
  ghost predicate MatchesArePositive(log: seq<TradeRecord>) {
    log == []
    || (var n := |log| - 1;
        var book := Fold(RowStep, log[..n]).book;
        && MatchesArePositive(log[..n])
        && (log[n].recordType == Exit && log[n].orderId in book ==>
              Min(log[n].qty, book[log[n].orderId].remaining) > 0.0))
  }

  ghost predicate AllPositive(ms: seq<Match>) { forall i :: 0 <= i < |ms| ==> ms[i].qty > 0.0 }

  lemma {:induction false} TripsArePositive(log: seq<TradeRecord>)
    ensures AllPositive(Fold(TripStep, log).matches)
    decreases |log|
  {
    if log != [] { TripsArePositive(log[..|log| - 1]); }
  }

  lemma AllPositiveMore(ms: seq<Match>, m: Match)
    ensures AllPositive(ms + [m]) <==> AllPositive(ms) && m.qty > 0.0
  {
    assert (ms + [m])[|ms|] == m;
    assert forall i :: 0 <= i < |ms| ==> (ms + [m])[i] == ms[i];
  }

  lemma {:induction false} RowsArePositive(log: seq<TradeRecord>)
    ensures AllPositive(Fold(RowStep, log).matches) <==> MatchesArePositive(log)
    decreases |log|
  {
    if log != [] {
      var n := |log| - 1;
      var s := Fold(RowStep, log[..n]);
      RowsArePositive(log[..n]);
      if log[n].recordType == Exit && log[n].orderId in s.book {
        var open := s.book[log[n].orderId];
        AllPositiveMore(s.matches, Match(open.entry, log[n], Min(log[n].qty, open.remaining)));
      }
    }
  }

  lemma {:induction false} SameFold(log: seq<TradeRecord>)
    requires MatchesArePositive(log)
    ensures Fold(TripStep, log) == Fold(RowStep, log)
    decreases |log|
  {
    if log != [] { SameFold(log[..|log| - 1]); }
  }

  /** What the last entry of an order leaves after the exits that followed it. */
  ghost function Gap(log: seq<TradeRecord>, id: string): real
    requires EntryOf(log, id).Some?
  {
    EntryOf(log, id).value.qty - Exited(log, id)
  }

  /** No exit since the order's last entry has come within one epsilon of it. */
  ghost predicate StillOpen(log: seq<TradeRecord>, id: string) {
    && EntryOf(log, id).Some?
    && var n := |log| - 1;
       if log[n].orderId != id then StillOpen(log[..n], id)
       else log[n].recordType == Entry || (StillOpen(log[..n], id) && Gap(log, id) > EPSILON)
  }

  /** No exit of an open order has a quantity of zero or less, and none follows an
      entry of zero or less. */
  ghost predicate NoEmptyExit(log: seq<TradeRecord>) {
    log == []
    || (var n := |log| - 1;
        && NoEmptyExit(log[..n])
        && (log[n].recordType == Exit && StillOpen(log[..n], log[n].orderId) ==>
              log[n].qty > 0.0 && Gap(log[..n], log[n].orderId) > 0.0))
  }

  /** As long as no exit was empty, the book is what the quantities say. */
  ghost predicate BookTells(book: Book, log: seq<TradeRecord>, id: string) {
    && (id in book <==> StillOpen(log, id))
    && (id in book ==> book[id].remaining == Gap(log, id) && book[id].entry == EntryOf(log, id).value)
  }

  lemma {:induction false} BookIsOpen(log: seq<TradeRecord>, id: string)
    requires MatchesArePositive(log)
    ensures BookTells(Fold(RowStep, log).book, log, id)
    decreases |log|
  {
    if log != [] {
      var n := |log| - 1;
      BookIsOpen(log[..n], id);
      if log[n].orderId == id && log[n].recordType == Exit && StillOpen(log[..n], id) {
        var open := Fold(RowStep, log[..n]).book[id];
        assert Gap(log, id) == Gap(log[..n], id) - log[n].qty;
        assert open.remaining - Min(log[n].qty, open.remaining) == if log[n].qty < open.remaining then Gap(log, id) else 0.0;
      }
    }
  }

  /** What an exit's row says of its order: unknown or already over, still open, or
      over with this exit. */
  lemma RowSaysOver(log: seq<TradeRecord>)
    requires log != [] && log[|log| - 1].recordType == Exit && MatchesArePositive(log)
    ensures var n, rows := |log| - 1, LogRows(log);
            && |rows| == |LogRows(log[..n])| + 1
            && rows[|rows| - 1].status == (if !StillOpen(log[..n], log[n].orderId) then ExitRow
                                           else if StillOpen(log, log[n].orderId) then PartialRow
                                           else ClosedRow)
  {
    var n := |log| - 1;
    BookIsOpen(log[..n], log[n].orderId);
    BookIsOpen(log, log[n].orderId);
  }

  /** An order of one unit outlives an exit that leaves more than 2^-52 of it. */
  lemma DustBoundary(e: TradeRecord, x: TradeRecord)
    requires e.recordType == Entry && x.recordType == Exit && e.orderId == x.orderId && e.qty == 1.0
    ensures e.orderId in Fold(TripStep, [e, x]).book <==> 1.0 - x.qty > 1.0 / 4503599627370496.0
  {
    assert [e, x][..1] == [e] && [e][..0] == [];
    assert Fold(TripStep, [e]) == TripStep(EMPTY, e);
  }

  /** The pairing by quantities alone: an exit of a still open order is matched
      with the order's last entry, for what both have left. */
  ghost function MatchesFromLog(log: seq<TradeRecord>): seq<Match> {
    if log == [] then []
    else
      var n := |log| - 1;
      var rec, id := log[n], log[n].orderId;
      MatchesFromLog(log[..n])
      + if rec.recordType == Exit && StillOpen(log[..n], id)
        then [Match(EntryOf(log[..n], id).value, rec,
                    if rec.qty < Gap(log[..n], id) then rec.qty else Gap(log[..n], id))]
        else []
  }

  /** Both passes find exactly those matches, as long as no exit is empty. */
  lemma {:induction false} MatchesAreThose(log: seq<TradeRecord>)
    requires NoEmptyExit(log)
    ensures Fold(RowStep, log).matches == MatchesFromLog(log) && Fold(TripStep, log).matches == MatchesFromLog(log)
    decreases |log|
  {
    PositiveIffNoEmptyExit(log);
    SameFold(log);
    if log != [] {
      var n := |log| - 1;
      MatchesAreThose(log[..n]);
      PositiveIffNoEmptyExit(log[..n]);
      BookIsOpen(log[..n], log[n].orderId);
    }
  }

  lemma {:induction false} PositiveIffNoEmptyExit(log: seq<TradeRecord>)
    ensures MatchesArePositive(log) <==> NoEmptyExit(log)
    decreases |log|
  {
    if log != [] {
      var n := |log| - 1;
      PositiveIffNoEmptyExit(log[..n]);
      if MatchesArePositive(log[..n]) { BookIsOpen(log[..n], log[n].orderId); }
    }
  }

  /** On any log whatever: the two passes tell the same matches exactly when no
      exit of an open order is empty, a test of the log's quantities alone. */
  lemma PassesAgreeIff(log: seq<TradeRecord>)
    ensures Fold(TripStep, log).matches == Fold(RowStep, log).matches <==> NoEmptyExit(log)
  {
    TripsArePositive(log);
    RowsArePositive(log);
    PositiveIffNoEmptyExit(log);
    if MatchesArePositive(log) { SameFold(log); }
  }

  /** An exit of quantity zero gets a stored row and no round trip. */
  lemma EmptyExitSplitsPasses(e: TradeRecord, x: TradeRecord)
    requires e.recordType == Entry && x.recordType == Exit && e.orderId == x.orderId && e.qty > 0.0 && x.qty == 0.0
    ensures Fold(TripStep, [e, x]).matches == []
    ensures Fold(RowStep, [e, x]).matches == [Match(e, x, 0.0)]
  {
    assert [e, x][..1] == [e] && [e][..0] == [];
    assert Fold(TripStep, [e]) == TripStep(EMPTY, e) && Fold(RowStep, [e]) == RowStep(EMPTY, e);
  }

  // ----- conservation -----

  ghost function MatchedQty(ms: seq<Match>, id: string): real {
    if ms == [] then 0.0
    else MatchedQty(ms[..|ms| - 1], id) + if ms[|ms| - 1].entry.orderId == id then ms[|ms| - 1].qty else 0.0
  }

  /** A way to spread an entry's commission over matched quantity. */
  type Share = (TradeRecord, real) -> real

  ghost function SharedCommission(share: Share, ms: seq<Match>, id: string): real {
    if ms == [] then 0.0
    else
      var m := ms[|ms| - 1];
      SharedCommission(share, ms[..|ms| - 1], id) + if m.entry.orderId == id then share(m.entry, m.qty) else 0.0
  }

  ghost predicate AddsUp(share: Share, e: TradeRecord, p: real, q: real) {
    share(e, p) + share(e, q) == share(e, p + q)
  }

  ghost predicate Additive(share: Share) {
    forall e, p, q :: AddsUp(share, e, p, q)
  }

  ghost predicate DistinctEntries(log: seq<TradeRecord>) {
    forall i, j :: 0 <= i < j < |log| && log[i].recordType == Entry && log[j].recordType == Entry ==>
      log[i].orderId != log[j].orderId
  }

  /** Book, matched quantity and charged commission of one order add up to its
      entry. */
  ghost predicate AddUp(share: Share, book: Book, e: TradeRecord, id: string, matched: real, shared: real) {
    && e.orderId == id && shared == share(e, matched)
    && if id in book then book[id].entry == e && book[id].remaining > 0.0 && matched + book[id].remaining == e.qty
       else 0.0 <= e.qty - matched <= EPSILON
  }

  ghost predicate Balanced(share: Share, s: Pairing, entry: Option<TradeRecord>, id: string) {
    var matched, shared := MatchedQty(s.matches, id), SharedCommission(share, s.matches, id);
    match entry
    case None => id !in s.book && matched == 0.0 && shared == 0.0
    case Some(e) => AddUp(share, s.book, e, id, matched, shared)
  }

  lemma SharesAdd(e: TradeRecord, p: real, q: real)
    ensures EntryShare(e, p) + EntryShare(e, q) == EntryShare(e, p + q)
  {
    if Abs(e.qty) > EPSILON {
      assert (p + q) / e.qty == p / e.qty + q / e.qty;
      assert e.commission * (p / e.qty + q / e.qty) == e.commission * (p / e.qty) + e.commission * (q / e.qty);
    }
  }

  lemma SharesAreAdditive()
    ensures Additive(EntryShare)
  {
    forall e, p, q ensures AddsUp(EntryShare, e, p, q) { SharesAdd(e, p, q); }
  }

  lemma MatchedMore(share: Share, ms: seq<Match>, m: Match, id: string)
    ensures MatchedQty(ms + [m], id) == MatchedQty(ms, id) + if m.entry.orderId == id then m.qty else 0.0
    ensures SharedCommission(share, ms + [m], id)
            == SharedCommission(share, ms, id) + if m.entry.orderId == id then share(m.entry, m.qty) else 0.0
  {
    assert (ms + [m])[..|ms|] == ms;
  }

  ghost predicate OwnKeys(book: Book) { forall id :: id in book ==> book[id].entry.orderId == id }

  lemma OwnTake(share: Share, book: Book, e: TradeRecord, id: string, matched: real, shared: real, q: real)
    requires AddUp(share, book, e, id, matched, shared) && id in book && 0.0 < q <= book[id].remaining
    requires AddsUp(share, e, matched, q)
    ensures AddUp(share, Left(book, id, q), e, id, matched + q, shared + share(e, q))
  {
    LeftOver(book, id, q, e.qty - matched);
  }

  lemma OtherTake(share: Share, book: Book, e: TradeRecord, id: string, matched: real, shared: real, k: string, q: real)
    requires AddUp(share, book, e, id, matched, shared) && k in book && k != id
    ensures AddUp(share, Left(book, k, q), e, id, matched, shared)
  {
  }

  /** Where a match changes the totals of its own order only. */
  lemma TakeTotals(share: Share, s: Pairing, id: string, rec: TradeRecord, q: real)
    requires OwnKeys(s.book) && rec.orderId in s.book && q == Min(rec.qty, s.book[rec.orderId].remaining)
    ensures MatchedQty(Take(s, rec).matches, id) == MatchedQty(s.matches, id) + if rec.orderId == id then q else 0.0
    ensures SharedCommission(share, Take(s, rec).matches, id)
            == SharedCommission(share, s.matches, id) + if rec.orderId == id then share(s.book[id].entry, q) else 0.0
    ensures Take(s, rec).book == Left(s.book, rec.orderId, q)
  {
    MatchedMore(share, s.matches, Match(s.book[rec.orderId].entry, rec, q), id);
  }

  lemma TakeBalances(share: Share, s: Pairing, entry: Option<TradeRecord>, id: string, rec: TradeRecord, q: real)
    requires Balanced(share, s, entry, id) && OwnKeys(s.book) && rec.orderId in s.book && Additive(share)
    requires q == Min(rec.qty, s.book[rec.orderId].remaining) > 0.0
    ensures Balanced(share, Take(s, rec), entry, id)
  {
    var matched, shared := MatchedQty(s.matches, id), SharedCommission(share, s.matches, id);
    TakeTotals(share, s, id, rec, q);
    if entry.Some? {
      if rec.orderId == id {
        assert AddsUp(share, entry.value, matched, q);
        OwnTake(share, s.book, entry.value, id, matched, shared, q);
      } else {
        OtherTake(share, s.book, entry.value, id, matched, shared, rec.orderId, q);
      }
    }
  }

  /** What a match leaves of its order, in the book or as dust. */
  lemma LeftOver(book: Book, id: string, matched: real, left: real)
    requires id in book && 0.0 < matched <= book[id].remaining == left
    ensures var after := Left(book, id, matched);
            if id in after then after[id].entry == book[id].entry && after[id].remaining == left - matched > 0.0
            else 0.0 <= left - matched <= EPSILON
  {
  }

  lemma EnterBalances(share: Share, s: Pairing, entry: Option<TradeRecord>, id: string, rec: TradeRecord)
    requires Balanced(share, s, entry, id) && rec.qty > 0.0 && (rec.orderId == id ==> entry.None?) && Additive(share)
    ensures Balanced(share, Enter(s, rec), if rec.orderId == id then Some(rec) else entry, id)
  {
    assert AddsUp(share, rec, 0.0, 0.0);
  }

  lemma StepBalances(share: Share, s: Pairing, entry: Option<TradeRecord>, id: string, rec: TradeRecord)
    requires Balanced(share, s, entry, id) && OwnKeys(s.book) && rec.qty > 0.0 && Additive(share)
    requires rec.recordType == Entry && rec.orderId == id ==> entry.None?
    ensures Balanced(share, TripStep(s, rec),
                     if rec.recordType == Entry && rec.orderId == id then Some(rec) else entry, id)
    ensures OwnKeys(TripStep(s, rec).book)
  {
    if rec.recordType == Entry {
      EnterBalances(share, s, entry, id, rec);
    } else if rec.orderId in s.book && Min(rec.qty, s.book[rec.orderId].remaining) > 0.0 {
      TakeBalances(share, s, entry, id, rec, Min(rec.qty, s.book[rec.orderId].remaining));
    }
  }

  lemma {:induction false} NotEnteredYet(log: seq<TradeRecord>, id: string)
    requires forall i :: 0 <= i < |log| ==> !(log[i].recordType == Entry && log[i].orderId == id)
    ensures EntryOf(log, id).None?
    decreases |log|
  {
    if log != [] { NotEnteredYet(log[..|log| - 1], id); }
  }

  lemma EntersOnce(log: seq<TradeRecord>, id: string)
    requires log != [] && DistinctEntries(log) && log[|log| - 1].recordType == Entry && log[|log| - 1].orderId == id
    ensures EntryOf(log[..|log| - 1], id).None?
  {
    var n := |log| - 1;
    forall i | 0 <= i < n ensures !(log[..n][i].recordType == Entry && log[..n][i].orderId == id) {
      assert log[i] == log[..n][i];
    }
    NotEnteredYet(log[..n], id);
  }

  lemma {:induction false} FoldBalances(share: Share, log: seq<TradeRecord>, id: string)
    requires PositiveLog(log) && DistinctEntries(log) && Additive(share)
    ensures Balanced(share, Fold(TripStep, log), EntryOf(log, id), id) && OwnKeys(Fold(TripStep, log).book)
    decreases |log|
  {
    if log != [] {
      var n := |log| - 1;
      FoldBalances(share, log[..n], id);
      if log[n].recordType == Entry && log[n].orderId == id { EntersOnce(log, id); }
      StepBalances(share, Fold(TripStep, log[..n]), EntryOf(log[..n], id), id, log[n]);
    }
  }

  /** For every order of a positive log with distinct entries: matched plus
      remaining quantity is the entry quantity (an order dropped from the book
      leaves at most one epsilon), and its commission has been charged in
      proportion to the matched quantity. */
  lemma QuantityAndCommissionConserved(log: seq<TradeRecord>, id: string)
    requires PositiveLog(log) && DistinctEntries(log)
    ensures Balanced(EntryShare, Fold(TripStep, log), EntryOf(log, id), id)
  {
    SharesAreAdditive();
    FoldBalances(EntryShare, log, id);
  }

  ghost function Remaining(book: Book, id: string): real { if id in book then book[id].remaining else 0.0 }

  /** Some exit left a residue of at most one epsilon between entry and exits. */
  ghost predicate LeavesDust(log: seq<TradeRecord>, id: string) {
    && log != []
    && var n := |log| - 1;
       || LeavesDust(log[..n], id)
       || (&& log[n].recordType == Exit && log[n].orderId == id && EntryOf(log[..n], id).Some?
           && 0.0 < EntryOf(log[..n], id).value.qty - Exited(log, id) <= EPSILON)
  }

  /** Where an order stands against the plain difference of entry and exits. */
  ghost predicate Accounted(book: Book, e: TradeRecord, id: string, exited: real, dust: bool, matched: real) {
    if id in book then !dust && book[id].entry == e && book[id].remaining == e.qty - exited > 0.0
    else if dust then matched < e.qty
    else matched == e.qty <= exited
  }

  lemma AccountedExit(share: Share, s: Pairing, e: TradeRecord, id: string, rec: TradeRecord, exited: real, dust: bool)
    requires Accounted(s.book, e, id, exited, dust, MatchedQty(s.matches, id)) && OwnKeys(s.book) && rec.qty > 0.0
    requires Balanced(share, s, Some(e), id) && rec.recordType == Exit && rec.orderId == id
    ensures var s' := TripStep(s, rec);
            Accounted(s'.book, e, id, exited + rec.qty, dust || 0.0 < e.qty - (exited + rec.qty) <= EPSILON,
                      MatchedQty(s'.matches, id))
  {
    if id in s.book {
      TakeTotals(share, s, id, rec, Min(rec.qty, s.book[id].remaining));
    }
  }

  /** A record of another order leaves this one as it was. */
  lemma OtherOrder(s: Pairing, id: string, rec: TradeRecord)
    requires OwnKeys(s.book) && rec.orderId != id
    ensures id in TripStep(s, rec).book <==> id in s.book
    ensures id in s.book ==> TripStep(s, rec).book[id] == s.book[id]
    ensures MatchedQty(TripStep(s, rec).matches, id) == MatchedQty(s.matches, id)
  {
    if rec.recordType == Exit && rec.orderId in s.book {
      var q := Min(rec.qty, s.book[rec.orderId].remaining);
      MatchedMore(EntryShare, s.matches, Match(s.book[rec.orderId].entry, rec, q), id);
    }
  }

  lemma {:induction false} NothingYet(log: seq<TradeRecord>, id: string)
    requires EntryOf(log, id).None?
    ensures Exited(log, id) == 0.0 && !LeavesDust(log, id)
    decreases |log|
  {
    if log != [] { NothingYet(log[..|log| - 1], id); }
  }

  lemma {:induction false} LogAccounted(log: seq<TradeRecord>, id: string)
    requires PositiveLog(log) && DistinctEntries(log) && EntryOf(log, id).Some?
    ensures var s := Fold(TripStep, log);
            Accounted(s.book, EntryOf(log, id).value, id, Exited(log, id), LeavesDust(log, id), MatchedQty(s.matches, id))
    decreases |log|
  {
    var n := |log| - 1;
    var s, rec := Fold(TripStep, log[..n]), log[n];
    SharesAreAdditive();
    FoldBalances(EntryShare, log[..n], id);
    if rec.recordType == Entry && rec.orderId == id {
      EntersOnce(log, id);
      NothingYet(log[..n], id);
    } else {
      LogAccounted(log[..n], id);
      var e, exited, dust := EntryOf(log, id).value, Exited(log[..n], id), LeavesDust(log[..n], id);
      if rec.orderId != id {
        OtherOrder(s, id, rec);
      } else {
        AccountedExit(EntryShare, s, e, id, rec, exited, dust);
      }
    }
  }

  /** Over any positive log with distinct entries: matched plus remaining is the
      entry quantity exactly when no exit brought the order to within one epsilon
      of closed without closing it. */
  lemma ConservedIffNoDust(log: seq<TradeRecord>, id: string)
    requires PositiveLog(log) && DistinctEntries(log) && EntryOf(log, id).Some?
    ensures var s := Fold(TripStep, log);
            MatchedQty(s.matches, id) + Remaining(s.book, id) == EntryOf(log, id).value.qty <==> !LeavesDust(log, id)
  {
    QuantityAndCommissionConserved(log, id);
    LogAccounted(log, id);
  }

  /** Half an epsilon left open vanishes with its order. */
  lemma DustIsDropped(e: TradeRecord, x: TradeRecord)
    requires e.recordType == Entry && x.recordType == Exit && e.orderId == x.orderId
    requires e.qty == 1.0 && x.qty == 1.0 - 1.0 / 9007199254740992.0
    ensures var s := Fold(TripStep, [e, x]);
            e.orderId !in s.book && MatchedQty(s.matches, e.orderId) == x.qty < e.qty
  {
    assert [e, x][..1] == [e] && [e][..0] == [];
    assert Fold(TripStep, [e]) == TripStep(EMPTY, e);
    var s := Fold(TripStep, [e, x]);
    assert s.matches == [Match(e, x, x.qty)] && s.matches[..0] == [];
  }

  lemma WholeShare(e: TradeRecord)
    requires e.qty > EPSILON
    ensures EntryShare(e, e.qty) == e.commission
  {
    assert e.qty / e.qty == 1.0;
  }

  /** An order matched to the last unit has been charged its entry commission
      exactly once. */
  lemma CommissionChargedOnce(log: seq<TradeRecord>, e: TradeRecord)
    requires PositiveLog(log) && DistinctEntries(log) && EntryOf(log, e.orderId) == Some(e)
    requires MatchedQty(Fold(TripStep, log).matches, e.orderId) == e.qty > EPSILON
    ensures SharedCommission(EntryShare, Fold(TripStep, log).matches, e.orderId) == e.commission
  {
    QuantityAndCommissionConserved(log, e.orderId);
    WholeShare(e);
  }

  // ----- what the amounts mean -----

  /** Before charges, a long trip gains what the price rose and a short one what it
      fell, times the quantity; the return is the result over the capital. */
  lemma TripMeans(m: Match)
    ensures var trip := TripOf(m);
            && trip.orderId == m.entry.orderId && trip.qty == m.qty && trip.swap == m.exit.swap
            && trip.entryPrice == m.entry.price && trip.exitPrice == m.exit.price
            && trip.pnl + trip.commission - trip.swap
               == (if m.entry.side == Buy then m.exit.price - m.entry.price else m.entry.price - m.exit.price) * m.qty
            && (m.qty > 0.0 && m.entry.price != 0.0 ==>
                  trip.returnPct * (m.entry.price * m.qty) == 100.0 * trip.pnl)
            && (Abs(m.entry.qty) > EPSILON ==>
                  (trip.commission - m.exit.commission) * m.entry.qty == m.entry.commission * m.qty)
  {
    if Abs(m.entry.qty) > EPSILON { ShareOf(m.entry.commission, m.qty, m.entry.qty); }
    if m.qty > 0.0 && m.entry.price != 0.0 { PercentOf(Pnl(m), m.entry.price, m.qty); }
  }

  lemma ShareOf(commission: real, qty: real, whole: real)
    requires whole != 0.0
    ensures commission * (qty / whole) * whole == commission * qty
  {
    assert qty / whole * whole == qty;
  }

  lemma PercentOf(pnl: real, price: real, qty: real)
    requires price != 0.0 && qty > 0.0
    ensures price * qty != 0.0 && Percent(pnl, price * qty) * (price * qty) == 100.0 * pnl
  {
    var basis := price * qty;
    NonZeroProduct(price, qty);
    assert pnl / basis * basis == pnl;
    assert pnl / basis * 100.0 * basis == pnl / basis * basis * 100.0;
  }

  lemma NonZeroProduct(a: real, b: real)
    requires a != 0.0 && b > 0.0
    ensures a * b != 0.0
  {
    if a > 0.0 { assert a * b > 0.0; } else { assert -a * b > 0.0; assert a * b == -(-a * b); }
  }

  /** A stored row tells the same of its match, whatever its status. */
  lemma RowMeans(m: Match, closed: bool)
    ensures var row := RowOf(m, closed);
            && row.status == (if closed then ClosedRow else PartialRow)
            && row.qty == m.qty && row.entryPrice == m.entry.price && row.exitPrice == Some(m.exit.price)
            && row.swap == m.exit.swap && row.commission == TripOf(m).commission && row.pnl == Some(TripOf(m).pnl)
  {
    TripMeans(m);
  }

  /** An exit of no open order and an order still open get rows without a result. */
  lemma OtherRowsMean(rec: TradeRecord, open: Open)
    ensures UnmatchedRow(rec) == Row(rec.qty, rec.price, None, None, rec.commission, rec.swap, None, ExitRow)
    ensures StillOpenRow(open)
            == Row(open.remaining, open.entry.price, None, None, open.entry.commission, open.entry.swap, None, OpenRow)
  {
  }

  /** With quantity, a trip gains before charges exactly when the price moved the
      position's way. */
  lemma GainsIffPriceMoved(m: Match)
    requires m.qty > 0.0
    ensures var trip := TripOf(m);
            trip.pnl + trip.commission - trip.swap > 0.0
            <==> if m.entry.side == Buy then m.exit.price > m.entry.price else m.exit.price < m.entry.price
  {
    TripMeans(m);
    var move := if m.entry.side == Buy then m.exit.price - m.entry.price else m.entry.price - m.exit.price;
    if move > 0.0 { assert move * m.qty > 0.0; } else { assert -move * m.qty >= 0.0; assert move * m.qty == -(-move * m.qty); }
  }

  // ----- one order's account -----

  ghost function PnlOf(trips: seq<RoundTrip>, id: string): real {
    if trips == [] then 0.0
    else
      var t := trips[|trips| - 1];
      PnlOf(trips[..|trips| - 1], id) + if t.orderId == id then t.pnl else 0.0
  }

  /** Price times quantity over the exits matched to one order. */
  ghost function Proceeds(ms: seq<Match>, id: string): real {
    if ms == [] then 0.0
    else
      var m := ms[|ms| - 1];
      Proceeds(ms[..|ms| - 1], id) + if m.entry.orderId == id then m.exit.price * m.qty else 0.0
  }

  ghost function Swaps(ms: seq<Match>, id: string): real {
    if ms == [] then 0.0
    else
      var m := ms[|ms| - 1];
      Swaps(ms[..|ms| - 1], id) + if m.entry.orderId == id then m.exit.swap else 0.0
  }

  ghost function ExitCommissions(ms: seq<Match>, id: string): real {
    if ms == [] then 0.0
    else
      var m := ms[|ms| - 1];
      ExitCommissions(ms[..|ms| - 1], id) + if m.entry.orderId == id then m.exit.commission else 0.0
  }

  ghost predicate AllOf(ms: seq<Match>, e: TradeRecord) {
    forall i :: 0 <= i < |ms| && ms[i].entry.orderId == e.orderId ==> ms[i].entry == e
  }

  /** Entry price times quantity over the exits matched to one order. */
  ghost function Cost(ms: seq<Match>, id: string): real {
    if ms == [] then 0.0
    else
      var m := ms[|ms| - 1];
      Cost(ms[..|ms| - 1], id) + if m.entry.orderId == id then m.entry.price * m.qty else 0.0
  }

  /** A long gains what a short loses. */
  ghost function Signed(side: OrderSide, v: real): real { if side == Buy then v else 0.0 - v }

  lemma OneMatch(m: Match)
    ensures TripOf(m).pnl
            == Signed(m.entry.side, m.exit.price * m.qty - m.entry.price * m.qty) + m.exit.swap
               - m.exit.commission - EntryShare(m.entry, m.qty)
  {
    assert (m.exit.price - m.entry.price) * m.qty == m.exit.price * m.qty - m.entry.price * m.qty;
    assert (m.entry.price - m.exit.price) * m.qty == m.entry.price * m.qty - m.exit.price * m.qty;
  }

  lemma Combine(side: OrderSide, proceeds: real, cost: real, swaps: real, exits: real, shares: real, before: real,
                more: real, spent: real, swap: real, exit: real, share: real, pnl: real)
    requires before == Signed(side, proceeds - cost) + swaps - exits - shares
    requires pnl == Signed(side, more - spent) + swap - exit - share
    ensures before + pnl
            == Signed(side, proceeds + more - (cost + spent)) + (swaps + swap) - (exits + exit) - (shares + share)
  {
  }

  /** What the trips of one order must come to. */
  ghost function Account(share: Share, ms: seq<Match>, side: OrderSide, id: string): real {
    Signed(side, Proceeds(ms, id) - Cost(ms, id)) + Swaps(ms, id) - ExitCommissions(ms, id)
    - SharedCommission(share, ms, id)
  }

  lemma AccountMore(share: Share, ms: seq<Match>, m: Match, side: OrderSide, id: string, before: real, pnl: real)
    requires before == Account(share, ms, side, id)
    requires m.entry.orderId == id ==>
               pnl == Signed(side, m.exit.price * m.qty - m.entry.price * m.qty) + m.exit.swap - m.exit.commission
                      - share(m.entry, m.qty)
    ensures Account(share, ms + [m], side, id) == before + if m.entry.orderId == id then pnl else 0.0
  {
    assert (ms + [m])[..|ms|] == ms;
    if m.entry.orderId == id {
      Combine(side, Proceeds(ms, id), Cost(ms, id), Swaps(ms, id), ExitCommissions(ms, id), SharedCommission(share, ms, id),
              before, m.exit.price * m.qty, m.entry.price * m.qty, m.exit.swap, m.exit.commission,
              share(m.entry, m.qty), pnl);
    }
  }

  lemma {:induction false} PnlAddsUp(ms: seq<Match>, e: TradeRecord)
    requires AllOf(ms, e)
    ensures PnlOf(Trips(ms), e.orderId) == Account(EntryShare, ms, e.side, e.orderId)
    decreases |ms|
  {
    if ms != [] {
      var n := |ms| - 1;
      var m := ms[n];
      PnlAddsUp(ms[..n], e);
      OneMatch(m);
      AccountMore(EntryShare, ms[..n], m, e.side, e.orderId, PnlOf(Trips(ms[..n]), e.orderId), TripOf(m).pnl);
      assert ms[..n] + [m] == ms && Trips(ms)[..n] == Trips(ms[..n]) && Trips(ms)[n] == TripOf(m);
    }
  }

  lemma Spread(price: real, a: real, b: real)
    ensures price * (a + b) == price * a + price * b
  {
  }

  lemma {:induction false} CostIsPriceTimesQty(ms: seq<Match>, e: TradeRecord)
    requires AllOf(ms, e)
    ensures Cost(ms, e.orderId) == e.price * MatchedQty(ms, e.orderId)
    decreases |ms|
  {
    if ms != [] {
      var n := |ms| - 1;
      CostIsPriceTimesQty(ms[..n], e);
      Spread(e.price, MatchedQty(ms[..n], e.orderId), ms[n].qty);
    }
  }

  lemma {:induction false} MatchesOfEntry(log: seq<TradeRecord>, e: TradeRecord)
    requires DistinctEntries(log) && e in log && e.recordType == Entry
    ensures AllOf(Fold(TripStep, log).matches, e)
    ensures e.orderId in Fold(TripStep, log).book ==> Fold(TripStep, log).book[e.orderId].entry == e
    ensures OwnKeys(Fold(TripStep, log).book)
    decreases |log|
  {
    var n := |log| - 1;
    assert log == log[..n] + [log[n]];
    if e in log[..n] {
      MatchesOfEntry(log[..n], e);
    } else {
      forall i | 0 <= i < n ensures !(log[..n][i].recordType == Entry && log[..n][i].orderId == e.orderId) {
        assert log[i] == log[..n][i];
      }
      NoMatchesYet(log[..n], e.orderId);
    }
  }

  lemma {:induction false} NoMatchesYet(log: seq<TradeRecord>, id: string)
    requires forall i :: 0 <= i < |log| ==> !(log[i].recordType == Entry && log[i].orderId == id)
    ensures id !in Fold(TripStep, log).book && OwnKeys(Fold(TripStep, log).book)
    ensures forall i :: 0 <= i < |Fold(TripStep, log).matches| ==> Fold(TripStep, log).matches[i].entry.orderId != id
    decreases |log|
  {
    if log != [] { NoMatchesYet(log[..|log| - 1], id); }
  }

  /** Exit proceeds against entry cost, plus all swaps, minus its own and all exit
      commissions; the mirror image for a short. */
  ghost predicate Balances(pnl: real, ms: seq<Match>, e: TradeRecord, cost: real) {
    pnl == (if e.side == Buy then Proceeds(ms, e.orderId) - cost else cost - Proceeds(ms, e.orderId))
           + Swaps(ms, e.orderId) - (e.commission + ExitCommissions(ms, e.orderId))
  }

  lemma WholeAccount(share: Share, ms: seq<Match>, e: TradeRecord, pnl: real, cost: real)
    requires pnl == Account(share, ms, e.side, e.orderId) && SharedCommission(share, ms, e.orderId) == e.commission
    requires cost == Cost(ms, e.orderId)
    ensures Balances(pnl, ms, e, cost)
  {
  }

  lemma MatchedAccount(ms: seq<Match>, e: TradeRecord, cost: real)
    requires AllOf(ms, e) && SharedCommission(EntryShare, ms, e.orderId) == e.commission && cost == Cost(ms, e.orderId)
    ensures Balances(PnlOf(Trips(ms), e.orderId), ms, e, cost)
  {
    PnlAddsUp(ms, e);
    WholeAccount(EntryShare, ms, e, PnlOf(Trips(ms), e.orderId), cost);
  }

  lemma ChargedWhole(log: seq<TradeRecord>, e: TradeRecord)
    requires PositiveLog(log) && DistinctEntries(log) && EntryOf(log, e.orderId) == Some(e)
    requires MatchedQty(Fold(TripStep, log).matches, e.orderId) == e.qty > EPSILON
    ensures AllOf(Fold(TripStep, log).matches, e)
    ensures SharedCommission(EntryShare, Fold(TripStep, log).matches, e.orderId) == e.commission
  {
    EntryIsThere(log, e);
    MatchesOfEntry(log, e);
    CommissionChargedOnce(log, e);
  }

  /** The account of one fully matched order, from the records alone. */
  lemma OrderAccount(log: seq<TradeRecord>, e: TradeRecord)
    requires PositiveLog(log) && DistinctEntries(log) && EntryOf(log, e.orderId) == Some(e)
    requires MatchedQty(Fold(TripStep, log).matches, e.orderId) == e.qty > EPSILON
    ensures var ms, id := Fold(TripStep, log).matches, e.orderId;
            Balances(PnlOf(Trips(ms), id), ms, e, Cost(ms, id))
  {
    var ms := Fold(TripStep, log).matches;
    ChargedWhole(log, e);
    MatchedAccount(ms, e, Cost(ms, e.orderId));
  }

  /** The cost in that account is the entry price times the entry quantity. */
  lemma OrderCost(log: seq<TradeRecord>, e: TradeRecord, qty: real)
    requires DistinctEntries(log) && EntryOf(log, e.orderId) == Some(e)
    requires MatchedQty(Fold(TripStep, log).matches, e.orderId) == qty
    ensures Cost(Fold(TripStep, log).matches, e.orderId) == e.price * qty
  {
    EntryIsThere(log, e);
    MatchesOfEntry(log, e);
    CostIsPriceTimesQty(Fold(TripStep, log).matches, e);
  }

  lemma {:induction false} EntryIsThere(log: seq<TradeRecord>, e: TradeRecord)
    requires EntryOf(log, e.orderId) == Some(e)
    ensures e in log && e.recordType == Entry
    decreases |log|
  {
    var n := |log| - 1;
    if !(log[n].recordType == Entry && log[n].orderId == e.orderId) { EntryIsThere(log[..n], e); }
  }
}
