/** Exactly when each journal operation succeeds on a consistent journal, and what
    it then leaves, field by field. */
module JournalLaws {
  import opened Basics
  import opened Commands
  import opened JournalSpec
  import opened JournalProofs

  lemma DispatchExactly(j: JournalValue, id: BrokerCommandId, at: int)
    ensures MarkDispatched(j, id, at).result.Ok? <==> id in j.rows && j.rows[id].state == Queued
    ensures MarkDispatched(j, id, at).result.Err? ==> MarkDispatched(j, id, at).journal == j
  {
  }

  lemma DeferExactly(j: JournalValue, id: BrokerCommandId, at: int)
    requires JournalInv(j)
    ensures DeferUnpolledDispatch(j, id, at).result.Ok? <==>
            id in j.rows && j.rows[id].state == Dispatching && j.rows[id].dispatchedAt == Some(at)
    ensures DeferUnpolledDispatch(j, id, at).result.Err? ==> DeferUnpolledDispatch(j, id, at).journal == j
  {
    if id in j.rows { assert RowInv(j, id, j.rows[id]); }
  }

  /** The completion is about this row: same receipt, same queue time, and the same
      dispatch time unless it says that nothing was dispatched. */
  ghost predicate About(r: Record, c: BrokerCommandCompletion) {
    && c.receipt.id == r.command.id && c.receipt.insightId == r.command.insightId && c.receipt.group == r.command.group
    && c.queuedAt == r.queuedAt
    && (c.dispatchedAt == r.dispatchedAt || (c.outcome == CancelledBeforeDispatch && c.dispatchedAt == None))
  }

  lemma CompleteExactly(j: JournalValue, c: BrokerCommandCompletion)
    requires JournalInv(j)
    ensures var r, id := Complete(j, c), c.receipt.id;
            && (r.result.Ok? <==>
                  id in j.rows && About(j.rows[id], c) && j.rows[id].completion in {None, Some(c)})
            && (r.result.Err? || j.rows[id].completion.Some? ==> r.journal == j)
            && (r.result.Ok? && j.rows[id].completion.None? ==>
                  r.journal.rows == j.rows[id := Record(j.rows[id].command, Completed, c.queuedAt, c.dispatchedAt, Some(c))])
  {
    Readable(j, c.receipt.id);
  }

  /** The broker's order fits the submission it is said to answer. */
  ghost predicate Answers(c: BrokerCommand, order: Order) {
    && c.action.Submit? && Text.Trim(order.orderId) != ""
    && order.insightId == Some(c.action.request.insightId)
    && order.symbol == c.action.request.symbol && order.side == c.action.request.side
  }

  lemma ConfirmExactly(j: JournalValue, c: BrokerCommand, order: Order, now: int)
    requires JournalInv(j)
    ensures var r := ConfirmAmbiguousSubmission(j, c, order, now);
            && (r.result.Ok? <==>
                  && c.id in j.rows && j.rows[c.id].command == c && Answers(c, order) && j.rows[c.id].completion.Some?
                  && var done := j.rows[c.id].completion.value;
                     done.outcome == OrderResponse(order) || (done.outcome.Ambiguous? && j.rows[c.id].state == Completed))
            && (r.result.Ok? ==>
                  var done := j.rows[c.id].completion.value;
                  if done.outcome.Ambiguous? then
                    r.result.value == BrokerCommandCompletion(done.receipt, done.queuedAt, done.dispatchedAt,
                                                              if now < done.completedAt then done.completedAt else now,
                                                              OrderResponse(order))
                  else r.result.value == done && r.journal == j)
  {
    Readable(j, c.id);
    if c.id in j.rows { assert RowInv(j, c.id, j.rows[c.id]); }
  }

  /** A reading that shows the very order still pending, and nothing of it filled. */
  ghost predicate StillPending(proof: OrderReading, orderId: string) {
    && orderId != "" && proof.orderId == orderId && proof.pending && proof.positionId == None && proof.positionQty == None
    && proof.symbol != None && Text.Trim(proof.symbol.value) != ""
  }

  lemma BeginExactly(j: JournalValue, c: BrokerCommand, proof: OrderReading, at: int)
    requires JournalInv(j)
    ensures var r := BeginCancellationRecovery(j, c, proof, at);
            var known := c.id in j.rows && j.rows[c.id].command == c && c.action.Cancel?
                         && StillPending(proof, c.action.orderId) && j.rows[c.id].completion.Some?;
            && (r.result.Ok? <==> known)
            && (r.result.Ok? ==>
                  var row := j.rows[c.id];
                  if row.state == Completed && row.completion.value.outcome.Ambiguous? then
                    && r.result.value == Some(|Attempts(j, c.id)| + 1)
                    && r.journal == j.(recoveries := j.recoveries[c.id :=
                         Attempts(j, c.id) + [RecoveryAttempt(at, proof, row.completion.value, None)]])
                  else r.result.value == None && r.journal == j)
  {
    Readable(j, c.id);
    if c.id in j.rows { assert RowInv(j, c.id, j.rows[c.id]); }
  }

  lemma FinishExactly(j: JournalValue, c: BrokerCommand, attempt: nat, result: BrokerCommandCompletion)
    requires JournalInv(j)
    ensures var r := FinishCancellationRecovery(j, c, attempt, result);
            var claimed := && c.id in j.rows && j.rows[c.id].command == c && c.action.Cancel?
                           && result.receipt == c.Receipt() && result.queuedAt == j.rows[c.id].queuedAt
                           && result.dispatchedAt == j.rows[c.id].dispatchedAt
                           && 0 < attempt <= |Attempts(j, c.id)| && Attempts(j, c.id)[attempt - 1].result == None;
            && (r.result.Ok? <==> claimed && (j.rows[c.id].state == Applied || StillOpen(j.rows[c.id])))
            && (!claimed ==> r.journal == j)
            && (claimed ==> && Attempts(r.journal, c.id)
                               == Attempts(j, c.id)[attempt - 1 := Attempts(j, c.id)[attempt - 1].(result := Some(result))]
                            && r.journal.rows == if StillOpen(j.rows[c.id]) && result.outcome == Acknowledged
                                                 then j.rows[c.id := j.rows[c.id].(completion := Some(result))] else j.rows)
  {
    Readable(j, c.id);
    if c.id in j.rows { assert RowInv(j, c.id, j.rows[c.id]); }
  }

  ghost predicate StillOpen(r: Record) {
    r.state == Completed && r.completion.Some? && r.completion.value.outcome.Ambiguous?
  }

  // ----- checkpoint batches -----

  /** Intents of one identity agree, with each other and with the table. */
  ghost predicate Agreeing(rows: Rows, intents: seq<Intent>) {
    && (forall i :: 0 <= i < |intents| && intents[i].command.id in rows ==>
          rows[intents[i].command.id].command == intents[i].command)
    && (forall i, k :: 0 <= i < k < |intents| && intents[i].command.id == intents[k].command.id ==>
          intents[i].command == intents[k].command)
  }

  /** The first intent of that identity. */
  ghost predicate FirstOf(intents: seq<Intent>, i: int, id: BrokerCommandId) {
    0 <= i < |intents| && intents[i].command.id == id && forall k :: 0 <= k < i ==> intents[k].command.id != id
  }

  /** What a table holds of one identity after the intents. */
  ghost predicate Inserted(rows: Rows, intents: seq<Intent>, after: Rows, id: BrokerCommandId) {
    && (id in rows ==> id in after && after[id] == rows[id])
    && (id !in rows && id in after ==> exists i :: FirstOf(intents, i, id))
    && (forall i :: id !in rows && FirstOf(intents, i, id) ==>
          id in after && after[id] == Record(intents[i].command, Queued, intents[i].queuedAt, None, None))
  }

  lemma FirstLater(intents: seq<Intent>, i: int, id: BrokerCommandId)
    requires intents != [] && intents[0].command.id != id && i > 0
    ensures FirstOf(intents, i, id) <==> FirstOf(intents[1..], i - 1, id)
  {
    if FirstOf(intents[1..], i - 1, id) {
      forall k | 0 <= k < i ensures intents[k].command.id != id {
        assert k > 0 ==> intents[1..][k - 1].command.id != id;
      }
    }
    if FirstOf(intents, i, id) {
      forall k | 0 <= k < i - 1 ensures intents[1..][k].command.id != id { assert intents[k + 1].command.id != id; }
    }
  }

  lemma AgreeingRest(rows: Rows, intents: seq<Intent>)
    requires intents != []
    ensures var c := intents[0].command;
            var next := if c.id in rows then rows else rows[c.id := Record(c, Queued, intents[0].queuedAt, None, None)];
            Agreeing(rows, intents) <==> (c.id in rows ==> rows[c.id].command == c) && Agreeing(next, intents[1..])
  {
    var c, rest := intents[0].command, intents[1..];
    var next := if c.id in rows then rows else rows[c.id := Record(c, Queued, intents[0].queuedAt, None, None)];
    assert forall i :: 0 < i < |intents| ==> intents[i] == rest[i - 1];
    if Agreeing(rows, intents) {
      forall i | 0 <= i < |rest| && rest[i].command.id in next ensures next[rest[i].command.id].command == rest[i].command {
        assert rest[i] == intents[i + 1];
      }
      forall i, k | 0 <= i < k < |rest| && rest[i].command.id == rest[k].command.id
        ensures rest[i].command == rest[k].command
      {
        assert rest[i] == intents[i + 1] && rest[k] == intents[k + 1];
      }
    }
  }

  lemma InsertedRest(rows: Rows, intents: seq<Intent>, after: Rows, id: BrokerCommandId)
    requires intents != []
    requires var c := intents[0].command;
             var next := if c.id in rows then rows else rows[c.id := Record(c, Queued, intents[0].queuedAt, None, None)];
             Inserted(next, intents[1..], after, id)
    ensures Inserted(rows, intents, after, id)
  {
    if intents[0].command.id == id {
      assert FirstOf(intents, 0, id);
    } else {
      if id !in rows && id in after {
        var i :| FirstOf(intents[1..], i, id);
        FirstLater(intents, i + 1, id);
        assert FirstOf(intents, i + 1, id);
      }
      forall i | id !in rows && FirstOf(intents, i, id)
        ensures id in after && after[id] == Record(intents[i].command, Queued, intents[i].queuedAt, None, None)
      {
        FirstLater(intents, i, id);
        assert FirstOf(intents[1..], i - 1, id) && intents[1..][i - 1] == intents[i];
      }
    }
  }

  /** A batch of intents is accepted exactly when they agree, and then each new
      identity is queued with the command and time of its first intent. */
  lemma {:induction false} IntentsExactly(rows: Rows, intents: seq<Intent>, id: BrokerCommandId)
    ensures WithIntents(rows, intents).Some? <==> Agreeing(rows, intents)
    ensures WithIntents(rows, intents).Some? ==> Inserted(rows, intents, WithIntents(rows, intents).value, id)
    decreases |intents|
  {
    if intents != [] {
      var c := intents[0].command;
      var next := if c.id in rows then rows else rows[c.id := Record(c, Queued, intents[0].queuedAt, None, None)];
      AgreeingRest(rows, intents);
      IntentsExactly(next, intents[1..], id);
      if WithIntents(rows, intents).Some? { InsertedRest(rows, intents, WithIntents(rows, intents).value, id); }
    }
  }

  /** The reducer's receipt settles its row: a final result, or an ambiguous one of
      a clean-up or protection whose own order is known to be over. */
  ghost predicate Settles(r: Record, a: Reduced) {
    && a.receipt == r.command.Receipt() && r.completion.Some?
    && (r.completion.value.outcome.Ambiguous? ==>
          match r.command.action
          case Cancel(order) => a.order == Some(order) && a.state in {Cancelled, Rejected, Closed}
          case Close(order, _, _) => a.order == Some(order) && a.state == Closed
          case TakeProfit(order, _, _) => a.order == Some(order) && a.state in {Closed, Cancelled}
          case StopLoss(order, _, _) => a.order == Some(order) && a.state in {Closed, Cancelled}
          case _ => false)
  }

  lemma AppliableExactly(j: JournalValue, a: Reduced)
    requires JournalInv(j)
    ensures Appliable(j.rows, a) <==> a.receipt.id in j.rows && Settles(j.rows[a.receipt.id], a)
  {
    if a.receipt.id in j.rows { assert RowInv(j, a.receipt.id, j.rows[a.receipt.id]); }
  }

  ghost predicate Reduces(applied: seq<Reduced>, id: BrokerCommandId) {
    exists i :: 0 <= i < |applied| && applied[i].receipt.id == id
  }

  /** A batch of receipts is accepted exactly when each settles its row, and then
      exactly their rows are applied. */
  lemma {:induction false} AppliedExactly(j: JournalValue, rows: Rows, applied: seq<Reduced>)
    requires JournalInv(j.(rows := rows))
    ensures WithApplied(rows, applied).Some? <==>
            forall i :: 0 <= i < |applied| ==>
              applied[i].receipt.id in rows && Settles(rows[applied[i].receipt.id], applied[i])
    ensures WithApplied(rows, applied).Some? ==>
            var after := WithApplied(rows, applied).value;
            after.Keys == rows.Keys
            && forall id :: id in rows ==>
                 after[id] == if Reduces(applied, id) then rows[id].(state := Applied) else rows[id]
    decreases |applied|
  {
    if applied != [] {
      var id, rest := applied[0].receipt.id, applied[1..];
      AppliableExactly(j.(rows := rows), applied[0]);
      if Appliable(rows, applied[0]) {
        var next := rows[id := rows[id].(state := Applied)];
        AppliedOne(j, rows, applied[0]);
        AppliedExactly(j, next, rest);
        assert forall i :: 0 < i < |applied| ==> applied[i] == rest[i - 1];
        forall x ensures Reduces(applied, x) <==> x == id || Reduces(rest, x) {
          if Reduces(rest, x) {
            var i :| 0 <= i < |rest| && rest[i].receipt.id == x;
            assert applied[i + 1].receipt.id == x;
          }
        }
        if forall i :: 0 <= i < |applied| ==>
             applied[i].receipt.id in rows && Settles(rows[applied[i].receipt.id], applied[i]) {
          forall i | 0 <= i < |rest| ensures rest[i].receipt.id in next && Settles(next[rest[i].receipt.id], rest[i]) {
            assert rest[i] == applied[i + 1];
          }
        }
      }
    }
  }

  lemma NewRowsUnsettled(rows: Rows, intents: seq<Intent>, after: Rows, a: Reduced)
    requires Inserted(rows, intents, after, a.receipt.id)
    ensures a.receipt.id in after && Settles(after[a.receipt.id], a)
            <==> a.receipt.id in rows && Settles(rows[a.receipt.id], a)
  {
  }

  ghost predicate AllSettle(rows: Rows, applied: seq<Reduced>) {
    forall i :: 0 <= i < |applied| ==>
      applied[i].receipt.id in rows && Settles(rows[applied[i].receipt.id], applied[i])
  }

  /** What a batch leaves of one identity: applied if it was reduced, queued if it
      is a new intent, and otherwise as it was. */
  ghost predicate BatchLeaves(rows: Rows, intents: seq<Intent>, applied: seq<Reduced>, after: Rows, id: BrokerCommandId) {
    && (id in rows ==> id in after && after[id] == if Reduces(applied, id) then rows[id].(state := Applied) else rows[id])
    && (id !in rows ==> Inserted(rows, intents, after, id))
  }

  /** A checkpoint batch commits exactly when every intent is in scope and agrees,
      and every receipt settles a row that was there before; else nothing changes. */
  lemma BatchExactly(j: JournalValue, intents: seq<Intent>, applied: seq<Reduced>)
    requires JournalInv(j) && WellFormedIntents(intents)
    ensures var r := PersistExecutionBatch(j, intents, applied);
            && (r.result.Ok? <==>
                  && (forall i :: 0 <= i < |intents| ==> InScope(j, intents[i].command))
                  && Agreeing(j.rows, intents) && AllSettle(j.rows, applied))
            && (r.result.Err? ==> r.journal == j)
            && (r.result.Ok? ==> forall id :: BatchLeaves(j.rows, intents, applied, r.journal.rows, id))
  {
    forall id ensures WithIntents(j.rows, intents).Some? ==>
                        Inserted(j.rows, intents, WithIntents(j.rows, intents).value, id) {
      IntentsExactly(j.rows, intents, id);
    }
    if WithIntents(j.rows, intents).Some? && forall i :: 0 <= i < |intents| ==> InScope(j, intents[i].command) {
      var mid := WithIntents(j.rows, intents).value;
      IntentsKeep(j, j.rows, intents);
      AppliedExactly(j, mid, applied);
      forall i | 0 <= i < |applied|
        ensures applied[i].receipt.id in mid && Settles(mid[applied[i].receipt.id], applied[i])
                <==> applied[i].receipt.id in j.rows && Settles(j.rows[applied[i].receipt.id], applied[i])
      {
        NewRowsUnsettled(j.rows, intents, mid, applied[i]);
      }
      if AllSettle(j.rows, applied) { BatchRows(j, intents, applied, mid); }
    }
    IntentsExactly(j.rows, intents, TextId(""));
  }

  lemma BatchRows(j: JournalValue, intents: seq<Intent>, applied: seq<Reduced>, mid: Rows)
    requires AllSettle(j.rows, applied) && WithApplied(mid, applied).Some?
    requires forall id :: Inserted(j.rows, intents, mid, id)
    requires var after := WithApplied(mid, applied).value;
             after.Keys == mid.Keys
             && forall id :: id in mid ==>
                  after[id] == if Reduces(applied, id) then mid[id].(state := Applied) else mid[id]
    ensures forall id :: BatchLeaves(j.rows, intents, applied, WithApplied(mid, applied).value, id)
  {
    var after := WithApplied(mid, applied).value;
    forall id ensures BatchLeaves(j.rows, intents, applied, after, id) {
      assert Inserted(j.rows, intents, mid, id);
    }
  }
}
