/** What each durable write does to the table, one lemma an operation. */
module JournalProofs {
  import opened Basics
  import opened Commands
  import opened JournalSpec

  /** Only the row of `id` may differ. */
  ghost predicate OnlyRow(a: Rows, b: Rows, id: BrokerCommandId) {
    && (forall k :: k in a ==> k in b)
    && (forall k :: k in b && k != id ==> k in a && b[k] == a[k])
  }

  ghost predicate SameElse(a: JournalValue, b: JournalValue) {
    b.strategyId == a.strategyId && b.accountId == a.accountId && b.phase == a.phase && b.epoch == a.epoch
  }

  /** Replacing one row by a sharper one keeps the journal consistent. */
  lemma RowReplaced(a: JournalValue, b: JournalValue, id: BrokerCommandId)
    requires JournalInv(a) && SameElse(a, b) && OnlyRow(a.rows, b.rows, id)
    requires id in b.rows && RowInv(b, id, b.rows[id])
    requires id in a.rows ==> RowEvolves(a.rows[id], b.rows[id])
    ensures JournalInv(b) && Evolves(a.rows, b.rows)
  {
    forall k | k in b.rows ensures RowInv(b, k, b.rows[k]) {
      if k != id { assert RowInv(a, k, a.rows[k]); }
    }
  }

  lemma Readable(j: JournalValue, id: BrokerCommandId)
    requires JournalInv(j)
    ensures Get(j, id) == Ok(if id in j.rows then Some(j.rows[id]) else None)
  {
    if id in j.rows { assert RowInv(j, id, j.rows[id]); }
  }

  /** Queues a new intent or reports the durable disposition of a known one. */
  lemma PrepareWrites(j: JournalValue, c: BrokerCommand, at: int)
    requires JournalInv(j) && InScope(j, c) && EncodeFault(c).None?
    ensures var r := Prepare(j, c, at);
            && JournalInv(r.journal) && SameElse(j, r.journal) && r.journal.recoveries == j.recoveries
            && Evolves(j.rows, r.journal.rows) && OnlyRow(j.rows, r.journal.rows, c.id)
            && (c.id in j.rows ==> r.journal == j)
            && (c.id !in j.rows ==>
                  r.result.Ok? && r.result.value.state == Queued && r.result.value.queuedAt == at
                  && r.result.value.dispatchedAt.None? && r.result.value.completion.None?)
            && (r.result.Ok? ==> c.id in r.journal.rows && r.journal.rows[c.id] == r.result.value
                                 && r.result.value.command == c)
            && (r.result.Err? ==> r.result.error == IdentityConflict && c.id in j.rows && j.rows[c.id].command != c)
  {
    Readable(j, c.id);
    if c.id !in j.rows {
      RowReplaced(j, Prepare(j, c, at).journal, c.id);
    }
  }

  lemma DispatchWrites(j: JournalValue, id: BrokerCommandId, at: int)
    requires JournalInv(j) && id in j.rows && j.rows[id].state == Queued
    ensures var r := MarkDispatched(j, id, at);
            && r.result.Ok? && JournalInv(r.journal) && SameElse(j, r.journal)
            && r.journal.recoveries == j.recoveries
            && Evolves(j.rows, r.journal.rows) && OnlyRow(j.rows, r.journal.rows, id)
            && id in r.journal.rows
            && r.journal.rows[id] == j.rows[id].(state := Dispatching, dispatchedAt := Some(at))
  {
    assert RowInv(j, id, j.rows[id]);
    RowReplaced(j, MarkDispatched(j, id, at).journal, id);
  }

  lemma DeferWrites(j: JournalValue, id: BrokerCommandId, at: int)
    requires JournalInv(j) && id in j.rows
    requires j.rows[id].state == Dispatching && j.rows[id].dispatchedAt == Some(at)
    ensures var r := DeferUnpolledDispatch(j, id, at);
            && r.result.Ok? && JournalInv(r.journal) && SameElse(j, r.journal)
            && r.journal.recoveries == j.recoveries
            && Evolves(j.rows, r.journal.rows) && OnlyRow(j.rows, r.journal.rows, id)
            && id in r.journal.rows
            && r.journal.rows[id] == j.rows[id].(state := Queued, dispatchedAt := None)
  {
    assert RowInv(j, id, j.rows[id]);
    RowReplaced(j, DeferUnpolledDispatch(j, id, at).journal, id);
  }

  /** A completion that fits its unfinished row is accepted. */
  lemma CompleteWrites(j: JournalValue, id: BrokerCommandId, c: BrokerCommandCompletion)
    requires JournalInv(j) && id in j.rows && j.rows[id].completion.None?
    requires c.receipt == j.rows[id].command.Receipt() && c.queuedAt == j.rows[id].queuedAt
    requires c.dispatchedAt == j.rows[id].dispatchedAt
    requires c.outcome.CancelledBeforeDispatch? ==> c.dispatchedAt.None?
    requires c.outcome.Ambiguous? ==> c.dispatchedAt.Some?
    ensures var r := Complete(j, c);
            && r.result.Ok? && JournalInv(r.journal) && SameElse(j, r.journal)
            && r.journal.recoveries == j.recoveries
            && Evolves(j.rows, r.journal.rows) && OnlyRow(j.rows, r.journal.rows, id)
            && id in r.journal.rows
            && r.journal.rows[id] == j.rows[id].(state := Completed, completion := Some(c))
  {
    assert RowInv(j, id, j.rows[id]);
    Readable(j, id);
    RowReplaced(j, Complete(j, c).journal, id);
  }

  /** The outcome agrees with whether the command was dispatched. */
  predicate SoundOutcome(c: BrokerCommandCompletion) {
    && (c.outcome.CancelledBeforeDispatch? ==> c.dispatchedAt.None?)
    && (c.outcome.Ambiguous? ==> c.dispatchedAt.Some?)
  }

  /** Whatever is offered as a completion, evidence only sharpens; what is stored
      is consistent exactly when its outcome agrees with its dispatch time. */
  lemma CompleteSharpens(j: JournalValue, c: BrokerCommandCompletion)
    requires JournalInv(j)
    ensures var r := Complete(j, c);
            && Evolves(j.rows, r.journal.rows)
            && (JournalInv(r.journal) <==> r.result.Err? || SoundOutcome(c))
  {
    var id, after := c.receipt.id, Complete(j, c).journal;
    Readable(j, id);
    if id in j.rows { assert RowInv(j, id, j.rows[id]); }
    if after != j {
      if SoundOutcome(c) { RowReplaced(j, after, id); } else { assert !RowInv(after, id, after.rows[id]); }
    }
  }

  /** Confirmation replaces an ambiguous completion by the broker's order and
      keeps its receipt and times. */
  lemma ConfirmWrites(j: JournalValue, c: BrokerCommand, order: Order, now: int)
    requires JournalInv(j)
    ensures var r := ConfirmAmbiguousSubmission(j, c, order, now);
            && JournalInv(r.journal) && SameElse(j, r.journal) && r.journal.recoveries == j.recoveries
            && Evolves(j.rows, r.journal.rows) && OnlyRow(j.rows, r.journal.rows, c.id)
            && (r.result.Err? ==> r.journal == j)
            && (r.result.Ok? ==>
                  && c.id in j.rows && c.id in r.journal.rows && j.rows[c.id].command == c
                  && j.rows[c.id].completion.Some? && r.result.value.outcome == OrderResponse(order)
                  && r.result.value.queuedAt == j.rows[c.id].queuedAt
                  && r.journal.rows[c.id] == j.rows[c.id].(completion := Some(r.result.value)))
  {
    Readable(j, c.id);
    if c.id in j.rows { assert RowInv(j, c.id, j.rows[c.id]); }
    var r := ConfirmAmbiguousSubmission(j, c, order, now);
    if r.journal != j { RowReplaced(j, r.journal, c.id); }
  }

  /** Claiming a retry touches no command row. */
  lemma BeginWrites(j: JournalValue, c: BrokerCommand, proof: OrderReading, at: int)
    requires JournalInv(j)
    ensures var r := BeginCancellationRecovery(j, c, proof, at);
            && JournalInv(r.journal) && SameElse(j, r.journal) && r.journal.rows == j.rows
            && (r.result.Ok? && r.result.value.Some? ==>
                  && c.id in j.rows && j.rows[c.id].state == Completed && j.rows[c.id].completion.Some?
                  && !Final(j.rows[c.id].completion.value)
                  && c.id in r.journal.recoveries
                  && 0 < r.result.value.value <= |r.journal.recoveries[c.id]|
                  && r.journal.recoveries[c.id][r.result.value.value - 1].result.None?)
            && (r.result == Ok(None) ==>
                  c.id in j.rows && j.rows[c.id].completion.Some?
                  && (j.rows[c.id].state == Applied || Final(j.rows[c.id].completion.value)))
  {
    Readable(j, c.id);
    if c.id in j.rows { assert RowInv(j, c.id, j.rows[c.id]); }
    var r := BeginCancellationRecovery(j, c, proof, at);
    forall k | k in r.journal.rows ensures RowInv(r.journal, k, r.journal.rows[k]) {
      assert RowInv(j, k, j.rows[k]);
    }
  }

  /** Whatever is offered as a retry's result, the journal stays consistent and
      evidence only sharpens. */
  lemma FinishSharpens(j: JournalValue, c: BrokerCommand, attempt: nat, result: BrokerCommandCompletion)
    requires JournalInv(j)
    ensures var r := FinishCancellationRecovery(j, c, attempt, result);
            JournalInv(r.journal) && Evolves(j.rows, r.journal.rows)
  {
    var after := FinishCancellationRecovery(j, c, attempt, result).journal;
    Readable(j, c.id);
    if c.id in j.rows { assert RowInv(j, c.id, j.rows[c.id]); }
    if after.rows != j.rows {
      RowReplaced(j, after, c.id);
    } else {
      forall id | id in after.rows ensures RowInv(after, id, after.rows[id]) { assert RowInv(j, id, j.rows[id]); }
    }
  }

  /** A claimed retry of an ambiguous Cancel always finds its claim; only an
      acknowledgement replaces the stored result. */
  lemma FinishWrites(j: JournalValue, c: BrokerCommand, attempt: nat, result: BrokerCommandCompletion)
    requires JournalInv(j) && c.action.Cancel? && InScope(j, c)
    requires c.id in j.rows && j.rows[c.id].command == c && j.rows[c.id].completion.Some?
    requires !Final(j.rows[c.id].completion.value)
    requires c.id in j.recoveries && 0 < attempt <= |j.recoveries[c.id]|
    requires j.recoveries[c.id][attempt - 1].result.None?
    requires result.receipt == c.Receipt() && result.queuedAt == j.rows[c.id].queuedAt
    requires result.dispatchedAt == j.rows[c.id].dispatchedAt
    ensures var r := FinishCancellationRecovery(j, c, attempt, result);
            && r.result.Ok? && JournalInv(r.journal) && SameElse(j, r.journal)
            && Evolves(j.rows, r.journal.rows) && OnlyRow(j.rows, r.journal.rows, c.id)
            && c.id in r.journal.rows
            && (r.result.value.None? <==> j.rows[c.id].state == Applied)
            && (r.result.value.None? ==> r.journal.rows == j.rows)
            && (r.result.value.Some? ==>
                  && r.journal.rows[c.id] == j.rows[c.id].(completion := Some(r.result.value.value))
                  && r.result.value.value
                     == if result.outcome.Acknowledged? then result else j.rows[c.id].completion.value)
  {
    Readable(j, c.id);
    assert RowInv(j, c.id, j.rows[c.id]);
    var r := FinishCancellationRecovery(j, c, attempt, result);
    RowReplaced(j, r.journal, c.id);
  }

  lemma {:induction false} IntentsKeep(j: JournalValue, rows: Rows, intents: seq<Intent>)
    requires JournalInv(j.(rows := rows)) && WellFormedIntents(intents)
    requires forall i :: 0 <= i < |intents| ==> InScope(j, intents[i].command)
    requires WithIntents(rows, intents).Some?
    ensures var after := WithIntents(rows, intents).value;
            JournalInv(j.(rows := after))
            && (forall id :: id in rows ==> id in after && after[id] == rows[id])
            && (forall id :: id in after && id !in rows ==> after[id].state == Queued && after[id].completion.None?)
    decreases |intents|
  {
    if intents != [] {
      var c := intents[0].command;
      if c.id in rows {
        IntentsKeep(j, rows, intents[1..]);
      } else {
        var inserted := rows[c.id := Record(c, Queued, intents[0].queuedAt, None, None)];
        RowReplaced(j.(rows := rows), j.(rows := inserted), c.id);
        IntentsKeep(j, inserted, intents[1..]);
      }
    }
  }

  /** Marking one settled row applied. */
  lemma AppliedOne(j: JournalValue, rows: Rows, a: Reduced)
    requires JournalInv(j.(rows := rows)) && Appliable(rows, a)
    ensures JournalInv(j.(rows := rows[a.receipt.id := rows[a.receipt.id].(state := Applied)]))
  {
    var id := a.receipt.id;
    assert RowInv(j.(rows := rows), id, rows[id]);
    RowReplaced(j.(rows := rows), j.(rows := rows[id := rows[id].(state := Applied)]), id);
  }

  lemma {:induction false} AppliedKeeps(j: JournalValue, rows: Rows, applied: seq<Reduced>)
    requires JournalInv(j.(rows := rows)) && WithApplied(rows, applied).Some?
    ensures var after := WithApplied(rows, applied).value;
            JournalInv(j.(rows := after)) && after.Keys == rows.Keys
            && forall id :: id in rows ==>
                 after[id] == rows[id] || (rows[id].completion.Some? && after[id] == rows[id].(state := Applied))
    decreases |applied|
  {
    if applied != [] {
      var id := applied[0].receipt.id;
      AppliedOne(j, rows, applied[0]);
      AppliedKeeps(j, rows[id := rows[id].(state := Applied)], applied[1..]);
    }
  }

  /** A committed checkpoint batch queues intents and applies settled results;
      it never resets, dispatches or completes a row, and never marks an
      unresolved entry or replacement applied. */
  lemma CheckpointKeeps(j: JournalValue, intents: seq<Intent>, applied: seq<Reduced>)
    requires JournalInv(j) && WellFormedIntents(intents)
    ensures JournalInv(PersistExecutionBatch(j, intents, applied).journal)
    ensures CheckpointChange(j.rows, PersistExecutionBatch(j, intents, applied).journal.rows)
    ensures PersistExecutionBatch(j, intents, applied).result.Err? ==>
              PersistExecutionBatch(j, intents, applied).journal == j
  {
    if forall i :: 0 <= i < |intents| ==> InScope(j, intents[i].command) {
      if WithIntents(j.rows, intents).Some? {
        assert j.(rows := j.rows) == j;
        IntentsKeep(j, j.rows, intents);
        var inserted := WithIntents(j.rows, intents).value;
        if WithApplied(inserted, applied).Some? {
          AppliedKeeps(j, inserted, applied);
        }
      }
    }
  }
}
