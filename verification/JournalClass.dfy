/** The journal as the object the worker owns: each method updates its rows in
    place and is proved against the value-level operation of the same purpose. */
module CommandJournal {
  import opened Basics
  import opened Commands
  import opened JournalSpec
  import opened JournalProofs

  /** Inserts each new intent once; a different command under a known identity
      refuses the batch. */
  method QueueIntents(start: Rows, intents: seq<Intent>) returns (r: Option<Rows>)
    ensures r == WithIntents(start, intents)
  {
    var table := start;
    for i := 0 to |intents|
      invariant WithIntents(table, intents[i..]) == WithIntents(start, intents)
    {
      var c := intents[i].command;
      assert intents[i..][0] == intents[i] && intents[i..][1..] == intents[i + 1..];
      if c.id in table {
        if table[c.id].command != c { return None; }
      } else {
        table := table[c.id := Record(c, Queued, intents[i].queuedAt, None, None)];
      }
    }
    return Some(table);
  }

  /** Marks each settled receipt applied; an unsettled one refuses the batch. */
  method MarkApplied(start: Rows, applied: seq<Reduced>) returns (r: Option<Rows>)
    ensures r == WithApplied(start, applied)
  {
    var table := start;
    for i := 0 to |applied|
      invariant WithApplied(table, applied[i..]) == WithApplied(start, applied)
    {
      assert applied[i..][0] == applied[i] && applied[i..][1..] == applied[i + 1..];
      if !Appliable(table, applied[i]) { return None; }
      var id := applied[i].receipt.id;
      table := table[id := table[id].(state := Applied)];
    }
    return Some(table);
  }

  class BrokerCommandJournal {
    const strategyId: string
    const accountId: string
    var rows: Rows
    var recoveries: map<BrokerCommandId, seq<RecoveryAttempt>>
    var phase: Phase
    var epoch: nat

    ghost function Value(): JournalValue
      reads this
    {
      JournalValue(strategyId, accountId, rows, recoveries, phase, epoch)
    }

    constructor (strategyId: string, accountId: string)
      ensures Value() == JournalValue(strategyId, accountId, map[], map[], Running, 1)
      ensures JournalInv(Value())
    {
      this.strategyId, this.accountId := strategyId, accountId;
      rows, recoveries, phase, epoch := map[], map[], Running, 1;
    }

    method Find(id: BrokerCommandId) returns (r: Result<Option<Record>, BrokerCommandError>)
      ensures r == Get(Value(), id)
    {
      if id !in rows { return Ok(None); }
      var fault := DecodeFault(rows[id]);
      if fault.Some? { return Err(fault.value); }
      return Ok(Some(rows[id]));
    }

    /** Queues a new intent; an identical retry reads the durable disposition
        and never resets it. */
    method PrepareIntent(c: BrokerCommand, queuedAt: int) returns (r: Result<Record, BrokerCommandError>)
      modifies `rows
      ensures Reply(Value(), r) == Prepare(old(Value()), c, queuedAt)
      ensures old(JournalInv(Value())) ==> JournalInv(Value()) && Evolves(old(rows), rows)
      ensures c.id in old(rows) ==> rows == old(rows)
      ensures c.id !in old(rows) && InScope(Value(), c) && EncodeFault(c).None? ==>
                r == Ok(Record(c, Queued, queuedAt, None, None)) && rows == old(rows)[c.id := r.value]
    {
      if c.strategyId != strategyId || c.accountId != accountId { return Err(Journal); }
      var fault := EncodeFault(c);
      if fault.Some? { return Err(fault.value); }
      if JournalInv(Value()) { PrepareWrites(Value(), c, queuedAt); }
      if c.id !in rows {
        var record := Record(c, Queued, queuedAt, None, None);
        rows := rows[c.id := record];
        return Ok(record);
      }
      var found := Find(c.id);
      match found
      case Err(e) => return Err(e);
      case Ok(None) => return Err(Journal);
      case Ok(Some(record)) =>
        if record.command != c { return Err(IdentityConflict); }
        return Ok(record);
    }

    method MarkRowDispatched(id: BrokerCommandId, at: int) returns (r: Result<(), BrokerCommandError>)
      modifies `rows
      ensures Reply(Value(), r) == MarkDispatched(old(Value()), id, at)
      ensures old(JournalInv(Value())) ==> JournalInv(Value()) && Evolves(old(rows), rows)
    {
      if id !in rows || rows[id].state != Queued { return Err(Journal); }
      if JournalInv(Value()) { DispatchWrites(Value(), id, at); }
      rows := rows[id := rows[id].(state := Dispatching, dispatchedAt := Some(at))];
      return Ok(());
    }

    /** The one way back from dispatching; it demands this dispatch's own time. */
    method DeferRow(id: BrokerCommandId, at: int) returns (r: Result<(), BrokerCommandError>)
      modifies `rows
      ensures Reply(Value(), r) == DeferUnpolledDispatch(old(Value()), id, at)
      ensures old(JournalInv(Value())) ==> JournalInv(Value()) && Evolves(old(rows), rows)
    {
      if id !in rows || rows[id].state != Dispatching || rows[id].dispatchedAt != Some(at) || rows[id].completion.Some? {
        return Err(Journal);
      }
      if JournalInv(Value()) { DeferWrites(Value(), id, at); }
      rows := rows[id := rows[id].(state := Queued, dispatchedAt := None)];
      return Ok(());
    }

    /** A durable result: an equal retry is accepted, a different one refused. */
    method CompleteRow(c: BrokerCommandCompletion) returns (r: Result<(), BrokerCommandError>)
      modifies `rows
      ensures Reply(Value(), r) == Complete(old(Value()), c)
      ensures r.Err? ==> rows == old(rows)
      ensures r.Ok? ==> c.receipt.id in rows && rows[c.receipt.id].completion == Some(c)
      ensures old(JournalInv(Value())) ==>
                Evolves(old(rows), rows) && (JournalInv(Value()) <==> r.Err? || SoundOutcome(c))
    {
      if JournalInv(Value()) { CompleteSharpens(Value(), c); }
      var id := c.receipt.id;
      var found := Find(id);
      match found
      case Err(e) => return Err(e);
      case Ok(None) => return Err(Journal);
      case Ok(Some(record)) =>
        if Conflicts(record, c) { return Err(IdentityConflict); }
        if record.completion.Some? {
          return if record.completion.value == c then Ok(()) else Err(IdentityConflict);
        }
        rows := rows[id := record.(state := Completed, completion := Some(c), dispatchedAt := c.dispatchedAt)];
        return Ok(());
    }

    method ConfirmSubmission(expected: BrokerCommand, order: Order, now: int)
      returns (r: Result<BrokerCommandCompletion, BrokerCommandError>)
      modifies `rows
      ensures Reply(Value(), r) == ConfirmAmbiguousSubmission(old(Value()), expected, order, now)
      ensures old(JournalInv(Value())) ==> JournalInv(Value()) && Evolves(old(rows), rows)
    {
      if JournalInv(Value()) { ConfirmWrites(Value(), expected, order, now); }
      var found := Find(expected.id);
      match found
      case Err(e) => return Err(e);
      case Ok(None) => return Err(IdentityConflict);
      case Ok(Some(record)) =>
        if !expected.action.Submit? { return Err(IdentityConflict); }
        var request := expected.action.request;
        if || record.command != expected || expected.strategyId != strategyId || expected.accountId != accountId
           || Text.Trim(order.orderId) == [] || order.insightId != Some(request.insightId)
           || order.symbol != request.symbol || order.side != request.side
           || record.completion.None?
        {
          return Err(IdentityConflict);
        }
        var existing := record.completion.value;
        if existing.outcome == OrderResponse(order) { return Ok(existing); }
        if record.state != Completed || Final(existing) { return Err(IdentityConflict); }
        var confirmed := existing.(completedAt := Later(now, existing.completedAt), outcome := OrderResponse(order));
        rows := rows[expected.id := record.(completion := Some(confirmed))];
        return Ok(confirmed);
    }

    method BeginCancelRetry(expected: BrokerCommand, proof: OrderReading, at: int)
      returns (r: Result<Option<nat>, BrokerCommandError>)
      modifies `recoveries
      ensures Reply(Value(), r) == BeginCancellationRecovery(old(Value()), expected, proof, at)
      ensures old(JournalInv(Value())) ==> JournalInv(Value())
    {
      if JournalInv(Value()) { BeginWrites(Value(), expected, proof, at); }
      var found := Find(expected.id);
      match found
      case Err(e) => return Err(e);
      case Ok(None) => return Err(IdentityConflict);
      case Ok(Some(record)) =>
        if || !expected.action.Cancel? || record.command != expected
           || expected.strategyId != strategyId || expected.accountId != accountId
           || !ProvesPending(proof, expected.action.orderId)
        {
          return Err(IdentityConflict);
        }
        if record.state == Applied { return Ok(None); }
        if record.completion.None? { return Err(IdentityConflict); }
        if record.state != Completed || Final(record.completion.value) { return Ok(None); }
        var log := if expected.id in recoveries then recoveries[expected.id] else [];
        log := log + [RecoveryAttempt(at, proof, record.completion.value, None)];
        recoveries := recoveries[expected.id := log];
        return Ok(Some(|log|));
    }

    method FinishCancelRetry(expected: BrokerCommand, attempt: nat, result: BrokerCommandCompletion)
      returns (r: Result<Option<BrokerCommandCompletion>, BrokerCommandError>)
      modifies `recoveries, `rows
      ensures Reply(Value(), r) == FinishCancellationRecovery(old(Value()), expected, attempt, result)
      ensures r.Err? ==> rows == old(rows)
      ensures old(JournalInv(Value())) ==> JournalInv(Value()) && Evolves(old(rows), rows)
    {
      if JournalInv(Value()) { FinishSharpens(Value(), expected, attempt, result); }
      var found := Find(expected.id);
      match found
      case Err(e) => return Err(e);
      case Ok(None) => return Err(IdentityConflict);
      case Ok(Some(record)) =>
        if || record.command != expected || !expected.action.Cancel?
           || expected.accountId != accountId || expected.strategyId != strategyId
           || result.receipt != expected.Receipt() || result.queuedAt != record.queuedAt
           || result.dispatchedAt != record.dispatchedAt
        {
          return Err(IdentityConflict);
        }
        var log := if expected.id in recoveries then recoveries[expected.id] else [];
        if !(0 < attempt <= |log|) || log[attempt - 1].result.Some? { return Err(IdentityConflict); }
        recoveries := recoveries[expected.id := log[attempt - 1 := log[attempt - 1].(result := Some(result))]];
        if record.state == Applied { return Ok(None); }
        if record.completion.None? || record.state != Completed || Final(record.completion.value) {
          return Err(IdentityConflict);
        }
        if !result.outcome.Acknowledged? { return Ok(Some(record.completion.value)); }
        rows := rows[expected.id := record.(completion := Some(result))];
        return Ok(Some(result));
    }

    /** One transaction: queue the intents, then mark the reduced receipts
        applied; any refusal rolls the whole batch back. */
    method PersistBatch(intents: seq<Intent>, applied: seq<Reduced>) returns (r: Result<(), BrokerCommandError>)
      requires WellFormedIntents(intents)
      modifies `rows
      ensures Reply(Value(), r) == PersistExecutionBatch(old(Value()), intents, applied)
      ensures old(JournalInv(Value())) ==> JournalInv(Value()) && CheckpointChange(old(rows), rows)
    {
      if JournalInv(Value()) { CheckpointKeeps(Value(), intents, applied); }
      if exists i :: 0 <= i < |intents| && (intents[i].command.strategyId != strategyId
                                            || intents[i].command.accountId != accountId) {
        return Err(Journal);
      }
      var queued := QueueIntents(rows, intents);
      if queued.None? { return Err(IdentityConflict); }
      var marked := MarkApplied(queued.value, applied);
      if marked.None? { return Err(Journal); }
      rows := marked.value;
      return Ok(());
    }

    method RequestStop()
      modifies `phase
      ensures Value() == RequestExecutionStop(old(Value()))
    {
      if phase == Running { phase := StoppingPhase; }
    }

    /** `exposure` is the answer of the indexed recovery-graph query. */
    method CompleteStop(exposure: bool) returns (r: Result<bool, BrokerCommandError>)
      modifies `phase
      ensures Reply(Value(), r) == CompleteExecutionStop(old(Value()), exposure)
      ensures r == Ok(true) <==> old(phase) != Running && !exposure && forall id :: id in rows ==> rows[id].state == Applied
      ensures phase == if r == Ok(true) then Stopped else old(phase)
    {
      if phase == Running { return Err(Journal); }
      if exposure || exists id :: id in rows && rows[id].state != Applied { return Ok(false); }
      phase := Stopped;
      return Ok(true);
    }

    method BeginEpoch(exposure: bool) returns (r: Result<(), BrokerCommandError>)
      modifies `phase, `epoch
      ensures Reply(Value(), r) == BeginExecutionEpoch(old(Value()), exposure)
      ensures epoch == old(epoch) + 1 <==>
                old(phase) == Stopped && !exposure && forall id :: id in rows ==> rows[id].state == Applied
      ensures if epoch == old(epoch) then phase == old(phase) else phase == Running && epoch == old(epoch) + 1
    {
      if phase != Stopped { return Ok(()); }
      if exposure || exists id :: id in rows && rows[id].state != Applied { return Err(Journal); }
      phase, epoch := Running, epoch + 1;
      return Ok(());
    }
  }
}
