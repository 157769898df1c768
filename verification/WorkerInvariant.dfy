/** What every reachable state of the worker system satisfies, one predicate a
    concern; each takes only the parts of the state it talks about. */
module WorkerInvariant {
  import opened Basics
  import opened Commands
  import opened JournalSpec
  import opened WorkerSpec

  ghost predicate Polled(polls: seq<Poll>, id: BrokerCommandId) {
    exists i :: 0 <= i < |polls| && polls[i].command.id == id
  }

  ghost predicate PollInv(rows: Rows, p: Poll) {
    var c := p.command;
    && c.id in rows
    && rows[c.id].command == c
    && rows[c.id].dispatchedAt.Some?
    && (p.retry ==> c.action.Cancel? && rows[c.id].completion.Some?)
  }

  /** Every poll belongs to a durable row with a dispatch time, only the first
      poll of an identity may be an ordinary dispatch, and only a Cancel that
      already has a result is ever polled again. */
  ghost predicate PollsInv(rows: Rows, polls: seq<Poll>) {
    && (forall i :: 0 <= i < |polls| ==> PollInv(rows, polls[i]))
    && (forall i, k :: 0 <= i < k < |polls| && polls[i].command.id == polls[k].command.id ==> polls[k].retry)
  }

  ghost predicate DeliveredInv(rows: Rows, delivered: seq<BrokerCommandCompletion>) {
    forall i :: 0 <= i < |delivered| ==>
      && delivered[i].receipt.id in rows
      && Sharpens(Some(delivered[i]), rows[delivered[i].receipt.id].completion)
  }

  // ----- lanes and slots -----

  /** A journal's strategy and account. */
  datatype Scope = Scope(strategyId: string, accountId: string)

  ghost function ScopeOf(j: JournalValue): Scope { Scope(j.strategyId, j.accountId) }

  ghost predicate CommandInv(scope: Scope, c: BrokerCommand) {
    c.strategyId == scope.strategyId && c.accountId == scope.accountId && EncodeFault(c).None?
  }

  ghost predicate LaneInv(scope: Scope, items: seq<QueuedCommand>, capacity: nat, control: bool) {
    && |items| <= capacity
    && forall i :: 0 <= i < |items| ==>
         CommandInv(scope, items[i].command) && items[i].command.action.IsTeardown() == control
  }

  ghost predicate SlotInv(scope: Scope, slot: Option<QueuedCommand>, control: bool) {
    slot.Some? ==> CommandInv(scope, slot.value.command) && slot.value.command.action.IsTeardown() == control
  }

  /** The hand may still have to put its command back. */
  ghost predicate MayPark(h: Hand) {
    h.Taken? || h.Replaying? || h.Admitting? || h.Dispatched? || h.InFlight? || h.Unpolled?
  }

  /** The command in hand, with its ticket. */
  ghost function Held(h: Hand): Option<QueuedCommand> {
    if h.Free? then None else Some(h.item)
  }

  /** Parking never overwrites: the slot a held command would return to is empty. */
  ghost predicate HoldInv(scope: Scope, held: Option<QueuedCommand>, mayPark: bool,
                          parkedEntry: Option<QueuedCommand>, parkedControl: Option<QueuedCommand>) {
    held.Some? ==>
      && CommandInv(scope, held.value.command)
      && (mayPark ==> if held.value.command.action.IsTeardown() then parkedControl.None? else parkedEntry.None?)
  }

  // ----- the command in hand against its row -----

  ghost predicate Known(rows: Rows, c: BrokerCommand) {
    c.id in rows && rows[c.id].command == c
  }

  /** An ordinary dispatch whose durable write is done. */
  ghost predicate Owned(rows: Rows, item: QueuedCommand, record: Record, at: int) {
    && Known(rows, item.command)
    && record.state == Queued && record.command == item.command && record.completion.None?
    && rows[item.command.id] == record.(state := Dispatching, dispatchedAt := Some(at))
  }

  /** During a guarded retry the row still holds its ambiguous result. */
  ghost predicate Recovering(rows: Rows, c: BrokerCommand, record: Record) {
    && Known(rows, c) && c.action.Cancel?
    && record.completion.Some? && record.state != Dispatching
    && record.queuedAt == rows[c.id].queuedAt && record.dispatchedAt == rows[c.id].dispatchedAt
    && rows[c.id].completion.Some? && !Final(rows[c.id].completion.value)
  }

  ghost predicate Claimed(recoveries: map<BrokerCommandId, seq<RecoveryAttempt>>, id: BrokerCommandId, attempt: nat) {
    id in recoveries && 0 < attempt <= |recoveries[id]| && recoveries[id][attempt - 1].result.None?
  }

  ghost predicate Replayed(rows: Rows, c: BrokerCommand, record: Record, completion: BrokerCommandCompletion) {
    && Known(rows, c)
    && rows[c.id].completion == Some(completion)
    && record.completion.Some? && record.state != Dispatching
    && record.queuedAt == rows[c.id].queuedAt && record.dispatchedAt == rows[c.id].dispatchedAt
  }

  /** The worker's verdict fits the row it is about to complete. */
  ghost predicate Fitting(rows: Rows, c: BrokerCommand, record: Record, dispatchedAt: Option<int>, outcome: BrokerCommandOutcome) {
    && Known(rows, c)
    && rows[c.id].completion.None?
    && rows[c.id].queuedAt == record.queuedAt
    && rows[c.id].dispatchedAt == dispatchedAt
    && (outcome.CancelledBeforeDispatch? ==> dispatchedAt.None?)
    && (outcome.Ambiguous? ==> dispatchedAt.Some?)
  }

  ghost predicate HandInv(rows: Rows, recoveries: map<BrokerCommandId, seq<RecoveryAttempt>>, polls: seq<Poll>, h: Hand) {
    match h
    case Free => true
    case Taken(_) => true
    case Failing(_, _) => true
    case Replaying(item, record, completion) => Replayed(rows, item.command, record, completion)
    case Admitting(item, record, proof) =>
      if proof.None? then
        Known(rows, item.command) && rows[item.command.id] == record && record.completion.None?
      else Recovering(rows, item.command, record)
    case Dispatched(item, record, at, attempt) =>
      if attempt.None? then Owned(rows, item, record, at) && !Polled(polls, item.command.id)
      else Recovering(rows, item.command, record) && Claimed(recoveries, item.command.id, attempt.value)
    case InFlight(item, record, at, attempt) =>
      if attempt.None? then Owned(rows, item, record, at)
      else Recovering(rows, item.command, record) && Claimed(recoveries, item.command.id, attempt.value)
    case Unpolled(item, record, at, attempt, refusal, _) =>
      && (refusal.Some? ==> item.command.action.Submit? && !refusal.value.Ambiguous?)
      && if attempt.None? then Owned(rows, item, record, at) && !Polled(polls, item.command.id)
         else Recovering(rows, item.command, record)
    case Concluded(item, record, dispatchedAt, attempt, outcome) =>
      if attempt.None? then Fitting(rows, item.command, record, dispatchedAt, outcome)
      else
        && Recovering(rows, item.command, record) && Claimed(recoveries, item.command.id, attempt.value)
        && !outcome.CancelledBeforeDispatch? && dispatchedAt == record.dispatchedAt
    case Settled(item, completion) =>
      Known(rows, item.command) && rows[item.command.id].completion == Some(completion)
    case Delivering(item, completion) =>
      Known(rows, item.command) && rows[item.command.id].completion == Some(completion)
  }

  // ----- bounded recovery -----

  ghost predicate ReconciliationsInv(rows: Rows, pending: seq<Reconciliation>) {
    && |pending| <= MAX_COMMAND_RECONCILIATIONS
    && (forall i :: 0 <= i < |pending| ==>
          && Known(rows, pending[i].command)
          && (pending[i].command.action.Submit? || pending[i].command.action.Cancel?)
          && pending[i].attempt < |COMMAND_RECONCILIATION_DELAYS|)
    && (forall i, k :: 0 <= i < k < |pending| ==> pending[i].command.id != pending[k].command.id)
  }

  ghost predicate StopInv(phase: Phase, stopped: bool, requested: bool) {
    phase != Running || requested ==> stopped
  }

  ghost predicate WorkerInv(j: JournalValue, polls: seq<Poll>, w: WorkerValue) {
    && LaneInv(ScopeOf(j), w.entries, w.entryCapacity, false)
    && LaneInv(ScopeOf(j), w.controls, w.controlCapacity, true)
    && SlotInv(ScopeOf(j), w.parkedEntry, false)
    && SlotInv(ScopeOf(j), w.parkedControl, true)
    && HoldInv(ScopeOf(j), Held(w.hand), MayPark(w.hand), w.parkedEntry, w.parkedControl)
    && HandInv(j.rows, j.recoveries, polls, w.hand)
    && ReconciliationsInv(j.rows, w.reconciliations)
    && StopInv(j.phase, w.gate.stopped, w.stopRequested)
  }

  ghost predicate LivesInv(lives: nat, polls: seq<Poll>, worker: Option<WorkerValue>) {
    && (forall i :: 0 <= i < |polls| ==> polls[i].life < lives)
    && (worker.Some? ==> worker.value.life < lives)
  }

  ghost predicate Inv(s: State) {
    && JournalInv(s.journal)
    && PollsInv(s.journal.rows, s.polls)
    && DeliveredInv(s.journal.rows, s.delivered)
    && LivesInv(s.lives, s.polls, s.worker)
    && (s.worker.Some? ==> WorkerInv(s.journal, s.polls, s.worker.value))
  }

  /** How any step changes the durable table. */
  ghost predicate TableStep(a: JournalValue, b: JournalValue) {
    ScopeOf(a) == ScopeOf(b) && Evolves(a.rows, b.rows)
  }
}
