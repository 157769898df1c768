/** The command journal as a value. An operation is one atomic write; it gives the
    journal it leaves and what its caller sees. */
module JournalSpec {
  import opened Basics
  import opened Commands

  datatype CommandState = Queued | Dispatching | Completed | Applied

  datatype Record = Record(
    command: BrokerCommand,
    state: CommandState,
    queuedAt: int,
    dispatchedAt: Option<int>,
    completion: Option<BrokerCommandCompletion>)

  type Rows = map<BrokerCommandId, Record>

  datatype Phase = Running | StoppingPhase | Stopped

  /** A broker reading of one order, the evidence a cancellation retry needs. */
  datatype OrderReading = OrderReading(
    orderId: string, pending: bool, positionId: Option<string>, positionQty: Option<real>, symbol: Option<string>)

  datatype RecoveryAttempt = RecoveryAttempt(
    at: int, proof: OrderReading, previous: BrokerCommandCompletion, result: Option<BrokerCommandCompletion>)

  datatype Intent = Intent(command: BrokerCommand, queuedAt: int)

  /** A reduced receipt, with the order and state of its insight checkpoint. */
  datatype Reduced = Reduced(receipt: BrokerCommandReceipt, order: Option<string>, state: InsightState)

  datatype JournalValue = JournalValue(
    strategyId: string,
    accountId: string,
    rows: Rows,
    recoveries: map<BrokerCommandId, seq<RecoveryAttempt>>,
    phase: Phase,
    epoch: nat)

  datatype Reply<+T> = Reply(journal: JournalValue, result: Result<T, BrokerCommandError>)

  predicate InScope(j: JournalValue, c: BrokerCommand) {
    c.strategyId == j.strategyId && c.accountId == j.accountId
  }

  predicate Final(c: BrokerCommandCompletion) { !c.outcome.Ambiguous? }

  /** Why `decode` refuses a row. */
  function DecodeFault(r: Record): Option<BrokerCommandError> {
    if Validate(r.command).Some? then Validate(r.command)
    else if r.completion.Some? != (r.state in {Completed, Applied}) then Some(Journal)
    else None
  }

  function Get(j: JournalValue, id: BrokerCommandId): Result<Option<Record>, BrokerCommandError> {
    if id !in j.rows then Ok(None)
    else if DecodeFault(j.rows[id]).Some? then Err(DecodeFault(j.rows[id]).value)
    else Ok(Some(j.rows[id]))
  }

  /** A command the journal knows is looked up, not written again. */
  function Prepare(j: JournalValue, c: BrokerCommand, queuedAt: int): Reply<Record> {
    if !InScope(j, c) then Reply(j, Err(Journal))
    else if EncodeFault(c).Some? then Reply(j, Err(EncodeFault(c).value))
    else if c.id !in j.rows then
      var r := Record(c, Queued, queuedAt, None, None);
      Reply(j.(rows := j.rows[c.id := r]), Ok(r))
    else
      match Get(j, c.id)
      case Err(e) => Reply(j, Err(e))
      case Ok(found) =>
        if found.None? then Reply(j, Err(Journal))
        else if found.value.command != c then Reply(j, Err(IdentityConflict))
        else Reply(j, Ok(found.value))
  }

  function MarkDispatched(j: JournalValue, id: BrokerCommandId, at: int): Reply<()> {
    if id in j.rows && j.rows[id].state == Queued then
      Reply(j.(rows := j.rows[id := j.rows[id].(state := Dispatching, dispatchedAt := Some(at))]), Ok(()))
    else Reply(j, Err(Journal))
  }

  function DeferUnpolledDispatch(j: JournalValue, id: BrokerCommandId, at: int): Reply<()> {
    if && id in j.rows && j.rows[id].state == Dispatching
       && j.rows[id].dispatchedAt == Some(at) && j.rows[id].completion.None?
    then Reply(j.(rows := j.rows[id := j.rows[id].(state := Queued, dispatchedAt := None)]), Ok(()))
    else Reply(j, Err(Journal))
  }

  /** Why `complete` refuses a completion as foreign to its intent. */
  predicate Conflicts(r: Record, c: BrokerCommandCompletion) {
    || r.command.Receipt() != c.receipt
    || r.queuedAt != c.queuedAt
    || (r.dispatchedAt != c.dispatchedAt && !(c.outcome.CancelledBeforeDispatch? && c.dispatchedAt.None?))
  }

  function Complete(j: JournalValue, c: BrokerCommandCompletion): Reply<()> {
    var id := c.receipt.id;
    match Get(j, id)
    case Err(e) => Reply(j, Err(e))
    case Ok(found) =>
      if found.None? then Reply(j, Err(Journal))
      else
        var r := found.value;
        if Conflicts(r, c) then Reply(j, Err(IdentityConflict))
        else if r.completion.Some? then
          Reply(j, if r.completion.value == c then Ok(()) else Err(IdentityConflict))
        else
          Reply(j.(rows := j.rows[id := r.(state := Completed, completion := Some(c), dispatchedAt := c.dispatchedAt)]),
                Ok(()))
  }

  predicate Confirms(j: JournalValue, r: Record, expected: BrokerCommand, order: Order) {
    && expected.action.Submit?
    && r.command == expected
    && InScope(j, expected)
    && Text.Trim(order.orderId) != []
    && order.insightId == Some(expected.action.request.insightId)
    && order.symbol == expected.action.request.symbol
    && order.side == expected.action.request.side
  }

  function Later(a: int, b: int): int { if a < b then b else a }

  /** The broker's order takes the place of an ambiguous result, and of no other. */
  function ConfirmAmbiguousSubmission(j: JournalValue, expected: BrokerCommand, order: Order, now: int)
    : Reply<BrokerCommandCompletion> {
    match Get(j, expected.id)
    case Err(e) => Reply(j, Err(e))
    case Ok(found) =>
      if found.None? || !Confirms(j, found.value, expected, order) || found.value.completion.None? then
        Reply(j, Err(IdentityConflict))
      else
        var r := found.value;
        var existing := r.completion.value;
        if existing.outcome == OrderResponse(order) then Reply(j, Ok(existing))
        else if r.state != Completed || Final(existing) then Reply(j, Err(IdentityConflict))
        else
          var confirmed :=
            existing.(completedAt := Later(now, existing.completedAt), outcome := OrderResponse(order));
          Reply(j.(rows := j.rows[expected.id := r.(completion := Some(confirmed))]), Ok(confirmed))
  }

  predicate ProvesPending(proof: OrderReading, orderId: string) {
    && orderId != []
    && proof.orderId == orderId
    && proof.pending
    && proof.positionId.None?
    && proof.positionQty.None?
    && proof.symbol.Some? && Text.Trim(proof.symbol.value) != []
  }

  function Attempts(j: JournalValue, id: BrokerCommandId): seq<RecoveryAttempt> {
    if id in j.recoveries then j.recoveries[id] else []
  }

  /** Claims a numbered retry of a Cancel whose completion is still ambiguous. */
  function BeginCancellationRecovery(j: JournalValue, expected: BrokerCommand, proof: OrderReading, at: int)
    : Reply<Option<nat>> {
    match Get(j, expected.id)
    case Err(e) => Reply(j, Err(e))
    case Ok(found) =>
      if || found.None? || !expected.action.Cancel? || found.value.command != expected
         || !InScope(j, expected) || !ProvesPending(proof, expected.action.orderId)
      then Reply(j, Err(IdentityConflict))
      else
        var r := found.value;
        if r.state == Applied then Reply(j, Ok(None))
        else if r.completion.None? then Reply(j, Err(IdentityConflict))
        else if r.state != Completed || Final(r.completion.value) then Reply(j, Ok(None))
        else
          var log := Attempts(j, expected.id) + [RecoveryAttempt(at, proof, r.completion.value, None)];
          Reply(j.(recoveries := j.recoveries[expected.id := log]), Ok(Some(|log|)))
  }

  /** Notes what a retry brought; the row changes only for an acknowledgement, and
      never once it is applied. */
  function FinishCancellationRecovery(j: JournalValue, expected: BrokerCommand, attempt: nat,
                                      result: BrokerCommandCompletion): Reply<Option<BrokerCommandCompletion>> {
    match Get(j, expected.id)
    case Err(e) => Reply(j, Err(e))
    case Ok(found) =>
      if || found.None? || found.value.command != expected || !expected.action.Cancel? || !InScope(j, expected)
         || result.receipt != expected.Receipt()
         || result.queuedAt != found.value.queuedAt
         || result.dispatchedAt != found.value.dispatchedAt
      then Reply(j, Err(IdentityConflict))
      else
        var r := found.value;
        var log := Attempts(j, expected.id);
        if !(0 < attempt <= |log|) || log[attempt - 1].result.Some? then Reply(j, Err(IdentityConflict))
        else
          var noted := j.(recoveries :=
            j.recoveries[expected.id := log[attempt - 1 := log[attempt - 1].(result := Some(result))]]);
          if r.state == Applied then Reply(noted, Ok(None))
          else if r.completion.None? || r.state != Completed || Final(r.completion.value) then
            Reply(noted, Err(IdentityConflict))
          else if !result.outcome.Acknowledged? then Reply(noted, Ok(Some(r.completion.value)))
          else
            Reply(noted.(rows := noted.rows[expected.id := r.(completion := Some(result))]), Ok(Some(result)))
  }

  /** The intents of one checkpoint batch; `None` rolls the whole batch back. */
  function WithIntents(rows: Rows, intents: seq<Intent>): Option<Rows>
    decreases |intents|
  {
    if intents == [] then Some(rows)
    else
      var c := intents[0].command;
      if c.id in rows then
        if rows[c.id].command != c then None else WithIntents(rows, intents[1..])
      else WithIntents(rows[c.id := Record(c, Queued, intents[0].queuedAt, None, None)], intents[1..])
  }

  /** A receipt may be marked applied once its outcome is settled. */
  predicate Appliable(rows: Rows, a: Reduced) {
    && a.receipt.id in rows
    && var r := rows[a.receipt.id];
    && DecodeFault(r).None?
    && r.command.Receipt() == a.receipt
    && r.completion.Some?
    && (Final(r.completion.value) || r.command.action.SettledByTerminal(a.order, a.state))
  }

  /** The receipts of one checkpoint batch, in order. */
  function WithApplied(rows: Rows, applied: seq<Reduced>): Option<Rows>
    decreases |applied|
  {
    if applied == [] then Some(rows)
    else if !Appliable(rows, applied[0]) then None
    else
      var id := applied[0].receipt.id;
      WithApplied(rows[id := rows[id].(state := Applied)], applied[1..])
  }

  /** Intents were validated and encoded when the batch was built. */
  predicate WellFormedIntents(intents: seq<Intent>) {
    forall i :: 0 <= i < |intents| ==> EncodeFault(intents[i].command).None?
  }

  function PersistExecutionBatch(j: JournalValue, intents: seq<Intent>, applied: seq<Reduced>): Reply<()> {
    if exists i :: 0 <= i < |intents| && !InScope(j, intents[i].command) then Reply(j, Err(Journal))
    else
      var inserted := WithIntents(j.rows, intents);
      if inserted.None? then Reply(j, Err(IdentityConflict))
      else
        var rows := WithApplied(inserted.value, applied);
        if rows.None? then Reply(j, Err(Journal)) else Reply(j.(rows := rows.value), Ok(()))
  }

  function RequestExecutionStop(j: JournalValue): JournalValue {
    if j.phase == Running then j.(phase := StoppingPhase) else j
  }

  predicate AllApplied(rows: Rows) {
    forall id :: id in rows ==> rows[id].state == Applied
  }

  /** `exposure` says that a materialised insight still owns broker exposure. */
  function CompleteExecutionStop(j: JournalValue, exposure: bool): Reply<bool> {
    if j.phase == Running then Reply(j, Err(Journal))
    else if !AllApplied(j.rows) || exposure then Reply(j, Ok(false))
    else Reply(j.(phase := Stopped), Ok(true))
  }

  function BeginExecutionEpoch(j: JournalValue, exposure: bool): Reply<()> {
    if j.phase != Stopped then Reply(j, Ok(()))
    else if !AllApplied(j.rows) || exposure then Reply(j, Err(Journal))
    else Reply(j.(phase := Running, epoch := j.epoch + 1), Ok(()))
  }

  // ----- what every reachable journal satisfies -----

  predicate RowInv(j: JournalValue, id: BrokerCommandId, r: Record) {
    && r.command.id == id
    && InScope(j, r.command)
    && EncodeFault(r.command).None?
    && (r.completion.Some? <==> r.state in {Completed, Applied})
    && (r.state == Queued ==> r.dispatchedAt.None?)
    && (r.state == Dispatching ==> r.dispatchedAt.Some?)
    && (r.completion.Some? ==>
          var c := r.completion.value;
          && c.receipt == r.command.Receipt()
          && c.queuedAt == r.queuedAt
          && c.dispatchedAt == r.dispatchedAt
          && (c.outcome.CancelledBeforeDispatch? ==> c.dispatchedAt.None?)
          && (c.outcome.Ambiguous? ==> c.dispatchedAt.Some?)
          && (c.outcome.Ambiguous? && r.state == Applied ==>
                r.command.action.Cancel? || r.command.action.Close?
                || r.command.action.TakeProfit? || r.command.action.StopLoss?))
  }

  predicate JournalInv(j: JournalValue) {
    forall id {:trigger RowInv(j, id, j.rows[id])} :: id in j.rows ==> RowInv(j, id, j.rows[id])
  }

  /** Durable evidence only sharpens: absent, then ambiguous, then final. */
  predicate Sharpens(a: Option<BrokerCommandCompletion>, b: Option<BrokerCommandCompletion>) {
    match a
    case None => true
    case Some(c) => b.Some? && (b.value == c || (!Final(c) && Final(b.value)))
  }

  predicate RowEvolves(a: Record, b: Record) {
    && b.command == a.command
    && b.queuedAt == a.queuedAt
    && Sharpens(a.completion, b.completion)
    && (a.state == Completed ==> b.state in {Completed, Applied})
    && (a.state == Applied ==> b.state == Applied && b.completion == a.completion)
  }

  predicate Evolves(a: Rows, b: Rows) {
    forall id :: id in a ==> id in b && RowEvolves(a[id], b[id])
  }

  /** What a checkpoint may do to the table: queue new intents and mark
      completed rows applied, nothing else. */
  predicate CheckpointChange(a: Rows, b: Rows) {
    && (forall id :: id in a ==> id in b && (b[id] == a[id] || (a[id].completion.Some? && b[id] == a[id].(state := Applied))))
    && (forall id :: id in b && id !in a ==> b[id].state == Queued && b[id].completion.None?)
  }

  lemma EvolvesTransitive(a: Rows, b: Rows, c: Rows)
    requires Evolves(a, b) && Evolves(b, c)
    ensures Evolves(a, c)
  {
    forall id | id in a ensures id in c && RowEvolves(a[id], c[id]) {
      assert RowEvolves(a[id], b[id]) && RowEvolves(b[id], c[id]);
    }
  }
}
