/** One live worker, its entry gate and its journal as a step system. Each step
    is what the code does between two suspension points; every choice that the
    broker, the clock, the account cache, the scheduler or the strategy owner
    makes is a parameter of the step, and a crash may follow any step. */
module WorkerSpec {
  import opened Basics
  import opened Commands
  import opened JournalSpec

  const MAX_COMMAND_RECONCILIATIONS: nat := 256
  const MAX_CANCEL_RECOVERY_ATTEMPTS: nat := 6
  /** Seconds before each look-up of one ambiguous command. */
  const COMMAND_RECONCILIATION_DELAYS: seq<int> := [1, 2, 5, 15, 30, 60]

  /** `ticket` is the place of an accepted enqueue in the `accepted` history; the
      copy of a Cancel that the reconciliation timer parks carries none. */
  datatype QueuedCommand = QueuedCommand(command: BrokerCommand, queuedAt: int, ticket: Option<nat>)

  datatype EntryGate = EntryGate(
    stopped: bool,
    cancelled: set<BrokerCommandId>,
    deadlines: map<BrokerCommandId, int>,
    snapshots: bool)
  {
    predicate CancelsEntry(id: BrokerCommandId, now: int) {
      stopped || id in cancelled || (id in deadlines && now >= deadlines[id])
    }
  }

  datatype Reconciliation = Reconciliation(command: BrokerCommand, attempt: nat, due: int)

  datatype WorkerEvent =
    | CompletionEvent(completion: BrokerCommandCompletion)
    | FailedEvent(receipt: BrokerCommandReceipt, error: BrokerCommandError)

  datatype SentEvent = SentEvent(ticket: Option<nat>, event: WorkerEvent)

  /** The command in hand and how far it has come. `attempt` numbers a guarded
      cancellation retry; an ordinary dispatch has none. */
  datatype Hand =
    | Free
    | Taken(item: QueuedCommand)
    | Replaying(item: QueuedCommand, record: Record, completion: BrokerCommandCompletion)
    | Admitting(item: QueuedCommand, record: Record, proof: Option<OrderReading>)
    | Dispatched(item: QueuedCommand, record: Record, at: int, attempt: Option<nat>)
    | InFlight(item: QueuedCommand, record: Record, at: int, attempt: Option<nat>)
    | Unpolled(item: QueuedCommand, record: Record, at: int, attempt: Option<nat>,
               refusal: Option<BrokerCommandOutcome>, accountChanged: bool)
    | Concluded(item: QueuedCommand, record: Record, dispatchedAt: Option<int>, attempt: Option<nat>,
                outcome: BrokerCommandOutcome)
    | Settled(item: QueuedCommand, completion: BrokerCommandCompletion)
    | Delivering(item: QueuedCommand, completion: BrokerCommandCompletion)
    | Failing(item: QueuedCommand, error: BrokerCommandError)

  datatype WorkerValue = WorkerValue(
    life: nat,
    entryCapacity: nat,
    controlCapacity: nat,
    gate: EntryGate,
    stopRequested: bool,
    receiverOpen: bool,
    entries: seq<QueuedCommand>,
    controls: seq<QueuedCommand>,
    parkedEntry: Option<QueuedCommand>,
    parkedControl: Option<QueuedCommand>,
    reconciliations: seq<Reconciliation>,
    attempts: map<BrokerCommandId, nat>,
    hand: Hand,
    accepted: seq<BrokerCommand>,
    sent: seq<SentEvent>,
    dropped: seq<nat>)

  /** The first poll of one transport future. */
  datatype Poll = Poll(life: nat, command: BrokerCommand, retry: bool, now: int)

  /** `polls` and `delivered` are histories over every process life: each first
      transport poll and each completion the owner received. `lives` counts the
      workers started so far. */
  datatype State = State(
    journal: JournalValue, worker: Option<WorkerValue>, lives: nat,
    polls: seq<Poll>, delivered: seq<BrokerCommandCompletion>)

  /** What the account cache answers at the first poll. */
  datatype Verdict = PollNow | Refuse(reason: string) | Unavailable(accountChanged: bool)

  datatype Resolution = Unsupported | Unknown | Confirmed(order: Order)

  /** The owner's short critical sections on the gate. */
  datatype GateStep =
    | StopEntries
    | RequestStop
    | CancelPendingEntry(id: BrokerCommandId)
    | ReleaseEntryIdentity(id: BrokerCommandId)
    | SetEntryDeadline(id: BrokerCommandId, deadline: Option<int>)
    | InstallSnapshotGuard
    | DropReceiver

  /** Journal requests, served at any suspension point. */
  datatype RequestStep =
    | Checkpoint(intents: seq<Intent>, applied: seq<Reduced>)
    | CompleteStop(exposure: bool)
    | PersistStop

  /** Where the loop takes its next command from. */
  datatype Source = ParkedControl | ControlLane | ParkedEntry | EntryLane

  /** Verdicts on an admitted command that need no dispatch. */
  datatype Judgement =
    | RecoverDispatching
    | CancelUndispatched(now: int)
    | DeclineMargin(reason: string, now: int)

  /** Work on the command in hand. */
  datatype HandStep =
    | PrepareTaken
    | ConfirmSubmission(order: Order, now: int)
    | ProvePending(proof: OrderReading)
    | Judge(judgement: Judgement)
    | Park(takeControl: bool)
    | AccountChanged
    | Dispatch(at: int)
    | FirstPoll(now: int, verdict: Verdict)
    | Finish(outcome: BrokerCommandOutcome)
    | Defer
    | Conclude(now: int)
    | Publish(now: int)
    | Deliver

  datatype Step =
    | Start(entryCapacity: nat, controlCapacity: nat)
    | BeginEpoch(exposure: bool)
    | Enqueue(command: BrokerCommand, prepared: bool, queuedAt: int)
    | Gatekeep(gateStep: GateStep)
    | Serve(request: RequestStep)
    | Take(source: Source)
    | ReconcileDue(now: int, resolution: Resolution, later: int)
    | Work(handStep: HandStep)
    | Exit
    | Crash
    | CrashInRetry(now: int)

  // ----- reconciliation queue -----

  predicate Pending(pending: seq<Reconciliation>, id: BrokerCommandId) {
    exists i :: 0 <= i < |pending| && pending[i].command.id == id
  }

  function Schedule(pending: seq<Reconciliation>, c: BrokerCommand, now: int): seq<Reconciliation> {
    if |pending| >= MAX_COMMAND_RECONCILIATIONS || Pending(pending, c.id) || !(c.action.Submit? || c.action.Cancel?)
    then pending
    else pending + [Reconciliation(c, 0, now + COMMAND_RECONCILIATION_DELAYS[0])]
  }

  /** The first of the earliest due items. */
  predicate IsNextDue(pending: seq<Reconciliation>, now: int, k: nat) {
    && k < |pending|
    && pending[k].due <= now
    && (forall i :: 0 <= i < |pending| ==> pending[k].due <= pending[i].due)
    && (forall i :: 0 <= i < k ==> pending[k].due < pending[i].due)
  }

  function NextDue(pending: seq<Reconciliation>, now: int): (k: Option<nat>)
    ensures k.Some? ==> IsNextDue(pending, now, k.value)
    ensures k.None? ==> forall i :: 0 <= i < |pending| ==> pending[i].due > now
  {
    if pending == [] then None
    else
      var n := |pending| - 1;
      var rest := NextDue(pending[..n], now);
      assert forall i :: 0 <= i < n ==> pending[..n][i] == pending[i];
      if rest.Some? then
        if pending[n].due < pending[rest.value].due then Some(n) else rest
      else if pending[n].due <= now then Some(n) else None
  }

  function Without(pending: seq<Reconciliation>, k: nat): seq<Reconciliation>
    requires k < |pending|
  {
    pending[..k] + pending[k + 1..]
  }

  function Reschedule(pending: seq<Reconciliation>, item: Reconciliation, now: int): seq<Reconciliation> {
    if item.attempt + 1 < |COMMAND_RECONCILIATION_DELAYS| then
      pending + [Reconciliation(item.command, item.attempt + 1, now + COMMAND_RECONCILIATION_DELAYS[item.attempt + 1])]
    else pending
  }

  function AttemptsOf(attempts: map<BrokerCommandId, nat>, id: BrokerCommandId): nat {
    if id in attempts then attempts[id] else 0
  }

  predicate StillAmbiguous(rows: Rows, id: BrokerCommandId) {
    && id in rows
    && rows[id].state == Completed
    && rows[id].completion.Some?
    && !Final(rows[id].completion.value)
  }

  // ----- owner side: the sender's short critical sections -----

  function NewWorker(j: JournalValue, life: nat, entryCapacity: nat, controlCapacity: nat): WorkerValue {
    WorkerValue(life, entryCapacity, controlCapacity, EntryGate(j.phase != Running, {}, map[], false),
                j.phase != Running, true, [], [], None, None, [], map[], Free, [], [], [])
  }

  /** Admission: encoding, scope, stop, then the bounded lane of the command's kind. */
  function EnqueueResult(j: JournalValue, w: WorkerValue, c: BrokerCommand, prepared: bool)
    : Result<BrokerCommandReceipt, BrokerCommandError> {
    if EncodeFault(c).Some? then Err(EncodeFault(c).value)
    else if !InScope(j, c) then Err(Invalid)
    else if w.gate.stopped && c.action.IsEntry() && !prepared then Err(Stopping)
    else if (if c.action.IsTeardown() then |w.controls| >= w.controlCapacity else |w.entries| >= w.entryCapacity)
    then Err(QueueFull)
    else Ok(c.Receipt())
  }

  /** Pushing onto the lane, which numbers the accepted command. */
  function Accepted(w: WorkerValue, c: BrokerCommand, queuedAt: int): WorkerValue {
    var item := QueuedCommand(c, queuedAt, Some(|w.accepted|));
    if c.action.IsTeardown() then w.(controls := w.controls + [item], accepted := w.accepted + [c])
    else w.(entries := w.entries + [item], accepted := w.accepted + [c])
  }

  function Enqueued(j: JournalValue, w: WorkerValue, c: BrokerCommand, prepared: bool, queuedAt: int): WorkerValue {
    if EnqueueResult(j, w, c, prepared).Err? then w else Accepted(w, c, queuedAt)
  }

  function GateAfter(g: EntryGate, step: GateStep): EntryGate {
    match step
    case StopEntries => g.(stopped := true)
    case RequestStop => g.(stopped := true)
    case CancelPendingEntry(id) => g.(cancelled := g.cancelled + {id})
    case ReleaseEntryIdentity(id) => g.(cancelled := g.cancelled - {id}, deadlines := g.deadlines - {id})
    case SetEntryDeadline(id, deadline) =>
      g.(deadlines := if deadline.Some? then g.deadlines[id := deadline.value] else g.deadlines - {id})
    case InstallSnapshotGuard => g.(snapshots := true)
    case DropReceiver => g
  }

  function Gatekept(w: WorkerValue, step: GateStep): WorkerValue {
    w.(gate := GateAfter(w.gate, step),
       stopRequested := w.stopRequested || step.RequestStop?,
       receiverOpen := w.receiverOpen && !step.DropReceiver?)
  }

  // ----- taking work -----

  predicate CanTake(w: WorkerValue, source: Source) {
    && w.hand.Free?
    && match source
       case ParkedControl => w.parkedControl.Some?
       case ControlLane => w.parkedControl.None? && w.controls != []
       case ParkedEntry => w.parkedEntry.Some?
       case EntryLane => w.parkedEntry.None? && w.entries != []
  }

  function Taking(w: WorkerValue, source: Source): WorkerValue
    requires CanTake(w, source)
  {
    match source
    case ParkedControl => w.(parkedControl := None, hand := Taken(w.parkedControl.value))
    case ControlLane => w.(controls := w.controls[1..], hand := Taken(w.controls[0]))
    case ParkedEntry => w.(parkedEntry := None, hand := Taken(w.parkedEntry.value))
    case EntryLane => w.(entries := w.entries[1..], hand := Taken(w.entries[0]))
  }

  /** The timer branch without a confirmation: a Cancel re-enters its lane, an
      unresolved submission waits longer, a settled one is forgotten. */
  function Rescheduling(w: WorkerValue, rows: Rows, k: nat, resolution: Resolution, later: int): WorkerValue
    requires k < |w.reconciliations|
  {
    var item := w.reconciliations[k];
    var c := item.command;
    var rest := Without(w.reconciliations, k);
    if !StillAmbiguous(rows, c.id) then w.(reconciliations := rest, attempts := w.attempts - {c.id})
    else if c.action.Cancel? then
      w.(reconciliations := Reschedule(rest, item, later),
         parkedControl := if w.parkedControl.None? then Some(QueuedCommand(c, rows[c.id].queuedAt, None))
                          else w.parkedControl)
    else if c.action.Submit? && resolution.Unknown? then w.(reconciliations := Reschedule(rest, item, later))
    else w.(reconciliations := rest)
  }

  /** A look-up that found the broker's order replaces the ambiguous result. */
  function AfterTimerConfirm(s: State, w: WorkerValue, c: BrokerCommand, order: Order, now: int): State {
    var r := ConfirmAmbiguousSubmission(s.journal, c, order, now);
    if r.result.Err? then s.(journal := r.journal, worker := None)
    else
      s.(journal := r.journal,
         worker := Some(w.(hand := Delivering(QueuedCommand(c, r.result.value.queuedAt, None), r.result.value))))
  }

  function AfterReconcile(s: State, w: WorkerValue, k: nat, resolution: Resolution, later: int): State
    requires k < |w.reconciliations|
  {
    var c := w.reconciliations[k].command;
    if StillAmbiguous(s.journal.rows, c.id) && c.action.Submit? && resolution.Confirmed? then
      AfterTimerConfirm(s, w.(reconciliations := Without(w.reconciliations, k)), c, resolution.order, later)
    else s.(worker := Some(Rescheduling(w, s.journal.rows, k, resolution, later)))
  }

  /** A durable result is replayed; anything else goes on to admission. */
  function PreparedHand(item: QueuedCommand, result: Result<Record, BrokerCommandError>): Hand {
    match result
    case Err(e) => Failing(item, e)
    case Ok(record) =>
      if record.completion.Some? then Replaying(item, record, record.completion.value)
      else Admitting(item, record, None)
  }

  function AfterPrepare(s: State, w: WorkerValue): State
    requires w.hand.Taken?
  {
    var r := Prepare(s.journal, w.hand.item.command, w.hand.item.queuedAt);
    s.(journal := r.journal, worker := Some(w.(hand := PreparedHand(w.hand.item, r.result))))
  }

  // ----- replaying a durable result -----

  predicate CanConfirm(w: WorkerValue) {
    && (w.hand.Replaying? || w.hand.Settled?)
    && w.hand.completion.outcome.Ambiguous?
    && w.hand.item.command.action.Submit?
  }

  /** The order found at the broker settles a submission whose answer was lost. */
  function AfterConfirm(s: State, w: WorkerValue, order: Order, now: int): State
    requires CanConfirm(w)
  {
    var r := ConfirmAmbiguousSubmission(s.journal, w.hand.item.command, order, now);
    if r.result.Err? then s.(journal := r.journal, worker := None)
    else s.(journal := r.journal, worker := Some(w.(hand := ConfirmedHand(w.hand, r.result.value))))
  }

  function ConfirmedHand(h: Hand, completion: BrokerCommandCompletion): Hand
    requires h.Replaying? || h.Settled?
  {
    if h.Replaying? then Replaying(h.item, h.record, completion) else Settled(h.item, completion)
  }

  predicate CanProvePending(w: WorkerValue, proof: OrderReading) {
    && w.hand.Replaying?
    && w.hand.completion.outcome.Ambiguous?
    && w.hand.item.command.action.Cancel?
    && AttemptsOf(w.attempts, w.hand.item.command.id) < MAX_CANCEL_RECOVERY_ATTEMPTS
    && (w.hand.item.command.id in w.attempts || |w.attempts| < MAX_COMMAND_RECONCILIATIONS)
    && proof.orderId == w.hand.item.command.action.orderId && proof.pending
  }

  function Proving(w: WorkerValue, proof: OrderReading): WorkerValue
    requires w.hand.Replaying?
  {
    w.(hand := Admitting(w.hand.item, w.hand.record, Some(proof)))
  }

  /** From a durable result to the channel, scheduling another look-up while it
      stays ambiguous. */
  function Publishing(w: WorkerValue, now: int): WorkerValue
    requires w.hand.Replaying? || w.hand.Settled?
  {
    var c := w.hand.item.command;
    var again := w.hand.completion.outcome.Ambiguous? && AttemptsOf(w.attempts, c.id) < MAX_CANCEL_RECOVERY_ATTEMPTS;
    w.(reconciliations := if again then Schedule(w.reconciliations, c, now) else w.reconciliations,
       hand := Delivering(w.hand.item, w.hand.completion))
  }

  // ----- admission of a command without a result -----

  /** A closed completion receiver disables entries before they are judged. */
  function Closing(w: WorkerValue): WorkerValue {
    w.(gate := w.gate.(stopped := w.gate.stopped || !w.receiverOpen))
  }

  predicate Gated(w: WorkerValue, c: BrokerCommand, now: int) {
    c.action.IsEntry() && (w.gate.CancelsEntry(c.id, now) || !w.receiverOpen)
  }

  /** Outcomes decided without dispatching. */
  predicate CanJudge(w: WorkerValue, judgement: Judgement) {
    && w.hand.Admitting?
    && match judgement
       case RecoverDispatching => w.hand.record.state == Dispatching
       case CancelUndispatched(now) => w.hand.record.state != Dispatching && Gated(w, w.hand.item.command, now)
       case DeclineMargin(_, now) =>
         && w.hand.record.state != Dispatching
         && w.hand.item.command.action.Submit? && !w.gate.CancelsEntry(w.hand.item.command.id, now)
  }

  function Judging(w: WorkerValue, judgement: Judgement): WorkerValue
    requires CanJudge(w, judgement)
  {
    var outcome := match judgement
      case RecoverDispatching => Ambiguous("recovered dispatched intent; broker reconciliation is required")
      case CancelUndispatched(_) => CancelledBeforeDispatch
      case DeclineMargin(reason, _) => Declined(reason);
    Closing(w).(hand := Concluded(w.hand.item, w.hand.record, w.hand.record.dispatchedAt, None, outcome))
  }

  predicate CanPark(w: WorkerValue, takeControl: bool) {
    && w.hand.Admitting? && w.hand.record.state != Dispatching
    && (takeControl ==> !w.hand.item.command.action.IsTeardown() && w.parkedControl.None? && w.controls != [])
  }

  /** Re-parking goes to the slot of the command's own lane. */
  function Parked(w: WorkerValue, item: QueuedCommand): WorkerValue {
    if item.command.action.IsTeardown() then w.(parkedControl := Some(item), hand := Free)
    else w.(parkedEntry := Some(item), hand := Free)
  }

  /** Waiting for the account is not dispatch; an arriving clean-up may preempt
      a waiting entry by taking the control slot. */
  function Parking(w: WorkerValue, takeControl: bool): WorkerValue
    requires CanPark(w, takeControl)
  {
    if takeControl then
      Parked(Closing(w).(parkedControl := Some(w.controls[0]), controls := w.controls[1..]), w.hand.item)
    else Parked(Closing(w), w.hand.item)
  }

  function Dropped(w: WorkerValue, item: QueuedCommand): WorkerValue {
    w.(attempts := w.attempts - {item.command.id}, hand := Free,
       dropped := if item.ticket.Some? then w.dropped + [item.ticket.value] else w.dropped)
  }

  /** The durable write that must precede any transport poll. */
  function AfterDispatch(s: State, w: WorkerValue, at: int): State
    requires w.hand.Admitting? && w.hand.proof.None?
  {
    var r := MarkDispatched(s.journal, w.hand.item.command.id, at);
    if r.result.Err? then s.(journal := r.journal, worker := None)
    else s.(journal := r.journal, worker := Some(Closing(w).(hand := Dispatched(w.hand.item, w.hand.record, at, None))))
  }

  /** No attempt number means there is nothing left to retry. */
  function ClaimAnswered(w: WorkerValue, at: int, result: Result<Option<nat>, BrokerCommandError>): Option<WorkerValue>
    requires w.hand.Admitting?
  {
    var item := w.hand.item;
    match result
    case Err(_) => None
    case Ok(None) => Some(Dropped(Closing(w), item))
    case Ok(Some(attempt)) =>
      Some(Closing(w).(
        attempts := w.attempts[item.command.id := AttemptsOf(w.attempts, item.command.id) + 1],
        hand := Dispatched(item, w.hand.record, at, Some(attempt))))
  }

  /** A guarded retry claims its numbered attempt first. */
  function AfterClaim(s: State, w: WorkerValue, at: int): State
    requires w.hand.Admitting? && w.hand.proof.Some?
  {
    var r := BeginCancellationRecovery(s.journal, w.hand.item.command, w.hand.proof.value, at);
    s.(journal := r.journal, worker := ClaimAnswered(w, at, r.result))
  }

  // ----- transport -----

  predicate CanPoll(w: WorkerValue, verdict: Verdict) {
    && w.hand.Dispatched?
    && (verdict.Refuse? ==> w.gate.snapshots && w.hand.item.command.action.Submit?)
    && (verdict.Unavailable? ==> w.gate.snapshots)
  }

  /** The gate is judged and the transport polled under one lock. */
  function AfterFirstPoll(s: State, w: WorkerValue, now: int, verdict: Verdict): State
    requires CanPoll(w, verdict)
  {
    var h := w.hand;
    if Gated(w, h.item.command, now) then
      s.(worker := Some(w.(hand := Unpolled(h.item, h.record, h.at, h.attempt, Some(CancelledBeforeDispatch), false))))
    else
      match verdict
      case PollNow =>
        s.(worker := Some(w.(hand := InFlight(h.item, h.record, h.at, h.attempt))),
           polls := s.polls + [Poll(w.life, h.item.command, h.attempt.Some?, now)])
      case Refuse(reason) =>
        s.(worker := Some(w.(hand := Unpolled(h.item, h.record, h.at, h.attempt, Some(Declined(reason)), false))))
      case Unavailable(accountChanged) =>
        s.(worker := Some(w.(hand := Unpolled(h.item, h.record, h.at, h.attempt, None, accountChanged))))
  }

  /** Results the adapter can report once the transport has been polled; a
      timeout reports `Ambiguous`. */
  predicate TransportOutcome(action: BrokerCommandAction, retry: bool, outcome: BrokerCommandOutcome) {
    if retry then outcome.Acknowledged? || outcome.Ambiguous?
    else if action.Submit? then outcome.OrderResponse? || outcome.Declined? || outcome.Ambiguous?
    else outcome.Acknowledged? || outcome.Declined? || outcome.Ambiguous?
  }

  predicate CanFinish(w: WorkerValue, outcome: BrokerCommandOutcome) {
    w.hand.InFlight? && TransportOutcome(w.hand.item.command.action, w.hand.attempt.Some?, outcome)
  }

  function Finishing(w: WorkerValue, outcome: BrokerCommandOutcome): WorkerValue
    requires w.hand.InFlight?
  {
    var dispatchedAt := if w.hand.attempt.None? then Some(w.hand.at) else w.hand.record.dispatchedAt;
    w.(hand := Concluded(w.hand.item, w.hand.record, dispatchedAt, w.hand.attempt, outcome))
  }

  /** This process saw that no poll happened, so the row may be queued again. */
  function AfterDefer(s: State, w: WorkerValue): State
    requires w.hand.Unpolled?
  {
    var h := w.hand;
    var r := if h.attempt.None? then DeferUnpolledDispatch(s.journal, h.item.command.id, h.at)
             else Reply(s.journal, Ok(()));
    if r.result.Err? then s.(journal := r.journal, worker := None)
    else if h.refusal.Some? then
      var dispatchedAt := if h.attempt.None? then None else h.record.dispatchedAt;
      s.(journal := r.journal,
         worker := Some(w.(hand := Concluded(h.item, h.record, dispatchedAt, h.attempt, h.refusal.value))))
    else if h.accountChanged then s.(journal := RequestExecutionStop(r.journal), worker := None)
    else s.(journal := r.journal, worker := Some(Parked(w, h.item)))
  }

  // ----- durable results -----

  function CompletionOf(h: Hand, now: int): BrokerCommandCompletion
    requires h.Concluded?
  {
    BrokerCommandCompletion(
      h.item.command.Receipt(), h.record.queuedAt,
      if h.outcome.CancelledBeforeDispatch? then None else h.dispatchedAt, now, h.outcome)
  }

  function AfterComplete(s: State, w: WorkerValue, now: int): State
    requires w.hand.Concluded? && w.hand.attempt.None?
  {
    var completion := CompletionOf(w.hand, now);
    var r := Complete(s.journal, completion);
    if r.result.Err? then s.(journal := r.journal, worker := None)
    else s.(journal := r.journal, worker := Some(w.(hand := Settled(w.hand.item, completion))))
  }

  function RetryAnswered(w: WorkerValue, result: Result<Option<BrokerCommandCompletion>, BrokerCommandError>)
    : Option<WorkerValue>
    requires w.hand.Concluded?
  {
    var item := w.hand.item;
    match result
    case Err(_) => None
    case Ok(None) => Some(Dropped(w, item))
    case Ok(Some(settled)) =>
      Some(w.(attempts := if Final(settled) then w.attempts - {item.command.id} else w.attempts,
              hand := Settled(item, settled)))
  }

  function AfterRetry(s: State, w: WorkerValue, now: int): State
    requires w.hand.Concluded? && w.hand.attempt.Some?
  {
    var r := FinishCancellationRecovery(s.journal, w.hand.item.command, w.hand.attempt.value, CompletionOf(w.hand, now));
    s.(journal := r.journal, worker := RetryAnswered(w, r.result))
  }

  /** The journal when the process dies between the two writes that end a retry:
      its attempt is noted and the command row is not yet replaced. */
  function HalfRetried(j: JournalValue, h: Hand, now: int): JournalValue
    requires h.Concluded? && h.attempt.Some?
  {
    j.(recoveries :=
      FinishCancellationRecovery(j, h.item.command, h.attempt.value, CompletionOf(h, now)).journal.recoveries)
  }

  /** A result reaches the owner only after it is durable; a failed durable
      write, or a receiver that went away, ends the worker. */
  function AfterDeliver(s: State, w: WorkerValue): State
    requires w.hand.Delivering? || w.hand.Failing?
  {
    var item := w.hand.item;
    if w.hand.Failing? && w.hand.error == Journal then s.(worker := None)
    else if !w.receiverOpen then AfterExit(s, w)
    else if w.hand.Failing? then
      s.(worker := Some(w.(hand := Free,
           sent := w.sent + [SentEvent(item.ticket, FailedEvent(item.command.Receipt(), w.hand.error))])))
    else
      s.(worker := Some(w.(hand := Free, sent := w.sent + [SentEvent(item.ticket, CompletionEvent(w.hand.completion))])),
         delivered := s.delivered + [w.hand.completion])
  }

  function AfterExit(s: State, w: WorkerValue): State {
    s.(journal := if w.stopRequested then RequestExecutionStop(s.journal) else s.journal, worker := None)
  }

  // ----- the step relation -----

  predicate CanServe(w: WorkerValue, request: RequestStep) {
    match request
    case Checkpoint(intents, _) => WellFormedIntents(intents)
    case CompleteStop(_) => true
    case PersistStop => w.stopRequested
  }

  function Served(j: JournalValue, request: RequestStep): JournalValue {
    match request
    case Checkpoint(intents, applied) => PersistExecutionBatch(j, intents, applied).journal
    case CompleteStop(exposure) => CompleteExecutionStop(j, exposure).journal
    case PersistStop => RequestExecutionStop(j)
  }

  predicate CanWork(w: WorkerValue, step: HandStep) {
    match step
    case PrepareTaken => w.hand.Taken?
    case ConfirmSubmission(_, _) => CanConfirm(w)
    case ProvePending(proof) => CanProvePending(w, proof)
    case Judge(judgement) => CanJudge(w, judgement)
    case Park(takeControl) => CanPark(w, takeControl)
    case AccountChanged => w.hand.Admitting? && w.hand.record.state != Dispatching && w.gate.snapshots
    case Dispatch(_) => w.hand.Admitting? && w.hand.record.state != Dispatching
    case FirstPoll(_, verdict) => CanPoll(w, verdict)
    case Finish(outcome) => CanFinish(w, outcome)
    case Defer => w.hand.Unpolled?
    case Conclude(_) => w.hand.Concluded?
    case Publish(_) => w.hand.Replaying? || w.hand.Settled?
    case Deliver => w.hand.Delivering? || w.hand.Failing?
  }

  function AfterWork(s: State, w: WorkerValue, step: HandStep): State
    requires CanWork(w, step)
  {
    match step
    case PrepareTaken => AfterPrepare(s, w)
    case ConfirmSubmission(order, now) => AfterConfirm(s, w, order, now)
    case ProvePending(proof) => s.(worker := Some(Proving(w, proof)))
    case Judge(judgement) => s.(worker := Some(Judging(w, judgement)))
    case Park(takeControl) => s.(worker := Some(Parking(w, takeControl)))
    case AccountChanged => s.(journal := RequestExecutionStop(s.journal), worker := None)
    case Dispatch(at) => if w.hand.proof.None? then AfterDispatch(s, w, at) else AfterClaim(s, w, at)
    case FirstPoll(now, verdict) => AfterFirstPoll(s, w, now, verdict)
    case Finish(outcome) => s.(worker := Some(Finishing(w, outcome)))
    case Defer => AfterDefer(s, w)
    case Conclude(now) => if w.hand.attempt.None? then AfterComplete(s, w, now) else AfterRetry(s, w, now)
    case Publish(now) => s.(worker := Some(Publishing(w, now)))
    case Deliver => AfterDeliver(s, w)
  }

  /** Guard of each step; only one worker may hold the journal. */
  predicate Enabled(s: State, step: Step) {
    match step
    case Start(entryCapacity, controlCapacity) =>
      s.worker.None? && 0 < entryCapacity <= 4096 && 0 < controlCapacity <= 4096
    case BeginEpoch(_) => s.worker.None?
    case Enqueue(_, _, _) => s.worker.Some?
    case Gatekeep(_) => s.worker.Some?
    case Serve(request) => s.worker.Some? && CanServe(s.worker.value, request)
    case Take(source) => s.worker.Some? && CanTake(s.worker.value, source)
    case ReconcileDue(now, _, _) =>
      s.worker.Some? && s.worker.value.hand.Free? && NextDue(s.worker.value.reconciliations, now).Some?
    case Work(handStep) => s.worker.Some? && CanWork(s.worker.value, handStep)
    case Exit => s.worker.Some? && s.worker.value.hand.Free?
    case Crash => s.worker.Some?
    case CrashInRetry(_) =>
      s.worker.Some? && s.worker.value.hand.Concluded? && s.worker.value.hand.attempt.Some?
  }

  function Apply(s: State, step: Step): State
    requires Enabled(s, step)
  {
    match step
    case Start(entryCapacity, controlCapacity) =>
      s.(worker := Some(NewWorker(s.journal, s.lives, entryCapacity, controlCapacity)), lives := s.lives + 1)
    case BeginEpoch(exposure) => s.(journal := BeginExecutionEpoch(s.journal, exposure).journal)
    case Enqueue(c, prepared, queuedAt) => s.(worker := Some(Enqueued(s.journal, s.worker.value, c, prepared, queuedAt)))
    case Gatekeep(gateStep) => s.(worker := Some(Gatekept(s.worker.value, gateStep)))
    case Serve(request) => s.(journal := Served(s.journal, request))
    case Take(source) => s.(worker := Some(Taking(s.worker.value, source)))
    case ReconcileDue(now, resolution, later) =>
      AfterReconcile(s, s.worker.value, NextDue(s.worker.value.reconciliations, now).value, resolution, later)
    case Work(handStep) => AfterWork(s, s.worker.value, handStep)
    case Exit => AfterExit(s, s.worker.value)
    case Crash => s.(worker := None)
    case CrashInRetry(now) => s.(journal := HalfRetried(s.journal, s.worker.value.hand, now), worker := None)
  }
}
