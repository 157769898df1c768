/** The worker as the object the loop updates: one method for each stretch of
    code between two suspension points, and `Perform`, which takes any one step
    of the system on the object. */
module CommandWorker {
  import opened Basics
  import opened Commands
  import opened JournalSpec
  import opened CommandJournal
  import opened WorkerSpec
  import opened WorkerInvariant
  import opened WorkerRuns
  import opened WorkerEvidence

  class BrokerCommandWorker {
    const journal: BrokerCommandJournal
    const life: nat
    const entryCapacity: nat
    const controlCapacity: nat
    var alive: bool
    var stopped: bool
    var cancelled: set<BrokerCommandId>
    var deadlines: map<BrokerCommandId, int>
    var snapshots: bool
    var stopRequested: bool
    var receiverOpen: bool
    var entries: seq<QueuedCommand>
    var controls: seq<QueuedCommand>
    var parkedEntry: Option<QueuedCommand>
    var parkedControl: Option<QueuedCommand>
    var reconciliations: seq<Reconciliation>
    var attempts: map<BrokerCommandId, nat>
    var hand: Hand
    var accepted: seq<BrokerCommand>
    ghost var sent: seq<SentEvent>
    ghost var dropped: seq<nat>
    ghost var polls: seq<Poll>
    ghost var delivered: seq<BrokerCommandCompletion>

    ghost function Worker(): WorkerValue
      reads this
    {
      WorkerValue(life, entryCapacity, controlCapacity, EntryGate(stopped, cancelled, deadlines, snapshots),
                  stopRequested, receiverOpen, entries, controls, parkedEntry, parkedControl,
                  reconciliations, attempts, hand, accepted, sent, dropped)
    }

    ghost function Model(): State
      reads this, journal
    {
      State(journal.Value(), if alive then Some(Worker()) else None, life + 1, polls, delivered)
    }

    /** A worker over an opened journal; a durable stop starts it stopped. */
    constructor (journal: BrokerCommandJournal, life: nat, entryCapacity: nat, controlCapacity: nat,
                 ghost polls: seq<Poll>, ghost delivered: seq<BrokerCommandCompletion>)
      requires 0 < entryCapacity <= 4096 && 0 < controlCapacity <= 4096
      ensures alive && hand.Free? && this.journal == journal
      ensures Model() == Apply(State(journal.Value(), None, life, polls, delivered), Start(entryCapacity, controlCapacity))
    {
      this.journal, this.life := journal, life;
      this.entryCapacity, this.controlCapacity := entryCapacity, controlCapacity;
      alive, stopped, cancelled, deadlines, snapshots := true, journal.phase != Running, {}, map[], false;
      stopRequested, receiverOpen := journal.phase != Running, true;
      entries, controls, parkedEntry, parkedControl := [], [], None, None;
      reconciliations, attempts, hand, accepted := [], map[], Free, [];
      sent, dropped := [], [];
      this.polls, this.delivered := polls, delivered;
    }

    // ----- the owner's sections -----

    /** Why a command is refused, or the receipt it gets; a lane whose worker has
        ended is closed. */
    method Admission(c: BrokerCommand, prepared: bool) returns (r: Result<BrokerCommandReceipt, BrokerCommandError>)
      ensures alive ==> r == EnqueueResult(journal.Value(), Worker(), c, prepared)
      ensures !alive ==> r.Err?
      ensures !alive && EncodeFault(c).None? && InScope(journal.Value(), c) ==>
                r.error == if stopped && c.action.IsEntry() && !prepared then Stopping else WorkerClosed
    {
      var fault := EncodeFault(c);
      if fault.Some? { return Err(fault.value); }
      if c.strategyId != journal.strategyId || c.accountId != journal.accountId { return Err(Invalid); }
      if stopped && c.action.IsEntry() && !prepared { return Err(Stopping); }
      if !alive { return Err(WorkerClosed); }
      if c.action.IsTeardown() {
        if |controls| >= controlCapacity { return Err(QueueFull); }
      } else {
        if |entries| >= entryCapacity { return Err(QueueFull); }
      }
      return Ok(c.Receipt());
    }

    /** An admitted command gets the next ticket and the last place in the bounded
        lane of its kind; a refused one changes nothing. */
    method TryEnqueue(c: BrokerCommand, prepared: bool, queuedAt: int)
      returns (r: Result<BrokerCommandReceipt, BrokerCommandError>)
      modifies `entries, `controls, `accepted
      ensures Worker() == old(if alive then Enqueued(journal.Value(), Worker(), c, prepared, queuedAt) else Worker())
      ensures r.Ok? <==>
                && alive && EncodeFault(c).None? && c.strategyId == journal.strategyId && c.accountId == journal.accountId
                && (stopped && c.action.Submit? ==> prepared)
                && (if c.action.Cancel? || c.action.Close? then |old(controls)| < controlCapacity
                    else |old(entries)| < entryCapacity)
      ensures r.Ok? ==>
                var item := QueuedCommand(c, queuedAt, Some(|old(accepted)|));
                && r.value == BrokerCommandReceipt(c.id, c.insightId, c.group) && accepted == old(accepted) + [c]
                && (if c.action.Cancel? || c.action.Close? then controls == old(controls) + [item] && entries == old(entries)
                    else entries == old(entries) + [item] && controls == old(controls))
      ensures r.Err? ==> entries == old(entries) && controls == old(controls) && accepted == old(accepted)
    {
      r := Admission(c, prepared);
      if r.Ok? {
        var item := QueuedCommand(c, queuedAt, Some(|accepted|));
        if c.action.IsTeardown() { controls := controls + [item]; } else { entries := entries + [item]; }
        accepted := accepted + [c];
      }
    }

    /** The owner's short sections on the gate; when a stop, a cancel or a deadline
        returns, its barrier stands against the first poll. */
    method Gatekeep(step: GateStep)
      requires alive
      modifies `stopped, `stopRequested, `cancelled, `deadlines, `snapshots, `receiverOpen
      ensures Worker() == Gatekept(old(Worker()), step)
      ensures step.StopEntries? || step.RequestStop? ==> Standing(Worker().gate, StopBarrier)
      ensures step.CancelPendingEntry? ==> Standing(Worker().gate, CancelBarrier(step.id))
      ensures step.SetEntryDeadline? && step.deadline.Some? ==>
                Standing(Worker().gate, DeadlineBarrier(step.id, step.deadline.value))
      ensures step.ReleaseEntryIdentity? ==> step.id !in cancelled && step.id !in deadlines
    {
      match step {
        case StopEntries => stopped := true;
        case RequestStop => stopped, stopRequested := true, true;
        case CancelPendingEntry(id) => cancelled := cancelled + {id};
        case ReleaseEntryIdentity(id) => cancelled, deadlines := cancelled - {id}, deadlines - {id};
        case SetEntryDeadline(id, deadline) =>
          if deadline.Some? { deadlines := deadlines[id := deadline.value]; } else { deadlines := deadlines - {id}; }
        case InstallSnapshotGuard => snapshots := true;
        case DropReceiver => receiverOpen := false;
      }
    }

    /** Journal requests served at a suspension point. */
    method ServeRequest(request: RequestStep)
      requires alive && CanServe(Worker(), request)
      modifies journal
      ensures journal.Value() == Served(old(journal.Value()), request)
    {
      match request {
        case Checkpoint(intents, applied) => var _ := journal.PersistBatch(intents, applied);
        case CompleteStop(exposure) => var _ := journal.CompleteStop(exposure);
        case PersistStop => journal.RequestStop();
      }
    }

    // ----- taking work -----

    /** The biased choice of the next command: parked clean-up while the account
        is ready, then the control lane, then the parked entry, then entries. */
    method Choose(accountReady: bool, entryReady: bool) returns (source: Option<Source>)
      requires hand.Free?
      ensures source.Some? ==> CanTake(Worker(), source.value)
      ensures source == Some(ParkedControl) <==> parkedControl.Some? && accountReady
      ensures source == Some(ControlLane) <==> parkedControl.None? && controls != []
      ensures source.None? || source == Some(ParkedEntry) || source == Some(EntryLane) <==>
                if parkedControl.Some? then !accountReady else controls == []
      ensures source == Some(ParkedEntry) ==> parkedEntry.Some? && entryReady
      ensures source.None? ==> if parkedEntry.Some? then !entryReady else entries == []
    {
      if parkedControl.Some? && accountReady { return Some(ParkedControl); }
      if parkedControl.None? && controls != [] { return Some(ControlLane); }
      if parkedEntry.Some? && entryReady { return Some(ParkedEntry); }
      if parkedEntry.None? && entries != [] { return Some(EntryLane); }
      return None;
    }

    method Receive(source: Source)
      requires CanTake(Worker(), source)
      modifies `entries, `controls, `parkedEntry, `parkedControl, `hand
      ensures Worker() == Taking(old(Worker()), source)
    {
      match source {
        case ParkedControl => hand, parkedControl := Taken(parkedControl.value), None;
        case ControlLane => hand, controls := Taken(controls[0]), controls[1..];
        case ParkedEntry => hand, parkedEntry := Taken(parkedEntry.value), None;
        case EntryLane => hand, entries := Taken(entries[0]), entries[1..];
      }
    }

    /** Index of the first of the earliest look-ups that is due. */
    method FindDue(now: int) returns (k: Option<nat>)
      ensures k == NextDue(reconciliations, now)
    {
      k := None;
      for i := 0 to |reconciliations|
        invariant k == NextDue(reconciliations[..i], now)
      {
        assert reconciliations[..i + 1][..i] == reconciliations[..i];
        if k.Some? {
          if reconciliations[i].due < reconciliations[k.value].due { k := Some(i); }
        } else if reconciliations[i].due <= now {
          k := Some(i);
        }
      }
      assert reconciliations[..|reconciliations|] == reconciliations;
    }

    /** The timer branch for a look-up that brought no confirmation. */
    method RescheduleDue(k: nat, resolution: Resolution, later: int)
      requires k < |reconciliations|
      modifies `reconciliations, `attempts, `parkedControl
      ensures Worker() == Rescheduling(old(Worker()), journal.rows, k, resolution, later)
    {
      var item := reconciliations[k];
      var c := item.command;
      reconciliations := reconciliations[..k] + reconciliations[k + 1..];
      if !StillAmbiguous(journal.rows, c.id) {
        attempts := attempts - {c.id};
        return;
      }
      if c.action.Cancel? && parkedControl.None? {
        parkedControl := Some(QueuedCommand(c, journal.rows[c.id].queuedAt, None));
      }
      if c.action.Cancel? || (c.action.Submit? && resolution.Unknown?) {
        reconciliations := Reschedule(reconciliations, item, later);
      }
    }

    /** A look-up that found the broker's order; its result goes straight to the
        owner. */
    method ConfirmDue(c: BrokerCommand, order: Order, later: int)
      requires alive
      modifies `hand, `alive, journal`rows
      ensures Model() == AfterTimerConfirm(old(Model()), old(Worker()), c, order, later)
    {
      var r := journal.ConfirmSubmission(c, order, later);
      match r
      case Err(_) => alive := false;
      case Ok(completion) => hand := Delivering(QueuedCommand(c, completion.queuedAt, None), completion);
    }

    method DropDue(k: nat)
      requires k < |reconciliations|
      modifies `reconciliations
      ensures Worker() == old(Worker().(reconciliations := Without(reconciliations, k)))
    {
      reconciliations := reconciliations[..k] + reconciliations[k + 1..];
    }

    /** One turn of the timer: confirm, wait longer, requeue a Cancel, or forget. */
    method RunTimer(now: int, resolution: Resolution, later: int)
      requires alive && NextDue(reconciliations, now).Some?
      modifies `reconciliations, `attempts, `parkedControl, `hand, `alive, journal`rows
      ensures Model() == AfterReconcile(old(Model()), old(Worker()), NextDue(old(reconciliations), now).value, resolution, later)
    {
      var k := FindDue(now);
      var c := reconciliations[k.value].command;
      if StillAmbiguous(journal.rows, c.id) && c.action.Submit? && resolution.Confirmed? {
        DropDue(k.value);
        ConfirmDue(c, resolution.order, later);
      } else {
        RescheduleDue(k.value, resolution, later);
      }
    }

    // ----- work on the command in hand -----

    /** Queues a new intent, or replays the durable result of a known one. */
    method PrepareCommand()
      requires alive && hand.Taken?
      modifies `hand, journal`rows
      ensures Model() == AfterPrepare(old(Model()), old(Worker()))
    {
      var item := hand.item;
      var r := journal.PrepareIntent(item.command, item.queuedAt);
      match r {
        case Err(e) => hand := Failing(item, e);
        case Ok(record) =>
          if record.completion.Some? { hand := Replaying(item, record, record.completion.value); }
          else { hand := Admitting(item, record, None); }
      }
    }

    /** The order found at the broker settles a submission whose answer was lost. */
    method ConfirmResult(order: Order, now: int)
      requires alive && CanConfirm(Worker())
      modifies `hand, `alive, journal`rows
      ensures Model() == AfterConfirm(old(Model()), old(Worker()), order, now)
    {
      var r := journal.ConfirmSubmission(hand.item.command, order, now);
      match r {
        case Err(_) => alive := false;
        case Ok(completion) =>
          hand := if hand.Replaying? then Replaying(hand.item, hand.record, completion) else Settled(hand.item, completion);
      }
    }

    /** A broker reading that shows the order still pending lets an ambiguous
        Cancel be tried again, within its budget. */
    method MayRetry(proof: OrderReading) returns (again: bool)
      ensures again <==> CanProvePending(Worker(), proof)
    {
      if !hand.Replaying? || !hand.completion.outcome.Ambiguous? || !hand.item.command.action.Cancel? { return false; }
      var c := hand.item.command;
      var tries := if c.id in attempts then attempts[c.id] else 0;
      return && tries < MAX_CANCEL_RECOVERY_ATTEMPTS
             && (c.id in attempts || |attempts| < MAX_COMMAND_RECONCILIATIONS)
             && proof.orderId == c.action.orderId && proof.pending;
    }

    method NoteClosedReceiver()
      modifies `stopped
      ensures Worker() == Closing(old(Worker()))
    {
      if !receiverOpen { stopped := true; }
    }

    /** Outcomes that need no dispatch, in the order the code tries them;
        `refusal` is what the margin estimate answered. */
    method Decide(now: int, refusal: Option<string>) returns (judgement: Option<Judgement>)
      requires hand.Admitting?
      ensures judgement.Some? ==> CanJudge(Worker(), judgement.value)
      ensures judgement == if hand.record.state == Dispatching then Some(RecoverDispatching)
                           else if Refuses(Worker(), hand.item.command, now) then Some(CancelUndispatched(now))
                           else if refusal.Some? && hand.item.command.action.Submit?
                           then Some(DeclineMargin(refusal.value, now)) else None
    {
      var id := hand.item.command.id;
      if hand.record.state == Dispatching { return Some(RecoverDispatching); }
      if hand.item.command.action.IsEntry()
         && (stopped || !receiverOpen || id in cancelled || (id in deadlines && now >= deadlines[id])) {
        return Some(CancelUndispatched(now));
      }
      if refusal.Some? && hand.item.command.action.Submit? { return Some(DeclineMargin(refusal.value, now)); }
      return None;
    }

    method JudgeCommand(judgement: Judgement)
      requires CanJudge(Worker(), judgement)
      modifies `hand, `stopped
      ensures Worker() == Judging(old(Worker()), judgement)
    {
      var outcome;
      match judgement {
        case RecoverDispatching =>
          outcome := Ambiguous("recovered dispatched intent; broker reconciliation is required");
        case CancelUndispatched(_) => outcome := CancelledBeforeDispatch;
        case DeclineMargin(reason, _) => outcome := Declined(reason);
      }
      NoteClosedReceiver();
      hand := Concluded(hand.item, hand.record, hand.record.dispatchedAt, None, outcome);
    }

    method ParkHand()
      requires !hand.Free?
      modifies `hand, `parkedEntry, `parkedControl
      ensures Worker() == Parked(old(Worker()), old(hand).item)
    {
      if hand.item.command.action.IsTeardown() { parkedControl := Some(hand.item); } else { parkedEntry := Some(hand.item); }
      hand := Free;
    }

    /** A command waits for its account in the slot of its own lane; an entry
        that an arriving clean-up preempts moves that clean-up to its slot. */
    method ParkCommand(takeControl: bool)
      requires CanPark(Worker(), takeControl)
      modifies `hand, `stopped, `parkedEntry, `parkedControl, `controls
      ensures Worker() == Parking(old(Worker()), takeControl)
    {
      NoteClosedReceiver();
      if takeControl { parkedControl, controls := Some(controls[0]), controls[1..]; }
      ParkHand();
    }

    /** Another account behind the connection: the stop is made durable and the
        worker ends. */
    method RefuseAccount()
      requires alive
      modifies `alive, journal`phase
      ensures !alive && journal.Value() == RequestExecutionStop(old(journal.Value()))
    {
      journal.RequestStop();
      alive := false;
    }

    /** A retry that has nothing left to settle. */
    method DropRetry()
      requires !hand.Free?
      modifies `attempts, `dropped, `hand
      ensures Worker() == Dropped(old(Worker()), old(hand).item)
    {
      attempts := attempts - {hand.item.command.id};
      dropped := if hand.item.ticket.Some? then dropped + [hand.item.ticket.value] else dropped;
      hand := Free;
    }

    method AnswerClaim(at: int, r: Result<Option<nat>, BrokerCommandError>)
      requires alive && hand.Admitting?
      modifies `hand, `stopped, `alive, `attempts, `dropped
      ensures (if alive then Some(Worker()) else None) == ClaimAnswered(old(Worker()), at, r)
    {
      NoteClosedReceiver();
      match r
      case Err(_) => alive := false;
      case Ok(None) => DropRetry();
      case Ok(Some(attempt)) =>
        var id := hand.item.command.id;
        attempts := attempts[id := (if id in attempts then attempts[id] else 0) + 1];
        hand := Dispatched(hand.item, hand.record, at, Some(attempt));
    }

    /** The dispatch write that must be durable before any poll. */
    method DispatchCommand(at: int)
      requires alive && hand.Admitting? && hand.proof.None?
      modifies `hand, `stopped, `alive, journal`rows
      ensures Model() == AfterDispatch(old(Model()), old(Worker()), at)
    {
      NoteClosedReceiver();
      var r := journal.MarkRowDispatched(hand.item.command.id, at);
      if r.Err? { alive := false; } else { hand := Dispatched(hand.item, hand.record, at, None); }
    }

    /** A proven-pending Cancel claims its numbered retry before any transport. */
    method ClaimRetry(at: int)
      requires alive && hand.Admitting? && hand.proof.Some?
      modifies `hand, `stopped, `alive, `attempts, `dropped, journal`recoveries
      ensures Model() == AfterClaim(old(Model()), old(Worker()), at)
    {
      var r := journal.BeginCancelRetry(hand.item.command, hand.proof.value, at);
      AnswerClaim(at, r);
    }

    /** Gate, snapshot and first poll under one lock; `started` tells whether
        the transport was polled. */
    method FirstPollOf(now: int, verdict: Verdict) returns (started: bool)
      requires alive && CanPoll(Worker(), verdict)
      modifies `hand, `polls
      ensures Model() == AfterFirstPoll(old(Model()), old(Worker()), now, verdict)
      ensures started <==> polls != old(polls)
      ensures started && old(hand).item.command.action.Submit? ==>
                !stopped && receiverOpen && old(hand).item.command.id !in cancelled
    {
      var id := hand.item.command.id;
      started := false;
      if hand.item.command.action.IsEntry()
         && (stopped || id in cancelled || (id in deadlines && now >= deadlines[id]) || !receiverOpen) {
        hand := Unpolled(hand.item, hand.record, hand.at, hand.attempt, Some(CancelledBeforeDispatch), false);
      } else {
        match verdict
        case PollNow =>
          started := true;
          polls := polls + [Poll(life, hand.item.command, hand.attempt.Some?, now)];
          hand := InFlight(hand.item, hand.record, hand.at, hand.attempt);
        case Refuse(reason) =>
          hand := Unpolled(hand.item, hand.record, hand.at, hand.attempt, Some(Declined(reason)), false);
        case Unavailable(accountChanged) =>
          hand := Unpolled(hand.item, hand.record, hand.at, hand.attempt, None, accountChanged);
      }
    }

    /** The transport answered, or its time ran out. */
    method FinishTransport(outcome: BrokerCommandOutcome)
      requires hand.InFlight?
      modifies `hand
      ensures Worker() == Finishing(old(Worker()), outcome)
    {
      var dispatchedAt := if hand.attempt.None? then Some(hand.at) else hand.record.dispatchedAt;
      hand := Concluded(hand.item, hand.record, dispatchedAt, hand.attempt, outcome);
    }

    /** The refusal is concluded, the command parked again, or, when the account
        changed, the stop made durable. */
    method SettleUnpolled()
      requires alive && hand.Unpolled?
      modifies `hand, `alive, `parkedEntry, `parkedControl, journal`phase
      ensures var h := old(hand);
              if h.refusal.Some? then
                alive && journal.Value() == old(journal.Value())
                && Worker() == old(Worker()).(hand :=
                     Concluded(h.item, h.record, if h.attempt.None? then None else h.record.dispatchedAt, h.attempt,
                               h.refusal.value))
              else if h.accountChanged then !alive && journal.Value() == RequestExecutionStop(old(journal.Value()))
              else alive && journal.Value() == old(journal.Value()) && Worker() == Parked(old(Worker()), h.item)
    {
      if hand.refusal.Some? {
        var dispatchedAt := if hand.attempt.None? then None else hand.record.dispatchedAt;
        hand := Concluded(hand.item, hand.record, dispatchedAt, hand.attempt, hand.refusal.value);
      } else if hand.accountChanged {
        journal.RequestStop();
        alive := false;
      } else {
        ParkHand();
      }
    }

    /** No poll happened, so the row is queued again. */
    method DeferCommand()
      requires alive && hand.Unpolled?
      modifies `hand, `alive, `parkedEntry, `parkedControl, journal`rows, journal`phase
      ensures Model() == AfterDefer(old(Model()), old(Worker()))
    {
      if hand.attempt.None? {
        var r := journal.DeferRow(hand.item.command.id, hand.at);
        if r.Err? { alive := false; return; }
      }
      SettleUnpolled();
    }

    method AnswerRetry(r: Result<Option<BrokerCommandCompletion>, BrokerCommandError>)
      requires alive && hand.Concluded?
      modifies `hand, `alive, `attempts, `dropped
      ensures (if alive then Some(Worker()) else None) == RetryAnswered(old(Worker()), r)
    {
      match r
      case Err(_) => alive := false;
      case Ok(None) => DropRetry();
      case Ok(Some(settled)) =>
        if !settled.outcome.Ambiguous? { attempts := attempts - {hand.item.command.id}; }
        hand := Settled(hand.item, settled);
    }

    /** The result is durable before anyone hears of it. */
    method CompleteCommand(now: int)
      requires alive && hand.Concluded? && hand.attempt.None?
      modifies `hand, `alive, journal`rows
      ensures Model() == AfterComplete(old(Model()), old(Worker()), now)
      ensures alive ==>
                && hand.Settled? && hand.item.command.id in journal.rows
                && journal.rows[hand.item.command.id].completion == Some(hand.completion)
    {
      var dispatchedAt := if hand.outcome.CancelledBeforeDispatch? then None else hand.dispatchedAt;
      var completion :=
        BrokerCommandCompletion(hand.item.command.Receipt(), hand.record.queuedAt, dispatchedAt, now, hand.outcome);
      var r := journal.CompleteRow(completion);
      if r.Err? { alive := false; return; }
      hand := Settled(hand.item, completion);
    }

    /** A retry's result is noted; the old result stands unless the broker
        acknowledged the cancellation. */
    method ConcludeRetry(now: int)
      requires alive && hand.Concluded? && hand.attempt.Some?
      modifies `hand, `alive, `attempts, `dropped, journal`rows, journal`recoveries
      ensures Model() == AfterRetry(old(Model()), old(Worker()), now)
    {
      var dispatchedAt := if hand.outcome.CancelledBeforeDispatch? then None else hand.dispatchedAt;
      var completion :=
        BrokerCommandCompletion(hand.item.command.Receipt(), hand.record.queuedAt, dispatchedAt, now, hand.outcome);
      var r := journal.FinishCancelRetry(hand.item.command, hand.attempt.value, completion);
      AnswerRetry(r);
    }

    /** Schedules another look-up while the result stays ambiguous, once per
        identity and within the retry budget. */
    method PublishResult(now: int)
      requires hand.Replaying? || hand.Settled?
      modifies `hand, `reconciliations
      ensures Worker() == Publishing(old(Worker()), now)
    {
      var c := hand.item.command;
      var tries := if c.id in attempts then attempts[c.id] else 0;
      if hand.completion.outcome.Ambiguous? && tries < MAX_CANCEL_RECOVERY_ATTEMPTS {
        if |reconciliations| < MAX_COMMAND_RECONCILIATIONS && !Pending(reconciliations, c.id)
           && (c.action.Submit? || c.action.Cancel?) {
          reconciliations := reconciliations + [Reconciliation(c, 0, now + COMMAND_RECONCILIATION_DELAYS[0])];
        }
      }
      hand := Delivering(hand.item, hand.completion);
    }

    /** The loop's end refuses further entries and makes a requested stop durable. */
    method EndWorker()
      requires alive
      modifies `alive, `stopped, journal`phase
      ensures Model() == AfterExit(old(Model()), old(Worker()))
      ensures !alive && stopped && (stopRequested ==> journal.phase != Running)
    {
      if stopRequested { journal.RequestStop(); }
      alive, stopped := false, true;
    }

    /** The owner hears of a result, or of a refused preparation; a receiver that
        went away ends the worker. */
    method DeliverResult()
      requires alive && (hand.Delivering? || hand.Failing?)
      modifies `hand, `sent, `delivered, `alive, `stopped, journal`phase
      ensures Model() == AfterDeliver(old(Model()), old(Worker()))
      ensures old(hand).Delivering? && receiverOpen ==> delivered == old(delivered) + [old(hand).completion]
    {
      if hand.Failing? && hand.error == Journal {
        alive := false;
      } else if !receiverOpen {
        EndWorker();
      } else {
        var event := if hand.Failing? then FailedEvent(hand.item.command.Receipt(), hand.error)
                     else CompletionEvent(hand.completion);
        sent := sent + [SentEvent(hand.item.ticket, event)];
        delivered := if hand.Delivering? then delivered + [hand.completion] else delivered;
        hand := Free;
      }
    }

    // ----- one step of the system -----

    /** Work on a command before its dispatch. */
    method PerformEarly(step: HandStep)
      requires alive && CanWork(Worker(), step)
      requires step.PrepareTaken? || step.ConfirmSubmission? || step.ProvePending? || step.Judge? || step.Park?
               || step.AccountChanged?
      modifies this, journal
      ensures Model() == AfterWork(old(Model()), old(Worker()), step)
    {
      match step
      case PrepareTaken => PrepareCommand();
      case ConfirmSubmission(order, now) => ConfirmResult(order, now);
      case ProvePending(proof) => hand := Admitting(hand.item, hand.record, Some(proof));
      case Judge(judgement) => JudgeCommand(judgement);
      case Park(takeControl) => ParkCommand(takeControl);
      case AccountChanged => RefuseAccount();
    }

    /** From the dispatch of a command to its delivery. */
    method PerformLate(step: HandStep)
      requires alive && CanWork(Worker(), step)
      requires step.Dispatch? || step.FirstPoll? || step.Finish? || step.Defer? || step.Conclude? || step.Publish?
               || step.Deliver?
      modifies this, journal
      ensures Model() == AfterWork(old(Model()), old(Worker()), step)
    {
      match step
      case Dispatch(at) => if hand.proof.None? { DispatchCommand(at); } else { ClaimRetry(at); }
      case FirstPoll(now, verdict) => var _ := FirstPollOf(now, verdict);
      case Finish(outcome) => FinishTransport(outcome);
      case Defer => DeferCommand();
      case Conclude(now) => if hand.attempt.None? { CompleteCommand(now); } else { ConcludeRetry(now); }
      case Publish(now) => PublishResult(now);
      case Deliver => DeliverResult();
    }

    /** A step of this worker, its owner or its requests; starts, epochs and
        crashes are not the object's own. */
    predicate Own(step: Step) {
      !(step.Start? || step.BeginEpoch? || step.Crash? || step.CrashInRetry?)
    }

    method PerformWork(step: HandStep)
      requires Enabled(Model(), Work(step))
      modifies this, journal
      ensures Model() == Apply(old(Model()), Work(step))
    {
      if step.Dispatch? || step.FirstPoll? || step.Finish? || step.Defer? || step.Conclude? || step.Publish?
         || step.Deliver? {
        PerformLate(step);
      } else {
        PerformEarly(step);
      }
    }

    method Perform(step: Step)
      requires Own(step) && Enabled(Model(), step)
      modifies this, journal
      ensures Model() == Apply(old(Model()), step)
    {
      match step
      case Enqueue(c, prepared, queuedAt) => var _ := TryEnqueue(c, prepared, queuedAt);
      case Gatekeep(gateStep) => Gatekeep(gateStep);
      case Serve(request) => ServeRequest(request);
      case Take(source) => Receive(source);
      case ReconcileDue(now, resolution, later) => RunTimer(now, resolution, later);
      case Work(handStep) => PerformWork(handStep);
      case Exit => EndWorker();
    }
  }
}
