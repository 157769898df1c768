/** The ways a command takes through the worker, from the hand to the owner, with
    everything they leave behind. */
module WorkerPaths {
  import opened Basics
  import opened Commands
  import opened JournalSpec
  import opened JournalProofs
  import opened JournalLaws
  import opened WorkerSpec
  import opened WorkerInvariant
  import opened WorkerSteps
  import opened WorkerEvidence

  // ----- a new command -----

  /** The row of a command that has only been queued. */
  ghost function Fresh(c: BrokerCommand, queuedAt: int): Record { Record(c, Queued, queuedAt, None, None) }

  lemma NewIsQueued(s: State, w: WorkerValue, item: QueuedCommand)
    requires Inv(s) && s.worker == Some(w) && w.hand == Taken(item) && item.command.id !in s.journal.rows
    ensures Apply(s, Work(PrepareTaken))
            == s.(journal := s.journal.(rows := s.journal.rows[item.command.id := Fresh(item.command, item.queuedAt)]),
                  worker := Some(w.(hand := Admitting(item, Fresh(item.command, item.queuedAt), None))))
  {
  }

  lemma QueuedIsDispatched(s: State, w: WorkerValue, item: QueuedCommand, at: int)
    requires s.worker == Some(w) && w.receiverOpen && item.command.id in s.journal.rows
    requires s.journal.rows[item.command.id] == Fresh(item.command, item.queuedAt)
    requires w.hand == Admitting(item, Fresh(item.command, item.queuedAt), None)
    ensures Enabled(s, Work(Dispatch(at)))
    ensures Apply(s, Work(Dispatch(at)))
            == s.(journal := s.journal.(rows := s.journal.rows[item.command.id :=
                    Record(item.command, Dispatching, item.queuedAt, Some(at), None)]),
                  worker := Some(w.(hand := Dispatched(item, Fresh(item.command, item.queuedAt), at, None))))
  {
  }

  /** Exactly an entry the gate refuses is not polled. */
  lemma PolledUnlessRefused(s: State, w: WorkerValue, now: int)
    requires s.worker == Some(w) && w.hand.Dispatched?
    ensures var h := w.hand;
            Apply(s, Work(FirstPoll(now, PollNow)))
            == if Refuses(w, h.item.command, now) then
                 s.(worker := Some(w.(hand := Unpolled(h.item, h.record, h.at, h.attempt, Some(CancelledBeforeDispatch), false))))
               else
                 s.(worker := Some(w.(hand := InFlight(h.item, h.record, h.at, h.attempt))),
                    polls := s.polls + [Poll(w.life, h.item.command, h.attempt != None, now)])
  {
  }

  /** A command the journal does not know reaches the broker after one queue write
      and one dispatch write, unless it is an entry the gate refuses. */
  lemma NewCommandIsPolled(s: State, w: WorkerValue, item: QueuedCommand, at: int, now: int)
    requires Inv(s) && s.worker == Some(w) && w.hand == Taken(item) && item.command.id !in s.journal.rows
    requires w.receiverOpen && !Refuses(w, item.command, now)
    ensures var s1 := Apply(s, Work(PrepareTaken));
            Enabled(s1, Work(Dispatch(at)))
            && var s2 := Apply(s1, Work(Dispatch(at)));
            Enabled(s2, Work(FirstPoll(now, PollNow)))
            && var s3 := Apply(s2, Work(FirstPoll(now, PollNow)));
            && s3.polls == s.polls + [Poll(w.life, item.command, false, now)]
            && s3.journal.rows == s.journal.rows[item.command.id :=
                 Record(item.command, Dispatching, item.queuedAt, Some(at), None)]
            && s3.worker == Some(w.(hand := InFlight(item, Fresh(item.command, item.queuedAt), at, None)))
  {
    NewIsQueued(s, w, item);
    var s1 := Apply(s, Work(PrepareTaken));
    QueuedIsDispatched(s1, s1.worker.value, item, at);
    var s2 := Apply(s1, Work(Dispatch(at)));
    PolledUnlessRefused(s2, s2.worker.value, now);
    assert s.journal.rows[item.command.id := Fresh(item.command, item.queuedAt)]
             [item.command.id := Record(item.command, Dispatching, item.queuedAt, Some(at), None)]
           == s.journal.rows[item.command.id := Record(item.command, Dispatching, item.queuedAt, Some(at), None)];
  }

  // ----- the answer -----

  /** What an adapter may answer an ordinary dispatch. */
  ghost predicate MayAnswer(c: BrokerCommand, o: BrokerCommandOutcome) {
    || o.Declined? || o.Ambiguous?
    || (if c.action.Submit? then o.OrderResponse? else o.Acknowledged?)
  }

  lemma AnswerConcludes(s: State, w: WorkerValue, o: BrokerCommandOutcome)
    requires s.worker == Some(w) && w.hand.InFlight? && w.hand.attempt.None? && MayAnswer(w.hand.item.command, o)
    ensures Enabled(s, Work(Finish(o)))
    ensures Apply(s, Work(Finish(o)))
            == s.(worker := Some(w.(hand := Concluded(w.hand.item, w.hand.record, Some(w.hand.at), None, o))))
  {
  }

  /** The completion an answer becomes. */
  ghost function Answer(c: BrokerCommand, queuedAt: int, dispatchedAt: Option<int>, now: int, o: BrokerCommandOutcome)
    : BrokerCommandCompletion {
    BrokerCommandCompletion(BrokerCommandReceipt(c.id, c.insightId, c.group), queuedAt, dispatchedAt, now, o)
  }

  lemma ConcludedIsStored(s: State, w: WorkerValue, now: int)
    requires Inv(s) && s.worker == Some(w) && w.hand.Concluded? && w.hand.attempt.None?
    ensures var c := w.hand.item.command;
            var answer := Answer(c, w.hand.record.queuedAt, w.hand.dispatchedAt, now, w.hand.outcome);
            && c.id in s.journal.rows
            && AfterComplete(s, w, now)
               == s.(journal := s.journal.(rows := s.journal.rows[c.id :=
                       s.journal.rows[c.id].(state := Completed, completion := Some(answer))]),
                     worker := Some(w.(hand := Settled(w.hand.item, answer))))
  {
    var c := w.hand.item.command;
    assert HandInv(s.journal.rows, s.journal.recoveries, s.polls, w.hand);
    CompleteExactly(s.journal, Answer(c, w.hand.record.queuedAt, w.hand.dispatchedAt, now, w.hand.outcome));
  }

  /** Whatever the broker answers an ordinary dispatch, the journal keeps exactly
      that, under the command's receipt and times, and nothing else changes. */
  lemma AnswerIsStored(s: State, w: WorkerValue, o: BrokerCommandOutcome, now: int)
    requires Inv(s) && s.worker == Some(w) && w.hand.InFlight? && w.hand.attempt.None?
    requires MayAnswer(w.hand.item.command, o)
    ensures Enabled(s, Work(Finish(o)))
    ensures var s1 := Apply(s, Work(Finish(o)));
            var c := w.hand.item.command;
            var answer := Answer(c, w.hand.record.queuedAt, Some(w.hand.at), now, o);
            && c.id in s.journal.rows && Enabled(s1, Work(Conclude(now)))
            && Apply(s1, Work(Conclude(now)))
               == s.(journal := s.journal.(rows := s.journal.rows[c.id :=
                       s.journal.rows[c.id].(state := Completed, completion := Some(answer))]),
                     worker := Some(w.(hand := Settled(w.hand.item, answer))))
  {
    AnswerConcludes(s, w, o);
    StepKeeps(s, Work(Finish(o)));
    var s1 := Apply(s, Work(Finish(o)));
    ConcludedIsStored(s1, s1.worker.value, now);
  }

  // ----- from the journal to the owner -----

  lemma SettledIsDelivered(s: State, w: WorkerValue, now: int)
    requires s.worker == Some(w) && w.hand.Settled? && w.receiverOpen
    ensures var s1 := Apply(s, Work(Publish(now)));
            Enabled(s1, Work(Deliver))
            && var s2 := Apply(s1, Work(Deliver));
            && s2.delivered == s.delivered + [w.hand.completion] && s2.journal == s.journal && s2.polls == s.polls
            && s2.worker.Some? && s2.worker.value.hand.Free?
            && s2.worker.value.sent == w.sent + [SentEvent(w.hand.item.ticket, CompletionEvent(w.hand.completion))]
  {
  }

  /** An unresolved result is looked up again: the first time one second later, and
      never while the identity already waits, the queue is full or its retries are
      used up. */
  lemma PublishSchedules(s: State, w: WorkerValue, now: int)
    requires s.worker == Some(w) && (w.hand.Replaying? || w.hand.Settled?)
    ensures var c := w.hand.item.command;
            var again := && w.hand.completion.outcome.Ambiguous? && (c.action.Submit? || c.action.Cancel?)
                         && (c.id in w.attempts ==> w.attempts[c.id] < 6) && |w.reconciliations| < 256
                         && forall i :: 0 <= i < |w.reconciliations| ==> w.reconciliations[i].command.id != c.id;
            Apply(s, Work(Publish(now))).worker
            == Some(w.(hand := Delivering(w.hand.item, w.hand.completion),
                       reconciliations := w.reconciliations + if again then [Reconciliation(c, 0, now + 1)] else []))
  {
    assert w.reconciliations + [] == w.reconciliations;
  }

  /** Seconds from one look-up to the next. */
  ghost predicate WaitsFor(attempt: nat, seconds: int) {
    match attempt
    case 1 => seconds == 2
    case 2 => seconds == 5
    case 3 => seconds == 15
    case 4 => seconds == 30
    case 5 => seconds == 60
    case _ => false
  }

  /** A look-up that says nothing is repeated after 2, 5, 15, 30 and 60 seconds, six
      look-ups in all, and then no more. */
  lemma LookUpsAreSpaced(pending: seq<Reconciliation>, item: Reconciliation, now: int, seconds: int)
    ensures WaitsFor(item.attempt + 1, seconds) ==>
              Reschedule(pending, item, now) == pending + [Reconciliation(item.command, item.attempt + 1, now + seconds)]
    ensures item.attempt >= 5 ==> Reschedule(pending, item, now) == pending
  {
  }

  // ----- a guarded retry of a Cancel -----

  /** An ambiguous Cancel whose order is read as still pending is sent once more
      under a numbered attempt, and an acknowledgement settles it under its first
      dispatch time. */
  lemma RetryIsClaimed(s: State, w: WorkerValue, proof: OrderReading, at: int)
    requires Inv(s) && s.worker == Some(w) && w.receiverOpen && w.hand.Replaying?
    requires w.hand.item.command.action.Cancel? && StillPending(proof, w.hand.item.command.action.orderId)
    requires var id := w.hand.item.command.id;
             (if id in w.attempts then w.attempts[id] < 6 else |w.attempts| < 256) && StillAmbiguous(s.journal.rows, id)
    ensures Enabled(s, Work(ProvePending(proof)))
    ensures var s1, id := Apply(s, Work(ProvePending(proof))), w.hand.item.command.id;
            Enabled(s1, Work(Dispatch(at)))
            && var s2 := Apply(s1, Work(Dispatch(at)));
            && s2.journal.rows == s.journal.rows && s2.polls == s.polls
            && s2.worker == Some(w.(
                 hand := Dispatched(w.hand.item, w.hand.record, at, Some(|Attempts(s.journal, id)| + 1)),
                 attempts := w.attempts[id := (if id in w.attempts then w.attempts[id] else 0) + 1]))
            && |Attempts(s2.journal, id)| == |Attempts(s.journal, id)| + 1
  {
    assert HandInv(s.journal.rows, s.journal.recoveries, s.polls, w.hand);
    BeginExactly(s.journal, w.hand.item.command, proof, at);
  }

  lemma RetryConcludes(s: State, w: WorkerValue, now: int)
    requires Inv(s) && s.worker == Some(w) && w.hand.Concluded? && w.hand.attempt.Some? && w.hand.outcome == Acknowledged
    requires StillAmbiguous(s.journal.rows, w.hand.item.command.id)
    ensures var s', c, row := AfterRetry(s, w, now), w.hand.item.command, s.journal.rows[w.hand.item.command.id];
            var answer := Answer(c, row.queuedAt, row.dispatchedAt, now, Acknowledged);
            && s'.journal.rows == s.journal.rows[c.id := row.(completion := Some(answer))]
            && s'.worker == Some(w.(hand := Settled(w.hand.item, answer), attempts := w.attempts - {c.id}))
  {
    assert HandInv(s.journal.rows, s.journal.recoveries, s.polls, w.hand);
    FinishExactly(s.journal, w.hand.item.command, w.hand.attempt.value, CompletionOf(w.hand, now));
  }

  lemma RetryAnswers(s: State, w: WorkerValue)
    requires s.worker == Some(w) && w.hand.InFlight? && w.hand.attempt.Some?
    ensures Enabled(s, Work(Finish(Acknowledged)))
    ensures Apply(s, Work(Finish(Acknowledged)))
            == s.(worker := Some(w.(hand := Concluded(w.hand.item, w.hand.record, w.hand.record.dispatchedAt,
                                                      w.hand.attempt, Acknowledged))))
  {
  }

  lemma RetrySettles(s: State, w: WorkerValue, now: int)
    requires Inv(s) && s.worker == Some(w) && w.hand.InFlight? && w.hand.attempt.Some?
    requires StillAmbiguous(s.journal.rows, w.hand.item.command.id)
    ensures Enabled(s, Work(Finish(Acknowledged)))
    ensures var s1, c := Apply(s, Work(Finish(Acknowledged))), w.hand.item.command;
            var row := s.journal.rows[c.id];
            var answer := Answer(c, row.queuedAt, row.dispatchedAt, now, Acknowledged);
            Enabled(s1, Work(Conclude(now)))
            && var s2 := Apply(s1, Work(Conclude(now)));
            && s2.journal.rows == s.journal.rows[c.id := row.(completion := Some(answer))]
            && s2.worker == Some(w.(hand := Settled(w.hand.item, answer), attempts := w.attempts - {c.id}))
  {
    RetryAnswers(s, w);
    StepKeeps(s, Work(Finish(Acknowledged)));
    var s1 := Apply(s, Work(Finish(Acknowledged)));
    RetryConcludes(s1, s1.worker.value, now);
  }

  // ----- refused, unavailable, taken, timed -----

  /** Without a poll the row is queued again, as if never dispatched; the refusal is
      concluded under no dispatch time, an unavailable account parks the command in
      the slot of its lane, and a changed account makes the stop durable. */
  lemma UnpolledIsUndone(s: State, w: WorkerValue)
    requires Inv(s) && s.worker == Some(w) && w.hand.Unpolled? && w.hand.attempt.None?
    ensures var s', c := AfterDefer(s, w), w.hand.item.command;
            && c.id in s.journal.rows
            && s'.journal.rows == s.journal.rows[c.id := s.journal.rows[c.id].(state := Queued, dispatchedAt := None)]
            && s'.polls == s.polls && s'.delivered == s.delivered
            && (if w.hand.refusal.Some? then
                  s'.worker == Some(w.(hand := Concluded(w.hand.item, w.hand.record, None, None, w.hand.refusal.value)))
                else if w.hand.accountChanged then s'.worker == None && s'.journal.phase != Running
                else if c.action.Cancel? || c.action.Close?
                then s'.worker == Some(w.(hand := Free, parkedControl := Some(w.hand.item)))
                else s'.worker == Some(w.(hand := Free, parkedEntry := Some(w.hand.item))))
  {
    assert HandInv(s.journal.rows, s.journal.recoveries, s.polls, w.hand);
    DeferExactly(s.journal, w.hand.item.command.id, w.hand.at);
    DeferWrites(s.journal, w.hand.item.command.id, w.hand.at);
  }

  /** Lanes are served oldest first. */
  lemma OldestFirst(w: WorkerValue)
    requires w.hand.Free?
    ensures w.parkedControl.None? && w.controls != [] ==>
              Taking(w, ControlLane) == w.(hand := Taken(w.controls[0]), controls := w.controls[1..])
    ensures w.parkedEntry.None? && w.entries != [] ==>
              Taking(w, EntryLane) == w.(hand := Taken(w.entries[0]), entries := w.entries[1..])
    ensures w.parkedControl.Some? ==>
              Taking(w, ParkedControl) == w.(hand := Taken(w.parkedControl.value), parkedControl := None)
    ensures w.parkedEntry.Some? ==>
              Taking(w, ParkedEntry) == w.(hand := Taken(w.parkedEntry.value), parkedEntry := None)
  {
  }

  /** One turn of the timer without a confirmation: a settled command is forgotten,
      a Cancel goes back to an empty control slot and is looked up again, a
      submission is looked up again while the broker does not know it. */
  lemma TimerExactly(w: WorkerValue, rows: Rows, k: nat, resolution: Resolution, later: int)
    requires k < |w.reconciliations|
    ensures var w', item := Rescheduling(w, rows, k, resolution, later), w.reconciliations[k];
            var c, rest := item.command, w.reconciliations[..k] + w.reconciliations[k + 1..];
            var open := c.id in rows && rows[c.id].state == Completed && rows[c.id].completion.Some?
                        && rows[c.id].completion.value.outcome.Ambiguous?;
            && (!open ==> w' == w.(reconciliations := rest, attempts := w.attempts - {c.id}))
            && (open ==> w'.attempts == w.attempts)
            && (open && c.action.Cancel? ==>
                  && w'.reconciliations == Reschedule(rest, item, later)
                  && w'.parkedControl == if w.parkedControl.Some? then w.parkedControl
                                         else Some(QueuedCommand(c, rows[c.id].queuedAt, None)))
            && (open && c.action.Submit? ==>
                  && w'.parkedControl == w.parkedControl
                  && w'.reconciliations == if resolution.Unknown? then Reschedule(rest, item, later) else rest)
  {
  }

  // ----- admission -----

  /** Exactly which commands a live worker's owner may hand in: clean-ups always,
      entries until the stop unless they were prepared before it, each while its
      lane has room. */
  lemma AdmittedExactly(j: JournalValue, w: WorkerValue, c: BrokerCommand, prepared: bool)
    ensures EnqueueResult(j, w, c, prepared).Ok? <==>
            && EncodeFault(c).None? && c.strategyId == j.strategyId && c.accountId == j.accountId
            && (w.gate.stopped && c.action.Submit? ==> prepared)
            && (if c.action.Cancel? || c.action.Close? then |w.controls| < w.controlCapacity
                else |w.entries| < w.entryCapacity)
    ensures EnqueueResult(j, w, c, prepared).Ok? ==>
              EnqueueResult(j, w, c, prepared).value == BrokerCommandReceipt(c.id, c.insightId, c.group)
  {
  }

  // ----- the gate -----

  /** A gate call changes what it says of its own identity only; only a stop
      concerns them all. */
  lemma GateTouchesItsOwn(g: EntryGate, step: GateStep, id: BrokerCommandId)
    requires step.StopEntries? || step.RequestStop? || step.InstallSnapshotGuard? || step.DropReceiver? || step.id != id
    ensures var g' := GateAfter(g, step);
            && (id in g'.cancelled <==> id in g.cancelled)
            && (id in g'.deadlines <==> id in g.deadlines) && (id in g.deadlines ==> g'.deadlines[id] == g.deadlines[id])
            && (g'.stopped <==> g.stopped || step.StopEntries? || step.RequestStop?)
            && (g'.snapshots <==> g.snapshots || step.InstallSnapshotGuard?)
  {
  }

  /** What each call says of its own identity. */
  lemma GateSays(g: EntryGate, id: BrokerCommandId, at: int)
    ensures var released := GateAfter(g, ReleaseEntryIdentity(id));
            id !in released.cancelled && id !in released.deadlines && released.stopped == g.stopped
    ensures var cancelled := GateAfter(g, CancelPendingEntry(id));
            id in cancelled.cancelled && cancelled.deadlines == g.deadlines && cancelled.stopped == g.stopped
    ensures var timed := GateAfter(g, SetEntryDeadline(id, Some(at)));
            id in timed.deadlines && timed.deadlines[id] == at && timed.cancelled == g.cancelled && timed.stopped == g.stopped
    ensures var untimed := GateAfter(g, SetEntryDeadline(id, None));
            id !in untimed.deadlines && untimed.cancelled == g.cancelled && untimed.stopped == g.stopped
  {
  }

  // ----- the other ways out of the hand -----

  /** A transport that is not polled leaves the reason: the account's refusal is the
      outcome, an unavailable snapshot is none. */
  lemma UnpolledSaysWhy(s: State, w: WorkerValue, now: int, verdict: Verdict)
    requires s.worker == Some(w) && CanPoll(w, verdict) && !verdict.PollNow? && !Refuses(w, w.hand.item.command, now)
    ensures var h := w.hand;
            Apply(s, Work(FirstPoll(now, verdict)))
            == s.(worker := Some(w.(hand :=
                 if verdict.Refuse? then Unpolled(h.item, h.record, h.at, h.attempt, Some(Declined(verdict.reason)), false)
                 else Unpolled(h.item, h.record, h.at, h.attempt, None, verdict.accountChanged))))
  {
  }

  /** What waits for the account waits in its own lane's slot, and a clean-up may
      take the hand of a waiting entry. An owner that left closes the gate. */
  lemma WaitsInItsLane(s: State, w: WorkerValue, takeControl: bool)
    requires s.worker == Some(w) && CanPark(w, takeControl)
    ensures var item := w.hand.item;
            var gate := w.gate.(stopped := w.gate.stopped || !w.receiverOpen);
            Apply(s, Work(Park(takeControl))).worker
            == Some(if item.command.action.Cancel? || item.command.action.Close?
                    then w.(gate := gate, hand := Free, parkedControl := Some(item))
                    else if takeControl
                    then w.(gate := gate, hand := Free, parkedEntry := Some(item),
                            parkedControl := Some(w.controls[0]), controls := w.controls[1..])
                    else w.(gate := gate, hand := Free, parkedEntry := Some(item)))
  {
  }

  /** The worker starts with nothing in hand, and behind a closed gate unless the
      journal is running. */
  lemma StartsClosedUnlessRunning(s: State, entries: nat, controls: nat)
    ensures Enabled(s, Start(entries, controls)) <==>
            s.worker == None && 1 <= entries <= 4096 && 1 <= controls <= 4096
    ensures Enabled(s, Start(entries, controls)) ==>
              var s' := Apply(s, Start(entries, controls));
              s'.lives == s.lives + 1 && s'.journal == s.journal && s'.worker.Some?
              && var w := s'.worker.value;
              && w.life == s.lives && w.entryCapacity == entries && w.controlCapacity == controls
              && (w.gate.stopped <==> s.journal.phase != Running) && w.receiverOpen && w.hand.Free?
              && w.entries == [] && w.controls == [] && w.reconciliations == [] && |w.attempts| == 0
  {
  }

  /** A stop once requested is durable before the worker is gone, and an account
      that changed stops the execution. */
  lemma LeavingKeepsStop(s: State, w: WorkerValue)
    requires s.worker == Some(w)
    ensures w.hand.Free? ==>
              var s' := Apply(s, Exit);
              s'.worker == None && s'.journal.rows == s.journal.rows && s'.journal.recoveries == s.journal.recoveries
              && s'.journal.phase == if w.stopRequested && s.journal.phase == Running then StoppingPhase else s.journal.phase
    ensures Enabled(s, Work(AccountChanged)) ==>
              var s' := Apply(s, Work(AccountChanged));
              s'.worker == None && s'.journal.rows == s.journal.rows
              && s'.journal.phase == if s.journal.phase == Running then StoppingPhase else s.journal.phase
  {
  }

  /** A command that cannot be prepared is reported as failed; a failing journal
      ends the worker. */
  lemma FailureIsReported(s: State, w: WorkerValue)
    requires s.worker == Some(w) && w.hand.Failing?
    ensures var s', c := Apply(s, Work(Deliver)), w.hand.item.command;
            && s'.delivered == s.delivered && s'.journal.rows == s.journal.rows
            && (w.hand.error == Journal || !w.receiverOpen ==> s'.worker == None)
            && (w.hand.error != Journal && w.receiverOpen ==>
                  s'.worker == Some(w.(hand := Free, sent := w.sent + [SentEvent(w.hand.item.ticket,
                                 FailedEvent(BrokerCommandReceipt(c.id, c.insightId, c.group), w.hand.error))])))
  {
  }

  lemma ConfirmedIsDelivered(s: State, w: WorkerValue, c: BrokerCommand, order: Order, now: int)
    requires JournalInv(s.journal) && StillAmbiguous(s.journal.rows, c.id) && s.journal.rows[c.id].command == c
    requires Answers(c, order)
    ensures var s' := AfterTimerConfirm(s, w, c, order, now);
            && s'.worker.Some? && s'.worker.value.hand.Delivering? && s'.worker.value.hand.item.command == c
            && s'.worker.value.hand.completion.outcome == OrderResponse(order)
            && s'.worker.value.reconciliations == w.reconciliations
  {
    ConfirmExactly(s.journal, c, order, now);
  }

  /** An order found at the broker by a due look-up goes to the owner, and is looked
      up no more. */
  lemma FoundOrderIsDelivered(s: State, w: WorkerValue, k: nat, order: Order, later: int)
    requires JournalInv(s.journal) && k < |w.reconciliations|
    requires var c := w.reconciliations[k].command;
             StillAmbiguous(s.journal.rows, c.id) && s.journal.rows[c.id].command == c && Answers(c, order)
    ensures var s' := AfterReconcile(s, w, k, Confirmed(order), later);
            && s'.worker.Some? && s'.worker.value.hand.Delivering?
            && s'.worker.value.hand.item.command == w.reconciliations[k].command
            && s'.worker.value.hand.completion.outcome == OrderResponse(order)
            && s'.worker.value.reconciliations == w.reconciliations[..k] + w.reconciliations[k + 1..]
  {
    ConfirmedIsDelivered(s, w.(reconciliations := Without(w.reconciliations, k)), w.reconciliations[k].command, order, later);
  }

  /** Exactly what may be heard from a polled transport. */
  lemma HeardExactly(w: WorkerValue, o: BrokerCommandOutcome)
    requires w.hand.InFlight?
    ensures CanWork(w, Finish(o)) <==>
            if w.hand.attempt == None then MayAnswer(w.hand.item.command, o) else o.Acknowledged? || o.Ambiguous?
  {
  }
}
