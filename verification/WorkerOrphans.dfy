/** A dispatch whose worker died before recording a result. */
module WorkerOrphans {
  import opened Basics
  import opened Commands
  import opened JournalSpec
  import opened JournalProofs
  import opened WorkerSpec
  import opened WorkerInvariant
  import opened WorkerSteps
  import opened WorkerRuns

  /** Results that claim nothing the broker did not say: unresolved, or the
      broker's own order or acknowledgement found later. */
  ghost predicate Uncertain(outcome: BrokerCommandOutcome) {
    outcome.Ambiguous? || outcome.OrderResponse? || outcome.Acknowledged?
  }

  ghost predicate OrphanRow(r: Record) {
    if r.completion.None? then r.state == Dispatching else Uncertain(r.completion.value.outcome)
  }

  /** No worker owns the dispatch, and a worker that judges it says ambiguous. */
  ghost predicate OrphanHand(h: Hand, id: BrokerCommandId) {
    !h.Free? && h.item.command.id == id ==>
      && ((h.Dispatched? || h.InFlight? || h.Unpolled?) ==> h.attempt.Some?)
      && (h.Concluded? && h.attempt.None? ==> h.outcome.Ambiguous?)
  }

  ghost predicate OrphanIn(rows: Rows, id: BrokerCommandId) {
    id in rows && OrphanRow(rows[id])
  }

  ghost predicate Orphan(s: State, id: BrokerCommandId) {
    OrphanIn(s.journal.rows, id) && (s.worker.Some? ==> OrphanHand(s.worker.value.hand, id))
  }

  lemma OrphanPrepare(s: State, w: WorkerValue, id: BrokerCommandId)
    requires Inv(s) && s.worker == Some(w) && Orphan(s, id) && w.hand.Taken?
    ensures Orphan(AfterPrepare(s, w), id)
  {
    PrepareWrites(s.journal, w.hand.item.command, w.hand.item.queuedAt);
  }

  lemma OrphanConfirmed(s: State, w: WorkerValue, order: Order, now: int, id: BrokerCommandId)
    requires Inv(s) && s.worker == Some(w) && Orphan(s, id) && CanConfirm(w)
    ensures Orphan(AfterConfirm(s, w, order, now), id)
  {
    ConfirmWrites(s.journal, w.hand.item.command, order, now);
  }

  lemma OrphanReplay(s: State, w: WorkerValue, step: HandStep, id: BrokerCommandId)
    requires Inv(s) && s.worker == Some(w) && Orphan(s, id) && CanWork(w, step)
    requires step.PrepareTaken? || step.ConfirmSubmission? || step.ProvePending?
    ensures Orphan(AfterWork(s, w, step), id)
  {
    match step
    case PrepareTaken => OrphanPrepare(s, w, id);
    case ConfirmSubmission(order, now) => OrphanConfirmed(s, w, order, now, id);
    case ProvePending(_) =>
  }

  /** The row in hand is the durable one, so a dispatching row can only be judged. */
  lemma OrphanAdmit(s: State, w: WorkerValue, step: HandStep, id: BrokerCommandId)
    requires Inv(s) && s.worker == Some(w) && Orphan(s, id) && CanWork(w, step)
    requires step.Judge? || step.Park? || step.AccountChanged?
    ensures Orphan(AfterWork(s, w, step), id)
  {
    assert HandInv(s.journal.rows, s.journal.recoveries, s.polls, w.hand);
  }

  lemma OrphanDispatch(s: State, w: WorkerValue, at: int, id: BrokerCommandId)
    requires Inv(s) && s.worker == Some(w) && Orphan(s, id) && CanWork(w, Dispatch(at))
    ensures Orphan(AfterWork(s, w, Dispatch(at)), id)
  {
    assert HandInv(s.journal.rows, s.journal.recoveries, s.polls, w.hand);
    if w.hand.proof.None? {
      DispatchHand(s.journal, w, s.polls, at);
      DispatchWrites(s.journal, w.hand.item.command.id, at);
    } else {
      BeginWrites(s.journal, w.hand.item.command, w.hand.proof.value, at);
    }
  }

  lemma OrphanTransport(s: State, w: WorkerValue, step: HandStep, id: BrokerCommandId)
    requires Inv(s) && s.worker == Some(w) && Orphan(s, id) && CanWork(w, step)
    requires step.FirstPoll? || step.Finish?
    ensures Orphan(AfterWork(s, w, step), id)
  {
    var s' := AfterWork(s, w, step);
    assert s'.journal == s.journal && s'.worker.Some?;
    assert OrphanHand(s'.worker.value.hand, id);
  }

  lemma OrphanDefer(s: State, w: WorkerValue, id: BrokerCommandId)
    requires Inv(s) && s.worker == Some(w) && Orphan(s, id) && w.hand.Unpolled?
    ensures Orphan(AfterDefer(s, w), id)
  {
    assert HandInv(s.journal.rows, s.journal.recoveries, s.polls, w.hand);
    if w.hand.attempt.None? {
      DeferWrites(s.journal, w.hand.item.command.id, w.hand.at);
    }
  }

  lemma OrphanComplete(s: State, w: WorkerValue, now: int, id: BrokerCommandId)
    requires Inv(s) && s.worker == Some(w) && Orphan(s, id) && w.hand.Concluded? && w.hand.attempt.None?
    ensures Orphan(AfterComplete(s, w, now), id)
  {
    assert HandInv(s.journal.rows, s.journal.recoveries, s.polls, w.hand);
    CompleteWrites(s.journal, w.hand.item.command.id, CompletionOf(w.hand, now));
  }

  lemma OrphanRetry(s: State, w: WorkerValue, now: int, id: BrokerCommandId)
    requires Inv(s) && s.worker == Some(w) && Orphan(s, id) && w.hand.Concluded? && w.hand.attempt.Some?
    ensures Orphan(AfterRetry(s, w, now), id)
  {
    assert HandInv(s.journal.rows, s.journal.recoveries, s.polls, w.hand);
    FinishWrites(s.journal, w.hand.item.command, w.hand.attempt.value, CompletionOf(w.hand, now));
  }

  lemma OrphanWork(s: State, w: WorkerValue, step: HandStep, id: BrokerCommandId)
    requires Inv(s) && s.worker == Some(w) && Orphan(s, id) && CanWork(w, step)
    ensures Orphan(AfterWork(s, w, step), id)
  {
    if step.PrepareTaken? || step.ConfirmSubmission? || step.ProvePending? {
      OrphanReplay(s, w, step, id);
    } else if step.Judge? || step.Park? || step.AccountChanged? {
      OrphanAdmit(s, w, step, id);
    } else if step.Dispatch? {
      OrphanDispatch(s, w, step.at, id);
    } else if step.FirstPoll? || step.Finish? {
      OrphanTransport(s, w, step, id);
    } else if step.Defer? {
      OrphanDefer(s, w, id);
    } else if step.Conclude? {
      if w.hand.attempt.None? { OrphanComplete(s, w, step.now, id); } else { OrphanRetry(s, w, step.now, id); }
    }
  }

  lemma OrphanServe(s: State, w: WorkerValue, request: RequestStep, id: BrokerCommandId)
    requires Inv(s) && s.worker == Some(w) && Orphan(s, id) && CanServe(w, request)
    ensures OrphanIn(Served(s.journal, request).rows, id)
  {
    if request.Checkpoint? {
      CheckpointKeeps(s.journal, request.intents, request.applied);
    }
  }

  lemma OrphanConfirm(s: State, w: WorkerValue, c: BrokerCommand, order: Order, now: int, id: BrokerCommandId)
    requires JournalInv(s.journal) && OrphanIn(s.journal.rows, id)
    ensures Orphan(AfterTimerConfirm(s, w, c, order, now), id)
  {
    ConfirmWrites(s.journal, c, order, now);
  }

  lemma OrphanReconcile(s: State, w: WorkerValue, k: nat, resolution: Resolution, later: int, id: BrokerCommandId)
    requires Inv(s) && s.worker == Some(w) && Orphan(s, id) && k < |w.reconciliations|
    ensures Orphan(AfterReconcile(s, w, k, resolution, later), id)
  {
    ReschedulingShape(w, s.journal.rows, k, resolution, later);
    if resolution.Confirmed? {
      OrphanConfirm(s, w.(reconciliations := Without(w.reconciliations, k)), w.reconciliations[k].command,
                    resolution.order, later, id);
    }
  }

  ghost predicate OwnerStep(step: Step) {
    !(step.Serve? || step.ReconcileDue? || step.Work?)
  }

  /** The owner's steps write no row and put no dispatch in hand. */
  lemma OrphanOwner(s: State, step: Step, id: BrokerCommandId)
    requires Orphan(s, id) && Enabled(s, step) && OwnerStep(step)
    ensures Orphan(Apply(s, step), id)
  {
  }

  lemma OrphanStep(s: State, step: Step, id: BrokerCommandId)
    requires Inv(s) && Orphan(s, id) && Enabled(s, step)
    ensures Orphan(Apply(s, step), id)
  {
    if OwnerStep(step) {
      OrphanOwner(s, step, id);
    } else if step.Serve? {
      OrphanServe(s, s.worker.value, step.request, id);
    } else if step.Work? {
      OrphanWork(s, s.worker.value, step.handStep, id);
    } else {
      OrphanReconcile(s, s.worker.value, NextDue(s.worker.value.reconciliations, step.now).value,
                      step.resolution, step.later, id);
    }
  }

  // ----- its first result -----

  ghost predicate Unanswered(rows: Rows, id: BrokerCommandId) {
    id in rows && rows[id].completion.None?
  }

  /** Where the row had no result before, it still has none or an ambiguous one. */
  ghost predicate AnswersAmbiguous(before: Rows, after: Rows, id: BrokerCommandId) {
    Unanswered(before, id) && id in after && after[id].completion.Some? ==> after[id].completion.value.outcome.Ambiguous?
  }

  lemma FirstComplete(s: State, w: WorkerValue, now: int, id: BrokerCommandId)
    requires Inv(s) && s.worker == Some(w) && Orphan(s, id) && w.hand.Concluded? && w.hand.attempt.None?
    ensures AnswersAmbiguous(s.journal.rows, AfterComplete(s, w, now).journal.rows, id)
  {
    assert HandInv(s.journal.rows, s.journal.recoveries, s.polls, w.hand);
    CompleteWrites(s.journal, w.hand.item.command.id, CompletionOf(w.hand, now));
  }

  lemma FirstRetry(s: State, w: WorkerValue, now: int, id: BrokerCommandId)
    requires Inv(s) && s.worker == Some(w) && Orphan(s, id) && w.hand.Concluded? && w.hand.attempt.Some?
    ensures AnswersAmbiguous(s.journal.rows, AfterRetry(s, w, now).journal.rows, id)
  {
    assert HandInv(s.journal.rows, s.journal.recoveries, s.polls, w.hand);
    FinishWrites(s.journal, w.hand.item.command, w.hand.attempt.value, CompletionOf(w.hand, now));
  }

  lemma FirstReplay(s: State, w: WorkerValue, step: HandStep, id: BrokerCommandId)
    requires Inv(s) && s.worker == Some(w) && CanWork(w, step)
    requires step.PrepareTaken? || step.ConfirmSubmission?
    ensures AnswersAmbiguous(s.journal.rows, AfterWork(s, w, step).journal.rows, id)
  {
    if step.PrepareTaken? {
      PrepareWrites(s.journal, w.hand.item.command, w.hand.item.queuedAt);
    } else {
      ConfirmWrites(s.journal, w.hand.item.command, step.order, step.now);
    }
  }

  lemma FirstDefer(s: State, w: WorkerValue, id: BrokerCommandId)
    requires Inv(s) && s.worker == Some(w) && w.hand.Unpolled?
    ensures AnswersAmbiguous(s.journal.rows, AfterDefer(s, w).journal.rows, id)
  {
    assert HandInv(s.journal.rows, s.journal.recoveries, s.polls, w.hand);
    if w.hand.attempt.None? { DeferWrites(s.journal, w.hand.item.command.id, w.hand.at); }
  }

  lemma FirstDispatch(s: State, w: WorkerValue, at: int, id: BrokerCommandId)
    requires Inv(s) && s.worker == Some(w) && CanWork(w, Dispatch(at))
    ensures AnswersAmbiguous(s.journal.rows, AfterWork(s, w, Dispatch(at)).journal.rows, id)
  {
    if w.hand.proof.None? {
      DispatchHand(s.journal, w, s.polls, at);
      DispatchWrites(s.journal, w.hand.item.command.id, at);
    } else {
      BeginWrites(s.journal, w.hand.item.command, w.hand.proof.value, at);
    }
  }

  lemma FirstWork(s: State, w: WorkerValue, step: HandStep, id: BrokerCommandId)
    requires Inv(s) && s.worker == Some(w) && Orphan(s, id) && CanWork(w, step)
    ensures AnswersAmbiguous(s.journal.rows, AfterWork(s, w, step).journal.rows, id)
  {
    if step.PrepareTaken? || step.ConfirmSubmission? {
      FirstReplay(s, w, step, id);
    } else if step.Dispatch? {
      FirstDispatch(s, w, step.at, id);
    } else if step.Defer? {
      FirstDefer(s, w, id);
    } else if step.Conclude? {
      if w.hand.attempt.None? { FirstComplete(s, w, step.now, id); } else { FirstRetry(s, w, step.now, id); }
    }
  }

  lemma FirstServe(j: JournalValue, w: WorkerValue, request: RequestStep, id: BrokerCommandId)
    requires JournalInv(j) && CanServe(w, request)
    ensures AnswersAmbiguous(j.rows, Served(j, request).rows, id)
  {
    if request.Checkpoint? {
      CheckpointKeeps(j, request.intents, request.applied);
    }
  }

  lemma FirstReconcile(s: State, w: WorkerValue, k: nat, resolution: Resolution, later: int, id: BrokerCommandId)
    requires JournalInv(s.journal) && k < |w.reconciliations|
    ensures AnswersAmbiguous(s.journal.rows, AfterReconcile(s, w, k, resolution, later).journal.rows, id)
  {
    if resolution.Confirmed? {
      ConfirmWrites(s.journal, w.reconciliations[k].command, resolution.order, later);
    }
  }

  /** The first result any step records for an orphan is ambiguous. */
  lemma FirstResultIsAmbiguous(s: State, step: Step, id: BrokerCommandId)
    requires Inv(s) && Orphan(s, id) && Enabled(s, step)
    ensures AnswersAmbiguous(s.journal.rows, Apply(s, step).journal.rows, id)
  {
    if step.Serve? {
      FirstServe(s.journal, s.worker.value, step.request, id);
    } else if step.Work? {
      FirstWork(s, s.worker.value, step.handStep, id);
    } else if step.ReconcileDue? {
      FirstReconcile(s, s.worker.value, NextDue(s.worker.value.reconciliations, step.now).value,
                     step.resolution, step.later, id);
    }
  }

  /** The first result a row holds anywhere along a run. */
  ghost function FirstResult(s: State, steps: seq<Step>, id: BrokerCommandId): Option<BrokerCommandCompletion>
    requires Runs(s, steps)
    decreases |steps|
  {
    if id in s.journal.rows && s.journal.rows[id].completion.Some? then s.journal.rows[id].completion
    else if steps == [] then None
    else FirstResult(Apply(s, steps[0]), steps[1..], id)
  }

  lemma {:induction false} RunAnswersAmbiguous(s: State, steps: seq<Step>, id: BrokerCommandId)
    requires Inv(s) && Orphan(s, id) && Runs(s, steps)
    requires s.journal.rows[id].completion.Some? ==> s.journal.rows[id].completion.value.outcome.Ambiguous?
    ensures FirstResult(s, steps, id).Some? ==> FirstResult(s, steps, id).value.outcome.Ambiguous?
    decreases |steps|
  {
    if steps != [] && s.journal.rows[id].completion.None? {
      FirstResultIsAmbiguous(s, steps[0], id);
      OrphanStep(s, steps[0], id);
      StepKeeps(s, steps[0]);
      RunAnswersAmbiguous(Apply(s, steps[0]), steps[1..], id);
    }
  }

  lemma OrphanPoll(s: State, step: Step, id: BrokerCommandId)
    requires Orphan(s, id) && IsPoll(s, step)
    ensures PollMade(s, step).command.id == id ==> PollMade(s, step).retry
  {
  }

  lemma {:induction false} OrphanRetriesOnly(s: State, steps: seq<Step>, id: BrokerCommandId)
    requires Inv(s) && Orphan(s, id) && Runs(s, steps)
    ensures Orphan(Exec(s, steps), id) && s.polls <= Exec(s, steps).polls
    ensures forall i :: |s.polls| <= i < |Exec(s, steps).polls| && Exec(s, steps).polls[i].command.id == id ==>
              Exec(s, steps).polls[i].retry
    decreases |steps|
  {
    if steps != [] {
      OrphanStep(s, steps[0], id);
      if IsPoll(s, steps[0]) { OrphanPoll(s, steps[0], id); }
      StepPolls(s, steps[0]);
      StepKeeps(s, steps[0]);
      OrphanRetriesOnly(Apply(s, steps[0]), steps[1..], id);
    }
  }

  /** A row found dispatching when no worker is alive is never executed again:
      whatever run follows, the first result recorded for it is ambiguous, only
      the broker's own evidence sharpens it, and the transport sees that identity
      again at most as a guarded retry of a Cancel. */
  lemma OrphanNeverReexecuted(s: State, steps: seq<Step>, id: BrokerCommandId)
    requires Safe(s) && Orphan(s, id) && Runs(s, steps)
    ensures Orphan(Exec(s, steps), id) && s.polls <= Exec(s, steps).polls
    ensures forall i :: |s.polls| <= i < |Exec(s, steps).polls| && Exec(s, steps).polls[i].command.id == id ==>
              Exec(s, steps).polls[i].retry && Exec(s, steps).polls[i].command.action.Cancel?
    ensures s.journal.rows[id].completion.None? && FirstResult(s, steps, id).Some? ==>
              FirstResult(s, steps, id).value.outcome.Ambiguous?
  {
    OrphanRetriesOnly(s, steps, id);
    RunSharpens(s, steps);
    assert forall i :: 0 <= i < |Exec(s, steps).polls| ==> PollInv(Exec(s, steps).journal.rows, Exec(s, steps).polls[i]);
    if s.journal.rows[id].completion.None? { RunAnswersAmbiguous(s, steps, id); }
  }

  /** The state a crash leaves behind is an orphan's. */
  lemma CrashOrphans(s: State, id: BrokerCommandId)
    requires Inv(s) && s.worker.Some? && id in s.journal.rows && s.journal.rows[id].state == Dispatching
    ensures Orphan(Apply(s, Crash), id)
  {
    assert RowInv(s.journal, id, s.journal.rows[id]);
  }
}
