/** The protocol's promises over every run of a new system: any sequence of
    enabled steps, re-issues, crashes and restarts included. */
module WorkerTheorems {
  import opened Basics
  import opened Commands
  import opened JournalSpec
  import opened JournalProofs
  import opened WorkerSpec
  import opened WorkerInvariant
  import opened WorkerSteps
  import opened WorkerConservation
  import opened WorkerTickets
  import opened WorkerBudget
  import opened WorkerRuns

  /** States some run of a new system leads to. */
  ghost predicate Reaches(strategyId: string, accountId: string, steps: seq<Step>, s: State) {
    Runs(NewSystem(strategyId, accountId), steps) && s == Exec(NewSystem(strategyId, accountId), steps)
  }

  lemma ReachableSafe(strategyId: string, accountId: string, steps: seq<Step>, s: State)
    requires Reaches(strategyId, accountId, steps, s)
    ensures Safe(s) && ScopeOf(s.journal) == Scope(strategyId, accountId)
  {
    NewSystemSafe(strategyId, accountId);
    RunSharpens(NewSystem(strategyId, accountId), steps);
  }

  /** One identity reaches the transport once; only a guarded retry of a Cancel
      polls again. */
  lemma AtMostOnce(strategyId: string, accountId: string, steps: seq<Step>, s: State)
    requires Reaches(strategyId, accountId, steps, s)
    ensures forall i, k :: 0 <= i < k < |s.polls| && s.polls[i].command.id == s.polls[k].command.id ==>
              s.polls[k].retry && s.polls[k].command.action.Cancel?
  {
    ReachableSafe(strategyId, accountId, steps, s);
    assert forall i :: 0 <= i < |s.polls| ==> PollInv(s.journal.rows, s.polls[i]);
  }

  lemma PolledIsValid(s: State, i: nat)
    requires Inv(s) && i < |s.polls|
    ensures Validate(s.polls[i].command).None? && InScope(s.journal, s.polls[i].command)
  {
    assert PollInv(s.journal.rows, s.polls[i]);
    assert RowInv(s.journal, s.polls[i].command.id, s.journal.rows[s.polls[i].command.id]);
  }

  /** One entry intent is submitted at most once, however often it is built,
      enqueued or recovered: no two submissions polled in any life share a
      client order id. */
  lemma OneOrderPerEntryIntent(strategyId: string, accountId: string, steps: seq<Step>, s: State, i: nat, k: nat)
    requires Reaches(strategyId, accountId, steps, s) && i < k < |s.polls|
    requires s.polls[i].command.action.Submit? && s.polls[k].command.action.Submit?
    ensures s.polls[i].command.action.request.clientOrderId != s.polls[k].command.action.request.clientOrderId
  {
    AtMostOnce(strategyId, accountId, steps, s);
    ReachableSafe(strategyId, accountId, steps, s);
    PolledIsValid(s, i);
    PolledIsValid(s, k);
    EntryIdentityIsTheIntent(s.polls[i].command, s.polls[k].command);
  }

  /** A queued row has never been at the broker, nor has a command whose result
      carries no dispatch time, deferrals and re-parking included. */
  lemma UndispatchedNeverPolled(strategyId: string, accountId: string, steps: seq<Step>, s: State, id: BrokerCommandId)
    requires Reaches(strategyId, accountId, steps, s) && id in s.journal.rows
    requires var r := s.journal.rows[id];
             r.state == Queued || (r.completion.Some? && r.completion.value.dispatchedAt.None?)
    ensures !Polled(s.polls, id)
  {
    ReachableSafe(strategyId, accountId, steps, s);
    assert RowInv(s.journal, id, s.journal.rows[id]);
    NeverPolled(s.journal.rows, s.polls, id);
  }

  /** A local refusal never claims a dispatch. */
  lemma CancelledBeforeDispatchNeverPolled(strategyId: string, accountId: string, steps: seq<Step>, s: State,
                                           id: BrokerCommandId)
    requires Reaches(strategyId, accountId, steps, s) && id in s.journal.rows
    requires s.journal.rows[id].completion.Some?
    requires s.journal.rows[id].completion.value.outcome.CancelledBeforeDispatch?
    ensures s.journal.rows[id].completion.value.dispatchedAt.None? && !Polled(s.polls, id)
  {
    ReachableSafe(strategyId, accountId, steps, s);
    assert RowInv(s.journal, id, s.journal.rows[id]);
    UndispatchedNeverPolled(strategyId, accountId, steps, s, id);
  }

  /** A row holds a result exactly when it is completed or applied, and the
      result names its own intent. */
  lemma StoredResultsFit(strategyId: string, accountId: string, steps: seq<Step>, s: State, id: BrokerCommandId)
    requires Reaches(strategyId, accountId, steps, s) && id in s.journal.rows
    ensures var r := s.journal.rows[id];
            && (r.completion.Some? <==> r.state in {Completed, Applied})
            && (r.completion.Some? ==>
                  r.completion.value.receipt == r.command.Receipt() && r.completion.value.queuedAt == r.queuedAt
                  && r.completion.value.dispatchedAt == r.dispatchedAt)
  {
    ReachableSafe(strategyId, accountId, steps, s);
    assert RowInv(s.journal, id, s.journal.rows[id]);
  }

  /** What the owner receives is what the journal holds at that moment. */
  lemma DeliveredIsStored(s: State, w: WorkerValue)
    requires Inv(s) && s.worker == Some(w) && w.hand.Delivering? && w.receiverOpen
    ensures var s' := AfterDeliver(s, w);
            && w.hand.item.command.id in s'.journal.rows
            && s'.journal.rows[w.hand.item.command.id].completion.Some?
            && s'.delivered == s.delivered + [s'.journal.rows[w.hand.item.command.id].completion.value]
  {
    assert HandInv(s.journal.rows, s.journal.recoveries, s.polls, w.hand);
  }

  /** Anything the owner was told stays true or was ambiguous and got settled. */
  lemma DeliveredStaysTrue(strategyId: string, accountId: string, steps: seq<Step>, s: State, i: nat)
    requires Reaches(strategyId, accountId, steps, s) && i < |s.delivered|
    ensures var c := s.delivered[i];
            && c.receipt.id in s.journal.rows && s.journal.rows[c.receipt.id].completion.Some?
            && var stored := s.journal.rows[c.receipt.id].completion.value;
               stored == c || (c.outcome.Ambiguous? && !stored.outcome.Ambiguous?)
  {
    ReachableSafe(strategyId, accountId, steps, s);
    assert DeliveredInv(s.journal.rows, s.delivered);
  }

  /** Durable writes the worker makes for the command in hand are never refused:
      neither the dispatch, the deferral, its own completion, nor the result of
      a claimed retry. */
  lemma OwnWritesSucceed(s: State, w: WorkerValue, at: int)
    requires Inv(s) && s.worker == Some(w)
    ensures w.hand.Admitting? && w.hand.proof.None? && w.hand.record.state != Dispatching ==>
              MarkDispatched(s.journal, w.hand.item.command.id, at).result.Ok?
    ensures w.hand.Unpolled? && w.hand.attempt.None? ==>
              DeferUnpolledDispatch(s.journal, w.hand.item.command.id, w.hand.at).result.Ok?
    ensures w.hand.Concluded? && w.hand.attempt.None? ==> Complete(s.journal, CompletionOf(w.hand, at)).result.Ok?
    ensures w.hand.Concluded? && w.hand.attempt.Some? ==>
              FinishCancellationRecovery(s.journal, w.hand.item.command, w.hand.attempt.value,
                                         CompletionOf(w.hand, at)).result.Ok?
  {
    if w.hand.Admitting? && w.hand.proof.None? && w.hand.record.state != Dispatching {
      DispatchHand(s.journal, w, s.polls, at);
    } else if w.hand.Unpolled? && w.hand.attempt.None? {
      DeferRow(s.journal, w.hand, s.polls);
    } else if w.hand.Concluded? && w.hand.attempt.None? {
      CompleteHand(s.journal, w.hand, s.polls, at);
    } else if w.hand.Concluded? {
      RetryHand(s.journal, w.hand, s.polls, at);
    }
  }

  /** Each accepted command is in one place, or was answered once, in its own
      name, or ended a guarded retry; and the slot a held command may return to
      is empty. */
  lemma NothingLostNothingDoubled(strategyId: string, accountId: string, steps: seq<Step>, s: State, t: nat)
    requires Reaches(strategyId, accountId, steps, s) && s.worker.Some?
    ensures var w := s.worker.value;
            InLane(w.entries, t) + InLane(w.controls, t) + InSlot(w.parkedEntry, t) + InSlot(w.parkedControl, t)
            + InSlot(Held(w.hand), t) + InSent(w.sent, t) + InDropped(w.dropped, t)
            == if t < |w.accepted| then 1 else 0
    ensures var w := s.worker.value;
            MayPark(w.hand) ==>
              if w.hand.item.command.action.IsTeardown() then w.parkedControl.None? else w.parkedEntry.None?
    ensures var w := s.worker.value;
            forall i :: 0 <= i < |w.sent| && w.sent[i].ticket == Some(t) ==>
              t < |w.accepted| && ReceiptOf(w.sent[i].event) == w.accepted[t].Receipt()
  {
    ReachableSafe(strategyId, accountId, steps, s);
    assert AllAnswer(s.worker.value.accepted, s.worker.value.sent);
    assert Conserves(s.worker.value);
  }

  lemma RetriesStep(s: State, step: Step, life: nat, id: BrokerCommandId)
    requires Enabled(s, step) && BudgetInv(Apply(s, step))
    requires Retries(s.polls, life, id) <= MAX_CANCEL_RECOVERY_ATTEMPTS
    ensures Retries(Apply(s, step).polls, life, id) <= MAX_CANCEL_RECOVERY_ATTEMPTS
  {
    StepPolls(s, step);
    if IsPoll(s, step) {
      RetriesAppend(s.polls, PollMade(s, step), life, id);
      var w' := Apply(s, step).worker.value;
      assert WithinBudget(Apply(s, step).journal.rows, Apply(s, step).polls, w'.life, w'.attempts, id);
    }
  }

  lemma {:induction false} RetriesRun(s: State, steps: seq<Step>, life: nat, id: BrokerCommandId)
    requires Safe(s) && Runs(s, steps) && Retries(s.polls, life, id) <= MAX_CANCEL_RECOVERY_ATTEMPTS
    ensures Retries(Exec(s, steps).polls, life, id) <= MAX_CANCEL_RECOVERY_ATTEMPTS
    decreases |steps|
  {
    if steps != [] {
      SafeStep(s, steps[0]);
      RetriesStep(s, steps[0], life, id);
      RetriesRun(Apply(s, steps[0]), steps[1..], life, id);
    }
  }

  /** No Cancel is retried at the broker more than six times in any one life. */
  lemma RetriesBounded(strategyId: string, accountId: string, steps: seq<Step>, s: State, life: nat, id: BrokerCommandId)
    requires Reaches(strategyId, accountId, steps, s)
    ensures Retries(s.polls, life, id) <= 6
  {
    NewSystemSafe(strategyId, accountId);
    RetriesRun(NewSystem(strategyId, accountId), steps, life, id);
  }

  // ----- a durable stop outlives the process -----

  lemma DispatchPhase(s: State, w: WorkerValue, step: HandStep)
    requires s.journal.phase != Running && CanWork(w, step) && (step.Dispatch? || step.Defer?)
    ensures AfterWork(s, w, step).journal.phase != Running
  {
  }

  lemma ResultPhase(s: State, w: WorkerValue, step: HandStep)
    requires s.journal.phase != Running && CanWork(w, step)
    requires step.PrepareTaken? || step.ConfirmSubmission? || step.Conclude?
    ensures AfterWork(s, w, step).journal.phase != Running
  {
  }

  lemma WorkPhase(s: State, w: WorkerValue, step: HandStep)
    requires s.journal.phase != Running && CanWork(w, step)
    ensures AfterWork(s, w, step).journal.phase != Running
  {
    if step.Dispatch? || step.Defer? {
      DispatchPhase(s, w, step);
    } else if step.PrepareTaken? || step.ConfirmSubmission? || step.Conclude? {
      ResultPhase(s, w, step);
    }
  }

  /** Only the start of a new epoch lets entries through again. */
  lemma PhaseStep(s: State, step: Step)
    requires s.journal.phase != Running && Enabled(s, step) && !step.BeginEpoch?
    ensures Apply(s, step).journal.phase != Running
  {
    if step.Work? {
      WorkPhase(s, s.worker.value, step.handStep);
    }
  }

  lemma StoppedPoll(s: State, step: Step)
    requires Inv(s) && s.journal.phase != Running && IsPoll(s, step)
    ensures !PollMade(s, step).command.action.Submit?
  {
    assert StopInv(s.journal.phase, s.worker.value.gate.stopped, s.worker.value.stopRequested);
  }

  lemma StoppedStep(s: State, step: Step)
    requires Inv(s) && Enabled(s, step) && s.journal.phase != Running && !step.BeginEpoch?
    ensures Inv(Apply(s, step)) && Apply(s, step).journal.phase != Running && s.polls <= Apply(s, step).polls
    ensures forall i :: |s.polls| <= i < |Apply(s, step).polls| ==> !Apply(s, step).polls[i].command.action.Submit?
  {
    StepKeeps(s, step);
    StepPolls(s, step);
    PhaseStep(s, step);
    if IsPoll(s, step) { StoppedPoll(s, step); }
  }

  /** Once the stop is durable, no run with whatever crashes and restarts polls
      a submission until a new epoch begins. */
  lemma {:induction false} DurableStopOutlivesRestart(s: State, steps: seq<Step>)
    requires Inv(s) && Runs(s, steps) && s.journal.phase != Running
    requires forall i :: 0 <= i < |steps| ==> !steps[i].BeginEpoch?
    ensures s.polls <= Exec(s, steps).polls && Exec(s, steps).journal.phase != Running
    ensures forall i :: |s.polls| <= i < |Exec(s, steps).polls| ==> !Exec(s, steps).polls[i].command.action.Submit?
    decreases |steps|
  {
    if steps != [] {
      StoppedStep(s, steps[0]);
      DurableStopOutlivesRestart(Apply(s, steps[0]), steps[1..]);
    }
  }

  /** The hand a stopped gate leaves behind instead of a poll. */
  ghost function Refused(w: WorkerValue): WorkerValue
    requires w.hand.Dispatched?
  {
    w.(gate := w.gate.(stopped := true),
       hand := Unpolled(w.hand.item, w.hand.record, w.hand.at, w.hand.attempt, Some(CancelledBeforeDispatch), false))
  }

  lemma StoppedGateRefuses(s: State, w: WorkerValue, now: int, verdict: Verdict)
    requires s.worker == Some(w) && w.hand.Dispatched? && w.hand.item.command.action.Submit? && CanPoll(w, verdict)
    ensures var s1 := Apply(s, Gatekeep(StopEntries));
            AfterFirstPoll(s1, s1.worker.value, now, verdict) == s.(worker := Some(Refused(w)))
  {
  }

  /** A stop that lands between the dispatch write and the first poll leaves
      the entry unpolled, its row queued again, and its result
      `CancelledBeforeDispatch` with no dispatch time. */
  lemma StopBetweenDispatchAndPoll(s: State, w: WorkerValue, now: int, later: int, verdict: Verdict)
    requires Inv(s) && s.worker == Some(w) && w.hand.Dispatched? && w.hand.item.command.action.Submit?
    requires CanPoll(w, verdict)
    ensures var id := w.hand.item.command.id;
            var s1 := Apply(s, Gatekeep(StopEntries));
            var s2 := AfterFirstPoll(s1, s1.worker.value, now, verdict);
            && s2.worker == Some(Refused(w)) && s2.polls == s.polls && !Polled(s2.polls, id)
            && var s3 := AfterDefer(s2, Refused(w));
            && s3.polls == s.polls && s3.worker.Some? && s3.worker.value.hand.Concluded?
            && s3.worker.value.hand.outcome.CancelledBeforeDispatch?
            && id in s3.journal.rows && s3.journal.rows[id].state == Queued
            && CompletionOf(s3.worker.value.hand, later).dispatchedAt.None?
  {
    StoppedGateRefuses(s, w, now, verdict);
    assert HandInv(s.journal.rows, s.journal.recoveries, s.polls, w.hand);
    DeferWrites(s.journal, w.hand.item.command.id, w.hand.at);
  }
}
