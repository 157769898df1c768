/** Every result the journal keeps or the owner hears was said by a step about that
    very command, and every dispatch time was written by a dispatch of it. */
module WorkerEvidence {
  import opened Basics
  import opened Commands
  import opened JournalSpec
  import opened JournalProofs
  import opened WorkerSpec
  import opened WorkerInvariant
  import opened WorkerSteps
  import opened WorkerRuns

  // ----- what a step says -----

  /** The command is in hand. */
  ghost predicate Holds(s: State, id: BrokerCommandId) {
    s.worker.Some? && !s.worker.value.hand.Free? && s.worker.value.hand.item.command.id == id
  }

  /** The gate, as it stands, refuses this entry at this time. */
  ghost predicate Refuses(w: WorkerValue, c: BrokerCommand, now: int) {
    && c.action.Submit?
    && (w.gate.stopped || !w.receiverOpen || c.id in w.gate.cancelled
        || (c.id in w.gate.deadlines && w.gate.deadlines[c.id] <= now))
  }

  /** The step reports this outcome of this command: the transport's answer, the
      gate's or the account's refusal, the verdict on a row found dispatching, or
      the order found at the broker. */
  ghost predicate Says(s: State, step: Step, id: BrokerCommandId, outcome: BrokerCommandOutcome) {
    if step.ReconcileDue? then
      && s.worker.Some? && step.resolution.Confirmed? && outcome == OrderResponse(step.resolution.order)
      && exists k :: 0 <= k < |s.worker.value.reconciliations| && s.worker.value.reconciliations[k].command.id == id
    else
      && step.Work? && Holds(s, id)
      && match step.handStep
         case Finish(answer) => outcome == answer
         case ConfirmSubmission(order, _) => outcome == OrderResponse(order)
         case Judge(judgement) =>
           (match judgement
            case RecoverDispatching => outcome.Ambiguous?
            case CancelUndispatched(_) => outcome == CancelledBeforeDispatch
            case DeclineMargin(reason, _) => outcome == Declined(reason))
         case FirstPoll(now, verdict) =>
           if Refuses(s.worker.value, s.worker.value.hand.item.command, now) then outcome == CancelledBeforeDispatch
           else verdict.Refuse? && outcome == Declined(verdict.reason)
         case _ => false
  }

  /** The step writes this dispatch time for this command. */
  ghost predicate Dispatches(s: State, step: Step, id: BrokerCommandId, at: int) {
    step == Work(Dispatch(at)) && Holds(s, id)
  }

  /** What is known to have been said and dispatched. */
  type Told = (BrokerCommandId, BrokerCommandOutcome) -> bool
  type Sent = (BrokerCommandId, int) -> bool

  ghost predicate Notes(told: Told, sent: Sent, s: State, step: Step) {
    && (forall id, outcome :: Says(s, step, id, outcome) ==> told(id, outcome))
    && (forall id, at :: Dispatches(s, step, id, at) ==> sent(id, at))
  }

  // ----- what every state of a run then satisfies -----

  ghost predicate RowTold(told: Told, sent: Sent, id: BrokerCommandId, r: Record) {
    && (r.completion.Some? ==> told(id, r.completion.value.outcome))
    && (r.dispatchedAt.Some? ==> sent(id, r.dispatchedAt.value))
  }

  ghost predicate RowsTold(told: Told, sent: Sent, rows: Rows) {
    forall id {:trigger RowTold(told, sent, id, rows[id])} :: id in rows ==> RowTold(told, sent, id, rows[id])
  }

  ghost predicate HandTold(told: Told, h: Hand) {
    && (h.Concluded? ==> told(h.item.command.id, h.outcome))
    && (h.Unpolled? && h.refusal.Some? ==> told(h.item.command.id, h.refusal.value))
  }

  ghost predicate OwnerTold(told: Told, delivered: seq<BrokerCommandCompletion>) {
    forall i :: 0 <= i < |delivered| ==> told(delivered[i].receipt.id, delivered[i].outcome)
  }

  ghost predicate Evidenced(told: Told, sent: Sent, s: State) {
    && RowsTold(told, sent, s.journal.rows) && OwnerTold(told, s.delivered)
    && (s.worker.Some? ==> HandTold(told, s.worker.value.hand))
  }

  /** One row changed, to one that is accounted for. */
  lemma OneRowTold(told: Told, sent: Sent, a: Rows, b: Rows, id: BrokerCommandId)
    requires RowsTold(told, sent, a) && OnlyRow(a, b, id) && (id in b ==> RowTold(told, sent, id, b[id]))
    ensures RowsTold(told, sent, b)
  {
    forall k | k in b ensures RowTold(told, sent, k, b[k]) {
      if k != id { assert RowTold(told, sent, k, a[k]); }
    }
  }

  lemma PrepareTold(told: Told, sent: Sent, s: State, w: WorkerValue)
    requires Inv(s) && s.worker == Some(w) && Evidenced(told, sent, s) && w.hand.Taken?
    ensures Evidenced(told, sent, AfterPrepare(s, w))
  {
    var c := w.hand.item.command;
    PrepareWrites(s.journal, c, w.hand.item.queuedAt);
    var r := Prepare(s.journal, c, w.hand.item.queuedAt);
    if c.id in s.journal.rows { assert RowTold(told, sent, c.id, s.journal.rows[c.id]); }
    OneRowTold(told, sent, s.journal.rows, r.journal.rows, c.id);
  }

  lemma ConfirmTold(told: Told, sent: Sent, j: JournalValue, c: BrokerCommand, order: Order, now: int)
    requires JournalInv(j) && RowsTold(told, sent, j.rows)
    requires c.id in j.rows ==> told(c.id, OrderResponse(order))
    ensures RowsTold(told, sent, ConfirmAmbiguousSubmission(j, c, order, now).journal.rows)
  {
    ConfirmWrites(j, c, order, now);
    var r := ConfirmAmbiguousSubmission(j, c, order, now);
    if c.id in j.rows { assert RowTold(told, sent, c.id, j.rows[c.id]); }
    OneRowTold(told, sent, j.rows, r.journal.rows, c.id);
  }

  lemma ReplayTold(told: Told, sent: Sent, s: State, w: WorkerValue, step: HandStep)
    requires Inv(s) && s.worker == Some(w) && Evidenced(told, sent, s) && CanWork(w, step)
    requires Notes(told, sent, s, Work(step)) && (step.PrepareTaken? || step.ConfirmSubmission? || step.ProvePending?)
    ensures Evidenced(told, sent, AfterWork(s, w, step))
  {
    if step.PrepareTaken? {
      PrepareTold(told, sent, s, w);
    } else if step.ConfirmSubmission? {
      assert Says(s, Work(step), w.hand.item.command.id, OrderResponse(step.order));
      ConfirmTold(told, sent, s.journal, w.hand.item.command, step.order, step.now);
    }
  }

  lemma DispatchTold(told: Told, sent: Sent, s: State, w: WorkerValue, at: int)
    requires Inv(s) && s.worker == Some(w) && Evidenced(told, sent, s) && CanWork(w, Dispatch(at))
    requires Notes(told, sent, s, Work(Dispatch(at)))
    ensures Evidenced(told, sent, AfterWork(s, w, Dispatch(at)))
  {
    var id := w.hand.item.command.id;
    assert Dispatches(s, Work(Dispatch(at)), id, at);
    if w.hand.proof.None? {
      DispatchHand(s.journal, w, s.polls, at);
      DispatchWrites(s.journal, id, at);
      assert RowTold(told, sent, id, s.journal.rows[id]);
      OneRowTold(told, sent, s.journal.rows, MarkDispatched(s.journal, id, at).journal.rows, id);
    } else {
      BeginWrites(s.journal, w.hand.item.command, w.hand.proof.value, at);
    }
  }

  lemma JudgeTold(told: Told, sent: Sent, s: State, w: WorkerValue, judgement: Judgement)
    requires s.worker == Some(w) && Evidenced(told, sent, s) && CanJudge(w, judgement)
    requires Notes(told, sent, s, Work(Judge(judgement)))
    ensures HandTold(told, Judging(w, judgement).hand)
  {
    var outcome := Judging(w, judgement).hand.outcome;
    assert Says(s, Work(Judge(judgement)), w.hand.item.command.id, outcome);
  }

  lemma PollTold(told: Told, sent: Sent, s: State, w: WorkerValue, now: int, verdict: Verdict)
    requires s.worker == Some(w) && Evidenced(told, sent, s) && CanPoll(w, verdict)
    requires Notes(told, sent, s, Work(FirstPoll(now, verdict)))
    ensures Evidenced(told, sent, AfterFirstPoll(s, w, now, verdict))
  {
    var h := AfterFirstPoll(s, w, now, verdict).worker.value.hand;
    if h.Unpolled? && h.refusal.Some? {
      assert Says(s, Work(FirstPoll(now, verdict)), h.item.command.id, h.refusal.value);
    }
  }

  lemma FinishTold(told: Told, sent: Sent, s: State, w: WorkerValue, outcome: BrokerCommandOutcome)
    requires s.worker == Some(w) && Evidenced(told, sent, s) && w.hand.InFlight?
    requires Notes(told, sent, s, Work(Finish(outcome)))
    ensures HandTold(told, Finishing(w, outcome).hand)
  {
    assert Says(s, Work(Finish(outcome)), w.hand.item.command.id, outcome);
  }

  lemma DeferTold(told: Told, sent: Sent, s: State, w: WorkerValue)
    requires Inv(s) && s.worker == Some(w) && Evidenced(told, sent, s) && w.hand.Unpolled?
    ensures Evidenced(told, sent, AfterDefer(s, w))
  {
    var id := w.hand.item.command.id;
    assert HandInv(s.journal.rows, s.journal.recoveries, s.polls, w.hand);
    if w.hand.attempt.None? {
      DeferWrites(s.journal, id, w.hand.at);
      assert RowTold(told, sent, id, s.journal.rows[id]);
      OneRowTold(told, sent, s.journal.rows, DeferUnpolledDispatch(s.journal, id, w.hand.at).journal.rows, id);
    }
  }

  lemma CompleteTold(told: Told, sent: Sent, s: State, w: WorkerValue, now: int)
    requires Inv(s) && s.worker == Some(w) && Evidenced(told, sent, s) && w.hand.Concluded? && w.hand.attempt.None?
    ensures Evidenced(told, sent, AfterComplete(s, w, now))
  {
    var id, c := w.hand.item.command.id, CompletionOf(w.hand, now);
    assert HandInv(s.journal.rows, s.journal.recoveries, s.polls, w.hand);
    CompleteWrites(s.journal, id, c);
    assert RowTold(told, sent, id, s.journal.rows[id]);
    OneRowTold(told, sent, s.journal.rows, Complete(s.journal, c).journal.rows, id);
  }

  lemma RetryTold(told: Told, sent: Sent, s: State, w: WorkerValue, now: int)
    requires Inv(s) && s.worker == Some(w) && Evidenced(told, sent, s) && w.hand.Concluded? && w.hand.attempt.Some?
    ensures Evidenced(told, sent, AfterRetry(s, w, now))
  {
    var c, result := w.hand.item.command, CompletionOf(w.hand, now);
    assert HandInv(s.journal.rows, s.journal.recoveries, s.polls, w.hand);
    FinishWrites(s.journal, c, w.hand.attempt.value, result);
    assert RowTold(told, sent, c.id, s.journal.rows[c.id]);
    OneRowTold(told, sent, s.journal.rows,
               FinishCancellationRecovery(s.journal, c, w.hand.attempt.value, result).journal.rows, c.id);
  }

  lemma DeliverTold(told: Told, sent: Sent, s: State, w: WorkerValue)
    requires Inv(s) && s.worker == Some(w) && Evidenced(told, sent, s) && (w.hand.Delivering? || w.hand.Failing?)
    ensures Evidenced(told, sent, AfterDeliver(s, w))
  {
    if w.hand.Delivering? {
      var id := w.hand.item.command.id;
      assert HandInv(s.journal.rows, s.journal.recoveries, s.polls, w.hand);
      assert RowInv(s.journal, id, s.journal.rows[id]) && RowTold(told, sent, id, s.journal.rows[id]);
    }
  }

  lemma LateTold(told: Told, sent: Sent, s: State, w: WorkerValue, step: HandStep)
    requires Inv(s) && s.worker == Some(w) && Evidenced(told, sent, s) && CanWork(w, step)
    requires step.Defer? || step.Conclude? || step.Publish? || step.Deliver?
    ensures Evidenced(told, sent, AfterWork(s, w, step))
  {
    if step.Defer? {
      DeferTold(told, sent, s, w);
    } else if step.Conclude? {
      if w.hand.attempt.None? { CompleteTold(told, sent, s, w, step.now); } else { RetryTold(told, sent, s, w, step.now); }
    } else if step.Deliver? {
      DeliverTold(told, sent, s, w);
    }
  }

  lemma WorkTold(told: Told, sent: Sent, s: State, w: WorkerValue, step: HandStep)
    requires Inv(s) && s.worker == Some(w) && Evidenced(told, sent, s) && CanWork(w, step)
    requires Notes(told, sent, s, Work(step))
    ensures Evidenced(told, sent, AfterWork(s, w, step))
  {
    if step.PrepareTaken? || step.ConfirmSubmission? || step.ProvePending? {
      ReplayTold(told, sent, s, w, step);
    } else if step.Dispatch? {
      DispatchTold(told, sent, s, w, step.at);
    } else if step.Judge? {
      JudgeTold(told, sent, s, w, step.judgement);
    } else if step.FirstPoll? {
      PollTold(told, sent, s, w, step.now, step.verdict);
    } else if step.Finish? {
      FinishTold(told, sent, s, w, step.outcome);
    } else if step.Defer? || step.Conclude? || step.Publish? || step.Deliver? {
      LateTold(told, sent, s, w, step);
    }
  }

  lemma TimerTold(told: Told, sent: Sent, s: State, w: WorkerValue, step: Step)
    requires Inv(s) && s.worker == Some(w) && Evidenced(told, sent, s) && step.ReconcileDue? && Enabled(s, step)
    requires Notes(told, sent, s, step)
    ensures Evidenced(told, sent, Apply(s, step))
  {
    var k := NextDue(w.reconciliations, step.now).value;
    var c := w.reconciliations[k].command;
    ReschedulingShape(w, s.journal.rows, k, step.resolution, step.later);
    if step.resolution.Confirmed? {
      assert Says(s, step, c.id, OrderResponse(step.resolution.order));
      ConfirmTold(told, sent, s.journal, c, step.resolution.order, step.later);
    }
  }

  lemma ServeTold(told: Told, sent: Sent, j: JournalValue, w: WorkerValue, request: RequestStep)
    requires JournalInv(j) && RowsTold(told, sent, j.rows) && CanServe(w, request)
    ensures RowsTold(told, sent, Served(j, request).rows)
  {
    var b := Served(j, request);
    if request.Checkpoint? {
      CheckpointKeeps(j, request.intents, request.applied);
      forall id | id in b.rows ensures RowTold(told, sent, id, b.rows[id]) {
        assert RowInv(b, id, b.rows[id]);
        if id in j.rows { assert RowTold(told, sent, id, j.rows[id]); }
      }
    }
  }

  ghost predicate Quiet(step: Step) { !(step.Work? || step.ReconcileDue? || step.Serve?) }

  lemma QuietTold(told: Told, sent: Sent, s: State, step: Step)
    requires Evidenced(told, sent, s) && Enabled(s, step) && Quiet(step)
    ensures Evidenced(told, sent, Apply(s, step))
  {
    assert Apply(s, step).journal.rows == s.journal.rows && Apply(s, step).delivered == s.delivered;
  }

  lemma StepTold(told: Told, sent: Sent, s: State, step: Step)
    requires Inv(s) && Evidenced(told, sent, s) && Enabled(s, step) && Notes(told, sent, s, step)
    ensures Evidenced(told, sent, Apply(s, step))
  {
    if Quiet(step) {
      QuietTold(told, sent, s, step);
    } else if step.Serve? {
      ServeTold(told, sent, s.journal, s.worker.value, step.request);
    } else if step.ReconcileDue? {
      TimerTold(told, sent, s, s.worker.value, step);
    } else {
      WorkTold(told, sent, s, s.worker.value, step.handStep);
    }
  }

  // ----- over runs -----

  /** Somewhere along the run a step said it. */
  ghost predicate Heard(s: State, steps: seq<Step>, id: BrokerCommandId, outcome: BrokerCommandOutcome)
    requires Runs(s, steps)
    decreases |steps|
  {
    steps != [] && (Says(s, steps[0], id, outcome) || Heard(Apply(s, steps[0]), steps[1..], id, outcome))
  }

  ghost predicate DispatchedIn(s: State, steps: seq<Step>, id: BrokerCommandId, at: int)
    requires Runs(s, steps)
    decreases |steps|
  {
    steps != [] && (Dispatches(s, steps[0], id, at) || DispatchedIn(Apply(s, steps[0]), steps[1..], id, at))
  }

  ghost predicate AllNoted(told: Told, sent: Sent, s: State, steps: seq<Step>)
    requires Runs(s, steps)
    decreases |steps|
  {
    steps == [] || (Notes(told, sent, s, steps[0]) && AllNoted(told, sent, Apply(s, steps[0]), steps[1..]))
  }

  lemma {:induction false} RunTold(told: Told, sent: Sent, s: State, steps: seq<Step>)
    requires Inv(s) && Evidenced(told, sent, s) && Runs(s, steps) && AllNoted(told, sent, s, steps)
    ensures Evidenced(told, sent, Exec(s, steps))
    decreases |steps|
  {
    if steps != [] {
      StepTold(told, sent, s, steps[0]);
      StepKeeps(s, steps[0]);
      RunTold(told, sent, Apply(s, steps[0]), steps[1..]);
    }
  }

  lemma {:induction false} HeardIsNoted(told: Told, sent: Sent, s: State, steps: seq<Step>)
    requires Runs(s, steps)
    requires forall id, outcome :: Heard(s, steps, id, outcome) ==> told(id, outcome)
    requires forall id, at :: DispatchedIn(s, steps, id, at) ==> sent(id, at)
    ensures AllNoted(told, sent, s, steps)
    decreases |steps|
  {
    if steps != [] {
      forall id, outcome | Says(s, steps[0], id, outcome) ensures told(id, outcome) { assert Heard(s, steps, id, outcome); }
      forall id, at | Dispatches(s, steps[0], id, at) ensures sent(id, at) { assert DispatchedIn(s, steps, id, at); }
      forall id, outcome | Heard(Apply(s, steps[0]), steps[1..], id, outcome) ensures told(id, outcome) {
        assert Heard(s, steps, id, outcome);
      }
      forall id, at | DispatchedIn(Apply(s, steps[0]), steps[1..], id, at) ensures sent(id, at) {
        assert DispatchedIn(s, steps, id, at);
      }
      HeardIsNoted(told, sent, Apply(s, steps[0]), steps[1..]);
    }
  }

  ghost function HeardIn(s: State, steps: seq<Step>): Told
    requires Runs(s, steps)
  {
    (id, outcome) => Heard(s, steps, id, outcome)
  }

  ghost function SentIn(s: State, steps: seq<Step>): Sent
    requires Runs(s, steps)
  {
    (id, at) => DispatchedIn(s, steps, id, at)
  }

  /** Over every run of a new system, crashes and restarts included: each stored
      result, and each one the owner received, was said along the run about that
      command, and each stored dispatch time was written along the run for it. */
  lemma ResultsWereSaid(strategyId: string, accountId: string, steps: seq<Step>)
    requires Runs(NewSystem(strategyId, accountId), steps)
    ensures var start := NewSystem(strategyId, accountId);
            var s := Exec(start, steps);
            && (forall id :: id in s.journal.rows && s.journal.rows[id].completion.Some? ==>
                  Heard(start, steps, id, s.journal.rows[id].completion.value.outcome))
            && (forall id :: id in s.journal.rows && s.journal.rows[id].dispatchedAt.Some? ==>
                  DispatchedIn(start, steps, id, s.journal.rows[id].dispatchedAt.value))
            && (forall i :: 0 <= i < |s.delivered| ==>
                  Heard(start, steps, s.delivered[i].receipt.id, s.delivered[i].outcome))
  {
    var start := NewSystem(strategyId, accountId);
    var told, sent := HeardIn(start, steps), SentIn(start, steps);
    NewSystemSafe(strategyId, accountId);
    HeardIsNoted(told, sent, start, steps);
    RunTold(told, sent, start, steps);
    var s := Exec(start, steps);
    forall id | id in s.journal.rows ensures RowTold(told, sent, id, s.journal.rows[id]) { }
    assert OwnerTold(told, s.delivered);
  }
}
