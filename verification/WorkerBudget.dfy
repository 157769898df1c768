/** Guarded cancellation retries stay within their budget: at most six transport
    polls of retries of one Cancel in one process life. */
module WorkerBudget {
  import opened Basics
  import opened Sets
  import opened Commands
  import opened JournalSpec
  import opened JournalProofs
  import opened WorkerSpec
  import opened WorkerInvariant
  import opened WorkerSteps

  ghost predicate AttemptsInv(attempts: map<BrokerCommandId, nat>) {
    && |attempts| <= MAX_COMMAND_RECONCILIATIONS
    && forall id :: id in attempts ==> attempts[id] <= MAX_CANCEL_RECOVERY_ATTEMPTS
  }

  /** Transport polls of retries of one Cancel in one process life. */
  ghost function Retries(polls: seq<Poll>, life: nat, id: BrokerCommandId): nat {
    if polls == [] then 0
    else
      var p := polls[|polls| - 1];
      Retries(polls[..|polls| - 1], life, id) + (if p.life == life && p.retry && p.command.id == id then 1 else 0)
  }

  /** The identity whose claimed retry has not been polled yet. */
  ghost function UnpolledRetry(h: Hand): Option<BrokerCommandId> {
    if h.Dispatched? && h.attempt.Some? then Some(h.item.command.id) else None
  }

  /** The identity proven pending and about to claim a retry. */
  ghost function Claiming(h: Hand): Option<BrokerCommandId> {
    if h.Admitting? && h.proof.Some? then Some(h.item.command.id) else None
  }

  /** Attempts are counted before the transport is polled, and forgotten only
      once the stored result can no longer be retried. */
  ghost predicate WithinBudget(rows: Rows, polls: seq<Poll>, life: nat, attempts: map<BrokerCommandId, nat>,
                               id: BrokerCommandId) {
    && Retries(polls, life, id) <= MAX_CANCEL_RECOVERY_ATTEMPTS
    && (StillAmbiguous(rows, id) ==> Retries(polls, life, id) <= AttemptsOf(attempts, id))
  }

  ghost predicate RetriesInv(rows: Rows, polls: seq<Poll>, life: nat, attempts: map<BrokerCommandId, nat>,
                             unpolled: Option<BrokerCommandId>) {
    && (forall id :: WithinBudget(rows, polls, life, attempts, id))
    && (unpolled.Some? ==> Retries(polls, life, unpolled.value) < AttemptsOf(attempts, unpolled.value))
  }

  /** Room left for one more retry of this identity. */
  ghost predicate RetryAllowed(attempts: map<BrokerCommandId, nat>, claiming: Option<BrokerCommandId>) {
    claiming.Some? ==>
      && AttemptsOf(attempts, claiming.value) < MAX_CANCEL_RECOVERY_ATTEMPTS
      && (claiming.value in attempts || |attempts| < MAX_COMMAND_RECONCILIATIONS)
  }

  ghost predicate Budgeted(rows: Rows, polls: seq<Poll>, w: WorkerValue) {
    && AttemptsInv(w.attempts)
    && RetryAllowed(w.attempts, Claiming(w.hand))
    && RetriesInv(rows, polls, w.life, w.attempts, UnpolledRetry(w.hand))
  }

  ghost predicate BudgetInv(s: State) {
    s.worker.Some? ==> Budgeted(s.journal.rows, s.polls, s.worker.value)
  }

  lemma RetriesAppend(polls: seq<Poll>, p: Poll, life: nat, id: BrokerCommandId)
    ensures Retries(polls + [p], life, id)
            == Retries(polls, life, id) + (if p.life == life && p.retry && p.command.id == id then 1 else 0)
  {
    assert (polls + [p])[..|polls|] == polls;
  }

  lemma {:induction false} NoRetries(polls: seq<Poll>, life: nat, id: BrokerCommandId)
    requires forall i :: 0 <= i < |polls| ==> !(polls[i].life == life && polls[i].retry && polls[i].command.id == id)
    ensures Retries(polls, life, id) == 0
  {
    if polls != [] {
      NoRetries(polls[..|polls| - 1], life, id);
    }
  }

  /** A result that becomes ambiguous has never been retried. */
  lemma FrameRetries(a: Rows, b: Rows, polls: seq<Poll>, life: nat, attempts: map<BrokerCommandId, nat>,
                     unpolled: Option<BrokerCommandId>)
    requires RetriesInv(a, polls, life, attempts, unpolled) && PollsInv(a, polls) && Evolves(a, b)
    requires forall id :: id in a ==> (a[id].completion.Some? <==> a[id].state in {Completed, Applied})
    ensures RetriesInv(b, polls, life, attempts, unpolled)
  {
    forall id ensures WithinBudget(b, polls, life, attempts, id) {
      assert WithinBudget(a, polls, life, attempts, id);
      if StillAmbiguous(b, id) && !StillAmbiguous(a, id) {
        if id in a { assert RowEvolves(a[id], b[id]); }
        forall i | 0 <= i < |polls| ensures !(polls[i].retry && polls[i].command.id == id) {
          assert PollInv(a, polls[i]);
        }
        NoRetries(polls, life, id);
      }
    }
  }

  lemma FrameBudget(s: State, w: WorkerValue, b: JournalValue)
    requires Inv(s) && s.worker == Some(w) && TableStep(s.journal, b) && Budgeted(s.journal.rows, s.polls, w)
    ensures Budgeted(b.rows, s.polls, w)
  {
    forall id | id in s.journal.rows
      ensures s.journal.rows[id].completion.Some? <==> s.journal.rows[id].state in {Completed, Applied}
    {
      assert RowInv(s.journal, id, s.journal.rows[id]);
    }
    FrameRetries(s.journal.rows, b.rows, s.polls, w.life, w.attempts, UnpolledRetry(w.hand));
  }

  lemma StartBudget(s: State, entryCapacity: nat, controlCapacity: nat)
    requires Inv(s)
    ensures Budgeted(s.journal.rows, s.polls, NewWorker(s.journal, s.lives, entryCapacity, controlCapacity))
  {
    forall id ensures WithinBudget(s.journal.rows, s.polls, s.lives, map[], id) { NoRetries(s.polls, s.lives, id); }
  }

  /** Forgetting the attempts of an identity that can no longer be retried. */
  lemma ForgetBudget(rows: Rows, polls: seq<Poll>, w: WorkerValue, w': WorkerValue, id: BrokerCommandId)
    requires Budgeted(rows, polls, w) && !StillAmbiguous(rows, id)
    requires w'.attempts == w.attempts - {id} && w'.life == w.life
    requires UnpolledRetry(w'.hand).None? && Claiming(w'.hand).None?
    ensures Budgeted(rows, polls, w')
  {
    SubsetSize(w'.attempts.Keys, w.attempts.Keys);
    forall k ensures WithinBudget(rows, polls, w.life, w'.attempts, k) {
      assert WithinBudget(rows, polls, w.life, w.attempts, k);
    }
  }

  lemma ClaimBudget(rows: Rows, polls: seq<Poll>, w: WorkerValue, w': WorkerValue, id: BrokerCommandId)
    requires Budgeted(rows, polls, w) && Claiming(w.hand) == Some(id) && StillAmbiguous(rows, id)
    requires w'.attempts == w.attempts[id := AttemptsOf(w.attempts, id) + 1] && w'.life == w.life
    requires UnpolledRetry(w'.hand) == Some(id) && Claiming(w'.hand).None?
    ensures Budgeted(rows, polls, w')
  {
    assert w'.attempts.Keys == w.attempts.Keys + {id};
    assert WithinBudget(rows, polls, w.life, w.attempts, id);
    forall k ensures WithinBudget(rows, polls, w.life, w'.attempts, k) {
      assert WithinBudget(rows, polls, w.life, w.attempts, k);
    }
  }

  lemma PollBudget(rows: Rows, polls: seq<Poll>, w: WorkerValue, w': WorkerValue, p: Poll)
    requires Budgeted(rows, polls, w) && w.hand.Dispatched? && p.life == w.life
    requires p.command == w.hand.item.command && p.retry == w.hand.attempt.Some?
    requires w'.attempts == w.attempts && w'.life == w.life && w'.hand.InFlight?
    ensures Budgeted(rows, polls + [p], w')
  {
    forall id ensures WithinBudget(rows, polls + [p], w.life, w.attempts, id) {
      RetriesAppend(polls, p, w.life, id);
      assert WithinBudget(rows, polls, w.life, w.attempts, id);
    }
  }

  /** The counters stay and the hand neither claims nor holds a claimed retry. */
  lemma CarryBudget(rows: Rows, polls: seq<Poll>, w: WorkerValue, w': WorkerValue)
    requires Budgeted(rows, polls, w) && w'.attempts == w.attempts && w'.life == w.life
    requires UnpolledRetry(w'.hand).None?
    requires Claiming(w'.hand).None? || w'.hand == w.hand || RetryAllowed(w'.attempts, Claiming(w'.hand))
    ensures Budgeted(rows, polls, w')
  {
  }

  lemma ClaimAnswerBudget(rows: Rows, polls: seq<Poll>, w: WorkerValue, at: int,
                          result: Result<Option<nat>, BrokerCommandError>)
    requires w.hand.Admitting? && w.hand.proof.Some? && Budgeted(rows, polls, w)
    requires result.Ok? ==> (result.value.Some? <==> StillAmbiguous(rows, w.hand.item.command.id))
    ensures result.Ok? ==> Budgeted(rows, polls, ClaimAnswered(w, at, result).value)
  {
    var id := w.hand.item.command.id;
    if result == Ok(None) {
      ForgetBudget(rows, polls, w, ClaimAnswered(w, at, result).value, id);
    } else if result.Ok? {
      ClaimBudget(rows, polls, w, ClaimAnswered(w, at, result).value, id);
    }
  }

  lemma ClaimStepBudget(s: State, w: WorkerValue, at: int)
    requires JournalInv(s.journal) && w.hand.Admitting? && w.hand.proof.Some?
    requires Budgeted(s.journal.rows, s.polls, w)
    ensures BudgetInv(AfterClaim(s, w, at))
  {
    ClaimOutcome(s.journal, w.hand.item.command, w.hand.proof.value, at);
    ClaimAnswerBudget(s.journal.rows, s.polls, w, at,
                      BeginCancellationRecovery(s.journal, w.hand.item.command, w.hand.proof.value, at).result);
  }

  lemma ClaimOutcome(j: JournalValue, c: BrokerCommand, proof: OrderReading, at: int)
    requires JournalInv(j)
    ensures var r := BeginCancellationRecovery(j, c, proof, at);
            r.journal.rows == j.rows && (r.result.Ok? ==> (r.result.value.Some? <==> StillAmbiguous(j.rows, c.id)))
  {
    BeginWrites(j, c, proof, at);
  }

  lemma RetryAnswerBudget(rows: Rows, polls: seq<Poll>, w: WorkerValue,
                          result: Result<Option<BrokerCommandCompletion>, BrokerCommandError>)
    requires w.hand.Concluded? && Budgeted(rows, polls, w)
    requires result.Ok? && (result.value.None? || Final(result.value.value)) ==> !StillAmbiguous(rows, w.hand.item.command.id)
    ensures result.Ok? ==> Budgeted(rows, polls, RetryAnswered(w, result).value)
  {
    if result.Ok? {
      if result.value.None? || Final(result.value.value) {
        ForgetBudget(rows, polls, w, RetryAnswered(w, result).value, w.hand.item.command.id);
      } else {
        CarryBudget(rows, polls, w, RetryAnswered(w, result).value);
      }
    }
  }

  lemma RetryStepBudget(s: State, w: WorkerValue, now: int)
    requires w.hand.Concluded? && w.hand.attempt.Some?
    requires JournalInv(s.journal) && InScope(s.journal, w.hand.item.command)
    requires HandInv(s.journal.rows, s.journal.recoveries, s.polls, w.hand)
    requires Budgeted(AfterRetry(s, w, now).journal.rows, s.polls, w)
    ensures BudgetInv(AfterRetry(s, w, now))
  {
    RetryOutcome(s.journal, w.hand, s.polls, now);
    var r := FinishCancellationRecovery(s.journal, w.hand.item.command, w.hand.attempt.value, CompletionOf(w.hand, now));
    RetryAnswerBudget(r.journal.rows, s.polls, w, r.result);
  }

  /** A retry that ends without news, or with an acknowledgement, leaves nothing
      to retry. */
  lemma RetryOutcome(j: JournalValue, h: Hand, polls: seq<Poll>, now: int)
    requires JournalInv(j) && h.Concluded? && h.attempt.Some? && HandInv(j.rows, j.recoveries, polls, h)
    requires InScope(j, h.item.command)
    ensures var r := FinishCancellationRecovery(j, h.item.command, h.attempt.value, CompletionOf(h, now));
            r.result.Ok? && (r.result.value.None? || Final(r.result.value.value) ==>
                               !StillAmbiguous(r.journal.rows, h.item.command.id))
  {
    FinishWrites(j, h.item.command, h.attempt.value, CompletionOf(h, now));
  }

  lemma FirstPollBudget(s: State, w: WorkerValue, now: int, verdict: Verdict)
    requires CanPoll(w, verdict) && Budgeted(s.journal.rows, s.polls, w)
    ensures BudgetInv(AfterFirstPoll(s, w, now, verdict))
  {
    var s' := AfterFirstPoll(s, w, now, verdict);
    if s'.polls == s.polls {
      CarryBudget(s.journal.rows, s.polls, w, s'.worker.value);
    } else {
      PollBudget(s.journal.rows, s.polls, w, s'.worker.value, Poll(w.life, w.hand.item.command, w.hand.attempt.Some?, now));
    }
  }

  ghost predicate Carries(w: WorkerValue, w': WorkerValue) {
    w'.attempts == w.attempts && w'.life == w.life && UnpolledRetry(w'.hand).None?
  }

  lemma WriteShape(s: State, w: WorkerValue, step: HandStep)
    requires s.worker == Some(w) && CanWork(w, step)
    requires (step.Dispatch? && w.hand.proof.None?) || step.Defer? || (step.Conclude? && w.hand.attempt.None?)
    ensures AfterWork(s, w, step).worker.Some? ==> Carries(w, AfterWork(s, w, step).worker.value)
    ensures AfterWork(s, w, step).polls == s.polls
  {
  }

  /** Elsewhere the counters stay, and no claimed retry is held. */
  lemma MoveShape(s: State, w: WorkerValue, step: HandStep)
    requires s.worker == Some(w) && CanWork(w, step)
    requires !(step.FirstPoll? || (step.Dispatch? && w.hand.proof.Some?) || (step.Conclude? && w.hand.attempt.Some?))
    ensures AfterWork(s, w, step).worker.Some? ==> Carries(w, AfterWork(s, w, step).worker.value)
    ensures AfterWork(s, w, step).polls == s.polls
  {
    if step.Dispatch? || step.Defer? || step.Conclude? { WriteShape(s, w, step); }
  }

  lemma MoveClaims(s: State, w: WorkerValue, step: HandStep)
    requires s.worker == Some(w) && CanWork(w, step)
    requires !(step.FirstPoll? || (step.Dispatch? && w.hand.proof.Some?) || (step.Conclude? && w.hand.attempt.Some?))
    ensures AfterWork(s, w, step).worker.Some? ==>
              var w' := AfterWork(s, w, step).worker.value;
              Claiming(w'.hand).None? || RetryAllowed(w.attempts, Claiming(w'.hand))
  {
  }

  lemma MoveBudget(s: State, w: WorkerValue, step: HandStep)
    requires s.worker == Some(w) && CanWork(w, step)
    requires !(step.FirstPoll? || (step.Dispatch? && w.hand.proof.Some?) || (step.Conclude? && w.hand.attempt.Some?))
    requires Budgeted(AfterWork(s, w, step).journal.rows, s.polls, w)
    ensures BudgetInv(AfterWork(s, w, step))
  {
    MoveShape(s, w, step);
    MoveClaims(s, w, step);
    var s' := AfterWork(s, w, step);
    if s'.worker.Some? {
      CarryBudget(s'.journal.rows, s.polls, w, s'.worker.value);
    }
  }

  lemma WorkBudget(s: State, w: WorkerValue, step: HandStep)
    requires Inv(s) && s.worker == Some(w) && CanWork(w, step) && Budgeted(s.journal.rows, s.polls, w)
    ensures BudgetInv(AfterWork(s, w, step))
  {
    WorkKeeps(s, w, step);
    FrameBudget(s, w, AfterWork(s, w, step).journal);
    if step.FirstPoll? {
      FirstPollBudget(s, w, step.now, step.verdict);
    } else if step.Dispatch? && w.hand.proof.Some? {
      ClaimStepBudget(s, w, step.at);
    } else if step.Conclude? && w.hand.attempt.Some? {
      RetryStepBudget(s, w, step.now);
    } else {
      MoveBudget(s, w, step);
    }
  }

  lemma ReschedulingBudget(rows: Rows, polls: seq<Poll>, w: WorkerValue, k: nat, resolution: Resolution, later: int)
    requires w.hand.Free? && k < |w.reconciliations| && Budgeted(rows, polls, w)
    ensures Budgeted(rows, polls, Rescheduling(w, rows, k, resolution, later))
  {
    var w' := Rescheduling(w, rows, k, resolution, later);
    if StillAmbiguous(rows, w.reconciliations[k].command.id) {
      CarryBudget(rows, polls, w, w');
    } else {
      ForgetBudget(rows, polls, w, w', w.reconciliations[k].command.id);
    }
  }

  lemma ConfirmBudget(s: State, w: WorkerValue, w1: WorkerValue, c: BrokerCommand, order: Order, later: int)
    requires w1.attempts == w.attempts && w1.life == w.life
    requires Budgeted(AfterTimerConfirm(s, w1, c, order, later).journal.rows, s.polls, w)
    ensures BudgetInv(AfterTimerConfirm(s, w1, c, order, later))
  {
    var s' := AfterTimerConfirm(s, w1, c, order, later);
    if s'.worker.Some? { CarryBudget(s'.journal.rows, s.polls, w, s'.worker.value); }
  }

  lemma ReconcileBudget(s: State, w: WorkerValue, k: nat, resolution: Resolution, later: int)
    requires w.hand.Free? && k < |w.reconciliations| && Budgeted(s.journal.rows, s.polls, w)
    requires Budgeted(AfterReconcile(s, w, k, resolution, later).journal.rows, s.polls, w)
    ensures BudgetInv(AfterReconcile(s, w, k, resolution, later))
  {
    var c := w.reconciliations[k].command;
    if StillAmbiguous(s.journal.rows, c.id) && c.action.Submit? && resolution.Confirmed? {
      ConfirmBudget(s, w, w.(reconciliations := Without(w.reconciliations, k)), c, resolution.order, later);
    } else {
      ReschedulingBudget(s.journal.rows, s.polls, w, k, resolution, later);
    }
  }

  lemma ServeBudget(s: State, w: WorkerValue, request: RequestStep)
    requires Inv(s) && s.worker == Some(w) && CanServe(w, request) && Budgeted(s.journal.rows, s.polls, w)
    ensures Budgeted(Served(s.journal, request).rows, s.polls, w)
  {
    ServeKeeps(s, w, request);
    FrameBudget(s, w, Served(s.journal, request));
  }

  lemma TimerBudget(s: State, w: WorkerValue, k: nat, resolution: Resolution, later: int)
    requires Inv(s) && s.worker == Some(w) && w.hand.Free? && k < |w.reconciliations|
    requires Budgeted(s.journal.rows, s.polls, w)
    ensures BudgetInv(AfterReconcile(s, w, k, resolution, later))
  {
    ReconcileKeeps(s, w, k, resolution, later);
    FrameBudget(s, w, AfterReconcile(s, w, k, resolution, later).journal);
    ReconcileBudget(s, w, k, resolution, later);
  }

  lemma EnqueueShape(j: JournalValue, w: WorkerValue, c: BrokerCommand, prepared: bool, queuedAt: int)
    ensures var w' := Enqueued(j, w, c, prepared, queuedAt);
            w'.attempts == w.attempts && w'.life == w.life && w'.hand == w.hand
  {
  }

  /** Admission, gate changes and taking work leave the counters alone. */
  lemma OwnerBudget(s: State, w: WorkerValue, step: Step)
    requires s.worker == Some(w) && Enabled(s, step) && Budgeted(s.journal.rows, s.polls, w)
    requires step.Enqueue? || step.Gatekeep? || step.Take?
    ensures BudgetInv(Apply(s, step))
  {
    if step.Take? {
      CarryBudget(s.journal.rows, s.polls, w, Taking(w, step.source));
    } else if step.Gatekeep? {
      SameBudget(s.journal.rows, s.polls, w, Gatekept(w, step.gateStep));
    } else {
      EnqueueShape(s.journal, w, step.command, step.prepared, step.queuedAt);
      SameBudget(s.journal.rows, s.polls, w, Enqueued(s.journal, w, step.command, step.prepared, step.queuedAt));
    }
  }

  lemma SameBudget(rows: Rows, polls: seq<Poll>, w: WorkerValue, w': WorkerValue)
    requires Budgeted(rows, polls, w) && w'.attempts == w.attempts && w'.life == w.life && w'.hand == w.hand
    ensures Budgeted(rows, polls, w')
  {
  }

  /** The budget over every step of a safe state. */
  lemma StepBudget(s: State, step: Step)
    requires Inv(s) && BudgetInv(s) && Enabled(s, step)
    ensures BudgetInv(Apply(s, step))
  {
    if step.Start? {
      StartBudget(s, step.entryCapacity, step.controlCapacity);
    } else if step.Serve? {
      ServeBudget(s, s.worker.value, step.request);
    } else if step.ReconcileDue? {
      TimerBudget(s, s.worker.value, NextDue(s.worker.value.reconciliations, step.now).value, step.resolution, step.later);
    } else if step.Work? {
      WorkBudget(s, s.worker.value, step.handStep);
    } else if step.Enqueue? || step.Gatekeep? || step.Take? {
      OwnerBudget(s, s.worker.value, step);
    }
  }
}
