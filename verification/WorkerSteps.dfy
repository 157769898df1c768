/** Every step keeps the invariant and only sharpens durable evidence. */
module WorkerSteps {
  import opened Basics
  import opened Commands
  import opened JournalSpec
  import opened JournalProofs
  import opened WorkerSpec
  import opened WorkerInvariant

  // ----- owner steps -----

  lemma GateKeeps(s: State, w: WorkerValue, step: GateStep)
    requires Inv(s) && s.worker == Some(w)
    ensures Inv(s.(worker := Some(Gatekept(w, step))))
  {
  }

  lemma StartKeeps(s: State, entryCapacity: nat, controlCapacity: nat)
    requires Inv(s) && s.worker.None?
    ensures Inv(s.(worker := Some(NewWorker(s.journal, s.lives, entryCapacity, controlCapacity)), lives := s.lives + 1))
  {
  }

  lemma AcceptKeeps(s: State, w: WorkerValue, c: BrokerCommand, queuedAt: int)
    requires Inv(s) && s.worker == Some(w) && CommandInv(ScopeOf(s.journal), c)
    requires if c.action.IsTeardown() then |w.controls| < w.controlCapacity else |w.entries| < w.entryCapacity
    ensures Inv(s.(worker := Some(Accepted(w, c, queuedAt))))
  {
  }

  lemma EnqueueKeeps(s: State, w: WorkerValue, c: BrokerCommand, prepared: bool, queuedAt: int)
    requires Inv(s) && s.worker == Some(w)
    ensures Inv(s.(worker := Some(Enqueued(s.journal, w, c, prepared, queuedAt))))
  {
    if EnqueueResult(s.journal, w, c, prepared).Ok? {
      AcceptKeeps(s, w, c, queuedAt);
    }
  }

  lemma TakeKeeps(s: State, w: WorkerValue, source: Source)
    requires Inv(s) && s.worker == Some(w) && CanTake(w, source)
    ensures Inv(s.(worker := Some(Taking(w, source))))
  {
  }

  // ----- what survives a durable write -----

  ghost predicate KeepsDispatch(a: Rows, b: Rows, polls: seq<Poll>) {
    forall id :: id in a && id in b && Polled(polls, id) && a[id].dispatchedAt.Some? ==> b[id].dispatchedAt.Some?
  }

  lemma FramePolls(a: Rows, b: Rows, polls: seq<Poll>)
    requires PollsInv(a, polls) && Evolves(a, b) && KeepsDispatch(a, b, polls)
    ensures PollsInv(b, polls)
  {
    forall i | 0 <= i < |polls| ensures PollInv(b, polls[i]) {
      assert PollInv(a, polls[i]) && Polled(polls, polls[i].command.id);
    }
  }

  lemma FrameDelivered(a: Rows, b: Rows, delivered: seq<BrokerCommandCompletion>)
    requires DeliveredInv(a, delivered) && Evolves(a, b)
    ensures DeliveredInv(b, delivered)
  {
    forall i | 0 <= i < |delivered|
      ensures delivered[i].receipt.id in b && Sharpens(Some(delivered[i]), b[delivered[i].receipt.id].completion)
    {
      assert RowEvolves(a[delivered[i].receipt.id], b[delivered[i].receipt.id]);
    }
  }

  /** Everything but the hand survives a write that sharpens the table. */
  lemma FrameTable(s: State, w: WorkerValue, b: JournalValue)
    requires Inv(s) && s.worker == Some(w) && TableStep(s.journal, b)
    requires KeepsDispatch(s.journal.rows, b.rows, s.polls)
    ensures PollsInv(b.rows, s.polls) && DeliveredInv(b.rows, s.delivered)
    ensures ReconciliationsInv(b.rows, w.reconciliations)
  {
    var a := s.journal;
    FramePolls(a.rows, b.rows, s.polls);
    FrameDelivered(a.rows, b.rows, s.delivered);
    forall i | 0 <= i < |w.reconciliations| ensures Known(b.rows, w.reconciliations[i].command) {
      assert Known(a.rows, w.reconciliations[i].command);
      assert RowEvolves(a.rows[w.reconciliations[i].command.id], b.rows[w.reconciliations[i].command.id]);
    }
  }

  /** A worker that ends leaves only its journal behind. */
  lemma EndKeeps(s: State, w: WorkerValue, b: JournalValue)
    requires Inv(s) && s.worker == Some(w) && TableStep(s.journal, b) && JournalInv(b)
    requires KeepsDispatch(s.journal.rows, b.rows, s.polls)
    ensures Inv(s.(journal := b, worker := None))
  {
    FrameTable(s, w, b);
  }

  ghost predicate SameLanes(w: WorkerValue, w': WorkerValue) {
    && w'.life == w.life && w'.entryCapacity == w.entryCapacity && w'.controlCapacity == w.controlCapacity
    && w'.entries == w.entries && w'.controls == w.controls
    && w'.parkedEntry == w.parkedEntry && w'.parkedControl == w.parkedControl
    && w'.stopRequested == w.stopRequested && (w.gate.stopped ==> w'.gate.stopped)
  }

  /** The hand moves on or lets go after a durable write, lanes and slots
      untouched; counters and sent events are not the safety invariant's concern. */
  lemma HandMoves(s: State, w: WorkerValue, b: JournalValue, w': WorkerValue)
    requires Inv(s) && s.worker == Some(w) && SameLanes(w, w')
    requires TableStep(s.journal, b) && JournalInv(b) && b.phase == s.journal.phase
    requires KeepsDispatch(s.journal.rows, b.rows, s.polls)
    requires w'.reconciliations == w.reconciliations
    requires !w'.hand.Free? ==>
               && !w.hand.Free? && w'.hand.item == w.hand.item && (MayPark(w'.hand) ==> MayPark(w.hand))
               && HandInv(b.rows, b.recoveries, s.polls, w'.hand)
    ensures Inv(s.(journal := b, worker := Some(w')))
  {
    FrameTable(s, w, b);
  }

  lemma PrepareHand(j: JournalValue, polls: seq<Poll>, item: QueuedCommand)
    requires JournalInv(j) && InScope(j, item.command) && EncodeFault(item.command).None?
    ensures var r := Prepare(j, item.command, item.queuedAt);
            HandInv(r.journal.rows, r.journal.recoveries, polls, PreparedHand(item, r.result))
  {
    PrepareWrites(j, item.command, item.queuedAt);
    var r := Prepare(j, item.command, item.queuedAt);
    if r.result.Ok? { assert RowInv(r.journal, item.command.id, r.journal.rows[item.command.id]); }
  }

  lemma PrepareKeeps(s: State, w: WorkerValue)
    requires Inv(s) && s.worker == Some(w) && w.hand.Taken?
    ensures Inv(AfterPrepare(s, w)) && TableStep(s.journal, AfterPrepare(s, w).journal)
  {
    var item := w.hand.item;
    PrepareWrites(s.journal, item.command, item.queuedAt);
    PrepareHand(s.journal, s.polls, item);
    var r := Prepare(s.journal, item.command, item.queuedAt);
    HandMoves(s, w, r.journal, w.(hand := PreparedHand(item, r.result)));
  }

  lemma ConfirmHand(j: JournalValue, w: WorkerValue, polls: seq<Poll>, order: Order, now: int)
    requires JournalInv(j) && CanConfirm(w) && HandInv(j.rows, j.recoveries, polls, w.hand)
    ensures var r := ConfirmAmbiguousSubmission(j, w.hand.item.command, order, now);
            r.result.Ok? ==> HandInv(r.journal.rows, r.journal.recoveries, polls,
                                     ConfirmedHand(w.hand, r.result.value))
  {
    ConfirmWrites(j, w.hand.item.command, order, now);
  }

  lemma ConfirmKeeps(s: State, w: WorkerValue, order: Order, now: int)
    requires Inv(s) && s.worker == Some(w) && CanConfirm(w)
    ensures Inv(AfterConfirm(s, w, order, now)) && TableStep(s.journal, AfterConfirm(s, w, order, now).journal)
  {
    ConfirmWrites(s.journal, w.hand.item.command, order, now);
    ConfirmHand(s.journal, w, s.polls, order, now);
    var r := ConfirmAmbiguousSubmission(s.journal, w.hand.item.command, order, now);
    if r.result.Err? {
      EndKeeps(s, w, r.journal);
    } else {
      HandMoves(s, w, r.journal, w.(hand := ConfirmedHand(w.hand, r.result.value)));
    }
  }

  lemma ProveKeeps(s: State, w: WorkerValue, proof: OrderReading)
    requires Inv(s) && s.worker == Some(w) && CanProvePending(w, proof)
    ensures Inv(s.(worker := Some(Proving(w, proof))))
  {
    HandMoves(s, w, s.journal, Proving(w, proof));
  }

  /** A row found dispatching becomes ambiguous under its own dispatch time; a
      refusal before dispatch leaves no dispatch time. */
  lemma JudgeHand(j: JournalValue, w: WorkerValue, polls: seq<Poll>, judgement: Judgement)
    requires JournalInv(j) && CanJudge(w, judgement) && HandInv(j.rows, j.recoveries, polls, w.hand)
    ensures HandInv(j.rows, j.recoveries, polls, Judging(w, judgement).hand)
  {
    assert RowInv(j, w.hand.item.command.id, j.rows[w.hand.item.command.id]);
  }

  lemma JudgeShape(w: WorkerValue, judgement: Judgement)
    requires CanJudge(w, judgement)
    ensures var w' := Judging(w, judgement);
            && SameLanes(w, w') && w'.reconciliations == w.reconciliations
            && !w'.hand.Free? && w'.hand.item == w.hand.item && !MayPark(w'.hand)
  {
  }

  lemma JudgeKeeps(s: State, w: WorkerValue, judgement: Judgement)
    requires Inv(s) && s.worker == Some(w) && CanJudge(w, judgement)
    ensures Inv(s.(worker := Some(Judging(w, judgement))))
  {
    JudgeHand(s.journal, w, s.polls, judgement);
    JudgeShape(w, judgement);
    SameTable(s.journal);
    HandMoves(s, w, s.journal, Judging(w, judgement));
  }

  lemma ScheduleKeeps(rows: Rows, pending: seq<Reconciliation>, c: BrokerCommand, now: int)
    requires ReconciliationsInv(rows, pending) && Known(rows, c)
    ensures ReconciliationsInv(rows, Schedule(pending, c, now))
  {
  }

  lemma PublishKeeps(s: State, w: WorkerValue, now: int)
    requires Inv(s) && s.worker == Some(w) && (w.hand.Replaying? || w.hand.Settled?)
    ensures Inv(s.(worker := Some(Publishing(w, now))))
  {
    ScheduleKeeps(s.journal.rows, w.reconciliations, w.hand.item.command, now);
  }

  // ----- dispatch and transport -----

  /** The held command returns to the empty slot of its lane. */
  lemma ParkedKeeps(s: State, w: WorkerValue, item: QueuedCommand)
    requires Inv(s) && s.worker == Some(w) && w.hand.Free? && CommandInv(ScopeOf(s.journal), item.command)
    ensures Inv(s.(worker := Some(Parked(w, item))))
  {
  }

  lemma ParkKeeps(s: State, w: WorkerValue, takeControl: bool)
    requires Inv(s) && s.worker == Some(w) && CanPark(w, takeControl)
    ensures Inv(s.(worker := Some(Parking(w, takeControl))))
  {
    var w1 := Closing(w).(hand := Free);
    HandMoves(s, w, s.journal, w1);
    var s1 := s.(worker := Some(w1));
    if takeControl {
      var w2 := w1.(parkedControl := Some(w.controls[0]), controls := w.controls[1..]);
      ControlReceived(s1, w1);
      ParkedKeeps(s.(worker := Some(w2)), w2, w.hand.item);
    } else {
      ParkedKeeps(s1, w1, w.hand.item);
    }
  }

  lemma ControlReceived(s: State, w: WorkerValue)
    requires Inv(s) && s.worker == Some(w) && w.hand.Free? && w.parkedControl.None? && w.controls != []
    ensures Inv(s.(worker := Some(w.(parkedControl := Some(w.controls[0]), controls := w.controls[1..]))))
  {
  }

  lemma NeverPolled(rows: Rows, polls: seq<Poll>, id: BrokerCommandId)
    requires PollsInv(rows, polls) && id in rows && rows[id].dispatchedAt.None?
    ensures !Polled(polls, id)
  {
    forall i | 0 <= i < |polls| ensures polls[i].command.id != id {
      assert PollInv(rows, polls[i]);
    }
  }

  /** A queued row was never polled, so neither is its fresh dispatch. */
  lemma DispatchHand(j: JournalValue, w: WorkerValue, polls: seq<Poll>, at: int)
    requires JournalInv(j) && PollsInv(j.rows, polls) && w.hand.Admitting? && w.hand.proof.None?
    requires w.hand.record.state != Dispatching && HandInv(j.rows, j.recoveries, polls, w.hand)
    ensures j.rows[w.hand.item.command.id].state == Queued
    ensures var r := MarkDispatched(j, w.hand.item.command.id, at);
            HandInv(r.journal.rows, r.journal.recoveries, polls, Dispatched(w.hand.item, w.hand.record, at, None))
  {
    var id := w.hand.item.command.id;
    assert RowInv(j, id, j.rows[id]);
    DispatchWrites(j, id, at);
    NeverPolled(j.rows, polls, id);
  }

  lemma DispatchKeeps(s: State, w: WorkerValue, at: int)
    requires Inv(s) && s.worker == Some(w) && w.hand.Admitting? && w.hand.proof.None?
    requires w.hand.record.state != Dispatching
    ensures Inv(AfterDispatch(s, w, at)) && TableStep(s.journal, AfterDispatch(s, w, at).journal)
    ensures AfterDispatch(s, w, at).worker.Some?
  {
    DispatchHand(s.journal, w, s.polls, at);
    DispatchWrites(s.journal, w.hand.item.command.id, at);
    HandMoves(s, w, MarkDispatched(s.journal, w.hand.item.command.id, at).journal,
              Closing(w).(hand := Dispatched(w.hand.item, w.hand.record, at, None)));
  }

  lemma ClaimKeeps(s: State, w: WorkerValue, at: int)
    requires Inv(s) && s.worker == Some(w) && w.hand.Admitting? && w.hand.proof.Some?
    ensures Inv(AfterClaim(s, w, at)) && TableStep(s.journal, AfterClaim(s, w, at).journal)
  {
    BeginWrites(s.journal, w.hand.item.command, w.hand.proof.value, at);
    var r := BeginCancellationRecovery(s.journal, w.hand.item.command, w.hand.proof.value, at);
    if r.result.Err? {
      EndKeeps(s, w, r.journal);
    } else {
      HandMoves(s, w, r.journal, AfterClaim(s, w, at).worker.value);
    }
  }

  lemma PollAppended(j: JournalValue, polls: seq<Poll>, h: Hand, p: Poll)
    requires JournalInv(j) && PollsInv(j.rows, polls) && h.Dispatched? && HandInv(j.rows, j.recoveries, polls, h)
    requires p.command == h.item.command && p.retry == h.attempt.Some?
    ensures PollsInv(j.rows, polls + [p])
  {
    assert RowInv(j, p.command.id, j.rows[p.command.id]);
    assert PollInv(j.rows, p);
    assert forall i :: 0 <= i < |polls| && polls[i].command.id == p.command.id ==> Polled(polls, p.command.id);
  }

  lemma PolledKeeps(s: State, w: WorkerValue, now: int)
    requires Inv(s) && s.worker == Some(w) && w.hand.Dispatched?
    ensures Inv(s.(worker := Some(w.(hand := InFlight(w.hand.item, w.hand.record, w.hand.at, w.hand.attempt))),
                   polls := s.polls + [Poll(w.life, w.hand.item.command, w.hand.attempt.Some?, now)]))
  {
    PollAppended(s.journal, s.polls, w.hand, Poll(w.life, w.hand.item.command, w.hand.attempt.Some?, now));
  }

  /** A dispatch that was not polled keeps its proof of that. */
  lemma UnpolledKeeps(s: State, w: WorkerValue, refusal: Option<BrokerCommandOutcome>, accountChanged: bool)
    requires Inv(s) && s.worker == Some(w) && w.hand.Dispatched?
    requires refusal.Some? ==> w.hand.item.command.action.Submit? && !refusal.value.Ambiguous?
    ensures Inv(s.(worker := Some(w.(hand := Unpolled(w.hand.item, w.hand.record, w.hand.at, w.hand.attempt,
                                                      refusal, accountChanged)))))
  {
    SameTable(s.journal);
    HandMoves(s, w, s.journal, w.(hand := Unpolled(w.hand.item, w.hand.record, w.hand.at, w.hand.attempt,
                                                   refusal, accountChanged)));
  }

  /** The gate is judged before the poll, so a poll is only recorded for an
      ordinary dispatch never polled before, or for a claimed retry. */
  lemma FirstPollKeeps(s: State, w: WorkerValue, now: int, verdict: Verdict)
    requires Inv(s) && s.worker == Some(w) && CanPoll(w, verdict)
    ensures Inv(AfterFirstPoll(s, w, now, verdict)) && AfterFirstPoll(s, w, now, verdict).journal == s.journal
  {
    if Gated(w, w.hand.item.command, now) {
      UnpolledKeeps(s, w, Some(CancelledBeforeDispatch), false);
    } else {
      match verdict
      case PollNow => PolledKeeps(s, w, now);
      case Refuse(reason) => UnpolledKeeps(s, w, Some(Declined(reason)), false);
      case Unavailable(accountChanged) => UnpolledKeeps(s, w, None, accountChanged);
    }
  }

  lemma FinishKeeps(s: State, w: WorkerValue, outcome: BrokerCommandOutcome)
    requires Inv(s) && s.worker == Some(w) && CanFinish(w, outcome)
    ensures Inv(s.(worker := Some(Finishing(w, outcome))))
  {
    HandMoves(s, w, s.journal, Finishing(w, outcome));
  }

  /** Only a dispatch this worker still owns unpolled goes back to the queue. */
  lemma DeferRow(j: JournalValue, h: Hand, polls: seq<Poll>)
    requires JournalInv(j) && h.Unpolled? && h.attempt.None? && HandInv(j.rows, j.recoveries, polls, h)
    ensures var r := DeferUnpolledDispatch(j, h.item.command.id, h.at);
            && r.result.Ok? && JournalInv(r.journal) && SameElse(j, r.journal)
            && TableStep(j, r.journal) && KeepsDispatch(j.rows, r.journal.rows, polls)
            && (h.refusal.Some? ==>
                  HandInv(r.journal.rows, r.journal.recoveries, polls,
                          Concluded(h.item, h.record, None, None, h.refusal.value)))
  {
    DeferWrites(j, h.item.command.id, h.at);
  }

  lemma DeferKeeps(s: State, w: WorkerValue)
    requires Inv(s) && s.worker == Some(w) && w.hand.Unpolled?
    ensures Inv(AfterDefer(s, w)) && TableStep(s.journal, AfterDefer(s, w).journal)
  {
    var h := w.hand;
    if h.attempt.None? {
      DeferRow(s.journal, h, s.polls);
      DeferredKeeps(s, w, DeferUnpolledDispatch(s.journal, h.item.command.id, h.at).journal);
    } else {
      DeferredKeeps(s, w, s.journal);
    }
  }

  lemma DeferredKeeps(s: State, w: WorkerValue, b: JournalValue)
    requires Inv(s) && s.worker == Some(w) && w.hand.Unpolled?
    requires TableStep(s.journal, b) && JournalInv(b) && SameElse(s.journal, b)
    requires KeepsDispatch(s.journal.rows, b.rows, s.polls)
    requires w.hand.refusal.Some? ==>
               w.hand.attempt.None?
               && HandInv(b.rows, b.recoveries, s.polls, Concluded(w.hand.item, w.hand.record, None, None, w.hand.refusal.value))
    ensures w.hand.refusal.Some? ==>
              Inv(s.(journal := b,
                     worker := Some(w.(hand := Concluded(w.hand.item, w.hand.record, None, None, w.hand.refusal.value)))))
    ensures Inv(s.(journal := RequestExecutionStop(b), worker := None))
    ensures Inv(s.(journal := b, worker := Some(Parked(w, w.hand.item))))
  {
    if w.hand.refusal.Some? {
      HandMoves(s, w, b, w.(hand := Concluded(w.hand.item, w.hand.record, None, None, w.hand.refusal.value)));
    }
    StopKeeps(b);
    EndKeeps(s, w, RequestExecutionStop(b));
    var w1 := w.(hand := Free);
    HandMoves(s, w, b, w1);
    ParkedKeeps(s.(journal := b, worker := Some(w1)), w1, w.hand.item);
    assert Parked(w, w.hand.item) == Parked(w1, w.hand.item);
  }

  /** Stop requests touch no row. */
  lemma StopKeeps(j: JournalValue)
    requires JournalInv(j)
    ensures JournalInv(RequestExecutionStop(j)) && RequestExecutionStop(j).rows == j.rows
    ensures ScopeOf(RequestExecutionStop(j)) == ScopeOf(j)
  {
    var b := RequestExecutionStop(j);
    forall id | id in b.rows ensures RowInv(b, id, b.rows[id]) { assert RowInv(j, id, j.rows[id]); }
  }

  // ----- durable results and delivery -----

  /** The worker never builds a completion that `complete` would reject. */
  lemma CompleteHand(j: JournalValue, h: Hand, polls: seq<Poll>, now: int)
    requires JournalInv(j) && h.Concluded? && h.attempt.None? && HandInv(j.rows, j.recoveries, polls, h)
    ensures var r := Complete(j, CompletionOf(h, now));
            && r.result.Ok? && JournalInv(r.journal) && SameElse(j, r.journal)
            && TableStep(j, r.journal) && KeepsDispatch(j.rows, r.journal.rows, polls)
            && HandInv(r.journal.rows, r.journal.recoveries, polls, Settled(h.item, CompletionOf(h, now)))
  {
    CompleteWrites(j, h.item.command.id, CompletionOf(h, now));
  }

  lemma CompleteKeeps(s: State, w: WorkerValue, now: int)
    requires Inv(s) && s.worker == Some(w) && w.hand.Concluded? && w.hand.attempt.None?
    ensures Inv(AfterComplete(s, w, now)) && TableStep(s.journal, AfterComplete(s, w, now).journal)
    ensures AfterComplete(s, w, now).worker.Some?
  {
    CompleteHand(s.journal, w.hand, s.polls, now);
    var completion := CompletionOf(w.hand, now);
    HandMoves(s, w, Complete(s.journal, completion).journal, w.(hand := Settled(w.hand.item, completion)));
  }

  /** A claimed retry is never rejected as foreign to its intent either. */
  lemma RetryHand(j: JournalValue, h: Hand, polls: seq<Poll>, now: int)
    requires JournalInv(j) && h.Concluded? && h.attempt.Some? && HandInv(j.rows, j.recoveries, polls, h)
    requires InScope(j, h.item.command)
    ensures var r := FinishCancellationRecovery(j, h.item.command, h.attempt.value, CompletionOf(h, now));
            && r.result.Ok? && JournalInv(r.journal) && SameElse(j, r.journal)
            && TableStep(j, r.journal) && KeepsDispatch(j.rows, r.journal.rows, polls)
            && (r.result.value.Some? ==>
                  HandInv(r.journal.rows, r.journal.recoveries, polls, Settled(h.item, r.result.value.value)))
  {
    FinishWrites(j, h.item.command, h.attempt.value, CompletionOf(h, now));
  }

  lemma RetryKeeps(s: State, w: WorkerValue, now: int)
    requires Inv(s) && s.worker == Some(w) && w.hand.Concluded? && w.hand.attempt.Some?
    ensures Inv(AfterRetry(s, w, now)) && TableStep(s.journal, AfterRetry(s, w, now).journal)
    ensures AfterRetry(s, w, now).worker.Some?
  {
    RetryHand(s.journal, w.hand, s.polls, now);
    HandMoves(s, w, AfterRetry(s, w, now).journal, AfterRetry(s, w, now).worker.value);
  }

  lemma ExitKeeps(s: State, w: WorkerValue)
    requires Inv(s) && s.worker == Some(w)
    ensures Inv(AfterExit(s, w)) && TableStep(s.journal, AfterExit(s, w).journal)
    ensures Inv(s.(worker := None)) && Inv(s.(journal := RequestExecutionStop(s.journal), worker := None))
  {
    StopKeeps(s.journal);
    EndKeeps(s, w, RequestExecutionStop(s.journal));
    EndKeeps(s, w, s.journal);
  }

  lemma DeliveredAppended(j: JournalValue, delivered: seq<BrokerCommandCompletion>, h: Hand, polls: seq<Poll>)
    requires JournalInv(j) && DeliveredInv(j.rows, delivered) && h.Delivering?
    requires HandInv(j.rows, j.recoveries, polls, h)
    ensures DeliveredInv(j.rows, delivered + [h.completion])
  {
    assert RowInv(j, h.item.command.id, j.rows[h.item.command.id]);
  }

  lemma DeliverKeeps(s: State, w: WorkerValue)
    requires Inv(s) && s.worker == Some(w) && (w.hand.Delivering? || w.hand.Failing?)
    ensures Inv(AfterDeliver(s, w)) && TableStep(s.journal, AfterDeliver(s, w).journal)
  {
    ExitKeeps(s, w);
    if w.hand.Delivering? {
      DeliveredAppended(s.journal, s.delivered, w.hand, s.polls);
    }
  }

  // ----- reconciliation timer -----

  lemma DueRemoved(rows: Rows, pending: seq<Reconciliation>, k: nat, later: int)
    requires ReconciliationsInv(rows, pending) && k < |pending|
    ensures ReconciliationsInv(rows, Without(pending, k))
    ensures ReconciliationsInv(rows, Reschedule(Without(pending, k), pending[k], later))
  {
    var rest := Without(pending, k);
    assert forall i :: 0 <= i < |rest| ==> rest[i] == pending[if i < k then i else i + 1];
  }

  /** Only the queue, the counters and an empty control slot change. */
  lemma TimerKeeps(s: State, w: WorkerValue, w': WorkerValue)
    requires Inv(s) && s.worker == Some(w) && w.hand.Free? && w'.hand.Free?
    requires ReconciliationsInv(s.journal.rows, w'.reconciliations)
    requires SameLanes(w, w'.(parkedControl := w.parkedControl))
    requires SlotInv(ScopeOf(s.journal), w'.parkedControl, true)
    ensures Inv(s.(worker := Some(w')))
  {
  }

  /** What the timer changes when it brings no confirmation: its queue, the
      counters, and an empty control slot that may get a still ambiguous Cancel. */
  lemma ReschedulingShape(w: WorkerValue, rows: Rows, k: nat, resolution: Resolution, later: int)
    requires k < |w.reconciliations|
    ensures var w' := Rescheduling(w, rows, k, resolution, later);
            var c, rest := w.reconciliations[k].command, Without(w.reconciliations, k);
            && w' == w.(reconciliations := w'.reconciliations, attempts := w'.attempts, parkedControl := w'.parkedControl)
            && w'.reconciliations in {rest, Reschedule(rest, w.reconciliations[k], later)}
            && (w'.parkedControl == w.parkedControl
                || (c.action.Cancel? && c.id in rows && w.parkedControl.None?
                    && w'.parkedControl == Some(QueuedCommand(c, rows[c.id].queuedAt, None))))
  {
  }

  lemma ReschedulingKeeps(s: State, w: WorkerValue, k: nat, resolution: Resolution, later: int)
    requires Inv(s) && s.worker == Some(w) && w.hand.Free? && k < |w.reconciliations|
    ensures Inv(s.(worker := Some(Rescheduling(w, s.journal.rows, k, resolution, later))))
  {
    var c := w.reconciliations[k].command;
    ReschedulingShape(w, s.journal.rows, k, resolution, later);
    DueRemoved(s.journal.rows, w.reconciliations, k, later);
    assert RowInv(s.journal, c.id, s.journal.rows[c.id]);
    TimerKeeps(s, w, Rescheduling(w, s.journal.rows, k, resolution, later));
  }

  /** A look-up's confirmation goes straight to the owner. */
  lemma TimerHand(s: State, w: WorkerValue, b: JournalValue, item: QueuedCommand, completion: BrokerCommandCompletion)
    requires Inv(s) && s.worker == Some(w) && w.hand.Free? && CommandInv(ScopeOf(s.journal), item.command)
    requires TableStep(s.journal, b) && JournalInv(b) && b.phase == s.journal.phase
    requires KeepsDispatch(s.journal.rows, b.rows, s.polls)
    requires Known(b.rows, item.command) && b.rows[item.command.id].completion == Some(completion)
    ensures Inv(s.(journal := b, worker := Some(w.(hand := Delivering(item, completion)))))
  {
    FrameTable(s, w, b);
  }

  lemma TimerConfirmKeeps(s: State, w: WorkerValue, c: BrokerCommand, order: Order, now: int)
    requires Inv(s) && s.worker == Some(w) && w.hand.Free? && CommandInv(ScopeOf(s.journal), c)
    ensures Inv(AfterTimerConfirm(s, w, c, order, now))
    ensures TableStep(s.journal, AfterTimerConfirm(s, w, c, order, now).journal)
  {
    ConfirmWrites(s.journal, c, order, now);
    var r := ConfirmAmbiguousSubmission(s.journal, c, order, now);
    if r.result.Err? {
      EndKeeps(s, w, r.journal);
    } else {
      TimerHand(s, w, r.journal, QueuedCommand(c, r.result.value.queuedAt, None), r.result.value);
    }
  }

  lemma DueConfirmKeeps(s: State, w: WorkerValue, k: nat, order: Order, later: int)
    requires Inv(s) && s.worker == Some(w) && w.hand.Free? && k < |w.reconciliations|
    ensures var w1 := w.(reconciliations := Without(w.reconciliations, k));
            var s' := AfterTimerConfirm(s, w1, w.reconciliations[k].command, order, later);
            Inv(s') && TableStep(s.journal, s'.journal)
  {
    var c, w1 := w.reconciliations[k].command, w.(reconciliations := Without(w.reconciliations, k));
    DueRemoved(s.journal.rows, w.reconciliations, k, later);
    TimerKeeps(s, w, w1);
    assert RowInv(s.journal, c.id, s.journal.rows[c.id]);
    TimerConfirmKeeps(s.(worker := Some(w1)), w1, c, order, later);
  }

  lemma ReconcileKeeps(s: State, w: WorkerValue, k: nat, resolution: Resolution, later: int)
    requires Inv(s) && s.worker == Some(w) && w.hand.Free? && k < |w.reconciliations|
    ensures Inv(AfterReconcile(s, w, k, resolution, later))
    ensures TableStep(s.journal, AfterReconcile(s, w, k, resolution, later).journal)
  {
    var c := w.reconciliations[k].command;
    if StillAmbiguous(s.journal.rows, c.id) && c.action.Submit? && resolution.Confirmed? {
      DueConfirmKeeps(s, w, k, resolution.order, later);
    } else {
      ReschedulingKeeps(s, w, k, resolution, later);
      SameTable(s.journal);
    }
  }

  // ----- journal requests and epochs -----

  /** A checkpoint leaves the command in hand as the worker knows it. */
  lemma CheckpointHand(a: Rows, b: Rows, recoveries: map<BrokerCommandId, seq<RecoveryAttempt>>, polls: seq<Poll>, h: Hand)
    requires HandInv(a, recoveries, polls, h) && CheckpointChange(a, b)
    ensures HandInv(b, recoveries, polls, h)
  {
  }

  lemma CheckpointEvolves(a: Rows, b: Rows)
    requires CheckpointChange(a, b)
    requires forall id :: id in a ==> (a[id].completion.Some? <==> a[id].state in {Completed, Applied})
    ensures Evolves(a, b)
  {
  }

  lemma PhaseKeeps(s: State, w: WorkerValue, b: JournalValue)
    requires Inv(s) && s.worker == Some(w) && JournalInv(b) && ScopeOf(b) == ScopeOf(s.journal)
    requires b.recoveries == s.journal.recoveries
    requires CheckpointChange(s.journal.rows, b.rows)
    requires b.phase != Running ==> w.gate.stopped
    ensures Inv(s.(journal := b)) && TableStep(s.journal, b)
  {
    forall id | id in s.journal.rows
      ensures s.journal.rows[id].completion.Some? <==> s.journal.rows[id].state in {Completed, Applied}
    {
      assert RowInv(s.journal, id, s.journal.rows[id]);
    }
    CheckpointEvolves(s.journal.rows, b.rows);
    CheckpointHand(s.journal.rows, b.rows, b.recoveries, s.polls, w.hand);
    FrameTable(s, w, b);
  }

  lemma ServeKeeps(s: State, w: WorkerValue, request: RequestStep)
    requires Inv(s) && s.worker == Some(w) && CanServe(w, request)
    ensures Inv(s.(journal := Served(s.journal, request))) && TableStep(s.journal, Served(s.journal, request))
  {
    var b := Served(s.journal, request);
    if request.Checkpoint? {
      CheckpointKeeps(s.journal, request.intents, request.applied);
    } else {
      SameRows(s.journal, b);
    }
    PhaseKeeps(s, w, b);
  }

  lemma SameRows(a: JournalValue, b: JournalValue)
    requires JournalInv(a) && ScopeOf(a) == ScopeOf(b) && a.rows == b.rows
    ensures JournalInv(b) && CheckpointChange(a.rows, b.rows)
  {
    forall id | id in b.rows ensures RowInv(b, id, b.rows[id]) { assert RowInv(a, id, a.rows[id]); }
  }

  lemma EpochKeeps(s: State, exposure: bool)
    requires Inv(s) && s.worker.None?
    ensures Inv(s.(journal := BeginExecutionEpoch(s.journal, exposure).journal))
    ensures TableStep(s.journal, BeginExecutionEpoch(s.journal, exposure).journal)
  {
    SameRows(s.journal, BeginExecutionEpoch(s.journal, exposure).journal);
  }

  lemma HalfRetryKeeps(s: State, w: WorkerValue, h: Hand, now: int)
    requires Inv(s) && s.worker == Some(w) && h.Concluded? && h.attempt.Some?
    ensures Inv(s.(journal := HalfRetried(s.journal, h, now), worker := None))
    ensures TableStep(s.journal, HalfRetried(s.journal, h, now))
  {
    var j := HalfRetried(s.journal, h, now);
    SameRows(s.journal, j);
    EndKeeps(s, w, j);
  }

  // ----- all steps -----

  lemma SameTable(j: JournalValue)
    ensures TableStep(j, j)
  {
  }

  lemma ReplayWorkKeeps(s: State, w: WorkerValue, step: HandStep)
    requires Inv(s) && s.worker == Some(w) && CanWork(w, step)
    requires step.PrepareTaken? || step.ConfirmSubmission? || step.ProvePending?
    ensures Inv(AfterWork(s, w, step)) && TableStep(s.journal, AfterWork(s, w, step).journal)
  {
    SameTable(s.journal);
    match step
    case PrepareTaken => PrepareKeeps(s, w);
    case ConfirmSubmission(order, now) => ConfirmKeeps(s, w, order, now);
    case ProvePending(proof) => ProveKeeps(s, w, proof);
  }

  lemma AdmitWorkKeeps(s: State, w: WorkerValue, step: HandStep)
    requires Inv(s) && s.worker == Some(w) && CanWork(w, step)
    requires step.Judge? || step.Park? || step.AccountChanged? || step.Dispatch?
    ensures Inv(AfterWork(s, w, step)) && TableStep(s.journal, AfterWork(s, w, step).journal)
  {
    SameTable(s.journal);
    match step
    case Judge(judgement) => JudgeKeeps(s, w, judgement);
    case Park(takeControl) => ParkKeeps(s, w, takeControl);
    case AccountChanged => ExitKeeps(s, w);
    case Dispatch(at) => if w.hand.proof.None? { DispatchKeeps(s, w, at); } else { ClaimKeeps(s, w, at); }
  }

  lemma TransportWorkKeeps(s: State, w: WorkerValue, step: HandStep)
    requires Inv(s) && s.worker == Some(w) && CanWork(w, step)
    requires step.FirstPoll? || step.Finish? || step.Defer?
    ensures Inv(AfterWork(s, w, step)) && TableStep(s.journal, AfterWork(s, w, step).journal)
  {
    SameTable(s.journal);
    match step
    case FirstPoll(now, verdict) => FirstPollKeeps(s, w, now, verdict);
    case Finish(outcome) => FinishKeeps(s, w, outcome);
    case Defer => DeferKeeps(s, w);
  }

  lemma ResultWorkKeeps(s: State, w: WorkerValue, step: HandStep)
    requires Inv(s) && s.worker == Some(w) && CanWork(w, step)
    requires step.Conclude? || step.Publish? || step.Deliver?
    ensures Inv(AfterWork(s, w, step)) && TableStep(s.journal, AfterWork(s, w, step).journal)
  {
    SameTable(s.journal);
    match step
    case Conclude(now) => if w.hand.attempt.None? { CompleteKeeps(s, w, now); } else { RetryKeeps(s, w, now); }
    case Publish(now) => PublishKeeps(s, w, now);
    case Deliver => DeliverKeeps(s, w);
  }

  lemma WorkKeeps(s: State, w: WorkerValue, step: HandStep)
    requires Inv(s) && s.worker == Some(w) && CanWork(w, step)
    ensures Inv(AfterWork(s, w, step)) && TableStep(s.journal, AfterWork(s, w, step).journal)
  {
    if step.PrepareTaken? || step.ConfirmSubmission? || step.ProvePending? {
      ReplayWorkKeeps(s, w, step);
    } else if step.Judge? || step.Park? || step.AccountChanged? || step.Dispatch? {
      AdmitWorkKeeps(s, w, step);
    } else if step.FirstPoll? || step.Finish? || step.Defer? {
      TransportWorkKeeps(s, w, step);
    } else {
      ResultWorkKeeps(s, w, step);
    }
  }

  /** The owner's sections and the loop's choice of work. */
  lemma OwnerKeeps(s: State, step: Step)
    requires Inv(s) && Enabled(s, step) && (step.Enqueue? || step.Gatekeep? || step.Take?)
    ensures Inv(Apply(s, step)) && TableStep(s.journal, Apply(s, step).journal)
  {
    SameTable(s.journal);
    match step
    case Enqueue(c, prepared, queuedAt) => EnqueueKeeps(s, s.worker.value, c, prepared, queuedAt);
    case Gatekeep(gateStep) => GateKeeps(s, s.worker.value, gateStep);
    case Take(source) => TakeKeeps(s, s.worker.value, source);
  }

  /** Starts, epochs and ends of a worker's life. */
  lemma LifeKeeps(s: State, step: Step)
    requires Inv(s) && Enabled(s, step)
    requires step.Start? || step.BeginEpoch? || step.Exit? || step.Crash? || step.CrashInRetry?
    ensures Inv(Apply(s, step)) && TableStep(s.journal, Apply(s, step).journal)
  {
    SameTable(s.journal);
    match step
    case Start(entryCapacity, controlCapacity) => StartKeeps(s, entryCapacity, controlCapacity);
    case BeginEpoch(exposure) => EpochKeeps(s, exposure);
    case Exit => ExitKeeps(s, s.worker.value);
    case Crash => ExitKeeps(s, s.worker.value);
    case CrashInRetry(now) => HalfRetryKeeps(s, s.worker.value, s.worker.value.hand, now);
  }

  /** Every enabled step keeps the invariant and only sharpens the table. */
  lemma StepKeeps(s: State, step: Step)
    requires Inv(s) && Enabled(s, step)
    ensures Inv(Apply(s, step)) && TableStep(s.journal, Apply(s, step).journal)
  {
    if step.Enqueue? || step.Gatekeep? || step.Take? {
      OwnerKeeps(s, step);
    } else if step.Serve? {
      ServeKeeps(s, s.worker.value, step.request);
    } else if step.ReconcileDue? {
      ReconcileKeeps(s, s.worker.value, NextDue(s.worker.value.reconciliations, step.now).value,
                     step.resolution, step.later);
    } else if step.Work? {
      WorkKeeps(s, s.worker.value, step.handStep);
    } else {
      LifeKeeps(s, step);
    }
  }
}
