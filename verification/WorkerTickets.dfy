/** The answer to a ticket is about the command accepted under it. */
module WorkerTickets {
  import opened Basics
  import opened Commands
  import opened JournalSpec
  import opened WorkerSpec
  import opened WorkerInvariant

  /** The item is the command its ticket was issued for. */
  ghost predicate Named(accepted: seq<BrokerCommand>, item: QueuedCommand) {
    item.ticket.Some? ==> item.ticket.value < |accepted| && accepted[item.ticket.value] == item.command
  }

  ghost predicate LaneNamed(accepted: seq<BrokerCommand>, items: seq<QueuedCommand>) {
    forall i :: 0 <= i < |items| ==> Named(accepted, items[i])
  }

  ghost predicate SlotNamed(accepted: seq<BrokerCommand>, slot: Option<QueuedCommand>) {
    slot.Some? ==> Named(accepted, slot.value)
  }

  ghost function ReceiptOf(event: WorkerEvent): BrokerCommandReceipt {
    match event
    case CompletionEvent(completion) => completion.receipt
    case FailedEvent(receipt, _) => receipt
  }

  ghost predicate Answers(accepted: seq<BrokerCommand>, e: SentEvent) {
    e.ticket.Some? ==>
      e.ticket.value < |accepted| && ReceiptOf(e.event) == accepted[e.ticket.value].Receipt()
  }

  ghost predicate AllAnswer(accepted: seq<BrokerCommand>, sent: seq<SentEvent>) {
    forall i :: 0 <= i < |sent| ==> Answers(accepted, sent[i])
  }

  ghost predicate Names(w: WorkerValue) {
    && LaneNamed(w.accepted, w.entries) && LaneNamed(w.accepted, w.controls)
    && SlotNamed(w.accepted, w.parkedEntry) && SlotNamed(w.accepted, w.parkedControl)
    && SlotNamed(w.accepted, Held(w.hand)) && AllAnswer(w.accepted, w.sent)
  }

  ghost predicate NamesInv(s: State) {
    s.worker.Some? ==> Names(s.worker.value)
  }

  lemma AcceptNames(w: WorkerValue, c: BrokerCommand, queuedAt: int)
    requires Names(w)
    ensures Names(Accepted(w, c, queuedAt))
  {
    var accepted := w.accepted + [c];
    assert accepted[|w.accepted|] == c;
    forall item | Named(w.accepted, item) ensures Named(accepted, item) { }
    forall e | Answers(w.accepted, e) ensures Answers(accepted, e) { }
  }

  lemma TakeNames(w: WorkerValue, source: Source)
    requires Names(w) && CanTake(w, source)
    ensures Names(Taking(w, source))
  {
  }

  lemma ParkNames(w: WorkerValue, takeControl: bool)
    requires Names(w) && CanPark(w, takeControl)
    ensures Names(Parking(w, takeControl))
  {
  }

  /** What is sent for the command in hand names that command. */
  lemma AnswerNames(w: WorkerValue, event: WorkerEvent)
    requires Names(w) && !w.hand.Free? && ReceiptOf(event) == w.hand.item.command.Receipt()
    ensures Names(w.(hand := Free, sent := w.sent + [SentEvent(w.hand.item.ticket, event)]))
  {
  }

  lemma DeliverNames(s: State, w: WorkerValue)
    requires Inv(s) && s.worker == Some(w) && Names(w) && (w.hand.Delivering? || w.hand.Failing?)
    ensures NamesInv(AfterDeliver(s, w))
  {
    if w.hand.Delivering? {
      var c := w.hand.item.command;
      assert HandInv(s.journal.rows, s.journal.recoveries, s.polls, w.hand);
      assert RowInv(s.journal, c.id, s.journal.rows[c.id]);
      AnswerNames(w, CompletionEvent(w.hand.completion));
    } else {
      AnswerNames(w, FailedEvent(w.hand.item.command.Receipt(), w.hand.error));
    }
  }

  /** A step that leaves lanes, slots and events alone, and the hand with its
      item or free. */
  ghost predicate SamePlaces(w: WorkerValue, w': WorkerValue) {
    && w'.accepted == w.accepted && w'.entries == w.entries && w'.controls == w.controls && w'.sent == w.sent
    && w'.parkedEntry == w.parkedEntry && w'.parkedControl == w.parkedControl
    && (Held(w'.hand) == Held(w.hand) || w'.hand.Free?)
  }

  lemma SameNames(w: WorkerValue, w': WorkerValue)
    requires Names(w) && SamePlaces(w, w')
    ensures Names(w')
  {
  }

  lemma DeferNames(s: State, w: WorkerValue)
    requires Names(w) && w.hand.Unpolled?
    ensures NamesInv(AfterDefer(s, w))
  {
    var s' := AfterDefer(s, w);
    assert s'.worker.Some? ==> s'.worker.value == Parked(w, w.hand.item) || SamePlaces(w, s'.worker.value);
  }

  lemma DispatchPlaces(s: State, w: WorkerValue, at: int)
    requires CanWork(w, Dispatch(at))
    ensures AfterWork(s, w, Dispatch(at)).worker.Some? ==> SamePlaces(w, AfterWork(s, w, Dispatch(at)).worker.value)
  {
  }

  lemma ConcludePlaces(s: State, w: WorkerValue, now: int)
    requires CanWork(w, Conclude(now))
    ensures AfterWork(s, w, Conclude(now)).worker.Some? ==> SamePlaces(w, AfterWork(s, w, Conclude(now)).worker.value)
  {
  }

  lemma ConfirmPlaces(s: State, w: WorkerValue, order: Order, now: int)
    requires CanConfirm(w)
    ensures AfterConfirm(s, w, order, now).worker.Some? ==> SamePlaces(w, AfterConfirm(s, w, order, now).worker.value)
  {
  }

  lemma MovePlaces(s: State, w: WorkerValue, step: HandStep)
    requires s.worker == Some(w) && CanWork(w, step) && !(step.Park? || step.Defer? || step.Deliver?)
    ensures AfterWork(s, w, step).worker.Some? ==> SamePlaces(w, AfterWork(s, w, step).worker.value)
  {
    if step.Dispatch? {
      DispatchPlaces(s, w, step.at);
    } else if step.Conclude? {
      ConcludePlaces(s, w, step.now);
    } else if step.ConfirmSubmission? {
      ConfirmPlaces(s, w, step.order, step.now);
    }
  }

  lemma WorkNames(s: State, w: WorkerValue, step: HandStep)
    requires Inv(s) && s.worker == Some(w) && CanWork(w, step) && Names(w)
    ensures NamesInv(AfterWork(s, w, step))
  {
    if step.Park? {
      ParkNames(w, step.takeControl);
    } else if step.Defer? {
      DeferNames(s, w);
    } else if step.Deliver? {
      DeliverNames(s, w);
    } else {
      MovePlaces(s, w, step);
      var s' := AfterWork(s, w, step);
      if s'.worker.Some? { SameNames(w, s'.worker.value); }
    }
  }

  lemma TimerNames(s: State, w: WorkerValue, c: BrokerCommand, order: Order, now: int)
    requires Names(w)
    ensures NamesInv(AfterTimerConfirm(s, w, c, order, now))
  {
  }

  lemma ReschedulingNames(w: WorkerValue, rows: Rows, k: nat, resolution: Resolution, later: int)
    requires Names(w) && k < |w.reconciliations|
    ensures Names(Rescheduling(w, rows, k, resolution, later))
  {
  }

  lemma ReconcileNames(s: State, w: WorkerValue, k: nat, resolution: Resolution, later: int)
    requires Names(w) && k < |w.reconciliations|
    ensures NamesInv(AfterReconcile(s, w, k, resolution, later))
  {
    ReschedulingNames(w, s.journal.rows, k, resolution, later);
    if resolution.Confirmed? {
      TimerNames(s, w.(reconciliations := Without(w.reconciliations, k)), w.reconciliations[k].command,
                 resolution.order, later);
    }
  }

  /** Every step keeps each ticket with its command, and answers it in its name. */
  lemma StepNames(s: State, step: Step)
    requires Inv(s) && NamesInv(s) && Enabled(s, step)
    ensures NamesInv(Apply(s, step))
  {
    match step
    case Enqueue(c, _, queuedAt) => AcceptNames(s.worker.value, c, queuedAt);
    case Take(source) => TakeNames(s.worker.value, source);
    case ReconcileDue(now, resolution, later) =>
      ReconcileNames(s, s.worker.value, NextDue(s.worker.value.reconciliations, now).value, resolution, later);
    case Work(handStep) => WorkNames(s, s.worker.value, handStep);
    case _ =>
  }
}
