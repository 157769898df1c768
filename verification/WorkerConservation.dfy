/** No accepted command is lost or duplicated inside one worker's life. */
module WorkerConservation {
  import opened Basics
  import opened Commands
  import opened JournalSpec
  import opened WorkerSpec
  import opened WorkerInvariant

  /** One if the holder is ticket `t`, else zero. */
  ghost function Is(ticket: Option<nat>, t: nat): nat {
    if ticket == Some(t) then 1 else 0
  }

  ghost function InLane(items: seq<QueuedCommand>, t: nat): nat {
    if items == [] then 0 else Is(items[0].ticket, t) + InLane(items[1..], t)
  }

  ghost function InSlot(slot: Option<QueuedCommand>, t: nat): nat {
    if slot.Some? then Is(slot.value.ticket, t) else 0
  }

  ghost function InSent(sent: seq<SentEvent>, t: nat): nat {
    if sent == [] then 0 else InSent(sent[..|sent| - 1], t) + Is(sent[|sent| - 1].ticket, t)
  }

  ghost function InDropped(dropped: seq<nat>, t: nat): nat {
    if dropped == [] then 0
    else InDropped(dropped[..|dropped| - 1], t) + Is(Some(dropped[|dropped| - 1]), t)
  }

  /** Every accepted command waits in exactly one place (a lane, a parking slot
      or the hand), or was answered once, or was a retry that ended without
      news; a ticket not yet issued is nowhere. */
  ghost predicate TicketsInv(entries: seq<QueuedCommand>, controls: seq<QueuedCommand>,
                             parkedEntry: Option<QueuedCommand>, parkedControl: Option<QueuedCommand>,
                             held: Option<QueuedCommand>, sent: seq<SentEvent>, dropped: seq<nat>, accepted: nat) {
    forall t: nat ::
      InLane(entries, t) + InLane(controls, t) + InSlot(parkedEntry, t) + InSlot(parkedControl, t) + InSlot(held, t)
      + InSent(sent, t) + InDropped(dropped, t) == if t < accepted then 1 else 0
  }

  ghost predicate Conserves(w: WorkerValue) {
    TicketsInv(w.entries, w.controls, w.parkedEntry, w.parkedControl, Held(w.hand), w.sent, w.dropped, |w.accepted|)
  }

  ghost predicate ConservationInv(s: State) {
    s.worker.Some? ==> Conserves(s.worker.value)
  }

  lemma {:induction false} LaneAppend(items: seq<QueuedCommand>, item: QueuedCommand, t: nat)
    ensures InLane(items + [item], t) == InLane(items, t) + Is(item.ticket, t)
  {
    if items != [] {
      LaneAppend(items[1..], item, t);
      assert (items + [item])[1..] == items[1..] + [item];
    }
  }

  lemma SentAppend(sent: seq<SentEvent>, e: SentEvent)
    ensures forall t: nat :: InSent(sent + [e], t) == InSent(sent, t) + Is(e.ticket, t)
  {
    assert (sent + [e])[..|sent|] == sent;
  }

  lemma DroppedAppend(dropped: seq<nat>, d: nat)
    ensures forall t: nat :: InDropped(dropped + [d], t) == InDropped(dropped, t) + Is(Some(d), t)
  {
    assert (dropped + [d])[..|dropped|] == dropped;
  }

  lemma AcceptConserves(w: WorkerValue, c: BrokerCommand, queuedAt: int)
    requires Conserves(w)
    ensures Conserves(Accepted(w, c, queuedAt))
  {
    var item := QueuedCommand(c, queuedAt, Some(|w.accepted|));
    forall t: nat ensures InLane(w.entries + [item], t) == InLane(w.entries, t) + Is(item.ticket, t)
                          && InLane(w.controls + [item], t) == InLane(w.controls, t) + Is(item.ticket, t) {
      LaneAppend(w.entries, item, t);
      LaneAppend(w.controls, item, t);
    }
  }

  lemma TakeConserves(w: WorkerValue, source: Source)
    requires Conserves(w) && CanTake(w, source)
    ensures Conserves(Taking(w, source))
  {
  }

  /** Letting go of the hand into an empty slot loses nothing. */
  lemma ParkedConserves(w: WorkerValue)
    requires Conserves(w) && !w.hand.Free?
    requires if w.hand.item.command.action.IsTeardown() then w.parkedControl.None? else w.parkedEntry.None?
    ensures Conserves(Parked(w, w.hand.item))
  {
  }

  lemma ParkConserves(w: WorkerValue, takeControl: bool)
    requires Conserves(w) && CanPark(w, takeControl)
    requires if w.hand.item.command.action.IsTeardown() then w.parkedControl.None? else w.parkedEntry.None?
    ensures Conserves(Parking(w, takeControl))
  {
    if takeControl {
      var w1 := Closing(w).(parkedControl := Some(w.controls[0]), controls := w.controls[1..]);
      assert Conserves(w1);
      ParkedConserves(w1);
    } else {
      ParkedConserves(Closing(w));
    }
  }

  lemma DropConserves(w: WorkerValue)
    requires Conserves(w) && !w.hand.Free?
    ensures Conserves(Dropped(w, w.hand.item))
  {
    if w.hand.item.ticket.Some? {
      DroppedAppend(w.dropped, w.hand.item.ticket.value);
    }
  }

  lemma AnswerConserves(w: WorkerValue, event: WorkerEvent)
    requires Conserves(w) && !w.hand.Free?
    ensures Conserves(w.(hand := Free, sent := w.sent + [SentEvent(w.hand.item.ticket, event)]))
  {
    SentAppend(w.sent, SentEvent(w.hand.item.ticket, event));
  }

  lemma ClaimConserves(s: State, w: WorkerValue, at: int)
    requires Conserves(w) && w.hand.Admitting? && w.hand.proof.Some?
    ensures ConservationInv(AfterClaim(s, w, at))
  {
    DropConserves(Closing(w));
  }

  lemma DeferConserves(s: State, w: WorkerValue)
    requires Conserves(w) && w.hand.Unpolled?
    requires if w.hand.item.command.action.IsTeardown() then w.parkedControl.None? else w.parkedEntry.None?
    ensures ConservationInv(AfterDefer(s, w))
  {
    ParkedConserves(w);
  }

  lemma RetryConserves(s: State, w: WorkerValue, now: int)
    requires Conserves(w) && w.hand.Concluded? && w.hand.attempt.Some?
    ensures ConservationInv(AfterRetry(s, w, now))
  {
    DropConserves(w);
  }

  lemma DeliverConserves(s: State, w: WorkerValue)
    requires Conserves(w) && (w.hand.Delivering? || w.hand.Failing?)
    ensures ConservationInv(AfterDeliver(s, w))
  {
    if w.hand.Delivering? {
      AnswerConserves(w, CompletionEvent(w.hand.completion));
    } else {
      AnswerConserves(w, FailedEvent(w.hand.item.command.Receipt(), w.hand.error));
    }
  }

  lemma MoveConserves(s: State, w: WorkerValue, step: HandStep)
    requires s.worker == Some(w) && CanWork(w, step) && Conserves(w)
    requires !(step.Park? || step.Defer? || step.Deliver?)
    requires !((step.Dispatch? && w.hand.proof.Some?) || (step.Conclude? && w.hand.attempt.Some?))
    ensures ConservationInv(AfterWork(s, w, step))
  {
    var s' := AfterWork(s, w, step);
    if s'.worker.Some? {
      var w' := s'.worker.value;
      assert Held(w'.hand) == Held(w.hand);
    }
  }

  /** A step on the hand keeps every ticket where it can be found. */
  lemma WorkConserves(s: State, w: WorkerValue, step: HandStep)
    requires s.worker == Some(w) && CanWork(w, step) && Conserves(w)
    requires MayPark(w.hand) ==>
               if w.hand.item.command.action.IsTeardown() then w.parkedControl.None? else w.parkedEntry.None?
    ensures ConservationInv(AfterWork(s, w, step))
  {
    if step.Park? {
      ParkConserves(w, step.takeControl);
    } else if step.Defer? {
      DeferConserves(s, w);
    } else if step.Deliver? {
      DeliverConserves(s, w);
    } else if step.Dispatch? && w.hand.proof.Some? {
      ClaimConserves(s, w, step.at);
    } else if step.Conclude? && w.hand.attempt.Some? {
      RetryConserves(s, w, step.now);
    } else {
      MoveConserves(s, w, step);
    }
  }

  lemma ReschedulingConserves(w: WorkerValue, rows: Rows, k: nat, resolution: Resolution, later: int)
    requires Conserves(w) && k < |w.reconciliations|
    ensures Conserves(Rescheduling(w, rows, k, resolution, later))
  {
    var w' := Rescheduling(w, rows, k, resolution, later);
    assert forall t: nat :: InSlot(w'.parkedControl, t) == InSlot(w.parkedControl, t);
  }

  lemma TimerConfirmConserves(s: State, w: WorkerValue, c: BrokerCommand, order: Order, now: int)
    requires Conserves(w) && w.hand.Free?
    ensures ConservationInv(AfterTimerConfirm(s, w, c, order, now))
  {
    var s' := AfterTimerConfirm(s, w, c, order, now);
    if s'.worker.Some? {
      assert forall t: nat :: InSlot(Held(s'.worker.value.hand), t) == InSlot(Held(w.hand), t);
    }
  }

  lemma ReconcileConserves(s: State, w: WorkerValue, k: nat, resolution: Resolution, later: int)
    requires Conserves(w) && w.hand.Free? && k < |w.reconciliations|
    ensures ConservationInv(AfterReconcile(s, w, k, resolution, later))
  {
    ReschedulingConserves(w, s.journal.rows, k, resolution, later);
    if resolution.Confirmed? {
      var w1 := w.(reconciliations := Without(w.reconciliations, k));
      TimerConfirmConserves(s, w1, w.reconciliations[k].command, resolution.order, later);
    }
  }

  /** Conservation over every step of a safe state. */
  lemma StepConserves(s: State, step: Step)
    requires Inv(s) && ConservationInv(s) && Enabled(s, step)
    ensures ConservationInv(Apply(s, step))
  {
    match step
    case Enqueue(c, _, queuedAt) => AcceptConserves(s.worker.value, c, queuedAt);
    case Take(source) => TakeConserves(s.worker.value, source);
    case ReconcileDue(now, resolution, later) =>
      ReconcileConserves(s, s.worker.value, NextDue(s.worker.value.reconciliations, now).value, resolution, later);
    case Work(handStep) => WorkConserves(s, s.worker.value, handStep);
    case _ =>
  }

  ghost predicate EndsRetry(w: WorkerValue, step: Step) {
    && step.Work?
    && ((step.handStep.Dispatch? && w.hand.Admitting? && w.hand.proof.Some?)
        || (step.handStep.Conclude? && w.hand.Concluded? && w.hand.attempt.Some?))
  }

  lemma WorkDropsNothing(s: State, w: WorkerValue, step: HandStep)
    requires s.worker == Some(w) && CanWork(w, step) && !EndsRetry(w, Work(step))
    ensures AfterWork(s, w, step).worker.Some? ==> AfterWork(s, w, step).worker.value.dropped == w.dropped
  {
  }

  lemma StepDropsNothing(s: State, w: WorkerValue, step: Step)
    requires s.worker == Some(w) && Enabled(s, step) && !EndsRetry(w, step)
    ensures Apply(s, step).worker.Some? ==> Apply(s, step).worker.value.dropped == w.dropped
  {
    if step.Work? {
      WorkDropsNothing(s, w, step.handStep);
    }
  }

  lemma RetryHasResult(s: State, w: WorkerValue, step: Step)
    requires Inv(s) && s.worker == Some(w) && EndsRetry(w, step)
    ensures w.hand.record.completion.Some? && w.hand.item.command.action.Cancel?
  {
  }

  /** A command leaves the worker without an event only if its record already
      held a result when it was taken: the end of a guarded cancellation retry. */
  lemma OnlyRetriesDrop(s: State, w: WorkerValue, step: Step)
    requires Inv(s) && s.worker == Some(w) && Enabled(s, step) && Apply(s, step).worker.Some?
    ensures Apply(s, step).worker.value.dropped == w.dropped
            || (&& (w.hand.Admitting? || w.hand.Concluded?)
                && w.hand.record.completion.Some? && w.hand.item.command.action.Cancel?)
  {
    if EndsRetry(w, step) {
      RetryHasResult(s, w, step);
    } else {
      StepDropsNothing(s, w, step);
    }
  }
}
