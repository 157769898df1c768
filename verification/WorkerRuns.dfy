/** What the protocol promises over every run: any sequence of enabled steps,
    with crashes and restarts wherever they may fall. */
module WorkerRuns {
  import opened Basics
  import opened Commands
  import opened JournalSpec
  import opened JournalProofs
  import opened WorkerSpec
  import opened WorkerInvariant
  import opened WorkerSteps
  import opened WorkerConservation
  import opened WorkerTickets
  import opened WorkerBudget

  /** A journal just created for one strategy and account. */
  ghost function NewSystem(strategyId: string, accountId: string): State {
    State(JournalValue(strategyId, accountId, map[], map[], Running, 1), None, 0, [], [])
  }

  ghost predicate Runs(s: State, steps: seq<Step>)
    decreases |steps|
  {
    steps == [] || (Enabled(s, steps[0]) && Runs(Apply(s, steps[0]), steps[1..]))
  }

  ghost function Exec(s: State, steps: seq<Step>): State
    requires Runs(s, steps)
    decreases |steps|
  {
    if steps == [] then s else Exec(Apply(s, steps[0]), steps[1..])
  }

  ghost predicate Safe(s: State) {
    Inv(s) && ConservationInv(s) && NamesInv(s) && BudgetInv(s)
  }

  lemma NewSystemSafe(strategyId: string, accountId: string)
    ensures Safe(NewSystem(strategyId, accountId))
  {
  }

  lemma SafeStep(s: State, step: Step)
    requires Safe(s) && Enabled(s, step)
    ensures Safe(Apply(s, step)) && TableStep(s.journal, Apply(s, step).journal)
  {
    StepKeeps(s, step);
    StepConserves(s, step);
    StepNames(s, step);
    StepBudget(s, step);
  }

  /** Every run keeps the invariants, and durable evidence only sharpens: a row
      keeps its command, an absent result may become ambiguous or final, an
      ambiguous one final, and a final one never changes. */
  lemma {:induction false} RunSharpens(s: State, steps: seq<Step>)
    requires Safe(s) && Runs(s, steps)
    ensures Safe(Exec(s, steps)) && TableStep(s.journal, Exec(s, steps).journal)
    decreases |steps|
  {
    if steps == [] {
      SameTable(s.journal);
    } else {
      SafeStep(s, steps[0]);
      RunSharpens(Apply(s, steps[0]), steps[1..]);
      EvolvesTransitive(s.journal.rows, Apply(s, steps[0]).journal.rows, Exec(s, steps).journal.rows);
    }
  }

  lemma {:induction false} RunThenStep(s: State, steps: seq<Step>, step: Step)
    requires Runs(s, steps) && Enabled(Exec(s, steps), step)
    ensures Runs(s, steps + [step]) && Exec(s, steps + [step]) == Apply(Exec(s, steps), step)
    decreases |steps|
  {
    if steps == [] {
      assert [] + [step] == [step] && [step][1..] == [];
    } else {
      RunThenStep(Apply(s, steps[0]), steps[1..], step);
      assert (steps + [step])[1..] == steps[1..] + [step];
    }
  }

  lemma {:induction false} RunThenRun(s: State, a: seq<Step>, b: seq<Step>)
    requires Runs(s, a + b)
    ensures Runs(s, a) && Runs(Exec(s, a), b) && Exec(Exec(s, a), b) == Exec(s, a + b)
    decreases |a|
  {
    if a == [] {
      assert a + b == b;
    } else {
      assert (a + b)[1..] == a[1..] + b;
      RunThenRun(Apply(s, a[0]), a[1..], b);
    }
  }

  // ----- what one step may hand to the transport or the owner -----

  ghost predicate IsPoll(s: State, step: Step) {
    && step.Work? && step.handStep.FirstPoll? && step.handStep.verdict.PollNow?
    && s.worker.Some? && s.worker.value.hand.Dispatched?
    && !Gated(s.worker.value, s.worker.value.hand.item.command, step.handStep.now)
  }

  ghost function PollMade(s: State, step: Step): Poll
    requires IsPoll(s, step)
  {
    var w := s.worker.value;
    Poll(w.life, w.hand.item.command, w.hand.attempt.Some?, step.handStep.now)
  }

  lemma WorkPolls(s: State, w: WorkerValue, step: HandStep)
    requires s.worker == Some(w) && CanWork(w, step)
    ensures AfterWork(s, w, step).polls
            == if IsPoll(s, Work(step)) then s.polls + [PollMade(s, Work(step))] else s.polls
  {
  }

  lemma StepPolls(s: State, step: Step)
    requires Enabled(s, step)
    ensures Apply(s, step).polls == if IsPoll(s, step) then s.polls + [PollMade(s, step)] else s.polls
  {
    if step.Work? {
      WorkPolls(s, s.worker.value, step.handStep);
    }
  }

  /** Inside one life the gate only closes, except for the owner's own releases. */
  ghost predicate GateKept(w: WorkerValue, w': WorkerValue) {
    && w'.life == w.life
    && w'.gate.cancelled == w.gate.cancelled && w'.gate.deadlines == w.gate.deadlines
    && (w.gate.stopped ==> w'.gate.stopped)
  }

  lemma DispatchGate(s: State, w: WorkerValue, step: HandStep)
    requires s.worker == Some(w) && CanWork(w, step) && (step.Dispatch? || step.Defer?)
    ensures AfterWork(s, w, step).worker.Some? ==> GateKept(w, AfterWork(s, w, step).worker.value)
  {
  }

  lemma ResultGate(s: State, w: WorkerValue, step: HandStep)
    requires s.worker == Some(w) && CanWork(w, step)
    requires step.PrepareTaken? || step.ConfirmSubmission? || step.Conclude?
    ensures AfterWork(s, w, step).worker.Some? ==> GateKept(w, AfterWork(s, w, step).worker.value)
  {
  }

  lemma WorkGate(s: State, w: WorkerValue, step: HandStep)
    requires s.worker == Some(w) && CanWork(w, step)
    ensures AfterWork(s, w, step).worker.Some? ==> GateKept(w, AfterWork(s, w, step).worker.value)
  {
    if step.Dispatch? || step.Defer? {
      DispatchGate(s, w, step);
    } else if step.PrepareTaken? || step.ConfirmSubmission? || step.Conclude? {
      ResultGate(s, w, step);
    }
  }

  lemma WorkLives(s: State, w: WorkerValue, step: HandStep)
    requires s.worker == Some(w) && CanWork(w, step)
    ensures AfterWork(s, w, step).lives == s.lives
  {
  }

  lemma StepGate(s: State, w: WorkerValue, step: Step)
    requires s.worker == Some(w) && Enabled(s, step)
    ensures Apply(s, step).lives == s.lives
    ensures Apply(s, step).worker.Some? ==>
              var w' := Apply(s, step).worker.value;
              if step.Gatekeep? then w'.life == w.life && w'.gate == GateAfter(w.gate, step.gateStep)
              else GateKept(w, w')
  {
    if step.Work? {
      WorkGate(s, w, step.handStep);
      WorkLives(s, w, step.handStep);
    }
  }

  // ----- stop, cancel and deadline are linearised with the first poll -----

  datatype Barrier = StopBarrier | CancelBarrier(id: BrokerCommandId) | DeadlineBarrier(id: BrokerCommandId, at: int)

  ghost predicate Standing(g: EntryGate, b: Barrier) {
    match b
    case StopBarrier => g.stopped
    case CancelBarrier(id) => id in g.cancelled
    case DeadlineBarrier(id, at) => id in g.deadlines && g.deadlines[id] == at
  }

  /** The owner takes the barrier down; nothing takes a stop down. */
  ghost predicate Lifts(step: Step, b: Barrier) {
    && step.Gatekeep?
    && match b
       case StopBarrier => false
       case CancelBarrier(id) => step.gateStep == ReleaseEntryIdentity(id)
       case DeadlineBarrier(id, _) =>
         step.gateStep == ReleaseEntryIdentity(id) || (step.gateStep.SetEntryDeadline? && step.gateStep.id == id)
  }

  /** The polls a barrier must keep from the broker. */
  ghost predicate Bars(b: Barrier, p: Poll) {
    && p.command.action.Submit?
    && match b
       case StopBarrier => true
       case CancelBarrier(id) => p.command.id == id
       case DeadlineBarrier(id, at) => p.command.id == id && p.now >= at
  }

  /** The barrier stands for as long as that worker lives. */
  ghost predicate BarredLife(s: State, life: nat, b: Barrier) {
    life < s.lives && (s.worker.Some? && s.worker.value.life == life ==> Standing(s.worker.value.gate, b))
  }

  lemma BarredStep(s: State, step: Step, life: nat, b: Barrier)
    requires BarredLife(s, life, b) && Enabled(s, step) && !Lifts(step, b)
    ensures BarredLife(Apply(s, step), life, b)
    ensures IsPoll(s, step) && PollMade(s, step).life == life ==> !Bars(b, PollMade(s, step))
  {
    if s.worker.Some? {
      StepGate(s, s.worker.value, step);
    }
  }

  /** Once `stop_entries` (or a cancel, or a deadline) has returned, no first
      poll it forbids happens in that worker's life, whatever steps follow and
      however far a dispatch had come, until the owner itself releases the
      identity. */
  lemma {:induction false} GateLinearises(s: State, steps: seq<Step>, life: nat, b: Barrier)
    requires BarredLife(s, life, b) && Runs(s, steps)
    requires forall i :: 0 <= i < |steps| ==> !Lifts(steps[i], b)
    ensures s.polls <= Exec(s, steps).polls
    ensures forall i :: |s.polls| <= i < |Exec(s, steps).polls| && Exec(s, steps).polls[i].life == life ==>
              !Bars(b, Exec(s, steps).polls[i])
    decreases |steps|
  {
    if steps != [] {
      BarredStep(s, steps[0], life, b);
      StepPolls(s, steps[0]);
      GateLinearises(Apply(s, steps[0]), steps[1..], life, b);
    }
  }

  /** The barriers are raised by the owner's calls, at any moment. */
  lemma GateRaises(s: State, id: BrokerCommandId, at: int)
    requires Inv(s) && s.worker.Some?
    ensures BarredLife(Apply(s, Gatekeep(StopEntries)), s.worker.value.life, StopBarrier)
    ensures BarredLife(Apply(s, Gatekeep(CancelPendingEntry(id))), s.worker.value.life, CancelBarrier(id))
    ensures BarredLife(Apply(s, Gatekeep(SetEntryDeadline(id, Some(at)))), s.worker.value.life, DeadlineBarrier(id, at))
  {
    assert LivesInv(s.lives, s.polls, s.worker);
  }
}
