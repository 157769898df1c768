/** The worker's loop on the object: whatever the world answers, the object's
    history is a run of the step system, each command taken is soon let go of,
    and what every run keeps holds of the object. */
module CommandLoop {
  import opened Basics
  import opened Commands
  import opened JournalSpec
  import opened WorkerSpec
  import opened WorkerInvariant
  import opened WorkerRuns
  import opened WorkerEvidence
  import opened WorkerPaths
  import opened CommandWorker

  // ----- work on the command in hand always gets on -----

  ghost function Stage(h: Hand): nat {
    match h
    case Free => 0
    case Delivering(_, _) => 1
    case Failing(_, _) => 1
    case Settled(_, _) => 2
    case Concluded(_, _, _, _, _) => 3
    case InFlight(_, _, _, _) => 4
    case Unpolled(_, _, _, _, _, _) => 4
    case Dispatched(_, _, _, _) => 5
    case Admitting(_, _, _) => 6
    case Replaying(_, _, _) => 7
    case Taken(_) => 8
  }

  ghost predicate Confirmable(h: Hand) {
    (h.Replaying? || h.Settled?) && h.completion.outcome.Ambiguous? && h.item.command.action.Submit?
  }

  /** Steps the command in hand is still away from being let go of, at most. */
  ghost function Distance(h: Hand): nat { 2 * Stage(h) + if Confirmable(h) then 1 else 0 }

  ghost predicate GetsOn(w: WorkerValue, worker: Option<WorkerValue>) {
    worker.Some? ==> Distance(worker.value.hand) < Distance(w.hand)
  }

  lemma ConfirmAnswers(j: JournalValue, c: BrokerCommand, order: Order, now: int)
    ensures var r := ConfirmAmbiguousSubmission(j, c, order, now).result;
            r.Ok? ==> r.value.outcome == OrderResponse(order)
  {
  }

  lemma ConfirmedGetsOn(w: WorkerValue, r: Result<BrokerCommandCompletion, BrokerCommandError>)
    requires CanConfirm(w) && (r.Ok? ==> r.value.outcome.OrderResponse?)
    ensures r.Ok? ==> Distance(ConfirmedHand(w.hand, r.value)) < Distance(w.hand)
  {
  }

  lemma ConfirmGetsOn(s: State, w: WorkerValue, order: Order, now: int)
    requires CanConfirm(w)
    ensures GetsOn(w, AfterConfirm(s, w, order, now).worker)
  {
    ConfirmAnswers(s.journal, w.hand.item.command, order, now);
    ConfirmedGetsOn(w, ConfirmAmbiguousSubmission(s.journal, w.hand.item.command, order, now).result);
  }

  lemma ClaimGetsOn(w: WorkerValue, at: int, r: Result<Option<nat>, BrokerCommandError>)
    requires w.hand.Admitting?
    ensures GetsOn(w, ClaimAnswered(w, at, r))
  {
  }

  lemma DispatchGetsOn(s: State, w: WorkerValue, at: int)
    requires CanWork(w, Dispatch(at))
    ensures GetsOn(w, AfterWork(s, w, Dispatch(at)).worker)
  {
    if w.hand.proof.Some? {
      ClaimGetsOn(w, at, BeginCancellationRecovery(s.journal, w.hand.item.command, w.hand.proof.value, at).result);
    }
  }

  lemma DeferGetsOn(s: State, w: WorkerValue)
    requires w.hand.Unpolled?
    ensures GetsOn(w, AfterDefer(s, w).worker)
  {
  }

  lemma CompletedGetsOn(h: Hand, completion: BrokerCommandCompletion)
    requires h.Concluded?
    ensures Distance(Settled(h.item, completion)) < Distance(h)
  {
  }

  lemma CompleteGetsOn(s: State, w: WorkerValue, now: int)
    requires w.hand.Concluded? && w.hand.attempt.None?
    ensures GetsOn(w, AfterComplete(s, w, now).worker)
  {
    CompletedGetsOn(w.hand, CompletionOf(w.hand, now));
  }

  lemma RetryGetsOn(w: WorkerValue, r: Result<Option<BrokerCommandCompletion>, BrokerCommandError>)
    requires w.hand.Concluded?
    ensures GetsOn(w, RetryAnswered(w, r))
  {
  }

  lemma ConcludeGetsOn(s: State, w: WorkerValue, now: int)
    requires CanWork(w, Conclude(now))
    ensures GetsOn(w, AfterWork(s, w, Conclude(now)).worker)
  {
    if w.hand.attempt.None? {
      CompleteGetsOn(s, w, now);
    } else {
      RetryGetsOn(w, FinishCancellationRecovery(s.journal, w.hand.item.command, w.hand.attempt.value,
                                                CompletionOf(w.hand, now)).result);
    }
  }

  lemma EarlyGetsOn(s: State, w: WorkerValue, step: HandStep)
    requires CanWork(w, step) && (step.PrepareTaken? || step.ProvePending? || step.Judge? || step.Park?)
    ensures GetsOn(w, AfterWork(s, w, step).worker)
  {
  }

  /** No work on the command in hand goes in a circle. */
  lemma WorkGetsOn(s: State, w: WorkerValue, step: HandStep)
    requires CanWork(w, step)
    ensures GetsOn(w, AfterWork(s, w, step).worker)
  {
    if step.PrepareTaken? || step.ProvePending? || step.Judge? || step.Park? {
      EarlyGetsOn(s, w, step);
    } else if step.ConfirmSubmission? {
      ConfirmGetsOn(s, w, step.order, step.now);
    } else if step.Dispatch? {
      DispatchGetsOn(s, w, step.at);
    } else if step.Defer? {
      DeferGetsOn(s, w);
    } else if step.Conclude? {
      ConcludeGetsOn(s, w, step.now);
    }
  }

  // ----- the world of one turn -----

  /** Whether the account's snapshot and lane let a command through. */
  datatype Account = Ready | Waiting(preempted: bool) | Changed

  /** What clock, broker, account and owner answer in one turn of the loop, and
      what the owner and its requests do before it. */
  datatype Turn = Turn(
    meanwhile: seq<Step>, now: int, later: int, accountReady: bool, entryReady: bool, resolution: Resolution,
    confirmed: Option<Order>, proof: Option<OrderReading>, refusal: Option<string>, account: Account,
    verdict: Verdict, outcome: BrokerCommandOutcome)

  predicate Background(step: Step) { step.Enqueue? || step.Gatekeep? || step.Serve? }

  lemma BackgroundKeepsHand(s: State, step: Step)
    requires Background(step) && Enabled(s, step)
    ensures Apply(s, step).worker.Some? && Apply(s, step).worker.value.hand == s.worker.value.hand
  {
  }

  // ----- histories -----

  /** What is known of the steps taken so far and the state they led to. */
  type History = (seq<Step>, State) -> bool

  ghost predicate Extends(led: History, steps: seq<Step>, s: State, step: Step)
    requires Enabled(s, step)
  {
    led(steps, s) ==> led(steps + [step], Apply(s, step))
  }

  /** Knowledge that every step carries on. */
  ghost predicate Inductive(led: History) {
    forall steps, s, step {:trigger Extends(led, steps, s, step)} :: Enabled(s, step) ==> Extends(led, steps, s, step)
  }

  method TakeStep(w: BrokerCommandWorker, step: Step, ghost led: History, ghost steps: seq<Step>)
    returns (ghost more: seq<Step>)
    requires Inductive(led) && led(steps, w.Model()) && w.Own(step) && Enabled(w.Model(), step)
    modifies w, w.journal
    ensures more == steps + [step] && led(more, w.Model()) && w.Model() == Apply(old(w.Model()), step)
  {
    assert Extends(led, steps, w.Model(), step);
    w.Perform(step);
    more := steps + [step];
  }

  /** What others do at a suspension point; the hand is not theirs. */
  method Meanwhile(w: BrokerCommandWorker, others: seq<Step>, ghost led: History, ghost steps: seq<Step>)
    returns (ghost more: seq<Step>)
    requires Inductive(led) && led(steps, w.Model()) && w.alive
    modifies w, w.journal
    ensures steps <= more && led(more, w.Model()) && w.alive && w.hand == old(w.hand)
  {
    more := steps;
    for i := 0 to |others|
      invariant steps <= more && led(more, w.Model()) && w.alive && w.hand == old(w.hand)
    {
      var may := IsBackground(w, others[i]);
      if may {
        BackgroundKeepsHand(w.Model(), others[i]);
        more := TakeStep(w, others[i], led, more);
      }
    }
  }

  method IsBackground(w: BrokerCommandWorker, step: Step) returns (may: bool)
    requires w.alive
    ensures may <==> Background(step) && Enabled(w.Model(), step)
  {
    if step.Serve? {
      match step.request
      case Checkpoint(intents, _) => return WellFormedIntents(intents);
      case CompleteStop(_) => return true;
      case PersistStop => return w.stopRequested;
    }
    return step.Enqueue? || step.Gatekeep?;
  }

  // ----- the loop -----

  /** The judgement, the wait or the dispatch of an admitted command. */
  method NextAdmission(w: BrokerCommandWorker, t: Turn) returns (step: HandStep)
    requires w.alive && w.hand.Admitting?
    ensures CanWork(w.Worker(), step)
    ensures step.Judge? <==>
              || w.hand.record.state == Dispatching || Refuses(w.Worker(), w.hand.item.command, t.now)
              || (t.refusal.Some? && w.hand.item.command.action.Submit?)
    ensures step.AccountChanged? <==> !step.Judge? && t.account.Changed? && w.snapshots
    ensures step.Park? <==> !step.Judge? && t.account.Waiting?
    ensures !step.Judge? && !step.AccountChanged? && !step.Park? ==> step == Dispatch(t.now)
  {
    var judgement := w.Decide(t.now, t.refusal);
    if judgement.Some? { return Judge(judgement.value); }
    if t.account.Changed? && w.snapshots { return AccountChanged; }
    if t.account.Waiting? {
      return Park(t.account.preempted && !w.hand.item.command.action.IsTeardown() && w.parkedControl.None?
                  && w.controls != []);
    }
    return Dispatch(t.now);
  }

  /** What a durable result is good for: the broker's receipt may settle it, a
      pending order may be cancelled again, else it is published. */
  method NextAnswer(w: BrokerCommandWorker, t: Turn) returns (step: HandStep)
    requires w.alive && (w.hand.Replaying? || w.hand.Settled?)
    ensures CanWork(w.Worker(), step)
    ensures var lost := w.hand.completion.outcome.Ambiguous? && w.hand.item.command.action.Submit?;
            step == if lost && t.confirmed.Some? then ConfirmSubmission(t.confirmed.value, t.now)
                    else if t.proof.Some? && CanProvePending(w.Worker(), t.proof.value) then ProvePending(t.proof.value)
                    else Publish(t.now)
  {
    if t.confirmed.Some? && w.hand.completion.outcome.Ambiguous? && w.hand.item.command.action.Submit? {
      return ConfirmSubmission(t.confirmed.value, t.now);
    }
    if t.proof.Some? {
      var again := w.MayRetry(t.proof.value);
      if again { return ProvePending(t.proof.value); }
    }
    return Publish(t.now);
  }

  /** The first poll, or what the transport answered; an answer the adapter cannot
      give counts as none. */
  method NextTransport(w: BrokerCommandWorker, t: Turn) returns (step: HandStep)
    requires w.alive && (w.hand.Dispatched? || w.hand.InFlight?)
    ensures CanWork(w.Worker(), step)
    ensures w.hand.Dispatched? && (t.verdict.PollNow? || !w.snapshots) ==> step == FirstPoll(t.now, PollNow)
    ensures w.hand.Dispatched? && w.snapshots && (t.verdict.Unavailable? || w.hand.item.command.action.Submit?) ==>
              step == FirstPoll(t.now, t.verdict)
    ensures w.hand.InFlight? && w.hand.attempt.None? && MayAnswer(w.hand.item.command, t.outcome) ==>
              step == Finish(t.outcome)
    ensures w.hand.InFlight? ==> step == Finish(t.outcome) || (step.Finish? && step.outcome.Ambiguous?)
  {
    var action := w.hand.item.command.action;
    if w.hand.Dispatched? {
      var heard := if t.verdict.Refuse? then w.snapshots && action.Submit? else t.verdict.PollNow? || w.snapshots;
      return FirstPoll(t.now, if heard then t.verdict else PollNow);
    }
    var fits := TransportOutcome(action, w.hand.attempt.Some?, t.outcome);
    return Finish(if fits then t.outcome else Ambiguous("broker mutation timed out; reconciliation is required"));
  }

  /** The loop's next piece of work on the command in hand. */
  method NextWork(w: BrokerCommandWorker, t: Turn) returns (step: HandStep)
    requires w.alive && !w.hand.Free?
    ensures CanWork(w.Worker(), step)
  {
    if w.hand.Taken? {
      step := PrepareTaken;
    } else if w.hand.Replaying? || w.hand.Settled? {
      step := NextAnswer(w, t);
    } else if w.hand.Admitting? {
      step := NextAdmission(w, t);
    } else if w.hand.Dispatched? || w.hand.InFlight? {
      step := NextTransport(w, t);
    } else if w.hand.Unpolled? {
      step := Defer;
    } else if w.hand.Concluded? {
      step := Conclude(t.now);
    } else {
      step := Deliver;
    }
  }

  /** One piece of work brings the command in hand nearer to its end. */
  method WorkOn(w: BrokerCommandWorker, t: Turn, ghost led: History, ghost steps: seq<Step>)
    returns (ghost more: seq<Step>)
    requires Inductive(led) && led(steps, w.Model()) && w.alive && !w.hand.Free?
    modifies w, w.journal
    ensures steps <= more && led(more, w.Model())
    ensures w.alive ==> Distance(w.hand) < Distance(old(w.hand))
  {
    var step := NextWork(w, t);
    WorkGetsOn(w.Model(), w.Worker(), step);
    more := TakeStep(w, Work(step), led, steps);
  }

  /** Drives the command in hand until it is delivered, parked or dropped, or the
      worker has ended, in at most sixteen turns, whatever happens meanwhile. */
  method DriveCommand(w: BrokerCommandWorker, world: nat -> Turn, start: nat, ghost led: History, ghost steps: seq<Step>)
    returns (turn: nat, ghost more: seq<Step>)
    requires Inductive(led) && led(steps, w.Model()) && w.alive
    modifies w, w.journal
    ensures steps <= more && led(more, w.Model()) && (w.alive ==> w.hand.Free?)
    ensures start <= turn <= start + 16
  {
    turn, more := start, steps;
    while w.alive && !w.hand.Free?
      invariant steps <= more && led(more, w.Model())
      invariant start <= turn <= start + 16 && (w.alive ==> turn + Distance(w.hand) <= start + 16)
      decreases if w.alive then Distance(w.hand) + 1 else 0
    {
      var t := world(turn);
      more := Meanwhile(w, t.meanwhile, led, more);
      more := WorkOn(w, t, led, more);
      turn := turn + 1;
    }
  }

  /** With a free hand: leave when the owner has, else clean-up, a due look-up, or
      an entry, in this order. */
  method NextTask(w: BrokerCommandWorker, t: Turn) returns (step: Option<Step>)
    requires w.alive && w.hand.Free?
    ensures step.Some? ==> w.Own(step.value) && Enabled(w.Model(), step.value)
    ensures !w.receiverOpen ==> step == Some(Exit)
    ensures w.receiverOpen ==>
              var due := NextDue(w.reconciliations, t.now).Some?;
              if w.parkedControl.Some? && t.accountReady then step == Some(Take(ParkedControl))
              else if w.parkedControl.None? && w.controls != [] then step == Some(Take(ControlLane))
              else if due then step == Some(ReconcileDue(t.now, t.resolution, t.later))
              else if w.parkedEntry.Some? && t.entryReady then step == Some(Take(ParkedEntry))
              else if w.parkedEntry.None? && w.entries != [] then step == Some(Take(EntryLane))
              else step == None
  {
    if !w.receiverOpen { return Some(Exit); }
    var source := w.Choose(t.accountReady, t.entryReady);
    if source == Some(ParkedControl) || source == Some(ControlLane) { return Some(Take(source.value)); }
    var due := w.FindDue(t.now);
    if due.Some? { return Some(ReconcileDue(t.now, t.resolution, t.later)); }
    return if source.Some? then Some(Take(source.value)) else None;
  }

  method RunCommand(w: BrokerCommandWorker, world: nat -> Turn, start: nat, ghost led: History, ghost steps: seq<Step>)
    returns (turn: nat, ghost more: seq<Step>)
    requires Inductive(led) && led(steps, w.Model()) && w.alive && w.hand.Free?
    modifies w, w.journal
    ensures steps <= more && led(more, w.Model()) && (w.alive ==> w.hand.Free?) && start < turn
  {
    var t := world(start);
    more := Meanwhile(w, t.meanwhile, led, steps);
    var step := NextTask(w, t);
    turn := start + 1;
    if step.Some? {
      more := TakeStep(w, step.value, led, more);
      if w.alive { turn, more := DriveCommand(w, world, turn, led, more); }
    }
  }

  /** The loop for any number of commands. */
  method RunLoop(w: BrokerCommandWorker, world: nat -> Turn, commands: nat, ghost led: History)
    returns (ghost steps: seq<Step>)
    requires Inductive(led) && led([], w.Model()) && w.alive && w.hand.Free?
    modifies w, w.journal
    ensures led(steps, w.Model()) && (w.alive ==> w.hand.Free?)
  {
    var turn := 0;
    steps := [];
    for i := 0 to commands
      invariant led(steps, w.Model()) && (w.alive ==> w.hand.Free?)
    {
      if !w.alive { return; }
      turn, steps := RunCommand(w, world, turn, led, steps);
    }
  }

  // ----- what holds of the object -----

  ghost function RunFrom(s: State): History {
    (steps, t) => Runs(s, steps) && Exec(s, steps) == t
  }

  lemma RunFromIsInductive(s: State)
    ensures Inductive(RunFrom(s))
  {
    forall steps, t, step | Enabled(t, step) ensures Extends(RunFrom(s), steps, t, step) {
      if Runs(s, steps) && Exec(s, steps) == t { RunThenStep(s, steps, step); }
    }
  }

  lemma RunFromStarts(s: State)
    ensures RunFrom(s)([], s)
  {
  }

  ghost predicate OnceEach(polls: seq<Poll>) {
    forall i, k :: 0 <= i < k < |polls| && polls[i].command.id == polls[k].command.id ==>
      polls[k].retry && polls[k].command.action.Cancel?
  }

  lemma SafePolls(s: State)
    requires Inv(s)
    ensures OnceEach(s.polls)
  {
    assert forall i :: 0 <= i < |s.polls| ==> PollInv(s.journal.rows, s.polls[i]);
  }

  /** However many commands the object works through, and whatever the world does,
      its history is a run: it stays safe, durable evidence only sharpens, no
      identity reaches the transport twice, and once entries are stopped it polls
      no submission. */
  method RunWorker(w: BrokerCommandWorker, world: nat -> Turn, commands: nat) returns (ghost steps: seq<Step>)
    requires Safe(w.Model()) && w.alive && w.hand.Free?
    modifies w, w.journal
    ensures Runs(old(w.Model()), steps) && Exec(old(w.Model()), steps) == w.Model()
    ensures Safe(w.Model()) && TableStep(old(w.journal.Value()), w.journal.Value())
    ensures OnceEach(w.polls)
    ensures old(w.stopped) ==>
              forall i :: |old(w.polls)| <= i < |w.polls| && w.polls[i].life == w.life ==>
                !w.polls[i].command.action.Submit?
  {
    ghost var s, stopped := w.Model(), w.stopped;
    RunFromIsInductive(s);
    RunFromStarts(s);
    steps := RunLoop(w, world, commands, RunFrom(s));
    RunSharpens(s, steps);
    SafePolls(w.Model());
    if stopped { GateLinearises(s, steps, w.life, StopBarrier); }
  }
}
