/** A slot for at most one background attempt and the lock that shutdowns take in
    turn, as a step system. A step is one stretch under the slot's own lock, or
    one suspension point of a shutdown. */
module RecoverySpec {
  import opened Basics

  /** How far a shutdown has come: waiting for the drain lock, holding it, or
      polling the slot after its second close. */
  datatype Phase = Waiting | Holding | Draining

  /** Tasks are numbered in the order they were spawned. */
  datatype Slot = Slot(
    enabled: bool, task: Option<nat>, drain: Option<nat>, shutdowns: map<nat, Phase>,
    spawned: nat, finished: set<nat>, aborted: set<nat>)

  datatype Step =
    | Enable | Schedule | Close
    | StartShutdown(caller: nat) | Acquire(caller: nat) | Reclose(caller: nat) | PollDrain(caller: nat)
    | CancelShutdown(caller: nat)
    | TaskEnds(t: nat)

  const FRESH := Slot(false, None, None, map[], 0, {}, {})

  predicate Busy(s: Slot) { s.task.Some? && s.task.value !in s.finished }

  predicate MayEnable(s: Slot) { s.drain.None? && !Busy(s) }

  predicate MaySchedule(s: Slot) { s.enabled && !Busy(s) }

  function Closed(s: Slot): Slot {
    s.(enabled := false, aborted := if s.task.Some? then s.aborted + {s.task.value} else s.aborted)
  }

  /** An attempt that ended, or an empty slot, lets a draining shutdown return. */
  predicate Drained(s: Slot) { !Busy(s) }

  predicate Enabled(s: Slot, step: Step) {
    match step
    case Enable => true
    case Schedule => true
    case Close => true
    case StartShutdown(c) => c !in s.shutdowns
    case Acquire(c) => c in s.shutdowns && s.shutdowns[c] == Waiting && s.drain.None?
    case Reclose(c) => c in s.shutdowns && s.shutdowns[c] == Holding
    case PollDrain(c) => c in s.shutdowns && s.shutdowns[c] == Draining
    case CancelShutdown(c) => c in s.shutdowns
    case TaskEnds(t) => t < s.spawned && t !in s.finished
  }

  function Released(s: Slot, c: nat): Slot {
    s.(shutdowns := s.shutdowns - {c}, drain := if s.drain == Some(c) then None else s.drain)
  }

  function Apply(s: Slot, step: Step): Slot
    requires Enabled(s, step)
  {
    match step
    case Enable => if MayEnable(s) then s.(enabled := true, task := None) else s
    case Schedule => if MaySchedule(s) then s.(task := Some(s.spawned), spawned := s.spawned + 1) else s
    case Close => Closed(s)
    case StartShutdown(c) => Closed(s).(shutdowns := s.shutdowns[c := Waiting])
    case Acquire(c) => s.(drain := Some(c), shutdowns := s.shutdowns[c := Holding])
    case Reclose(c) => Closed(s).(shutdowns := s.shutdowns[c := Draining])
    case PollDrain(c) => if Drained(s) then Released(s, c).(task := None) else s
    case CancelShutdown(c) => Released(s, c)
    case TaskEnds(t) => s.(finished := s.finished + {t})
  }

  // ----- what every reachable slot satisfies -----

  ghost predicate Owned(s: Slot, t: nat) {
    t in s.finished || s.task == Some(t)
  }

  /** Every unfinished task is the one in the slot; the drain lock has the one
      owner that took it; a draining shutdown found the slot closed; and a
      closed slot has told its task to stop. */
  ghost predicate Inv(s: Slot) {
    && (forall t :: 0 <= t < s.spawned ==> Owned(s, t))
    && (s.task.Some? ==> s.task.value < s.spawned)
    && (forall t :: t in s.finished ==> t < s.spawned)
    && (forall c :: c in s.shutdowns ==> (s.shutdowns[c] != Waiting <==> s.drain == Some(c)))
    && (s.drain.Some? ==> s.drain.value in s.shutdowns)
    && (forall c :: c in s.shutdowns && s.shutdowns[c] == Draining ==> !s.enabled)
    && (!s.enabled && s.task.Some? ==> s.task.value in s.aborted)
  }

  lemma StepKeeps(s: Slot, step: Step)
    requires Inv(s) && Enabled(s, step)
    ensures Inv(Apply(s, step))
  {
    var s' := Apply(s, step);
    forall t | 0 <= t < s'.spawned ensures Owned(s', t) { assert t < s.spawned ==> Owned(s, t); }
  }

  lemma IdleMeansFinished(s: Slot)
    requires Inv(s) && !Busy(s)
    ensures forall t :: 0 <= t < s.spawned ==> t in s.finished
  {
    forall t | 0 <= t < s.spawned ensures t in s.finished { assert Owned(s, t); }
  }

  ghost predicate Runs(s: Slot, steps: seq<Step>)
    decreases |steps|
  {
    steps == [] || (Enabled(s, steps[0]) && Runs(Apply(s, steps[0]), steps[1..]))
  }

  ghost function Exec(s: Slot, steps: seq<Step>): Slot
    requires Runs(s, steps)
    decreases |steps|
  {
    if steps == [] then s else Exec(Apply(s, steps[0]), steps[1..])
  }

  lemma {:induction false} RunKeeps(s: Slot, steps: seq<Step>)
    requires Inv(s) && Runs(s, steps)
    ensures Inv(Exec(s, steps))
    decreases |steps|
  {
    if steps != [] {
      StepKeeps(s, steps[0]);
      RunKeeps(Apply(s, steps[0]), steps[1..]);
    }
  }

  /** Under every interleaving at most one scheduled task is unfinished, and it
      is the one in the slot. */
  lemma AtMostOneUnfinished(steps: seq<Step>, t: nat, u: nat)
    requires Runs(FRESH, steps)
    requires t < Exec(FRESH, steps).spawned && t !in Exec(FRESH, steps).finished
    requires u < Exec(FRESH, steps).spawned && u !in Exec(FRESH, steps).finished
    ensures t == u && Exec(FRESH, steps).task == Some(t)
  {
    RunKeeps(FRESH, steps);
    assert Owned(Exec(FRESH, steps), t) && Owned(Exec(FRESH, steps), u);
  }

  /** A shutdown that finishes draining leaves the slot empty and disabled, with
      every task ever spawned finished. */
  lemma DrainedSlotIsEmpty(s: Slot, c: nat)
    requires Inv(s) && Enabled(s, PollDrain(c)) && c !in Apply(s, PollDrain(c)).shutdowns
    ensures var s' := Apply(s, PollDrain(c));
            && s'.task.None? && !s'.enabled && s'.drain.None?
            && forall t :: 0 <= t < s'.spawned ==> t in s'.finished
  {
    IdleMeansFinished(s);
  }

  /** Abandoning a shutdown detaches nothing: its attempt stays in the slot. */
  lemma CancelKeepsTask(s: Slot, c: nat)
    requires Inv(s) && c in s.shutdowns
    ensures var s' := Apply(s, CancelShutdown(c));
            s'.task == s.task && s'.finished == s.finished && s'.drain != Some(c)
            && (Busy(s) ==> !MayEnable(s'))
  {
  }

  // ----- what can happen while the drain lock is held -----

  ghost predicate HeldBy(s: Slot, c: nat) { s.drain == Some(c) && c in s.shutdowns }

  /** The run never lets go of the lock: `c` holds it in every state on the way. */
  ghost predicate HeldThroughout(s: Slot, steps: seq<Step>, c: nat)
    requires Runs(s, steps)
    decreases |steps|
  {
    HeldBy(s, c) && (steps == [] || HeldThroughout(Apply(s, steps[0]), steps[1..], c))
  }

  /** The holder gives the lock back by being dropped, or by a poll that finds
      its attempt ended; a pending poll keeps it. */
  lemma HoldEnds(s: Slot, step: Step, c: nat)
    requires Inv(s) && HeldBy(s, c) && Enabled(s, step)
    ensures HeldBy(Apply(s, step), c) <==> step != CancelShutdown(c) && !(step == PollDrain(c) && Drained(s))
  {
  }

  lemma HeldStep(s: Slot, step: Step, c: nat)
    requires Inv(s) && HeldBy(s, c) && !s.enabled && Enabled(s, step)
    ensures !Apply(s, step).enabled && Apply(s, step).spawned == s.spawned
  {
  }

  /** A slot closed under the drain lock spawns nothing until the holder lets
      go, whatever else runs, the holder's own pending polls included. */
  lemma {:induction false} ClosedHoldIsQuiet(s: Slot, steps: seq<Step>, c: nat)
    requires Inv(s) && !s.enabled && Runs(s, steps) && HeldThroughout(s, steps, c)
    ensures Exec(s, steps).spawned == s.spawned && !Exec(s, steps).enabled
    decreases |steps|
  {
    if steps != [] {
      HeldStep(s, steps[0], c);
      StepKeeps(s, steps[0]);
      ClosedHoldIsQuiet(Apply(s, steps[0]), steps[1..], c);
    }
  }

  /** A slot that was enabled again while the shutdown waited can still spawn
      under the held lock, before the second close. */
  lemma OpenHoldCanSpawn(s: Slot, c: nat) returns (steps: seq<Step>)
    requires Inv(s) && HeldBy(s, c) && s.enabled
    ensures Runs(s, steps) && HeldThroughout(s, steps, c) && Exec(s, steps).spawned == s.spawned + 1
  {
    if Busy(s) {
      steps := [TaskEnds(s.task.value), Schedule];
      var s1 := Apply(s, steps[0]);
      assert steps[1..] == [Schedule] && [Schedule][1..] == [];
      assert Runs(s1, [Schedule]) && HeldThroughout(s1, [Schedule], c);
      assert Exec(s1, [Schedule]) == Exec(Apply(s1, Schedule), []);
    } else {
      steps := [Schedule];
      assert steps[1..] == [];
      assert Exec(s, steps) == Exec(Apply(s, Schedule), []);
    }
  }

  /** Exactly when no task can appear for as long as the drain lock is held: the
      slot is disabled when the hold is looked at. */
  lemma QuietHoldIffClosed(s: Slot, c: nat)
    requires Inv(s) && HeldBy(s, c)
    ensures !s.enabled <==>
            forall steps :: Runs(s, steps) && HeldThroughout(s, steps, c) ==> Exec(s, steps).spawned == s.spawned
  {
    if s.enabled {
      var steps := OpenHoldCanSpawn(s, c);
    } else {
      forall steps | Runs(s, steps) && HeldThroughout(s, steps, c) ensures Exec(s, steps).spawned == s.spawned {
        ClosedHoldIsQuiet(s, steps, c);
      }
    }
  }

  /** Such a slot is reachable: a shutdown closes, the owner enables again, and
      only then does the shutdown get its lock. */
  lemma HeldLockStillSpawns() returns (steps: seq<Step>)
    ensures Runs(FRESH, steps) && HeldBy(Exec(FRESH, steps), 0) && Exec(FRESH, steps).spawned == 1
    ensures Busy(Exec(FRESH, steps))
  {
    steps := [StartShutdown(0), Enable, Acquire(0), Schedule];
    var s1 := Apply(FRESH, steps[0]);
    var s2 := Apply(s1, Enable);
    var s3 := Apply(s2, Acquire(0));
    assert steps[1..][1..][1..][1..] == [];
    assert Runs(s3, steps[3..]) && Exec(s3, steps[3..]) == Apply(s3, Schedule);
    assert steps[2..][1..] == steps[3..] && steps[1..][1..] == steps[2..];
  }
}

/** The slot as the object its callers share. */
module RecoveryTask {
  import opened Basics
  import opened RecoverySpec

  class RecoverySlot {
    var enabled: bool
    var task: Option<nat>
    var drain: Option<nat>
    var shutdowns: map<nat, Phase>
    var spawned: nat
    var finished: set<nat>
    var aborted: set<nat>

    ghost function Value(): Slot
      reads this
    {
      Slot(enabled, task, drain, shutdowns, spawned, finished, aborted)
    }

    constructor ()
      ensures Value() == FRESH && Inv(Value())
    {
      enabled, task, drain, shutdowns := false, None, None, map[];
      spawned, finished, aborted := 0, {}, {};
    }

    method EnableSlot() returns (ok: bool)
      requires Inv(Value())
      modifies this
      ensures Value() == Apply(old(Value()), Enable) && Inv(Value())
      ensures ok <==> old(MayEnable(Value()))
      ensures ok <==> old(drain) == None && forall t :: 0 <= t < spawned ==> t in finished
      ensures if ok then task == None else task == old(task) && enabled == old(enabled)
      ensures ok ==> enabled && forall t :: 0 <= t < spawned ==> t in finished
    {
      StepKeeps(Value(), Enable);
      if !Busy(Value()) { IdleMeansFinished(Value()); }
      if drain.Some? { return false; }
      if task.Some? && task.value !in finished { return false; }
      task, enabled := None, true;
      return true;
    }

    /** Coalesces: a second attempt is refused while the first is unfinished. */
    method ScheduleTask() returns (ok: bool)
      requires Inv(Value())
      modifies this
      ensures Value() == Apply(old(Value()), Schedule) && Inv(Value())
      ensures ok <==> old(MaySchedule(Value()))
      ensures ok <==> enabled && forall t :: 0 <= t < old(spawned) ==> t in finished
      ensures task == if ok then Some(old(spawned)) else old(task)
      ensures ok <==> spawned == old(spawned) + 1
    {
      StepKeeps(Value(), Schedule);
      if !Busy(Value()) { IdleMeansFinished(Value()); }
      if !enabled || (task.Some? && task.value !in finished) { return false; }
      task, spawned := Some(spawned), spawned + 1;
      return true;
    }

    method CloseSlot()
      requires Inv(Value())
      modifies this
      ensures Value() == Apply(old(Value()), Close) && Inv(Value())
      ensures !enabled && (task.Some? ==> task.value in aborted)
    {
      StepKeeps(Value(), Close);
      enabled := false;
      if task.Some? { aborted := aborted + {task.value}; }
    }

    /** First part of a shutdown, up to the wait for the drain lock. */
    method BeginShutdown(c: nat)
      requires Inv(Value()) && c !in shutdowns
      modifies this
      ensures Value() == Apply(old(Value()), StartShutdown(c)) && Inv(Value())
      ensures !enabled && task == old(task) && (task.Some? ==> task.value in aborted)
    {
      StepKeeps(Value(), StartShutdown(c));
      enabled := false;
      if task.Some? { aborted := aborted + {task.value}; }
      shutdowns := shutdowns[c := Waiting];
    }

    /** The second close, after the lock is ours. */
    method CloseAgain(c: nat)
      requires Inv(Value()) && c in shutdowns && shutdowns[c] == Holding
      modifies this
      ensures Value() == Apply(old(Value()), Reclose(c)) && Inv(Value()) && !enabled
      ensures task == old(task) && (task.Some? ==> task.value in aborted)
    {
      StepKeeps(Value(), Reclose(c));
      enabled := false;
      if task.Some? { aborted := aborted + {task.value}; }
      shutdowns := shutdowns[c := Draining];
    }

    /** One poll of the slot: ready once the attempt in it has ended. */
    method Poll(c: nat) returns (ready: bool)
      requires Inv(Value()) && c in shutdowns && shutdowns[c] == Draining
      modifies this
      ensures Value() == Apply(old(Value()), PollDrain(c)) && Inv(Value())
      ensures ready <==> c !in shutdowns
      ensures ready <==> forall t :: 0 <= t < spawned ==> t in finished
      ensures ready <==> drain == None
      ensures ready ==> task.None? && !enabled && forall t :: 0 <= t < spawned ==> t in finished
    {
      StepKeeps(Value(), PollDrain(c));
      if !Busy(Value()) { IdleMeansFinished(Value()); }
      if task.Some? && task.value !in finished { return false; }
      task := None;
      shutdowns := shutdowns - {c};
      drain := None;
      return true;
    }

    /** Dropping a shutdown future gives back the lock and nothing else. */
    method Abandon(c: nat)
      requires Inv(Value()) && c in shutdowns
      modifies this
      ensures Value() == Apply(old(Value()), CancelShutdown(c)) && Inv(Value()) && task == old(task)
      ensures enabled == old(enabled) && aborted == old(aborted) && shutdowns == old(shutdowns) - {c}
      ensures drain == if old(shutdowns[c]) == Waiting then old(drain) else None
    {
      StepKeeps(Value(), CancelShutdown(c));
      shutdowns := shutdowns - {c};
      if drain == Some(c) { drain := None; }
    }
  }
}
