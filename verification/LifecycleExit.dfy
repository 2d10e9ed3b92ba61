/**
 When shutdown completes: exactly while no connection worker has died without
 reporting its end.
 */
module LifecycleExit {
  import opened Basics
  import opened Lifecycle
  import opened LifecycleInvariant
  import opened LifecycleShutdown

  // --- a worker that died silently blocks for ever ---

  /** The actor waits for an `Ended(n)` that nobody is left to send. */
  predicate Orphaned(s: State, n: Attempt) {
    ActiveIs(s, n) && WorkerIs(s.workers, n, Crashed) && Ended(n) !in s.sh.queue
  }

  lemma CrashedIsOrphaned(s: State, n: Attempt)
    requires Inv(s) && WorkerIs(s.workers, n, Crashed)
    ensures Orphaned(s, n)
  {
  }

  lemma ActOrphaned(s: State, hasSession: bool, n: Attempt)
    requires Inv(s) && Orphaned(s, n) && ActEnabled(s)
    ensures Orphaned(ActStep(s, hasSession), n)
  {
  }

  predicate ByWorker(step: Step) {
    step.WorkerSlot? || step.WorkerSend? || step.WorkerEnded? || step.WorkerReturn? || step.WorkerCrash?
  }

  lemma WorkerOrphaned(s: State, step: Step, n: Attempt)
    requires WorkersOwned(s.workers.Keys, ActiveNumber(s.active), PcJoins(s.pc)) && PcJoins(s.pc).None?
    requires Orphaned(s, n) && Enabled(s, step) && ByWorker(step)
    ensures Orphaned(Effect(s, step), n)
  {
    assert s.workers.Keys == {n};
  }

  lemma OtherOrphaned(s: State, step: Step, n: Attempt)
    requires Orphaned(s, n) && Enabled(s, step) && !step.Act? && !ByWorker(step)
    ensures Orphaned(Effect(s, step), n)
  {
  }

  lemma StepOrphaned(s: State, step: Step, n: Attempt)
    requires Inv(s) && Orphaned(s, n) && Enabled(s, step)
    ensures Orphaned(Effect(s, step), n)
  {
    if step.Act? { ActOrphaned(s, step.hasSession, n); }
    else if ByWorker(step) { WorkerOrphaned(s, step, n); }
    else { OtherOrphaned(s, step, n); }
  }

  lemma {:induction false} OrphanedStays(s: State, steps: seq<Step>, n: Attempt)
    requires Inv(s) && Orphaned(s, n)
    ensures Inv(Run(s, steps)) && Orphaned(Run(s, steps), n)
    decreases |steps|
  {
    if steps != [] {
      var step := steps[0];
      StepKeeps(s, step);
      if Enabled(s, step) { StepOrphaned(s, step, n); }
      OrphanedStays(Next(s, step), steps[1..], n);
    }
  }

  /** No run of any kind lets the loop exit once a worker has died silently. */
  lemma CrashedNeverExits(s: State, n: Attempt, more: seq<Step>)
    requires Inv(s) && WorkerIs(s.workers, n, Crashed)
    ensures !Run(s, more).pc.Exited?
  {
    CrashedIsOrphaned(s, n);
    OrphanedStays(s, more, n);
  }

  // --- otherwise the loop can always be driven to its exit ---

  predicate Healthy(s: State) { forall n :: n in s.workers ==> s.workers[n] != Crashed }

  /** Draining left, with room for what a worker already holds a slot for. */
  function Distance(s: State): nat { Rank(s) + 9 * s.sh.slots }

  lemma ActStaysHealthy(s: State, hasSession: bool)
    requires Healthy(s) && ActEnabled(s)
    ensures Healthy(Next(s, Act(hasSession)))
  {
  }

  predicate SameSlots(s: State, t: State) { t.shuttingDown == s.shuttingDown && t.sh.slots == s.sh.slots }

  lemma ReleasingKeepsSlots(s: State, hasSession: bool)
    requires s.pc.Requeueing? || s.pc.Settling? || s.pc.Clearing? || s.pc.Completing? || s.pc.Closing? || s.pc.Leaving?
    ensures SameSlots(s, ActStep(s, hasSession))
  {
  }

  lemma OtherKeepsSlots(s: State, hasSession: bool)
    requires ActEnabled(s)
    requires !s.pc.Requeueing? && !s.pc.Settling? && !s.pc.Clearing? && !s.pc.Completing?
    requires !s.pc.Closing? && !s.pc.Leaving?
    ensures SameSlots(s, ActStep(s, hasSession))
  {
  }

  lemma ActKeepsSlots(s: State, hasSession: bool)
    requires ActEnabled(s)
    ensures SameSlots(s, Next(s, Act(hasSession)))
  {
    if s.pc.Requeueing? || s.pc.Settling? || s.pc.Clearing? || s.pc.Completing? || s.pc.Closing? || s.pc.Leaving? {
      ReleasingKeepsSlots(s, hasSession);
    } else {
      OtherKeepsSlots(s, hasSession);
    }
  }

  lemma ActShrinks(s: State, hasSession: bool)
    requires Ownership(s) && Control(s) && ActEnabled(s)
    ensures Rank(Next(s, Act(hasSession))) < Rank(s)
  {
    ActDrains(s, hasSession);
  }

  lemma OtherStaysHealthy(s: State, step: Step)
    requires Healthy(s) && CanAdvance(s, step) && !step.Act?
    ensures Healthy(Effect(s, step)) && Effect(s, step).shuttingDown == s.shuttingDown
    ensures step.Release? || step.Receive? || step.WorkerReturn? ==> Effect(s, step).sh.slots == s.sh.slots
    ensures step.WorkerEnded? ==> Effect(s, step).sh.slots <= s.sh.slots
  {
  }

  ghost predicate Draining(s: State) { Inv(s) && s.shuttingDown && Healthy(s) }

  ghost predicate Closer(s: State, t: State) { Draining(t) && Distance(t) < Distance(s) }

  lemma ActApproaches(s: State, hasSession: bool)
    requires Draining(s) && ActEnabled(s)
    ensures Closer(s, Next(s, Act(hasSession)))
  {
    StepKeeps(s, Act(hasSession));
    ActStaysHealthy(s, hasSession);
    ActKeepsSlots(s, hasSession);
    ActShrinks(s, hasSession);
  }

  lemma DrainApproaches(s: State, step: Step)
    requires Draining(s) && s.sh.closed && CanAdvance(s, step)
    requires step.Release? || step.Receive? || step.WorkerReturn? || step.WorkerEnded?
    ensures Closer(s, Next(s, step))
  {
    StepKeeps(s, step);
    OtherStaysHealthy(s, step);
    DrainStep(s, step);
  }

  lemma SendApproaches(s: State, n: Attempt, e: Event)
    requires Draining(s) && CanAdvance(s, WorkerSend(n, e))
    ensures Closer(s, Next(s, WorkerSend(n, e)))
  {
    StepKeeps(s, WorkerSend(n, e));
    OtherStaysHealthy(s, WorkerSend(n, e));
    ReportRank(s, n, e);
  }

  lemma SlotKeepsRank(s: State, n: Attempt)
    requires CanAdvance(s, WorkerSlot(n))
    ensures Rank(Next(s, WorkerSlot(n))) == Rank(s)
  {
  }

  lemma SlotIsTaken(s: State, n: Attempt)
    requires Healthy(s) && CanAdvance(s, WorkerSlot(n)) && s.sh.slots == 0
    ensures var t := Next(s, WorkerSlot(n));
            && Healthy(t) && t.shuttingDown == s.shuttingDown && t.sh.closed == s.sh.closed
            && CanAdvance(t, WorkerEnded(n))
  {
  }

  lemma SlotWaits(s: State, n: Attempt)
    requires Draining(s) && s.sh.closed && CanAdvance(s, WorkerSlot(n)) && s.sh.slots == 0
    ensures var t := Next(s, WorkerSlot(n));
            Draining(t) && t.sh.closed && Rank(t) == Rank(s) && CanAdvance(t, WorkerEnded(n))
  {
    StepKeeps(s, WorkerSlot(n));
    SlotKeepsRank(s, n);
    SlotIsTaken(s, n);
  }

  lemma EndedApproaches(s: State, n: Attempt)
    requires Draining(s) && s.sh.closed && CanAdvance(s, WorkerEnded(n))
    ensures var t := Next(s, WorkerEnded(n)); Draining(t) && Rank(t) < Rank(s) && t.sh.slots == 0
  {
    StepKeeps(s, WorkerEnded(n));
    OtherStaysHealthy(s, WorkerEnded(n));
    DrainStep(s, WorkerEnded(n));
  }

  /** A slot with the `Ended` written into it brings the exit closer. */
  lemma ReportApproaches(s: State, n: Attempt)
    requires Draining(s) && s.sh.closed && CanAdvance(s, WorkerSlot(n)) && s.sh.slots == 0
    ensures Closer(s, Next(Next(s, WorkerSlot(n)), WorkerEnded(n)))
  {
    SlotWaits(s, n);
    EndedApproaches(Next(s, WorkerSlot(n)), n);
  }

  lemma RunTwo(s: State, first: Step, second: Step)
    ensures Run(s, [first]) == Next(s, first) && Run(s, [first, second]) == Next(Next(s, first), second)
  {
    assert [first, second][1..] == [second];
    assert Run(Next(s, first), [second]) == Next(Next(s, first), second);
  }

  lemma ClosedByNow(s: State)
    requires Inv(s) && s.shuttingDown && !ActEnabled(s)
    ensures s.sh.closed
  {
  }

  lemma Approach(s: State) returns (steps: seq<Step>)
    requires Draining(s) && !s.pc.Exited?
    ensures Closer(s, Run(s, steps))
  {
    if ActEnabled(s) {
      ActApproaches(s, false);
      RunTwo(s, Act(false), Act(false));
      return [Act(false)];
    }
    ClosedByNow(s);
    var step := ProgressStep(s);
    var second := if step.WorkerSlot? then WorkerEnded(step.attempt) else step;
    RunTwo(s, step, second);
    if step.WorkerSlot? {
      ReportApproaches(s, step.attempt);
      return [step, second];
    }
    if step.WorkerSend? { SendApproaches(s, step.attempt, step.event); } else { DrainApproaches(s, step); }
    return [step];
  }

  lemma {:induction false} RunAppend(s: State, a: seq<Step>, b: seq<Step>)
    ensures Run(s, a + b) == Run(Run(s, a), b)
    decreases |a|
  {
    if a == [] {
      assert a + b == b;
    } else {
      assert (a + b)[0] == a[0] && (a + b)[1..] == a[1..] + b;
      RunAppend(Next(s, a[0]), a[1..], b);
    }
  }

  lemma {:induction false} ExitRun(s: State) returns (more: seq<Step>)
    requires Draining(s)
    ensures Run(s, more).pc.Exited?
    decreases Distance(s)
  {
    if s.pc.Exited? {
      more := [];
    } else {
      var first := Approach(s);
      var rest := ExitRun(Run(s, first));
      RunAppend(s, first, rest);
      more := first + rest;
    }
  }

  /** Shutdown can still complete exactly while no worker has died without reporting its end. */
  lemma ShutdownCompletesExactly(steps: seq<Step>)
    requires Run(INITIAL, steps).shuttingDown
    ensures var s := Run(INITIAL, steps);
            (exists more :: Run(s, more).pc.Exited?) <==> (forall n :: n in s.workers ==> s.workers[n] != Crashed)
  {
    Reachable(steps);
    var s := Run(INITIAL, steps);
    if Healthy(s) {
      var more := ExitRun(s);
    } else {
      var n :| n in s.workers && s.workers[n] == Crashed;
      forall more ensures !Run(s, more).pc.Exited? { CrashedNeverExits(s, n, more); }
    }
  }
}
