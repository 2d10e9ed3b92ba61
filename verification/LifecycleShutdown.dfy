/**
 Shutdown: the actor is never parked without somebody left to wake it, it
 leaves only when nothing is owned, and draining takes a bounded number of steps.
 */
module LifecycleShutdown {
  import opened Basics
  import opened Lifecycle
  import opened LifecycleInvariant

  // --- leaving ---

  lemma {:induction false} ExitedStays(s: State, steps: seq<Step>)
    requires Inv(s) && s.pc.Exited?
    ensures Inv(Run(s, steps)) && Run(s, steps).pc.Exited?
    decreases |steps|
  {
    if steps != [] {
      StepKeeps(s, steps[0]);
      ExitedStays(Next(s, steps[0]), steps[1..]);
    }
  }

  /** Once the loop has exited there is no owner, no worker and no admission, and there never will be one. */
  lemma ExitIsFinal(steps: seq<Step>, more: seq<Step>)
    requires Run(INITIAL, steps).pc.Exited?
    ensures var s := Run(Run(INITIAL, steps), more);
            && s.pc.Exited? && s.sh.closed && s.sh.current.None? && s.active.None? && s.workers == map[]
            && Holding(s.reservations) == {} && Starts(s.sh.queue) == []
  {
    Reachable(steps);
    ExitedStays(Run(INITIAL, steps), more);
    assert Run(Run(INITIAL, steps), more).workers.Keys == {};
  }

  // --- progress ---

  /** While shutting down the actor parks on an empty queue only if someone is left who will still write to it. */
  lemma ParkedIsWoken(steps: seq<Step>)
    requires var s := Run(INITIAL, steps); s.shuttingDown && s.pc.Parked? && s.sh.queue == []
    ensures var s := Run(INITIAL, steps); s.reservations.Keys != {} || LiveWorker(s.workers, ActiveNumber(s.active))
  {
    Reachable(steps);
  }

  /** Steps that happen without any client: the actor's, a release's, a worker's that has not crashed. */
  predicate Internal(s: State, step: Step) {
    match step
    case Release(_) => true
    case Receive => true
    case Act(_) => true
    case WorkerSlot(n) => !WorkerIs(s.workers, n, Crashed)
    case WorkerSend(n, _) => !WorkerIs(s.workers, n, Crashed)
    case WorkerEnded(_) => true
    case WorkerReturn(_) => true
    case _ => false
  }

  predicate CanAdvance(s: State, step: Step) { Internal(s, step) && Enabled(s, step) }

  /** The one way to hang: the worker died without saying `Ended` and nothing else is left. */
  predicate Stranded(s: State) {
    && s.pc.Parked? && s.sh.queue == [] && s.reservations == map[]
    && s.active.Some? && WorkerIs(s.workers, s.active.value.attempt, Crashed)
  }

  lemma ProgressStep(s: State) returns (step: Step)
    requires Inv(s) && s.shuttingDown && !s.pc.Exited? && !Stranded(s)
    ensures CanAdvance(s, step) && (step.WorkerSlot? ==> s.sh.slots == 0)
  {
    if ActEnabled(s) {
      step := Act(false);
    } else if s.pc.Joining? {
      step := WorkerReturn(s.pc.ending.attempt);
    } else if s.sh.queue != [] {
      step := Receive;
    } else if s.reservations != map[] {
      var n :| n in s.reservations;
      step := Release(n);
    } else {
      var n := s.active.value.attempt;
      if s.sh.slots == 0 { step := WorkerSlot(n); }
      else if s.sh.slots == 1 { step := WorkerEnded(n); }
      else { step := WorkerSend(n, PreparationReleased); }
    }
  }

  /** During shutdown the service can always take another step by itself, except exactly when stranded. */
  lemma ShutdownAdvancesExactly(steps: seq<Step>)
    requires var s := Run(INITIAL, steps); s.shuttingDown && !s.pc.Exited?
    ensures var s := Run(INITIAL, steps); (exists step :: CanAdvance(s, step)) <==> !Stranded(s)
  {
    Reachable(steps);
    var s := Run(INITIAL, steps);
    if Stranded(s) {
      forall step ensures !CanAdvance(s, step) { NoStepWhenStranded(s, step); }
    } else {
      var step := ProgressStep(s);
    }
  }

  lemma NoStepWhenStranded(s: State, step: Step)
    requires Inv(s) && Stranded(s)
    ensures !CanAdvance(s, step)
  {
    assert s.workers.Keys == {s.active.value.attempt};
  }

  // --- termination ---

  function PcRank(pc: Pc): nat {
    match pc
    case Parked => 0
    case Exited => 0
    case Leaving => 1
    case Top => 2
    case Announce(_) => 3
    case Establish(_) => 3
    case Members(_) => 3
    case StopPublish(_) => 3
    case Completing(_) => 3
    case Requeueing(_) => 3
    case StopCheck(_) => 4
    case Clearing(_) => 4
    case Closing => 5
    case Settling(_, _) => 5
    case Joined(_) => 6
    case Joining(_) => 7
    case Spawning(_, _, _) => 15
    case Starting(_, _) => 16
  }

  function WorkerRank(workers: map<Attempt, Worker>, owner: Option<Attempt>): nat {
    if owner.None? || owner.value !in workers then 0
    else match workers[owner.value]
      case Running => 11
      case Ending => 2
      case Finished => 1
      case Crashed => 0
  }

  function HoldRank(reservations: map<Attempt, Release>, owner: Option<Attempt>): nat {
    if owner.None? || owner.value !in reservations then 0
    else match reservations[owner.value]
      case Held => 4
      case Dropping => 3
      case TokenCancelled => 2
      case _ => 0
  }

  function ReservationRank(reservations: map<Attempt, Release>, owner: Option<Attempt>): nat {
    9 * |reservations| + |Clearings(reservations)| + HoldRank(reservations, owner)
  }

  function QueueRank(q: seq<Event>): nat {
    8 * |q| + 9 * |Starts(q)|
  }

  /** How much draining is left to do. */
  function Rank(s: State): nat {
    PcRank(s.pc) + QueueRank(s.sh.queue) + WorkerRank(s.workers, AdmittedAttempt(s.sh.current)) +
    ReservationRank(s.reservations, AdmittedAttempt(s.sh.current))
  }

  /** Steps that drain, as opposed to a worker reporting something more. */
  predicate Drains(s: State, step: Step) {
    Enabled(s, step) && (step.Commit? || step.Release? || step.Receive? || step.Act? || step.WorkerEnded? ||
          step.WorkerReturn?)
  }

  predicate Reports(s: State, step: Step) { step.WorkerSend? && Enabled(s, step) }

  lemma HoldingRank(reservations: map<Attempt, Release>, n: Attempt, r: Release)
    requires n in reservations && reservations[n] != Cleared && r != Cleared
    ensures ReservationRank(reservations[n := r], Some(n)) ==
            ReservationRank(reservations, Some(n)) - HoldRank(reservations, Some(n)) + HoldRank(reservations[n := r],
                  Some(n))
  {
    assert reservations[n := r].Keys == reservations.Keys;
    Restage(reservations, n, r);
    assert Clearings(reservations) - {n} == Clearings(reservations);
  }

  lemma ClearingRank(reservations: map<Attempt, Release>, n: Attempt)
    requires n in reservations && reservations[n] == TokenCancelled
    ensures ReservationRank(reservations[n := Cleared], None) == ReservationRank(reservations, Some(n)) - 1
  {
    assert reservations[n := Cleared].Keys == reservations.Keys;
    Restage(reservations, n, Cleared);
    assert n !in Clearings(reservations);
  }

  lemma CompletingRank(reservations: map<Attempt, Release>, n: Attempt, owner: Option<Attempt>)
    requires n in reservations && reservations[n] == Cleared && owner != Some(n)
    ensures ReservationRank(reservations[n := Waking], owner) == ReservationRank(reservations, owner) - 1
  {
    assert reservations[n := Waking].Keys == reservations.Keys;
    Restage(reservations, n, Waking);
    assert n in Clearings(reservations);
  }

  lemma ForgettingRank(reservations: map<Attempt, Release>, n: Attempt, owner: Option<Attempt>)
    requires n in reservations && reservations[n] == Waking
    ensures ReservationRank(reservations - {n}, owner) == ReservationRank(reservations, owner) - 9
  {
    Forget(reservations, n);
    assert Clearings(reservations) - {n} == Clearings(reservations);
    assert (reservations - {n}).Keys == reservations.Keys - {n};
    assert |reservations - {n}| == |(reservations - {n}).Keys| && |reservations| == |reservations.Keys|;
  }

  lemma HeldReleaseDrains(s: State, n: Attempt)
    requires Ownership(s) && n in s.reservations && (s.reservations[n] == Held || s.reservations[n] == Dropping)
    ensures Rank(ReleaseStep(s, n)) < Rank(s)
  {
    assert n in Holding(s.reservations);
    HoldingRank(s.reservations, n, if s.reservations[n] == Held then Dropping else TokenCancelled);
  }

  lemma ClearingReleaseDrains(s: State, n: Attempt)
    requires Ownership(s) && n in s.reservations && s.reservations[n] == TokenCancelled
    ensures Rank(ReleaseStep(s, n)) < Rank(s)
  {
    assert n in Holding(s.reservations);
    ClearingRank(s.reservations, n);
  }

  lemma ClearedReleaseDrains(s: State, n: Attempt)
    requires Ownership(s) && n in s.reservations && s.reservations[n] == Cleared
    ensures Rank(ReleaseStep(s, n)) < Rank(s)
  {
    assert n in Clearings(s.reservations);
    CompletingRank(s.reservations, n, AdmittedAttempt(s.sh.current));
  }

  lemma WakingReleaseDrains(s: State, n: Attempt)
    requires n in s.reservations && s.reservations[n] == Waking
    ensures Rank(ReleaseStep(s, n)) < Rank(s)
  {
    ForgettingRank(s.reservations, n, AdmittedAttempt(s.sh.current));
    StartsAppend(s.sh.queue, PreparationReleased);
  }

  /** A closed service refuses the commit, which drops the reservation. */
  lemma CommitDrains(s: State, n: Attempt, session: Option<SessionId>)
    requires Ownership(s) && s.sh.closed && Enabled(s, Commit(n, session))
    ensures Rank(CommitStep(s, n, session)) < Rank(s)
  {
    assert n in Holding(s.reservations);
    HoldingRank(s.reservations, n, Dropping);
  }

  lemma TailRank(q: seq<Event>)
    requires q != []
    ensures QueueRank(q) == QueueRank(q[1..]) + 8 + 9 * Count(q[0].Start?)
  {
    if q[0].Start? { assert Starts(q) == [q[0].attempt] + Starts(q[1..]); } else { assert Starts(q) == Starts(q[1..]); }
  }

  lemma DispatchRank(s: State, e: Event)
    requires s.pc.Top?
    ensures PcRank(Dispatch(s, e).pc) < 8 + 9 * Count(e.Start?)
    ensures Dispatch(s, e).sh == s.sh && Dispatch(s, e).workers == s.workers &&
          Dispatch(s, e).reservations == s.reservations
  {
  }

  lemma ReceiveDrains(s: State)
    requires Enabled(s, Receive)
    ensures Rank(Effect(s, Receive)) < Rank(s)
  {
    var q, d := s.sh.queue, Dequeue(s);
    TailRank(q);
    DispatchRank(d, q[0]);
    assert Rank(Dispatch(d, q[0])) == Rank(d) - PcRank(Top) + PcRank(Dispatch(d, q[0]).pc);
    assert Rank(d) == Rank(s) - QueueRank(q) + QueueRank(q[1..]) + PcRank(Top);
  }

  lemma EndedRank(q: seq<Event>, n: Attempt)
    ensures QueueRank(q + [Ended(n)]) == QueueRank(q) + 8
  {
    StartsAppend(q, Ended(n));
  }

  lemma WorkerOwnsAdmission(s: State, n: Attempt)
    requires Ownership(s) && WorkersOwned(s.workers.Keys, ActiveNumber(s.active), PcJoins(s.pc)) && n in s.workers
    ensures AdmittedAttempt(s.sh.current) == Some(n)
  {
  }

  lemma WorkerEndedDrains(s: State, n: Attempt)
    requires Ownership(s) && WorkersOwned(s.workers.Keys, ActiveNumber(s.active), PcJoins(s.pc)) &&
          Enabled(s, WorkerEnded(n))
    ensures Rank(Effect(s, WorkerEnded(n))) < Rank(s)
  {
    EndedRank(s.sh.queue, n);
    WorkerOwnsAdmission(s, n);
  }

  lemma WorkerReturnDrains(s: State, n: Attempt)
    requires Ownership(s) && WorkersOwned(s.workers.Keys, ActiveNumber(s.active), PcJoins(s.pc)) &&
          Enabled(s, WorkerReturn(n))
    ensures Rank(Effect(s, WorkerReturn(n))) < Rank(s)
  {
    WorkerOwnsAdmission(s, n);
    assert WorkerRank(s.workers[n := Finished], Some(n)) < WorkerRank(s.workers, Some(n));
  }

  lemma SpawnDrains(s: State, hasSession: bool)
    requires Ownership(s) && s.pc.Spawning?
    ensures Rank(ActStep(s, hasSession)) < Rank(s)
  {
  }

  /** Giving up the admission gives up its worker and hold ranks. */
  lemma ReleasedRank(s: State, t: State)
    requires t.reservations == s.reservations && t.workers == s.workers && t.sh.queue == s.sh.queue
    requires t.sh.current.None? && PcRank(t.pc) < PcRank(s.pc)
    ensures Rank(t) < Rank(s)
  {
  }

  lemma EndingDrains(s: State, hasSession: bool)
    requires Ownership(s) && ((s.pc.Requeueing? && s.pc.ending.session.Some?) || s.pc.Clearing?)
    ensures Rank(ActStep(s, hasSession)) < Rank(s)
  {
    ReleasedRank(s, ActStep(s, hasSession));
  }

  lemma JoiningDrains(s: State, hasSession: bool)
    requires ActEnabled(s) && s.pc.Joining?
    ensures Rank(ActStep(s, hasSession)) < Rank(s)
  {
    var owner := AdmittedAttempt(s.sh.current);
    assert WorkerRank(s.workers - {s.pc.ending.attempt}, owner) <= WorkerRank(s.workers, owner);
  }

  /** The remaining actor steps move only the program counter. */
  lemma PublishingParts(s: State, hasSession: bool)
    requires s.pc.Announce? || s.pc.Establish? || s.pc.Members? || s.pc.StopPublish? || s.pc.Settling? ||
          s.pc.Completing?
    ensures Rank(ActStep(s, hasSession)) < Rank(s)
  {
    var t := ActStep(s, hasSession);
    assert t.sh.queue == s.sh.queue && AdmittedAttempt(t.sh.current) == AdmittedAttempt(s.sh.current);
  }

  lemma ControlParts(s: State, hasSession: bool)
    requires s.pc.Top? || s.pc.Leaving? || s.pc.Closing? || s.pc.StopCheck? || s.pc.Starting? || s.pc.Joined?
    ensures Rank(ActStep(s, hasSession)) < Rank(s)
  {
    var t := ActStep(s, hasSession);
    assert t.sh.queue == s.sh.queue && AdmittedAttempt(t.sh.current) == AdmittedAttempt(s.sh.current);
  }

  lemma ActDrains(s: State, hasSession: bool)
    requires Ownership(s) && Control(s) && ActEnabled(s)
    ensures Rank(ActStep(s, hasSession)) < Rank(s)
  {
    match s.pc
    case Spawning(_, _, _) => SpawnDrains(s, hasSession);
    case Joining(_) => JoiningDrains(s, hasSession);
    case Requeueing(_) => EndingDrains(s, hasSession);
    case Clearing(_) => EndingDrains(s, hasSession);
    case _ =>
      if s.pc.Top? || s.pc.Leaving? || s.pc.Closing? || s.pc.StopCheck? || s.pc.Starting? || s.pc.Joined? {
        ControlParts(s, hasSession);
      } else {
        PublishingParts(s, hasSession);
      }
  }

  lemma {:induction false} DrainStep(s: State, step: Step)
    requires Inv(s) && s.sh.closed && Drains(s, step)
    ensures Rank(Next(s, step)) < Rank(s)
  {
    match step
    case Commit(n, session) => CommitDrains(s, n, session);
    case Release(n) =>
      if s.reservations[n] == TokenCancelled { ClearingReleaseDrains(s, n); }
      else if s.reservations[n] == Held || s.reservations[n] == Dropping { HeldReleaseDrains(s, n); }
      else if s.reservations[n] == Cleared { ClearedReleaseDrains(s, n); }
      else { WakingReleaseDrains(s, n); }
    case Receive => ReceiveDrains(s);
    case Act(hasSession) => ActDrains(s, hasSession);
    case WorkerEnded(n) => WorkerEndedDrains(s, n);
    case WorkerReturn(n) => WorkerReturnDrains(s, n);
  }

  lemma ReportRank(s: State, n: Attempt, e: Event)
    requires Enabled(s, WorkerSend(n, e))
    ensures Rank(Effect(s, WorkerSend(n, e))) == Rank(s) + 8
  {
    StartsAppend(s.sh.queue, e);
  }

  lemma CrashRank(s: State, n: Attempt)
    requires Ownership(s) && WorkersOwned(s.workers.Keys, ActiveNumber(s.active), PcJoins(s.pc)) &&
          Enabled(s, WorkerCrash(n))
    ensures Rank(Effect(s, WorkerCrash(n))) <= Rank(s)
  {
    WorkerOwnsAdmission(s, n);
    assert WorkerRank(s.workers[n := Crashed], Some(n)) == 0;
  }

  /** A closed service accepts nothing new, so clients leave every part of the rank alone. */
  lemma ClientRank(s: State, step: Step)
    requires Control(s) && s.sh.closed && Enabled(s, step) && !Drains(s, step) && !step.WorkerSend? &&
          !step.WorkerCrash?
    ensures Rank(Effect(s, step)) == Rank(s)
  {
    var t := Effect(s, step);
    assert t.pc == s.pc && t.sh.queue == s.sh.queue && t.workers == s.workers && t.reservations == s.reservations;
    assert AdmittedAttempt(t.sh.current) == AdmittedAttempt(s.sh.current);
  }

  /** Nothing else adds work except a worker's report, which adds one queued event. */
  lemma OtherStepRank(s: State, step: Step)
    requires Inv(s) && s.sh.closed && !Drains(s, step)
    ensures Rank(Next(s, step)) <= Rank(s) + 8 * Count(Reports(s, step))
  {
    if Enabled(s, step) {
      if step.WorkerSend? { ReportRank(s, step.attempt, step.event); }
      else if step.WorkerCrash? { CrashRank(s, step.attempt); }
      else { ClientRank(s, step); }
    }
  }

  function DrainCount(s: State, steps: seq<Step>): nat
    decreases |steps|
  {
    if steps == [] then 0 else Count(Drains(s, steps[0])) + DrainCount(Next(s, steps[0]), steps[1..])
  }

  function ReportCount(s: State, steps: seq<Step>): nat
    decreases |steps|
  {
    if steps == [] then 0 else Count(Reports(s, steps[0])) + ReportCount(Next(s, steps[0]), steps[1..])
  }

  lemma ClosedStays(s: State, step: Step)
    requires s.sh.closed
    ensures Next(s, step).sh.closed
  {
    if Enabled(s, step) && step.Act? { assert ActStep(s, step.hasSession).sh.closed; }
  }

  lemma {:induction false} DrainBound(s: State, steps: seq<Step>)
    requires Inv(s) && s.sh.closed
    ensures Rank(Run(s, steps)) + DrainCount(s, steps) <= Rank(s) + 8 * ReportCount(s, steps)
    decreases |steps|
  {
    if steps != [] {
      var t := Next(s, steps[0]);
      StepKeeps(s, steps[0]);
      ClosedStays(s, steps[0]);
      if Drains(s, steps[0]) { DrainStep(s, steps[0]); } else { OtherStepRank(s, steps[0]); }
      DrainBound(t, steps[1..]);
    }
  }

  /** After admission closes, every run takes a bounded number of draining steps per worker report. */
  lemma ShutdownTerminates(steps: seq<Step>, more: seq<Step>)
    requires Run(INITIAL, steps).sh.closed
    ensures DrainCount(Run(INITIAL, steps), more) <= Rank(Run(INITIAL, steps)) + 8 * ReportCount(Run(INITIAL, steps),
          more)
  {
    Reachable(steps);
    DrainBound(Run(INITIAL, steps), more);
  }
}
