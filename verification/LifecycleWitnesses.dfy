/** Concrete runs that reach the two windows the theorems single out. */
module LifecycleWitnesses {
  import opened Basics
  import opened Lifecycle
  import opened LifecycleExit
  import opened LifecycleInvariant
  import opened LifecycleShutdown

  ghost predicate Reaches(t: State) { exists steps :: Run(INITIAL, steps) == t }

  lemma {:induction false} RunExtends(s: State, steps: seq<Step>, step: Step)
    ensures Run(s, steps + [step]) == Next(Run(s, steps), step)
    decreases |steps|
  {
    if steps == [] {
      assert steps + [step] == [step] && [step][1..] == [];
    } else {
      assert (steps + [step])[0] == steps[0] && (steps + [step])[1..] == steps[1..] + [step];
      RunExtends(Next(s, steps[0]), steps[1..], step);
    }
  }

  lemma Then(s: State, step: Step) returns (t: State)
    requires Reaches(s)
    ensures Reaches(t) && t == Next(s, step)
  {
    var steps :| Run(INITIAL, steps) == s;
    RunExtends(INITIAL, steps, step);
    t := Next(s, step);
    assert Run(INITIAL, steps + [step]) == t;
  }

  const ATTEMPT := ActiveAttempt(0, None, OfAttempt(0), false, false)

  const QUEUED := State(
    Shared(false, 1, Some(Admission(0, Pending, false)), None, {}, {}, [Start(0, None)], 0, false, [Disconnected]),
    map[], map[], None, Parked, false, false)

  /** Attempt 0 dequeued, activated, spawned and announced; the actor parked again. */
  const RUNNING := State(
    Shared(false, 1, Some(Admission(0, Active, false)), None, {}, {}, [], 0, false, [Disconnected, Connecting(0)]),
    map[], map[0 := Running], Some(ATTEMPT), Parked, false, false)

  lemma QueuedIsReachable()
    ensures Reaches(QUEUED)
  {
    assert Run(INITIAL, []) == INITIAL;
    var s := Then(INITIAL, Reserve(None));
    s := Then(s, Commit(0, None));
    assert s.reservations == map[];
    s := Then(s, Act(false));
  }

  const DEQUEUED := QUEUED.(sh := QUEUED.sh.(queue := []), pc := Starting(0, None))

  lemma DequeuedIsReachable()
    ensures Reaches(DEQUEUED)
  {
    QueuedIsReachable();
    var s := Then(QUEUED, Receive);
    assert s.sh.queue == [];
  }

  lemma RunningIsReachable()
    ensures Reaches(RUNNING)
  {
    DequeuedIsReachable();
    var s := Then(DEQUEUED, Act(false));
    assert s.pc == Spawning(0, None, true);
    s := Then(s, Act(false));
    assert s.pc == Announce(0);
    s := Then(s, Act(false));
    assert s.pc == Top;
    s := Then(s, Act(false));
    assert s == RUNNING;
  }

  const REPORTED := RUNNING.(sh := RUNNING.sh.(queue := [Established(0)]))

  lemma ReportedIsReachable()
    ensures Reaches(REPORTED)
  {
    RunningIsReachable();
    var s := Then(RUNNING, WorkerSlot(0));
    s := Then(s, WorkerSend(0, Established(0)));
    assert s.sh.queue == [Established(0)];
  }

  /** A token cancelled after the actor looked at it and before it publishes. */
  lemma PastCheckIsReachable() returns (s: State)
    ensures Reaches(s) && 0 in s.sh.cancelled && s.pc == Establish(0) && !StopRequested(s.sh, 0)
  {
    ReportedIsReachable();
    s := Then(REPORTED, Receive);
    assert s.pc == Establish(0);
    s := Then(s, Cancel(0));
  }

  const CRASHED := State(
    RUNNING.sh, map[], map[0 := Crashed], Some(ATTEMPT), Closing, true, true)

  lemma CrashIsReachable()
    ensures Reaches(CRASHED)
  {
    RunningIsReachable();
    var s := Then(RUNNING, WorkerCrash(0));
    s := Then(s, Shutdown);
    s := Then(s, ObserveShutdown);
  }

  lemma ReachedNeverExits(s: State, n: Attempt)
    requires Reaches(s) && WorkerIs(s.workers, n, Crashed)
    ensures forall more :: !Run(s, more).pc.Exited?
  {
    var steps :| Run(INITIAL, steps) == s;
    Reachable(steps);
    forall more ensures !Run(s, more).pc.Exited? { CrashedNeverExits(s, n, more); }
  }

  lemma ParkedIsReachable() returns (s: State)
    ensures Reaches(s) && s.shuttingDown && Stranded(s) && WorkerIs(s.workers, 0, Crashed)
  {
    CrashIsReachable();
    s := Then(CRASHED, Act(false));
    assert s.pc == StopCheck(0) && StopRequested(s.sh, 0);
    s := Then(s, Act(false));
    assert s.pc == StopPublish(0);
    s := Then(s, Act(false));
    assert s.pc == Top;
    s := Then(s, Act(false));
  }

  /** A worker that dies without `Ended` leaves the shutting-down actor parked for ever. */
  lemma StrandedIsReachable() returns (s: State)
    ensures Reaches(s) && s.shuttingDown && Stranded(s)
    ensures forall more :: !Run(s, more).pc.Exited?
  {
    s := ParkedIsReachable();
    ReachedNeverExits(s, 0);
  }
}
