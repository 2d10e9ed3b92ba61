/** A concrete run into the window where incomplete non-tunnel work is no longer recorded. */
module DispatchWitness {
  import opened Basics
  import L = Lifecycle
  import R = Registry
  import opened Dispatch

  ghost predicate Reaches(t: State) { exists steps :: Run(INITIAL, steps) == t }

  lemma {:induction false} RunExtends(s: State, steps: seq<Step>, step: Step)
    ensures Run(s, steps + [step]) == Next(Run(s, steps), step)
    decreases |steps|
  {
    if steps == [] {
      assert steps + [step] == [step] && [step][1..] == [];
    } else {
      assert (steps + [step])[0] == steps[0] && (steps + [step])[1..] == steps[1..] + [step];
      RunExtends(Next(s, steps[0]), steps[1..], step);
    }
  }

  lemma Then(s: State, step: Step, t: State)
    requires Reaches(s) && t == Next(s, step)
    ensures Reaches(t)
  {
    var steps :| Run(INITIAL, steps) == s;
    RunExtends(INITIAL, steps, step);
    assert Run(INITIAL, steps + [step]) == t;
  }

  function Session(status: R.Status, n: Option<L.Attempt>): R.Sessions {
    map[0 := R.Record(0, status, if n.Some? then Some(R.AttachmentAttempt(1, 5, n.value)) else None, None)]
  }

  const ATTACHED := R.Active(1, Some(5), None)

  /** Session 0 attached at generation 1 through connection 5, with the given lifecycle and attempts. */
  function At(life: L.State, n: Option<L.Attempt>, origin: map<L.Attempt, Origin>): State {
    State(life, Session(ATTACHED, n), {}, {0}, {5}, origin)
  }

  /** Session 0 issued and not yet attached. */
  function Issued(handshake: Option<R.TokenId>): State {
    State(L.INITIAL, Session(R.Pending(R.ACTIVATION_TIMEOUT, handshake), None), {}, {0}, {}, map[])
  }

  lemma IssuedIsReachable()
    ensures Reaches(Issued(None))
  {
    assert Run(INITIAL, []) == INITIAL;
    assert R.Prune(map[], 0) == map[] && R.PendingIds(map[]) == {};
    Then(INITIAL, Issue(0, 0, Some(0)), Issued(None));
  }

  lemma AttachedIsReachable()
    ensures Reaches(At(L.INITIAL, None, map[]))
  {
    IssuedIsReachable();
    Then(Issued(None), Begin(0, 0, 0, 7), Issued(Some(7)));
    Then(Issued(Some(7)), Attach(R.Permit(0, 0, 7), 5), At(L.INITIAL, None, map[]));
  }

  const FIRST := map[0 := Origin(0, 1, 5, true)]

  /** The shared part while attempt 0 is admitted in `phase`. */
  function Shared0(phase: L.Phase, queue: seq<L.Event>, sent: seq<L.VpnState>): L.Shared {
    L.Shared(false, 1, Some(L.Admission(0, phase, false)), None, {}, {}, queue, 0, false, sent)
  }

  function Life0(sh: L.Shared, workers: map<L.Attempt, L.Worker>, active: Option<L.ActiveAttempt>, pc: L.Pc): L.State {
    L.State(sh, map[], workers, active, pc, false, false)
  }

  const PREPARED := L.State(Shared0(L.Preparing, [], [L.Disconnected]), map[0 := L.Held], map[], None, L.Top, false,
        false)

  lemma PreparedIsReachable()
    ensures Reaches(At(PREPARED, Some(0), FIRST))
  {
    AttachedIsReachable();
    Then(At(L.INITIAL, None, map[]), Connect(0, 1, true, None), At(PREPARED, Some(0), FIRST));
  }

  lemma LifeStep(life: L.State, step: L.Step, next: L.State)
    requires Reaches(At(life, Some(0), FIRST)) && !step.Reserve? && !step.Commit? && next == L.Next(life, step)
    ensures Reaches(At(next, Some(0), FIRST))
  {
    Then(At(life, Some(0), FIRST), Lifecycle(step), At(next, Some(0), FIRST));
  }

  const QUEUED := Life0(Shared0(L.Pending, [L.Start(0, Some(0))], [L.Disconnected]), map[], None, L.Top)

  lemma QueuedIsReachable()
    ensures Reaches(At(QUEUED, Some(0), FIRST))
  {
    PreparedIsReachable();
    assert PREPARED.reservations - {0} == map[];
    Then(At(PREPARED, Some(0), FIRST), CommitPrepared(0), At(QUEUED, Some(0), FIRST));
  }

  const WORK := Some(L.ActiveAttempt(0, Some(0), L.OfAttempt(0), false, false))

  /** Started, spawned and announced; the actor is back at its loop head. */
  function Announced(pc: L.Pc, workers: map<L.Attempt, L.Worker>, queue: seq<L.Event>): L.State {
    Life0(Shared0(L.Active, queue, [L.Disconnected, L.Connecting(0)]), workers, WORK, pc)
  }

  lemma AnnouncedIsReachable()
    ensures Reaches(At(Announced(L.Top, map[0 := L.Running], []), Some(0), FIRST))
  {
    QueuedIsReachable();
    var sent := [L.Disconnected];
    LifeStep(QUEUED, L.Act(false), QUEUED.(pc := L.Parked));
    var starting := Life0(Shared0(L.Pending, [], sent), map[], None, L.Starting(0, Some(0)));
    assert [L.Start(0, Some(0))][1..] == [];
    LifeStep(QUEUED.(pc := L.Parked), L.Receive, starting);
    var spawning := Life0(Shared0(L.Active, [], sent), map[], None, L.Spawning(0, Some(0), true));
    LifeStep(starting, L.Act(false), spawning);
    var announce := Life0(Shared0(L.Active, [], sent), map[0 := L.Running], WORK, L.Announce(0));
    LifeStep(spawning, L.Act(false), announce);
    LifeStep(announce, L.Act(false), Announced(L.Top, map[0 := L.Running], []));
  }

  lemma FinishedIsReachable()
    ensures Reaches(At(Announced(L.Parked, map[0 := L.Finished], [L.Ended(0)]), Some(0), FIRST))
  {
    AnnouncedIsReachable();
    var running := Announced(L.Parked, map[0 := L.Running], []);
    LifeStep(Announced(L.Top, map[0 := L.Running], []), L.Act(false), running);
    LifeStep(running, L.WorkerSlot(0), running.(sh := running.sh.(slots := 1)));
    var ending := Announced(L.Parked, map[0 := L.Ending], [L.Ended(0)]);
    LifeStep(running.(sh := running.sh.(slots := 1)), L.WorkerEnded(0), ending);
    LifeStep(ending, L.WorkerReturn(0), Announced(L.Parked, map[0 := L.Finished], [L.Ended(0)]));
  }

  const SENT := [L.Disconnected, L.Connecting(0)]

  lemma JoinedIsReachable()
    ensures Reaches(At(Life0(Shared0(L.Active, [], SENT), map[], None, L.Joined(WORK.value)), Some(0), FIRST))
  {
    FinishedIsReachable();
    var joining := Life0(Shared0(L.Active, [], SENT), map[0 := L.Finished], None, L.Joining(WORK.value));
    assert [L.Ended(0)][1..] == [];
    LifeStep(Announced(L.Parked, map[0 := L.Finished], [L.Ended(0)]), L.Receive, joining);
    assert joining.workers - {0} == map[];
    LifeStep(joining, L.Act(false), Life0(Shared0(L.Active, [], SENT), map[], None, L.Joined(WORK.value)));
  }

  /** Attempt 0 is no longer admitted; its completion flag is the actor's next write. */
  const COMPLETING := Life0(Shared0(L.Active, [], SENT + [L.Disconnected]).(current := None), map[], None,
        L.Completing(0))

  lemma CompletingIsReachable()
    ensures Reaches(At(COMPLETING, Some(0), FIRST))
  {
    JoinedIsReachable();
    var settling := Life0(Shared0(L.Active, [], SENT), map[], None, L.Settling(0, L.Disconnected));
    LifeStep(Life0(Shared0(L.Active, [], SENT), map[], None, L.Joined(WORK.value)), L.Act(false), settling);
    var clearing := Life0(Shared0(L.Active, [], SENT + [L.Disconnected]), map[], None, L.Clearing(0));
    LifeStep(settling, L.Act(false), clearing);
    LifeStep(clearing, L.Act(false), COMPLETING);
  }

  /** A second connect on the same attachment takes over the record while attempt 0 is still incomplete. */
  lemma UnrecordedIsReachable() returns (s: State)
    ensures Reaches(s)
    ensures 0 in s.origin && s.origin[0].nonTunnel
    ensures 0 !in s.life.sh.completed && 0 !in s.life.sh.cancelled
    ensures !Recorded(s, 0)
  {
    CompletingIsReachable();
    s := Next(At(COMPLETING, Some(0), FIRST), Connect(0, 1, true, None));
    Then(At(COMPLETING, Some(0), FIRST), Connect(0, 1, true, None), s);
  }
}
