/**
 The lifecycle actor as an object. Its two methods run one region of
 `start`/`handle_event` each, between points where other threads may run, and
 are proved to make the corresponding transitions of the `Lifecycle` model.
 */
module VpnTask {
  import opened Basics
  import I = LifecycleInvariant
  import L = Lifecycle
  import S = LifecycleShutdown
  import opened LifecycleHandle

  lemma ActMoves(s: L.State, hasSession: bool)
    requires I.Inv(s) && L.ActEnabled(s)
    ensures var t := L.ActStep(s, hasSession); I.Inv(t) && S.Rank(t) < S.Rank(s) && L.Next(s, L.Act(hasSession)) == t
  {
    I.ActKeeps(s, hasSession);
    S.ActDrains(s, hasSession);
  }

  class Actor {
    const lifecycle: Handle
    var active: Option<L.ActiveAttempt>
    var pc: L.Pc
    var shuttingDown: bool
    var workers: map<L.Attempt, L.Worker>

    /** The model state this actor is part of, given what it does not own. */
    function View(reservations: map<L.Attempt, L.Release>, shutdownRequested: bool): L.State
      reads this, lifecycle
    {
      L.State(lifecycle.View(), reservations, workers, active, pc, shutdownRequested, shuttingDown)
    }

    constructor (lifecycle: Handle)
      ensures this.lifecycle == lifecycle
      ensures active.None? && pc == L.Top && !shuttingDown && workers == map[]
    {
      this.lifecycle := lifecycle;
      active, pc, shuttingDown, workers := None, L.Top, false, map[];
    }

    /** Fires the token an attempt runs under. */
    method CancelActive(a: L.ActiveAttempt)
      modifies lifecycle`cancelled
      ensures lifecycle.View() == L.FireToken(old(lifecycle.View()), a.token)
    {
      if a.token.OfAttempt? { lifecycle.cancelled := lifecycle.cancelled + {a.token.attempt}; }
    }

    /** `handle_event` up to its first access to state other threads change. */
    method Receive(ghost reservations: map<L.Attempt, L.Release>, ghost shutdownRequested: bool)
      requires lifecycle.queue != []
      modifies this, lifecycle`queue
      ensures var s := old(View(reservations, shutdownRequested));
              View(reservations, shutdownRequested) == L.Dispatch(L.Dequeue(s), s.sh.queue[0])
    {
      var event := lifecycle.queue[0];
      lifecycle.queue := lifecycle.queue[1..];
      pc := L.Top;
      if event.PreparationReleased? { return; }
      if event.Start? {
        pc := L.Starting(event.attempt, event.session);
        return;
      }
      if active.None? || active.value.attempt != event.attempt { return; }
      var running := active.value;
      var live := !L.TokenFired(lifecycle.View(), running.token);
      match event {
        case Stop(attempt) => pc := L.StopCheck(attempt);
        case Established(attempt) => if live { pc := L.Establish(attempt); }
        case MembersChanged(attempt, healthy) =>
          if live && healthy {
            pc := L.Members(attempt);
          } else if live && L.Published(lifecycle.View()).Connected? {
            pc := L.Announce(attempt);
          }
        case Ended(_) => active, pc := None, L.Joining(running);
        case WorkerFailed(_) => active := Some(running.(failed := true));
        case ScriptTunSuspended(attempt) => if live { pc := L.Announce(attempt); }
        case ReconnectWanted(_) => active := Some(running.(reconnect := true));
        case TunnelMonitor(_) =>
      }
    }

    /** `start_attempt` after activation: token, worker, bookkeeping. */
    method Spawn(attempt: L.Attempt, session: Option<L.SessionId>, activated: bool,
                 ghost reservations: map<L.Attempt, L.Release>, ghost shutdownRequested: bool)
      modifies this, lifecycle`cancelled
      ensures View(reservations, shutdownRequested) ==
              L.SpawnStep(old(View(reservations, shutdownRequested)), attempt, session, activated)
    {
      var own := lifecycle.current.Some? && lifecycle.current.value.attempt == attempt;
      var started := L.ActiveAttempt(attempt, session, if own then L.OfAttempt(attempt)
            else L.BornCancelled, false, false);
      if !activated { CancelActive(started); }
      workers := workers[attempt := L.Running];
      active := Some(started);
      pc := if activated then L.Announce(attempt) else L.Top;
    }

    /** One region of the actor from where it stands to its next interference point. */
    method Act(hasSession: bool, ghost reservations: map<L.Attempt, L.Release>, ghost shutdownRequested: bool)
      requires L.ActEnabled(View(reservations, shutdownRequested))
      modifies this, lifecycle
      ensures View(reservations, shutdownRequested) ==
              L.ActStep(old(View(reservations, shutdownRequested)), hasSession)
    {
      match pc {
        case Top =>
          pc := if shuttingDown && active.None? && lifecycle.current.None? then L.Leaving else L.Parked;
        case Closing =>
          lifecycle.CloseAdmission();
          pc := if active.Some? then L.StopCheck(active.value.attempt) else L.Top;
        case StopCheck(attempt) =>
          pc := if L.StopRequested(lifecycle.View(), attempt) then L.StopPublish(attempt) else L.Top;
        case StopPublish(_) =>
          lifecycle.SendState(L.Disconnecting);
          if active.Some? { CancelActive(active.value); }
          pc := L.Top;
        case Starting(attempt, session) =>
          var activated := lifecycle.ActivateAttempt(attempt);
          pc := L.Spawning(attempt, session, activated);
        case Spawning(attempt, session, activated) =>
          Spawn(attempt, session, activated, reservations, shutdownRequested);
        case Announce(attempt) =>
          lifecycle.SendState(L.Connecting(attempt));
          pc := L.Top;
        case Establish(attempt) =>
          lifecycle.PublishConnected(attempt);
          pc := L.Top;
        case Members(attempt) =>
          lifecycle.PublishMembers(attempt);
          pc := L.Top;
        case Joining(ending) =>
          workers := workers - {ending.attempt};
          pc := L.Joined(ending);
        case Joined(ending) =>
          if ending.reconnect && !L.TokenFired(lifecycle.View(), ending.token) && ending.session.Some? && hasSession {
            pc := L.Requeueing(ending);
          } else {
            pc := L.Settling(ending.attempt, if ending.failed then L.Failed else L.Disconnected);
          }
        case Requeueing(ending) =>
          if ending.session.Some? { lifecycle.TakeForReconnect(ending.attempt, ending.session.value); }
          pc := L.Top;
        case Settling(attempt, outcome) =>
          lifecycle.SendState(outcome);
          pc := L.Clearing(attempt);
        case Clearing(attempt) =>
          var found := lifecycle.ClearAttempt(attempt);
          pc := if found then L.Completing(attempt) else L.Top;
        case Completing(attempt) =>
          lifecycle.StoreCompleted(attempt);
          pc := L.Top;
        case Leaving =>
          lifecycle.CloseAdmission();
          lifecycle.gone := true;
          pc := L.Exited;
      }
    }

    /** Waiting for an event and handling it up to its first shared access, as a step of the invariant's machine. */
    method HandleNext(ghost reservations: map<L.Attempt, L.Release>, ghost shutdownRequested: bool)
      requires I.Inv(View(reservations, shutdownRequested)) && pc == L.Parked && lifecycle.queue != []
      modifies this, lifecycle`queue
      ensures I.Inv(View(reservations, shutdownRequested))
      ensures View(reservations, shutdownRequested) == L.Next(old(View(reservations, shutdownRequested)), L.Receive)
    {
      I.StepKeeps(View(reservations, shutdownRequested), L.Receive);
      Receive(reservations, shutdownRequested);
    }

    /** One region, as a step of the invariant's machine; it leaves less to drain. */
    method Step(hasSession: bool, ghost reservations: map<L.Attempt, L.Release>, ghost shutdownRequested: bool)
      requires I.Inv(View(reservations, shutdownRequested)) && L.ActEnabled(View(reservations, shutdownRequested))
      modifies this, lifecycle
      ensures I.Inv(View(reservations, shutdownRequested))
      ensures View(reservations, shutdownRequested) ==
              L.Next(old(View(reservations, shutdownRequested)), L.Act(hasSession))
      ensures S.Rank(View(reservations, shutdownRequested)) < old(S.Rank(View(reservations, shutdownRequested)))
    {
      ActMoves(View(reservations, shutdownRequested), hasSession);
      Act(hasSession, reservations, shutdownRequested);
    }

    /** The worker's handle is ready to be joined. */
    predicate CanJoin(attempt: L.Attempt)
      reads this
    {
      L.WorkerIs(workers, attempt, L.Finished) || L.WorkerIs(workers, attempt, L.Crashed)
    }

    /** The loop of `start` between two waits: it always comes back to one, with every invariant intact. */
    method Proceed(hasSession: bool, ghost reservations: map<L.Attempt, L.Release>, ghost shutdownRequested: bool)
      requires I.Inv(View(reservations, shutdownRequested))
      modifies this, lifecycle
      ensures I.Inv(View(reservations, shutdownRequested))
      ensures pc == L.Parked || pc == L.Exited || (pc.Joining? && !CanJoin(pc.ending.attempt))
      ensures pc == L.Exited ==> lifecycle.current.None? && active.None? && workers == map[]
    {
      while !pc.Parked? && !pc.Exited? && (pc.Joining? ==> CanJoin(pc.ending.attempt))
        invariant I.Inv(View(reservations, shutdownRequested))
        decreases S.Rank(View(reservations, shutdownRequested))
      {
        Step(hasSession, reservations, shutdownRequested);
      }
      assert pc == L.Exited ==> workers.Keys == {};
    }
  }
}
