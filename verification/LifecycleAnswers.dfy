/**
 What the lifecycle answers to a reservation or a commit, and what it publishes
 on handling one event, told from who owns what and which tokens have fired.
 */
module LifecycleAnswers {
  import opened Basics
  import opened Lifecycle
  import opened LifecycleInvariant
  import opened LifecycleTheorems

  // --- reservations ---

  lemma OwnedExactly(s: State)
    requires Ownership(s)
    ensures s.sh.current.Some? <==> exists n :: OwnerCount(s, n) == 1
    ensures s.sh.current.None? ==> forall n :: OwnerCount(s, n) == 0
  {
    match AdmittedAttempt(s.sh.current)
    case None =>
    case Some(n) =>
      assert Starts(s.sh.queue) == [] || Starts(s.sh.queue) == [n];
      assert OwnerCount(s, n) == 1;
  }

  /**
   A reservation is refused as unavailable exactly after closing, as busy exactly
   while some attempt has an owner, and as stale exactly when it names a ticket other
   than the stored one. Otherwise it gets a number never given before.
   */
  lemma ReserveAnswersExactly(steps: seq<Step>, restart: Option<Ticket>)
    ensures var s := Run(INITIAL, steps);
            var answer := ReserveConnect(s.sh, restart).1;
            && (answer == Refused(Unavailable) <==> s.sh.closed)
            && (answer == Refused(Busy) <==> !s.sh.closed && exists n :: OwnerCount(s, n) == 1)
            && (answer == Refused(StaleTicket) <==>
                  && !s.sh.closed && (forall n :: OwnerCount(s, n) == 0)
                  && restart.Some? && s.sh.restart != restart)
            && (answer.Granted? ==>
                  && OwnerCount(s, answer.attempt) == 0
                  && answer.attempt !in s.sh.completed && answer.attempt !in s.sh.cancelled)
  {
    Reachable(steps);
    var s := Run(INITIAL, steps);
    OwnedExactly(s);
    IssuedIsBelow(s.sh.nextAttempt);
    assert s.sh.nextAttempt !in Issued(s.sh.nextAttempt);
  }

  // --- commits ---

  lemma CommitAnswers(s: State, n: Attempt, session: Option<SessionId>)
    requires Inv(s) && Enabled(s, Commit(n, session))
    ensures var (after, answer) := CommitReservation(s.sh, n, session);
            && (answer == TaskUnavailable <==> s.sh.closed)
            && (answer == PreparationCancelled <==> !s.sh.closed && n in s.sh.cancelled)
            && (answer == QueueFull <==>
                  !s.sh.closed && n !in s.sh.cancelled && |s.sh.queue| + s.sh.slots == QUEUE_CAPACITY)
            && answer != Superseded
            && after.queue == (if answer == Accepted then s.sh.queue + [Start(n, session)] else s.sh.queue)
  {
    assert n in Holding(s.reservations);
    assert AdmittedAttempt(s.sh.current) == Some(n);
  }

  /**
   A commit is refused exactly after closing, after its token fired, or on a full
   queue, in that order, and never as superseded. Otherwise its start is queued last.
   */
  lemma CommitAnswersExactly(steps: seq<Step>, n: Attempt, session: Option<SessionId>)
    requires Enabled(Run(INITIAL, steps), Commit(n, session))
    ensures var sh := Run(INITIAL, steps).sh;
            var (after, answer) := CommitReservation(sh, n, session);
            && (answer == TaskUnavailable <==> sh.closed)
            && (answer == PreparationCancelled <==> !sh.closed && n in sh.cancelled)
            && (answer == QueueFull <==>
                  !sh.closed && n !in sh.cancelled && |sh.queue| + sh.slots == QUEUE_CAPACITY)
            && answer != Superseded
            && after.queue == (if answer == Accepted then sh.queue + [Start(n, session)] else sh.queue)
  {
    Reachable(steps);
    CommitAnswers(Run(INITIAL, steps), n, session);
  }

  // --- events ---

  /** The attempt is running and nobody has cancelled it. */
  predicate Live(s: State, n: Attempt) { ActiveNumber(s.active) == Some(n) && n !in s.sh.cancelled }

  /** What handling an event should publish. */
  function Says(s: State, e: Event): seq<VpnState> {
    match e
    case Stop(n) => if ActiveNumber(s.active) == Some(n) && StopRequested(s.sh, n) then [Disconnecting] else []
    case Established(n) => if Live(s, n) then [Connected(n)] else []
    case MembersChanged(n, healthy) =>
      if !Live(s, n) then []
      else if healthy then [Connected(n)]
      else if Published(s.sh).Connected? then [Connecting(n)]
      else []
    case ScriptTunSuspended(n) => if Live(s, n) then [Connecting(n)] else []
    case _ => []
  }

  /** Receiving the event and the actor's next two regions, with nobody else running. */
  function Handled(s: State): State { Next(Next(Next(s, Receive), Act(false)), Act(false)) }

  /** A running attempt is the admission, under its own token, and the only one that can be published as connected. */
  predicate Backed(s: State) {
    s.active.Some? ==>
      var n := s.active.value.attempt;
      && Admitted(s.sh, n) && s.active.value.token == OfAttempt(n)
      && (n !in s.sh.cancelled ==> s.sh.current.value.phase == Active && !s.sh.current.value.stopRequested)
      && (Published(s.sh).Connected? ==> Published(s.sh).attempt == n)
  }

  lemma InvBacks(s: State)
    requires Inv(s)
    ensures Backed(s)
  {
  }

  lemma StopHandled(s: State)
    requires Backed(s) && s.pc.Parked? && s.sh.queue != [] && s.sh.queue[0].Stop?
    ensures Handled(s).sh.sent == s.sh.sent + Says(s, s.sh.queue[0])
  {
    assert s.sh.sent + [] == s.sh.sent;
  }

  lemma EstablishedHandled(s: State)
    requires Backed(s) && s.pc.Parked? && s.sh.queue != [] && s.sh.queue[0].Established?
    ensures Handled(s).sh.sent == s.sh.sent + Says(s, s.sh.queue[0])
  {
    assert s.sh.sent + [] == s.sh.sent;
  }

  lemma HealthyHandled(s: State)
    requires Backed(s) && s.pc.Parked? && s.sh.queue != []
    requires s.sh.queue[0].MembersChanged? && s.sh.queue[0].healthy && Live(s, s.sh.queue[0].attempt)
    ensures Handled(s).sh.sent == s.sh.sent + Says(s, s.sh.queue[0])
  {
  }

  lemma StaleMembersHandled(s: State)
    requires Backed(s) && s.pc.Parked? && s.sh.queue != []
    requires s.sh.queue[0].MembersChanged? && !Live(s, s.sh.queue[0].attempt)
    ensures Handled(s).sh.sent == s.sh.sent + Says(s, s.sh.queue[0])
  {
    assert s.sh.sent + [] == s.sh.sent;
  }

  lemma UnhealthyHandled(s: State)
    requires Backed(s) && s.pc.Parked? && s.sh.queue != []
    requires s.sh.queue[0].MembersChanged? && !s.sh.queue[0].healthy && Live(s, s.sh.queue[0].attempt)
    ensures Handled(s).sh.sent == s.sh.sent + Says(s, s.sh.queue[0])
  {
    assert s.sh.sent + [] == s.sh.sent;
  }

  lemma SuspensionHandled(s: State)
    requires Backed(s) && s.pc.Parked? && s.sh.queue != [] && s.sh.queue[0].ScriptTunSuspended?
    ensures Handled(s).sh.sent == s.sh.sent + Says(s, s.sh.queue[0])
  {
    assert s.sh.sent + [] == s.sh.sent;
  }

  lemma OthersHandled(s: State)
    requires Backed(s) && s.pc.Parked? && s.sh.queue != []
    requires var e := s.sh.queue[0];
             e.TunnelMonitor? || e.ReconnectWanted? || e.WorkerFailed? || e.PreparationReleased?
    ensures Handled(s).sh.sent == s.sh.sent + Says(s, s.sh.queue[0])
  {
    assert s.sh.sent + [] == s.sh.sent;
  }

  /** Handling a stop, a report or a suspension publishes exactly what it should. */
  lemma HandlingPublishes(steps: seq<Step>)
    requires var s := Run(INITIAL, steps);
             s.pc.Parked? && s.sh.queue != [] && !s.sh.queue[0].Start? && !s.sh.queue[0].Ended?
    ensures var s := Run(INITIAL, steps);
            Handled(s).sh.sent == s.sh.sent + Says(s, s.sh.queue[0])
  {
    Reachable(steps);
    var s := Run(INITIAL, steps);
    InvBacks(s);
    if s.sh.queue[0].Stop? { StopHandled(s); }
    else if s.sh.queue[0].Established? { EstablishedHandled(s); }
    else if s.sh.queue[0].ScriptTunSuspended? { SuspensionHandled(s); }
    else if !s.sh.queue[0].MembersChanged? { OthersHandled(s); }
    else if !Live(s, s.sh.queue[0].attempt) { StaleMembersHandled(s); }
    else if s.sh.queue[0].healthy { HealthyHandled(s); }
    else { UnhealthyHandled(s); }
  }

  /** What the invariant says of a start at the head of the queue. */
  predicate StartReady(s: State) {
    && s.pc.Parked? && s.sh.queue != [] && s.sh.queue[0].Start?
    && var n := s.sh.queue[0].attempt;
    && Admitted(s.sh, n) && s.active.None?
    && (n !in s.sh.cancelled ==> s.sh.current.value.phase == Pending && !s.sh.current.value.stopRequested)
  }

  lemma QueuedStart(s: State)
    requires Inv(s) && s.pc.Parked? && s.sh.queue != [] && s.sh.queue[0].Start?
    ensures StartReady(s)
  {
    assert Starts(s.sh.queue)[0] == s.sh.queue[0].attempt;
  }

  lemma StartSpawns(s: State)
    requires StartReady(s)
    ensures var n, session := s.sh.queue[0].attempt, s.sh.queue[0].session;
            var t := Handled(s);
            && t.active == Some(ActiveAttempt(n, session, OfAttempt(n), false, false))
            && WorkerIs(t.workers, n, Running) && t.sh.sent == s.sh.sent
            && t.pc == (if n in s.sh.cancelled then Top else Announce(n))
  {
  }

  lemma AnnouncedNext(t: State)
    requires t.pc.Top? || t.pc.Announce?
    ensures Next(t, Act(false)).sh.sent == t.sh.sent + (if t.pc.Top? then [] else [Connecting(t.pc.attempt)])
  {
    assert t.sh.sent + [] == t.sh.sent;
  }

  /**
   A queued start always runs a worker, under its own token. Cancelled before, it is
   announced to nobody; otherwise it becomes active and is announced as connecting.
   */
  lemma StartAlwaysRuns(steps: seq<Step>)
    requires var s := Run(INITIAL, steps); s.pc.Parked? && s.sh.queue != [] && s.sh.queue[0].Start?
    ensures var s := Run(INITIAL, steps);
            var n, session := s.sh.queue[0].attempt, s.sh.queue[0].session;
            var t := Handled(s);
            && t.active == Some(ActiveAttempt(n, session, OfAttempt(n), false, false))
            && WorkerIs(t.workers, n, Running)
            && Next(t, Act(false)).sh.sent == s.sh.sent + (if n in s.sh.cancelled then [] else [Connecting(n)])
  {
    Reachable(steps);
    QueuedStart(Run(INITIAL, steps));
    StartSpawns(Run(INITIAL, steps));
    AnnouncedNext(Handled(Run(INITIAL, steps)));
  }

  /** A disconnect with nothing admitted is published at once; otherwise the stop event is queued if there is room. */
  lemma DisconnectAnswers(steps: seq<Step>)
    ensures var s := Run(INITIAL, steps);
            var t := Next(s, Disconnect);
            && t.sh.restart.None?
            && ((forall n :: OwnerCount(s, n) == 0) ==> t.sh.sent == s.sh.sent + [Disconnected])
            && (forall n :: OwnerCount(s, n) == 1 ==>
                  && StopRequested(t.sh, n) && n in t.sh.cancelled && t.sh.sent == s.sh.sent
                  && (!StopRequested(s.sh, n) && HasRoom(s.sh) ==> t.sh.queue == s.sh.queue + [Stop(n)]))
  {
    Reachable(steps);
    var s := Run(INITIAL, steps);
    OwnedExactly(s);
    forall n | OwnerCount(s, n) == 1 ensures Admitted(s.sh, n) { UniqueOwnership(steps, n); }
    StepKeeps(s, Disconnect);
  }
}
