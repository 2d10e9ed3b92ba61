/**
 The global ownership invariant of the lifecycle and the proof that every step
 of every thread keeps it.
 */
module LifecycleInvariant {
  import opened Basics
  import opened Lifecycle

  // --- who owns an attempt ---

  /** Reservations that own their attempt: `Drop` has not cleared the admission yet. */
  function Holding(reservations: map<Attempt, Release>): set<Attempt> {
    set n | n in reservations && reservations[n] in {Held, Dropping, TokenCancelled}
  }

  /** Attempts whose reservation released the admission but has not stored the completion flag. */
  function Clearings(reservations: map<Attempt, Release>): set<Attempt> {
    set n | n in reservations && reservations[n] == Cleared
  }

  /** The attempts of the queued `Start` events, in order. */
  function Starts(q: seq<Event>): seq<Attempt> {
    if q == [] then [] else if q[0].Start? then [q[0].attempt] + Starts(q[1..]) else Starts(q[1..])
  }

  /** The attempt the actor has dequeued but not spawned, or has taken but not released. */
  function PcHolds(pc: Pc): Option<Attempt> {
    match pc
    case Starting(n, _) => Some(n)
    case Spawning(n, _, _) => Some(n)
    case Joining(a) => Some(a.attempt)
    case Joined(a) => Some(a.attempt)
    case Requeueing(a) => Some(a.attempt)
    case Settling(n, _) => Some(n)
    case Clearing(n) => Some(n)
    case _ => None
  }

  function PcCompletes(pc: Pc): Option<Attempt> {
    if pc.Completing? then Some(pc.attempt) else None
  }

  function PcJoins(pc: Pc): Option<Attempt> {
    if pc.Joining? then Some(pc.ending.attempt) else None
  }

  function Unit(o: Option<Attempt>): set<Attempt> {
    if o.Some? then {o.value} else {}
  }

  function Issued(next: Attempt): set<Attempt> {
    if next == 0 then {} else Issued(next - 1) + {next - 1}
  }

  // --- the invariant, one concern at a time ---

  /** One place holds the admitted attempt and every other place is empty. */
  ghost predicate OneOwner(
    admitted: Option<Attempt>, holding: set<Attempt>, starts: seq<Attempt>, active: Option<Attempt>,
          held: Option<Attempt>)
  {
    match admitted
    case None => holding == {} && starts == [] && active.None? && held.None?
    case Some(n) =>
      || (holding == {n} && starts == [] && active.None? && held.None?)
      || (holding == {} && starts == [n] && active.None? && held.None?)
      || (holding == {} && starts == [] && active == Some(n) && held.None?)
      || (holding == {} && starts == [] && active.None? && held == Some(n))
  }

  /** Every issued attempt is admitted, being released, or completed: exactly one of the three. */
  ghost predicate OneFate(
    next: Attempt, admitted: Option<Attempt>, clearing: set<Attempt>, completing: Option<Attempt>,
          completed: set<Attempt>)
  {
    && completed + Unit(admitted) + clearing + Unit(completing) == Issued(next)
    && completed !! Unit(admitted) !! clearing !! Unit(completing)
  }

  ghost predicate StopConsistent(current: Option<Admission>, closed: bool, cancelled: set<Attempt>) {
    current.Some? ==>
      && (current.value.stopRequested <==> current.value.phase == Stopping)
      && (current.value.stopRequested ==> current.value.attempt in cancelled)
      && (closed ==> current.value.stopRequested)
  }

  /** Only issued attempts are named anywhere. */
  ghost predicate NamesIssued(
    next: Attempt, admitted: Option<Attempt>, reserved: set<Attempt>, cancelled: set<Attempt>, restart: Option<Ticket>)
  {
    && (admitted.Some? ==> admitted.value < next)
    && (forall n :: n in reserved ==> n < next)
    && (forall n :: n in cancelled ==> n < next)
    && (restart.Some? ==> restart.value.attempt < next)
  }

  /** `Drop` cancels the token before it does anything else. */
  ghost predicate DropsCancelled(reservations: map<Attempt, Release>, cancelled: set<Attempt>) {
    forall n :: n in reservations && reservations[n] != Held && reservations[n] != Dropping ==> n in cancelled
  }

  /** There is a worker exactly for the attempt the actor runs or waits to join. */
  ghost predicate WorkersOwned(workers: set<Attempt>, active: Option<Attempt>, joining: Option<Attempt>) {
    workers == Unit(active) + Unit(joining)
  }

  predicate OwnToken(a: ActiveAttempt) { a.token == OfAttempt(a.attempt) }

  ghost predicate TokensShared(active: Option<ActiveAttempt>, pc: Pc) {
    && (active.Some? ==> OwnToken(active.value))
    && (pc.Joining? || pc.Joined? || pc.Requeueing? ==> OwnToken(pc.ending))
  }

  /** What each program counter says about the attempt it works on. */
  ghost predicate PcConsistent(pc: Pc, active: Option<Attempt>, current: Option<Admission>) {
    && (pc.StopCheck? || pc.StopPublish? || pc.Announce? || pc.Establish? || pc.Members? ==> active == Some(pc.attempt))
    && (pc.StopPublish? ==> current.Some? && current.value.stopRequested)
    && (pc.Requeueing? ==> pc.ending.session.Some?)
    && (pc.Settling? ==> pc.outcome in {Disconnected, Failed})
    && (pc.Leaving? || pc.Exited? ==> active.None? && current.None?)
  }

  ghost predicate ShutdownConsistent(pc: Pc, shuttingDown: bool, closed: bool, gone: bool) {
    && (pc.Closing? || pc.Leaving? || pc.Exited? ==> shuttingDown)
    && (shuttingDown ==> closed || pc.Closing?)
    && (closed ==> shuttingDown)
    && (gone ==> pc.Exited?)
  }

  /** Reservations prepare, queued starts are pending, and an attempt that was never activated runs cancelled. */
  ghost predicate PhaseConsistent(
    current: Option<Admission>, pc: Pc, holding: set<Attempt>, starts: seq<Attempt>, active: Option<Attempt>,
    cancelled: set<Attempt>)
  {
    current.Some? ==>
      var a := current.value;
      && (holding != {} ==> a.phase == Preparing || a.phase == Stopping)
      && (starts != [] || pc.Starting? ==> a.phase == Pending || a.phase == Stopping)
      && (pc.Spawning? && pc.activated ==> a.phase == Active || a.phase == Stopping)
      && (active.Some? ==> a.phase == Active || a.attempt in cancelled)
      && (pc.Announce? || pc.Establish? || pc.Members? ==> a.phase == Active || a.phase == Stopping)
  }

  predicate Quiet(v: VpnState) { v.Disconnected? || v.Failed? || v.ReconnectRequired? }

  predicate PcRuns(pc: Pc) { pc.Joining? || pc.Joined? || pc.Requeueing? || pc.Settling? }

  /** Anything but a resting state is published by the attempt the actor runs or is ending. */
  ghost predicate PublicationOwned(
    sent: seq<VpnState>, pc: Pc, active: Option<Attempt>, admitted: Option<Attempt>, restart: Option<Ticket>)
  {
    && sent != []
    && var published := sent[|sent| - 1];
    && (active.None? && !PcRuns(pc) ==> Quiet(published))
    && (published.Connecting? || published.Connected? ==> admitted == Some(published.attempt))
    && (restart.Some? ==> admitted.None? && published == ReconnectRequired(restart.value))
  }

  predicate LiveWorker(workers: map<Attempt, Worker>, active: Option<Attempt>) {
    active.Some? && Sending(workers, active.value)
  }

  predicate WorkerDone(workers: map<Attempt, Worker>, n: Attempt) {
    WorkerIs(workers, n, Ending) || WorkerIs(workers, n, Finished)
  }

  /** Slots are only ever held by a worker that may still write. */
  ghost predicate QueueBounded(length: nat, slots: nat, live: bool) {
    length + slots <= QUEUE_CAPACITY && (slots > 0 ==> live)
  }

  /** The worker has been joined and the admission is about to be released. */
  predicate PcReleases(pc: Pc) { pc.Joined? || pc.Requeueing? || pc.Settling? || pc.Clearing? }

  /** `Ended` is the last thing a worker says, and stays queued until the actor takes the attempt. */
  ghost predicate EndedQueued(
    next: Attempt, q: seq<Event>, pc: Pc, workers: map<Attempt, Worker>, active: Option<Attempt>,
          admitted: Option<Attempt>)
  {
    && (forall n: Attempt :: Ended(n) in q ==> n < next)
    && (admitted.Some? && Ended(admitted.value) in q ==> WorkerDone(workers, admitted.value) || PcReleases(pc))
    && (active.Some? && WorkerDone(workers, active.value) ==> Ended(active.value) in q)
    && (pc.Joining? ==> WorkerDone(workers, pc.ending.attempt))
  }

  /** Something that will still enqueue an event: a reservation not yet fully dropped, or a live worker. */
  ghost predicate WakeSource(reserved: set<Attempt>, live: bool) {
    reserved != {} || live
  }

  ghost predicate NoLostWakeup(shuttingDown: bool, pc: Pc, length: nat, reserved: set<Attempt>, live: bool) {
    shuttingDown && pc.Parked? && length == 0 ==> WakeSource(reserved, live)
  }

  ghost predicate Ownership(s: State) {
    var admitted := AdmittedAttempt(s.sh.current);
    && OneOwner(admitted, Holding(s.reservations), Starts(s.sh.queue), ActiveNumber(s.active), PcHolds(s.pc))
    && OneFate(s.sh.nextAttempt, admitted, Clearings(s.reservations), PcCompletes(s.pc), s.sh.completed)
  }

  ghost predicate Control(s: State) {
    var active := ActiveNumber(s.active);
    && StopConsistent(s.sh.current, s.sh.closed, s.sh.cancelled)
    && NamesIssued(s.sh.nextAttempt, AdmittedAttempt(s.sh.current), s.reservations.Keys, s.sh.cancelled, s.sh.restart)
    && DropsCancelled(s.reservations, s.sh.cancelled)
    && WorkersOwned(s.workers.Keys, active, PcJoins(s.pc))
    && TokensShared(s.active, s.pc)
    && PcConsistent(s.pc, active, s.sh.current)
    && ShutdownConsistent(s.pc, s.shuttingDown, s.sh.closed, s.sh.gone)
    && PhaseConsistent(s.sh.current, s.pc, Holding(s.reservations), Starts(s.sh.queue), active, s.sh.cancelled)
  }

  ghost predicate Channel(s: State) {
    var active, admitted := ActiveNumber(s.active), AdmittedAttempt(s.sh.current);
    && PublicationOwned(s.sh.sent, s.pc, active, admitted, s.sh.restart)
    && QueueBounded(|s.sh.queue|, s.sh.slots, LiveWorker(s.workers, active))
    && EndedQueued(s.sh.nextAttempt, s.sh.queue, s.pc, s.workers, active, admitted)
    && NoLostWakeup(s.shuttingDown, s.pc, |s.sh.queue|, s.reservations.Keys, LiveWorker(s.workers, active))
  }

  ghost predicate Inv(s: State) {
    Ownership(s) && Control(s) && Channel(s)
  }

  // --- arithmetic of the parts ---

  lemma {:induction false} StartsAppend(q: seq<Event>, e: Event)
    ensures Starts(q + [e]) == if e.Start? then Starts(q) + [e.attempt] else Starts(q)
  {
    if q == [] {
      assert q + [e] == [e] && [e][1..] == [];
    } else {
      assert (q + [e])[0] == q[0] && (q + [e])[1..] == q[1..] + [e];
      StartsAppend(q[1..], e);
    }
  }

  lemma {:induction false} IssuedIsBelow(next: Attempt)
    ensures forall n: Attempt :: n in Issued(next) <==> n < next
  {
    if next > 0 { IssuedIsBelow(next - 1); }
  }

  lemma Restage(reservations: map<Attempt, Release>, n: Attempt, r: Release)
    ensures Holding(reservations[n := r]) ==
            if r in {Held, Dropping, TokenCancelled} then Holding(reservations) + {n} else Holding(reservations) - {n}
    ensures Clearings(reservations[n := r]) ==
            if r == Cleared then Clearings(reservations) + {n} else Clearings(reservations) - {n}
  {
  }

  lemma Forget(reservations: map<Attempt, Release>, n: Attempt)
    ensures Holding(reservations - {n}) == Holding(reservations) - {n}
    ensures Clearings(reservations - {n}) == Clearings(reservations) - {n}
  {
  }

  /** Issuing a number makes it the admission. */
  lemma FateIssued(next: Attempt, clearing: set<Attempt>, completing: Option<Attempt>, completed: set<Attempt>)
    requires OneFate(next, None, clearing, completing, completed)
    ensures OneFate(next + 1, Some(next), clearing, completing, completed)
  {
    IssuedIsBelow(next);
  }

  /** An admission ends by being released in `Drop`, released by the actor, or completed at once. */
  lemma FateReleased(next: Attempt, n: Attempt, clearing: set<Attempt>, completing: Option<Attempt>,
      completed: set<Attempt>)
    requires OneFate(next, Some(n), clearing, completing, completed)
    ensures OneFate(next, None, clearing + {n}, completing, completed)
    ensures completing.None? ==> OneFate(next, None, clearing, Some(n), completed)
    ensures OneFate(next, None, clearing, completing, completed + {n})
  {
  }

  lemma FateCompleted(next: Attempt, admitted: Option<Attempt>, n: Attempt, clearing: set<Attempt>,
                      completing: Option<Attempt>, completed: set<Attempt>)
    requires OneFate(next, admitted, clearing, completing, completed)
    ensures n in clearing ==> OneFate(next, admitted, clearing - {n}, completing, completed + {n})
    ensures completing == Some(n) ==> OneFate(next, admitted, clearing, None, completed + {n})
  {
    if n in clearing { assert completed + {n} + Unit(admitted) + (clearing - {n}) + Unit(completing) == Issued(next); }
  }

  // --- clients ---

  lemma ReserveKeepsOwnership(s: State, restart: Option<Ticket>)
    requires Ownership(s)
    ensures Ownership(ReserveStep(s, restart))
  {
    var n := s.sh.nextAttempt;
    if ReserveConnect(s.sh, restart).1.Granted? {
      FateIssued(n, Clearings(s.reservations), PcCompletes(s.pc), s.sh.completed);
      Restage(s.reservations, n, Held);
      IssuedIsBelow(n);
      assert Clearings(s.reservations) - {n} == Clearings(s.reservations);
    }
  }

  lemma ReserveKeeps(s: State, restart: Option<Ticket>)
    requires Inv(s)
    ensures Inv(ReserveStep(s, restart))
  {
    ReserveKeepsOwnership(s, restart);
  }

  lemma CommitKeepsOwnership(s: State, n: Attempt, session: Option<SessionId>)
    requires Ownership(s) && Enabled(s, Commit(n, session))
    ensures Ownership(CommitStep(s, n, session))
  {
    assert n in Holding(s.reservations);
    StartsAppend(s.sh.queue, Start(n, session));
    Restage(s.reservations, n, Dropping);
    Forget(s.reservations, n);
    assert Clearings(s.reservations) - {n} == Clearings(s.reservations);
  }

  lemma CommitAcceptedControl(s: State, n: Attempt, session: Option<SessionId>)
    requires Ownership(s) && Control(s) && Enabled(s, Commit(n, session)) &&
          CommitReservation(s.sh, n, session).1.Accepted?
    ensures Control(CommitStep(s, n, session))
  {
    assert n in Holding(s.reservations);
    StartsAppend(s.sh.queue, Start(n, session));
    Forget(s.reservations, n);
  }

  lemma CommitRefusedControl(s: State, n: Attempt, session: Option<SessionId>)
    requires Ownership(s) && Control(s) && Enabled(s, Commit(n, session)) &&
          !CommitReservation(s.sh, n, session).1.Accepted?
    ensures Control(CommitStep(s, n, session))
  {
    assert n in Holding(s.reservations);
    Restage(s.reservations, n, Dropping);
  }

  lemma CommitKeepsControl(s: State, n: Attempt, session: Option<SessionId>)
    requires Ownership(s) && Control(s) && Enabled(s, Commit(n, session))
    ensures Control(CommitStep(s, n, session))
  {
    if CommitReservation(s.sh, n, session).1.Accepted? {
      CommitAcceptedControl(s, n, session);
    } else {
      CommitRefusedControl(s, n, session);
    }
  }

  lemma CommitKeepsChannel(s: State, n: Attempt, session: Option<SessionId>)
    requires Ownership(s) && Channel(s) && Enabled(s, Commit(n, session))
    ensures Channel(CommitStep(s, n, session))
  {
    assert n in Holding(s.reservations);
  }

  lemma DisconnectKeeps(s: State)
    requires Inv(s)
    ensures Inv(s.(sh := RequestDisconnect(s.sh)))
  {
    if s.sh.current.Some? { StartsAppend(s.sh.queue, Stop(s.sh.current.value.attempt)); }
  }

  lemma DisconnectAndWaitKeeps(s: State)
    requires Inv(s)
    ensures Inv(s.(sh := BeginDisconnectAndWait(s.sh).0))
  {
    if s.sh.current.Some? { StartsAppend(s.sh.queue, Stop(s.sh.current.value.attempt)); }
  }

  lemma CancelKeeps(s: State, attempts: set<Attempt>)
    requires Inv(s) && forall n :: n in attempts ==> n < s.sh.nextAttempt
    ensures Inv(s.(sh := s.sh.(cancelled := s.sh.cancelled + attempts)))
  {
  }

  // --- the reservation's Drop ---

  lemma ReleaseKeepsOwnership(s: State, n: Attempt)
    requires Ownership(s) && n in s.reservations
    ensures Ownership(ReleaseStep(s, n))
  {
    var clearing := Clearings(s.reservations);
    match s.reservations[n]
    case Held => Restage(s.reservations, n, Dropping);
      assert clearing - {n} == clearing;
    case Dropping => Restage(s.reservations, n, TokenCancelled);
      assert clearing - {n} == clearing;
    case TokenCancelled =>
      assert n in Holding(s.reservations);
      Restage(s.reservations, n, Cleared);
      FateReleased(s.sh.nextAttempt, n, clearing, PcCompletes(s.pc), s.sh.completed);
    case Cleared =>
      Restage(s.reservations, n, Waking);
      assert Holding(s.reservations) - {n} == Holding(s.reservations);
      FateCompleted(s.sh.nextAttempt, AdmittedAttempt(s.sh.current), n, clearing, PcCompletes(s.pc), s.sh.completed);
    case Waking =>
      Forget(s.reservations, n);
      StartsAppend(s.sh.queue, PreparationReleased);
      assert clearing - {n} == clearing && Holding(s.reservations) - {n} == Holding(s.reservations);
  }

  lemma ReleaseBeginsKeeps(s: State, n: Attempt)
    requires Inv(s) && n in s.reservations && (s.reservations[n] == Held || s.reservations[n] == Dropping)
    ensures Control(ReleaseStep(s, n)) && Channel(ReleaseStep(s, n))
  {
    assert n in Holding(s.reservations);
  }

  lemma ReleaseClearsKeepsControl(s: State, n: Attempt)
    requires Inv(s) && n in s.reservations && s.reservations[n] == TokenCancelled
    ensures Control(ReleaseStep(s, n))
  {
    assert n in Holding(s.reservations);
  }

  lemma ReleaseClearsKeepsChannel(s: State, n: Attempt)
    requires Inv(s) && n in s.reservations && s.reservations[n] == TokenCancelled
    ensures Channel(ReleaseStep(s, n))
  {
    assert n in Holding(s.reservations);
  }

  lemma ReleaseCompletesKeeps(s: State, n: Attempt)
    requires Inv(s) && n in s.reservations && s.reservations[n] == Cleared
    ensures Control(ReleaseStep(s, n)) && Channel(ReleaseStep(s, n))
  {
    Restage(s.reservations, n, Waking);
    assert Holding(s.reservations) - {n} == Holding(s.reservations);
  }

  lemma ReleaseWakesKeeps(s: State, n: Attempt)
    requires Inv(s) && n in s.reservations && s.reservations[n] == Waking
    ensures Control(ReleaseStep(s, n)) && Channel(ReleaseStep(s, n))
  {
    Forget(s.reservations, n);
    assert Holding(s.reservations) - {n} == Holding(s.reservations);
    StartsAppend(s.sh.queue, PreparationReleased);
  }

  // --- the worker ---

  lemma WorkerSlotKeeps(s: State, n: Attempt)
    requires Inv(s) && Enabled(s, WorkerSlot(n))
    ensures Inv(Effect(s, WorkerSlot(n)))
  {
  }

  lemma WorkerSendKeeps(s: State, n: Attempt, e: Event)
    requires Inv(s) && Enabled(s, WorkerSend(n, e))
    ensures Inv(Effect(s, WorkerSend(n, e)))
  {
    StartsAppend(s.sh.queue, e);
  }

  lemma WorkerEndedKeeps(s: State, n: Attempt)
    requires Inv(s) && Enabled(s, WorkerEnded(n))
    ensures Inv(Effect(s, WorkerEnded(n)))
  {
    StartsAppend(s.sh.queue, Ended(n));
  }

  lemma WorkerReturnKeeps(s: State, n: Attempt)
    requires Inv(s) && Enabled(s, WorkerReturn(n))
    ensures Inv(Effect(s, WorkerReturn(n)))
  {
  }

  lemma WorkerCrashKeeps(s: State, n: Attempt)
    requires Inv(s) && Enabled(s, WorkerCrash(n))
    ensures Inv(Effect(s, WorkerCrash(n)))
  {
  }

  // --- the actor ---

  lemma Tail(q: seq<Event>)
    requires q != []
    ensures forall e :: e in q <==> e == q[0] || e in q[1..]
  {
    assert q == [q[0]] + q[1..];
  }

  /** Dequeuing anything but `Start` and `Ended` moves no ownership. */
  lemma DequeueKeeps(s: State)
    requires Inv(s) && Enabled(s, Receive) && !s.sh.queue[0].Start? && !s.sh.queue[0].Ended?
    ensures Inv(Dequeue(s))
  {
    Tail(s.sh.queue);
    assert Starts(s.sh.queue) == Starts(s.sh.queue[1..]);
  }

  predicate RecordsOnly(e: Event) {
    e.TunnelMonitor? || e.PreparationReleased? || e.WorkerFailed? || e.ReconnectWanted?
  }

  lemma DispatchRecordKeeps(s: State, e: Event)
    requires Inv(s) && s.pc.Top? && RecordsOnly(e)
    ensures Inv(Dispatch(s, e))
  {
  }

  lemma DispatchStopKeeps(s: State, n: Attempt)
    requires Inv(s) && s.pc.Top?
    ensures Inv(Dispatch(s, Stop(n)))
  {
  }

  lemma DispatchCheckKeepsControl(s: State, e: Event)
    requires Ownership(s) && Control(s) && s.pc.Top? && (e.Established? || e.MembersChanged? || e.ScriptTunSuspended?)
    ensures Ownership(Dispatch(s, e)) && Control(Dispatch(s, e))
  {
    if s.active.Some? { assert AdmittedAttempt(s.sh.current) == ActiveNumber(s.active); }
  }

  lemma DispatchCheckKeeps(s: State, e: Event)
    requires Inv(s) && s.pc.Top? && (e.Established? || e.MembersChanged? || e.ScriptTunSuspended?)
    ensures Inv(Dispatch(s, e))
  {
    DispatchCheckKeepsControl(s, e);
  }

  /** A dequeued `Start` hands its attempt to the actor. */
  lemma ReceiveStartKeeps(s: State)
    requires Inv(s) && Enabled(s, Receive) && s.sh.queue[0].Start?
    ensures Inv(Dispatch(Dequeue(s), s.sh.queue[0]))
  {
    var q := s.sh.queue;
    Tail(q);
    assert Starts(q) == [q[0].attempt] + Starts(q[1..]);
    assert Starts(q)[0] == q[0].attempt && |Starts(q)| == 1 + |Starts(q[1..])|;
  }

  /** A dequeued `Ended` turns the running attempt into the one being joined. */
  lemma ReceiveEndedKeeps(s: State)
    requires Inv(s) && Enabled(s, Receive) && s.sh.queue[0].Ended? && ActiveIs(s, s.sh.queue[0].attempt)
    ensures Inv(Dispatch(Dequeue(s), s.sh.queue[0]))
  {
    Tail(s.sh.queue);
    assert Starts(s.sh.queue) == Starts(s.sh.queue[1..]);
  }

  lemma ReceiveStaleEndedKeeps(s: State)
    requires Inv(s) && Enabled(s, Receive) && s.sh.queue[0].Ended? && !ActiveIs(s, s.sh.queue[0].attempt)
    ensures Inv(Dequeue(s))
  {
    Tail(s.sh.queue);
    assert Starts(s.sh.queue) == Starts(s.sh.queue[1..]);
  }

  lemma ReceiveKeeps(s: State)
    requires Inv(s) && Enabled(s, Receive)
    ensures Inv(Effect(s, Receive))
  {
    var e := s.sh.queue[0];
    if e.Start? { ReceiveStartKeeps(s); }
    else if e.Ended? { if ActiveIs(s, e.attempt) { ReceiveEndedKeeps(s); } else { ReceiveStaleEndedKeeps(s); } }
    else {
      DequeueKeeps(s);
      if RecordsOnly(e) { DispatchRecordKeeps(Dequeue(s), e); }
      else if e.Stop? { DispatchStopKeeps(Dequeue(s), e.attempt); }
      else { DispatchCheckKeeps(Dequeue(s), e); }
    }
  }

  lemma ActReleasesKeepsOwnership(s: State, hasSession: bool)
    requires Ownership(s) && Control(s) && (s.pc.Requeueing? || s.pc.Clearing? || s.pc.Completing?)
    ensures Ownership(ActStep(s, hasSession))
  {
    var next, clearing, completing, completed :=
      s.sh.nextAttempt, Clearings(s.reservations), PcCompletes(s.pc), s.sh.completed;
    if s.pc.Completing? {
      FateCompleted(next, AdmittedAttempt(s.sh.current), s.pc.attempt, clearing, completing, completed);
    } else {
      FateReleased(next, PcHolds(s.pc).value, clearing, completing, completed);
    }
  }

  lemma LoopKeeps(s: State, hasSession: bool)
    requires Inv(s) && (s.pc.Top? || s.pc.Leaving?)
    ensures Inv(ActStep(s, hasSession))
  {
  }

  lemma CloseKeeps(s: State, hasSession: bool)
    requires Inv(s) && s.pc.Closing?
    ensures Inv(ActStep(s, hasSession))
  {
  }

  lemma StopKeeps(s: State, hasSession: bool)
    requires Inv(s) && (s.pc.StopCheck? || s.pc.StopPublish?)
    ensures Inv(ActStep(s, hasSession))
  {
  }

  lemma ActivateKeeps(s: State, hasSession: bool)
    requires Inv(s) && s.pc.Starting?
    ensures Inv(ActStep(s, hasSession))
  {
  }

  lemma SpawnKeepsOwnership(s: State, hasSession: bool)
    requires Ownership(s) && s.pc.Spawning?
    ensures Ownership(ActStep(s, hasSession)) && s.active.None?
  {
  }

  lemma FirstWorker(workers: map<Attempt, Worker>, n: Attempt, w: Worker)
    requires workers.Keys == {}
    ensures workers[n := w].Keys == {n}
  {
  }

  lemma SpawnKeepsControl(s: State, hasSession: bool)
    requires Ownership(s) && Control(s) && s.pc.Spawning? && s.active.None?
    ensures Control(ActStep(s, hasSession))
  {
    assert AdmittedAttempt(s.sh.current) == Some(s.pc.attempt);
    FirstWorker(s.workers, s.pc.attempt, Running);
  }

  lemma SpawnKeeps(s: State, hasSession: bool)
    requires Inv(s) && s.pc.Spawning?
    ensures Inv(ActStep(s, hasSession))
  {
    SpawnKeepsOwnership(s, hasSession);
    SpawnKeepsControl(s, hasSession);
  }

  lemma AnnounceKeeps(s: State, hasSession: bool)
    requires Inv(s) && s.pc.Announce?
    ensures Inv(ActStep(s, hasSession))
  {
  }

  lemma EstablishKeeps(s: State, hasSession: bool)
    requires Inv(s) && s.pc.Establish?
    ensures Inv(ActStep(s, hasSession))
  {
  }

  lemma MembersKeeps(s: State, hasSession: bool)
    requires Inv(s) && s.pc.Members?
    ensures Inv(ActStep(s, hasSession))
  {
  }

  lemma JoinKeeps(s: State, hasSession: bool)
    requires Inv(s) && ActEnabled(s) && (s.pc.Joining? || s.pc.Joined?)
    ensures Inv(ActStep(s, hasSession))
  {
  }

  lemma RequeueKeeps(s: State, hasSession: bool)
    requires Inv(s) && s.pc.Requeueing?
    ensures Inv(ActStep(s, hasSession))
  {
    ActReleasesKeepsOwnership(s, hasSession);
  }

  lemma SettleKeeps(s: State, hasSession: bool)
    requires Inv(s) && (s.pc.Settling? || s.pc.Clearing? || s.pc.Completing?)
    ensures Inv(ActStep(s, hasSession))
  {
    if !s.pc.Settling? { ActReleasesKeepsOwnership(s, hasSession); }
  }

  lemma ActKeeps(s: State, hasSession: bool)
    requires Inv(s) && ActEnabled(s)
    ensures Inv(ActStep(s, hasSession))
  {
    match s.pc
    case Top => LoopKeeps(s, hasSession);
    case Leaving => LoopKeeps(s, hasSession);
    case Closing => CloseKeeps(s, hasSession);
    case StopCheck(_) => StopKeeps(s, hasSession);
    case StopPublish(_) => StopKeeps(s, hasSession);
    case Starting(_, _) => ActivateKeeps(s, hasSession);
    case Spawning(_, _, _) => SpawnKeeps(s, hasSession);
    case Announce(_) => AnnounceKeeps(s, hasSession);
    case Establish(_) => EstablishKeeps(s, hasSession);
    case Members(_) => MembersKeeps(s, hasSession);
    case Joining(_) => JoinKeeps(s, hasSession);
    case Joined(_) => JoinKeeps(s, hasSession);
    case Requeueing(_) => RequeueKeeps(s, hasSession);
    case Settling(_, _) => SettleKeeps(s, hasSession);
    case Clearing(_) => SettleKeeps(s, hasSession);
    case Completing(_) => SettleKeeps(s, hasSession);
  }

  lemma CommitKeeps(s: State, n: Attempt, session: Option<SessionId>)
    requires Inv(s) && Enabled(s, Commit(n, session))
    ensures Inv(CommitStep(s, n, session))
  {
    CommitKeepsOwnership(s, n, session);
    CommitKeepsControl(s, n, session);
    CommitKeepsChannel(s, n, session);
  }

  lemma ReleaseKeeps(s: State, n: Attempt)
    requires Inv(s) && n in s.reservations
    ensures Inv(ReleaseStep(s, n))
  {
    ReleaseKeepsOwnership(s, n);
    match s.reservations[n]
    case Held => ReleaseBeginsKeeps(s, n);
    case Dropping => ReleaseBeginsKeeps(s, n);
    case TokenCancelled => ReleaseClearsKeepsControl(s, n); ReleaseClearsKeepsChannel(s, n);
    case Cleared => ReleaseCompletesKeeps(s, n);
    case Waking => ReleaseWakesKeeps(s, n);
  }

  lemma ShutdownKeeps(s: State)
    requires Inv(s)
    ensures Inv(Effect(s, Shutdown))
    ensures Enabled(s, ObserveShutdown) ==> Inv(Effect(s, ObserveShutdown))
  {
  }

  // --- every step, every run ---

  lemma StepKeeps(s: State, step: Step)
    requires Inv(s)
    ensures Inv(Next(s, step))
  {
    if Enabled(s, step) {
      match step
      case Reserve(restart) => ReserveKeeps(s, restart);
      case Commit(n, session) => CommitKeeps(s, n, session);
      case Disconnect => DisconnectKeeps(s);
      case DisconnectAndWait => DisconnectAndWaitKeeps(s);
      case Cancel(n) => CancelKeeps(s, {n});
      case Shutdown => ShutdownKeeps(s);
      case Release(n) => ReleaseKeeps(s, n);
      case Receive => ReceiveKeeps(s);
      case ObserveShutdown => ShutdownKeeps(s);
      case Act(hasSession) => ActKeeps(s, hasSession);
      case WorkerSlot(n) => WorkerSlotKeeps(s, n);
      case WorkerSend(n, e) => WorkerSendKeeps(s, n, e);
      case WorkerEnded(n) => WorkerEndedKeeps(s, n);
      case WorkerReturn(n) => WorkerReturnKeeps(s, n);
      case WorkerCrash(n) => WorkerCrashKeeps(s, n);
    }
  }

  lemma {:induction false} RunKeeps(s: State, steps: seq<Step>)
    requires Inv(s)
    ensures Inv(Run(s, steps))
    decreases |steps|
  {
    if steps != [] {
      StepKeeps(s, steps[0]);
      RunKeeps(Next(s, steps[0]), steps[1..]);
    }
  }

  lemma InitialOwnership()
    ensures Ownership(INITIAL)
  {
    assert Holding(INITIAL.reservations) == {} && Clearings(INITIAL.reservations) == {};
    assert Starts(INITIAL.sh.queue) == [] && Issued(0) == {};
  }

  lemma IdleControl(s: State)
    requires s.pc.Top? && s.active.None? && !s.shuttingDown && s.workers.Keys == {} && s.reservations.Keys == {}
    requires s.sh.current.None? && s.sh.restart.None? && s.sh.cancelled == {} && !s.sh.closed && !s.sh.gone
    ensures Control(s)
  {
  }

  lemma InitialChannel()
    ensures Channel(INITIAL)
  {
  }

  lemma InitialHolds()
    ensures Inv(INITIAL)
  {
    InitialOwnership();
    IdleControl(INITIAL);
    InitialChannel();
  }

  /** The invariant holds after any sequence of steps of any threads. */
  lemma Reachable(steps: seq<Step>)
    ensures Inv(Run(INITIAL, steps))
  {
    InitialHolds();
    RunKeeps(INITIAL, steps);
  }
}
