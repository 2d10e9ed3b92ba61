/**
 The VPN lifecycle of the service: the admission record behind one mutex, the
 bounded event queue, the single actor, the connection worker and the
 reservations that own an attempt before it is queued.

 `Shared` is everything reached through `LifecycleHandle`; each function on it is
 one critical section (or one channel operation). `State` adds the threads of
 control: reservations part-way through `Drop`, the actor's program counter and
 the spawned workers. `Next` interleaves them one atomic region at a time.
 */
module Lifecycle {
  import opened Basics

  const QUEUE_CAPACITY: nat := 4

  type Attempt = nat
  type SessionId = nat

  datatype Phase = Preparing | Pending | Active | Stopping
  datatype Admission = Admission(attempt: Attempt, phase: Phase, stopRequested: bool)
  datatype Ticket = Ticket(attempt: Attempt, owner: SessionId)

  datatype Event =
    | TunnelMonitor(attempt: Attempt)
    | Start(attempt: Attempt, session: Option<SessionId>)
    | Stop(attempt: Attempt)
    | ScriptTunSuspended(attempt: Attempt)
    | ReconnectWanted(attempt: Attempt)
    | Established(attempt: Attempt)
    | MembersChanged(attempt: Attempt, healthy: bool)
    | Ended(attempt: Attempt)
    | WorkerFailed(attempt: Attempt)
    | PreparationReleased

  /** The published VPN state; the connection details an attempt publishes are named by its number. */
  datatype VpnState =
    | Disconnected
    | Connecting(attempt: Attempt)
    | Connected(attempt: Attempt)
    | Disconnecting
    | Failed
    | ReconnectRequired(ticket: Ticket)

  datatype Shared = Shared(
    closed: bool,
    nextAttempt: Attempt,
    current: Option<Admission>,
    restart: Option<Ticket>,
    cancelled: set<Attempt>,     // attempts whose cancellation token has fired
    completed: set<Attempt>,     // attempts whose completion flag is set
    queue: seq<Event>,
    slots: nat,                  // queue slots granted to a waiting sender that has not written yet
    gone: bool,                  // the receiver has been dropped
    sent: seq<VpnState>)         // every value published, the current one last

  const INITIAL_SHARED := Shared(false, 0, None, None, {}, {}, [], 0, false, [Disconnected])

  function AdmittedAttempt(current: Option<Admission>): Option<Attempt> {
    match current case None => None case Some(a) => Some(a.attempt)
  }

  predicate Admitted(sh: Shared, n: Attempt) {
    AdmittedAttempt(sh.current) == Some(n)
  }

  predicate StopRequested(sh: Shared, n: Attempt) {
    Admitted(sh, n) && sh.current.value.stopRequested
  }

  function Published(sh: Shared): VpnState {
    if sh.sent == [] then Disconnected else sh.sent[|sh.sent| - 1]
  }

  function Publish(sh: Shared, v: VpnState): Shared {
    sh.(sent := sh.sent + [v])
  }

  predicate HasRoom(sh: Shared) {
    !sh.gone && |sh.queue| + sh.slots < QUEUE_CAPACITY
  }

  function TrySend(sh: Shared, e: Event): Shared {
    if HasRoom(sh) then sh.(queue := sh.queue + [e]) else sh
  }

  // --- critical sections of LifecycleHandle ---

  datatype Refusal = Unavailable | Busy | StaleTicket
  datatype Grant = Granted(attempt: Attempt) | Refused(reason: Refusal)

  function ReserveConnect(sh: Shared, restart: Option<Ticket>): (r: (Shared, Grant)) {
    if sh.closed then (sh, Refused(Unavailable))
    else if sh.current.Some? then (sh, Refused(Busy))
    else if restart.Some? && sh.restart != restart then (sh, Refused(StaleTicket))
    else
      (sh.(restart := None,
           nextAttempt := sh.nextAttempt + 1,
           current := Some(Admission(sh.nextAttempt, Preparing, false))),
       Granted(sh.nextAttempt))
  }

  function MarkStopping(sh: Shared): Shared {
    match sh.current
    case None => sh
    case Some(a) =>
      sh.(current := Some(Admission(a.attempt, Stopping, true)), cancelled := sh.cancelled + {a.attempt})
  }

  function RequestDisconnect(sh: Shared): Shared {
    var sh := sh.(restart := None);
    match sh.current
    case None => Publish(sh, Disconnected)
    case Some(a) => if a.stopRequested then sh else TrySend(MarkStopping(sh), Stop(a.attempt))
  }

  /** The locked part of `disconnect_and_wait`; the result is the attempt whose completion is awaited. */
  function BeginDisconnectAndWait(sh: Shared): (r: (Shared, Option<Attempt>)) {
    match sh.current
    case None => (sh, None)
    case Some(a) =>
      (if a.stopRequested then sh else MarkStopping(TrySend(sh, Stop(a.attempt))), Some(a.attempt))
  }

  function CloseAdmission(sh: Shared): Shared {
    MarkStopping(sh.(closed := true))
  }

  function CancelToken(sh: Shared, n: Attempt): Shared {
    sh.(cancelled := sh.cancelled + {n})
  }

  function ActivateAttempt(sh: Shared, n: Attempt): (r: (Shared, bool)) {
    if Admitted(sh, n) && !sh.current.value.stopRequested && n !in sh.cancelled && sh.current.value.phase == Pending
    then (sh.(current := Some(sh.current.value.(phase := Active))), true)
    else (sh, false)
  }

  function ClearAttempt(sh: Shared, n: Attempt): (r: (Shared, bool)) {
    if Admitted(sh, n) then (sh.(current := None), true) else (sh, false)
  }

  function StoreCompleted(sh: Shared, n: Attempt): Shared {
    sh.(completed := sh.completed + {n})
  }

  datatype CommitResult = Accepted | TaskUnavailable | Superseded | PreparationCancelled | QueueFull

  function CommitReservation(sh: Shared, n: Attempt, session: Option<SessionId>): (r: (Shared, CommitResult)) {
    if sh.closed then (sh, TaskUnavailable)
    else if !Admitted(sh, n) then (sh, Superseded)
    else if sh.current.value.stopRequested || n in sh.cancelled then (sh, PreparationCancelled)
    else if sh.gone then (sh, TaskUnavailable)
    else if !HasRoom(sh) then (sh, QueueFull)
    else
      (sh.(queue := sh.queue + [Start(n, session)], current := Some(sh.current.value.(phase := Pending))), Accepted)
  }

  function PublishConnected(sh: Shared, n: Attempt): Shared {
    if Admitted(sh, n) && sh.current.value.phase == Active && !sh.current.value.stopRequested
    then Publish(sh, Connected(n)) else sh
  }

  /** A healthy member update keeps the connection details already published, whoever published them. */
  function PublishMembers(sh: Shared, n: Attempt): Shared {
    if Admitted(sh, n) && !sh.current.value.stopRequested
    then Publish(sh, Connected(if Published(sh).Connected? then Published(sh).attempt else n)) else sh
  }

  /** The reconnect branch of `end_attempt`: it takes whatever admission is current without naming it. */
  function TakeForReconnect(sh: Shared, n: Attempt, owner: SessionId): Shared {
    match sh.current
    case None => sh
    case Some(a) =>
      var taken := sh.(current := None, completed := sh.completed + {a.attempt});
      if a.attempt !in sh.cancelled && !a.stopRequested
      then Publish(taken.(restart := Some(Ticket(n, owner))), ReconnectRequired(Ticket(n, owner)))
      else Publish(taken, Disconnected)
  }

  // --- threads of control ---

  /** Where a `ConnectReservation` is between being granted and the end of its `Drop`. */
  datatype Release = Held | Dropping | TokenCancelled | Cleared | Waking

  /** The token an active attempt runs under: its admission's, or a fresh one cancelled at birth. */
  datatype Token = OfAttempt(attempt: Attempt) | BornCancelled

  datatype ActiveAttempt = ActiveAttempt(
    attempt: Attempt, session: Option<SessionId>, token: Token, failed: bool, reconnect: bool)

  datatype Worker = Running | Ending | Finished | Crashed

  datatype Pc =
    | Top
    | Parked
    | Closing
    | StopCheck(attempt: Attempt)
    | StopPublish(attempt: Attempt)
    | Starting(attempt: Attempt, session: Option<SessionId>)
    | Spawning(attempt: Attempt, session: Option<SessionId>, activated: bool)
    | Announce(attempt: Attempt)
    | Establish(attempt: Attempt)
    | Members(attempt: Attempt)
    | Joining(ending: ActiveAttempt)
    | Joined(ending: ActiveAttempt)
    | Requeueing(ending: ActiveAttempt)
    | Settling(attempt: Attempt, outcome: VpnState)
    | Clearing(attempt: Attempt)
    | Completing(attempt: Attempt)
    | Leaving
    | Exited

  datatype State = State(
    sh: Shared,
    reservations: map<Attempt, Release>,
    workers: map<Attempt, Worker>,
    active: Option<ActiveAttempt>,
    pc: Pc,
    shutdownRequested: bool,
    shuttingDown: bool)

  const INITIAL := State(INITIAL_SHARED, map[], map[], None, Top, false, false)

  datatype Step =
    // clients of the handle
    | Reserve(restart: Option<Ticket>)
    | Commit(attempt: Attempt, session: Option<SessionId>)
    | Disconnect
    | DisconnectAndWait
    | Cancel(attempt: Attempt)
    | Shutdown
    // the reservation's Drop
    | Release(attempt: Attempt)
    // the actor
    | Receive
    | ObserveShutdown
    | Act(hasSession: bool)
    // the worker
    | WorkerSlot(attempt: Attempt)
    | WorkerSend(attempt: Attempt, event: Event)
    | WorkerEnded(attempt: Attempt)
    | WorkerReturn(attempt: Attempt)
    | WorkerCrash(attempt: Attempt)

  predicate TokenFired(sh: Shared, t: Token) {
    match t
    case OfAttempt(n) => n in sh.cancelled
    case BornCancelled => true
  }

  function FireToken(sh: Shared, t: Token): Shared {
    match t
    case OfAttempt(n) => CancelToken(sh, n)
    case BornCancelled => sh
  }

  function ActiveNumber(active: Option<ActiveAttempt>): Option<Attempt> {
    match active case None => None case Some(a) => Some(a.attempt)
  }

  predicate ActiveIs(s: State, n: Attempt) {
    ActiveNumber(s.active) == Some(n)
  }

  predicate LiveActive(s: State, n: Attempt) {
    ActiveIs(s, n) && !TokenFired(s.sh, s.active.value.token)
  }

  /** Worker events other than its own `Ended` may name any attempt ever issued. */
  predicate MaySend(sh: Shared, n: Attempt, e: Event) {
    !e.Start? && e != Ended(n) && (e.PreparationReleased? || e.attempt < sh.nextAttempt)
  }

  predicate WorkerIs(workers: map<Attempt, Worker>, n: Attempt, w: Worker) {
    n in workers && workers[n] == w
  }

  /** A crashed worker can leave a thread behind that still writes to the queue. */
  predicate Sending(workers: map<Attempt, Worker>, n: Attempt) {
    WorkerIs(workers, n, Running) || WorkerIs(workers, n, Crashed)
  }

  predicate ActEnabled(s: State) {
    match s.pc
    case Parked => false
    case Exited => false
    case Joining(a) => WorkerIs(s.workers, a.attempt, Finished) || WorkerIs(s.workers, a.attempt, Crashed)
    case _ => true
  }

  predicate Enabled(s: State, step: Step) {
    match step
    case Reserve(_) => true
    case Commit(n, _) => n in s.reservations && s.reservations[n] == Held
    case Disconnect => true
    case DisconnectAndWait => true
    case Cancel(n) => n < s.sh.nextAttempt
    case Shutdown => true
    case Release(n) => n in s.reservations
    case Receive => s.pc == Parked && s.sh.queue != []
    case ObserveShutdown => s.pc == Parked && s.shutdownRequested && !s.shuttingDown
    case Act(_) => ActEnabled(s)
    case WorkerSlot(n) => Sending(s.workers, n) && HasRoom(s.sh)
    case WorkerSend(n, e) => Sending(s.workers, n) && s.sh.slots > 0 && MaySend(s.sh, n, e)
    case WorkerEnded(n) => WorkerIs(s.workers, n, Running) && s.sh.slots == 1
    case WorkerReturn(n) => WorkerIs(s.workers, n, Ending)
    case WorkerCrash(n) => WorkerIs(s.workers, n, Running)
  }

  function ReserveStep(s: State, restart: Option<Ticket>): State {
    var (sh, grant) := ReserveConnect(s.sh, restart);
    match grant
    case Refused(_) => s.(sh := sh)
    case Granted(n) => s.(sh := sh, reservations := s.reservations[n := Held])
  }

  /** `commit` consumes the reservation: acceptance forgets it, refusal drops it. */
  function CommitStep(s: State, n: Attempt, session: Option<SessionId>): State
    requires n in s.reservations
  {
    var (sh, result) := CommitReservation(s.sh, n, session);
    if result.Accepted? then s.(sh := sh, reservations := s.reservations - {n})
    else s.(sh := sh, reservations := s.reservations[n := Dropping])
  }

  /** One region of `Drop for ConnectReservation`. */
  function ReleaseStep(s: State, n: Attempt): State
    requires n in s.reservations
  {
    match s.reservations[n]
    case Held => s.(reservations := s.reservations[n := Dropping])
    case Dropping => s.(sh := CancelToken(s.sh, n), reservations := s.reservations[n := TokenCancelled])
    case TokenCancelled =>
      var (sh, found) := ClearAttempt(s.sh, n);
      s.(sh := sh, reservations := s.reservations[n := if found then Cleared else Waking])
    case Cleared => s.(sh := StoreCompleted(s.sh, n), reservations := s.reservations[n := Waking])
    case Waking => s.(sh := TrySend(s.sh, PreparationReleased), reservations := s.reservations - {n})
  }

  function Dequeue(s: State): State
    requires s.sh.queue != []
  {
    s.(sh := s.sh.(queue := s.sh.queue[1..]), pc := Top)
  }

  /** `handle_event` up to its first access to shared state. */
  function Dispatch(s: State, e: Event): State {
    match e
    case TunnelMonitor(_) => s
    case PreparationReleased => s
    case Start(n, session) => s.(pc := Starting(n, session))
    case Stop(n) => if ActiveIs(s, n) then s.(pc := StopCheck(n)) else s
    case Established(n) => if LiveActive(s, n) then s.(pc := Establish(n)) else s
    case MembersChanged(n, healthy) =>
      if !LiveActive(s, n) then s
      else if healthy then s.(pc := Members(n))
      else if Published(s.sh).Connected? then s.(pc := Announce(n))
      else s
    case Ended(n) => if ActiveIs(s, n) then s.(active := None, pc := Joining(s.active.value)) else s
    case WorkerFailed(n) => if ActiveIs(s, n) then s.(active := Some(s.active.value.(failed := true))) else s
    case ScriptTunSuspended(n) => if LiveActive(s, n) then s.(pc := Announce(n)) else s
    case ReconnectWanted(n) => if ActiveIs(s, n) then s.(active := Some(s.active.value.(reconnect := true))) else s
  }

  function SpawnStep(s: State, n: Attempt, session: Option<SessionId>, activated: bool): State {
    var token := if Admitted(s.sh, n) then OfAttempt(n) else BornCancelled;
    var sh := if activated then s.sh else FireToken(s.sh, token);
    s.(sh := sh,
       workers := s.workers[n := Running],
       active := Some(ActiveAttempt(n, session, token, false, false)),
       pc := if activated then Announce(n) else Top)
  }

  function ActStep(s: State, hasSession: bool): State
    requires ActEnabled(s)
  {
    match s.pc
    case Top =>
      s.(pc := if s.shuttingDown && s.active.None? && s.sh.current.None? then Leaving else Parked)
    case Closing =>
      s.(sh := CloseAdmission(s.sh), pc := if s.active.Some? then StopCheck(s.active.value.attempt) else Top)
    case StopCheck(n) => s.(pc := if StopRequested(s.sh, n) then StopPublish(n) else Top)
    case StopPublish(n) =>
      var sh := Publish(s.sh, Disconnecting);
      s.(sh := if s.active.Some? then FireToken(sh, s.active.value.token) else sh, pc := Top)
    case Starting(n, session) =>
      var (sh, activated) := ActivateAttempt(s.sh, n);
      s.(sh := sh, pc := Spawning(n, session, activated))
    case Spawning(n, session, activated) => SpawnStep(s, n, session, activated)
    case Announce(n) => s.(sh := Publish(s.sh, Connecting(n)), pc := Top)
    case Establish(n) => s.(sh := PublishConnected(s.sh, n), pc := Top)
    case Members(n) => s.(sh := PublishMembers(s.sh, n), pc := Top)
    case Joining(a) => s.(workers := s.workers - {a.attempt}, pc := Joined(a))
    case Joined(a) =>
      if a.reconnect && !TokenFired(s.sh, a.token) && a.session.Some? && hasSession then s.(pc := Requeueing(a))
      else s.(pc := Settling(a.attempt, if a.failed then Failed else Disconnected))
    case Requeueing(a) =>
      s.(sh := if a.session.Some? then TakeForReconnect(s.sh, a.attempt, a.session.value) else s.sh, pc := Top)
    case Settling(n, outcome) => s.(sh := Publish(s.sh, outcome), pc := Clearing(n))
    case Clearing(n) =>
      var (sh, found) := ClearAttempt(s.sh, n);
      s.(sh := sh, pc := if found then Completing(n) else Top)
    case Completing(n) => s.(sh := StoreCompleted(s.sh, n), pc := Top)
    case Leaving => s.(sh := CloseAdmission(s.sh).(gone := true), pc := Exited)
  }

  function Effect(s: State, step: Step): State
    requires Enabled(s, step)
  {
    match step
    case Reserve(restart) => ReserveStep(s, restart)
    case Commit(n, session) => CommitStep(s, n, session)
    case Disconnect => s.(sh := RequestDisconnect(s.sh))
    case DisconnectAndWait => s.(sh := BeginDisconnectAndWait(s.sh).0)
    case Cancel(n) => s.(sh := CancelToken(s.sh, n))
    case Shutdown => s.(shutdownRequested := true)
    case Release(n) => ReleaseStep(s, n)
    case Receive => Dispatch(Dequeue(s), s.sh.queue[0])
    case ObserveShutdown => s.(shuttingDown := true, pc := Closing)
    case Act(hasSession) => ActStep(s, hasSession)
    case WorkerSlot(n) => s.(sh := s.sh.(slots := s.sh.slots + 1))
    case WorkerSend(n, e) => s.(sh := s.sh.(slots := s.sh.slots - 1, queue := s.sh.queue + [e]))
    case WorkerEnded(n) =>
      s.(sh := s.sh.(slots := 0, queue := s.sh.queue + [Ended(n)]), workers := s.workers[n := Ending])
    case WorkerReturn(n) => s.(workers := s.workers[n := Finished])
    case WorkerCrash(n) => s.(workers := s.workers[n := Crashed])
  }

  /** A step that is not enabled changes nothing, so every step sequence is a run. */
  function Next(s: State, step: Step): State {
    if Enabled(s, step) then Effect(s, step) else s
  }

  function Run(s: State, steps: seq<Step>): State
    decreases |steps|
  {
    if steps == [] then s else Run(Next(s, steps[0]), steps[1..])
  }
}
