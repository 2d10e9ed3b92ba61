/**
 The session registry: one map behind one mutex. Each function is one critical
 section; identifiers the code draws at random are parameters, the clock is a
 parameter, and the drains a section cancels come back as a set of attempts.
 */
module Registry {
  import opened Basics

  type SessionId = nat
  type ConnectionId = nat
  type TokenId = nat
  type Attempt = nat

  const ACTIVATION_TIMEOUT: nat := 15
  const MAX_PENDING_SESSIONS: nat := 16

  datatype Status =
    | Pending(deadline: nat, handshake: Option<TokenId>)
    | Active(generation: nat, connection: Option<ConnectionId>, reconnect: Option<TokenId>)

  datatype AttachmentAttempt = AttachmentAttempt(generation: nat, connection: ConnectionId, attempt: Attempt)

  datatype Record = Record(
    version: nat, status: Status, nonTunnel: Option<AttachmentAttempt>, closedAttachment: Option<ConnectionId>)

  type Sessions = map<SessionId, Record>

  datatype Permit = Permit(session: SessionId, observed: nat, token: TokenId)

  datatype Error = ServiceRestarted | Unauthorized | TooManyPending | ReconnectSuperseded | Unavailable
  datatype Result<T> = Ok(value: T) | Err(error: Error)

  // --- credentials ---

  predicate Expired(r: Record, now: nat) { r.status.Pending? && now > r.status.deadline }

  function Prune(sessions: Sessions, now: nat): Sessions {
    map id | id in sessions && !Expired(sessions[id], now) :: sessions[id]
  }

  function PendingIds(sessions: Sessions): set<SessionId> {
    set id | id in sessions && sessions[id].status.Pending?
  }

  /** `drawn` is the generated id, or nothing when the credential or its device anchor cannot be made. */
  function Issue(sessions: Sessions, version: nat, now: nat, drawn: Option<SessionId>): (Sessions, Result<SessionId>) {
    var pruned := Prune(sessions, now);
    if |PendingIds(pruned)| >= MAX_PENDING_SESSIONS then (pruned, Err(TooManyPending))
    else match drawn
      case None => (pruned, Err(Unavailable))
      case Some(id) => (pruned[id := Record(version, Pending(now + ACTIVATION_TIMEOUT, None), None, None)], Ok(id))
  }

  // --- the reconnect handshake ---

  function BeginHandshake(sessions: Sessions, sameInstance: bool, id: SessionId, version: nat, now: nat, token: TokenId)
    : (Sessions, Result<Permit>)
  {
    if !sameInstance then (sessions, Err(ServiceRestarted))
    else if id !in sessions || sessions[id].version != version then (sessions, Err(Unauthorized))
    else
      var r := sessions[id];
      match r.status
      case Pending(deadline, handshake) =>
        if now > deadline then (sessions - {id}, Err(Unauthorized))
        else if handshake.Some? then (sessions, Err(ReconnectSuperseded))
        else (sessions[id := r.(status := Pending(deadline, Some(token)))], Ok(Permit(id, 0, token)))
      case Active(generation, connection, reconnect) =>
        if reconnect.Some? then (sessions, Err(ReconnectSuperseded))
        else (sessions[id := r.(status := Active(generation, connection, Some(token)))], Ok(Permit(id, generation,
              token)))
  }

  /** The permit's compare: the session still stores this token at the generation the permit observed. */
  predicate Matches(sessions: Sessions, p: Permit) {
    p.session in sessions &&
    match sessions[p.session].status
    case Pending(_, handshake) => p.observed == 0 && handshake == Some(p.token)
    case Active(generation, _, reconnect) => generation == p.observed && reconnect == Some(p.token)
  }

  function PrepareAttach(sessions: Sessions, p: Permit): Result<nat> {
    if p.session !in sessions then Err(Unauthorized)
    else if !Matches(sessions, p) then Err(ReconnectSuperseded)
    else match sessions[p.session].status
      case Pending(_, _) => Ok(1)
      case Active(generation, _, _) => if generation < U64_MAX then Ok(generation + 1) else Err(Unavailable)
  }

  function CancelRecorded(r: Record): set<Attempt> {
    if r.nonTunnel.Some? then {r.nonTunnel.value.attempt} else {}
  }

  datatype Attached = Attached(
    sessions: Sessions, result: Result<Option<ConnectionId>>, cancels: set<Attempt>)

  function CommitAttach(sessions: Sessions, p: Permit, connection: ConnectionId): Attached {
    if p.session !in sessions then Attached(sessions, Err(Unauthorized), {})
    else if !Matches(sessions, p) then Attached(sessions, Err(ReconnectSuperseded), {})
    else
      var r := sessions[p.session];
      match r.status
      case Pending(_, _) =>
        Attached(sessions[p.session := r.(status := Active(1, Some(connection), None))], Ok(None), {})
      case Active(generation, current, _) =>
        var r := r.(closedAttachment := None);
        if generation < U64_MAX
        then Attached(sessions[p.session := r.(status := Active(generation + 1, Some(connection), None))],
                      Ok(current), CancelRecorded(r))
        else Attached(sessions[p.session := r], Err(Unavailable), CancelRecorded(r))
  }

  /** `Drop for HandshakePermit`. */
  function CancelHandshake(sessions: Sessions, p: Permit): Sessions {
    if !Matches(sessions, p) then sessions
    else
      var r := sessions[p.session];
      match r.status
      case Pending(_, _) => sessions - {p.session}
      case Active(generation, connection, _) =>
        sessions[p.session := r.(status := Active(generation, connection, None))]
  }

  predicate IsCurrent(sessions: Sessions, id: SessionId, generation: nat) {
    id in sessions && sessions[id].status.Active? && sessions[id].status.generation == generation
  }

  // --- attachments and the non-tunnel attempts they own ---

  /** `current_connection`: the open connection attached at `generation`. */
  function CurrentConnection(r: Record, generation: nat, closed: set<ConnectionId>): Option<ConnectionId> {
    if r.status.Active? && r.status.generation == generation && r.status.connection.Some? &&
       r.status.connection.value !in closed
    then r.status.connection else None
  }

  /** Whether `reserve_connection` gets as far as asking the lifecycle for an attempt. */
  predicate MayReserve(sessions: Sessions, id: SessionId, generation: nat, nonTunnel: bool, closed: set<ConnectionId>) {
    && id in sessions
    && CurrentConnection(sessions[id], generation, closed).Some?
    && (nonTunnel ==> sessions[id].closedAttachment != CurrentConnection(sessions[id], generation, closed))
  }

  function ForgetCompleted(r: Record, completed: set<Attempt>): Record {
    if r.nonTunnel.Some? && r.nonTunnel.value.attempt in completed then r.(nonTunnel := None) else r
  }

  /** The registry's half of `reserve_connection`; `granted` is the lifecycle's answer. */
  function ReserveConnection(sessions: Sessions, id: SessionId, generation: nat, nonTunnel: bool,
                             closed: set<ConnectionId>, completed: set<Attempt>, granted: Option<Attempt>): Sessions
    requires MayReserve(sessions, id, generation, nonTunnel, closed)
  {
    var r := ForgetCompleted(sessions[id], completed);
    var connection := CurrentConnection(sessions[id], generation, closed).value;
    if granted.Some? && nonTunnel
    then sessions[id := r.(nonTunnel := Some(AttachmentAttempt(generation, connection, granted.value)))]
    else sessions[id := r]
  }

  /** Whether `commit_connection` runs the lifecycle commit. */
  predicate MayCommit(sessions: Sessions, id: SessionId, generation: nat, nonTunnel: bool, closed: set<ConnectionId>) {
    && id in sessions
    && (if nonTunnel then MayReserve(sessions, id, generation, true, closed) else sessions[id].status.Active?)
  }

  datatype Stopped = Stopped(sessions: Sessions, found: bool, drain: Option<Attempt>, cancels: set<Attempt>)

  function StopNonTunnelAttachment(
    sessions: Sessions, id: SessionId, generation: nat, connection: ConnectionId, closed: set<ConnectionId>): Stopped
  {
    if id !in sessions || CurrentConnection(sessions[id], generation, closed).None?
    then Stopped(sessions, false, None, {})
    else
      var r := if CurrentConnection(sessions[id], generation, closed) == Some(connection)
               then sessions[id].(closedAttachment := Some(connection)) else sessions[id];
      var sessions := sessions[id := r];
      if r.nonTunnel.Some? && r.nonTunnel.value.connection == connection
      then Stopped(sessions, true, Some(r.nonTunnel.value.attempt), {r.nonTunnel.value.attempt})
      else Stopped(sessions, true, None, {})
  }

  function DisconnectIfCurrent(sessions: Sessions, id: SessionId, generation: nat): (Sessions, set<Attempt>) {
    if id !in sessions then (sessions, {})
    else
      var r := sessions[id];
      var cancels := if r.nonTunnel.Some? && r.nonTunnel.value.generation == generation then CancelRecorded(r) else {};
      if IsCurrent(sessions, id, generation)
      then (sessions[id := r.(status := r.status.(connection := None))], cancels)
      else (sessions, cancels)
  }

  datatype Revoked = Revoked(sessions: Sessions, closes: Option<ConnectionId>, cancels: set<Attempt>)

  function Revoke(sessions: Sessions, id: SessionId): Revoked {
    if id !in sessions then Revoked(sessions, None, {})
    else
      var r := sessions[id];
      Revoked(sessions - {id}, if r.status.Active? then r.status.connection else None, CancelRecorded(r))
  }
}
