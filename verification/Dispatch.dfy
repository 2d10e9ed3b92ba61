/**
 The registry and the lifecycle composed as the request dispatcher composes
 them: attempts are reserved and committed under the sessions lock, and sections
 of the registry cancel the drains of the non-tunnel attempts they find.
 */
module Dispatch {
  import opened Basics
  import L = Lifecycle
  import I = LifecycleInvariant
  import T = LifecycleTheorems
  import R = Registry

  /** The request an attempt was reserved for. */
  datatype Origin = Origin(session: R.SessionId, generation: nat, connection: R.ConnectionId, nonTunnel: bool)

  datatype State = State(
    life: L.State,
    sessions: R.Sessions,
    closed: set<R.ConnectionId>,            // connections whose control reports itself closed
    usedIds: set<R.SessionId>,
    usedConnections: set<R.ConnectionId>,
    origin: map<L.Attempt, Origin>)         // every attempt ever reserved

  const INITIAL := State(L.INITIAL, map[], {}, {}, {}, map[])

  datatype Step =
    | Lifecycle(step: L.Step)
    | Connect(id: R.SessionId, generation: nat, nonTunnel: bool, restart: Option<L.Attempt>)
    | CommitPrepared(attempt: L.Attempt)
    | StopAttachment(id: R.SessionId, generation: nat, connection: R.ConnectionId)
    | Issue(version: nat, now: nat, drawn: Option<R.SessionId>)
    | Begin(id: R.SessionId, version: nat, now: nat, token: R.TokenId)
    | Attach(permit: R.Permit, connection: R.ConnectionId)
    | DropPermit(permit: R.Permit)
    | Lose(id: R.SessionId, generation: nat)
    | Withdraw(id: R.SessionId)
    | CloseConnection(connection: R.ConnectionId)

  predicate Enabled(s: State, step: Step) {
    match step
    case Lifecycle(inner) => !inner.Reserve? && !inner.Commit?
    case Connect(_, _, _, _) => true
    case CommitPrepared(n) => n in s.life.reservations && s.life.reservations[n] == L.Held && n in s.origin
    case Issue(_, _, drawn) => drawn.Some? ==> drawn.value !in s.usedIds
    case Attach(permit, connection) =>   // prepare_attach has already found room for the next generation
      connection !in s.usedConnections && permit.observed < U64_MAX
    case _ => true
  }

  function Cancel(life: L.State, attempts: set<L.Attempt>): L.State {
    life.(sh := life.sh.(cancelled := life.sh.cancelled + attempts))
  }

  /** `dispatch_lifecycle` on a connect request: `reserve_connection` around `reserve_connect`. */
  function ConnectStep(s: State, id: R.SessionId, generation: nat, nonTunnel: bool, restart: Option<L.Attempt>): State {
    if !R.MayReserve(s.sessions, id, generation, nonTunnel, s.closed) then s
    else
      var ticket := if restart.Some? then Some(L.Ticket(restart.value, id)) else None;
      var grant := L.ReserveConnect(s.life.sh, ticket).1;
      var granted := if grant.Granted? then Some(grant.attempt) else None;
      var connection := R.CurrentConnection(s.sessions[id], generation, s.closed).value;
      s.(life := L.ReserveStep(s.life, ticket),
         sessions := R.ReserveConnection(s.sessions, id, generation, nonTunnel, s.closed, s.life.sh.completed, granted),
         origin := if granted.Some? then s.origin[granted.value := Origin(id, generation, connection, nonTunnel)]
               else s.origin)
  }

  /** `ConnectionPreparation::commit`: refused by the registry, the reservation is dropped instead. */
  function CommitStep(s: State, n: L.Attempt): State
    requires n in s.life.reservations && n in s.origin
  {
    var o := s.origin[n];
    if R.MayCommit(s.sessions, o.session, o.generation, o.nonTunnel, s.closed)
    then s.(life := L.CommitStep(s.life, n, Some(o.session)))
    else s.(life := s.life.(reservations := s.life.reservations[n := L.Dropping]))
  }

  function Next(s: State, step: Step): State {
    if !Enabled(s, step) then s else
    match step
    case Lifecycle(inner) => s.(life := L.Next(s.life, inner))
    case Connect(id, generation, nonTunnel, restart) => ConnectStep(s, id, generation, nonTunnel, restart)
    case CommitPrepared(n) => CommitStep(s, n)
    case StopAttachment(id, generation, connection) =>
      var stopped := R.StopNonTunnelAttachment(s.sessions, id, generation, connection, s.closed);
      s.(sessions := stopped.sessions, life := Cancel(s.life, stopped.cancels))
    case Issue(version, now, drawn) =>
      s.(sessions := R.Issue(s.sessions, version, now, drawn).0,
         usedIds := if drawn.Some? then s.usedIds + {drawn.value} else s.usedIds)
    case Begin(id, version, now, token) =>
      s.(sessions := R.BeginHandshake(s.sessions, true, id, version, now, token).0)
    case Attach(permit, connection) =>
      var attached := R.CommitAttach(s.sessions, permit, connection);
      s.(sessions := attached.sessions, life := Cancel(s.life, attached.cancels),
         usedConnections := s.usedConnections + {connection})
    case DropPermit(permit) => s.(sessions := R.CancelHandshake(s.sessions, permit))
    case Lose(id, generation) =>
      var (sessions, cancels) := R.DisconnectIfCurrent(s.sessions, id, generation);
      s.(sessions := sessions, life := Cancel(s.life, cancels))
    case Withdraw(id) =>
      var revoked := R.Revoke(s.sessions, id);
      s.(sessions := revoked.sessions, life := Cancel(s.life, revoked.cancels),
         closed := if revoked.closes.Some? then s.closed + {revoked.closes.value} else s.closed)
    case CloseConnection(connection) => s.(closed := s.closed + {connection})
  }

  function Run(s: State, steps: seq<Step>): State
    decreases |steps|
  {
    if steps == [] then s else Run(Next(s, steps[0]), steps[1..])
  }

  // --- the invariant ---

  /** Live work: admitted and not cancelled. */
  predicate Live(s: State, n: L.Attempt) {
    L.Admitted(s.life.sh, n) && n !in s.life.sh.cancelled
  }

  /** The session is attached at `generation` through `connection`, and that attachment was not stopped. */
  predicate AttachedAs(r: R.Record, generation: nat, connection: R.ConnectionId) {
    && r.status.Active?
    && r.status.generation == generation
    && r.status.connection == Some(connection)
    && r.closedAttachment != Some(connection)
  }

  predicate RecordedIn(sessions: R.Sessions, o: Origin, n: L.Attempt) {
    o.session in sessions && sessions[o.session].nonTunnel == Some(R.AttachmentAttempt(o.generation, o.connection, n))
  }

  /** `n` is the attempt its session records. */
  predicate Recorded(s: State, n: L.Attempt)
    requires n in s.origin
  {
    RecordedIn(s.sessions, s.origin[n], n)
  }

  /** `n` is recorded, and its session is attached exactly as when `n` was reserved. */
  predicate Anchored(s: State, n: L.Attempt)
    requires n in s.origin
  {
    var o := s.origin[n];
    Recorded(s, n) && AttachedAs(s.sessions[o.session], o.generation, o.connection)
  }

  ghost predicate Records(s: State) {
    forall id :: id in s.sessions ==>
      var r := s.sessions[id];
      && id in s.usedIds
      && (r.status.Pending? ==> r.nonTunnel.None?)
      && (r.status.Active? && r.status.connection.Some? ==> r.status.connection.value in s.usedConnections)
      && (r.nonTunnel.Some? ==>
            var a := r.nonTunnel.value;
            && a.attempt in s.origin
            && s.origin[a.attempt] == Origin(id, a.generation, a.connection, true)
            && (a.attempt !in s.life.sh.cancelled ==> AttachedAs(r, a.generation, a.connection)))
  }

  ghost predicate Origins(s: State) {
    forall n: L.Attempt :: n in s.origin <==> n < s.life.sh.nextAttempt
  }

  ghost predicate CurrentAnchored(s: State) {
    s.life.sh.current.Some? ==>
      var n := s.life.sh.current.value.attempt;
      n in s.origin && (s.origin[n].nonTunnel && n !in s.life.sh.cancelled ==> Recorded(s, n))
  }

  ghost predicate Registered(s: State) {
    Records(s) && Origins(s) && CurrentAnchored(s)
  }

  /** `m` is non-tunnel work reserved for the session of `n` after it. */
  predicate Succeeds(origin: map<L.Attempt, Origin>, m: L.Attempt, n: L.Attempt)
    requires n in origin
  {
    m in origin && m > n && origin[m].nonTunnel && origin[m].session == origin[n].session
  }

  ghost predicate Superseded(origin: map<L.Attempt, Origin>, n: L.Attempt)
    requires n in origin
  {
    exists m :: Succeeds(origin, m, n)
  }

  /** A session's record is the latest non-tunnel attempt reserved for it. */
  ghost predicate RecordIsLatest(sessions: R.Sessions, origin: map<L.Attempt, Origin>) {
    forall id :: id in sessions && sessions[id].nonTunnel.Some? ==>
      var n := sessions[id].nonTunnel.value.attempt;
      n in origin && !Superseded(origin, n)
  }

  /** Non-tunnel work that is neither over nor cancelled is recorded, unless later work took the record over. */
  ghost predicate KeptOrSuperseded(
    sessions: R.Sessions, origin: map<L.Attempt, Origin>, completed: set<L.Attempt>, cancelled: set<L.Attempt>)
  {
    forall n :: n in origin && origin[n].nonTunnel && n !in completed && n !in cancelled ==>
      RecordedIn(sessions, origin[n], n) || Superseded(origin, n)
  }

  ghost predicate Succession(s: State) {
    && RecordIsLatest(s.sessions, s.origin)
    && KeptOrSuperseded(s.sessions, s.origin, s.life.sh.completed, s.life.sh.cancelled)
  }

  ghost predicate Linked(s: State) {
    I.Inv(s.life) && Registered(s)
  }

  ghost predicate Inv(s: State) {
    Linked(s) && Succession(s)
  }

  // --- lifecycle steps leave the registry alone and only ever cancel or retire the admission ---

  /** Without `Reserve` no attempt is issued and no admission appears. */
  predicate Retires(a: L.Shared, b: L.Shared) {
    && b.nextAttempt == a.nextAttempt
    && a.cancelled <= b.cancelled
    && (b.current.Some? ==> L.AdmittedAttempt(b.current) == L.AdmittedAttempt(a.current))
  }

  predicate Rewrites(pc: L.Pc) {
    pc.Closing? || pc.StopPublish? || pc.Starting? || pc.Spawning? || pc.Requeueing? || pc.Clearing? || pc.Leaving?
  }

  predicate Announces(pc: L.Pc) {
    pc.Announce? || pc.Establish? || pc.Members? || pc.Settling? || pc.Completing?
  }

  lemma ActStops(life: L.State, hasSession: bool)
    requires life.pc.Closing? || life.pc.StopPublish? || life.pc.Leaving?
    ensures Retires(life.sh, L.ActStep(life, hasSession).sh)
  {
  }

  lemma ActRetires(life: L.State, hasSession: bool)
    requires life.pc.Starting? || life.pc.Spawning? || life.pc.Requeueing? || life.pc.Clearing?
    ensures Retires(life.sh, L.ActStep(life, hasSession).sh)
  {
  }

  lemma ActAnnounces(life: L.State, hasSession: bool)
    requires L.ActEnabled(life) && Announces(life.pc)
    ensures Retires(life.sh, L.ActStep(life, hasSession).sh)
  {
  }

  lemma ActLeaves(life: L.State, hasSession: bool)
    requires L.ActEnabled(life) && !Rewrites(life.pc) && !Announces(life.pc)
    ensures L.ActStep(life, hasSession).sh == life.sh
  {
  }

  lemma DisconnectRetires(life: L.State, step: L.Step)
    requires step.Disconnect? || step.DisconnectAndWait?
    ensures Retires(life.sh, L.Effect(life, step).sh)
  {
  }

  lemma ReservationRetires(life: L.State, step: L.Step)
    requires (step.Commit? || step.Release?) && L.Enabled(life, step)
    ensures Retires(life.sh, L.Effect(life, step).sh)
  {
  }

  lemma OtherRetires(life: L.State, step: L.Step)
    requires !step.Reserve? && !step.Act? && !step.Disconnect? && !step.DisconnectAndWait? && !step.Commit? &&
          !step.Release?
    requires L.Enabled(life, step)
    ensures Retires(life.sh, L.Effect(life, step).sh)
  {
  }

  lemma StepRetires(life: L.State, step: L.Step)
    requires !step.Reserve?
    ensures Retires(life.sh, L.Next(life, step).sh)
  {
    if L.Enabled(life, step) {
      if step.Act? {
        if life.pc.Closing? || life.pc.StopPublish? || life.pc.Leaving? { ActStops(life, step.hasSession); }
        else if Rewrites(life.pc) { ActRetires(life, step.hasSession); }
        else if Announces(life.pc) { ActAnnounces(life, step.hasSession); }
        else { ActLeaves(life, step.hasSession); }
      } else if step.Disconnect? || step.DisconnectAndWait? {
        DisconnectRetires(life, step);
      } else if step.Commit? || step.Release? {
        ReservationRetires(life, step);
      } else {
        OtherRetires(life, step);
      }
    }
  }

  /** Retiring or cancelling attempts cannot break a record. */
  lemma RetiringKeeps(s: State, life: L.State)
    requires Registered(s) && Retires(s.life.sh, life.sh)
    ensures Registered(s.(life := life))
  {
  }

  // --- requests ---

  lemma ConnectRegisters(s: State, id: R.SessionId, generation: nat, nonTunnel: bool, restart: Option<L.Attempt>)
    requires Registered(s)
    requires s.life.sh.current.Some? ==> s.life.sh.current.value.attempt !in s.life.sh.completed
    ensures Registered(ConnectStep(s, id, generation, nonTunnel, restart))
  {
  }

  lemma ConnectKeeps(s: State, id: R.SessionId, generation: nat, nonTunnel: bool, restart: Option<L.Attempt>)
    requires Linked(s)
    ensures Linked(ConnectStep(s, id, generation, nonTunnel, restart))
  {
    I.ReserveKeeps(s.life, if restart.Some? then Some(L.Ticket(restart.value, id)) else None);
    ConnectRegisters(s, id, generation, nonTunnel, restart);
  }

  lemma CommitKeeps(s: State, n: L.Attempt)
    requires Linked(s) && Enabled(s, CommitPrepared(n))
    ensures Linked(CommitStep(s, n))
  {
    var o := s.origin[n];
    I.CommitKeeps(s.life, n, Some(o.session));
    I.ReleaseKeeps(s.life, n);
    StepRetires(s.life, L.Commit(n, Some(o.session)));
    RetiringKeeps(s, CommitStep(s, n).life);
  }

  lemma StopRegisters(s: State, id: R.SessionId, generation: nat, connection: R.ConnectionId)
    requires Registered(s)
    ensures Registered(Next(s, StopAttachment(id, generation, connection)))
  {
  }

  lemma AttachRegisters(s: State, permit: R.Permit, connection: R.ConnectionId)
    requires Registered(s) && Enabled(s, Attach(permit, connection))
    ensures Registered(Next(s, Attach(permit, connection)))
  {
  }

  lemma LoseRegisters(s: State, id: R.SessionId, generation: nat)
    requires Registered(s)
    ensures Registered(Next(s, Lose(id, generation)))
  {
  }

  lemma WithdrawRegisters(s: State, id: R.SessionId)
    requires Registered(s)
    ensures Registered(Next(s, Withdraw(id)))
  {
  }

  lemma CredentialRegisters(s: State, step: Step)
    requires Registered(s) && Enabled(s, step)
    requires step.Issue? || step.Begin? || step.DropPermit? || step.CloseConnection?
    ensures Registered(Next(s, step))
  {
  }

  // --- succession of records ---

  /** Completing or cancelling attempts takes nothing away from the records. */
  lemma RetiringSucceeds(s: State, life: L.State)
    requires Succession(s) && s.life.sh.completed <= life.sh.completed && s.life.sh.cancelled <= life.sh.cancelled
    ensures Succession(s.(life := life))
  {
  }

  /** No record appears, and one that goes takes its attempt's token with it. */
  ghost predicate Carries(before: R.Sessions, after: R.Sessions, cancelled: set<L.Attempt>) {
    && (forall id :: id in after && after[id].nonTunnel.Some? ==>
          id in before && before[id].nonTunnel == after[id].nonTunnel)
    && (forall id :: id in before && before[id].nonTunnel.Some? ==>
          || (id in after && after[id].nonTunnel == before[id].nonTunnel)
          || before[id].nonTunnel.value.attempt in cancelled)
  }

  lemma CarryingSucceeds(before: R.Sessions, after: R.Sessions, origin: map<L.Attempt, Origin>,
                         completed: set<L.Attempt>, was: set<L.Attempt>, cancelled: set<L.Attempt>)
    requires RecordIsLatest(before, origin) && KeptOrSuperseded(before, origin, completed, was)
    requires Carries(before, after, cancelled) && was <= cancelled
    ensures RecordIsLatest(after, origin) && KeptOrSuperseded(after, origin, completed, cancelled)
  {
  }

  ghost predicate CarriesOver(s: State, t: State) {
    && Carries(s.sessions, t.sessions, t.life.sh.cancelled)
    && s.life.sh.cancelled <= t.life.sh.cancelled
    && t.life.sh.completed == s.life.sh.completed && t.origin == s.origin
  }

  predicate Cancelling(step: Step) { step.StopAttachment? || step.Attach? || step.Lose? || step.Withdraw? }

  lemma AttachmentCarries(s: State, step: Step)
    requires Enabled(s, step) && (step.StopAttachment? || step.Attach?)
    ensures CarriesOver(s, Next(s, step))
  {
  }

  lemma LossCarries(s: State, step: Step)
    requires Enabled(s, step) && (step.Lose? || step.Withdraw? || step.CloseConnection?)
    ensures CarriesOver(s, Next(s, step))
  {
  }

  lemma IssueCarries(s: State, step: Step)
    requires Records(s) && Enabled(s, step) && step.Issue?
    ensures CarriesOver(s, Next(s, step))
  {
  }

  lemma HandshakeCarries(s: State, step: Step)
    requires Records(s) && Enabled(s, step) && (step.Begin? || step.DropPermit?)
    ensures CarriesOver(s, Next(s, step))
  {
  }

  lemma RegistrySucceeds(s: State, step: Step)
    requires Records(s) && Succession(s) && Enabled(s, step)
    requires !step.Lifecycle? && !step.Connect? && !step.CommitPrepared?
    ensures Succession(Next(s, step))
  {
    var t := Next(s, step);
    if step.StopAttachment? || step.Attach? { AttachmentCarries(s, step); }
    else if step.Issue? { IssueCarries(s, step); }
    else if step.Begin? || step.DropPermit? { HandshakeCarries(s, step); }
    else { LossCarries(s, step); }
    CarryingSucceeds(s.sessions, t.sessions, s.origin, s.life.sh.completed, s.life.sh.cancelled, t.life.sh.cancelled);
  }

  /** The newest number supersedes the session's earlier non-tunnel work and is superseded by none. */
  lemma NewestSucceeds(origin: map<L.Attempt, Origin>, n: L.Attempt, o: Origin)
    requires forall m :: m in origin ==> m < n
    ensures var after := origin[n := o];
            && !Superseded(after, n)
            && (forall k :: k in origin && Superseded(origin, k) ==> Superseded(after, k))
            && (forall k :: k in origin && o.nonTunnel && origin[k].session == o.session ==> Superseded(after, k))
            && (forall k :: k in origin && !(o.nonTunnel && origin[k].session == o.session) && Superseded(after, k) ==>
                  Superseded(origin, k))
  {
    var after := origin[n := o];
    forall k | k in origin && Superseded(origin, k) ensures Superseded(after, k) {
      var m :| Succeeds(origin, m, k);
      assert Succeeds(after, m, k);
    }
    forall k | k in origin && o.nonTunnel && origin[k].session == o.session ensures Superseded(after, k) {
      assert Succeeds(after, n, k);
    }
    forall k | k in origin && !(o.nonTunnel && origin[k].session == o.session) && Superseded(after, k)
      ensures Superseded(origin, k)
    {
      var m :| Succeeds(after, m, k);
      assert Succeeds(origin, m, k);
    }
  }

  lemma ForgettingCarries(sessions: R.Sessions, id: R.SessionId, completed: set<L.Attempt>)
    requires id in sessions
    ensures var after := sessions[id := R.ForgetCompleted(sessions[id], completed)];
            && (forall k :: k in after && after[k].nonTunnel.Some? ==>
                  k in sessions && sessions[k].nonTunnel == after[k].nonTunnel)
            && (forall k :: k in sessions && sessions[k].nonTunnel.Some? ==>
                  || (k in after && after[k].nonTunnel == sessions[k].nonTunnel)
                  || sessions[k].nonTunnel.value.attempt in completed)
  {
  }

  lemma RefusedSucceeds(s: State, id: R.SessionId)
    requires Succession(s) && id in s.sessions
    ensures Succession(s.(sessions := s.sessions[id := R.ForgetCompleted(s.sessions[id], s.life.sh.completed)]))
  {
    ForgettingCarries(s.sessions, id, s.life.sh.completed);
  }

  /** Recording the newest number for its session, or leaving a tunnel's unrecorded. */
  lemma RecordingSucceeds(s: State, id: R.SessionId, n: L.Attempt, o: Origin)
    requires Records(s) && Succession(s) && id in s.sessions && o.session == id
    requires forall m :: m in s.origin ==> m < n
    ensures var record := if o.nonTunnel then Some(R.AttachmentAttempt(o.generation, o.connection, n))
                          else s.sessions[id].nonTunnel;
            Succession(s.(sessions := s.sessions[id := s.sessions[id].(nonTunnel := record)],
                  origin := s.origin[n := o]))
  {
    NewestSucceeds(s.origin, n, o);
  }

  lemma ForgettingKeepsRecords(s: State, id: R.SessionId)
    requires Records(s) && id in s.sessions
    ensures Records(s.(sessions := s.sessions[id := R.ForgetCompleted(s.sessions[id], s.life.sh.completed)]))
  {
  }

  lemma ConnectSucceeds(s: State, id: R.SessionId, generation: nat, nonTunnel: bool, restart: Option<L.Attempt>)
    requires Records(s) && Origins(s) && Succession(s)
    ensures Succession(ConnectStep(s, id, generation, nonTunnel, restart))
  {
    if R.MayReserve(s.sessions, id, generation, nonTunnel, s.closed) {
      var forgot := s.(sessions := s.sessions[id := R.ForgetCompleted(s.sessions[id], s.life.sh.completed)]);
      RefusedSucceeds(s, id);
      ForgettingKeepsRecords(s, id);
      var ticket := if restart.Some? then Some(L.Ticket(restart.value, id)) else None;
      var grant := L.ReserveConnect(s.life.sh, ticket).1;
      if grant.Granted? {
        var connection := R.CurrentConnection(s.sessions[id], generation, s.closed).value;
        var record := if nonTunnel then Some(R.AttachmentAttempt(generation, connection, grant.attempt))
                      else forgot.sessions[id].nonTunnel;
        RecordingSucceeds(forgot, id, grant.attempt, Origin(id, generation, connection, nonTunnel));
        assert ConnectStep(s, id, generation, nonTunnel, restart).sessions ==
               forgot.sessions[id := forgot.sessions[id].(nonTunnel := record)];
      }
    }
  }

  /** Only issued attempts are recorded, so only issued attempts are cancelled. */
  lemma RecordedIsIssued(s: State, id: R.SessionId)
    requires Records(s) && Origins(s)
    ensures id in s.sessions ==> forall n :: n in R.CancelRecorded(s.sessions[id]) ==> n < s.life.sh.nextAttempt
  {
  }

  lemma LosingKeeps(s: State, step: Step)
    requires Linked(s) && (step.Lose? || step.Withdraw?)
    ensures Linked(Next(s, step))
  {
    RecordedIsIssued(s, step.id);
    if step.Lose? {
      LoseRegisters(s, step.id, step.generation);
      I.CancelKeeps(s.life, R.DisconnectIfCurrent(s.sessions, step.id, step.generation).1);
    } else {
      WithdrawRegisters(s, step.id);
      I.CancelKeeps(s.life, R.Revoke(s.sessions, step.id).cancels);
    }
  }

  lemma ReplacingKeeps(s: State, permit: R.Permit, connection: R.ConnectionId)
    requires Linked(s) && Enabled(s, Attach(permit, connection))
    ensures Linked(Next(s, Attach(permit, connection)))
  {
    RecordedIsIssued(s, permit.session);
    AttachRegisters(s, permit, connection);
    I.CancelKeeps(s.life, R.CommitAttach(s.sessions, permit, connection).cancels);
  }

  lemma StoppingKeeps(s: State, id: R.SessionId, generation: nat, connection: R.ConnectionId)
    requires Linked(s)
    ensures Linked(Next(s, StopAttachment(id, generation, connection)))
  {
    RecordedIsIssued(s, id);
    StopRegisters(s, id, generation, connection);
    I.CancelKeeps(s.life, R.StopNonTunnelAttachment(s.sessions, id, generation, connection, s.closed).cancels);
  }

  lemma StepLinks(s: State, step: Step)
    requires Linked(s)
    ensures Linked(Next(s, step))
  {
    if Enabled(s, step) {
      if step.Lifecycle? {
        I.StepKeeps(s.life, step.step);
        StepRetires(s.life, step.step);
        RetiringKeeps(s, L.Next(s.life, step.step));
      } else if step.Connect? {
        ConnectKeeps(s, step.id, step.generation, step.nonTunnel, step.restart);
      } else if step.CommitPrepared? {
        CommitKeeps(s, step.attempt);
      } else if step.StopAttachment? {
        StoppingKeeps(s, step.id, step.generation, step.connection);
      } else if step.Attach? {
        ReplacingKeeps(s, step.permit, step.connection);
      } else if step.Lose? || step.Withdraw? {
        LosingKeeps(s, step);
      } else {
        CredentialRegisters(s, step);
      }
    }
  }

  lemma LifecycleSucceeds(s: State, step: L.Step)
    requires Succession(s) && Enabled(s, Lifecycle(step))
    ensures Succession(Next(s, Lifecycle(step)))
  {
    StepRetires(s.life, step);
    T.StepCompletionLasts(s.life, step);
    RetiringSucceeds(s, L.Next(s.life, step));
  }

  lemma CommitSucceeds(s: State, n: L.Attempt)
    requires Succession(s) && Enabled(s, CommitPrepared(n))
    ensures Succession(Next(s, CommitPrepared(n)))
  {
    var o := s.origin[n];
    StepRetires(s.life, L.Commit(n, Some(o.session)));
    T.StepCompletionLasts(s.life, L.Commit(n, Some(o.session)));
    RetiringSucceeds(s, CommitStep(s, n).life);
  }

  lemma StepSucceeds(s: State, step: Step)
    requires Registered(s) && Succession(s)
    ensures Succession(Next(s, step))
  {
    if Enabled(s, step) {
      if step.Lifecycle? { LifecycleSucceeds(s, step.step); }
      else if step.Connect? { ConnectSucceeds(s, step.id, step.generation, step.nonTunnel, step.restart); }
      else if step.CommitPrepared? { CommitSucceeds(s, step.attempt); }
      else { RegistrySucceeds(s, step); }
    }
  }

  lemma StepKeeps(s: State, step: Step)
    requires Inv(s)
    ensures Inv(Next(s, step))
  {
    StepLinks(s, step);
    StepSucceeds(s, step);
  }

  lemma {:induction false} RunKeeps(s: State, steps: seq<Step>)
    requires Inv(s)
    ensures Inv(Run(s, steps))
    decreases |steps|
  {
    if steps != [] {
      StepKeeps(s, steps[0]);
      RunKeeps(Next(s, steps[0]), steps[1..]);
    }
  }

  lemma NothingRegistered(s: State)
    requires s.sessions == map[] && s.origin == map[] && s.life.sh.nextAttempt == 0 && s.life.sh.current.None?
    ensures Registered(s) && Succession(s)
  {
  }

  lemma Reachable(steps: seq<Step>)
    ensures Inv(Run(INITIAL, steps))
  {
    I.InitialHolds();
    NothingRegistered(INITIAL);
    RunKeeps(INITIAL, steps);
  }

  // --- the guarantees ---

  /** Live non-tunnel work is the attempt its session records, on the attachment it was reserved on. */
  lemma LiveWorkIsAnchored(steps: seq<Step>, n: L.Attempt)
    requires var s := Run(INITIAL, steps); n in s.origin && s.origin[n].nonTunnel && Live(s, n)
    ensures Anchored(Run(INITIAL, steps), n)
  {
    Reachable(steps);
  }

  lemma UncancelledRecordIsAnchored(s: State, n: L.Attempt)
    requires Records(s) && n in s.origin && n !in s.life.sh.cancelled && Recorded(s, n)
    ensures Anchored(s, n)
  {
  }

  /**
   An incomplete, uncancelled non-tunnel attempt is anchored exactly until
   another non-tunnel attempt is reserved for its session.
   */
  lemma IncompleteWork(steps: seq<Step>, n: L.Attempt)
    requires var s := Run(INITIAL, steps);
             && n in s.origin && s.origin[n].nonTunnel
             && n !in s.life.sh.completed && n !in s.life.sh.cancelled
    ensures var s := Run(INITIAL, steps);
            Anchored(s, n) <==>
            !exists m :: m in s.origin && m > n && s.origin[m].nonTunnel && s.origin[m].session == s.origin[n].session
  {
    Reachable(steps);
    var s := Run(INITIAL, steps);
    assert Superseded(s.origin, n) <==> exists m :: Succeeds(s.origin, m, n);
    if !Superseded(s.origin, n) {
      UncancelledRecordIsAnchored(s, n);
      forall m | m in s.origin && m > n && s.origin[m].nonTunnel && s.origin[m].session == s.origin[n].session
        ensures false
      {
        assert Succeeds(s.origin, m, n);
      }
    }
  }

  /** That can only happen once the actor has released it and is about to store its completion flag. */
  lemma SupersededIsCompleting(steps: seq<Step>, n: L.Attempt)
    requires var s := Run(INITIAL, steps);
             && n in s.origin && s.origin[n].nonTunnel
             && n !in s.life.sh.completed && n !in s.life.sh.cancelled
    ensures var s := Run(INITIAL, steps); L.Admitted(s.life.sh, n) || s.life.pc == L.Completing(n)
    ensures var s := Run(INITIAL, steps); L.Admitted(s.life.sh, n) ==> Anchored(s, n)
  {
    Reachable(steps);
    var s := Run(INITIAL, steps);
    I.IssuedIsBelow(s.life.sh.nextAttempt);
    assert n in I.Issued(s.life.sh.nextAttempt);
    assert n in I.Unit(L.AdmittedAttempt(s.life.sh.current)) || n in I.Clearings(s.life.reservations) ||
           n in I.Unit(I.PcCompletes(s.life.pc));
  }

  /** No non-tunnel work can start on connection `c` of session `id` any more. */
  predicate Over(s: State, id: R.SessionId, c: R.ConnectionId) {
    && id in s.usedIds
    && c in s.usedConnections
    && (id in s.sessions ==>
          var r := s.sessions[id];
          r.status.Active? && r.status.connection == Some(c) ==> r.closedAttachment == Some(c))
  }

  lemma StepOver(s: State, step: Step, id: R.SessionId, c: R.ConnectionId)
    requires Over(s, id, c)
    ensures Over(Next(s, step), id, c)
  {
  }

  lemma {:induction false} RunOver(s: State, steps: seq<Step>, id: R.SessionId, c: R.ConnectionId)
    requires Over(s, id, c)
    ensures Over(Run(s, steps), id, c)
    decreases |steps|
  {
    if steps != [] {
      StepOver(s, steps[0], id, c);
      RunOver(Next(s, steps[0]), steps[1..], id, c);
    }
  }

  /** From then on and for ever, nothing reserved on that attachment is live. */
  lemma NothingSurvives(steps: seq<Step>, more: seq<Step>, id: R.SessionId, c: R.ConnectionId, n: L.Attempt)
    requires Over(Run(INITIAL, steps), id, c)
    requires var s := Run(Run(INITIAL, steps), more);
             n in s.origin && s.origin[n].nonTunnel && s.origin[n].session == id && s.origin[n].connection == c
    ensures !Live(Run(Run(INITIAL, steps), more), n)
  {
    Reachable(steps);
    RunKeeps(Run(INITIAL, steps), more);
    RunOver(Run(INITIAL, steps), more, id, c);
  }

  /** Replacement, disconnection, a scoped stop and revocation each end the attachment they name. */
  lemma EndingIsOver(steps: seq<Step>, id: R.SessionId, c: R.ConnectionId)
    requires var s := Run(INITIAL, steps);
             id in s.sessions && s.sessions[id].status.Active? && s.sessions[id].status.connection == Some(c)
    ensures var s := Run(INITIAL, steps);
            var generation := s.sessions[id].status.generation;
            && (forall permit, d ::
                  (Enabled(s, Attach(permit, d)) && permit.session == id &&
                        R.CommitAttach(s.sessions, permit, d).result.Ok?)
                  ==> Over(Next(s, Attach(permit, d)), id, c))
            && Over(Next(s, Lose(id, generation)), id, c)
            && Over(Next(s, Withdraw(id)), id, c)
            && (c !in s.closed ==> Over(Next(s, StopAttachment(id, generation, c)), id, c))
  {
    Reachable(steps);
  }

  /** The attachment a registry step names, by connection or by generation; revoking names only the session. */
  predicate Names(step: Step, o: Origin) {
    match step
    case StopAttachment(id, _, connection) => o.session == id && o.connection == connection
    case Lose(id, generation) => o.session == id && o.generation == generation
    case Attach(permit, _) => o.session == permit.session && o.generation == permit.observed
    case Withdraw(id) => o.session == id
    case _ => false
  }

  lemma AttachCancels(s: State, step: Step, n: L.Attempt)
    requires Records(s) && step.Attach?
    requires n in Next(s, step).life.sh.cancelled && n !in s.life.sh.cancelled
    ensures n in s.origin && s.origin[n].nonTunnel && Names(step, s.origin[n]) && Anchored(s, n)
  {
  }

  lemma OtherCancels(s: State, step: Step, n: L.Attempt)
    requires Records(s) && Cancelling(step) && !step.Attach?
    requires n in Next(s, step).life.sh.cancelled && n !in s.life.sh.cancelled
    ensures n in s.origin && s.origin[n].nonTunnel && Names(step, s.origin[n]) && Anchored(s, n)
  {
  }

  lemma StepCancels(s: State, step: Step, n: L.Attempt)
    requires Records(s) && Cancelling(step)
    requires n in Next(s, step).life.sh.cancelled && n !in s.life.sh.cancelled
    ensures n in s.origin && s.origin[n].nonTunnel && Names(step, s.origin[n]) && Anchored(s, n)
  {
    if step.Attach? { AttachCancels(s, step, n); } else { OtherCancels(s, step, n); }
  }

  lemma OthersDoNotCancel(s: State, step: Step)
    requires !step.Lifecycle? && !Cancelling(step)
    ensures Next(s, step).life.sh.cancelled <= s.life.sh.cancelled
  {
  }

  /**
   The registry never cancels a tunnel attempt; each section cancels only work
   recorded on the attachment it names, which is the one its session has at that moment.
   */
  lemma CancellationIsScoped(steps: seq<Step>, step: Step, n: L.Attempt)
    requires !step.Lifecycle?
    requires n in Next(Run(INITIAL, steps), step).life.sh.cancelled && n !in Run(INITIAL, steps).life.sh.cancelled
    ensures var s := Run(INITIAL, steps);
            n in s.origin && s.origin[n].nonTunnel && Names(step, s.origin[n]) && Anchored(s, n)
  {
    Reachable(steps);
    var s := Run(INITIAL, steps);
    if Cancelling(step) {
      StepCancels(s, step, n);
    } else {
      OthersDoNotCancel(s, step);
    }
  }

  /** A non-tunnel start is queued only from the attachment that is still current, open and not stopped. */
  lemma CommitNeedsAttachment(steps: seq<Step>, n: L.Attempt)
    requires var s := Run(INITIAL, steps);
             && Enabled(s, CommitPrepared(n)) && s.origin[n].nonTunnel
             && n !in Next(s, CommitPrepared(n)).life.reservations
    ensures var s := Run(INITIAL, steps); Anchored(s, n) && s.origin[n].connection !in s.closed
  {
    Reachable(steps);
    var s := Run(INITIAL, steps);
    assert n in I.Holding(s.life.reservations);
  }

  predicate WorkOn(o: Origin, id: R.SessionId, connection: R.ConnectionId) {
    o.nonTunnel && o.session == id && o.connection == connection
  }

  /**
   A scoped stop answers exactly for the session's open attachment at that generation.
   It hands out the drain of the only work live on the named connection, or none if
   there is none, and whatever it hands out is cancelled.
   */
  lemma StopAnswersWithTheDrain(steps: seq<Step>, id: R.SessionId, generation: nat, connection: R.ConnectionId)
    ensures var s := Run(INITIAL, steps);
            var stopped := R.StopNonTunnelAttachment(s.sessions, id, generation, connection, s.closed);
            var t := Next(s, StopAttachment(id, generation, connection));
            && (stopped.found <==>
                  id in s.sessions && R.CurrentConnection(s.sessions[id], generation, s.closed).Some?)
            && (stopped.drain.Some? ==>
                  && stopped.drain.value in t.life.sh.cancelled
                  && stopped.drain.value in s.origin && s.origin[stopped.drain.value].connection == connection)
            && (stopped.found ==>
                  forall n :: n in s.origin && WorkOn(s.origin[n], id, connection) && Live(s, n) ==>
                    stopped.drain == Some(n))
  {
    Reachable(steps);
  }

  // --- what a connect and its commit are granted ---

  /** The attachments a scoped stop was asked for along a run. */
  function AskedBy(step: Step): set<(R.SessionId, R.ConnectionId)> {
    if step.StopAttachment? then {(step.id, step.connection)} else {}
  }

  function Asked(steps: seq<Step>): set<(R.SessionId, R.ConnectionId)> {
    if steps == [] then {} else AskedBy(steps[0]) + Asked(steps[1..])
  }

  ghost predicate ClosedWasAsked(sessions: R.Sessions, asked: set<(R.SessionId, R.ConnectionId)>) {
    forall id :: id in sessions && sessions[id].closedAttachment.Some? ==>
      (id, sessions[id].closedAttachment.value) in asked
  }

  lemma StepWasAsked(s: State, step: Step, asked: set<(R.SessionId, R.ConnectionId)>)
    requires ClosedWasAsked(s.sessions, asked)
    ensures ClosedWasAsked(Next(s, step).sessions, asked + AskedBy(step))
  {
  }

  lemma {:induction false} RunWasAsked(s: State, steps: seq<Step>, asked: set<(R.SessionId, R.ConnectionId)>)
    requires ClosedWasAsked(s.sessions, asked)
    ensures ClosedWasAsked(Run(s, steps).sessions, asked + Asked(steps))
    decreases |steps|
  {
    if steps == [] {
      assert asked + {} == asked;
    } else {
      StepWasAsked(s, steps[0], asked);
      RunWasAsked(Next(s, steps[0]), steps[1..], asked + AskedBy(steps[0]));
      assert asked + AskedBy(steps[0]) + Asked(steps[1..]) == asked + Asked(steps);
    }
  }

  function TicketOf(id: R.SessionId, restart: Option<L.Attempt>): Option<L.Ticket> {
    if restart.Some? then Some(L.Ticket(restart.value, id)) else None
  }

  /**
   A client attached through an open connection on which nobody asked for a stop gets
   whatever the lifecycle grants; a tunnel request gets it whether or not one was asked
   for. Non-tunnel work is then what the session records; otherwise the record is kept
   until the attempt in it is complete.
   */
  lemma AttachedMayConnect(steps: seq<Step>, id: R.SessionId, generation: nat, nonTunnel: bool,
                           restart: Option<L.Attempt>, c: R.ConnectionId)
    requires var s := Run(INITIAL, steps);
             && id in s.sessions && R.CurrentConnection(s.sessions[id], generation, s.closed) == Some(c)
             && (nonTunnel ==> (id, c) !in Asked(steps))
    ensures var s := Run(INITIAL, steps);
            var t := Next(s, Connect(id, generation, nonTunnel, restart));
            var grant := L.ReserveConnect(s.life.sh, TicketOf(id, restart)).1;
            var before := s.sessions[id].nonTunnel;
            && id in t.sessions
            && (grant.Granted? ==>
                  grant.attempt !in s.origin &&
                  t.origin == s.origin[grant.attempt := Origin(id, generation, c, nonTunnel)])
            && (!grant.Granted? ==> t.origin == s.origin)
            && t.sessions[id].nonTunnel ==
               (if grant.Granted? && nonTunnel then Some(R.AttachmentAttempt(generation, c, grant.attempt))
                else if before.Some? && before.value.attempt in s.life.sh.completed then None
                else before)
  {
    Reachable(steps);
    RunWasAsked(INITIAL, steps, {});
    assert {} + Asked(steps) == Asked(steps);
  }

  /**
   A prepared start is committed exactly when the lifecycle commits it and its session
   still stands: for non-tunnel work on the same open attachment, for a tunnel as long
   as the session is active.
   */
  lemma CommitRunsExactly(steps: seq<Step>, n: L.Attempt)
    requires Enabled(Run(INITIAL, steps), CommitPrepared(n))
    ensures var s := Run(INITIAL, steps);
            var o := s.origin[n];
            n !in Next(s, CommitPrepared(n)).life.reservations <==>
            && n !in L.CommitStep(s.life, n, Some(o.session)).reservations
            && (if o.nonTunnel then Anchored(s, n) && o.connection !in s.closed
                else o.session in s.sessions && s.sessions[o.session].status.Active?)
  {
    if Run(INITIAL, steps).origin[n].nonTunnel && n !in Next(Run(INITIAL, steps), CommitPrepared(n)).life.reservations {
      CommitNeedsAttachment(steps, n);
    }
  }
}
