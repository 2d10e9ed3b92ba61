/**
 `SessionRegistry` as the object it is: a map of records updated in place under
 one mutex. Every method is proved to make exactly the transition of the
 `Registry` model named in its postcondition. The cancellation tokens reached
 through recorded drains are the set `cancelled`.
 */
module SessionRegistry {
  import opened Basics
  import R = Registry

  class SessionRegistry {
    const instance: nat
    var sessions: R.Sessions
    var cancelled: set<R.Attempt>

    constructor (instance: nat)
      ensures this.instance == instance && sessions == map[] && cancelled == {}
    {
      this.instance := instance;
      sessions, cancelled := map[], {};
    }

    /** The `retain` call of `issue`. */
    method RetainUnexpired(now: nat)
      modifies this`sessions
      ensures sessions == R.Prune(old(sessions), now)
    {
      var rest := sessions.Keys;
      while rest != {}
        invariant rest <= old(sessions).Keys
        invariant sessions == map id | id in old(sessions) && (id in rest ||
              !R.Expired(old(sessions)[id], now)) :: old(sessions)[id]
        decreases rest
      {
        var id :| id in rest;
        if R.Expired(sessions[id], now) { sessions := sessions - {id}; }
        rest := rest - {id};
      }
    }

    method CountPending() returns (pending: nat)
      ensures pending == |R.PendingIds(sessions)|
    {
      var rest := sessions.Keys;
      ghost var seen: set<R.SessionId> := {};
      pending := 0;
      while rest != {}
        invariant rest <= sessions.Keys
        invariant seen == set id | id in sessions && id !in rest && sessions[id].status.Pending?
        invariant pending == |seen|
        decreases rest
      {
        var id :| id in rest;
        if sessions[id].status.Pending? {
          pending := pending + 1;
          seen := seen + {id};
        }
        rest := rest - {id};
      }
      assert seen == R.PendingIds(sessions);
    }

    method Issue(version: nat, now: nat, drawn: Option<R.SessionId>) returns (result: R.Result<R.SessionId>)
      modifies this`sessions
      ensures (sessions, result) == R.Issue(old(sessions), version, now, drawn)
    {
      RetainUnexpired(now);
      var pending := CountPending();
      if pending >= R.MAX_PENDING_SESSIONS { return R.Err(R.TooManyPending); }
      if drawn.None? { return R.Err(R.Unavailable); }
      sessions := sessions[drawn.value := R.Record(version, R.Pending(now + R.ACTIVATION_TIMEOUT, None), None, None)];
      result := R.Ok(drawn.value);
    }

    method BeginHandshake(service: nat, id: R.SessionId, version: nat, now: nat, token: R.TokenId)
      returns (result: R.Result<R.Permit>)
      modifies this`sessions
      ensures (sessions, result) == R.BeginHandshake(old(sessions), service == instance, id, version, now, token)
    {
      if service != instance { return R.Err(R.ServiceRestarted); }
      if id !in sessions || sessions[id].version != version { return R.Err(R.Unauthorized); }
      var observed: nat;
      match sessions[id].status {
        case Pending(deadline, handshake) =>
          if now > deadline {
            sessions := sessions - {id};
            return R.Err(R.Unauthorized);
          }
          if handshake.Some? { return R.Err(R.ReconnectSuperseded); }
          sessions := sessions[id := sessions[id].(status := R.Pending(deadline, Some(token)))];
          observed := 0;
        case Active(generation, connection, reconnect) =>
          if reconnect.Some? { return R.Err(R.ReconnectSuperseded); }
          sessions := sessions[id := sessions[id].(status := R.Active(generation, connection, Some(token)))];
          observed := generation;
      }
      result := R.Ok(R.Permit(id, observed, token));
    }

    method PrepareAttach(p: R.Permit) returns (result: R.Result<nat>)
      ensures result == R.PrepareAttach(sessions, p)
    {
      if p.session !in sessions { return R.Err(R.Unauthorized); }
      match sessions[p.session].status {
        case Pending(_, handshake) =>
          if p.observed == 0 && handshake == Some(p.token) { return R.Ok(1); }
        case Active(generation, _, reconnect) =>
          if generation == p.observed && reconnect == Some(p.token) {
            if generation < U64_MAX { return R.Ok(generation + 1); }
            return R.Err(R.Unavailable);
          }
      }
      result := R.Err(R.ReconnectSuperseded);
    }

    method CancelRecorded(id: R.SessionId)
      requires id in sessions
      modifies this`cancelled
      ensures cancelled == old(cancelled) + R.CancelRecorded(sessions[id])
    {
      var recorded := sessions[id].nonTunnel;
      if recorded.Some? { cancelled := cancelled + {recorded.value.attempt}; }
    }

    method CommitAttach(p: R.Permit, connection: R.ConnectionId) returns (result: R.Result<Option<R.ConnectionId>>)
      modifies this
      ensures var spec := R.CommitAttach(old(sessions), p, connection);
              sessions == spec.sessions && result == spec.result && cancelled == old(cancelled) + spec.cancels
    {
      if p.session !in sessions { return R.Err(R.Unauthorized); }
      var r := sessions[p.session];
      match r.status {
        case Pending(_, handshake) =>
          if p.observed == 0 && handshake == Some(p.token) {
            sessions := sessions[p.session := r.(status := R.Active(1, Some(connection), None))];
            return R.Ok(None);
          }
        case Active(generation, current, reconnect) =>
          if generation == p.observed && reconnect == Some(p.token) {
            CancelRecorded(p.session);
            r := r.(closedAttachment := None);
            sessions := sessions[p.session := r];
            if generation >= U64_MAX { return R.Err(R.Unavailable); }
            sessions := sessions[p.session := r.(status := R.Active(generation + 1, Some(connection), None))];
            return R.Ok(current);
          }
      }
      result := R.Err(R.ReconnectSuperseded);
    }

    method CancelHandshake(p: R.Permit)
      modifies this`sessions
      ensures sessions == R.CancelHandshake(old(sessions), p)
    {
      if p.session !in sessions { return; }
      var r := sessions[p.session];
      match r.status {
        case Pending(_, handshake) =>
          if p.observed == 0 && handshake == Some(p.token) { sessions := sessions - {p.session}; }
        case Active(generation, connection, reconnect) =>
          if generation == p.observed && reconnect == Some(p.token) {
            sessions := sessions[p.session := r.(status := R.Active(generation, connection, None))];
          }
      }
    }

    /** The lifecycle's answer is a parameter: the attempt it reserves, if it grants one. */
    method ReserveConnection(id: R.SessionId, generation: nat, nonTunnel: bool, closed: set<R.ConnectionId>,
                             completed: set<R.Attempt>, granted: Option<R.Attempt>) returns (asked: bool)
      modifies this`sessions
      ensures asked == R.MayReserve(old(sessions), id, generation, nonTunnel, closed)
      ensures asked ==>
        sessions == R.ReserveConnection(old(sessions), id, generation, nonTunnel, closed, completed, granted)
      ensures !asked ==> sessions == old(sessions)
    {
      if id !in sessions { return false; }
      var connection := R.CurrentConnection(sessions[id], generation, closed);
      if connection.None? { return false; }
      if nonTunnel && sessions[id].closedAttachment == connection { return false; }
      var r := sessions[id];
      if r.nonTunnel.Some? && r.nonTunnel.value.attempt in completed { r := r.(nonTunnel := None); }
      if granted.Some? && nonTunnel {
        r := r.(nonTunnel := Some(R.AttachmentAttempt(generation, connection.value, granted.value)));
      }
      sessions := sessions[id := r];
      asked := true;
    }

    method StopNonTunnelAttachment(id: R.SessionId, generation: nat, connection: R.ConnectionId,
        closed: set<R.ConnectionId>)
      returns (found: bool, drain: Option<R.Attempt>)
      modifies this
      ensures var spec := R.StopNonTunnelAttachment(old(sessions), id, generation, connection, closed);
              && sessions == spec.sessions && found == spec.found && drain == spec.drain
              && cancelled == old(cancelled) + spec.cancels
    {
      if id !in sessions { return false, None; }
      var current := R.CurrentConnection(sessions[id], generation, closed);
      if current.None? { return false, None; }
      if current.value == connection {
        sessions := sessions[id := sessions[id].(closedAttachment := Some(connection))];
      }
      var recorded := sessions[id].nonTunnel;
      if recorded.Some? && recorded.value.connection == connection {
        cancelled := cancelled + {recorded.value.attempt};
        return true, Some(recorded.value.attempt);
      }
      return true, None;
    }

    method DisconnectIfCurrent(id: R.SessionId, generation: nat)
      modifies this
      ensures var spec := R.DisconnectIfCurrent(old(sessions), id, generation);
              sessions == spec.0 && cancelled == old(cancelled) + spec.1
    {
      if id in sessions && sessions[id].nonTunnel.Some? && sessions[id].nonTunnel.value.generation == generation {
        CancelRecorded(id);
      }
      if id in sessions && sessions[id].status.Active? && sessions[id].status.generation == generation {
        sessions := sessions[id := sessions[id].(status := sessions[id].status.(connection := None))];
      }
    }

    method Revoke(id: R.SessionId) returns (closes: Option<R.ConnectionId>)
      modifies this
      ensures var spec := R.Revoke(old(sessions), id);
              sessions == spec.sessions && closes == spec.closes && cancelled == old(cancelled) + spec.cancels
    {
      if id !in sessions { return None; }
      var r := sessions[id];
      CancelRecorded(id);
      sessions := sessions - {id};
      closes := if r.status.Active? then r.status.connection else None;
    }
  }
}
