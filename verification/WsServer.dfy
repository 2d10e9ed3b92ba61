/**
 `WsServerContext` as the object it is: the service state changed in place under
 its lock, with `retain` loops that send as they go. Every method is proved to
 make exactly the step of the `Replica` model named in its postcondition.
 */
module WsServer {
  import opened Basics
  import R = Replica

  class Context {
    var revision: nat
    var value: R.Value
    var connections: set<R.ConnectionId>
    var channels: map<R.ConnectionId, R.Channel>
    var committed: set<R.ConnectionId>
    ghost var history: seq<R.Value>

    ghost function View(): R.State
      reads this
    {
      R.State(revision, value, history, connections, channels, committed)
    }

    constructor (initial: R.Value)
      ensures View() == R.Initial(initial)
    {
      revision, value, connections, channels, committed := 0, initial, {}, map[], {};
      history := [initial];
    }

    /** `ConnectionControl::send`. */
    method Send(id: R.ConnectionId, m: R.Message) returns (ok: bool)
      requires id in channels
      modifies this`channels
      ensures ok == R.HasRoom(old(channels)[id])
      ensures channels == if ok then old(channels)[id := R.Enqueue(old(channels)[id], m)] else old(channels)
    {
      ok := R.HasRoom(channels[id]);
      if ok { channels := channels[id := R.Enqueue(channels[id], m)]; }
    }

    method PrepareConnection(id: R.ConnectionId)
      requires id !in channels
      modifies this
      ensures View() == R.Next(old(View()), R.Prepare(id))
      ensures R.Inv(old(View())) ==> R.Inv(View())
    {
      R.StepKeepsInv(View(), R.Prepare(id));
      channels := channels[id := R.Channel([], 0, 0, false, false)];
      var sent := Send(id, R.Attached(revision, value));
      assert channels[id].sent == [R.Attached(revision, value)];
      connections := connections + {id};
    }

    method CommitConnection(id: R.ConnectionId, accepted: bool, replaced: Option<R.ConnectionId>) returns (ok: bool)
      requires id in channels
      modifies this
      ensures View() == R.Next(old(View()), R.Commit(id, accepted, replaced))
      ensures R.Inv(old(View())) ==> R.Inv(View())
      ensures ok == (accepted && R.MayCommit(old(View()), id))
    {
      R.StepKeepsInv(View(), R.Commit(id, accepted, replaced));
      if id !in connections || R.IsClosed(channels[id]) { return false; }
      if !accepted {
        connections := connections - {id};
        return false;
      }
      committed := committed + {id};
      if replaced.Some? { connections := connections - {replaced.value}; }
      ok := true;
    }

    method RemoveClosedConnections()
      requires connections <= channels.Keys
      modifies this`connections
      ensures View() == R.Next(old(View()), R.RemoveClosed)
      ensures R.Inv(old(View())) ==> R.Inv(View())
    {
      R.StepKeepsInv(View(), R.RemoveClosed);
      var rest := connections;
      while rest != {}
        invariant rest <= old(connections)
        invariant connections == set id | id in old(connections) && (id in rest || !R.IsClosed(channels[id]))
        decreases rest
      {
        var id :| id in rest;
        if R.IsClosed(channels[id]) { connections := connections - {id}; }
        rest := rest - {id};
      }
    }

    method SendSnapshot(id: R.ConnectionId) returns (ok: bool)
      requires id in channels
      modifies this
      ensures View() == R.Next(old(View()), R.Resync(id))
      ensures R.Inv(old(View())) ==> R.Inv(View())
      ensures ok == R.HasRoom(old(channels)[id])
    {
      R.StepKeepsInv(View(), R.Resync(id));
      ok := Send(id, R.Snapshot(revision, value));
    }

    method CloseAll()
      requires connections <= channels.Keys
      modifies this`channels
      ensures channels == R.CloseAll(old(channels), connections)
    {
      var rest := connections;
      while rest != {}
        invariant rest <= connections
        invariant channels == R.CloseAll(old(channels), connections - rest)
        decreases rest
      {
        var id :| id in rest;
        channels := channels[id := channels[id].(closing := true)];
        rest := rest - {id};
      }
      assert connections - {} == connections;
    }

    /** The `retain` of `send_event`: clients that cannot take the message are closed and forgotten. */
    method RetainReached(m: R.Message)
      requires connections <= channels.Keys
      modifies this`channels, this`connections
      ensures channels == R.DeliverAll(old(channels), old(connections), m)
      ensures connections == R.Reached(old(channels), old(connections))
    {
      var rest := connections;
      while rest != {}
        invariant rest <= old(connections)
        invariant channels == R.DeliverAll(old(channels), old(connections) - rest, m)
        invariant connections == R.Reached(old(channels), old(connections) - rest) + rest
        decreases rest
      {
        var id :| id in rest;
        var ok := Send(id, m);
        if !ok {
          channels := channels[id := channels[id].(closing := true)];
          connections := connections - {id};
        }
        rest := rest - {id};
      }
      assert old(connections) - {} == old(connections);
    }

    method SendEvent(e: R.Event)
      requires connections <= channels.Keys
      modifies this
      ensures View() == R.Next(old(View()), R.SendEvent(e))
      ensures R.Inv(old(View())) ==> R.Inv(View())
    {
      R.StepKeepsInv(View(), R.SendEvent(e));
      value := R.Update(e, value);
      if revision >= U64_MAX {
        history := R.Amend(history, value);
        CloseAll();
        connections := {};
        return;
      }
      revision := revision + 1;
      history := history + [value];
      RetainReached(R.Message.Event(revision, e));
    }
  }
}
