/**
 Replication of the VPN state to many clients: a snapshot on attach, then
 revisioned events over bounded queues. Values of the VPN state are numbered;
 `channels` holds every connection ever prepared with all it was ever sent, and
 `history[r]` is the VPN state the server had at revision `r`.
 */
module Replica {
  import opened Basics

  type Value = nat
  type ConnectionId = nat

  /** Environment and VPN-state events replace the VPN state; every other event leaves it alone. */
  datatype Event = Sets(value: Value) | Other

  function Update(e: Event, value: Value): Value {
    match e case Sets(v) => v case Other => value
  }

  datatype Message =
    | Attached(revision: nat, value: Value)
    | Event(revision: nat, event: Event)
    | Snapshot(revision: nat, value: Value)
    | Reply

  /** `slots` are places granted to repliers that wait for room and have not written yet. */
  datatype Channel = Channel(sent: seq<Message>, taken: nat, slots: nat, dropped: bool, closing: bool)

  predicate HasRoom(ch: Channel) {
    !ch.dropped && ch.taken <= |ch.sent| && |ch.sent| - ch.taken + ch.slots < CONNECTION_QUEUE
  }

  predicate IsClosed(ch: Channel) { ch.dropped || ch.closing }

  function Enqueue(ch: Channel, m: Message): Channel { ch.(sent := ch.sent + [m]) }

  datatype State = State(
    revision: nat,
    value: Value,
    history: seq<Value>,
    connections: set<ConnectionId>,
    channels: map<ConnectionId, Channel>,
    committed: set<ConnectionId>)

  function Initial(value: Value): State { State(0, value, [value], {}, map[], {}) }

  datatype Step =
    | Prepare(id: ConnectionId)
    | Commit(id: ConnectionId, accepted: bool, replaced: Option<ConnectionId>)   // the registry's answer
    | Remove(id: ConnectionId)               // abandoned, or the connection task ended
    | RemoveClosed
    | Resync(id: ConnectionId)
    | SendEvent(event: Event)
    | Grant(id: ConnectionId)
    | SendReply(id: ConnectionId)
    | Take(id: ConnectionId)
    | DropReceiver(id: ConnectionId)
    | Close(id: ConnectionId)

  predicate MayCommit(s: State, id: ConnectionId) {
    id in s.connections && id in s.channels && !IsClosed(s.channels[id])
  }

  /** A client whose queue is full, or gone, is told to close and gets nothing more. */
  function Deliver(ch: Channel, m: Message): Channel {
    if HasRoom(ch) then Enqueue(ch, m) else ch.(closing := true)
  }

  function DeliverAll(channels: map<ConnectionId, Channel>, to: set<ConnectionId>, m: Message): map<ConnectionId,
      Channel> {
    map id | id in channels :: if id in to then Deliver(channels[id], m) else channels[id]
  }

  function CloseAll(channels: map<ConnectionId, Channel>, to: set<ConnectionId>): map<ConnectionId, Channel> {
    map id | id in channels :: if id in to then channels[id].(closing := true) else channels[id]
  }

  function Reached(channels: map<ConnectionId, Channel>, to: set<ConnectionId>): set<ConnectionId> {
    set id | id in to && id in channels && HasRoom(channels[id])
  }

  /** The history when the value changes without a new revision. */
  function Amend(history: seq<Value>, value: Value): seq<Value> {
    if history == [] then [value] else history[|history| - 1 := value]
  }

  /** `send_event`; at the last revision the event cannot be numbered and every client is closed instead. */
  function Publish(s: State, e: Event): State {
    var value := Update(e, s.value);
    if s.revision >= U64_MAX
    then s.(value := value, history := Amend(s.history, value),
            channels := CloseAll(s.channels, s.connections), connections := {})
    else s.(value := value, history := s.history + [value], revision := s.revision + 1,
            channels := DeliverAll(s.channels, s.connections, Message.Event(s.revision + 1, e)),
            connections := Reached(s.channels, s.connections))
  }

  function Open(s: State): set<ConnectionId> {
    set id | id in s.connections && id in s.channels && !IsClosed(s.channels[id])
  }

  predicate Enabled(s: State, step: Step) {
    match step
    case Prepare(id) => id !in s.channels
    case Commit(id, _, _) => id in s.channels
    case Remove(id) => true
    case RemoveClosed => true
    case Resync(id) => id in s.channels
    case SendEvent(_) => true
    case Grant(id) => id in s.channels && HasRoom(s.channels[id])
    case SendReply(id) => id in s.channels && !s.channels[id].dropped && s.channels[id].slots > 0
    case Take(id) => id in s.channels && !s.channels[id].dropped && s.channels[id].taken < |s.channels[id].sent|
    case DropReceiver(id) => id in s.channels
    case Close(id) => id in s.channels
  }

  function Next(s: State, step: Step): State {
    if !Enabled(s, step) then s else
    match step
    case Prepare(id) =>
      s.(channels := s.channels[id := Channel([Attached(s.revision, s.value)], 0, 0, false, false)],
         connections := s.connections + {id})
    case Commit(id, accepted, replaced) =>
      if !MayCommit(s, id) then s
      else if !accepted then s.(connections := s.connections - {id})
      else s.(committed := s.committed + {id},
              connections := if replaced.Some? then s.connections - {replaced.value} else s.connections)
    case Remove(id) => s.(connections := s.connections - {id})
    case RemoveClosed => s.(connections := Open(s))
    case Resync(id) =>
      if HasRoom(s.channels[id])
      then s.(channels := s.channels[id := Enqueue(s.channels[id], Snapshot(s.revision, s.value))]) else s
    case SendEvent(e) => Publish(s, e)
    case Grant(id) => s.(channels := s.channels[id := s.channels[id].(slots := s.channels[id].slots + 1)])
    case SendReply(id) =>
      s.(channels := s.channels[id := Enqueue(s.channels[id].(slots := s.channels[id].slots - 1), Reply)])
    case Take(id) => s.(channels := s.channels[id := s.channels[id].(taken := s.channels[id].taken + 1)])
    case DropReceiver(id) => s.(channels := s.channels[id := s.channels[id].(dropped := true)])
    case Close(id) => s.(channels := s.channels[id := s.channels[id].(closing := true)])
  }

  function Run(s: State, steps: seq<Step>): State
    decreases |steps|
  {
    if steps == [] then s else Run(Next(s, steps[0]), steps[1..])
  }

  // --- the client's copy ---

  datatype Copy = Copy(revision: nat, value: Value)

  /** What the client makes of a message; nothing where it would report a gap or a second attach. */
  function Receive(copy: Option<Copy>, m: Message): Option<Copy> {
    match m
    case Attached(r, v) => if copy.None? then Some(Copy(r, v)) else None
    case Event(r, e) =>
      if copy.Some? && r == copy.value.revision + 1 then Some(Copy(r, Update(e, copy.value.value))) else None
    case Snapshot(r, v) => if copy.Some? then Some(Copy(r, v)) else None
    case Reply => copy
  }

  function Replay(log: seq<Message>): Option<Copy> {
    if log == [] then None else Receive(Replay(log[..|log| - 1]), log[|log| - 1])
  }

  /** After any non-empty part of the log the client holds what the server had at that revision. */
  ghost predicate Faithful(log: seq<Message>, history: seq<Value>) {
    log != [] &&
    forall k :: 1 <= k <= |log| ==>
      var copy := Replay(log[..k]);
      copy.Some? && copy.value.revision < |history| && copy.value.value == history[copy.value.revision]
  }

  lemma LogGrows(log: seq<Message>, m: Message)
    ensures Replay(log + [m]) == Receive(Replay(log), m)
    ensures forall k :: 0 <= k <= |log| ==> (log + [m])[..k] == log[..k]
  {
    assert (log + [m])[..|log|] == log;
  }

  lemma FaithfulGrows(log: seq<Message>, m: Message, history: seq<Value>)
    requires Faithful(log, history)
    requires var copy := Receive(Replay(log), m);
             copy.Some? && copy.value.revision < |history| && copy.value.value == history[copy.value.revision]
    ensures Faithful(log + [m], history)
  {
    LogGrows(log, m);
    forall k | 1 <= k <= |log| + 1
      ensures var copy := Replay((log + [m])[..k]);
              copy.Some? && copy.value.revision < |history| && copy.value.value == history[copy.value.revision]
    {
      if k <= |log| {
        assert (log + [m])[..k] == log[..k];
      } else {
        assert (log + [m])[..k] == log + [m];
      }
    }
  }

  lemma HistoryGrows(log: seq<Message>, history: seq<Value>, value: Value)
    requires Faithful(log, history)
    ensures Faithful(log, history + [value])
  {
  }

  lemma WholeLog(log: seq<Message>, history: seq<Value>)
    requires Faithful(log, history)
    ensures Replay(log).Some? && Replay(log).value.revision < |history|
    ensures Replay(log).value.value == history[Replay(log).value.revision]
  {
    assert log[..|log|] == log;
  }

  // --- the invariant ---

  ghost predicate Current(log: seq<Message>, revision: nat, history: seq<Value>) {
    Faithful(log, history) && Replay(log).Some? && Replay(log).value.revision == revision
  }

  ghost predicate Numbered(s: State) {
    s.revision <= U64_MAX && |s.history| == s.revision + 1 && s.history[s.revision] == s.value
  }

  ghost predicate Registered(s: State) {
    forall id :: id in s.connections ==>
      id in s.channels && Current(s.channels[id].sent, s.revision, s.history)
  }

  ghost predicate Bounded(s: State) {
    forall id :: id in s.channels ==>
      s.channels[id].taken <= |s.channels[id].sent| &&
      |s.channels[id].sent| - s.channels[id].taken + s.channels[id].slots <= CONNECTION_QUEUE
  }

  /** No part of the log makes the client report a gap or a second attach. */
  ghost predicate Unbroken(log: seq<Message>) {
    log != [] && forall k :: 1 <= k <= |log| ==> Replay(log[..k]).Some?
  }

  ghost predicate AllUnbroken(s: State) {
    forall id :: id in s.channels ==> Unbroken(s.channels[id].sent)
  }

  ghost predicate Inv(s: State) { Numbered(s) && Registered(s) && Bounded(s) && AllUnbroken(s) }

  lemma UnbrokenGrows(log: seq<Message>, m: Message)
    requires Unbroken(log) && Receive(Replay(log), m).Some?
    ensures Unbroken(log + [m])
  {
    LogGrows(log, m);
    forall k | 1 <= k <= |log| + 1 ensures Replay((log + [m])[..k]).Some? {
      if k <= |log| {
        assert (log + [m])[..k] == log[..k];
      } else {
        assert (log + [m])[..k] == log + [m];
      }
    }
  }

  lemma QuietGrows(log: seq<Message>, m: Message)
    requires Unbroken(log) && (m.Snapshot? || m.Reply?)
    ensures Unbroken(log + [m])
  {
    assert log[..|log|] == log;
    UnbrokenGrows(log, m);
  }

  lemma EventReaches(log: seq<Message>, s: State, e: Event)
    requires Numbered(s) && s.revision < U64_MAX && Current(log, s.revision, s.history)
    ensures Current(log + [Message.Event(s.revision + 1, e)], s.revision + 1, s.history + [Update(e, s.value)])
  {
    var m := Message.Event(s.revision + 1, e);
    var history := s.history + [Update(e, s.value)];
    WholeLog(log, s.history);
    HistoryGrows(log, s.history, Update(e, s.value));
    FaithfulGrows(log, m, history);
    LogGrows(log, m);
  }

  lemma PublishKeeps(s: State, e: Event)
    requires Inv(s)
    ensures Inv(Publish(s, e))
  {
    if s.revision < U64_MAX {
      var t := Publish(s, e);
      forall id | id in t.connections
        ensures id in t.channels && Current(t.channels[id].sent, t.revision, t.history)
      {
        EventReaches(s.channels[id].sent, s, e);
      }
      forall id | id in t.channels ensures Unbroken(t.channels[id].sent) {
        if id in t.connections {
          EventReaches(s.channels[id].sent, s, e);
          LogGrows(s.channels[id].sent, Message.Event(s.revision + 1, e));
          UnbrokenGrows(s.channels[id].sent, Message.Event(s.revision + 1, e));
        }
      }
    }
  }

  lemma SnapshotKeeps(s: State, id: ConnectionId)
    requires Inv(s) && id in s.channels
    ensures Inv(Next(s, Resync(id)))
  {
    var m := Snapshot(s.revision, s.value);
    QuietGrows(s.channels[id].sent, m);
    if HasRoom(s.channels[id]) && id in s.connections {
      var log := s.channels[id].sent;
      WholeLog(log, s.history);
      FaithfulGrows(log, m, s.history);
      LogGrows(log, m);
    }
  }

  lemma ReplyKeeps(s: State, id: ConnectionId)
    requires Inv(s) && Enabled(s, SendReply(id))
    ensures Inv(Next(s, SendReply(id)))
  {
    QuietGrows(s.channels[id].sent, Reply);
    if id in s.connections {
      var log := s.channels[id].sent;
      WholeLog(log, s.history);
      FaithfulGrows(log, Reply, s.history);
      LogGrows(log, Reply);
    }
  }

  lemma PrepareKeeps(s: State, id: ConnectionId)
    requires Inv(s) && Enabled(s, Prepare(id))
    ensures Inv(Next(s, Prepare(id)))
  {
    var log := [Attached(s.revision, s.value)];
    assert log[..1] == log && log[..0] == [];
    assert Replay(log) == Some(Copy(s.revision, s.value));
    assert Faithful(log, s.history);
  }

  lemma QuietKeeps(s: State, step: Step)
    requires Inv(s) && Enabled(s, step)
    requires !step.Prepare? && !step.Resync? && !step.SendEvent? && !step.SendReply?
    ensures Inv(Next(s, step))
  {
  }

  lemma StepKeeps(s: State, step: Step)
    requires Inv(s)
    ensures Inv(Next(s, step))
  {
    if Enabled(s, step) {
      if step.Prepare? { PrepareKeeps(s, step.id); }
      else if step.Resync? { SnapshotKeeps(s, step.id); }
      else if step.SendEvent? { PublishKeeps(s, step.event); }
      else if step.SendReply? { ReplyKeeps(s, step.id); }
      else { QuietKeeps(s, step); }
    }
  }

  lemma StepKeepsInv(s: State, step: Step)
    ensures Inv(s) ==> Inv(Next(s, step))
  {
    if Inv(s) { StepKeeps(s, step); }
  }

  lemma {:induction false} RunKeeps(s: State, steps: seq<Step>)
    requires Inv(s)
    ensures Inv(Run(s, steps))
    decreases |steps|
  {
    if steps != [] {
      StepKeeps(s, steps[0]);
      RunKeeps(Next(s, steps[0]), steps[1..]);
    }
  }

  // --- what the server's state is, read off the events alone ---

  function EventOf(step: Step): seq<Event> { if step.SendEvent? then [step.event] else [] }

  /** The events published along a run. */
  function Events(steps: seq<Step>): seq<Event> {
    if steps == [] then [] else EventOf(steps[0]) + Events(steps[1..])
  }

  /** The VPN state the latest event that carries one set, or the one there was at first. */
  function LastSet(events: seq<Event>, initial: Value): Value {
    if events == [] then initial
    else if events[|events| - 1].Sets? then events[|events| - 1].value
    else LastSet(events[..|events| - 1], initial)
  }

  function Revision(events: seq<Event>): nat { if |events| <= U64_MAX then |events| else U64_MAX }

  /** The VPN state at a revision. The last revision stands for every event from there on. */
  function StateAt(events: seq<Event>, initial: Value, revision: nat): Value {
    if revision < U64_MAX && revision <= |events| then LastSet(events[..revision], initial)
    else LastSet(events, initial)
  }

  ghost predicate Tracks(s: State, events: seq<Event>, initial: Value) {
    && s.value == LastSet(events, initial)
    && s.revision == Revision(events)
    && |s.history| == s.revision + 1
    && forall r :: 0 <= r <= s.revision ==> s.history[r] == StateAt(events, initial, r)
  }

  lemma EventsGrow(events: seq<Event>, e: Event, initial: Value)
    ensures LastSet(events + [e], initial) == if e.Sets? then e.value else LastSet(events, initial)
    ensures forall r :: 0 <= r <= |events| && r < U64_MAX ==>
      StateAt(events + [e], initial, r) == StateAt(events, initial, r)
  {
    assert (events + [e])[..|events|] == events;
    forall r | 0 <= r <= |events| && r < U64_MAX
      ensures StateAt(events + [e], initial, r) == StateAt(events, initial, r)
    {
      assert (events + [e])[..r] == events[..r];
    }
  }

  lemma PublishTracks(s: State, e: Event, events: seq<Event>, initial: Value)
    requires Tracks(s, events, initial)
    ensures Tracks(Publish(s, e), events + [e], initial)
  {
    var t := Publish(s, e);
    EventsGrow(events, e, initial);
    assert (events + [e])[..|events| + 1] == events + [e];
    forall r | 0 <= r <= t.revision ensures t.history[r] == StateAt(events + [e], initial, r) {
      if r < s.revision { assert t.history[r] == s.history[r]; }
      else if r == s.revision < t.revision { assert t.history[r] == s.history[r]; }
    }
  }

  lemma StepTracks(s: State, step: Step, events: seq<Event>, initial: Value)
    requires Tracks(s, events, initial)
    ensures Tracks(Next(s, step), events + EventOf(step), initial)
  {
    NothingMore(events);
    if step.SendEvent? { PublishTracks(s, step.event, events, initial); }
  }

  lemma {:induction false} RunTracks(s: State, steps: seq<Step>, events: seq<Event>, initial: Value)
    requires Tracks(s, events, initial)
    ensures Tracks(Run(s, steps), events + Events(steps), initial)
    decreases |steps|
  {
    if steps == [] {
      NothingMore(events);
    } else {
      StepTracks(s, steps[0], events, initial);
      RunTracks(Next(s, steps[0]), steps[1..], events + EventOf(steps[0]), initial);
      Associative(events, EventOf(steps[0]), Events(steps[1..]));
    }
  }

  lemma ReachableTracks(value: Value, steps: seq<Step>)
    ensures Inv(Run(Initial(value), steps)) && Tracks(Run(Initial(value), steps), Events(steps), value)
  {
    RunKeeps(Initial(value), steps);
    RunTracks(Initial(value), steps, [], value);
    NothingMore(Events(steps));
  }

  // --- the guarantees ---

  /** The server's state is what the latest VPN-state event said, at the revision that counts the events. */
  lemma ServerHoldsLastSet(value: Value, steps: seq<Step>)
    ensures var s := Run(Initial(value), steps);
            s.value == LastSet(Events(steps), value) && s.revision == Revision(Events(steps))
  {
    ReachableTracks(value, steps);
  }

  /**
   For a registered connection, replaying any non-empty part of what it was sent
   gives the state the events up to the last revision in it had set, with no gap on
   the way.
   */
  lemma ReplicaRefinesServer(value: Value, steps: seq<Step>, id: ConnectionId, k: nat)
    requires var s := Run(Initial(value), steps);
             id in s.connections && id in s.channels && 1 <= k <= |s.channels[id].sent|
    ensures var s := Run(Initial(value), steps);
            var copy := Replay(s.channels[id].sent[..k]);
            && copy.Some?
            && copy.value.revision <= Revision(Events(steps))
            && copy.value.value == StateAt(Events(steps), value, copy.value.revision)
  {
    ReachableTracks(value, steps);
  }

  /** Registered or not, no client ever sees a gap in the revisions or a second attach. */
  lemma NoGaps(value: Value, steps: seq<Step>, id: ConnectionId, k: nat)
    requires var s := Run(Initial(value), steps); id in s.channels && 1 <= k <= |s.channels[id].sent|
    ensures Replay(Run(Initial(value), steps).channels[id].sent[..k]).Some?
  {
    RunKeeps(Initial(value), steps);
  }

  /** Once its queue is drained it holds the current state; queues never exceed their capacity. */
  lemma DrainedIsCurrent(value: Value, steps: seq<Step>, id: ConnectionId)
    requires id in Run(Initial(value), steps).connections
    ensures var s := Run(Initial(value), steps);
            && id in s.channels
            && Replay(s.channels[id].sent) == Some(Copy(s.revision, s.value))
            && Replay(s.channels[id].sent) == Some(Copy(Revision(Events(steps)), LastSet(Events(steps), value)))
            && |s.channels[id].sent| - s.channels[id].taken <= CONNECTION_QUEUE
  {
    ReachableTracks(value, steps);
    var s := Run(Initial(value), steps);
    WholeLog(s.channels[id].sent, s.history);
  }

  predicate Retired(s: State, id: ConnectionId) { id in s.channels && id !in s.connections }

  lemma StepRetired(s: State, step: Step, id: ConnectionId)
    requires Retired(s, id)
    ensures Retired(Next(s, step), id)
    ensures Next(s, step).committed * {id} == s.committed * {id}
  {
  }

  lemma {:induction false} RunRetired(s: State, steps: seq<Step>, id: ConnectionId)
    requires Retired(s, id)
    ensures Retired(Run(s, steps), id)
    ensures id in Run(s, steps).committed <==> id in s.committed
    decreases |steps|
  {
    if steps != [] {
      StepRetired(s, steps[0], id);
      assert id in s.committed <==> id in Next(s, steps[0]).committed by {
        assert id in s.committed <==> id in s.committed * {id};
        assert id in Next(s, steps[0]).committed <==> id in Next(s, steps[0]).committed * {id};
      }
      RunRetired(Next(s, steps[0]), steps[1..], id);
    }
  }

  /** A candidate that once missed an event can never take the session over, not even after a resync. */
  lemma MissedNeverCommits(value: Value, steps: seq<Step>, id: ConnectionId, more: seq<Step>)
    requires var s := Run(Initial(value), steps);
             id in s.channels && id !in s.committed && Replay(s.channels[id].sent) != Some(Copy(s.revision, s.value))
    ensures var s := Run(Initial(value), steps);
            id !in Run(s, more).committed && id !in Run(s, more).connections
  {
    RunKeeps(Initial(value), steps);
    var s := Run(Initial(value), steps);
    if id in s.connections {
      WholeLog(s.channels[id].sent, s.history);
    }
    RunRetired(s, more, id);
  }

  /** A takeover is granted only to a candidate that has been sent everything. */
  lemma CommitIsCurrent(value: Value, steps: seq<Step>, id: ConnectionId, replaced: Option<ConnectionId>)
    requires var s := Run(Initial(value), steps);
             id !in s.committed && id in Next(s, Commit(id, true, replaced)).committed
    ensures var s := Run(Initial(value), steps);
            id in s.channels && Replay(s.channels[id].sent) == Some(Copy(s.revision, s.value))
  {
    DrainedIsCurrent(value, steps, id);
  }

  /** A resync that finds room brings any client up to date, even one that is no longer registered. */
  lemma ResyncRestores(value: Value, steps: seq<Step>, id: ConnectionId)
    requires var s := Run(Initial(value), steps); id in s.channels && HasRoom(s.channels[id])
    ensures var log := Next(Run(Initial(value), steps), Resync(id)).channels[id].sent;
            Replay(log) == Some(Copy(Revision(Events(steps)), LastSet(Events(steps), value)))
  {
    ReachableTracks(value, steps);
    var s := Run(Initial(value), steps);
    var log := s.channels[id].sent;
    LogGrows(log, Snapshot(s.revision, s.value));
    assert log[..|log|] == log;
  }

  function EventCount(log: seq<Message>): nat {
    if log == [] then 0 else EventCount(log[..|log| - 1]) + Count(log[|log| - 1].Event?)
  }

  lemma StepHearsNoMore(s: State, step: Step, id: ConnectionId)
    requires Retired(s, id)
    ensures id in Next(s, step).channels
    ensures EventCount(Next(s, step).channels[id].sent) == EventCount(s.channels[id].sent)
  {
    var log := s.channels[id].sent;
    assert (log + [Reply])[..|log|] == log;
    assert (log + [Snapshot(s.revision, s.value)])[..|log|] == log;
  }

  lemma {:induction false} RunHearsNoMore(s: State, steps: seq<Step>, id: ConnectionId)
    requires Retired(s, id)
    ensures id in Run(s, steps).channels
    ensures EventCount(Run(s, steps).channels[id].sent) == EventCount(s.channels[id].sent)
    decreases |steps|
  {
    if steps != [] {
      StepHearsNoMore(s, steps[0], id);
      StepRetired(s, steps[0], id);
      RunHearsNoMore(Next(s, steps[0]), steps[1..], id);
    }
  }

  /** A granted takeover commits the candidate and removes the replaced connection, which never gets another event. */
  lemma TakeoverReplaces(value: Value, steps: seq<Step>, id: ConnectionId, replaced: ConnectionId, more: seq<Step>)
    requires var s := Run(Initial(value), steps); MayCommit(s, id) && replaced in s.channels && replaced != id
    ensures var s := Run(Initial(value), steps);
            var t := Next(s, Commit(id, true, Some(replaced)));
            && id in t.committed && id in t.connections && replaced !in t.connections
            && replaced in Run(t, more).channels
            && EventCount(Run(t, more).channels[replaced].sent) == EventCount(s.channels[replaced].sent)
  {
    var s := Run(Initial(value), steps);
    RunHearsNoMore(Next(s, Commit(id, true, Some(replaced))), more, replaced);
  }

  /** A candidate the registry refuses is gone for good: never committed, and no event reaches it any more. */
  lemma RefusedLeaves(value: Value, steps: seq<Step>, id: ConnectionId, replaced: Option<ConnectionId>, more: seq<Step>)
    requires var s := Run(Initial(value), steps); MayCommit(s, id) && id !in s.committed
    ensures var s := Run(Initial(value), steps);
            var t := Run(Next(s, Commit(id, false, replaced)), more);
            && id !in t.committed && id !in t.connections && id in t.channels
            && EventCount(t.channels[id].sent) == EventCount(s.channels[id].sent)
  {
    var s := Run(Initial(value), steps);
    RunRetired(Next(s, Commit(id, false, replaced)), more, id);
    RunHearsNoMore(Next(s, Commit(id, false, replaced)), more, id);
  }

  // --- nobody is left out silently ---

  /** The connections a step takes out by name: abandoned or ended, refused, or replaced. */
  function TakenOutBy(step: Step): set<ConnectionId> {
    match step
    case Remove(id) => {id}
    case Commit(id, accepted, replaced) =>
      if !accepted then {id} else if replaced.Some? then {replaced.value} else {}
    case _ => {}
  }

  function TakenOut(steps: seq<Step>): set<ConnectionId> {
    if steps == [] then {} else TakenOutBy(steps[0]) + TakenOut(steps[1..])
  }

  ghost predicate LeftForAReason(s: State, out: set<ConnectionId>) {
    forall id :: id in s.channels && id !in s.connections ==> id in out || IsClosed(s.channels[id])
  }

  lemma StepHasAReason(s: State, step: Step, out: set<ConnectionId>)
    requires LeftForAReason(s, out)
    ensures LeftForAReason(Next(s, step), out + TakenOutBy(step))
  {
  }

  lemma {:induction false} RunHasAReason(s: State, steps: seq<Step>, out: set<ConnectionId>)
    requires LeftForAReason(s, out)
    ensures LeftForAReason(Run(s, steps), out + TakenOut(steps))
    decreases |steps|
  {
    if steps == [] {
      assert out + {} == out;
    } else {
      StepHasAReason(s, steps[0], out);
      RunHasAReason(Next(s, steps[0]), steps[1..], out + TakenOutBy(steps[0]));
      assert out + TakenOutBy(steps[0]) + TakenOut(steps[1..]) == out + TakenOut(steps);
    }
  }

  /**
   A client that is neither closing nor gone, and that no step took out by name, misses
   nothing: what it was sent replays to the server's current state.
   */
  lemma OpenClientIsCurrent(value: Value, steps: seq<Step>, id: ConnectionId)
    requires var s := Run(Initial(value), steps);
             id in s.channels && !IsClosed(s.channels[id]) && id !in TakenOut(steps)
    ensures var s := Run(Initial(value), steps);
            && id in s.connections
            && Replay(s.channels[id].sent) == Some(Copy(Revision(Events(steps)), LastSet(Events(steps), value)))
  {
    RunHasAReason(Initial(value), steps, {});
    assert {} + TakenOut(steps) == TakenOut(steps);
    DrainedIsCurrent(value, steps, id);
  }
}
