/**
 Request and reply bookkeeping of one client connection: the set of pending
 request ids, the bounded command queue, and the three ways a reply is produced
 (at once, by a preview worker, by a spawned dispatch).
 */
module Replies {
  import opened Basics

  type Id = nat

  const MAX_PENDING_REQUESTS: nat := 64

  datatype Command = Send | Reply(id: Id)

  /**
   `tasks` and `previews` are spawned and not yet done; `granted` are tasks that hold a
   queue slot and have not written yet; `lost` are pending ids whose producer ended
   without a reply. `accepted`, `answered` and `withdrawn` count occurrences.
   */
  datatype State = State(
    pending: set<Id>,
    queue: seq<Command>,
    tasks: set<Id>,
    granted: set<Id>,
    previews: set<Id>,
    lost: set<Id>,
    closing: bool,
    over: bool,                    // the connection loop has ended and dropped the queue
    unknown: bool,                 // the branch for a reply to no pending request was taken
    accepted: multiset<Id>,
    answered: multiset<Id>,
    withdrawn: multiset<Id>)

  const INITIAL :=
    State({}, [], {}, {}, {}, {}, false, false, false, multiset{}, multiset{}, multiset{})

  datatype PreviewStart = Started | Busy | BadReport

  /** The requests, as far as they differ in how their reply is produced. */
  datatype Kind =
    | SetStatistics
    | UploadChunk
    | ReadPreview
    | LastReport
    | ApprovalStatus
    | Preview(start: PreviewStart)
    | Lifecycle(answered: bool)    // whether the dispatcher answers before anything is spawned

  datatype Step =
    | Request(id: Id, current: bool, kind: Kind)
    | PreviewDone(id: Id)
    | Grant(id: Id)
    | TaskReplies(id: Id)
    | TaskDies(id: Id)
    | Publish
    | Take(written: bool)
    | Stop

  /** Whether `try_send` succeeds: slots granted to waiting senders are taken. */
  predicate HasRoom(queue: seq<Command>, granted: set<Id>) { |queue| + |granted| < CONNECTION_QUEUE }

  predicate Accepts(pending: set<Id>, id: Id) { |pending| < MAX_PENDING_REQUESTS && id !in pending }

  function End(s: State): State { s.(over := true, queue := []) }

  function Accept(s: State, id: Id): State {
    s.(pending := s.pending + {id}, accepted := s.accepted + multiset{id})
  }

  function Enqueue(s: State, c: Command): State { s.(queue := s.queue + [c]) }

  /** A reply made at once whose failure to enqueue is an error of the connection. */
  function ReplyOrEnd(s: State, id: Id): State {
    if HasRoom(s.queue, s.granted) then Enqueue(s, Reply(id)) else End(s)
  }

  /** A reply made at once whose failure to enqueue withdraws the request and asks for a close. */
  function ReplyOrWithdraw(s: State, id: Id): State {
    if HasRoom(s.queue, s.granted) then Enqueue(s, Reply(id))
    else s.(pending := s.pending - {id}, withdrawn := s.withdrawn + multiset{id}, closing := true)
  }

  /** `handle_client_message` on a request. */
  function Handle(s: State, id: Id, current: bool, kind: Kind): State {
    if !Accepts(s.pending, id) || !current then End(s)
    else
      var s := Accept(s, id);
      match kind
      case SetStatistics => ReplyOrEnd(s, id)
      case UploadChunk => ReplyOrWithdraw(s, id)
      case ReadPreview => ReplyOrEnd(s, id)
      case LastReport => ReplyOrEnd(s, id)
      case ApprovalStatus => ReplyOrEnd(s, id)
      case Preview(start) => if start == Started then s.(previews := s.previews + {id}) else ReplyOrEnd(s, id)
      case Lifecycle(answered) => if answered then ReplyOrWithdraw(s, id) else s.(tasks := s.tasks + {id})
  }

  /** The command branch of the loop. */
  function TakeOne(s: State, written: bool): State
    requires s.queue != []
  {
    var rest := s.(queue := s.queue[1..]);
    match s.queue[0]
    case Send => if written then rest else End(rest)
    case Reply(id) =>
      if id !in s.pending then End(rest).(unknown := true)
      else
        var replied := rest.(pending := s.pending - {id}, answered := s.answered + multiset{id});
        if written then replied else End(replied)
  }

  predicate Enabled(s: State, step: Step) {
    match step
    case Request(_, _, _) => !s.over
    case PreviewDone(id) => id in s.previews
    case Grant(id) => id in s.tasks && !s.over && HasRoom(s.queue, s.granted)
    case TaskReplies(id) => id in s.granted || (s.over && id in s.tasks)
    case TaskDies(id) => id in s.tasks
    case Publish => !s.over
    case Take(_) => !s.over && s.queue != []
    case Stop => !s.over
  }

  function Next(s: State, step: Step): State {
    if !Enabled(s, step) then s else
    match step
    case Request(id, current, kind) => Handle(s, id, current, kind)
    case PreviewDone(id) =>
      var done := s.(previews := s.previews - {id});
      if s.over then done
      else if HasRoom(s.queue, s.granted) then Enqueue(done, Reply(id))
      else done.(lost := s.lost + {id})
    case Grant(id) => s.(tasks := s.tasks - {id}, granted := s.granted + {id})
    case TaskReplies(id) =>
      var done := s.(tasks := s.tasks - {id}, granted := s.granted - {id});
      if s.over then done else Enqueue(s.(granted := s.granted - {id}), Reply(id))
    case TaskDies(id) => s.(tasks := s.tasks - {id}, lost := if s.over then s.lost else s.lost + {id})
    case Publish => if HasRoom(s.queue, s.granted) then Enqueue(s, Send) else s
    case Take(written) => TakeOne(s, written)
    case Stop => End(s)
  }

  function Run(s: State, steps: seq<Step>): State
    decreases |steps|
  {
    if steps == [] then s else Run(Next(s, steps[0]), steps[1..])
  }

  // --- the invariant ---

  function ReplyOf(c: Command): multiset<Id> {
    match c case Send => multiset{} case Reply(id) => multiset{id}
  }

  function ReplyIds(queue: seq<Command>): multiset<Id> {
    if queue == [] then multiset{} else ReplyOf(queue[0]) + ReplyIds(queue[1..])
  }

  lemma {:induction false} QueueGrows(queue: seq<Command>, c: Command)
    ensures ReplyIds(queue + [c]) == ReplyIds(queue) + ReplyOf(c)
  {
    if queue != [] {
      assert (queue + [c])[0] == queue[0] && (queue + [c])[1..] == queue[1..] + [c];
      QueueGrows(queue[1..], c);
    } else {
      assert (queue + [c])[1..] == [];
    }
  }

  /** Each pending id is accounted for exactly once: a queued reply, a running producer, or lost. */
  ghost predicate OneReplyEach(
    pending: set<Id>, queued: multiset<Id>, tasks: set<Id>, granted: set<Id>, previews: set<Id>, lost: set<Id>)
  {
    multiset(pending) == queued + multiset(tasks) + multiset(granted) + multiset(previews) + multiset(lost)
  }

  ghost predicate Flowing(s: State) {
    OneReplyEach(s.pending, ReplyIds(s.queue), s.tasks, s.granted, s.previews, s.lost)
  }

  ghost predicate Conserved(s: State) {
    s.accepted == s.answered + s.withdrawn + multiset(s.pending)
  }

  /** The counts and limits, without the flow. */
  ghost predicate Counted(s: State) {
    Conserved(s) && |s.pending| <= MAX_PENDING_REQUESTS && s.lost <= s.pending && !s.unknown
  }

  ghost predicate Inv(s: State) {
    && (!s.over ==> Flowing(s) && |s.queue| + |s.granted| <= CONNECTION_QUEUE)
    && (s.over ==> s.queue == [])
    && Counted(s)
  }

  lemma SetGrows(a: set<Id>, id: Id)
    requires id !in a
    ensures multiset(a + {id}) == multiset(a) + multiset{id} && |a + {id}| == |a| + 1
  {
  }

  lemma SetShrinks(a: set<Id>, id: Id)
    requires id in a
    ensures multiset(a) == multiset(a - {id}) + multiset{id} && |a - {id}| == |a| - 1
  {
  }

  /** Of the places an id can be, it is in one exactly when it is pending. */
  lemma InOnePlace(
    pending: set<Id>, queued: multiset<Id>, tasks: set<Id>, granted: set<Id>, previews: set<Id>, lost: set<Id>, id: Id)
    requires OneReplyEach(pending, queued, tasks, granted, previews, lost)
    ensures queued[id] + Count(id in tasks) + Count(id in granted) + Count(id in previews) + Count(id in lost) ==
            Count(id in pending)
  {
    assert multiset(pending)[id] ==
           queued[id] + multiset(tasks)[id] + multiset(granted)[id] + multiset(previews)[id] + multiset(lost)[id];
  }

  lemma Placed(s: State, id: Id)
    requires Flowing(s)
    ensures ReplyIds(s.queue)[id] + Count(id in s.tasks) + Count(id in s.granted) + Count(id in s.previews) +
            Count(id in s.lost) == Count(id in s.pending)
  {
    InOnePlace(s.pending, ReplyIds(s.queue), s.tasks, s.granted, s.previews, s.lost, id);
  }

  // moving one id between the places it can be

  lemma IntoQueue(
    pending: set<Id>, queued: multiset<Id>, tasks: set<Id>, granted: set<Id>, previews: set<Id>, lost: set<Id>, id: Id)
    requires OneReplyEach(pending, queued, tasks, granted, previews, lost)
    ensures id !in pending ==>
      && OneReplyEach(pending + {id}, queued + multiset{id}, tasks, granted, previews, lost)
      && OneReplyEach(pending + {id}, queued, tasks + {id}, granted, previews, lost)
      && OneReplyEach(pending + {id}, queued, tasks, granted, previews + {id}, lost)
  {
    InOnePlace(pending, queued, tasks, granted, previews, lost, id);
    if id !in pending {
      SetGrows(pending, id);
      SetGrows(tasks, id);
      SetGrows(previews, id);
    }
  }

  lemma OutOfPreviews(
    pending: set<Id>, queued: multiset<Id>, tasks: set<Id>, granted: set<Id>, previews: set<Id>, lost: set<Id>, id: Id)
    requires OneReplyEach(pending, queued, tasks, granted, previews, lost) && id in previews
    ensures OneReplyEach(pending, queued + multiset{id}, tasks, granted, previews - {id}, lost)
    ensures OneReplyEach(pending, queued, tasks, granted, previews - {id}, lost + {id})
    ensures id in pending
  {
    InOnePlace(pending, queued, tasks, granted, previews, lost, id);
    SetShrinks(previews, id);
    SetGrows(lost, id);
  }

  lemma OutOfTasks(
    pending: set<Id>, queued: multiset<Id>, tasks: set<Id>, granted: set<Id>, previews: set<Id>, lost: set<Id>, id: Id)
    requires OneReplyEach(pending, queued, tasks, granted, previews, lost) && id in tasks
    ensures OneReplyEach(pending, queued, tasks - {id}, granted + {id}, previews, lost) &&
          |granted + {id}| == |granted| + 1
    ensures OneReplyEach(pending, queued, tasks - {id}, granted, previews, lost + {id})
    ensures id in pending
  {
    InOnePlace(pending, queued, tasks, granted, previews, lost, id);
    SetShrinks(tasks, id);
    SetGrows(granted, id);
    SetGrows(lost, id);
  }

  lemma OutOfGranted(
    pending: set<Id>, queued: multiset<Id>, tasks: set<Id>, granted: set<Id>, previews: set<Id>, lost: set<Id>, id: Id)
    requires OneReplyEach(pending, queued, tasks, granted, previews, lost) && id in granted
    ensures OneReplyEach(pending, queued + multiset{id}, tasks, granted - {id}, previews, lost)
    ensures |granted - {id}| == |granted| - 1
  {
    SetShrinks(granted, id);
  }

  lemma AcceptCounts(s: State, id: Id)
    requires Counted(s) && Accepts(s.pending, id)
    ensures Counted(Accept(s, id))
    ensures id !in s.lost ==>
      Counted(Accept(s, id).(pending := s.pending + {id} - {id}, withdrawn := s.withdrawn + multiset{id},
            closing := true))
  {
    SetGrows(s.pending, id);
    assert s.pending + {id} - {id} == s.pending;
    assert s.answered + s.withdrawn + multiset(s.pending) + multiset{id} ==
           s.answered + (s.withdrawn + multiset{id}) + multiset(s.pending);
  }

  lemma RepliedKeeps(s: State, id: Id)
    requires Inv(s) && !s.over && Accepts(s.pending, id)
    ensures Inv(ReplyOrEnd(Accept(s, id), id))
  {
    AcceptCounts(s, id);
    QueueGrows(s.queue, Reply(id));
    IntoQueue(s.pending, ReplyIds(s.queue), s.tasks, s.granted, s.previews, s.lost, id);
  }

  lemma WithdrawnKeeps(s: State, id: Id)
    requires Inv(s) && !s.over && Accepts(s.pending, id)
    ensures Inv(ReplyOrWithdraw(Accept(s, id), id))
  {
    AcceptCounts(s, id);
    QueueGrows(s.queue, Reply(id));
    IntoQueue(s.pending, ReplyIds(s.queue), s.tasks, s.granted, s.previews, s.lost, id);
    assert s.pending + {id} - {id} == s.pending;
  }

  lemma SpawnedKeeps(s: State, id: Id)
    requires Inv(s) && !s.over && Accepts(s.pending, id)
    ensures Inv(Accept(s, id).(tasks := s.tasks + {id})) && Inv(Accept(s, id).(previews := s.previews + {id}))
  {
    AcceptCounts(s, id);
    IntoQueue(s.pending, ReplyIds(s.queue), s.tasks, s.granted, s.previews, s.lost, id);
  }

  lemma EndKeeps(s: State)
    requires Inv(s)
    ensures Inv(End(s))
  {
  }

  lemma HandleKeeps(s: State, id: Id, current: bool, kind: Kind)
    requires Inv(s) && !s.over
    ensures Inv(Handle(s, id, current, kind))
  {
    if Accepts(s.pending, id) && current {
      match kind
      case SetStatistics => RepliedKeeps(s, id);
      case UploadChunk => WithdrawnKeeps(s, id);
      case ReadPreview => RepliedKeeps(s, id);
      case LastReport => RepliedKeeps(s, id);
      case ApprovalStatus => RepliedKeeps(s, id);
      case Preview(start) => if start == Started { SpawnedKeeps(s, id); } else { RepliedKeeps(s, id); }
      case Lifecycle(answered) => if answered { WithdrawnKeeps(s, id); } else { SpawnedKeeps(s, id); }
    } else {
      EndKeeps(s);
    }
  }

  lemma FrontReplied(pending: set<Id>, id: Id, rest: multiset<Id>, tasks: set<Id>, granted: set<Id>,
                     previews: set<Id>, lost: set<Id>)
    requires OneReplyEach(pending, multiset{id} + rest, tasks, granted, previews, lost)
    ensures id in pending && id !in lost && OneReplyEach(pending - {id}, rest, tasks, granted, previews, lost)
  {
    InOnePlace(pending, multiset{id} + rest, tasks, granted, previews, lost, id);
    SetShrinks(pending, id);
    var others := multiset(tasks) + multiset(granted) + multiset(previews) + multiset(lost);
    assert multiset(pending) == multiset{id} + (rest + others);
    assert multiset(pending - {id}) == multiset(pending) - multiset{id};
    assert multiset{id} + (rest + others) - multiset{id} == rest + others;
  }

  lemma SendTaken(s: State)
    requires Inv(s) && !s.over && s.queue != [] && s.queue[0].Send?
    ensures Inv(s.(queue := s.queue[1..]))
  {
    assert ReplyIds(s.queue) == ReplyIds(s.queue[1..]);
  }

  lemma ReplyTaken(s: State, id: Id)
    requires Inv(s) && !s.over && s.queue != [] && s.queue[0] == Reply(id)
    ensures id in s.pending && id !in s.lost
    ensures Inv(s.(queue := s.queue[1..], pending := s.pending - {id}, answered := s.answered + multiset{id}))
  {
    assert ReplyIds(s.queue) == multiset{id} + ReplyIds(s.queue[1..]);
    FrontReplied(s.pending, id, ReplyIds(s.queue[1..]), s.tasks, s.granted, s.previews, s.lost);
    SetShrinks(s.pending, id);
    assert s.answered + s.withdrawn + (multiset(s.pending - {id}) + multiset{id}) ==
           (s.answered + multiset{id}) + s.withdrawn + multiset(s.pending - {id});
  }

  lemma TakeKeeps(s: State, written: bool)
    requires Inv(s) && !s.over && s.queue != []
    ensures Inv(TakeOne(s, written))
  {
    if s.queue[0].Send? {
      SendTaken(s);
      EndKeeps(s.(queue := s.queue[1..]));
    } else {
      var id := s.queue[0].id;
      ReplyTaken(s, id);
      EndKeeps(s.(queue := s.queue[1..], pending := s.pending - {id}, answered := s.answered + multiset{id}));
    }
  }

  lemma PreviewReplies(s: State, id: Id)
    requires Inv(s) && !s.over && id in s.previews && HasRoom(s.queue, s.granted)
    ensures Inv(Enqueue(s.(previews := s.previews - {id}), Reply(id)))
  {
    OutOfPreviews(s.pending, ReplyIds(s.queue), s.tasks, s.granted, s.previews, s.lost, id);
    QueueGrows(s.queue, Reply(id));
  }

  lemma PreviewIsLost(s: State, id: Id)
    requires Inv(s) && !s.over && id in s.previews
    ensures Inv(s.(previews := s.previews - {id}, lost := s.lost + {id}))
  {
    OutOfPreviews(s.pending, ReplyIds(s.queue), s.tasks, s.granted, s.previews, s.lost, id);
  }

  lemma PreviewKeeps(s: State, id: Id)
    requires Inv(s) && id in s.previews
    ensures Inv(Next(s, PreviewDone(id)))
  {
    if !s.over {
      if HasRoom(s.queue, s.granted) { PreviewReplies(s, id); } else { PreviewIsLost(s, id); }
    }
  }

  lemma GrantKeeps(s: State, id: Id)
    requires Inv(s) && Enabled(s, Grant(id))
    ensures Inv(Next(s, Grant(id)))
  {
    OutOfTasks(s.pending, ReplyIds(s.queue), s.tasks, s.granted, s.previews, s.lost, id);
  }

  lemma TaskRepliesKeeps(s: State, id: Id)
    requires Inv(s) && Enabled(s, TaskReplies(id))
    ensures Inv(Next(s, TaskReplies(id)))
  {
    if !s.over {
      OutOfGranted(s.pending, ReplyIds(s.queue), s.tasks, s.granted, s.previews, s.lost, id);
      QueueGrows(s.queue, Reply(id));
    }
  }

  lemma TaskDiesKeeps(s: State, id: Id)
    requires Inv(s) && id in s.tasks
    ensures Inv(Next(s, TaskDies(id)))
  {
    if !s.over {
      OutOfTasks(s.pending, ReplyIds(s.queue), s.tasks, s.granted, s.previews, s.lost, id);
    }
  }

  lemma StepKeeps(s: State, step: Step)
    requires Inv(s)
    ensures Inv(Next(s, step))
  {
    if Enabled(s, step) {
      match step
      case Request(id, current, kind) => HandleKeeps(s, id, current, kind);
      case PreviewDone(id) => PreviewKeeps(s, id);
      case Grant(id) => GrantKeeps(s, id);
      case TaskReplies(id) => TaskRepliesKeeps(s, id);
      case TaskDies(id) => TaskDiesKeeps(s, id);
      case Publish => QueueGrows(s.queue, Send);
      case Take(written) => TakeKeeps(s, written);
      case Stop =>
    }
  }

  lemma {:induction false} RunKeeps(s: State, steps: seq<Step>)
    requires Inv(s)
    ensures Inv(Run(s, steps))
    decreases |steps|
  {
    if steps != [] {
      StepKeeps(s, steps[0]);
      RunKeeps(Next(s, steps[0]), steps[1..]);
    }
  }

  lemma Reachable(steps: seq<Step>)
    ensures Inv(Run(INITIAL, steps))
  {
    RunKeeps(INITIAL, steps);
  }

  // --- the guarantees ---

  /** No request is answered more often than it was accepted, and nothing accepted disappears unaccounted. */
  lemma AtMostOneReply(steps: seq<Step>, id: Id)
    ensures var s := Run(INITIAL, steps);
            && s.answered[id] <= s.accepted[id]
            && s.accepted[id] == s.answered[id] + s.withdrawn[id] + Count(id in s.pending)
  {
    Reachable(steps);
    var s := Run(INITIAL, steps);
    assert multiset(s.pending)[id] == Count(id in s.pending);
  }

  /** While the loop runs, queued replies are distinct, all pending, and produced by nobody else. */
  lemma QueuedRepliesArePending(steps: seq<Step>, id: Id)
    requires !Run(INITIAL, steps).over && id in ReplyIds(Run(INITIAL, steps).queue)
    ensures var s := Run(INITIAL, steps);
            ReplyIds(s.queue)[id] == 1 && id in s.pending && id !in s.tasks && id !in s.granted && id !in s.previews
  {
    Reachable(steps);
    Placed(Run(INITIAL, steps), id);
  }

  /** The branch that closes on a reply to no pending request is never taken; set and queue stay within their limits. */
  lemma UnknownReplyIsUnreachable(steps: seq<Step>)
    ensures var s := Run(INITIAL, steps);
            !s.unknown && |s.pending| <= MAX_PENDING_REQUESTS && |s.queue| <= CONNECTION_QUEUE
  {
    Reachable(steps);
  }

  /** Requests whose queue-full answer ends the connection; the others withdraw the request and ask for a close. */
  predicate Strict(kind: Kind) {
    kind.SetStatistics? || kind.ReadPreview? || kind.LastReport? || kind.ApprovalStatus? || kind.Preview?
  }

  /** A worker or a dispatch answers later, so nothing is queued yet. */
  predicate Deferred(kind: Kind) { kind == Preview(Started) || kind == Lifecycle(false) }

  function Outstanding(s: State): int { |s.accepted| - |s.answered| - |s.withdrawn| }

  lemma SetSize(a: set<Id>)
    ensures |multiset(a)| == |a|
  {
  }

  /** Of the ids accepted, those neither answered nor withdrawn are the pending ones. */
  lemma PendingIsOutstanding(steps: seq<Step>, id: Id)
    ensures var s := Run(INITIAL, steps);
            && |s.pending| == Outstanding(s)
            && (id in s.pending <==> s.accepted[id] > s.answered[id] + s.withdrawn[id])
  {
    Reachable(steps);
    var s := Run(INITIAL, steps);
    SetSize(s.pending);
    assert multiset(s.pending)[id] == Count(id in s.pending);
  }

  /** How a request leaves the connection, given whether it is accepted and whether its answer finds no room. */
  predicate Answers(s: State, t: State, id: Id, kind: Kind, accepts: bool, full: bool) {
    && t.accepted == (if accepts then s.accepted + multiset{id} else s.accepted)
    && t.answered == s.answered
    && t.withdrawn == (if accepts && full && !Strict(kind) then s.withdrawn + multiset{id} else s.withdrawn)
    && (t.over <==> !accepts || (full && Strict(kind)))
    && (t.closing <==> s.closing || (accepts && full && !Strict(kind)))
    && (accepts && !Deferred(kind) && !full ==> t.queue == s.queue + [Reply(id)])
  }

  predicate Full(s: State, kind: Kind) { !Deferred(kind) && |s.queue| + |s.granted| >= CONNECTION_QUEUE }

  lemma HandleAnswers(s: State, id: Id, current: bool, kind: Kind)
    requires !s.over
    ensures Answers(s, Next(s, Request(id, current, kind)), id, kind,
                    current && |s.pending| < 64 && id !in s.pending, Full(s, kind))
  {
  }

  /**
   A request is accepted exactly when its session is current, fewer than 64 are
   outstanding and its id is not one of them. The connection ends exactly when it is
   not accepted, or when it is answered at once, strictly, into a full queue. A lenient
   answer that finds the queue full withdraws the request and asks for a close.
   */
  lemma RequestAnswersExactly(steps: seq<Step>, id: Id, current: bool, kind: Kind)
    requires !Run(INITIAL, steps).over
    ensures var s := Run(INITIAL, steps);
            var free := s.accepted[id] <= s.answered[id] + s.withdrawn[id];
            Answers(s, Next(s, Request(id, current, kind)), id, kind,
                    current && Outstanding(s) < 64 && free, Full(s, kind))
  {
    PendingIsOutstanding(steps, id);
    HandleAnswers(Run(INITIAL, steps), id, current, kind);
  }

  /** A pending request is still on its way to a reply unless its producer ended without one. */
  lemma PendingIsOnItsWay(steps: seq<Step>, id: Id)
    requires !Run(INITIAL, steps).over && id in Run(INITIAL, steps).pending
    ensures var s := Run(INITIAL, steps);
            id in ReplyIds(s.queue) || id in s.tasks || id in s.granted || id in s.previews || id in s.lost
  {
    Reachable(steps);
    Placed(Run(INITIAL, steps), id);
  }

  // --- a lost reply ---

  lemma TakeStaysLost(s: State, written: bool, id: Id)
    requires Inv(s) && !s.over && s.queue != [] && id in s.lost
    ensures TakeOne(s, written).lost == s.lost && TakeOne(s, written).answered[id] == s.answered[id]
  {
    if s.queue[0].Reply? { ReplyTaken(s, s.queue[0].id); }
  }

  lemma OtherStaysLost(s: State, step: Step)
    requires Enabled(s, step) && !step.Take?
    ensures s.lost <= Next(s, step).lost && Next(s, step).answered == s.answered
  {
  }

  lemma StepStaysLost(s: State, step: Step, id: Id)
    requires Inv(s) && id in s.lost
    ensures id in Next(s, step).lost && Next(s, step).answered[id] == s.answered[id]
  {
    if Enabled(s, step) {
      if step.Take? { TakeStaysLost(s, step.written, id); } else { OtherStaysLost(s, step); }
    }
  }

  lemma {:induction false} RunStaysLost(s: State, steps: seq<Step>, id: Id)
    requires Inv(s) && id in s.lost
    ensures var t := Run(s, steps); id in t.lost && id in t.pending && t.answered[id] == s.answered[id]
    decreases |steps|
  {
    if steps != [] {
      StepStaysLost(s, steps[0], id);
      StepKeeps(s, steps[0]);
      RunStaysLost(Next(s, steps[0]), steps[1..], id);
    }
  }

  /** A lost id is never answered and occupies its place in the pending set for good. */
  lemma LostStaysPending(steps: seq<Step>, id: Id, more: seq<Step>)
    requires id in Run(INITIAL, steps).lost
    ensures var s := Run(INITIAL, steps);
            id in Run(s, more).pending && Run(s, more).answered[id] == s.answered[id]
  {
    Reachable(steps);
    RunStaysLost(Run(INITIAL, steps), more, id);
  }

  // --- every other pending request can still be answered ---

  lemma {:induction false} RunAppend(s: State, a: seq<Step>, b: seq<Step>)
    ensures Run(s, a + b) == Run(Run(s, a), b)
    decreases |a|
  {
    if a == [] {
      assert a + b == b;
    } else {
      assert (a + b)[0] == a[0] && (a + b)[1..] == a[1..] + b;
      RunAppend(Next(s, a[0]), a[1..], b);
    }
  }

  lemma RunOne(s: State, step: Step)
    ensures Run(s, [step]) == Next(s, step)
  {
  }

  /** What writing out the queued commands leaves behind. */
  predicate WrittenOut(s: State, t: State) {
    && !t.over && t.queue == []
    && t.tasks == s.tasks && t.granted == s.granted && t.previews == s.previews && t.lost == s.lost
    && t.answered == s.answered + ReplyIds(s.queue)
  }

  lemma TakeWrites(s: State)
    requires Inv(s) && !s.over && s.queue != []
    ensures var t := Next(s, Take(true));
            && Inv(t) && !t.over && t.queue == s.queue[1..]
            && t.tasks == s.tasks && t.granted == s.granted && t.previews == s.previews && t.lost == s.lost
            && t.answered == s.answered + ReplyOf(s.queue[0])
  {
    StepKeeps(s, Take(true));
    if s.queue[0].Reply? { ReplyTaken(s, s.queue[0].id); }
  }

  lemma {:induction false} WriteOut(s: State) returns (steps: seq<Step>)
    requires Inv(s) && !s.over
    ensures Inv(Run(s, steps)) && WrittenOut(s, Run(s, steps))
    decreases |s.queue|
  {
    if s.queue == [] {
      steps := [];
    } else {
      TakeWrites(s);
      var rest := WriteOut(Next(s, Take(true)));
      steps := [Take(true)] + rest;
      assert steps[1..] == rest;
    }
  }

  /** With nothing queued there is room: the tasks that hold slots are pending, and `id` is another pending one. */
  lemma RoomForOne(s: State, id: Id)
    requires Flowing(s) && |s.pending| <= MAX_PENDING_REQUESTS && s.queue == [] && id in s.pending && id !in s.granted
    ensures HasRoom(s.queue, s.granted)
  {
    forall x | x in s.granted ensures x in s.pending - {id} { Placed(s, x); }
    SubsetIsSmaller(s.granted, s.pending - {id});
  }

  lemma {:induction false} SubsetIsSmaller(a: set<Id>, b: set<Id>)
    requires a <= b
    ensures |a| <= |b|
    decreases a
  {
    if a != {} {
      var x :| x in a;
      SubsetIsSmaller(a - {x}, b - {x});
    }
  }

  /** The steps that put the reply to `id` into an empty queue. */
  lemma Produce(s: State, id: Id) returns (steps: seq<Step>)
    requires Inv(s) && !s.over && s.queue == [] && id in s.pending && id !in s.lost
    ensures var t := Run(s, steps);
            Inv(t) && !t.over && t.queue == [Reply(id)] && t.answered == s.answered
  {
    Placed(s, id);
    if id !in s.granted { RoomForOne(s, id); }
    if id in s.previews {
      StepKeeps(s, PreviewDone(id));
      RunOne(s, PreviewDone(id));
      steps := [PreviewDone(id)];
    } else if id in s.granted {
      StepKeeps(s, TaskReplies(id));
      RunOne(s, TaskReplies(id));
      steps := [TaskReplies(id)];
    } else {
      var t := Next(s, Grant(id));
      StepKeeps(s, Grant(id));
      StepKeeps(t, TaskReplies(id));
      RunOne(s, Grant(id));
      RunOne(t, TaskReplies(id));
      RunAppend(s, [Grant(id)], [TaskReplies(id)]);
      steps := [Grant(id)] + [TaskReplies(id)];
    }
  }

  lemma AnswerRun(s: State, id: Id) returns (more: seq<Step>)
    requires Inv(s) && !s.over && id in s.pending && id !in s.lost
    ensures Run(s, more).answered[id] > s.answered[id]
  {
    var first := WriteOut(s);
    var t := Run(s, first);
    if id in ReplyIds(s.queue) {
      more := first;
    } else {
      Placed(s, id);
      Placed(t, id);
      var second := Produce(t, id);
      var u := Run(t, second);
      TakeWrites(u);
      RunOne(u, Take(true));
      RunAppend(t, second, [Take(true)]);
      RunAppend(s, first, second + [Take(true)]);
      more := first + (second + [Take(true)]);
    }
  }

  /** While the loop runs, a pending request can still be answered exactly when its reply is not lost. */
  lemma AnswerableExactly(steps: seq<Step>, id: Id)
    requires !Run(INITIAL, steps).over && id in Run(INITIAL, steps).pending
    ensures var s := Run(INITIAL, steps);
            (exists more :: Run(s, more).answered[id] > s.answered[id]) <==> id !in s.lost
  {
    Reachable(steps);
    var s := Run(INITIAL, steps);
    if id in s.lost {
      forall more ensures Run(s, more).answered[id] == s.answered[id] { RunStaysLost(s, more, id); }
    } else {
      var more := AnswerRun(s, id);
    }
  }

  // --- losing a reply really happens ---

  function Publishes(k: nat): seq<Step> { if k == 0 then [] else [Publish] + Publishes(k - 1) }

  lemma {:induction false} Filling(s: State, k: nat)
    requires !s.over && |s.queue| + |s.granted| + k <= CONNECTION_QUEUE
    ensures var t := Run(s, Publishes(k));
            !t.over && |t.queue| == |s.queue| + k && t == s.(queue := t.queue)
    decreases k
  {
    if k > 0 {
      assert Publishes(k)[1..] == Publishes(k - 1);
      Filling(Next(s, Publish), k - 1);
    }
  }

  const FILL_AND_FINISH: seq<Step> :=
    [Request(0, true, Preview(Started))] + Publishes(CONNECTION_QUEUE) + [PreviewDone(0)]

  /** A preview that ends while events fill the queue loses its reply; its id then stays pending for ever. */
  lemma FullQueueLosesPreview(more: seq<Step>)
    ensures var s := Run(INITIAL, FILL_AND_FINISH);
            && !s.over && |s.queue| == CONNECTION_QUEUE && 0 in s.lost
            && 0 in Run(s, more).pending && Run(s, more).answered[0] == 0
  {
    var one := Next(INITIAL, Request(0, true, Preview(Started)));
    RunOne(INITIAL, Request(0, true, Preview(Started)));
    Filling(one, CONNECTION_QUEUE);
    var full := Run(one, Publishes(CONNECTION_QUEUE));
    RunAppend(INITIAL, [Request(0, true, Preview(Started))], Publishes(CONNECTION_QUEUE));
    RunAppend(INITIAL, [Request(0, true, Preview(Started))] + Publishes(CONNECTION_QUEUE), [PreviewDone(0)]);
    RunOne(full, PreviewDone(0));
    LostStaysPending(FILL_AND_FINISH, 0, more);
  }

  // --- the loop's own state ---

  class Connection {
    var pending: set<Id>
    var queue: seq<Command>
    var tasks: set<Id>
    var granted: set<Id>
    var previews: set<Id>
    var closing: bool
    var over: bool

    /** The fields are those of the model state; the model also counts. */
    ghost predicate Is(s: State)
      reads this
    {
      && pending == s.pending && queue == s.queue && tasks == s.tasks && granted == s.granted
      && previews == s.previews && closing == s.closing && over == s.over
    }

    constructor ()
      ensures Is(INITIAL)
    {
      pending, queue, tasks, granted, previews, closing, over := {}, [], {}, {}, {}, false, false;
    }

    method TrySend(c: Command) returns (ok: bool)
      modifies this`queue
      ensures ok == HasRoom(old(queue), granted)
      ensures queue == if ok then old(queue) + [c] else old(queue)
    {
      ok := |queue| + |granted| < CONNECTION_QUEUE;
      if ok { queue := queue + [c]; }
    }

    method Leave()
      modifies this`queue, this`over
      ensures over && queue == []
    {
      over, queue := true, [];
    }

    method AnswerOrLeave(id: Id)
      requires !over
      modifies this`queue, this`over
      ensures over == !HasRoom(old(queue), granted)
      ensures queue == if over then [] else old(queue) + [Reply(id)]
    {
      var sent := TrySend(Reply(id));
      if !sent { Leave(); }
    }

    method AnswerOrWithdraw(id: Id)
      modifies this`queue, this`pending, this`closing
      ensures var sent := HasRoom(old(queue), granted);
              && queue == (if sent then old(queue) + [Reply(id)] else old(queue))
              && pending == (if sent then old(pending) else old(pending) - {id})
              && closing == (old(closing) || !sent)
    {
      var sent := TrySend(Reply(id));
      if !sent { pending, closing := pending - {id}, true; }
    }

    /** False ends the connection loop. */
    method HandleRequest(ghost s: State, id: Id, current: bool, kind: Kind) returns (ok: bool)
      requires Is(s) && !over
      modifies this
      ensures Is(Next(s, Request(id, current, kind))) && ok == !over
    {
      if |pending| >= MAX_PENDING_REQUESTS || id in pending {
        Leave();
        return false;
      }
      pending := pending + {id};
      if !current {
        pending := pending - {id};
        Leave();
        return false;
      }
      match kind {
        case SetStatistics => AnswerOrLeave(id);
        case UploadChunk => AnswerOrWithdraw(id);
        case ReadPreview => AnswerOrLeave(id);
        case LastReport => AnswerOrLeave(id);
        case ApprovalStatus => AnswerOrLeave(id);
        case Preview(start) =>
          if start == Started { previews := previews + {id}; } else { AnswerOrLeave(id); }
        case Lifecycle(answered) =>
          if answered { AnswerOrWithdraw(id); } else { tasks := tasks + {id}; }
      }
      ok := !over;
    }

    /** False ends the connection loop. */
    method TakeCommand(ghost s: State, written: bool) returns (ok: bool)
      requires Is(s) && !over && queue != []
      modifies this`pending, this`queue, this`over
      ensures Is(Next(s, Take(written))) && ok == !over
    {
      var command := queue[0];
      queue := queue[1..];
      if command.Reply? {
        if command.id !in pending {
          Leave();
          return false;
        }
        pending := pending - {command.id};
      }
      if !written { Leave(); }
      ok := written;
    }

    /** The last step of a preview worker: an undeliverable reply is dropped. */
    method FinishPreview(ghost s: State, id: Id)
      requires Is(s) && id in previews
      modifies this`previews, this`queue
      ensures Is(Next(s, PreviewDone(id)))
    {
      previews := previews - {id};
      if !over {
        var sent := TrySend(Reply(id));
      }
    }
  }
}
