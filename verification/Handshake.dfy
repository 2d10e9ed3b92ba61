/**
 The generation compare-and-swap between reconnecting clients, over every
 interleaving of handshakes, commits, permit drops, revocations and expiry.
 */
module Handshake {
  import opened Basics
  import opened Registry

  /** `permits` are the live ones; `committed` says which have attached. Tokens and ids are never drawn twice. */
  datatype State = State(
    sessions: Sessions,
    permits: map<TokenId, Permit>,
    committed: set<TokenId>,
    usedTokens: set<TokenId>,
    usedIds: set<SessionId>)

  const INITIAL := State(map[], map[], {}, {}, {})

  datatype Step =
    | IssueSession(version: nat, now: nat, drawn: Option<SessionId>)
    | Begin(sameInstance: bool, id: SessionId, version: nat, now: nat, token: TokenId)
    | Attach(token: TokenId, connection: ConnectionId)
    | DropPermit(token: TokenId)
    | Lose(id: SessionId, generation: nat)
    | Withdraw(id: SessionId)

  predicate Enabled(s: State, step: Step) {
    match step
    case IssueSession(_, _, drawn) => drawn.Some? ==> drawn.value !in s.usedIds
    case Begin(_, _, _, _, token) => token !in s.usedTokens
    case Attach(token, _) => token in s.permits
    case DropPermit(token) => token in s.permits
    case Lose(_, _) => true
    case Withdraw(_) => true
  }

  function Next(s: State, step: Step): State {
    if !Enabled(s, step) then s else
    match step
    case IssueSession(version, now, drawn) =>
      s.(sessions := Issue(s.sessions, version, now, drawn).0,
         usedIds := if drawn.Some? then s.usedIds + {drawn.value} else s.usedIds)
    case Begin(sameInstance, id, version, now, token) =>
      var (sessions, result) := BeginHandshake(s.sessions, sameInstance, id, version, now, token);
      s.(sessions := sessions,
         usedTokens := s.usedTokens + {token},
         permits := if result.Ok? then s.permits[token := result.value] else s.permits)
    case Attach(token, connection) =>
      var attached := CommitAttach(s.sessions, s.permits[token], connection);
      s.(sessions := attached.sessions,
         committed := if attached.result.Ok? then s.committed + {token} else s.committed)
    case DropPermit(token) =>
      s.(sessions := CancelHandshake(s.sessions, s.permits[token]), permits := s.permits - {token})
    case Lose(id, generation) => s.(sessions := DisconnectIfCurrent(s.sessions, id, generation).0)
    case Withdraw(id) => s.(sessions := Revoke(s.sessions, id).sessions)
  }

  function Run(s: State, steps: seq<Step>): State
    decreases |steps|
  {
    if steps == [] then s else Run(Next(s, steps[0]), steps[1..])
  }

  function StoredToken(r: Record): Option<TokenId> {
    match r.status
    case Pending(_, handshake) => handshake
    case Active(_, _, reconnect) => reconnect
  }

  function Generation(r: Record): nat {
    match r.status
    case Pending(_, _) => 0
    case Active(generation, _, _) => generation
  }

  predicate Outstanding(s: State, token: TokenId) { token in s.permits && token !in s.committed }

  ghost predicate Inv(s: State) {
    && (forall id :: id in s.sessions ==> id in s.usedIds)
    && (forall id :: id in s.sessions && s.sessions[id].status.Active? ==> s.sessions[id].status.generation >= 1)
    // a stored token belongs to an outstanding permit of that session
    && (forall id :: id in s.sessions && StoredToken(s.sessions[id]).Some? ==>
          var token := StoredToken(s.sessions[id]).value;
          Outstanding(s, token) && s.permits[token].session == id)
    // an outstanding permit is the one its session stores, at the generation it observed
    && (forall token :: token in s.permits ==>
          && s.permits[token].token == token
          && token in s.usedTokens
          && s.permits[token].session in s.usedIds
          && (token !in s.committed && s.permits[token].session in s.sessions ==> Matches(s.sessions,
                s.permits[token])))
    && (forall token :: token in s.committed ==> token in s.usedTokens)
  }

  lemma IssueKeeps(s: State, version: nat, now: nat, drawn: Option<SessionId>)
    requires Inv(s) && Enabled(s, IssueSession(version, now, drawn))
    ensures Inv(Next(s, IssueSession(version, now, drawn)))
  {
  }

  lemma BeginKeeps(s: State, sameInstance: bool, id: SessionId, version: nat, now: nat, token: TokenId)
    requires Inv(s) && Enabled(s, Begin(sameInstance, id, version, now, token))
    ensures Inv(Next(s, Begin(sameInstance, id, version, now, token)))
  {
  }

  lemma AttachKeeps(s: State, token: TokenId, connection: ConnectionId)
    requires Inv(s) && Enabled(s, Attach(token, connection))
    ensures Inv(Next(s, Attach(token, connection)))
  {
  }

  lemma DropKeeps(s: State, token: TokenId)
    requires Inv(s) && Enabled(s, DropPermit(token))
    ensures Inv(Next(s, DropPermit(token)))
  {
  }

  lemma StepKeeps(s: State, step: Step)
    requires Inv(s)
    ensures Inv(Next(s, step))
  {
    if Enabled(s, step) {
      match step
      case IssueSession(version, now, drawn) => IssueKeeps(s, version, now, drawn);
      case Begin(sameInstance, id, version, now, token) => BeginKeeps(s, sameInstance, id, version, now, token);
      case Attach(token, connection) => AttachKeeps(s, token, connection);
      case DropPermit(token) => DropKeeps(s, token);
      case Lose(_, _) =>
      case Withdraw(_) =>
    }
  }

  lemma {:induction false} RunKeeps(s: State, steps: seq<Step>)
    requires Inv(s)
    ensures Inv(Run(s, steps))
    decreases |steps|
  {
    if steps != [] {
      StepKeeps(s, steps[0]);
      RunKeeps(Next(s, steps[0]), steps[1..]);
    }
  }

  // --- the guarantees ---

  /** Each session has at most one outstanding permit, and it matches the stored token and generation. */
  lemma OneOutstandingPermit(steps: seq<Step>, a: TokenId, b: TokenId)
    requires var s := Run(INITIAL, steps);
             && Outstanding(s, a) && s.permits[a].session in s.sessions
             && Outstanding(s, b) && s.permits[b].session == s.permits[a].session
    ensures a == b && Matches(Run(INITIAL, steps).sessions, Run(INITIAL, steps).permits[a])
  {
    RunKeeps(INITIAL, steps);
  }

  /** Whatever happened in between, a successful commit installs exactly the generation announced. */
  lemma AnnouncedGenerationIsInstalled(earlier: Sessions, later: Sessions, p: Permit, connection: ConnectionId)
    requires PrepareAttach(earlier, p).Ok? && CommitAttach(later, p, connection).result.Ok?
    ensures IsCurrent(CommitAttach(later, p, connection).sessions, p.session, PrepareAttach(earlier, p).value)
    ensures CommitAttach(later, p, connection).sessions[p.session].status.connection == Some(connection)
    ensures PrepareAttach(earlier, p).value == p.observed + 1
  {
  }

  /** A commit succeeds exactly when the compare succeeds and the generation can still grow. */
  lemma CommitSucceedsExactly(sessions: Sessions, p: Permit, connection: ConnectionId)
    ensures CommitAttach(sessions, p, connection).result.Ok? <==> PrepareAttach(sessions, p).Ok?
    ensures PrepareAttach(sessions, p).Ok? <==> Matches(sessions, p) && Generation(sessions[p.session]) < U64_MAX
  {
  }

  lemma StepCommitted(s: State, step: Step)
    ensures s.committed <= Next(s, step).committed
  {
  }

  lemma {:induction false} CommittedStays(s: State, token: TokenId, steps: seq<Step>)
    requires token in s.committed
    ensures token in Run(s, steps).committed
    decreases |steps|
  {
    if steps != [] {
      StepCommitted(s, steps[0]);
      CommittedStays(Next(s, steps[0]), token, steps[1..]);
    }
  }

  /** Dropping the permit of a connection that attached changes nothing, however much later it happens. */
  lemma CommittedDropIsNoop(steps: seq<Step>, token: TokenId, more: seq<Step>)
    requires token in Run(INITIAL, steps).committed
    requires token in Run(Run(INITIAL, steps), more).permits
    ensures var s := Run(Run(INITIAL, steps), more);
            CancelHandshake(s.sessions, s.permits[token]) == s.sessions
  {
    RunKeeps(INITIAL, steps);
    RunKeeps(Run(INITIAL, steps), more);
    CommittedStays(Run(INITIAL, steps), token, more);
  }

  /** Dropping an uncommitted permit ends only its own handshake. */
  lemma FailedHandshakeIsLocal(sessions: Sessions, p: Permit)
    ensures var after := CancelHandshake(sessions, p);
            && (forall id :: id in sessions && id != p.session ==> id in after && after[id] == sessions[id])
            && (p.session in sessions && sessions[p.session].status.Active? ==>
                  && p.session in after && IsCurrent(after, p.session, Generation(sessions[p.session]))
                  && after[p.session].status.connection == sessions[p.session].status.connection)
  {
  }

  /** A session that is gone stays gone; one that stays never goes back a generation. */
  predicate NotBefore(s: State, t: State, id: SessionId) {
    id in t.sessions ==> id in s.sessions && Generation(t.sessions[id]) >= Generation(s.sessions[id])
  }

  lemma StepNotBefore(s: State, step: Step, id: SessionId)
    requires id in s.usedIds
    ensures id in Next(s, step).usedIds && NotBefore(s, Next(s, step), id)
  {
  }

  lemma {:induction false} GenerationsNeverDecrease(s: State, steps: seq<Step>, id: SessionId)
    requires id in s.usedIds
    ensures NotBefore(s, Run(s, steps), id)
    decreases |steps|
  {
    if steps != [] {
      StepNotBefore(s, steps[0], id);
      GenerationsNeverDecrease(Next(s, steps[0]), steps[1..], id);
    }
  }

  /** Between two successful attaches of one session the generation strictly increases. */
  lemma AttachStrictlyIncreases(steps: seq<Step>, token: TokenId, connection: ConnectionId, more: seq<Step>)
    requires var s := Run(INITIAL, steps);
             token in s.permits && CommitAttach(s.sessions, s.permits[token], connection).result.Ok?
    ensures var s := Run(INITIAL, steps);
            var id := s.permits[token].session;
            var t := Run(Next(s, Attach(token, connection)), more);
            id in t.sessions ==> Generation(t.sessions[id]) > Generation(s.sessions[id])
  {
    RunKeeps(INITIAL, steps);
    var s := Run(INITIAL, steps);
    GenerationsNeverDecrease(Next(s, Attach(token, connection)), more, s.permits[token].session);
  }

  // --- the bound on unactivated credentials ---

  lemma FewerPending(before: Sessions, after: Sessions)
    requires PendingIds(after) <= PendingIds(before)
    ensures |PendingIds(after)| <= |PendingIds(before)|
  {
    Subset(PendingIds(after), PendingIds(before));
  }

  lemma {:induction false} Subset(a: set<SessionId>, b: set<SessionId>)
    requires a <= b
    ensures |a| <= |b|
    decreases a
  {
    if a != {} {
      var x :| x in a;
      Subset(a - {x}, b - {x});
    }
  }

  lemma IssueAddsOne(sessions: Sessions, version: nat, now: nat, drawn: Option<SessionId>)
    requires |PendingIds(sessions)| <= MAX_PENDING_SESSIONS
    ensures |PendingIds(Issue(sessions, version, now, drawn).0)| <= MAX_PENDING_SESSIONS
  {
    var pruned := Prune(sessions, now);
    var after := Issue(sessions, version, now, drawn).0;
    FewerPending(sessions, pruned);
    if after != pruned {
      assert PendingIds(after) == PendingIds(pruned) + {drawn.value};
    }
  }

  lemma StepPending(s: State, step: Step)
    requires !step.IssueSession?
    ensures PendingIds(Next(s, step).sessions) <= PendingIds(s.sessions)
  {
  }

  /** However the service is used, at most sixteen credentials wait for their first attach. */
  lemma {:induction false} PendingIsBounded(s: State, steps: seq<Step>)
    requires |PendingIds(s.sessions)| <= MAX_PENDING_SESSIONS
    ensures |PendingIds(Run(s, steps).sessions)| <= MAX_PENDING_SESSIONS
    decreases |steps|
  {
    if steps != [] {
      var step := steps[0];
      if step.IssueSession? {
        IssueAddsOne(s.sessions, step.version, step.now, step.drawn);
      } else {
        StepPending(s, step);
        FewerPending(s.sessions, Next(s, step).sessions);
      }
      PendingIsBounded(Next(s, step), steps[1..]);
    }
  }
}
