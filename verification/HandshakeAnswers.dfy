/**
 What the registry answers, told from the history of its calls: which connection a
 takeover or a revocation hands back, and when a handshake or an issue is refused.
 */
module HandshakeAnswers {
  import opened Basics
  import opened Registry
  import opened Handshake

  // --- the history of attachments ---

  /** Successful attaches and existing sessions' losses and revocations, with what they handed back. */
  datatype Note =
    | Installed(id: SessionId, connection: ConnectionId, handedBack: Option<ConnectionId>)
    | Lost(id: SessionId, generation: nat)
    | Revoked(id: SessionId, handedBack: Option<ConnectionId>)

  function NotesOf(s: State, step: Step): seq<Note> {
    if !Enabled(s, step) then [] else
    match step
    case Attach(token, connection) =>
      var attached := CommitAttach(s.sessions, s.permits[token], connection);
      if attached.result.Ok? then [Installed(s.permits[token].session, connection, attached.result.value)] else []
    case Lose(id, generation) => if id in s.sessions then [Lost(id, generation)] else []
    case Withdraw(id) => if id in s.sessions then [Note.Revoked(id, Revoke(s.sessions, id).closes)] else []
    case _ => []
  }

  function Notes(s: State, steps: seq<Step>): seq<Note>
    decreases |steps|
  {
    if steps == [] then [] else NotesOf(s, steps[0]) + Notes(Next(s, steps[0]), steps[1..])
  }

  /** How often the session was attached: the generation its latest attachment has. */
  function Installs(log: seq<Note>, id: SessionId): nat {
    if log == [] then 0
    else Installs(log[..|log| - 1], id) + Count(log[|log| - 1].Installed? && log[|log| - 1].id == id)
  }

  /** The connection attached after these notes: the latest installed, unless lost at its generation or revoked. */
  function Holder(log: seq<Note>, id: SessionId): Option<ConnectionId> {
    if log == [] then None
    else
      var before := log[..|log| - 1];
      var last := log[|log| - 1];
      if last.id != id then Holder(before, id)
      else match last
        case Installed(_, connection, _) => Some(connection)
        case Lost(_, generation) => if generation == Installs(before, id) then None else Holder(before, id)
        case Revoked(_, _) => None
  }

  function Attachment(sessions: Sessions, id: SessionId): Option<ConnectionId> {
    if id in sessions && sessions[id].status.Active? then sessions[id].status.connection else None
  }

  /** Every note hands back what was attached before it. */
  ghost predicate HandsBack(log: seq<Note>) {
    forall k :: 0 <= k < |log| && (log[k].Installed? || log[k].Revoked?) ==>
      log[k].handedBack == Holder(log[..k], log[k].id)
  }

  ghost predicate Agrees(s: State, log: seq<Note>) {
    && (forall id: SessionId :: Attachment(s.sessions, id) == Holder(log, id))
    && (forall id: SessionId :: id in s.sessions ==> Installs(log, id) == Generation(s.sessions[id]))
    && (forall id: SessionId :: id !in s.usedIds ==> Installs(log, id) == 0)
    && HandsBack(log)
  }

  lemma LogGrows(log: seq<Note>, n: Note, id: SessionId)
    ensures Installs(log + [n], id) == Installs(log, id) + Count(n.Installed? && n.id == id)
    ensures Holder(log + [n], id) ==
      if n.id != id then Holder(log, id)
      else match n
        case Installed(_, connection, _) => Some(connection)
        case Lost(_, generation) => if generation == Installs(log, id) then None else Holder(log, id)
        case Revoked(_, _) => None
  {
    assert (log + [n])[..|log|] == log;
  }

  lemma HandsBackGrows(log: seq<Note>, n: Note)
    requires HandsBack(log) && (n.Installed? || n.Revoked? ==> n.handedBack == Holder(log, n.id))
    ensures HandsBack(log + [n])
  {
    forall k | 0 <= k <= |log| && ((log + [n])[k].Installed? || (log + [n])[k].Revoked?)
      ensures (log + [n])[k].handedBack == Holder((log + [n])[..k], (log + [n])[k].id)
    {
      assert (log + [n])[..k] == log[..k];
      if k == |log| { assert log[..k] == log; }
    }
  }

  lemma QuietAgrees(s: State, log: seq<Note>, step: Step)
    requires Inv(s) && Agrees(s, log) && Enabled(s, step)
    requires step.IssueSession? || step.Begin? || step.DropPermit?
    ensures Agrees(Next(s, step), log)
  {
    var t := Next(s, step);
    forall id: SessionId ensures Attachment(t.sessions, id) == Attachment(s.sessions, id) {}
  }

  lemma AttachAgrees(s: State, log: seq<Note>, token: TokenId, connection: ConnectionId)
    requires Inv(s) && Agrees(s, log) && Enabled(s, Attach(token, connection))
    ensures Agrees(Next(s, Attach(token, connection)), log + NotesOf(s, Attach(token, connection)))
  {
    var notes := NotesOf(s, Attach(token, connection));
    if notes == [] {
      NothingMore(log);
    } else {
      HandsBackGrows(log, notes[0]);
      forall id: SessionId { LogGrows(log, notes[0], id); }
    }
  }

  lemma LoseAgrees(s: State, log: seq<Note>, id: SessionId, generation: nat)
    requires Inv(s) && Agrees(s, log)
    ensures Agrees(Next(s, Lose(id, generation)), log + NotesOf(s, Lose(id, generation)))
  {
    if id in s.sessions {
      HandsBackGrows(log, Lost(id, generation));
      forall k: SessionId { LogGrows(log, Lost(id, generation), k); }
    } else {
      NothingMore(log);
    }
  }

  lemma WithdrawAgrees(s: State, log: seq<Note>, id: SessionId)
    requires Inv(s) && Agrees(s, log)
    ensures Agrees(Next(s, Withdraw(id)), log + NotesOf(s, Withdraw(id)))
  {
    if id in s.sessions {
      var note := Note.Revoked(id, Revoke(s.sessions, id).closes);
      HandsBackGrows(log, note);
      forall k: SessionId { LogGrows(log, note, k); }
    } else {
      NothingMore(log);
    }
  }

  lemma StepAgrees(s: State, log: seq<Note>, step: Step)
    requires Inv(s) && Agrees(s, log)
    ensures Agrees(Next(s, step), log + NotesOf(s, step))
  {
    NothingMore(log);
    if Enabled(s, step) {
      match step
      case IssueSession(_, _, _) => QuietAgrees(s, log, step);
      case Begin(_, _, _, _, _) => QuietAgrees(s, log, step);
      case DropPermit(_) => QuietAgrees(s, log, step);
      case Attach(token, connection) => AttachAgrees(s, log, token, connection);
      case Lose(id, generation) => LoseAgrees(s, log, id, generation);
      case Withdraw(id) => WithdrawAgrees(s, log, id);
    }
  }

  lemma {:induction false} RunAgrees(s: State, log: seq<Note>, steps: seq<Step>)
    requires Inv(s) && Agrees(s, log)
    ensures Agrees(Run(s, steps), log + Notes(s, steps))
    decreases |steps|
  {
    if steps == [] {
      NothingMore(log);
    } else {
      StepAgrees(s, log, steps[0]);
      StepKeeps(s, steps[0]);
      RunAgrees(Next(s, steps[0]), log + NotesOf(s, steps[0]), steps[1..]);
      Associative(log, NotesOf(s, steps[0]), Notes(Next(s, steps[0]), steps[1..]));
    }
  }

  lemma ReachableAgrees(steps: seq<Step>)
    ensures Inv(Run(INITIAL, steps)) && Agrees(Run(INITIAL, steps), Notes(INITIAL, steps))
  {
    RunKeeps(INITIAL, steps);
    RunAgrees(INITIAL, [], steps);
    NothingMore(Notes(INITIAL, steps));
  }

  // --- what is handed back ---

  /**
   A successful attach answers exactly the connection the session's latest earlier
   attach installed, or nothing if there was none or it was lost since.
   */
  lemma TakeoverAnswersTheReplaced(steps: seq<Step>, token: TokenId, connection: ConnectionId)
    requires token in Run(INITIAL, steps).permits
    ensures var s := Run(INITIAL, steps);
            var answer := CommitAttach(s.sessions, s.permits[token], connection).result;
            answer.Ok? ==> answer.value == Holder(Notes(INITIAL, steps), s.permits[token].session)
  {
    ReachableAgrees(steps);
  }

  /** A revocation hands back the connection attached then, and so does every attach and revocation before it. */
  lemma RevocationAnswersTheAttached(steps: seq<Step>, id: SessionId)
    ensures var log := Notes(INITIAL, steps);
            && Revoke(Run(INITIAL, steps).sessions, id).closes == Holder(log, id)
            && Attachment(Run(INITIAL, steps).sessions, id) == Holder(log, id)
            && HandsBack(log)
  {
    ReachableAgrees(steps);
  }

  function Unit(c: Option<ConnectionId>): multiset<ConnectionId> { if c.Some? then multiset{c.value} else multiset{} }

  function InstalledBy(log: seq<Note>, id: SessionId): multiset<ConnectionId> {
    if log == [] then multiset{}
    else
      var last := log[|log| - 1];
      InstalledBy(log[..|log| - 1], id) +
      (if last.Installed? && last.id == id then multiset{last.connection} else multiset{})
  }

  function HandedBackBy(log: seq<Note>, id: SessionId): multiset<ConnectionId> {
    if log == [] then multiset{}
    else
      var last := log[|log| - 1];
      HandedBackBy(log[..|log| - 1], id) +
      (if last.id == id && (last.Installed? || last.Revoked?) then Unit(last.handedBack) else multiset{})
  }

  function LostBy(log: seq<Note>, id: SessionId): multiset<ConnectionId> {
    if log == [] then multiset{}
    else
      var before := log[..|log| - 1];
      var last := log[|log| - 1];
      LostBy(before, id) +
      (if last.id == id && last.Lost? && last.generation == Installs(before, id) then Unit(Holder(before, id))
       else multiset{})
  }

  lemma {:induction false} Conservation(log: seq<Note>, id: SessionId)
    requires HandsBack(log)
    ensures InstalledBy(log, id) == Unit(Holder(log, id)) + HandedBackBy(log, id) + LostBy(log, id)
    decreases |log|
  {
    if log != [] {
      var before := log[..|log| - 1];
      forall k | 0 <= k < |before| && (before[k].Installed? || before[k].Revoked?)
        ensures before[k].handedBack == Holder(before[..k], before[k].id)
      {
        assert before[k] == log[k] && before[..k] == log[..k];
      }
      Conservation(before, id);
    }
  }

  /** Every connection ever attached to a session is attached still, was handed back once, or was lost. */
  lemma AttachmentsAreConserved(steps: seq<Step>, id: SessionId)
    ensures var log := Notes(INITIAL, steps);
            InstalledBy(log, id) ==
            Unit(Attachment(Run(INITIAL, steps).sessions, id)) + HandedBackBy(log, id) + LostBy(log, id)
  {
    ReachableAgrees(steps);
    Conservation(Notes(INITIAL, steps), id);
  }

  // --- credentials ---

  /** The product version a credential was issued for, and when. */
  datatype Birth = Birth(version: nat, at: nat)

  function BirthOf(s: State, step: Step): map<SessionId, Birth> {
    if !step.IssueSession? || !Enabled(s, step) then map[]
    else
      var answer := Issue(s.sessions, step.version, step.now, step.drawn).1;
      if answer.Ok? then map[answer.value := Birth(step.version, step.now)] else map[]
  }

  function Births(s: State, steps: seq<Step>, before: map<SessionId, Birth>): map<SessionId, Birth>
    decreases |steps|
  {
    if steps == [] then before else Births(Next(s, steps[0]), steps[1..], before + BirthOf(s, steps[0]))
  }

  ghost predicate Remembered(s: State, births: map<SessionId, Birth>) {
    && births.Keys <= s.usedIds
    && forall id :: id in s.sessions ==>
         && id in births && s.sessions[id].version == births[id].version
         && (s.sessions[id].status.Pending? ==> s.sessions[id].status.deadline == births[id].at + ACTIVATION_TIMEOUT)
  }

  lemma IssueRemembered(s: State, step: Step, births: map<SessionId, Birth>)
    requires Remembered(s, births) && step.IssueSession? && Enabled(s, step)
    ensures Remembered(Next(s, step), births + BirthOf(s, step))
  {
  }

  lemma OtherRemembered(s: State, step: Step, births: map<SessionId, Birth>)
    requires Remembered(s, births) && !step.IssueSession?
    ensures Remembered(Next(s, step), births)
  {
  }

  lemma {:induction false} RunRemembered(s: State, steps: seq<Step>, births: map<SessionId, Birth>)
    requires Remembered(s, births)
    ensures Remembered(Run(s, steps), Births(s, steps, births))
    decreases |steps|
  {
    if steps != [] {
      assert births + map[] == births;
      if steps[0].IssueSession? && Enabled(s, steps[0]) { IssueRemembered(s, steps[0], births); }
      else if !steps[0].IssueSession? { OtherRemembered(s, steps[0], births); }
      RunRemembered(Next(s, steps[0]), steps[1..], births + BirthOf(s, steps[0]));
    }
  }

  /** A credential not yet attached and past its activation time. */
  predicate TooLate(log: seq<Note>, id: SessionId, birth: Birth, now: nat) {
    Installs(log, id) == 0 && now > birth.at + ACTIVATION_TIMEOUT
  }

  ghost predicate Busy(s: State, id: SessionId) {
    exists token :: Outstanding(s, token) && s.permits[token].session == id
  }

  lemma BusyIsStored(s: State, id: SessionId)
    requires Inv(s) && id in s.sessions
    ensures Busy(s, id) <==> StoredToken(s.sessions[id]).Some?
  {
    if StoredToken(s.sessions[id]).Some? {
      assert Outstanding(s, StoredToken(s.sessions[id]).value);
    }
  }

  lemma BeginAnswers(s: State, log: seq<Note>, births: map<SessionId, Birth>, sameInstance: bool, id: SessionId,
                     version: nat, now: nat, token: TokenId)
    requires Inv(s) && Agrees(s, log) && Remembered(s, births)
    ensures var answer := BeginHandshake(s.sessions, sameInstance, id, version, now, token).1;
            var known := id in s.sessions && births[id].version == version && !TooLate(log, id, births[id], now);
            && (answer == Err(ServiceRestarted) <==> !sameInstance)
            && (answer == Err(Unauthorized) <==> sameInstance && !known)
            && (answer == Err(ReconnectSuperseded) <==> sameInstance && known && Busy(s, id))
            && (sameInstance && known && !Busy(s, id) ==> answer == Ok(Permit(id, Installs(log, id), token)))
  {
    if id in s.sessions { BusyIsStored(s, id); }
  }

  /**
   A handshake is refused exactly for another service instance, for an unknown session,
   another product version or a credential attached to nothing in time, and while
   another permit of the session is outstanding. Otherwise its permit observes how
   often the session has been attached.
   */
  lemma BeginAnswersExactly(steps: seq<Step>, sameInstance: bool, id: SessionId, version: nat, now: nat, token: TokenId)
    ensures var s := Run(INITIAL, steps);
            var log, births := Notes(INITIAL, steps), Births(INITIAL, steps, map[]);
            var answer := BeginHandshake(s.sessions, sameInstance, id, version, now, token).1;
            && (id in s.sessions ==> id in births)
            && var known := id in s.sessions && births[id].version == version && !TooLate(log, id, births[id], now);
            && (answer == Err(ServiceRestarted) <==> !sameInstance)
            && (answer == Err(Unauthorized) <==> sameInstance && !known)
            && (answer == Err(ReconnectSuperseded) <==> sameInstance && known && Busy(s, id))
            && (sameInstance && known && !Busy(s, id) ==> answer == Ok(Permit(id, Installs(log, id), token)))
  {
    ReachableAgrees(steps);
    RunRemembered(INITIAL, steps, map[]);
    BeginAnswers(Run(INITIAL, steps), Notes(INITIAL, steps), Births(INITIAL, steps, map[]),
                 sameInstance, id, version, now, token);
  }

  /** An issue is refused exactly while sixteen unexpired credentials wait, or when none could be drawn. */
  lemma IssueAnswersExactly(sessions: Sessions, version: nat, now: nat, drawn: Option<SessionId>)
    ensures var waiting :=
              set id | id in sessions && sessions[id].status.Pending? && now <= sessions[id].status.deadline;
            var answer := Issue(sessions, version, now, drawn).1;
            && (answer == Err(TooManyPending) <==> |waiting| >= MAX_PENDING_SESSIONS)
            && (answer == Err(Unavailable) <==> |waiting| < MAX_PENDING_SESSIONS && drawn.None?)
            && (|waiting| < MAX_PENDING_SESSIONS && drawn.Some? ==> answer == Ok(drawn.value))
  {
    var waiting := set id | id in sessions && sessions[id].status.Pending? && now <= sessions[id].status.deadline;
    assert PendingIds(Prune(sessions, now)) == waiting;
  }

  /** A fresh credential presented in time attaches at generation 1, and nobody is replaced. */
  lemma FreshCredentialAttaches(sessions: Sessions, version: nat, now: nat, drawn: Option<SessionId>, later: nat,
                                token: TokenId, connection: ConnectionId)
    requires Issue(sessions, version, now, drawn).1.Ok? && now <= later <= now + ACTIVATION_TIMEOUT
    ensures var (issued, credential) := Issue(sessions, version, now, drawn);
            var (begun, permit) := BeginHandshake(issued, true, credential.value, version, later, token);
            && permit.Ok? && PrepareAttach(begun, permit.value) == Ok(1)
            && var attached := CommitAttach(begun, permit.value, connection);
            && attached.result == Ok(None) && attached.cancels == {}
            && IsCurrent(attached.sessions, credential.value, 1)
            && Attachment(attached.sessions, credential.value) == Some(connection)
  {
  }

  /**
   An outstanding permit commits unless its session is gone or its generation is
   exhausted; a permit that has attached never commits again.
   */
  lemma CommitAnswersExactly(steps: seq<Step>, token: TokenId, connection: ConnectionId)
    requires token in Run(INITIAL, steps).permits
    ensures var s := Run(INITIAL, steps);
            var id := s.permits[token].session;
            var answer := CommitAttach(s.sessions, s.permits[token], connection).result;
            && (answer == Err(Unauthorized) <==> id !in s.sessions)
            && (answer == Err(ReconnectSuperseded) <==> id in s.sessions && token in s.committed)
            && (answer == Err(Unavailable) <==>
                  id in s.sessions && token !in s.committed && Generation(s.sessions[id]) >= U64_MAX)
            && (answer.Ok? <==> id in s.sessions && token !in s.committed && Generation(s.sessions[id]) < U64_MAX)
  {
    RunKeeps(INITIAL, steps);
  }
}
