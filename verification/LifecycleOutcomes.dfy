/**
 What the end of an attempt publishes, told from the events the actor received
 while the attempt was active and from nothing the actor keeps about it.
 */
module LifecycleOutcomes {
  import opened Basics
  import opened Lifecycle
  import opened LifecycleInvariant

  // --- what was received ---

  /** An event taken from the queue, and the attempt that was active then. */
  datatype Entry = Entry(event: Event, active: Option<Attempt>)

  function HeardAt(s: State, step: Step): seq<Entry> {
    if step == Receive && Enabled(s, Receive) then [Entry(s.sh.queue[0], ActiveNumber(s.active))] else []
  }

  /** Everything the actor receives along a run, in order. */
  function Heard(s: State, steps: seq<Step>): seq<Entry>
    decreases |steps|
  {
    if steps == [] then [] else HeardAt(s, steps[0]) + Heard(Next(s, steps[0]), steps[1..])
  }

  predicate FailureHeard(log: seq<Entry>, n: Attempt) { Entry(WorkerFailed(n), Some(n)) in log }

  predicate ReconnectHeard(log: seq<Entry>, n: Attempt) { Entry(ReconnectWanted(n), Some(n)) in log }

  predicate StartHeard(log: seq<Entry>, n: Attempt, session: Option<SessionId>) {
    exists e :: e in log && e.event == Start(n, session)
  }

  // --- how the actor's notes relate to it ---

  predicate Noted(log: seq<Entry>, a: ActiveAttempt) {
    && (a.failed <==> FailureHeard(log, a.attempt))
    && (a.reconnect <==> ReconnectHeard(log, a.attempt))
    && StartHeard(log, a.attempt, a.session)
  }

  /** The attempt the actor is finishing, from taking it to storing its flag. */
  function PcEnds(pc: Pc): Option<Attempt> {
    match pc
    case Joining(a) => Some(a.attempt)
    case Joined(a) => Some(a.attempt)
    case Requeueing(a) => Some(a.attempt)
    case Settling(n, _) => Some(n)
    case Clearing(n) => Some(n)
    case Completing(n) => Some(n)
    case _ => None
  }

  /** The attempt has been active at some time. */
  predicate Ran(active: Option<Attempt>, pc: Pc, completed: set<Attempt>, n: Attempt) {
    active == Some(n) || PcEnds(pc) == Some(n) || n in completed
  }

  ghost predicate OnlyAfterRunning(log: seq<Entry>, active: Option<Attempt>, pc: Pc, completed: set<Attempt>) {
    forall n: Attempt :: FailureHeard(log, n) || ReconnectHeard(log, n) ==> Ran(active, pc, completed, n)
  }

  predicate PcNoted(log: seq<Entry>, pc: Pc) {
    match pc
    case Starting(n, session) => StartHeard(log, n, session)
    case Spawning(n, session, _) => StartHeard(log, n, session)
    case Joining(a) => Noted(log, a)
    case Joined(a) => Noted(log, a)
    case Requeueing(a) => Noted(log, a)
    case Settling(n, outcome) => outcome == (if FailureHeard(log, n) then Failed else Disconnected)
    case _ => true
  }

  ghost predicate Told(s: State, log: seq<Entry>) {
    && (s.active.Some? ==> Noted(log, s.active.value))
    && PcNoted(log, s.pc)
    && OnlyAfterRunning(log, ActiveNumber(s.active), s.pc, s.sh.completed)
  }

  // --- every step keeps the relation ---

  lemma ReportsGrow(log: seq<Entry>, e: Entry, n: Attempt)
    ensures FailureHeard(log + [e], n) <==> FailureHeard(log, n) || e == Entry(WorkerFailed(n), Some(n))
    ensures ReconnectHeard(log + [e], n) <==> ReconnectHeard(log, n) || e == Entry(ReconnectWanted(n), Some(n))
  {
  }

  lemma HeardMore(log: seq<Entry>, e: Entry, n: Attempt)
    ensures FailureHeard(log + [e], n) <==> FailureHeard(log, n) || e == Entry(WorkerFailed(n), Some(n))
    ensures ReconnectHeard(log + [e], n) <==> ReconnectHeard(log, n) || e == Entry(ReconnectWanted(n), Some(n))
    ensures forall session :: StartHeard(log, n, session) ==> StartHeard(log + [e], n, session)
    ensures forall session :: e.event == Start(n, session) ==> StartHeard(log + [e], n, session)
  {
    forall session | StartHeard(log, n, session) ensures StartHeard(log + [e], n, session) {
      var f :| f in log && f.event == Start(n, session);
      assert f in log + [e];
    }
    assert e in log + [e];
  }

  /** An event that is neither a failure nor a reconnect of the active attempt changes no note. */
  lemma IdleEventKeeps(log: seq<Entry>, e: Entry, a: ActiveAttempt)
    requires Noted(log, a) && e != Entry(WorkerFailed(a.attempt), Some(a.attempt))
    requires e != Entry(ReconnectWanted(a.attempt), Some(a.attempt))
    ensures Noted(log + [e], a)
  {
    HeardMore(log, e, a.attempt);
  }

  lemma FailureNoted(log: seq<Entry>, a: ActiveAttempt)
    requires Noted(log, a)
    ensures Noted(log + [Entry(WorkerFailed(a.attempt), Some(a.attempt))], a.(failed := true))
    ensures Noted(log + [Entry(ReconnectWanted(a.attempt), Some(a.attempt))], a.(reconnect := true))
  {
    HeardMore(log, Entry(WorkerFailed(a.attempt), Some(a.attempt)), a.attempt);
    HeardMore(log, Entry(ReconnectWanted(a.attempt), Some(a.attempt)), a.attempt);
  }

  lemma ReceiveRan(s: State, log: seq<Entry>)
    requires Enabled(s, Receive) && OnlyAfterRunning(log, ActiveNumber(s.active), s.pc, s.sh.completed)
    ensures var t := Effect(s, Receive);
            OnlyAfterRunning(log + [Entry(s.sh.queue[0], ActiveNumber(s.active))],
                             ActiveNumber(t.active), t.pc, t.sh.completed)
  {
    var e := Entry(s.sh.queue[0], ActiveNumber(s.active));
    var t := Effect(s, Receive);
    forall n: Attempt | FailureHeard(log + [e], n) || ReconnectHeard(log + [e], n)
      ensures Ran(ActiveNumber(t.active), t.pc, t.sh.completed, n)
    {
      ReportsGrow(log, e, n);
    }
  }

  lemma ReceiveNoted(s: State, log: seq<Entry>)
    requires Enabled(s, Receive) && (s.active.Some? ==> Noted(log, s.active.value))
    ensures var t := Effect(s, Receive);
            var after := log + [Entry(s.sh.queue[0], ActiveNumber(s.active))];
            (t.active.Some? ==> Noted(after, t.active.value)) && PcNoted(after, t.pc)
  {
    var event := s.sh.queue[0];
    var e := Entry(event, ActiveNumber(s.active));
    if event.Start? { HeardMore(log, e, event.attempt); }
    if s.active.Some? {
      var a := s.active.value;
      FailureNoted(log, a);
      var failure := Entry(WorkerFailed(a.attempt), Some(a.attempt));
      var reconnect := Entry(ReconnectWanted(a.attempt), Some(a.attempt));
      if e != failure && e != reconnect { IdleEventKeeps(log, e, a); }
    }
  }

  lemma ReceiveTells(s: State, log: seq<Entry>)
    requires Told(s, log) && Enabled(s, Receive)
    ensures Told(Effect(s, Receive), log + [Entry(s.sh.queue[0], ActiveNumber(s.active))])
  {
    ReceiveRan(s, log);
    ReceiveNoted(s, log);
  }

  /** An attempt about to be spawned has never run, so nothing was heard of it. */
  lemma SpawnTells(s: State, log: seq<Entry>, hasSession: bool)
    requires Ownership(s) && Told(s, log) && s.pc.Spawning?
    ensures Told(ActStep(s, hasSession), log)
  {
    assert !Ran(ActiveNumber(s.active), s.pc, s.sh.completed, s.pc.attempt);
  }

  lemma ReleaseTells(s: State, log: seq<Entry>, hasSession: bool)
    requires Ownership(s) && Control(s) && Told(s, log)
    requires s.pc.Requeueing? || s.pc.Clearing? || s.pc.Completing? || s.pc.Settling?
    ensures Told(ActStep(s, hasSession), log)
  {
  }

  lemma JoinTells(s: State, log: seq<Entry>, hasSession: bool)
    requires Told(s, log) && ActEnabled(s) && (s.pc.Joining? || s.pc.Joined?)
    ensures Told(ActStep(s, hasSession), log)
  {
  }

  lemma OtherActTells(s: State, log: seq<Entry>, hasSession: bool)
    requires Told(s, log) && ActEnabled(s) && !s.pc.Spawning? && PcEnds(s.pc).None?
    ensures Told(ActStep(s, hasSession), log)
  {
  }

  /** The relation depends on the actor's own state and on which attempts are complete. */
  lemma SameActorTells(s: State, t: State, log: seq<Entry>)
    requires Told(s, log) && t.active == s.active && t.pc == s.pc && s.sh.completed <= t.sh.completed
    ensures Told(t, log)
  {
  }

  lemma ReservationLeavesActor(s: State, step: Step)
    requires Enabled(s, step) && (step.Reserve? || step.Commit? || step.Release?)
    ensures var t := Effect(s, step); t.active == s.active && t.pc == s.pc && s.sh.completed <= t.sh.completed
  {
  }

  lemma OtherLeavesActor(s: State, step: Step)
    requires Enabled(s, step) && !step.Reserve? && !step.Commit? && !step.Release?
    requires !step.Act? && !step.Receive? && !step.ObserveShutdown?
    ensures var t := Effect(s, step); t.active == s.active && t.pc == s.pc && s.sh.completed <= t.sh.completed
  {
  }

  lemma ShutdownTells(s: State, log: seq<Entry>)
    requires Told(s, log) && Enabled(s, ObserveShutdown)
    ensures Told(Effect(s, ObserveShutdown), log)
  {
  }

  lemma ClientTells(s: State, log: seq<Entry>, step: Step)
    requires Told(s, log) && Enabled(s, step) && !step.Act? && !step.Receive?
    ensures Told(Effect(s, step), log)
  {
    if step.ObserveShutdown? {
      ShutdownTells(s, log);
    } else {
      if step.Reserve? || step.Commit? || step.Release? { ReservationLeavesActor(s, step); }
      else { OtherLeavesActor(s, step); }
      SameActorTells(s, Effect(s, step), log);
    }
  }

  lemma StepTells(s: State, log: seq<Entry>, step: Step)
    requires Inv(s) && Told(s, log)
    ensures Told(Next(s, step), log + HeardAt(s, step))
  {
    NothingMore(log);
    if Enabled(s, step) {
      if step.Receive? { ReceiveTells(s, log); }
      else if !step.Act? { ClientTells(s, log, step); }
      else if s.pc.Spawning? { SpawnTells(s, log, step.hasSession); }
      else if s.pc.Joining? || s.pc.Joined? { JoinTells(s, log, step.hasSession); }
      else if PcEnds(s.pc).Some? { ReleaseTells(s, log, step.hasSession); }
      else { OtherActTells(s, log, step.hasSession); }
    }
  }

  lemma {:induction false} RunTells(s: State, log: seq<Entry>, steps: seq<Step>)
    requires Inv(s) && Told(s, log)
    ensures Told(Run(s, steps), log + Heard(s, steps))
    decreases |steps|
  {
    if steps == [] {
      NothingMore(log);
    } else {
      StepTells(s, log, steps[0]);
      StepKeeps(s, steps[0]);
      RunTells(Next(s, steps[0]), log + HeardAt(s, steps[0]), steps[1..]);
      Associative(log, HeardAt(s, steps[0]), Heard(Next(s, steps[0]), steps[1..]));
    }
  }

  lemma ReachableIsTold(steps: seq<Step>)
    ensures Inv(Run(INITIAL, steps)) && Told(Run(INITIAL, steps), Heard(INITIAL, steps))
  {
    Reachable(steps);
    InitialHolds();
    RunTells(INITIAL, [], steps);
    NothingMore(Heard(INITIAL, steps));
  }

  // --- one step from a told state ---

  lemma JoinedStep(s: State, log: seq<Entry>, hasSession: bool)
    requires Told(s, log) && TokensShared(s.active, s.pc) && s.pc.Joined?
    ensures var a := s.pc.ending;
            var t := Next(s, Act(hasSession));
            var again :=
              ReconnectHeard(log, a.attempt) && a.attempt !in s.sh.cancelled && a.session.Some? && hasSession;
            && t.sh == s.sh
            && t.pc == if again then Requeueing(a)
                       else Settling(a.attempt, if FailureHeard(log, a.attempt) then Failed else Disconnected)
  {
  }

  lemma SettlingStep(s: State, log: seq<Entry>, hasSession: bool)
    requires PcNoted(log, s.pc) && s.pc.Settling?
    ensures Next(s, Act(hasSession)).sh.sent ==
            s.sh.sent + [if FailureHeard(log, s.pc.attempt) then Failed else Disconnected]
  {
  }

  /** A requested stop has fired the token, so the two checks of the take agree. */
  lemma RequeueingStep(s: State, hasSession: bool)
    requires Ownership(s) && StopConsistent(s.sh.current, s.sh.closed, s.sh.cancelled)
    requires s.pc.Requeueing? && s.pc.ending.session.Some?
    requires s.sh.restart.None?
    ensures var n := s.pc.ending.attempt;
            var t := Next(s, Act(hasSession));
            var ticket := Ticket(n, s.pc.ending.session.value);
            && t.sh.sent == s.sh.sent + [if n in s.sh.cancelled then Disconnected else ReconnectRequired(ticket)]
            && t.sh.restart == (if n in s.sh.cancelled then None else Some(ticket))
  {
    assert AdmittedAttempt(s.sh.current) == Some(s.pc.ending.attempt);
  }

  lemma NoTicketWhileAdmitted(s: State)
    requires Inv(s) && s.pc.Requeueing?
    ensures s.sh.restart.None? && s.pc.ending.session.Some?
  {
    assert AdmittedAttempt(s.sh.current) == Some(s.pc.ending.attempt);
  }

  // --- the guarantees ---

  /**
   Behind the join, an attempt goes back for a reconnect exactly when its worker
   asked for one while it was active, its token has not fired, it was started for a
   session, and that session still exists. Otherwise it settles.
   */
  lemma JoinedDecides(steps: seq<Step>, hasSession: bool)
    requires Run(INITIAL, steps).pc.Joined?
    ensures var s := Run(INITIAL, steps);
            var a := s.pc.ending;
            var t := Next(s, Act(hasSession));
            && StartHeard(Heard(INITIAL, steps), a.attempt, a.session)
            && (t.pc == Requeueing(a) <==>
                  && ReconnectHeard(Heard(INITIAL, steps), a.attempt)
                  && a.attempt !in s.sh.cancelled && a.session.Some? && hasSession)
            && (t.pc == Requeueing(a) || (t.pc.Settling? && t.pc.attempt == a.attempt))
            && t.sh.sent == s.sh.sent
  {
    ReachableIsTold(steps);
    JoinedStep(Run(INITIAL, steps), Heard(INITIAL, steps), hasSession);
  }

  /** A settling attempt publishes Failed if its worker reported a failure while it was active, else Disconnected. */
  lemma SettlingPublishes(steps: seq<Step>, hasSession: bool)
    requires Run(INITIAL, steps).pc.Settling?
    ensures var s := Run(INITIAL, steps);
            Next(s, Act(hasSession)).sh.sent ==
            s.sh.sent + [if FailureHeard(Heard(INITIAL, steps), s.pc.attempt) then Failed else Disconnected]
  {
    ReachableIsTold(steps);
    SettlingStep(Run(INITIAL, steps), Heard(INITIAL, steps), hasSession);
  }

  /** A reconnect publishes, and stores, the ticket of the session the attempt was started for; a late stop wins. */
  lemma RequeueingPublishes(steps: seq<Step>, hasSession: bool)
    requires Run(INITIAL, steps).pc.Requeueing?
    ensures var s := Run(INITIAL, steps);
            var n := s.pc.ending.attempt;
            var t := Next(s, Act(hasSession));
            && s.pc.ending.session.Some? && StartHeard(Heard(INITIAL, steps), n, s.pc.ending.session)
            && var ticket := Ticket(n, s.pc.ending.session.value);
            && t.sh.sent == s.sh.sent + [if n in s.sh.cancelled then Disconnected else ReconnectRequired(ticket)]
            && t.sh.restart == (if n in s.sh.cancelled then None else Some(ticket))
  {
    ReachableIsTold(steps);
    NoTicketWhileAdmitted(Run(INITIAL, steps));
    RequeueingStep(Run(INITIAL, steps), hasSession);
  }

  lemma TwoSteps(s: State, log: seq<Entry>, hasSession: bool)
    requires Inv(s) && Told(s, log) && s.pc.Joined?
    ensures var n := s.pc.ending.attempt;
            var again := ReconnectHeard(log, n) && n !in s.sh.cancelled && s.pc.ending.session.Some? && hasSession;
            Next(Next(s, Act(hasSession)), Act(hasSession)).sh.sent == s.sh.sent + [
              if again then ReconnectRequired(Ticket(n, s.pc.ending.session.value))
              else if FailureHeard(log, n) then Failed else Disconnected]
  {
    JoinedStep(s, log, hasSession);
    var t := Next(s, Act(hasSession));
    StepKeeps(s, Act(hasSession));
    if t.pc.Requeueing? {
      NoTicketWhileAdmitted(t);
      RequeueingStep(t, hasSession);
    } else {
      assert PcNoted(log, t.pc);
      SettlingStep(t, log, hasSession);
    }
  }

  /** From the join on and uninterrupted, the next publication is the one the reports call for. */
  lemma EndPublishesWhatWasReported(steps: seq<Step>, hasSession: bool)
    requires Run(INITIAL, steps).pc.Joined?
    ensures var s := Run(INITIAL, steps);
            var n := s.pc.ending.attempt;
            var log := Heard(INITIAL, steps);
            var again := ReconnectHeard(log, n) && n !in s.sh.cancelled && s.pc.ending.session.Some? && hasSession;
            Next(Next(s, Act(hasSession)), Act(hasSession)).sh.sent == s.sh.sent + [
              if again then ReconnectRequired(Ticket(n, s.pc.ending.session.value))
              else if FailureHeard(log, n) then Failed else Disconnected]
  {
    ReachableIsTold(steps);
    TwoSteps(Run(INITIAL, steps), Heard(INITIAL, steps), hasSession);
  }
}
