/** Reconnect tickets and what is published while nothing is admitted. */
module LifecycleTickets {
  import opened Basics
  import opened Lifecycle
  import opened LifecycleInvariant

  /** A stored ticket means nothing is admitted and exactly that reconnect is published. */
  lemma TicketIsPublished(steps: seq<Step>)
    ensures var sh := Run(INITIAL, steps).sh;
            && (sh.restart.Some? ==> sh.current.None? && Published(sh) == ReconnectRequired(sh.restart.value))
            && (sh.current.None? ==> Quiet(Published(sh)))
  {
    Reachable(steps);
  }

  /** The ticket can never be stored again: its attempt is over, or stopping. */
  predicate Dead(s: State, t: Ticket) {
    && t.attempt < s.sh.nextAttempt
    && s.sh.restart != Some(t)
    && (Admitted(s.sh, t.attempt) ==> s.sh.current.value.stopRequested)
  }

  lemma RequeueKeepsDead(s: State, hasSession: bool, t: Ticket)
    requires Ownership(s) && Dead(s, t) && s.pc.Requeueing?
    ensures Dead(ActStep(s, hasSession), t)
  {
  }

  lemma ActKeepsDead(s: State, hasSession: bool, t: Ticket)
    requires Dead(s, t) && ActEnabled(s) && !s.pc.Requeueing?
    ensures Dead(ActStep(s, hasSession), t)
  {
    assert ActStep(s, hasSession).sh.restart == s.sh.restart;
  }

  lemma HandleKeepsDead(s: State, step: Step, t: Ticket)
    requires Dead(s, t) && Enabled(s, step) && !step.Act? && !step.Receive?
    ensures Dead(Effect(s, step), t)
  {
  }

  lemma StepKeepsDead(s: State, step: Step, t: Ticket)
    requires Ownership(s) && Dead(s, t)
    ensures Dead(Next(s, step), t)
  {
    if Enabled(s, step) {
      if step.Act? {
        if s.pc.Requeueing? { RequeueKeepsDead(s, step.hasSession, t); } else { ActKeepsDead(s, step.hasSession, t); }
      } else if step.Receive? {
        assert Effect(s, step).sh == Dequeue(s).sh;
      } else {
        HandleKeepsDead(s, step, t);
      }
    }
  }

  lemma {:induction false} RunKeepsDead(s: State, steps: seq<Step>, t: Ticket)
    requires Inv(s) && Dead(s, t)
    ensures Dead(Run(s, steps), t)
    decreases |steps|
  {
    if steps != [] {
      StepKeeps(s, steps[0]);
      StepKeepsDead(s, steps[0], t);
      RunKeepsDead(Next(s, steps[0]), steps[1..], t);
    }
  }

  predicate Redeems(s: State, t: Ticket) {
    ReserveConnect(s.sh, Some(t)).1.Granted?
  }

  /** Each ticket is redeemed at most once over any run. */
  lemma RedeemedOnce(steps: seq<Step>, t: Ticket, more: seq<Step>)
    requires Redeems(Run(INITIAL, steps), t)
    ensures !Redeems(Run(Next(Run(INITIAL, steps), Reserve(Some(t))), more), t)
  {
    Reachable(steps);
    var s := Run(INITIAL, steps);
    StepKeeps(s, Reserve(Some(t)));
    RunKeepsDead(Next(s, Reserve(Some(t))), more, t);
  }

  /** No ticket of an attempt issued before it is redeemed after an accepted disconnect. */
  lemma NotRedeemedAfterDisconnect(steps: seq<Step>, t: Ticket, more: seq<Step>)
    requires t.attempt < Run(INITIAL, steps).sh.nextAttempt
    ensures !Redeems(Run(Next(Run(INITIAL, steps), Disconnect), more), t)
  {
    Reachable(steps);
    var s := Run(INITIAL, steps);
    StepKeeps(s, Disconnect);
    RunKeepsDead(Next(s, Disconnect), more, t);
  }

  /** Any successful reservation, redeeming or not, voids every ticket of earlier attempts. */
  lemma NotRedeemedAfterReservation(steps: seq<Step>, restart: Option<Ticket>, t: Ticket, more: seq<Step>)
    requires ReserveConnect(Run(INITIAL, steps).sh, restart).1.Granted?
    requires t.attempt < Run(INITIAL, steps).sh.nextAttempt
    ensures !Redeems(Run(Next(Run(INITIAL, steps), Reserve(restart)), more), t)
  {
    Reachable(steps);
    var s := Run(INITIAL, steps);
    StepKeeps(s, Reserve(restart));
    RunKeepsDead(Next(s, Reserve(restart)), more, t);
  }
}
