/**
 What the ownership invariant buys: the guarantees the lifecycle gives its
 callers over every run.
 */
module LifecycleTheorems {
  import opened Basics
  import opened Lifecycle
  import opened LifecycleInvariant

  // --- unique ownership ---

  /** Owners of `n`: an unreleased reservation, a queued `Start`, or the actor running or holding it. */
  function OwnerCount(s: State, n: Attempt): nat {
    Count(n in Holding(s.reservations)) + multiset(Starts(s.sh.queue))[n] + Count(ActiveIs(s, n)) +
    Count(PcHolds(s.pc) == Some(n))
  }

  /** In every reachable state an attempt has one owner if it is the admission and none otherwise. */
  lemma UniqueOwnership(steps: seq<Step>, n: Attempt)
    ensures OwnerCount(Run(INITIAL, steps), n) == Count(Admitted(Run(INITIAL, steps).sh, n))
  {
    Reachable(steps);
    var s := Run(INITIAL, steps);
    if AdmittedAttempt(s.sh.current).Some? {
      assert Starts(s.sh.queue) == [] || Starts(s.sh.queue) == [AdmittedAttempt(s.sh.current).value];
    }
  }

  /** Starting an attempt never replaces a running one, and always finds its own admission and token. */
  lemma StartFindsItsAdmission(steps: seq<Step>, n: Attempt)
    requires PcHolds(Run(INITIAL, steps).pc) == Some(n)
    ensures var s := Run(INITIAL, steps);
            Admitted(s.sh, n) && s.active.None? && (s.pc.Starting? || s.pc.Spawning? ==> s.workers == map[])
  {
    Reachable(steps);
    var s := Run(INITIAL, steps);
    if s.pc.Starting? || s.pc.Spawning? { assert s.workers.Keys == {}; }
  }

  /** The admission taken blindly on reconnect is the ending attempt's own. */
  lemma BlindTakeIsOwn(steps: seq<Step>)
    requires Run(INITIAL, steps).pc.Requeueing?
    ensures var s := Run(INITIAL, steps);
            && Admitted(s.sh, s.pc.ending.attempt)
            && Next(s, Act(true)).sh.completed == s.sh.completed + {s.pc.ending.attempt}
  {
    Reachable(steps);
  }

  /** `drain` and the clearing in `Drop` always find the reservation's own admission. */
  lemma ReservationRetainsAdmission(steps: seq<Step>, n: Attempt)
    requires n in Holding(Run(INITIAL, steps).reservations)
    ensures Admitted(Run(INITIAL, steps).sh, n)
  {
    Reachable(steps);
  }

  // --- completion means drained ---

  /** An issued attempt is incomplete exactly while it is admitted or between its release and the flag store. */
  lemma IncompleteExactly(steps: seq<Step>, n: Attempt)
    ensures var s := Run(INITIAL, steps);
            n < s.sh.nextAttempt && n !in s.sh.completed <==>
            Admitted(s.sh, n) || n in Clearings(s.reservations) || s.pc == Completing(n)
  {
    Reachable(steps);
    var s := Run(INITIAL, steps);
    IssuedIsBelow(s.sh.nextAttempt);
    var all := s.sh.completed + Unit(AdmittedAttempt(s.sh.current)) + Clearings(s.reservations) +
          Unit(PcCompletes(s.pc));
    assert n in all <==> n < s.sh.nextAttempt;
  }

  lemma ActCompletionLasts(s: State, hasSession: bool)
    requires ActEnabled(s)
    ensures s.sh.completed <= ActStep(s, hasSession).sh.completed
  {
    if s.pc.Requeueing? || s.pc.Completing? {
    } else {
      assert ActStep(s, hasSession).sh.completed == s.sh.completed;
    }
  }

  lemma StepCompletionLasts(s: State, step: Step)
    ensures s.sh.completed <= Next(s, step).sh.completed
  {
    if Enabled(s, step) && step.Act? { ActCompletionLasts(s, step.hasSession); }
  }

  lemma {:induction false} CompletionLasts(s: State, n: Attempt, steps: seq<Step>)
    requires n in s.sh.completed
    ensures n in Run(s, steps).sh.completed
    decreases |steps|
  {
    if steps != [] {
      StepCompletionLasts(s, steps[0]);
      CompletionLasts(Next(s, steps[0]), n, steps[1..]);
    }
  }

  /** A waiter that saw the flag knows, for good, that the attempt has no owner and no worker. */
  lemma CompletionMeansDrained(steps: seq<Step>, n: Attempt, more: seq<Step>)
    requires n in Run(INITIAL, steps).sh.completed
    ensures var s := Run(Run(INITIAL, steps), more);
            n in s.sh.completed && OwnerCount(s, n) == 0 && n !in s.workers
  {
    Reachable(steps);
    CompletionLasts(Run(INITIAL, steps), n, more);
    RunKeeps(Run(INITIAL, steps), more);
    var s := Run(Run(INITIAL, steps), more);
    if AdmittedAttempt(s.sh.current).Some? {
      assert n != AdmittedAttempt(s.sh.current).value;
      assert Starts(s.sh.queue) == [] || Starts(s.sh.queue) == [AdmittedAttempt(s.sh.current).value];
    }
  }

  /** At most one connection worker is unjoined, and it belongs to the admission. */
  lemma OneWorker(steps: seq<Step>)
    ensures var s := Run(INITIAL, steps);
            s.workers.Keys <= Unit(AdmittedAttempt(s.sh.current))
  {
    Reachable(steps);
  }

  // --- a stop is never lost ---

  /** `stop_requested`, the Stopping phase and the fired token agree. */
  lemma StopIsConsistent(steps: seq<Step>)
    ensures var sh := Run(INITIAL, steps).sh;
            sh.current.Some? ==>
              && (sh.current.value.stopRequested <==> sh.current.value.phase == Stopping)
              && (sh.current.value.stopRequested ==> sh.current.value.attempt in sh.cancelled)
              && (sh.closed ==> sh.current.value.stopRequested)
  {
    Reachable(steps);
  }

  /**
   `n` can never again be announced as connected: it was stopped, it is over, or
   its token fired while the actor was not already past its last look at it.
   */
  predicate Fenced(s: State, n: Attempt) {
    n < s.sh.nextAttempt &&
    (Admitted(s.sh, n) ==>
       s.sh.current.value.stopRequested || (n in s.sh.cancelled && s.pc != Establish(n) && s.pc != Members(n)))
  }

  /** `later` extends the publications `sent`, and nothing in the extension announces `n` as connected. */
  ghost predicate Silent(sent: seq<VpnState>, later: seq<VpnState>, n: Attempt) {
    && |sent| <= |later|
    && later[..|sent|] == sent
    && forall i :: |sent| <= i < |later| ==> later[i] != Connected(n)
  }

  lemma SilentTransitive(a: seq<VpnState>, b: seq<VpnState>, c: seq<VpnState>, n: Attempt)
    requires Silent(a, b, n) && Silent(b, c, n)
    ensures Silent(a, c, n)
  {
    assert c[..|a|] == c[..|b|][..|a|];
    forall i | |a| <= i < |c| ensures c[i] != Connected(n) {
      if i < |b| { assert c[i] == c[..|b|][i]; }
    }
  }

  ghost predicate FenceHolds(s: State, t: State, n: Attempt) { Fenced(t, n) && Silent(s.sh.sent, t.sh.sent, n) }

  lemma PublicationFenced(s: State, hasSession: bool, n: Attempt)
    requires Inv(s) && Fenced(s, n) && (s.pc.Announce? || s.pc.Establish? || s.pc.Members?)
    ensures FenceHolds(s, ActStep(s, hasSession), n)
  {
  }

  lemma JoiningFenced(s: State, hasSession: bool, n: Attempt)
    requires Fenced(s, n) && ActEnabled(s) && (s.pc.Joining? || s.pc.Joined?)
    ensures FenceHolds(s, ActStep(s, hasSession), n)
  {
  }

  lemma EndingFenced(s: State, hasSession: bool, n: Attempt)
    requires Control(s) && Fenced(s, n) && (s.pc.Requeueing? || s.pc.Settling?)
    ensures FenceHolds(s, ActStep(s, hasSession), n)
  {
  }

  lemma ReleasingFenced(s: State, hasSession: bool, n: Attempt)
    requires Fenced(s, n) && (s.pc.Clearing? || s.pc.Completing?)
    ensures FenceHolds(s, ActStep(s, hasSession), n)
  {
  }

  lemma OtherActFenced(s: State, hasSession: bool, n: Attempt)
    requires Inv(s) && Fenced(s, n) && ActEnabled(s)
    requires !s.pc.Announce? && !s.pc.Establish? && !s.pc.Members? && !PcRuns(s.pc) && !s.pc.Clearing? &&
          !s.pc.Completing?
    ensures FenceHolds(s, ActStep(s, hasSession), n)
  {
  }

  lemma ReceiveFenced(s: State, n: Attempt)
    requires Inv(s) && Fenced(s, n) && Enabled(s, Receive)
    ensures FenceHolds(s, Effect(s, Receive), n)
  {
  }

  lemma HandleFenced(s: State, step: Step, n: Attempt)
    requires Fenced(s, n) && Enabled(s, step)
    requires step.Reserve? || step.Commit? || step.Disconnect? || step.DisconnectAndWait?
    ensures FenceHolds(s, Effect(s, step), n)
  {
  }

  lemma ReleaseFenced(s: State, m: Attempt, n: Attempt)
    requires Fenced(s, n) && m in s.reservations
    ensures FenceHolds(s, ReleaseStep(s, m), n)
  {
  }

  lemma StepFenced(s: State, step: Step, n: Attempt)
    requires Inv(s) && Fenced(s, n)
    ensures FenceHolds(s, Next(s, step), n)
  {
    if Enabled(s, step) {
      if step.Act? {
        if s.pc.Announce? || s.pc.Establish? || s.pc.Members? { PublicationFenced(s, step.hasSession, n); }
        else if s.pc.Joining? || s.pc.Joined? { JoiningFenced(s, step.hasSession, n); }
        else if PcRuns(s.pc) { EndingFenced(s, step.hasSession, n); }
        else if s.pc.Clearing? || s.pc.Completing? { ReleasingFenced(s, step.hasSession, n); }
        else { OtherActFenced(s, step.hasSession, n); }
      } else if step.Receive? {
        ReceiveFenced(s, n);
      } else if step.Reserve? || step.Commit? || step.Disconnect? || step.DisconnectAndWait? {
        HandleFenced(s, step, n);
      } else if step.Release? {
        ReleaseFenced(s, step.attempt, n);
      }
    }
  }

  lemma {:induction false} RunFenced(s: State, steps: seq<Step>, n: Attempt)
    requires Inv(s) && Fenced(s, n)
    ensures Silent(s.sh.sent, Run(s, steps).sh.sent, n)
    decreases |steps|
  {
    if steps != [] {
      var t := Next(s, steps[0]);
      StepKeeps(s, steps[0]);
      StepFenced(s, steps[0], n);
      RunFenced(t, steps[1..], n);
      SilentTransitive(s.sh.sent, t.sh.sent, Run(s, steps).sh.sent, n);
    }
  }

  /** From `s` on, no run ever announces `n` as connected. */
  ghost predicate NeverConnects(s: State, n: Attempt) {
    forall more :: Silent(s.sh.sent, Run(s, more).sh.sent, n)
  }

  lemma FencedNeverConnects(s: State, n: Attempt)
    requires Inv(s) && Fenced(s, n)
    ensures NeverConnects(s, n)
  {
    forall more ensures Silent(s.sh.sent, Run(s, more).sh.sent, n) { RunFenced(s, more, n); }
  }

  /**
   After a disconnect has been accepted, no attempt issued before it is ever
   announced as connected, whatever is still queued and whether or not the
   `Stop` event fitted into the queue.
   */
  lemma DisconnectIsNeverLost(steps: seq<Step>, n: Attempt, wait: bool)
    requires n < Run(INITIAL, steps).sh.nextAttempt
    ensures NeverConnects(Next(Run(INITIAL, steps), if wait then DisconnectAndWait else Disconnect), n)
  {
    Reachable(steps);
    var step := if wait then DisconnectAndWait else Disconnect;
    StepKeeps(Run(INITIAL, steps), step);
    FencedNeverConnects(Next(Run(INITIAL, steps), step), n);
  }

  /** The same for every attempt once shutdown has closed admission. */
  lemma ShutdownIsNeverLost(steps: seq<Step>, n: Attempt)
    requires Run(INITIAL, steps).sh.closed && n < Run(INITIAL, steps).sh.nextAttempt
    ensures NeverConnects(Run(INITIAL, steps), n)
  {
    Reachable(steps);
    FencedNeverConnects(Run(INITIAL, steps), n);
  }

  /**
   A scoped cancellation fires only the token. It silences the attempt for good
   unless the actor has already looked at the token for the event in hand and
   no stop was requested; in that window the announcement is still made.
   */
  lemma ScopedCancelSilencesExactly(steps: seq<Step>, n: Attempt)
    requires n in Run(INITIAL, steps).sh.cancelled
    ensures var s := Run(INITIAL, steps);
            NeverConnects(s, n) <==> !((s.pc == Establish(n) || s.pc == Members(n)) && !StopRequested(s.sh, n))
  {
    Reachable(steps);
    var s := Run(INITIAL, steps);
    if (s.pc == Establish(n) || s.pc == Members(n)) && !StopRequested(s.sh, n) {
      PastCheckConnects(s, n);
    } else {
      FencedNeverConnects(s, n);
    }
  }

  lemma PastCheckConnects(s: State, n: Attempt)
    requires Inv(s) && (s.pc == Establish(n) || s.pc == Members(n)) && !StopRequested(s.sh, n)
    ensures !NeverConnects(s, n)
  {
    var more := [Act(false)];
    assert more[1..] == [] && Run(s, more) == Next(s, Act(false));
    assert AdmittedAttempt(s.sh.current) == Some(n);
    assert Run(s, more).sh.sent == s.sh.sent + [Connected(n)];
    assert Run(s, more).sh.sent[|s.sh.sent|] == Connected(n);
  }
}
