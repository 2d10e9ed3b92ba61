/**
 `AttemptCompletion`: one flag and one `Notify` per attempt, any number of waiters,
 beside the lifecycle that stores the flags.

 A waiter creates its `notified` future, loads the flag and only then awaits; the
 completer stores the flag and then calls `notify_waiters`, which wakes every
 future created before it. Each of those is a separate step here.
 */
module Completion {
  import opened Basics
  import L = Lifecycle
  import I = LifecycleInvariant
  import T = LifecycleTheorems

  /** Where a waiter is; `late` says its future was created after the notification. */
  datatype Place =
    | Arming               // about to create the notified future
    | Checking(late: bool)
    | Waiting(late: bool)  // flag was clear; awaiting that future
    | Returned

  datatype Waiter = Waiter(attempt: L.Attempt, at: Place)

  datatype State = State(life: L.State, notified: set<L.Attempt>, waiters: map<nat, Waiter>)

  const INITIAL := State(L.INITIAL, {}, map[])

  datatype Step =
    | Lifecycle(step: L.Step)
    | Notify(attempt: L.Attempt)
    | Join(waiter: nat, attempt: L.Attempt)
    | Advance(waiter: nat)

  predicate Enabled(s: State, step: Step) {
    match step
    case Lifecycle(_) => true
    case Notify(n) => n in s.life.sh.completed && n !in s.notified
    case Join(w, n) => w !in s.waiters && n < s.life.sh.nextAttempt
    case Advance(w) =>
      && w in s.waiters
      && s.waiters[w].at != Returned
      && (s.waiters[w].at.Waiting? ==> !s.waiters[w].at.late && s.waiters[w].attempt in s.notified)
  }

  function Moved(s: State, w: Waiter): Place {
    match w.at
    case Arming => Checking(w.attempt in s.notified)
    case Checking(late) => if w.attempt in s.life.sh.completed then Returned else Waiting(late)
    case Waiting(_) => Arming
    case Returned => Returned
  }

  function Next(s: State, step: Step): State {
    if !Enabled(s, step) then s else
    match step
    case Lifecycle(inner) => s.(life := L.Next(s.life, inner))
    case Notify(n) => s.(notified := s.notified + {n})
    case Join(w, n) => s.(waiters := s.waiters[w := Waiter(n, Arming)])
    case Advance(w) => s.(waiters := s.waiters[w := s.waiters[w].(at := Moved(s, s.waiters[w]))])
  }

  function Run(s: State, steps: seq<Step>): State
    decreases |steps|
  {
    if steps == [] then s else Run(Next(s, steps[0]), steps[1..])
  }

  // --- the lifecycle inside a run is a run of the lifecycle ---

  function Inner(steps: seq<Step>): seq<L.Step> {
    if steps == [] then []
    else (if steps[0].Lifecycle? then [steps[0].step] else []) + Inner(steps[1..])
  }

  lemma {:induction false} LifecycleRuns(s: State, steps: seq<Step>)
    ensures Run(s, steps).life == L.Run(s.life, Inner(steps))
    decreases |steps|
  {
    if steps != [] {
      LifecycleRuns(Next(s, steps[0]), steps[1..]);
      if steps[0].Lifecycle? {
        assert Inner(steps)[0] == steps[0].step && Inner(steps)[1..] == Inner(steps[1..]);
      } else {
        assert Inner(steps) == Inner(steps[1..]);
      }
    }
  }

  // --- the invariant ---

  ghost predicate Inv(s: State) {
    && s.notified <= s.life.sh.completed
    && (forall w :: w in s.waiters ==>
          && (s.waiters[w].at == Returned ==> s.waiters[w].attempt in s.life.sh.completed)
          && (s.waiters[w].at.Waiting? ==> !s.waiters[w].at.late)
          && (s.waiters[w].at.Checking? && s.waiters[w].at.late ==> s.waiters[w].attempt in s.notified))
  }

  lemma StepKeeps(s: State, step: Step)
    requires Inv(s)
    ensures Inv(Next(s, step))
  {
    if step.Lifecycle? {
      T.StepCompletionLasts(s.life, step.step);
    }
  }

  lemma {:induction false} RunKeeps(s: State, steps: seq<Step>)
    requires Inv(s)
    ensures Inv(Run(s, steps))
    decreases |steps|
  {
    if steps != [] {
      StepKeeps(s, steps[0]);
      RunKeeps(Next(s, steps[0]), steps[1..]);
    }
  }

  // --- the guarantees ---

  /**
   A wait on an attempt returns only when the attempt has no owner and no worker,
   and it never gets one again.
   */
  lemma ReturnMeansDrained(steps: seq<Step>, w: nat, more: seq<Step>)
    requires w in Run(INITIAL, steps).waiters && Run(INITIAL, steps).waiters[w].at == Returned
    ensures var n := Run(INITIAL, steps).waiters[w].attempt;
            var life := Run(Run(INITIAL, steps), more).life;
            n in life.sh.completed && T.OwnerCount(life, n) == 0 && n !in life.workers
  {
    RunKeeps(INITIAL, steps);
    LifecycleRuns(INITIAL, steps);
    LifecycleRuns(Run(INITIAL, steps), more);
    T.CompletionMeansDrained(Inner(steps), Run(INITIAL, steps).waiters[w].attempt, Inner(more));
  }

  /** Once its attempt is notified no waiter sleeps: it can move until it has returned. */
  lemma NoWaiterIsLost(steps: seq<Step>, w: nat)
    requires var s := Run(INITIAL, steps); w in s.waiters && s.waiters[w].attempt in s.notified
    ensures var s := Run(INITIAL, steps); s.waiters[w].at == Returned || Enabled(s, Advance(w))
  {
    RunKeeps(INITIAL, steps);
  }

  /** Moves a waiter still needs once the flag is set and the notification sent. */
  function Remaining(at: Place): nat {
    match at
    case Waiting(_) => 3
    case Arming => 2
    case Checking(_) => 1
    case Returned => 0
  }

  /** ... and each move brings it closer, so a wait returns after at most three. */
  lemma WaiterReturnsSoon(steps: seq<Step>, w: nat)
    requires var s := Run(INITIAL, steps);
             w in s.waiters && s.waiters[w].attempt in s.notified && s.waiters[w].at != Returned
    ensures var s := Run(INITIAL, steps);
            var t := Next(s, Advance(w));
            && w in t.waiters && t.waiters[w].attempt == s.waiters[w].attempt && t.notified == s.notified
            && Remaining(t.waiters[w].at) == Remaining(s.waiters[w].at) - 1
  {
    RunKeeps(INITIAL, steps);
  }

  /** The disconnect that waits joins the admitted attempt, so it returns only when that one is drained. */
  lemma DisconnectWaitsForTheAdmission(steps: seq<Step>)
    ensures var sh := Run(INITIAL, steps).life.sh;
            var awaited := L.BeginDisconnectAndWait(sh).1;
            && awaited == L.AdmittedAttempt(sh.current)
            && (awaited.Some? ==> awaited.value < sh.nextAttempt && awaited.value !in sh.completed)
  {
    LifecycleRuns(INITIAL, steps);
    I.Reachable(Inner(steps));
    var life := Run(INITIAL, steps).life;
    if life.sh.current.Some? {
      T.IncompleteExactly(Inner(steps), life.sh.current.value.attempt);
    }
  }
}
