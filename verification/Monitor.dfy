/**
 What is observed of one native tunnel: its phase and transport, the session
 clock, and optional traffic samples fenced by sequence and generation numbers.
 Instants are nanoseconds; configurations and counters of a sample are numbered.
 */
module Monitor {
  import opened Basics

  const SAMPLE_TIMEOUT: nat := 4_000_000_000

  datatype Phase = Establishing | Connected | Reconnecting | Ended
  datatype Transport = Negotiating | IpsecEsp | SslTls | Unavailable
  datatype Freshness = Disabled | Waiting | Fresh | Stale | Over

  datatype Stamp = Stamp(generation: nat, stateSequence: nat, issued: nat)
  datatype Sample = Sample(
    sequence: nat, stateSequence: nat, configurationRevision: nat, elapsed: nat, counters: nat, acquired: nat)

  datatype Observation = Observation(
    phase: Phase, transport: Transport, stateSequence: nat,
    configuration: Option<nat>, configurationRevision: nat, configurationObserved: bool,
    sequence: nat, statisticsSequence: nat,
    started: Option<nat>, endedElapsed: Option<nat>,
    enabled: bool, generation: nat, pending: Option<Stamp>, sample: Option<Sample>, statistics: Freshness,
    finished: bool, requestFailed: bool)

  const NEW_OBSERVATION := Observation(
    Establishing, Negotiating, 1, None, 0, false, 1, 1, None, None, false, 0, None, None, Disabled, false, false)

  datatype Event =
    | Configuration(configuration: Option<nat>)
    | Established
    | Reconnected
    | ReconnectStarted
    | TransportIs(transport: Transport)
    | Statistics(counters: nat)
    | SessionEnded

  // --- the clock ---

  function Since(now: nat, earlier: nat): nat { if now >= earlier then now - earlier else 0 }

  function Millis(duration: nat): nat {
    if duration / 1_000_000 <= U64_MAX then duration / 1_000_000 else U64_MAX
  }

  function Elapsed(o: Observation, now: nat): nat {
    if o.endedElapsed.Some? then o.endedElapsed.value
    else if o.started.Some? then Millis(Since(now, o.started.value))
    else 0
  }

  predicate TransportActive(t: Transport) { t == IpsecEsp || t == SslTls }

  predicate Active(o: Observation) { !o.finished && o.phase == Connected && TransportActive(o.transport) }

  // --- transitions ---

  function Invalidate(o: Observation): Observation {
    o.(statistics :=
         if o.finished then Over
         else if !o.enabled then Disabled
         else if o.sample.Some? || !Active(o) then Stale
         else Waiting,
       sequence := o.sequence + 1,
       statisticsSequence := o.sequence + 1)
  }

  function StateChanged(o: Observation): Observation {
    Invalidate(o.(stateSequence := o.sequence + 1, sequence := o.sequence + 1))
  }

  function Enable(o: Observation, enabled: bool): Observation {
    if o.finished || o.enabled == enabled then o
    else o.(enabled := enabled, generation := o.generation + 1, statistics := if enabled then Waiting else Disabled,
            sequence := o.sequence + 1, statisticsSequence := o.sequence + 1)
  }

  function Finish(o: Observation, now: nat): Observation {
    if o.finished then o
    else StateChanged(o.(endedElapsed := Some(Elapsed(o, now)), finished := true, enabled := false, pending := None,
                         phase := Ended, transport := Unavailable))
  }

  predicate Answers(o: Observation, stamp: Stamp) {
    o.enabled && Active(o) && stamp.generation == o.generation && stamp.stateSequence == o.stateSequence
  }

  function Receive(o: Observation, counters: nat, now: nat): Observation {
    if o.pending.None? then o
    else if !Answers(o, o.pending.value) then o.(pending := None)
    else
      var sequence := o.sequence + 1;
      o.(pending := None, sequence := sequence, statisticsSequence := sequence, statistics := Fresh,
         sample := Some(Sample(sequence, o.stateSequence, o.configurationRevision, Elapsed(o, now), counters, now)))
  }

  function SetPhase(o: Observation, phase: Phase): Observation {
    if o.phase == phase then o else StateChanged(o.(phase := phase))
  }

  function Apply(o: Observation, e: Event, now: nat): Observation {
    if o.finished then o else
    match e
    case Configuration(c) =>
      if o.configurationObserved && o.configuration == c then o
      else StateChanged(o.(configurationObserved := true, configuration := c,
                           configurationRevision := o.configurationRevision + 1))
    case Established => SetPhase(o.(started := if o.started.Some? then o.started else Some(now)), Connected)
    case Reconnected => if o.started.Some? then SetPhase(o, Connected) else o
    case ReconnectStarted => SetPhase(o, if o.started.Some? then Reconnecting else Establishing)
    case TransportIs(t) => if o.transport == t then o else StateChanged(o.(transport := t))
    case Statistics(counters) => Receive(o, counters, now)
    case SessionEnded => Finish(o, now)
  }

  datatype Answer = Issued | NotIssued | Refused

  /** `request_sample`; `answer` is what the command pipe says when it is asked. */
  function RequestSample(o: Observation, now: nat, answer: Answer): Observation {
    if o.finished || !o.enabled || !Active(o) then o
    else if o.pending.Some? then
      if Since(now, o.pending.value.issued) >= SAMPLE_TIMEOUT && o.statistics != Stale
      then o.(statistics := Stale, sequence := o.sequence + 1, statisticsSequence := o.sequence + 1)
      else o
    else match answer
      case Issued => o.(pending := Some(Stamp(o.generation, o.stateSequence, now)), requestFailed := false)
      case NotIssued => o
      case Refused =>
        o.(requestFailed := true, statistics := Stale, sequence := o.sequence + 1, statisticsSequence := o.sequence + 1)
  }

  // --- runs ---

  datatype Step =
    | Observe(event: Event)
    | Toggle(enabled: bool)
    | End
    | Request(answer: Answer)
    | Wait

  /** `answered` is the stamp of the request the retained sample answers; `clock` never goes back. */
  datatype State = State(o: Observation, answered: Option<Stamp>, clock: nat)

  function Initial(clock: nat): State { State(NEW_OBSERVATION, None, clock) }

  datatype Timed = Timed(step: Step, delay: nat)

  function Effect(o: Observation, step: Step, now: nat): Observation {
    match step
    case Observe(e) => Apply(o, e, now)
    case Toggle(enabled) => Enable(o, enabled)
    case End => Finish(o, now)
    case Request(answer) => RequestSample(o, now, answer)
    case Wait => o
  }

  function Next(s: State, t: Timed): State {
    var now := s.clock + t.delay;
    var o := Effect(s.o, t.step, now);
    State(o, if o.sample != s.o.sample then s.o.pending else s.answered, now)
  }

  function Run(s: State, steps: seq<Timed>): State
    decreases |steps|
  {
    if steps == [] then s else Run(Next(s, steps[0]), steps[1..])
  }

  // --- the invariant ---

  predicate SequencesAgree(o: Observation) {
    && o.statisticsSequence == o.sequence
    && 1 <= o.stateSequence <= o.sequence
    && (o.sample.Some? ==> o.sample.value.sequence <= o.sequence)
  }

  predicate PhaseAgrees(o: Observation) {
    && (o.finished <==> o.phase == Ended)
    && (o.finished <==> o.endedElapsed.Some?)
    && (!o.finished ==> (o.phase == Establishing <==> o.started.None?))
    && (o.finished ==> !o.enabled && o.statistics == Over)
  }

  predicate Fenced(o: Observation, answered: Option<Stamp>) {
    && (o.sample.Some? <==> answered.Some?)
    && (o.sample.Some? ==> o.sample.value.stateSequence == answered.value.stateSequence)
    && (o.statistics == Fresh ==> o.sample.Some? && Answers(o, answered.value))
  }

  predicate ClockSane(o: Observation, clock: nat) {
    o.started.Some? ==> o.started.value <= clock
  }

  predicate Inv(s: State) {
    SequencesAgree(s.o) && PhaseAgrees(s.o) && Fenced(s.o, s.answered) && ClockSane(s.o, s.clock)
  }

  lemma EventSequences(o: Observation, e: Event, now: nat)
    requires SequencesAgree(o)
    ensures SequencesAgree(Apply(o, e, now))
  {
  }

  lemma OtherSequences(o: Observation, step: Step, now: nat)
    requires SequencesAgree(o) && !step.Observe?
    ensures SequencesAgree(Effect(o, step, now))
  {
  }

  lemma PhaseKeeps(o: Observation, step: Step, now: nat)
    requires PhaseAgrees(o)
    ensures PhaseAgrees(Effect(o, step, now))
  {
  }

  lemma EventFenced(o: Observation, answered: Option<Stamp>, e: Event, now: nat)
    requires SequencesAgree(o) && Fenced(o, answered)
    ensures var after := Apply(o, e, now);
            Fenced(after, if after.sample != o.sample then o.pending else answered)
  {
  }

  lemma OtherFenced(o: Observation, answered: Option<Stamp>, step: Step, now: nat)
    requires SequencesAgree(o) && Fenced(o, answered) && !step.Observe?
    ensures Effect(o, step, now).sample == o.sample && Fenced(Effect(o, step, now), answered)
  {
  }

  lemma ClockKeeps(o: Observation, clock: nat, step: Step, now: nat)
    requires ClockSane(o, clock) && clock <= now
    ensures ClockSane(Effect(o, step, now), now)
  {
  }

  lemma NextEventSequences(s: State, t: Timed)
    requires SequencesAgree(s.o) && t.step.Observe?
    ensures SequencesAgree(Next(s, t).o)
  {
    EventSequences(s.o, t.step.event, s.clock + t.delay);
  }

  lemma NextOtherSequences(s: State, t: Timed)
    requires SequencesAgree(s.o) && !t.step.Observe?
    ensures SequencesAgree(Next(s, t).o)
  {
    OtherSequences(s.o, t.step, s.clock + t.delay);
  }

  lemma NextPhase(s: State, t: Timed)
    requires PhaseAgrees(s.o)
    ensures PhaseAgrees(Next(s, t).o)
  {
    PhaseKeeps(s.o, t.step, s.clock + t.delay);
  }

  lemma NextEventFenced(s: State, t: Timed)
    requires SequencesAgree(s.o) && Fenced(s.o, s.answered) && t.step.Observe?
    ensures Fenced(Next(s, t).o, Next(s, t).answered)
  {
    EventFenced(s.o, s.answered, t.step.event, s.clock + t.delay);
  }

  lemma NextOtherFenced(s: State, t: Timed)
    requires SequencesAgree(s.o) && Fenced(s.o, s.answered) && !t.step.Observe?
    ensures Fenced(Next(s, t).o, Next(s, t).answered)
  {
    OtherFenced(s.o, s.answered, t.step, s.clock + t.delay);
  }

  lemma NextSane(s: State, t: Timed)
    requires ClockSane(s.o, s.clock)
    ensures ClockSane(Next(s, t).o, Next(s, t).clock)
  {
    ClockKeeps(s.o, s.clock, t.step, s.clock + t.delay);
  }

  lemma StepKeeps(s: State, t: Timed)
    requires Inv(s)
    ensures Inv(Next(s, t))
  {
    NextPhase(s, t);
    NextSane(s, t);
    if t.step.Observe? {
      NextEventSequences(s, t);
      NextEventFenced(s, t);
    } else {
      NextOtherSequences(s, t);
      NextOtherFenced(s, t);
    }
  }

  lemma {:induction false} RunKeeps(s: State, steps: seq<Timed>)
    requires Inv(s)
    ensures Inv(Run(s, steps))
    decreases |steps|
  {
    if steps != [] {
      StepKeeps(s, steps[0]);
      RunKeeps(Next(s, steps[0]), steps[1..]);
    }
  }

  // --- freshness ---

  /**
   Fresh statistics imply collection is on, the tunnel is connected on an active
   transport, and the retained sample answers a request issued in the current
   generation and the current state sequence.
   */
  lemma FreshIsFenced(clock: nat, steps: seq<Timed>)
    requires Run(Initial(clock), steps).o.statistics == Fresh
    ensures var s := Run(Initial(clock), steps);
            && s.o.enabled && s.o.phase == Connected && TransportActive(s.o.transport)
            && s.o.sample.Some? && s.answered.Some?
            && s.answered.value.generation == s.o.generation
            && s.answered.value.stateSequence == s.o.stateSequence == s.o.sample.value.stateSequence
  {
    RunKeeps(Initial(clock), steps);
  }

  lemma SequencesOrder(clock: nat, steps: seq<Timed>)
    ensures var o := Run(Initial(clock), steps).o; o.statisticsSequence == o.sequence >= o.stateSequence
  {
    RunKeeps(Initial(clock), steps);
  }

  /** Everything a subscriber sees, apart from ages. */
  datatype Visible = Visible(
    phase: Phase, transport: Transport, stateSequence: nat, configuration: Option<nat>, configurationRevision: nat,
    sample: Option<Sample>, statistics: Freshness)

  function See(o: Observation): Visible {
    Visible(o.phase, o.transport, o.stateSequence, o.configuration, o.configurationRevision, o.sample, o.statistics)
  }

  predicate Orders(before: Observation, after: Observation) {
    after.sequence >= before.sequence && (after.sequence == before.sequence ==> See(after) == See(before))
  }

  lemma EventOrders(o: Observation, e: Event, now: nat)
    ensures Orders(o, Apply(o, e, now))
  {
  }

  lemma OtherOrders(o: Observation, step: Step, now: nat)
    requires !step.Observe?
    ensures Orders(o, Effect(o, step, now))
  {
  }

  lemma StepOrders(s: State, t: Timed)
    ensures Orders(s.o, Next(s, t).o)
  {
    var now := s.clock + t.delay;
    if t.step.Observe? { EventOrders(s.o, t.step.event, now); } else { OtherOrders(s.o, t.step, now); }
  }

  /** The sequence number orders what is published: it never falls, and it stands still only while nothing changes. */
  lemma {:induction false} SequenceIdentifies(s: State, steps: seq<Timed>)
    ensures Orders(s.o, Run(s, steps).o)
    decreases |steps|
  {
    if steps != [] {
      StepOrders(s, steps[0]);
      SequenceIdentifies(Next(s, steps[0]), steps[1..]);
    }
  }

  // --- the session clock ---

  function Clock(s: State): nat { Elapsed(s.o, s.clock) }

  lemma MillisMonotone(a: nat, b: nat)
    requires a <= b
    ensures Millis(a) <= Millis(b)
  {
    assert a / 1_000_000 <= b / 1_000_000;
  }

  lemma FinishedStays(o: Observation, step: Step, now: nat)
    requires o.finished && !o.enabled
    ensures Effect(o, step, now) == o
  {
  }

  lemma StartedStays(o: Observation, step: Step, now: nat)
    requires o.started.Some?
    ensures Effect(o, step, now).started == o.started
  {
  }

  lemma ReadingGrows(o: Observation, clock: nat, now: nat)
    requires clock <= now && ClockSane(o, clock)
    ensures Elapsed(o, clock) <= Elapsed(o, now)
  {
    if o.started.Some? {
      MillisMonotone(Since(clock, o.started.value), Since(now, o.started.value));
    }
  }

  /** No event sets a running clock back: ending freezes it at what it reads. */
  lemma EventElapsed(o: Observation, e: Event, now: nat)
    requires PhaseAgrees(o)
    ensures Elapsed(o, now) <= Elapsed(Apply(o, e, now), now)
  {
  }

  lemma FinishElapsed(o: Observation, now: nat)
    requires PhaseAgrees(o)
    ensures Elapsed(o, now) == Elapsed(Finish(o, now), now)
  {
  }

  /** Two observations with the same start and end read the same clock. */
  lemma SameClock(o: Observation, after: Observation, now: nat)
    requires after.started == o.started && after.endedElapsed == o.endedElapsed
    ensures Elapsed(o, now) == Elapsed(after, now)
  {
  }

  lemma NextEventClock(s: State, t: Timed)
    requires PhaseAgrees(s.o) && ClockSane(s.o, s.clock) && t.step.Observe?
    ensures Clock(s) <= Clock(Next(s, t))
  {
    var now := s.clock + t.delay;
    ReadingGrows(s.o, s.clock, now);
    EventElapsed(s.o, t.step.event, now);
  }

  lemma NextEndClock(s: State, t: Timed)
    requires PhaseAgrees(s.o) && ClockSane(s.o, s.clock) && t.step.End?
    ensures Clock(s) <= Clock(Next(s, t))
  {
    var now := s.clock + t.delay;
    ReadingGrows(s.o, s.clock, now);
    FinishElapsed(s.o, now);
  }

  /** Collecting statistics has nothing to do with the clock. */
  lemma CollectionKeepsClock(o: Observation, step: Step, now: nat)
    requires step.Toggle? || step.Request? || step.Wait?
    ensures Effect(o, step, now).started == o.started && Effect(o, step, now).endedElapsed == o.endedElapsed
  {
  }

  lemma NextCollectionClock(s: State, t: Timed)
    requires ClockSane(s.o, s.clock) && (t.step.Toggle? || t.step.Request? || t.step.Wait?)
    ensures Clock(s) <= Clock(Next(s, t))
  {
    var now := s.clock + t.delay;
    ReadingGrows(s.o, s.clock, now);
    CollectionKeepsClock(s.o, t.step, now);
    SameClock(s.o, Next(s, t).o, now);
  }

  lemma NextClock(s: State, t: Timed)
    requires PhaseAgrees(s.o) && ClockSane(s.o, s.clock)
    ensures Clock(s) <= Clock(Next(s, t))
  {
    if t.step.Observe? { NextEventClock(s, t); }
    else if t.step.End? { NextEndClock(s, t); }
    else { NextCollectionClock(s, t); }
  }

  /** Elapsed time never runs backwards, whatever reconnects happen. */
  lemma {:induction false} ClockNeverGoesBack(s: State, steps: seq<Timed>)
    requires Inv(s)
    ensures Clock(s) <= Clock(Run(s, steps))
    decreases |steps|
  {
    if steps != [] {
      NextClock(s, steps[0]);
      StepKeeps(s, steps[0]);
      ClockNeverGoesBack(Next(s, steps[0]), steps[1..]);
    }
  }

  lemma NextFinished(s: State, t: Timed)
    requires s.o.finished && !s.o.enabled
    ensures Next(s, t).o == s.o
  {
    FinishedStays(s.o, t.step, s.clock + t.delay);
  }

  /** Once the session ended no event, toggle or request changes anything; the clock reads the same for ever. */
  lemma {:induction false} EndIsFinal(s: State, steps: seq<Timed>)
    requires Inv(s) && s.o.finished
    ensures Run(s, steps).o == s.o && Clock(Run(s, steps)) == Clock(s)
    decreases |steps|
  {
    if steps != [] {
      NextFinished(s, steps[0]);
      StepKeeps(s, steps[0]);
      EndIsFinal(Next(s, steps[0]), steps[1..]);
    }
  }

  lemma NextStarted(s: State, t: Timed)
    requires s.o.started.Some?
    ensures Next(s, t).o.started == s.o.started
  {
    StartedStays(s.o, t.step, s.clock + t.delay);
  }

  lemma {:induction false} StartIsKept(s: State, steps: seq<Timed>)
    requires s.o.started.Some?
    ensures Run(s, steps).o.started == s.o.started
    decreases |steps|
  {
    if steps != [] {
      NextStarted(s, steps[0]);
      StartIsKept(Next(s, steps[0]), steps[1..]);
    }
  }

  /** Before the end, the phase is Establishing exactly while the clock has not started, and then it reads 0. */
  lemma EstablishingMeansNotStarted(clock: nat, steps: seq<Timed>)
    requires !Run(Initial(clock), steps).o.finished
    ensures var s := Run(Initial(clock), steps);
            && (s.o.phase == Establishing <==> s.o.started.None?)
            && (s.o.phase == Establishing ==> Clock(s) == 0)
  {
    RunKeeps(Initial(clock), steps);
  }

  predicate Starts(t: Timed) { t.step == Observe(Established) }

  lemma StepStarts(s: State, t: Timed)
    requires !s.o.finished && s.o.started.None? && Starts(t)
    ensures Next(s, t).o.started == Some(s.clock + t.delay)
  {
  }

  /** The clock counts from the first Established, through every reconnect. */
  lemma ClockStartsOnce(clock: nat, steps: seq<Timed>, t: Timed, more: seq<Timed>)
    requires var s := Run(Initial(clock), steps); !s.o.finished && s.o.started.None? && Starts(t)
    requires !Run(Next(Run(Initial(clock), steps), t), more).o.finished
    ensures var s := Run(Initial(clock), steps);
            var end := Run(Next(s, t), more);
            Clock(end) == Millis(Since(end.clock, s.clock + t.delay))
  {
    RunKeeps(Initial(clock), steps);
    var s := Run(Initial(clock), steps);
    StepStarts(s, t);
    StepKeeps(s, t);
    StartIsKept(Next(s, t), more);
    RunKeeps(Next(s, t), more);
  }

  // --- the object ---

  class Observer {
    var phase: Phase
    var transport: Transport
    var stateSequence: nat
    var configuration: Option<nat>
    var configurationRevision: nat
    var configurationObserved: bool
    var sequence: nat
    var statisticsSequence: nat
    var started: Option<nat>
    var endedElapsed: Option<nat>
    var enabled: bool
    var generation: nat
    var pending: Option<Stamp>
    var sample: Option<Sample>
    var statistics: Freshness
    var finished: bool
    var requestFailed: bool

    function View(): Observation
      reads this
    {
      Observation(
        phase, transport, stateSequence, configuration, configurationRevision, configurationObserved, sequence,
        statisticsSequence, started, endedElapsed, enabled, generation, pending, sample, statistics, finished,
        requestFailed)
    }

    constructor ()
      ensures View() == NEW_OBSERVATION
    {
      phase, transport, stateSequence := Establishing, Negotiating, 1;
      configuration, configurationRevision, configurationObserved := None, 0, false;
      sequence, statisticsSequence := 1, 1;
      started, endedElapsed := None, None;
      enabled, generation, pending, sample, statistics := false, 0, None, None, Disabled;
      finished, requestFailed := false, false;
    }

    method NextSequence() returns (next: nat)
      modifies this`sequence
      ensures next == sequence == old(sequence) + 1
    {
      sequence := sequence + 1;
      next := sequence;
    }

    method InvalidateStatistics()
      modifies this`statistics, this`sequence, this`statisticsSequence
      ensures View() == Invalidate(old(View()))
    {
      if finished { statistics := Over; }
      else if !enabled { statistics := Disabled; }
      else if sample.Some? || !Active(View()) { statistics := Stale; }
      else { statistics := Waiting; }
      statisticsSequence := NextSequence();
    }

    method MarkChanged()
      modifies this`stateSequence, this`statistics, this`sequence, this`statisticsSequence
      ensures View() == StateChanged(old(View()))
    {
      stateSequence := NextSequence();
      InvalidateStatistics();
    }

    method SetEnabled(on: bool) returns (changed: bool)
      modifies this
      ensures View() == Enable(old(View()), on)
      ensures changed == (!old(finished) && old(enabled) != on)
    {
      if finished || enabled == on { return false; }
      enabled := on;
      generation := generation + 1;
      statistics := if on then Waiting else Disabled;
      statisticsSequence := NextSequence();
      changed := true;
    }

    method End(now: nat)
      modifies this
      ensures View() == Finish(old(View()), now)
    {
      if finished { return; }
      var elapsed := Elapsed(View(), now);
      endedElapsed, finished, enabled, pending := Some(elapsed), true, false, None;
      phase, transport := Ended, Unavailable;
      assert View() == old(View()).(endedElapsed := Some(elapsed), finished := true, enabled := false, pending := None,
                                    phase := Ended, transport := Unavailable);
      MarkChanged();
    }

    method ReceiveStatistics(counters: nat, now: nat)
      modifies this
      ensures View() == Receive(old(View()), counters, now)
    {
      if pending.None? { return; }
      var stamp := pending.value;
      pending := None;
      if !enabled || !Active(View()) || stamp.generation != generation ||
            stamp.stateSequence != stateSequence { return; }
      var elapsed := Elapsed(View(), now);
      var next := NextSequence();
      sample := Some(Sample(next, stateSequence, configurationRevision, elapsed, counters, now));
      statisticsSequence := next;
      statistics := Fresh;
    }

    method EnterPhase(next: Phase)
      modifies this
      ensures View() == SetPhase(old(View()), next)
    {
      if phase != next {
        phase := next;
        MarkChanged();
      }
    }

    method ApplyEvent(e: Event, now: nat)
      modifies this
      ensures View() == Apply(old(View()), e, now)
    {
      if finished { return; }
      match e {
        case Configuration(c) =>
          if configurationObserved && configuration == c { return; }
          configurationObserved := true;
          configuration := c;
          configurationRevision := configurationRevision + 1;
          MarkChanged();
        case Established =>
          if started.None? { started := Some(now); }
          EnterPhase(Connected);
        case Reconnected =>
          if started.Some? { EnterPhase(Connected); }
        case ReconnectStarted =>
          EnterPhase(if started.Some? then Reconnecting else Establishing);
        case TransportIs(t) =>
          if transport == t { return; }
          transport := t;
          MarkChanged();
        case Statistics(counters) => ReceiveStatistics(counters, now);
        case SessionEnded => End(now);
      }
    }

    /** The result says whether the sampler keeps running. */
    method AskForSample(now: nat, answer: Answer) returns (running: bool)
      modifies this
      ensures View() == RequestSample(old(View()), now, answer)
      ensures running == !old(finished)
    {
      if finished { return false; }
      if !enabled || !Active(View()) { return true; }
      if pending.Some? {
        if Since(now, pending.value.issued) >= SAMPLE_TIMEOUT && statistics != Stale {
          statistics := Stale;
          statisticsSequence := NextSequence();
        }
        return true;
      }
      match answer {
        case Issued =>
          pending := Some(Stamp(generation, stateSequence, now));
          requestFailed := false;
        case NotIssued =>
        case Refused =>
          requestFailed := true;
          statistics := Stale;
          statisticsSequence := NextSequence();
      }
      running := true;
    }
  }
}
