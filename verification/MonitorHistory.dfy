/**
 What the monitor shows of a tunnel, read off the list of events and toggles it was
 given and from nothing it keeps.
 */
module MonitorHistory {
  import opened Basics
  import opened Monitor

  // --- reading the list ---

  function Front(steps: seq<Timed>): seq<Timed>
    requires steps != []
  {
    steps[..|steps| - 1]
  }

  function Last(steps: seq<Timed>): Step
    requires steps != []
  {
    steps[|steps| - 1].step
  }

  predicate IsLink(step: Step) {
    step == Observe(Established) || step == Observe(Reconnected) || step == Observe(ReconnectStarted)
  }

  predicate Ends(step: Step) { step == End || step == Observe(SessionEnded) }

  /** The tunnel came up at least once. */
  predicate CameUp(steps: seq<Timed>) {
    steps != [] && (Last(steps) == Observe(Established) || CameUp(Front(steps)))
  }

  predicate HasEnded(steps: seq<Timed>) {
    steps != [] && (Ends(Last(steps)) || HasEnded(Front(steps)))
  }

  /** The latest word on the link was that it is being re-established. */
  predicate LinkIsDown(steps: seq<Timed>) {
    steps != [] &&
    if IsLink(Last(steps)) then Last(steps) == Observe(ReconnectStarted) else LinkIsDown(Front(steps))
  }

  function PhaseOf(steps: seq<Timed>): Phase {
    if !CameUp(steps) then Establishing else if LinkIsDown(steps) then Reconnecting else Connected
  }

  /** The transport last reported. */
  function TransportOf(steps: seq<Timed>): Transport {
    if steps == [] then Negotiating
    else match Last(steps)
      case Observe(TransportIs(t)) => t
      case _ => TransportOf(Front(steps))
  }

  /** The configuration last observed, if any was. */
  function ConfigurationOf(steps: seq<Timed>): Option<Option<nat>> {
    if steps == [] then None
    else match Last(steps)
      case Observe(Configuration(c)) => Some(c)
      case _ => ConfigurationOf(Front(steps))
  }

  /** How often an observed configuration differed from the one before it. */
  function Revisions(steps: seq<Timed>): nat {
    if steps == [] then 0
    else match Last(steps)
      case Observe(Configuration(c)) =>
        Revisions(Front(steps)) + Count(ConfigurationOf(Front(steps)) != Some(c))
      case _ => Revisions(Front(steps))
  }

  /** Whether collection was last switched on. */
  predicate CollectionOf(steps: seq<Timed>) {
    steps != [] &&
    match Last(steps)
    case Toggle(on) => on
    case _ => CollectionOf(Front(steps))
  }

  /** How often collection was switched over. */
  function Switches(steps: seq<Timed>): nat {
    if steps == [] then 0
    else match Last(steps)
      case Toggle(on) => Switches(Front(steps)) + Count(on != CollectionOf(Front(steps)))
      case _ => Switches(Front(steps))
  }

  // --- the monitor agrees ---

  predicate Shows(o: Observation, steps: seq<Timed>) {
    && o.phase == PhaseOf(steps)
    && (o.started.Some? <==> CameUp(steps))
    && o.transport == TransportOf(steps)
    && (o.configurationObserved <==> ConfigurationOf(steps).Some?)
    && o.configuration == (if ConfigurationOf(steps).Some? then ConfigurationOf(steps).value else None)
    && o.configurationRevision == Revisions(steps)
    && o.enabled == CollectionOf(steps)
    && o.generation == Switches(steps)
  }

  predicate Agrees(o: Observation, steps: seq<Timed>) {
    && (o.finished <==> HasEnded(steps))
    && (!o.finished ==> Shows(o, steps))
    && (o.finished ==> o.phase == Ended && o.transport == Unavailable && !o.enabled)
  }

  lemma LinkShows(o: Observation, steps: seq<Timed>, t: Timed, now: nat)
    requires steps != [] && steps[|steps| - 1] == t && !o.finished && Shows(o, Front(steps)) && IsLink(t.step)
    ensures Shows(Effect(o, t.step, now), steps) && !Effect(o, t.step, now).finished
  {
  }

  lemma ReportShows(o: Observation, steps: seq<Timed>, t: Timed, now: nat)
    requires steps != [] && steps[|steps| - 1] == t && !o.finished && Shows(o, Front(steps))
    requires t.step.Observe? && (t.step.event.Configuration? || t.step.event.TransportIs?)
    ensures Shows(Effect(o, t.step, now), steps) && !Effect(o, t.step, now).finished
  {
  }

  lemma CollectionShows(o: Observation, steps: seq<Timed>, t: Timed, now: nat)
    requires steps != [] && steps[|steps| - 1] == t && !o.finished && Shows(o, Front(steps))
    requires t.step.Toggle? || t.step.Request? || t.step.Wait? || (t.step.Observe? && t.step.event.Statistics?)
    ensures Shows(Effect(o, t.step, now), steps) && !Effect(o, t.step, now).finished
  {
  }

  lemma EventAgrees(o: Observation, steps: seq<Timed>, now: nat)
    requires steps != [] && Agrees(o, Front(steps)) && Last(steps).Observe?
    ensures Agrees(Apply(o, Last(steps).event, now), steps)
  {
    var t := steps[|steps| - 1];
    if !o.finished && !Ends(t.step) {
      if IsLink(t.step) { LinkShows(o, steps, t, now); }
      else if !t.step.event.Statistics? { ReportShows(o, steps, t, now); }
      else { CollectionShows(o, steps, t, now); }
    }
  }

  lemma OtherAgrees(o: Observation, steps: seq<Timed>, now: nat)
    requires steps != [] && Agrees(o, Front(steps)) && !Last(steps).Observe?
    ensures Agrees(Effect(o, Last(steps), now), steps)
  {
    var t := steps[|steps| - 1];
    if !o.finished && !Ends(t.step) { CollectionShows(o, steps, t, now); }
  }

  lemma NextEventAgrees(s: State, steps: seq<Timed>)
    requires steps != [] && Agrees(s.o, Front(steps)) && Last(steps).Observe?
    ensures Agrees(Next(s, steps[|steps| - 1]).o, steps)
  {
    EventAgrees(s.o, steps, s.clock + steps[|steps| - 1].delay);
  }

  lemma NextOtherAgrees(s: State, steps: seq<Timed>)
    requires steps != [] && Agrees(s.o, Front(steps)) && !Last(steps).Observe?
    ensures Agrees(Next(s, steps[|steps| - 1]).o, steps)
  {
    OtherAgrees(s.o, steps, s.clock + steps[|steps| - 1].delay);
  }

  lemma NextAgrees(s: State, steps: seq<Timed>)
    requires steps != [] && Agrees(s.o, Front(steps))
    ensures Agrees(Next(s, steps[|steps| - 1]).o, steps)
  {
    if Last(steps).Observe? { NextEventAgrees(s, steps); } else { NextOtherAgrees(s, steps); }
  }

  lemma {:induction false} RunExtends(s: State, steps: seq<Timed>)
    requires steps != []
    ensures Run(s, steps) == Next(Run(s, Front(steps)), steps[|steps| - 1])
    decreases |steps|
  {
    if |steps| == 1 {
      assert Front(steps) == [] && steps[1..] == [];
    } else {
      assert Front(steps)[0] == steps[0] && Front(steps)[1..] == Front(steps[1..]);
      RunExtends(Next(s, steps[0]), steps[1..]);
    }
  }

  lemma {:induction false} RunAgrees(clock: nat, steps: seq<Timed>)
    ensures Agrees(Run(Initial(clock), steps).o, steps)
    decreases |steps|
  {
    if steps != [] {
      RunAgrees(clock, Front(steps));
      RunExtends(Initial(clock), steps);
      NextAgrees(Run(Initial(clock), Front(steps)), steps);
    }
  }

  // --- the guarantees ---

  /**
   Until the end, the phase is Establishing before the first Established, Reconnecting
   while the latest word on the link is that it is being re-established, and Connected
   otherwise; transport and configuration are the last ones reported, the
   configuration's revision counts its changes, and the generation that fences samples
   counts how often collection was switched over.
   */
  lemma ShowsWhatWasReported(clock: nat, steps: seq<Timed>)
    requires !HasEnded(steps)
    ensures var o := Run(Initial(clock), steps).o;
            && !o.finished
            && o.phase == PhaseOf(steps)
            && o.transport == TransportOf(steps)
            && o.configuration == (if ConfigurationOf(steps).Some? then ConfigurationOf(steps).value else None)
            && o.configurationRevision == Revisions(steps)
            && o.enabled == CollectionOf(steps)
            && o.generation == Switches(steps)
  {
    RunAgrees(clock, steps);
  }

  /** After an end the tunnel shows as ended, without transport or collection. */
  lemma ShowsTheEnd(clock: nat, steps: seq<Timed>)
    requires HasEnded(steps)
    ensures var o := Run(Initial(clock), steps).o;
            o.finished && o.phase == Ended && o.transport == Unavailable && !o.enabled && o.statistics == Over
  {
    RunAgrees(clock, steps);
    RunKeeps(Initial(clock), steps);
  }

  // --- samples ---

  predicate Off(o: Observation) {
    && (o.statistics == Over <==> o.finished)
    && (o.statistics == Disabled <==> !o.finished && !o.enabled)
  }

  lemma EventOff(o: Observation, e: Event, now: nat)
    requires Off(o)
    ensures Off(Apply(o, e, now))
  {
  }

  lemma OtherOff(o: Observation, step: Step, now: nat)
    requires Off(o) && !step.Observe?
    ensures Off(Effect(o, step, now))
  {
  }

  lemma NextOff(s: State, t: Timed)
    requires Off(s.o)
    ensures Off(Next(s, t).o)
  {
    var now := s.clock + t.delay;
    if t.step.Observe? { EventOff(s.o, t.step.event, now); } else { OtherOff(s.o, t.step, now); }
  }

  lemma {:induction false} RunOff(s: State, steps: seq<Timed>)
    requires Off(s.o)
    ensures Off(Run(s, steps).o)
    decreases |steps|
  {
    if steps != [] {
      NextOff(s, steps[0]);
      RunOff(Next(s, steps[0]), steps[1..]);
    }
  }

  /** Statistics read as ended exactly after an end and as disabled exactly while collection is switched off. */
  lemma OffExactly(clock: nat, steps: seq<Timed>)
    ensures var o := Run(Initial(clock), steps).o;
            && (o.statistics == Over <==> HasEnded(steps))
            && (o.statistics == Disabled <==> !HasEnded(steps) && !CollectionOf(steps))
  {
    RunAgrees(clock, steps);
    RunOff(Initial(clock), steps);
  }

  /**
   The retained sample changes only when a reply arrives that answers the pending
   request; it is then that reply, stamped with the moment and the state it is for.
   */
  lemma SampleIsTheReply(s: State, t: Timed)
    ensures var now := s.clock + t.delay;
            var after := Next(s, t).o;
            var answers := t.step.Observe? && t.step.event.Statistics? && !s.o.finished &&
                           s.o.pending.Some? && Answers(s.o, s.o.pending.value);
            if answers
            then after.statistics == Fresh &&
                 after.sample == Some(Sample(after.sequence, s.o.stateSequence, s.o.configurationRevision,
                                             Elapsed(s.o, now), t.step.event.counters, now))
            else after.sample == s.o.sample && (after.statistics == Fresh ==> s.o.statistics == Fresh)
  {
  }

  /** A request left unanswered for four seconds makes the statistics stale when the sampler next looks. */
  lemma UnansweredIsStale(clock: nat, steps: seq<Timed>, t: Timed)
    requires var s := Run(Initial(clock), steps);
             && s.o.enabled && Active(s.o) && s.o.pending.Some? && t.step.Request?
             && s.clock + t.delay >= s.o.pending.value.issued + SAMPLE_TIMEOUT
    ensures Next(Run(Initial(clock), steps), t).o.statistics == Stale
  {
  }

  /** A sampler that looks while nothing is pending asks, and remembers what the answer will be for. */
  lemma RequestIsStamped(clock: nat, steps: seq<Timed>, t: Timed)
    requires var s := Run(Initial(clock), steps);
             s.o.enabled && Active(s.o) && s.o.pending.None? && t.step == Request(Issued)
    ensures var s := Run(Initial(clock), steps);
            Next(s, t).o.pending == Some(Stamp(s.o.generation, s.o.stateSequence, s.clock + t.delay))
  {
  }

  /** A request the pipe refuses is remembered and makes the statistics stale; one not issued changes nothing. */
  lemma RefusedIsStale(clock: nat, steps: seq<Timed>, t: Timed)
    requires var s := Run(Initial(clock), steps); s.o.enabled && Active(s.o) && s.o.pending.None?
    requires t.step.Request? && !t.step.answer.Issued?
    ensures var s := Run(Initial(clock), steps);
            var o := Next(s, t).o;
            if t.step.answer.Refused? then o.requestFailed && o.statistics == Stale && o.pending.None?
            else o == s.o
  {
  }

  lemma ChangeShows(o: Observation, e: Event, now: nat)
    requires Apply(o, e, now).stateSequence != o.stateSequence && Apply(o, e, now).enabled
    ensures var after := Apply(o, e, now);
            after.statistics == (if Active(after) && after.sample.None? then Waiting else Stale)
  {
  }

  lemma OthersKeepState(o: Observation, step: Step, now: nat)
    requires !step.Observe? && Effect(o, step, now).enabled
    ensures Effect(o, step, now).stateSequence == o.stateSequence
  {
  }

  /**
   When the state the statistics are for changes while collection is on, they fall back
   to waiting on a tunnel that carries traffic and has no sample yet, and are stale otherwise.
   */
  lemma ChangeUnsettles(s: State, t: Timed)
    requires Next(s, t).o.stateSequence != s.o.stateSequence && Next(s, t).o.enabled
    ensures var o := Next(s, t).o;
            o.statistics == (if Active(o) && o.sample.None? then Waiting else Stale)
  {
    var now := s.clock + t.delay;
    if t.step.Observe? { ChangeShows(s.o, t.step.event, now); } else { OthersKeepState(s.o, t.step, now); }
  }
}
