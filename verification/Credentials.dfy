/**
 The credential channel of the desktop client: credentials are issued, switched
 and revoked under single control bytes, and the whole exchange can be cancelled
 at any point where it waits.
 */
module Credentials {
  import opened Basics

  type Id = nat

  const GUI_EXITED: nat := 0
  const RENDERING_RETRY: nat := 1
  const SWITCH_BEGIN: nat := 2
  const SWITCH_COMMIT: nat := 3
  const SWITCH_CANCEL: nat := 4
  const GUI_INSTALLER: nat := 5

  /** How one wait, or one call that can fail, ends. `restart` is the restart flag read with the byte. */
  datatype Move =
    | Cancelled
    | Failed
    | Done
    | Byte(byte: nat, restart: bool)
    | EndOfInput

  /** What happened to credentials, in order. */
  datatype Event =
    | Opened(id: Id)
    | Began(id: Id)
    | Committed
    | Abandoned
    | Closed(retry: bool)

  // --- the protocol ---

  datatype Place = Opening | Writing | Reading | Answering | Issuing | Over(ok: bool)

  /** Where the channel is; `next` numbers the credentials as they are issued. */
  datatype Desk = Desk(at: Place, switching: bool, renewed: bool, next: Id)

  const START := Desk(Opening, false, false, 0)

  /** The end of one exchange: both credentials are given up, then the channel renews, returns or fails. */
  function Finish(d: Desk, ok: bool, message: Option<nat>, restart: bool): (Desk, seq<Event>) {
    var retry := ok && message == Some(RENDERING_RETRY);
    var at :=
      if !ok then Over(false)
      else if message.None? then Over(true)
      else if message.value == GUI_EXITED then (if restart then Opening else Over(true))
      else if message.value == RENDERING_RETRY then (if d.renewed then Over(false) else Opening)
      else Over(false);
    (Desk(at, false, d.renewed || retry, d.next), [Closed(retry)])
  }

  /** A write under way: done, cancelled or failed. */
  function Written(d: Desk, m: Move): (Desk, seq<Event>) {
    if m == Done then (d.(at := Reading), [])
    else Finish(d, m == Cancelled, None, false)
  }

  function Control(d: Desk, byte: nat, restart: bool): (Desk, seq<Event>) {
    if byte == GUI_INSTALLER then (d.(at := Answering), [])
    else if byte == SWITCH_BEGIN then (if d.switching then Finish(d, false, None, false) else (d.(at := Issuing), []))
    else if byte == SWITCH_COMMIT then
      (if d.switching then (d.(switching := false), [Committed]) else Finish(d, false, None, false))
    else if byte == SWITCH_CANCEL then
      (if d.switching then (d.(switching := false), [Abandoned]) else Finish(d, false, None, false))
    else Finish(d, true, Some(byte), restart)
  }

  function Step(d: Desk, m: Move): (Desk, seq<Event>) {
    match d.at
    case Opening =>
      if m == Done then (d.(at := Writing, next := d.next + 1), [Opened(d.next)]) else (d.(at := Over(false)), [])
    case Writing => Written(d, m)
    case Reading =>
      if m == Cancelled || m == EndOfInput then Finish(d, true, None, false)
      else if m.Byte? then Control(d, m.byte, m.restart)
      else Finish(d, false, None, false)
    case Answering => Written(d, m)
    case Issuing =>
      if m == Done then (d.(at := Writing, switching := true, next := d.next + 1), [Began(d.next)])
      else Finish(d, false, None, false)
    case Over(_) => (d, [])
  }

  /** Where a script leads, and what happened to credentials on the way. */
  function Trace(d: Desk, log: seq<Event>, script: seq<Move>): (Desk, seq<Event>)
    decreases |script|
  {
    if script == [] || d.at.Over? then (d, log)
    else Trace(Step(d, script[0]).0, log + Step(d, script[0]).1, script[1..])
  }

  lemma TraceStep(d: Desk, log: seq<Event>, script: seq<Move>, at: nat)
    requires at < |script| && !d.at.Over?
    ensures Trace(d, log, script[at..]) == Trace(Step(d, script[at]).0, log + Step(d, script[at]).1, script[at + 1..])
  {
    assert script[at..][0] == script[at] && script[at..][1..] == script[at + 1..];
  }

  // --- what the log means ---

  function Last(log: seq<Event>): Event
    requires log != []
  {
    log[|log| - 1]
  }

  function Front(log: seq<Event>): seq<Event>
    requires log != []
  {
    log[..|log| - 1]
  }

  /** The credential a switch has prepared and neither committed nor abandoned. */
  function Pending(log: seq<Event>): Option<Id> {
    if log != [] && Last(log).Began? then Some(Last(log).id) else None
  }

  /** The credential in force: the one last opened, unless a switch to a later one was committed. */
  function InForce(log: seq<Event>): Option<Id> {
    if log == [] then None
    else match Last(log)
      case Opened(id) => Some(id)
      case Began(_) => InForce(Front(log))
      case Committed => Pending(Front(log))
      case Abandoned => InForce(Front(log))
      case Closed(_) => None
  }

  function Unit(id: Option<Id>): set<Id> { if id.Some? then {id.value} else {} }

  function Held(log: seq<Event>): set<Id> { Unit(InForce(log)) + Unit(Pending(log)) }

  function Issued(log: seq<Event>): set<Id> {
    if log == [] then {} else Issued(Front(log)) + (if Last(log).Opened? ||
          Last(log).Began? then {Last(log).id} else {})
  }

  function Retries(log: seq<Event>): nat {
    if log == [] then 0 else Retries(Front(log)) + Count(Last(log) == Closed(true))
  }

  lemma LogGrows(log: seq<Event>, e: Event)
    ensures Last(log + [e]) == e && Front(log + [e]) == log
  {
  }

  predicate Distinct(ids: seq<Id>) { forall i, j :: 0 <= i < j < |ids| ==> ids[i] != ids[j] }

  /** Everything issued is held or has been revoked, nothing both, nothing revoked twice; ids are numbered as issued. */
  ghost predicate Balanced(log: seq<Event>, revoked: seq<Id>, next: Id) {
    && (forall id :: id in Issued(log) <==> id in Held(log) || id in revoked)
    && (forall id :: id in Held(log) ==> id !in revoked)
    && Distinct(revoked)
    && (forall id :: id in Issued(log) ==> id < next)
  }

  lemma OpenedBalances(log: seq<Event>, revoked: seq<Id>, next: Id)
    requires Balanced(log, revoked, next) && Held(log) == {}
    ensures Balanced(log + [Opened(next)], revoked, next + 1)
    ensures InForce(log + [Opened(next)]) == Some(next) && Pending(log + [Opened(next)]) == None
  {
    LogGrows(log, Opened(next));
  }

  lemma BeganBalances(log: seq<Event>, revoked: seq<Id>, next: Id)
    requires Balanced(log, revoked, next) && Pending(log).None?
    ensures Balanced(log + [Began(next)], revoked, next + 1)
    ensures InForce(log + [Began(next)]) == InForce(log) && Pending(log + [Began(next)]) == Some(next)
  {
    LogGrows(log, Began(next));
  }

  lemma CommittedBalances(log: seq<Event>, revoked: seq<Id>, next: Id)
    requires Balanced(log, revoked, next) && InForce(log).Some? && Pending(log).Some? && InForce(log) != Pending(log)
    ensures Balanced(log + [Committed], revoked + [InForce(log).value], next)
    ensures InForce(log + [Committed]) == Pending(log) && Pending(log + [Committed]) == None
  {
    LogGrows(log, Committed);
  }

  lemma AbandonedBalances(log: seq<Event>, revoked: seq<Id>, next: Id)
    requires Balanced(log, revoked, next) && Pending(log).Some? && InForce(log) != Pending(log)
    ensures Balanced(log + [Abandoned], revoked + [Pending(log).value], next)
    ensures InForce(log + [Abandoned]) == InForce(log) && Pending(log + [Abandoned]) == None
  {
    LogGrows(log, Abandoned);
  }

  function Release(log: seq<Event>): seq<Id> {
    (if InForce(log).Some? then [InForce(log).value] else []) + (if Pending(log).Some? then [Pending(log).value]
          else [])
  }

  lemma ClosedBalances(log: seq<Event>, revoked: seq<Id>, next: Id, retry: bool)
    requires Balanced(log, revoked, next) && (Pending(log).Some? ==> InForce(log) != Pending(log))
    ensures Balanced(log + [Closed(retry)], revoked + Release(log), next)
    ensures Held(log + [Closed(retry)]) == {}
  {
    LogGrows(log, Closed(retry));
  }

  /** The local state of `serve` while an exchange is under way. */
  datatype Exchange = Exchange(session: Id, pending: Option<Id>, log: seq<Event>, revoked: seq<Id>, next: Id)

  function DeskOf(x: Exchange, at: Place, renewed: bool): Desk { Desk(at, x.pending.Some?, renewed, x.next) }

  ghost predicate Consistent(x: Exchange) {
    && Balanced(x.log, x.revoked, x.next)
    && InForce(x.log) == Some(x.session) && Pending(x.log) == x.pending && x.pending != Some(x.session)
  }

  datatype Ending = Suspended(at: Place) | Ended(ok: bool, message: Option<nat>, restart: bool)

  /** What a trace that reached this ending goes on to do. */
  function After(x: Exchange, ending: Ending, renewed: bool, rest: seq<Move>): (Desk, seq<Event>) {
    match ending
    case Suspended(at) => (DeskOf(x, at, renewed), x.log)
    case Ended(ok, message, restart) =>
      var (d, e) := Finish(DeskOf(x, Reading, renewed), ok, message, restart);
      Trace(d, x.log + e, rest)
  }

  /** A switch: the replacement is issued and held beside the credential in force. */
  function Begin(x: Exchange): Exchange {
    x.(pending := Some(x.next), log := x.log + [Began(x.next)], next := x.next + 1)
  }

  function Commit(x: Exchange): Exchange
    requires x.pending.Some?
  {
    x.(session := x.pending.value, pending := None, log := x.log + [Committed], revoked := x.revoked + [x.session])
  }

  function Abandon(x: Exchange): Exchange
    requires x.pending.Some?
  {
    x.(pending := None, log := x.log + [Abandoned], revoked := x.revoked + [x.pending.value])
  }

  lemma SwitchConsistent(x: Exchange)
    requires Consistent(x)
    ensures x.pending.None? ==> Consistent(Begin(x)) && Retries(Begin(x).log) == Retries(x.log)
    ensures x.pending.Some? ==>
      && Consistent(Commit(x)) && Retries(Commit(x).log) == Retries(x.log)
      && Consistent(Abandon(x)) && Retries(Abandon(x).log) == Retries(x.log)
  {
    LogGrows(x.log, Began(x.next));
    LogGrows(x.log, Committed);
    LogGrows(x.log, Abandoned);
    if x.pending.None? {
      BeganBalances(x.log, x.revoked, x.next);
    } else {
      CommittedBalances(x.log, x.revoked, x.next);
      AbandonedBalances(x.log, x.revoked, x.next);
    }
  }

  /** The part of `serve` under the cancellation: from the first frame to a message, a cancellation or a failure. */
  method RunExchange(script: seq<Move>, start: nat, opening: Exchange, renewed: bool)
    returns (x: Exchange, ending: Ending, at: nat)
    requires start <= |script| && Consistent(opening) && opening.pending.None?
    ensures start <= at <= |script| && (ending.Suspended? ==> !ending.at.Over? && ending.at != Opening)
    ensures Consistent(x) && Retries(x.log) == Retries(opening.log)
    ensures Trace(DeskOf(opening, Writing, renewed), opening.log, script[start..]) == After(x, ending, renewed,
          script[at..])
  {
    x, at := opening, start;
    var place := Writing;
    while true
      invariant start <= at <= |script|
      invariant place == Writing || place == Reading || place == Answering || place == Issuing
      invariant place == Issuing ==> x.pending.None?
      invariant Consistent(x) && Retries(x.log) == Retries(opening.log)
      invariant Trace(DeskOf(opening, Writing, renewed), opening.log, script[start..]) ==
                Trace(DeskOf(x, place, renewed), x.log, script[at..])
      decreases |script| - at
    {
      if at == |script| { return x, Suspended(place), at; }
      var move := script[at];
      TraceStep(DeskOf(x, place, renewed), x.log, script, at);
      assert x.log + [] == x.log;
      SwitchConsistent(x);
      at := at + 1;
      if place == Writing || place == Answering {
        if move != Done { return x, Ended(move == Cancelled, None, false), at; }
        place := Reading;
      } else if place == Issuing {
        if move != Done { return x, Ended(false, None, false), at; }
        x, place := Begin(x), Writing;
      } else if move == Cancelled || move == EndOfInput {
        return x, Ended(true, None, false), at;
      } else if !move.Byte? {
        return x, Ended(false, None, false), at;
      } else if move.byte == GUI_INSTALLER {
        place := Answering;
      } else if move.byte == SWITCH_BEGIN {
        if x.pending.Some? { return x, Ended(false, None, false), at; }
        place := Issuing;
      } else if move.byte == SWITCH_COMMIT {
        if x.pending.None? { return x, Ended(false, None, false), at; }
        x := Commit(x);
      } else if move.byte == SWITCH_CANCEL {
        if x.pending.None? { return x, Ended(false, None, false), at; }
        x := Abandon(x);
      } else {
        return x, Ended(true, Some(move.byte), move.restart), at;
      }
    }
  }

  /** Giving up both credentials at the end of an exchange. */
  method RevokeBoth(x: Exchange, retry: bool) returns (revoked: seq<Id>)
    requires Consistent(x)
    ensures Balanced(x.log + [Closed(retry)], revoked, x.next) && Held(x.log + [Closed(retry)]) == {}
  {
    ClosedBalances(x.log, x.revoked, x.next, retry);
    revoked := x.revoked + [x.session];
    if x.pending.Some? { revoked := revoked + [x.pending.value]; }
    assert revoked == x.revoked + Release(x.log);
  }

  /** What follows an exchange that ended: another one, a return or a failure. */
  method Decide(ok: bool, message: Option<nat>, restart: bool, renewed: bool)
      returns (at: Place, again: bool, retry: bool)
    ensures forall d: Desk :: d.renewed == renewed ==>
      Finish(d, ok, message, restart) == (Desk(at, false, again, d.next), [Closed(retry)])
    ensures at == Opening || at.Over?
    ensures at == Opening ==> Count(again) == Count(renewed) + Count(retry)
    ensures retry && renewed ==> at == Over(false)
  {
    retry := ok && message == Some(RENDERING_RETRY);
    again := renewed || retry;
    if !ok { at := Over(false); }
    else if message.None? { at := Over(true); }
    else if message.value == GUI_EXITED && restart { at := Opening; }
    else if message.value == GUI_EXITED { at := Over(true); }
    else if message.value == RENDERING_RETRY { at := if renewed then Over(false) else Opening; }
    else { at := Over(false); }
  }

  /** Everything `serve` knows between two exchanges. */
  datatype Idle = Idle(log: seq<Event>, revoked: seq<Id>, next: Id, renewed: bool)

  ghost predicate Settled(s: Idle) {
    Balanced(s.log, s.revoked, s.next) && Held(s.log) == {} && Retries(s.log) == Count(s.renewed)
  }

  /** What holds wherever the channel stops. */
  ghost predicate Accounted(end: Desk, log: seq<Event>, revoked: seq<Id>) {
    && (forall id :: id in Issued(log) <==> id in Held(log) || id in revoked)
    && (forall id :: id in Held(log) ==> id !in revoked)
    && Distinct(revoked)
    && (end.at.Over? ==> Held(log) == {})
    && Retries(log) <= 2 && (Retries(log) == 2 ==> end.at == Over(false))
  }

  lemma SettledIsAccounted(s: Idle, end: Desk)
    requires Settled(s)
    ensures Accounted(end, s.log, s.revoked)
  {
  }

  lemma ConsistentIsAccounted(x: Exchange, end: Desk)
    requires Consistent(x) && Retries(x.log) <= 1 && !end.at.Over?
    ensures Accounted(end, x.log, x.revoked)
  {
  }

  lemma ClosedIsAccounted(log: seq<Event>, revoked: seq<Id>, next: Id, end: Desk)
    requires Balanced(log, revoked, next) && Held(log) == {}
    requires Retries(log) <= 2 && (Retries(log) == 2 ==> end.at == Over(false))
    ensures Accounted(end, log, revoked)
  {
  }

  lemma OpenedIsConsistent(s: Idle)
    requires Settled(s)
    ensures var x := Exchange(s.next, None, s.log + [Opened(s.next)], s.revoked, s.next + 1);
            Consistent(x) && Retries(x.log) == Retries(s.log)
  {
    OpenedBalances(s.log, s.revoked, s.next);
    LogGrows(s.log, Opened(s.next));
  }

  /** One round of the outer loop: a credential is issued, an exchange runs, both credentials are given up. */
  method OneRound(script: seq<Move>, start: nat, s: Idle) returns (end: Desk, t: Idle, at: nat)
    requires start < |script| && Settled(s)
    ensures start < at <= |script|
    ensures Trace(Desk(Opening, false, s.renewed, s.next), s.log, script[start..]) ==
            if end.at == Opening then Trace(end, t.log, script[at..]) else (end, t.log)
    ensures end.at == Opening ==> Settled(t) && end == Desk(Opening, false, t.renewed, t.next)
    ensures Accounted(end, t.log, t.revoked)
  {
    TraceStep(Desk(Opening, false, s.renewed, s.next), s.log, script, start);
    NothingMore(s.log);
    at := start + 1;
    if script[start] != Done {
      end := Desk(Over(false), false, s.renewed, s.next);
      SettledIsAccounted(s, end);
      return end, s, at;
    }
    OpenedIsConsistent(s);
    var opening := Exchange(s.next, None, s.log + [Opened(s.next)], s.revoked, s.next + 1);
    var x, ending, now := RunExchange(script, at, opening, s.renewed);
    at := now;
    if ending.Suspended? {
      end := DeskOf(x, ending.at, s.renewed);
      ConsistentIsAccounted(x, end);
      return end, Idle(x.log, x.revoked, x.next, s.renewed), at;
    }
    var place, again, retry := Decide(ending.ok, ending.message, ending.restart, s.renewed);
    LogGrows(x.log, Closed(retry));
    var revoked := RevokeBoth(x, retry);
    end := Desk(place, false, again, x.next);
    t := Idle(x.log + [Closed(retry)], revoked, x.next, again);
    ClosedIsAccounted(t.log, revoked, x.next, end);
  }

  /** `serve`, against any script of what each wait and each fallible call yields. */
  method Serve(script: seq<Move>) returns (end: Desk, log: seq<Event>, revoked: seq<Id>)
    ensures (end, log) == Trace(START, [], script)
    // at every wait, what was issued and not revoked is the credential in force and the pending one
    ensures forall id :: id in Issued(log) <==> id in Held(log) || id in revoked
    ensures forall id :: id in Held(log) ==> id !in revoked
    // no credential is revoked twice, and every way out has revoked them all
    ensures Distinct(revoked)
    ensures end.at.Over? ==> Held(log) == {}
    // rendering recovery is granted once
    ensures Retries(log) <= 2 && (Retries(log) == 2 ==> end.at == Over(false))
  {
    var s := Idle([], [], 0, false);
    var at := 0;
    while at < |script|
      invariant 0 <= at <= |script|
      invariant Settled(s)
      invariant Trace(START, [], script) == Trace(Desk(Opening, false, s.renewed, s.next), s.log, script[at..])
    {
      var t, now;
      end, t, now := OneRound(script, at, s);
      if end.at != Opening { return end, t.log, t.revoked; }
      s, at := t, now;
    }
    end := Desk(Opening, false, s.renewed, s.next);
    SettledIsAccounted(s, end);
    return end, s.log, s.revoked;
  }

  // --- what the bytes mean to the client ---

  lemma {:induction false} TraceAppend(d: Desk, log: seq<Event>, script: seq<Move>, more: seq<Move>)
    requires !Trace(d, log, script).0.at.Over?
    ensures Trace(d, log, script + more) == Trace(Trace(d, log, script).0, Trace(d, log, script).1, more)
    decreases |script|
  {
    if script == [] {
      NothingMore(more);
    } else {
      assert (script + more)[0] == script[0] && (script + more)[1..] == script[1..] + more;
      if !d.at.Over? {
        TraceAppend(Step(d, script[0]).0, log + Step(d, script[0]).1, script[1..], more);
      }
    }
  }

  lemma TraceOne(d: Desk, log: seq<Event>, m: Move, more: seq<Move>)
    requires !d.at.Over?
    ensures Trace(d, log, [m] + more) == Trace(Step(d, m).0, log + Step(d, m).1, more)
  {
    assert ([m] + more)[0] == m && ([m] + more)[1..] == more;
  }

  /** The client asks for a switch with byte 2, gets the new credential, and then sends one more byte. */
  function Switch(byte: nat): seq<Move> {
    [Byte(2, false)] + ([Done] + ([Done] + ([Byte(byte, false)] + [])))
  }

  lemma SwitchTraces(d: Desk, log: seq<Event>, byte: nat)
    requires d.at == Reading && !d.switching && (byte == 3 || byte == 4)
    ensures Trace(d, log, Switch(byte)) ==
            (d.(next := d.next + 1), log + [Began(d.next)] + [if byte == 3 then Committed else Abandoned])
  {
    var begun := d.(switching := true, next := d.next + 1);
    TraceOne(d, log, Byte(2, false), [Done] + ([Done] + ([Byte(byte, false)] + [])));
    NothingMore(log);
    TraceOne(d.(at := Issuing), log, Done, [Done] + ([Byte(byte, false)] + []));
    TraceOne(begun.(at := Writing), log + [Began(d.next)], Done, [Byte(byte, false)] + []);
    NothingMore(log + [Began(d.next)]);
    TraceOne(begun, log + [Began(d.next)], Byte(byte, false), []);
  }

  lemma SwitchReads(log: seq<Event>, id: Id)
    ensures InForce(log + [Began(id)] + [Committed]) == Some(id)
    ensures InForce(log + [Began(id)] + [Abandoned]) == InForce(log)
    ensures Issued(log + [Began(id)] + [Committed]) == Issued(log + [Began(id)] + [Abandoned]) == Issued(log) + {id}
  {
    LogGrows(log, Began(id));
    LogGrows(log + [Began(id)], Committed);
    LogGrows(log + [Began(id)], Abandoned);
  }

  /**
   A switch that is begun and committed (byte 3) puts the newly issued credential in
   force; one that is begun and cancelled (byte 4) leaves the old one in force. Either
   way exactly one credential was issued and exactly one is left.
   */
  lemma SwitchDoesWhatItSays(script: seq<Move>, byte: nat)
    requires Trace(START, [], script).0.at == Reading && !Trace(START, [], script).0.switching
    requires byte == 3 || byte == 4
    ensures var (d, log) := Trace(START, [], script);
            var (after, longer) := Trace(START, [], script + Switch(byte));
            && after.at == Reading && !after.switching
            && Issued(longer) == Issued(log) + {d.next}
            && InForce(longer) == (if byte == 3 then Some(d.next) else InForce(log))
            && Pending(longer) == None
  {
    var (d, log) := Trace(START, [], script);
    TraceAppend(START, [], script, Switch(byte));
    SwitchTraces(d, log, byte);
    SwitchReads(log, d.next);
    LogGrows(log + [Began(d.next)], if byte == 3 then Committed else Abandoned);
  }

  /** From any wait for a byte: 0 ends well unless a restart was asked for, 1 renews once, end of input ends well. */
  lemma EndingDoesWhatItSays(script: seq<Move>, restart: bool)
    requires Trace(START, [], script).0.at == Reading
    ensures var (d, log) := Trace(START, [], script);
            && Trace(START, [], script + [Byte(0, restart)]).0.at == (if restart then Opening else Over(true))
            && Trace(START, [], script + [Byte(1, restart)]).0.at == (if d.renewed then Over(false) else Opening)
            && Trace(START, [], script + [EndOfInput]).0.at == Over(true)
            && Trace(START, [], script + [Cancelled]).0.at == Over(true)
            && Trace(START, [], script + [Failed]).0.at == Over(false)
  {
    forall m: Move
      ensures var (d, log) := Trace(START, [], script);
              Trace(START, [], script + [m]) == (Step(d, m).0, log + Step(d, m).1)
    {
      TraceOneMore(script, m);
    }
  }

  lemma TraceOneMore(script: seq<Move>, m: Move)
    requires !Trace(START, [], script).0.at.Over?
    ensures var (d, log) := Trace(START, [], script);
            Trace(START, [], script + [m]) == (Step(d, m).0, log + Step(d, m).1)
  {
    var (d, log) := Trace(START, [], script);
    TraceAppend(START, [], script, [m]);
    TraceOne(d, log, m, []);
    NothingMore([m]);
  }

  /** A byte out of turn ends the channel in failure: a second begin, a commit or cancel of nothing, an unknown byte. */
  lemma OutOfTurnFails(script: seq<Move>, byte: nat, restart: bool)
    requires Trace(START, [], script).0.at == Reading
    requires if Trace(START, [], script).0.switching then byte == 2 else byte == 3 || byte == 4
    ensures Trace(START, [], script + [Byte(byte, restart)]).0.at == Over(false)
  {
    TraceOneMore(script, Byte(byte, restart));
  }

  lemma UnknownByteFails(script: seq<Move>, byte: nat, restart: bool)
    requires Trace(START, [], script).0.at == Reading && byte > 5
    ensures Trace(START, [], script + [Byte(byte, restart)]).0.at == Over(false)
  {
    TraceOneMore(script, Byte(byte, restart));
  }

  /** The installer query (byte 5) is answered and leaves every credential as it was. */
  lemma InstallerIsAnswered(script: seq<Move>, restart: bool)
    requires Trace(START, [], script).0.at == Reading
    ensures Trace(START, [], script + [Byte(5, restart)]).0.at == Answering
    ensures Trace(START, [], script + [Byte(5, restart)] + [Done]) == Trace(START, [], script)
  {
    var (d, log) := Trace(START, [], script);
    TraceOneMore(script, Byte(5, restart));
    TraceOneMore(script + [Byte(5, restart)], Done);
    NothingMore(log);
  }

  /** A failure to issue or to write ends the channel in failure; a cancellation during a write ends it well. */
  lemma InterruptionDoesWhatItSays(script: seq<Move>)
    requires var at := Trace(START, [], script).0.at; !at.Over? && at != Reading
    ensures var at := Trace(START, [], script).0.at;
            && Trace(START, [], script + [Failed]).0.at == Over(false)
            && (at == Writing || at == Answering ==> Trace(START, [], script + [Cancelled]).0.at == Over(true))
  {
    TraceOneMore(script, Failed);
    TraceOneMore(script, Cancelled);
  }
}
