/**
 The native command pipe: `Cancellation` remembers a cancel request, borrows the
 pipe's descriptor between attach and detach, and writes single-byte commands.
 Attachments are numbered as they are made, since descriptors are reused.
 */
module CommandPipe {
  import opened Basics

  type Attachment = nat

  datatype Pipe = Pipe(requested: bool, attached: Option<Attachment>, pending: bool)

  /** What happened, in order. `Cancelled` is a call; the entries named written are bytes on a descriptor. */
  datatype Entry =
    | Attached(at: Attachment, reported: bool)
    | Detached
    | Cancelled
    | CancelWritten(at: Attachment, ok: bool)
    | StatisticsWritten(at: Attachment)
    | StatisticsReceived

  datatype Write = Done | WouldBlock | Failed

  datatype State = State(pipe: Pipe, log: seq<Entry>, attachments: nat)

  const INITIAL := State(Pipe(false, None, false), [], 0)

  datatype Step =
    | Attach
    | Detach
    | Cancel(ok: bool)                    // whether the write, if one is made, succeeds
    | RequestStatistics(write: Write)     // how the write, if one is made, ends
    | Receive

  function AttachTo(p: Pipe, at: Attachment): (Pipe, bool) { (p.(attached := Some(at)), p.requested) }

  function DetachFrom(p: Pipe): Pipe { p.(attached := None, pending := false) }

  datatype Outcome = Issued | NotIssued | Error

  /** The new pipe, the answer, and the attachment a command byte went to. */
  function Request(p: Pipe, write: Write): (Pipe, Outcome, Option<Attachment>) {
    if p.requested || p.pending || p.attached.None? then (p, NotIssued, None)
    else match write
      case Done => (p.(pending := true), Issued, p.attached)
      case WouldBlock => (p, NotIssued, None)
      case Failed => (p, Error, None)
  }

  /** The new pipe, whether the call succeeds, and the attachment a write was tried on. */
  function CancelOn(p: Pipe, ok: bool): (Pipe, bool, Option<Attachment>) {
    if p.requested then (p, true, None)
    else (p.(requested := true), p.attached.Some? ==> ok, p.attached)
  }

  function Next(s: State, step: Step): State {
    match step
    case Attach =>
      var (pipe, reported) := AttachTo(s.pipe, s.attachments);
      State(pipe, s.log + [Attached(s.attachments, reported)], s.attachments + 1)
    case Detach => s.(pipe := DetachFrom(s.pipe), log := s.log + [Detached])
    case Cancel(ok) =>
      var (pipe, _, tried) := CancelOn(s.pipe, ok);
      var log := s.log + [Cancelled];
      s.(pipe := pipe, log := if tried.Some? then log + [CancelWritten(tried.value, ok)] else log)
    case RequestStatistics(write) =>
      var (pipe, _, wrote) := Request(s.pipe, write);
      s.(pipe := pipe, log := if wrote.Some? then s.log + [StatisticsWritten(wrote.value)] else s.log)
    case Receive => s.(pipe := s.pipe.(pending := false), log := s.log + [StatisticsReceived])
  }

  function Run(s: State, steps: seq<Step>): State
    decreases |steps|
  {
    if steps == [] then s else Run(Next(s, steps[0]), steps[1..])
  }

  // --- reading the log ---

  function Last(log: seq<Entry>): Entry
    requires log != []
  {
    log[|log| - 1]
  }

  function Front(log: seq<Entry>): seq<Entry>
    requires log != []
  {
    log[..|log| - 1]
  }

  /** The attachment open after these entries. */
  function Open(log: seq<Entry>): Option<Attachment> {
    if log == [] then None
    else match Last(log)
      case Attached(at, _) => Some(at)
      case Detached => None
      case _ => Open(Front(log))
  }

  predicate Called(log: seq<Entry>) { Cancelled in log }

  /** A statistics command is unanswered. */
  predicate Outstanding(log: seq<Entry>) {
    log != [] &&
    match Last(log)
    case StatisticsWritten(_) => true
    case Detached => false
    case StatisticsReceived => false
    case _ => Outstanding(Front(log))
  }

  function Attaches(log: seq<Entry>): nat {
    if log == [] then 0 else Attaches(Front(log)) + Count(Last(log).Attached?)
  }

  function Tells(e: Entry): set<Attachment> {
    if (e.Attached? && e.reported) || (e.CancelWritten? && e.ok) then {e.at} else {}
  }

  /** Attachments told of a cancel: at attach, or by the command byte. */
  function Informed(log: seq<Entry>): set<Attachment> {
    if log == [] then {} else Informed(Front(log)) + Tells(Last(log))
  }

  /** Attachments whose cancel command could not be written. */
  function Unwritten(log: seq<Entry>): set<Attachment> {
    if log == [] then {}
    else Unwritten(Front(log)) + (if Last(log).CancelWritten? && !Last(log).ok then {Last(log).at} else {})
  }

  /** What is promised of an entry, given everything before it. */
  predicate Fits(before: seq<Entry>, e: Entry) {
    match e
    case Attached(at, reported) => at == Attaches(before) && (reported <==> Called(before))
    case CancelWritten(at, _) =>
      before != [] && Last(before).Cancelled? && !Called(Front(before)) && Open(before) == Some(at)
    case StatisticsWritten(at) => Open(before) == Some(at) && !Called(before) && !Outstanding(before)
    case _ => true
  }

  ghost predicate WellFormed(log: seq<Entry>) {
    forall i :: 0 <= i < |log| ==> Fits(log[..i], log[i])
  }

  ghost predicate Told(log: seq<Entry>) {
    && (forall at :: at in Informed(log) ==> at < Attaches(log))
    && (forall at :: at in Unwritten(log) ==> at < Attaches(log))
    && (!Called(log) ==> Informed(log) == {} && Unwritten(log) == {})
    && (Called(log) && Open(log).Some? ==> (Open(log).value in Informed(log) <==> Open(log).value !in Unwritten(log)))
    && (Open(log).Some? ==> Open(log).value < Attaches(log))
  }

  ghost predicate Inv(s: State) {
    && s.pipe == Pipe(Called(s.log), Open(s.log), s.pipe.pending)
    && s.pipe.pending == Outstanding(s.log)
    && s.attachments == Attaches(s.log)
    && WellFormed(s.log)
    && Told(s.log)
  }

  lemma LogReads(log: seq<Entry>, e: Entry)
    ensures Last(log + [e]) == e && Front(log + [e]) == log
    ensures Open(log + [e]) == (if e.Attached? then Some(e.at) else if e.Detached? then None else Open(log))
    ensures Attaches(log + [e]) == Attaches(log) + Count(e.Attached?)
    ensures Informed(log + [e]) == Informed(log) + Tells(e)
    ensures Unwritten(log + [e]) == Unwritten(log) + (if e.CancelWritten? && !e.ok then {e.at} else {})
    ensures Outstanding(log + [e]) <==>
      e.StatisticsWritten? || (Outstanding(log) && !e.Detached? && !e.StatisticsReceived?)
  {
    assert Front(log + [e]) == log;
  }

  lemma LogGrows(log: seq<Entry>, e: Entry)
    ensures Last(log + [e]) == e && Front(log + [e]) == log
    ensures Called(log + [e]) <==> Called(log) || e == Cancelled
    ensures WellFormed(log) && Fits(log, e) ==> WellFormed(log + [e])
  {
    assert Front(log + [e]) == log;
    if WellFormed(log) && Fits(log, e) {
      forall i | 0 <= i <= |log| ensures Fits((log + [e])[..i], (log + [e])[i]) {
        assert (log + [e])[..i] == log[..i];
        if i == |log| { assert log[..i] == log; }
      }
    }
  }

  lemma FirstCancelKeeps(s: State, ok: bool)
    requires Inv(s) && !s.pipe.requested && s.pipe.attached.Some?
    ensures Inv(Next(s, Cancel(ok)))
  {
    LogGrows(s.log, Cancelled);
    LogReads(s.log, Cancelled);
    LogGrows(s.log + [Cancelled], CancelWritten(s.pipe.attached.value, ok));
    LogReads(s.log + [Cancelled], CancelWritten(s.pipe.attached.value, ok));
  }

  lemma CancelKeeps(s: State, ok: bool)
    requires Inv(s)
    ensures Inv(Next(s, Cancel(ok)))
  {
    if !s.pipe.requested && s.pipe.attached.Some? {
      FirstCancelKeeps(s, ok);
    } else {
      LogGrows(s.log, Cancelled);
      LogReads(s.log, Cancelled);
    }
  }

  lemma AttachKeeps(s: State)
    requires Inv(s)
    ensures Inv(Next(s, Attach))
  {
    LogGrows(s.log, Attached(s.attachments, s.pipe.requested));
    LogReads(s.log, Attached(s.attachments, s.pipe.requested));
  }

  lemma DetachKeeps(s: State)
    requires Inv(s)
    ensures Inv(Next(s, Detach))
  {
    LogGrows(s.log, Detached);
    LogReads(s.log, Detached);
  }

  lemma RequestKeeps(s: State, write: Write)
    requires Inv(s)
    ensures Inv(Next(s, RequestStatistics(write)))
  {
    if s.pipe.attached.Some? {
      LogGrows(s.log, StatisticsWritten(s.pipe.attached.value));
      LogReads(s.log, StatisticsWritten(s.pipe.attached.value));
    }
  }

  lemma ReceiveKeeps(s: State)
    requires Inv(s)
    ensures Inv(Next(s, Receive))
  {
    LogGrows(s.log, StatisticsReceived);
    LogReads(s.log, StatisticsReceived);
  }

  lemma StepKeeps(s: State, step: Step)
    requires Inv(s)
    ensures Inv(Next(s, step))
  {
    match step
    case Attach => AttachKeeps(s);
    case Detach => DetachKeeps(s);
    case Cancel(ok) => CancelKeeps(s, ok);
    case RequestStatistics(write) => RequestKeeps(s, write);
    case Receive => ReceiveKeeps(s);
  }

  lemma {:induction false} RunKeeps(s: State, steps: seq<Step>)
    requires Inv(s)
    ensures Inv(Run(s, steps))
    decreases |steps|
  {
    if steps != [] {
      StepKeeps(s, steps[0]);
      RunKeeps(Next(s, steps[0]), steps[1..]);
    }
  }

  function Log(steps: seq<Step>): seq<Entry> { Run(INITIAL, steps).log }

  lemma LogIsWellFormed(steps: seq<Step>)
    ensures WellFormed(Log(steps)) && Told(Log(steps))
  {
    RunKeeps(INITIAL, steps);
  }

  // --- the guarantees ---

  /** Every command byte goes to the attachment open at that moment, so none follows a detach. */
  lemma WritesAreToTheOpenPipe(steps: seq<Step>, i: nat)
    requires i < |Log(steps)| && (Log(steps)[i].CancelWritten? || Log(steps)[i].StatisticsWritten?)
    ensures Open(Log(steps)[..i]) == Some(Log(steps)[i].at)
  {
    LogIsWellFormed(steps);
  }

  /** Every attach after a cancel call reports it, and none before. */
  lemma AttachReportsExactly(steps: seq<Step>, i: nat)
    requires i < |Log(steps)| && Log(steps)[i].Attached?
    ensures Log(steps)[i].reported <==> exists j :: 0 <= j < i && Log(steps)[j] == Cancelled
  {
    LogIsWellFormed(steps);
    var log := Log(steps);
    assert Fits(log[..i], log[i]);
    if log[i].reported {
      var j :| 0 <= j < i && log[..i][j] == Cancelled;
      assert log[j] == Cancelled;
    } else {
      forall j | 0 <= j < i ensures log[j] != Cancelled { assert log[..i][j] == log[j]; }
    }
  }

  lemma NoStatisticsAfterCancel(steps: seq<Step>, i: nat, j: nat)
    requires i < j < |Log(steps)| && Log(steps)[i] == Cancelled
    ensures !Log(steps)[j].StatisticsWritten?
  {
    LogIsWellFormed(steps);
    var log := Log(steps);
    assert Fits(log[..j], log[j]);
    assert log[..j][i] == Cancelled;
  }

  /** The cancel command is written at most once in the life of the object. */
  lemma CancelIsWrittenOnce(steps: seq<Step>, i: nat, j: nat)
    requires i < j < |Log(steps)| && Log(steps)[i].CancelWritten?
    ensures !Log(steps)[j].CancelWritten?
  {
    LogIsWellFormed(steps);
    var log := Log(steps);
    assert Fits(log[..i], log[i]) && Fits(log[..j], log[j]);
    assert Last(log[..i]) == log[i - 1] == Cancelled;
    assert Front(log[..j])[i - 1] == Cancelled;
  }

  /** After a cancel, the attachment open now was told of it exactly when its own command write did not fail. */
  lemma CancelIsDelivered(steps: seq<Step>)
    requires Called(Log(steps)) && Open(Log(steps)).Some?
    ensures var at := Open(Log(steps)).value; at in Informed(Log(steps)) <==> at !in Unwritten(Log(steps))
  {
    LogIsWellFormed(steps);
  }

  const FAILED_CANCEL: seq<Step> := [Attach, Cancel(false), Cancel(true)]

  lemma FailedCancelLog()
    ensures Log(FAILED_CANCEL) == [Attached(0, false), Cancelled, CancelWritten(0, false), Cancelled]
  {
    var one := Next(INITIAL, Attach);
    var two := Next(one, Cancel(false));
    assert FAILED_CANCEL[1..] == [Cancel(false), Cancel(true)] && FAILED_CANCEL[1..][1..] == [Cancel(true)];
    assert Run(one, [Cancel(false), Cancel(true)]) == Run(two, [Cancel(true)]) == Next(two, Cancel(true));
  }

  lemma FailedCancelReads()
    ensures var log := [Attached(0, false), Cancelled, CancelWritten(0, false), Cancelled];
            Open(log) == Some(0) && 0 in Unwritten(log)
  {
    var one := [Attached(0, false)];
    var two := one + [Cancelled];
    var three := two + [CancelWritten(0, false)];
    LogReads([], Attached(0, false));
    LogReads(one, Cancelled);
    LogReads(two, CancelWritten(0, false));
    LogReads(three, Cancelled);
    assert [Attached(0, false), Cancelled, CancelWritten(0, false), Cancelled] == three + [Cancelled];
    assert [] + one == one;
  }

  /** A failed write is not tried again: an attachment can stay open without ever hearing of the cancel. */
  lemma FailedWriteIsNotRepeated()
    ensures var log := Log(FAILED_CANCEL); Called(log) && Open(log) == Some(0) && 0 !in Informed(log)
  {
    FailedCancelLog();
    FailedCancelReads();
    LogIsWellFormed(FAILED_CANCEL);
  }

  // the answers

  /**
   A statistics request is answered as issued exactly when the byte went out: a pipe is
   open, no cancel was called, nothing is unanswered, and the write succeeded. It is an
   error exactly when that write failed; otherwise nothing was written.
   */
  lemma RequestAnswersExactly(steps: seq<Step>, write: Write)
    ensures var log := Log(steps);
            var (_, answer, wrote) := Request(Run(INITIAL, steps).pipe, write);
            var writes := Open(log).Some? && !Called(log) && !Outstanding(log);
            && (answer == Issued <==> writes && write == Done)
            && (answer == Error <==> writes && write == Failed)
            && wrote == (if answer == Issued then Open(log) else None)
            && Run(INITIAL, steps + [RequestStatistics(write)]).log ==
               (if answer == Issued then log + [StatisticsWritten(Open(log).value)] else log)
  {
    RunKeeps(INITIAL, steps);
    RunExtends(INITIAL, steps, RequestStatistics(write));
  }

  /** A cancel is answered as failed exactly when it is the first, a pipe is open and its write fails. */
  lemma CancelAnswersExactly(steps: seq<Step>, ok: bool)
    ensures var log := Log(steps);
            var (_, answer, tried) := CancelOn(Run(INITIAL, steps).pipe, ok);
            && (!answer <==> !Called(log) && Open(log).Some? && !ok)
            && tried == (if Called(log) then None else Open(log))
            && Run(INITIAL, steps + [Cancel(ok)]).log ==
               log + [Cancelled] + (if tried.Some? then [CancelWritten(tried.value, ok)] else [])
  {
    RunKeeps(INITIAL, steps);
    RunExtends(INITIAL, steps, Cancel(ok));
    NothingMore(Log(steps) + [Cancelled]);
  }

  lemma {:induction false} RunExtends(s: State, steps: seq<Step>, step: Step)
    ensures Run(s, steps + [step]) == Next(Run(s, steps), step)
    decreases |steps|
  {
    if steps == [] {
      assert steps + [step] == [step] && [step][1..] == [];
    } else {
      assert (steps + [step])[0] == steps[0] && (steps + [step])[1..] == steps[1..] + [step];
      RunExtends(Next(s, steps[0]), steps[1..], step);
    }
  }

  // one statistics command at a time

  lemma {:induction false} OutstandingUntilAnswered(log: seq<Entry>, i: nat)
    requires i < |log| && log[i].StatisticsWritten? && !Outstanding(log)
    ensures exists m :: i < m < |log| && (log[m] == StatisticsReceived || log[m] == Detached)
    decreases |log|
  {
    var front := Front(log);
    if Last(log) == StatisticsReceived || Last(log) == Detached {
      assert i < |log| - 1 && (log[|log| - 1] == StatisticsReceived || log[|log| - 1] == Detached);
    } else {
      assert i < |front|;
      OutstandingUntilAnswered(front, i);
      var m :| i < m < |front| && (front[m] == StatisticsReceived || front[m] == Detached);
      assert log[m] == front[m];
    }
  }

  lemma PrefixIsWellFormed(log: seq<Entry>, n: nat)
    requires WellFormed(log) && n <= |log|
    ensures WellFormed(log[..n])
  {
    forall i | 0 <= i < n ensures Fits(log[..n][..i], log[..n][i]) {
      assert Fits(log[..i], log[i]);
      assert log[..n][..i] == log[..i];
    }
  }

  /** Once an attachment is closed, whatever is open later is a newer one. */
  lemma {:induction false} ReopenedIsNewer(log: seq<Entry>, m: nat)
    requires WellFormed(log) && m < |log| && log[m] == Detached
    ensures Open(log).Some? ==> Open(log).value >= Attaches(log[..m])
    ensures Attaches(log) >= Attaches(log[..m])
    decreases |log|
  {
    var front := Front(log);
    assert Fits(front, Last(log));
    if m == |log| - 1 {
      assert front == log[..m];
    } else {
      PrefixIsWellFormed(log, |log| - 1);
      ReopenedIsNewer(front, m);
      assert front[..m] == log[..m];
    }
  }

  lemma {:induction false} OpenIsKnown(log: seq<Entry>)
    requires WellFormed(log)
    ensures Open(log).Some? ==> Open(log).value < Attaches(log)
    decreases |log|
  {
    if log != [] {
      var front := Front(log);
      assert Fits(front, Last(log));
      PrefixIsWellFormed(log, |log| - 1);
      OpenIsKnown(front);
    }
  }

  lemma {:induction false} AttachesGrow(log: seq<Entry>, i: nat, j: nat)
    requires i <= j <= |log|
    ensures Attaches(log[..i]) <= Attaches(log[..j])
    decreases j
  {
    if i < j {
      AttachesGrow(log, i, j - 1);
      assert Front(log[..j]) == log[..j - 1];
    }
  }

  /** Between two statistics commands on one attachment there is always an answer. */
  lemma OneOutstandingCommand(steps: seq<Step>, i: nat, j: nat)
    requires i < j < |Log(steps)|
    requires Log(steps)[i].StatisticsWritten? && Log(steps)[j] == Log(steps)[i]
    ensures exists m :: i < m < j && Log(steps)[m] == StatisticsReceived
  {
    LogIsWellFormed(steps);
    var log := Log(steps);
    var before := log[..j];
    assert Fits(log[..i], log[i]) && Fits(before, log[j]);
    PrefixIsWellFormed(log, j);
    PrefixIsWellFormed(log, i);
    OutstandingUntilAnswered(before, i);
    var m :| i < m < j && (before[m] == StatisticsReceived || before[m] == Detached);
    OpenIsKnown(log[..i]);
    AttachesGrow(log, i, m);
    assert before[..m] == log[..m] && before[m] == log[m];
    if before[m] == Detached {
      ReopenedIsNewer(before, m);
    }
  }

  // --- the object ---

  class Cancellation {
    var requested: bool
    var attached: Option<Attachment>
    var pending: bool

    function View(): Pipe
      reads this
    {
      Pipe(requested, attached, pending)
    }

    constructor ()
      ensures View() == INITIAL.pipe
    {
      requested, attached, pending := false, None, false;
    }

    method Attach(at: Attachment) returns (reported: bool)
      modifies this`attached
      ensures (View(), reported) == AttachTo(old(View()), at)
    {
      attached := Some(at);
      reported := requested;
    }

    method Detach()
      modifies this`attached, this`pending
      ensures View() == DetachFrom(old(View()))
    {
      attached := None;
      pending := false;
    }

    method RequestStatistics(write: Write) returns (outcome: Outcome, wrote: Option<Attachment>)
      modifies this`pending
      ensures (View(), outcome, wrote) == Request(old(View()), write)
    {
      if requested || pending { return NotIssued, None; }
      if attached.None? { return NotIssued, None; }
      match write {
        case Done =>
          pending := true;
          return Issued, attached;
        case WouldBlock => return NotIssued, None;
        case Failed => return Error, None;
      }
    }

    method Cancel(ok: bool) returns (succeeded: bool, tried: Option<Attachment>)
      modifies this`requested
      ensures (View(), succeeded, tried) == CancelOn(old(View()), ok)
    {
      if requested { return true, None; }
      requested := true;
      if attached.Some? { return ok, attached; }
      return true, None;
    }
  }
}
