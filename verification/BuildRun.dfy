/** The life of a build's executors: Run, retryCreateExecutor, run and handleError
    (common/build.go), as a step system of the main goroutine and the goroutine that
    executes the script, under cancellation, timeout and abort. */
module BuildRun {
  import opened Base

  const PREPARATION_RETRIES := 3

  datatype Err = BuildError(reason: string) | SystemError

  /** context.Canceled or context.DeadlineExceeded. */
  datatype ContextErr = Canceled | DeadlineExceeded

  datatype RuntimeState = StatePending | StateRunning | StateFinished | StateCanceled | StateTerminated | StateTimedout

  /** What the trace is told. */
  datatype Status = JobSucceeded | JobFailed(reason: string)

  datatype Event =
    | Created(e: nat)
    | Prepared(e: nat, err: Option<Err>)
    | StageRun(e: nat)
    | ScriptEnded(e: nat, err: Option<Err>)
    | ExecutorFinished(e: nat)
    | Cleaned(e: nat)
    | Reported(status: Status)
    | ContextEnded(kind: ContextErr)
    | NoExecutor                                    // no provider, or it created nothing

  datatype Main =
    | Begin
    | Creating(tries: nat)                          // retryCreateExecutor, provider.Create
    | Preparing(e: nat, tries: nat)                 // executor.Prepare
    | Dropping(e: nat, tries: nat, cause: Err)      // Prepare failed, executor.Cleanup next
    | Waiting(e: nat)                               // run: the select
    | Joining(e: nat, err: Option<Err>)             // run: <-buildFinish after a signal
    | Terminal(e: nat, err: Option<Err>)            // waitForTerminal
    | Finishing(e: nat, err: Option<Err>)           // executor.Finish next
    | Reporting(last: Option<nat>, err: Option<Err>)  // deferred: setTraceStatus
    | Cleaning(last: Option<nat>, err: Option<Err>)   // deferred: executor.Cleanup
    | Done(last: Option<nat>, err: Option<Err>)

  /** The goroutine that executes the script and the channel it reports on.  What it
      reports is used by the select, or only waited for after a signal. */
  datatype Script = NotStarted | Executing(e: nat) | Returned(err: Option<Err>) | Received(used: bool)

  datatype State = State(
    main: Main, script: Script, context: Option<ContextErr>, runtime: RuntimeState, created: nat, log: seq<Event>)
  {
    function Emit(ev: Event): State {
      this.(log := log + [ev])
    }

    function To(m: Main): State {
      this.(main := m)
    }
  }

  function Start(): State {
    State(Begin, NotStarted, None, StatePending, 0, [])
  }

  datatype Action =
    | ContextDone(kind: ContextErr)         // cancel function called, or the timeout
    | Lookup(found: bool)                   // GetExecutor
    | CreateExecutor(ok: bool)
    | PrepareReturns(err: Option<Err>)
    | Drop
    | RunStage
    | ScriptReturns(err: Option<Err>)
    | SelectContext
    | SelectSignal                          // SystemInterrupt
    | SelectFinish
    | Join
    | TerminalDone
    | FinishExecutor
    | Report
    | CleanupExecutor

  predicate Enabled(s: State, a: Action) {
    match a
    case ContextDone(_) => s.context.None?
    case Lookup(_) => s.main.Begin?
    case CreateExecutor(_) => s.main.Creating?
    case PrepareReturns(_) => s.main.Preparing?
    case Drop => s.main.Dropping?
    case RunStage => s.script.Executing?
    case ScriptReturns(_) => s.script.Executing?
    case SelectContext => s.main.Waiting? && s.context.Some?
    case SelectSignal => s.main.Waiting?
    case SelectFinish => s.main.Waiting? && s.script.Returned?
    case Join => s.main.Joining? && s.script.Returned?
    case TerminalDone => s.main.Terminal?
    case FinishExecutor => s.main.Finishing?
    case Report => s.main.Reporting?
    case CleanupExecutor => s.main.Cleaning?
  }

  /** handleError, on a context error. */
  function HandledErr(c: ContextErr): Err {
    if c.Canceled? then BuildError("") else BuildError("job_execution_timeout")
  }

  function HandledState(c: ContextErr): RuntimeState {
    if c.Canceled? then StateCanceled else StateTimedout
  }

  /** setTraceStatus. */
  function StatusOf(err: Option<Err>): Status {
    if err.None? then JobSucceeded
    else if err.value.BuildError? then
      JobFailed(if err.value.reason == "" then "script_failure" else err.value.reason)
    else JobFailed("runner_system_failure")
  }

  /** After the Cleanup of an executor that could not be prepared. */
  function AfterDrop(s: State, tries: nat, cause: Err): State {
    if cause.BuildError? then s.To(Reporting(None, Some(cause)))
    else if s.context.Some? then
      s.(main := Reporting(None, Some(HandledErr(s.context.value))), runtime := HandledState(s.context.value))
    else if tries + 1 < PREPARATION_RETRIES then s.To(Creating(tries + 1))
    else s.To(Reporting(None, Some(cause)))
  }

  function Apply(s: State, a: Action): State
    requires Enabled(s, a)
  {
    match a
    case ContextDone(kind) => s.(context := Some(kind)).Emit(ContextEnded(kind))
    case Lookup(found) =>
      if found then s.To(Creating(0)) else s.To(Reporting(None, Some(SystemError))).Emit(NoExecutor)
    case CreateExecutor(ok) =>
      if ok then s.To(Preparing(s.created, s.main.tries)).(created := s.created + 1).Emit(Created(s.created))
      else s.To(Reporting(None, Some(SystemError))).Emit(NoExecutor)
    case PrepareReturns(err) =>
      var u := s.Emit(Prepared(s.main.e, err));
      if err.None? then u.(main := Waiting(s.main.e), script := Executing(s.main.e), runtime := StateRunning)
      else u.To(Dropping(s.main.e, s.main.tries, err.value))
    case Drop => AfterDrop(s.Emit(Cleaned(s.main.e)), s.main.tries, s.main.cause)
    case RunStage => s.Emit(StageRun(s.script.e))
    case ScriptReturns(err) => s.(script := Returned(err)).Emit(ScriptEnded(s.script.e, err))
    case SelectContext =>
      s.(main := Joining(s.main.e, Some(HandledErr(s.context.value))), runtime := HandledState(s.context.value))
    case SelectSignal => s.(main := Joining(s.main.e, Some(SystemError)), runtime := StateTerminated)
    case SelectFinish =>
      s.(main := Terminal(s.main.e, s.script.err), script := Received(true), runtime := StateFinished)
    case Join => s.(main := Terminal(s.main.e, s.main.err), script := Received(false))
    case TerminalDone => s.To(Finishing(s.main.e, s.main.err))
    case FinishExecutor => s.To(Reporting(Some(s.main.e), s.main.err)).Emit(ExecutorFinished(s.main.e))
    case Report => s.To(Cleaning(s.main.last, s.main.err)).Emit(Reported(StatusOf(s.main.err)))
    case CleanupExecutor =>
      var u := s.To(Done(s.main.last, s.main.err));
      if s.main.last.Some? then u.Emit(Cleaned(s.main.last.value)) else u
  }

  function After(s: State, acts: seq<Action>): Option<State> {
    if acts == [] then Some(s)
    else
      match After(s, acts[..|acts| - 1])
      case None => None
      case Some(u) =>
        var a := acts[|acts| - 1];
        if Enabled(u, a) then Some(Apply(u, a)) else None
  }

  ghost predicate Reachable(s: State) {
    exists acts :: After(Start(), acts) == Some(s)
  }

  // ----- The life of an executor, read off the log -----

  datatype Life =
    | Unborn
    | New
    | Unprepared        // Prepare failed
    | Working           // prepared, its script running
    | ScriptOver
    | Finished
    | Gone(prepared: bool)
    | Broken            // anything out of order

  /** What one event does to a life; any event that does not belong there breaks it. */
  function Live(l: Life, ev: Event): Life {
    match ev
    case Created(_) => if l.Unborn? then New else Broken
    case Prepared(_, err) => if l.New? then (if err.None? then Working else Unprepared) else Broken
    case StageRun(_) => if l.Working? then Working else Broken
    case ScriptEnded(_, _) => if l.Working? then ScriptOver else Broken
    case ExecutorFinished(_) => if l.ScriptOver? then Finished else Broken
    case Cleaned(_) => if l.Finished? then Gone(true) else if l.Unprepared? then Gone(false) else Broken
    case Reported(_) => l
    case ContextEnded(_) => l
    case NoExecutor => l
  }

  predicate About(ev: Event, e: nat) {
    !ev.Reported? && !ev.ContextEnded? && !ev.NoExecutor? && ev.e == e
  }

  function LifeOf(log: seq<Event>, e: nat): Life {
    if log == [] then Unborn
    else
      var before := LifeOf(log[..|log| - 1], e);
      var ev := log[|log| - 1];
      if About(ev, e) then Live(before, ev) else before
  }

  function Reports(log: seq<Event>): seq<Status> {
    if log == [] then []
    else
      var before := Reports(log[..|log| - 1]);
      var ev := log[|log| - 1];
      if ev.Reported? then before + [ev.status] else before
  }

  lemma LifeAfterEvent(log: seq<Event>, ev: Event, e: nat)
    ensures LifeOf(log + [ev], e) == if About(ev, e) then Live(LifeOf(log, e), ev) else LifeOf(log, e)
    ensures Reports(log + [ev]) == if ev.Reported? then Reports(log) + [ev.status] else Reports(log)
  {
    assert (log + [ev])[..|log|] == log;
  }

  // ----- What holds in every reachable state -----

  /** The executor at work, if any, and the life it has at this point. */
  function Current(s: State): Option<(nat, Life)> {
    match s.main
    case Preparing(e, _) => Some((e, New))
    case Dropping(e, _, _) => Some((e, Unprepared))
    case Waiting(e) => Some((e, if s.script.Executing? then Working else ScriptOver))
    case Joining(e, _) => Some((e, if s.script.Executing? then Working else ScriptOver))
    case Terminal(e, _) => Some((e, ScriptOver))
    case Finishing(e, _) => Some((e, ScriptOver))
    case Reporting(last, _) => if last.Some? then Some((last.value, Finished)) else None
    case Cleaning(last, _) => if last.Some? then Some((last.value, Finished)) else None
    case Done(last, _) => if last.Some? then Some((last.value, Gone(true))) else None
    case _ => None
  }

  function Expected(s: State, e: nat): Life {
    if e >= s.created then Unborn
    else if Current(s).Some? && Current(s).value.0 == e then Current(s).value.1
    else Gone(false)
  }

  /** The retry counter counts the executors created; the one at work is the last. */
  ghost predicate ControlInv(s: State) {
    && s.created <= PREPARATION_RETRIES
    && (s.main.Begin? ==> s.created == 0)
    && (s.main.Creating? ==> s.created == s.main.tries < PREPARATION_RETRIES)
    && (s.main.Preparing? || s.main.Dropping? ==> s.created == s.main.tries + 1)
    && (Current(s).Some? ==> Current(s).value.0 + 1 == s.created)
    && (s.main.Waiting? || s.main.Joining? <==> s.script.Executing? || s.script.Returned?)
    && (s.script.Executing? ==> (s.main.Waiting? || s.main.Joining?) && s.script.e == s.main.e)
  }

  ghost predicate LifeInv(s: State) {
    forall e: nat :: LifeOf(s.log, e) == Expected(s, e)
  }

  ghost predicate ReportInv(s: State) {
    Reports(s.log) == if s.main.Cleaning? || s.main.Done? then [StatusOf(s.main.err)] else []
  }

  ghost predicate Inv(s: State) {
    ControlInv(s) && LifeInv(s) && ReportInv(s)
  }

  lemma StepKeepsControl(s: State, a: Action)
    requires ControlInv(s) && Enabled(s, a)
    ensures ControlInv(Apply(s, a))
  {
  }

  /** A step without an event changes nobody's life. */
  lemma SilentLives(s: State, a: Action, e: nat)
    requires ControlInv(s) && Enabled(s, a) && EventOf(s, a).None?
    ensures Expected(Apply(s, a), e) == Expected(s, e)
  {
  }

  lemma SilentStep(s: State, a: Action)
    requires Inv(s) && Enabled(s, a) && EventOf(s, a).None?
    ensures LifeInv(Apply(s, a)) && ReportInv(Apply(s, a))
  {
    var u := Apply(s, a);
    LogOfStep(s, a);
    forall e: nat
      ensures LifeOf(u.log, e) == Expected(u, e)
    {
      SilentLives(s, a, e);
      assert LifeOf(s.log, e) == Expected(s, e);
    }
    ReportOfStep(s, a);
  }

  /** From s to u every life goes on as the event says. */
  ghost predicate LivesOn(s: State, u: State, ev: Event) {
    forall e: nat :: Expected(u, e) == LifeAfter(s, ev, e)
  }

  function LifeAfter(s: State, ev: Event, e: nat): Life {
    if About(ev, e) then Live(Expected(s, e), ev) else Expected(s, e)
  }

  lemma OneEvent(s: State, u: State, ev: Event)
    requires LifeInv(s) && u.log == s.log + [ev] && LivesOn(s, u, ev)
    ensures LifeInv(u)
    ensures Reports(u.log) == if ev.Reported? then Reports(s.log) + [ev.status] else Reports(s.log)
  {
    forall e: nat
      ensures LifeOf(u.log, e) == Expected(u, e)
    {
      LifeAfterEvent(s.log, ev, e);
      assert LifeOf(s.log, e) == Expected(s, e);
      assert Expected(u, e) == LifeAfter(s, ev, e);
    }
    LifeAfterEvent(s.log, ev, 0);
  }

  lemma ContextLives(s: State, kind: ContextErr)
    requires ControlInv(s) && Enabled(s, ContextDone(kind))
    ensures LivesOn(s, Apply(s, ContextDone(kind)), ContextEnded(kind))
  {
  }

  lemma NotFoundLives(s: State)
    requires ControlInv(s) && Enabled(s, Lookup(false))
    ensures LivesOn(s, Apply(s, Lookup(false)), NoExecutor)
  {
  }

  lemma CreatedLives(s: State, ok: bool)
    requires ControlInv(s) && Enabled(s, CreateExecutor(ok))
    ensures LivesOn(s, Apply(s, CreateExecutor(ok)), if ok then Created(s.created) else NoExecutor)
  {
  }

  lemma PreparedLives(s: State, err: Option<Err>)
    requires ControlInv(s) && Enabled(s, PrepareReturns(err))
    ensures LivesOn(s, Apply(s, PrepareReturns(err)), Prepared(s.main.e, err))
  {
  }

  lemma DroppedLives(s: State)
    requires ControlInv(s) && Enabled(s, Drop)
    ensures LivesOn(s, Apply(s, Drop), Cleaned(s.main.e))
  {
  }

  lemma StageLives(s: State)
    requires ControlInv(s) && Enabled(s, RunStage)
    ensures LivesOn(s, Apply(s, RunStage), StageRun(s.script.e))
  {
  }

  lemma ScriptLives(s: State, err: Option<Err>)
    requires ControlInv(s) && Enabled(s, ScriptReturns(err))
    ensures LivesOn(s, Apply(s, ScriptReturns(err)), ScriptEnded(s.script.e, err))
  {
  }

  lemma FinishedLives(s: State)
    requires ControlInv(s) && Enabled(s, FinishExecutor)
    ensures LivesOn(s, Apply(s, FinishExecutor), ExecutorFinished(s.main.e))
  {
  }

  lemma ReportedLives(s: State)
    requires ControlInv(s) && Enabled(s, Report)
    ensures LivesOn(s, Apply(s, Report), Reported(StatusOf(s.main.err)))
  {
  }

  lemma CleanedLives(s: State)
    requires ControlInv(s) && Enabled(s, CleanupExecutor) && s.main.last.Some?
    ensures LivesOn(s, Apply(s, CleanupExecutor), Cleaned(s.main.last.value))
  {
  }

  /** The event of a step, if it has one. */
  function EventOf(s: State, a: Action): Option<Event>
    requires Enabled(s, a)
  {
    match a
    case ContextDone(kind) => Some(ContextEnded(kind))
    case Lookup(found) => if found then None else Some(NoExecutor)
    case CreateExecutor(ok) => Some(if ok then Created(s.created) else NoExecutor)
    case PrepareReturns(err) => Some(Prepared(s.main.e, err))
    case Drop => Some(Cleaned(s.main.e))
    case RunStage => Some(StageRun(s.script.e))
    case ScriptReturns(err) => Some(ScriptEnded(s.script.e, err))
    case FinishExecutor => Some(ExecutorFinished(s.main.e))
    case Report => Some(Reported(StatusOf(s.main.err)))
    case CleanupExecutor => if s.main.last.Some? then Some(Cleaned(s.main.last.value)) else None
    case _ => None
  }

  lemma LogOfStep(s: State, a: Action)
    requires Enabled(s, a)
    ensures Apply(s, a).log == if EventOf(s, a).Some? then s.log + [EventOf(s, a).value] else s.log
  {
  }

  lemma LivesOfStep(s: State, a: Action)
    requires ControlInv(s) && Enabled(s, a) && EventOf(s, a).Some?
    ensures LivesOn(s, Apply(s, a), EventOf(s, a).value)
  {
    match a
    case ContextDone(kind) => ContextLives(s, kind);
    case Lookup(found) => NotFoundLives(s);
    case CreateExecutor(ok) => CreatedLives(s, ok);
    case PrepareReturns(err) => PreparedLives(s, err);
    case Drop => DroppedLives(s);
    case RunStage => StageLives(s);
    case ScriptReturns(err) => ScriptLives(s, err);
    case FinishExecutor => FinishedLives(s);
    case Report => ReportedLives(s);
    case CleanupExecutor => CleanedLives(s);
  }

  /** The report is made once, by the step that leaves Reporting. */
  lemma ReportOfStep(s: State, a: Action)
    requires ReportInv(s) && Enabled(s, a)
    requires Reports(Apply(s, a).log) == if a.Report? then [StatusOf(s.main.err)] else Reports(s.log)
    ensures ReportInv(Apply(s, a))
  {
  }

  lemma EventStep(s: State, a: Action)
    requires Inv(s) && Enabled(s, a) && EventOf(s, a).Some?
    ensures LifeInv(Apply(s, a)) && ReportInv(Apply(s, a))
  {
    LogOfStep(s, a);
    LivesOfStep(s, a);
    OneEvent(s, Apply(s, a), EventOf(s, a).value);
    assert a.Report? ==> Reports(s.log) == [];
    ReportOfStep(s, a);
  }

  lemma {:induction false} RunKeepsInv(acts: seq<Action>)
    ensures var r := After(Start(), acts);
            r.Some? ==> Inv(r.value)
  {
    if acts != [] {
      var before, a := acts[..|acts| - 1], acts[|acts| - 1];
      RunKeepsInv(before);
      var r := After(Start(), before);
      if r.Some? && Enabled(r.value, a) {
        StepKeepsControl(r.value, a);
        if EventOf(r.value, a).None? {
          SilentStep(r.value, a);
        } else {
          EventStep(r.value, a);
        }
      }
    }
  }

  lemma ReachableInv(s: State)
    requires Reachable(s)
    ensures Inv(s)
  {
    var acts :| After(Start(), acts) == Some(s);
    RunKeepsInv(acts);
  }

  // ----- The promises -----

  /** At every moment every executor's history is in order: created, prepared once,
      stages run only after a successful Prepare, Finish once and only after the
      script goroutine is over, Cleanup once and last, and directly after a Prepare
      that failed. */
  lemma ExecutorLivesInOrder(s: State, e: nat)
    requires Reachable(s)
    ensures !LifeOf(s.log, e).Broken?
    ensures LifeOf(s.log, e).Unborn? <==> e >= s.created
    ensures s.created <= PREPARATION_RETRIES
  {
    ReachableInv(s);
    assert LifeOf(s.log, e) == Expected(s, e);
  }

  /** When Run is over every executor that was created has been cleaned up, the one
      that was prepared after its Finish and at most one was, and the trace was told
      exactly one status, the one that the returned error calls for. */
  lemma DoneIsClean(s: State, e: nat)
    requires Reachable(s) && s.main.Done? && e < s.created
    ensures LifeOf(s.log, e) == Gone(s.main.last == Some(e))
    ensures Reports(s.log) == [StatusOf(s.main.err)]
  {
    ReachableInv(s);
    assert LifeOf(s.log, e) == Expected(s, e);
  }

  /** Nothing happens to an executor once it is cleaned up. */
  lemma NothingAfterCleanup(s: State, a: Action, e: nat)
    requires Reachable(s) && Enabled(s, a) && LifeOf(s.log, e).Gone?
    ensures forall i :: |s.log| <= i < |Apply(s, a).log| ==> !About(Apply(s, a).log[i], e)
  {
    ReachableInv(s);
    assert LifeOf(s.log, e) == Expected(s, e);
  }

  /** What the scripts that ended returned. */
  function ScriptResults(log: seq<Event>): seq<Option<Err>> {
    if log == [] then []
    else
      var before := ScriptResults(log[..|log| - 1]);
      var ev := log[|log| - 1];
      if ev.ScriptEnded? then before + [ev.err] else before
  }

  lemma ResultsOfStep(s: State, a: Action)
    requires Enabled(s, a)
    ensures ScriptResults(Apply(s, a).log) ==
            if a.ScriptReturns? then ScriptResults(s.log) + [a.err] else ScriptResults(s.log)
  {
    LogOfStep(s, a);
    if EventOf(s, a).Some? {
      assert (s.log + [EventOf(s, a).value])[..|s.log|] == s.log;
    }
  }

  /** A script ends once at most.  The error of the build is the script's own where the
      select took what the script returned, and some error wherever else it ends. */
  ghost predicate ResultInv(s: State) {
    var results := ScriptResults(s.log);
    && (match s.script
        case NotStarted => results == []
        case Executing(_) => results == []
        case Returned(err) => results == [err]
        case Received(_) => |results| == 1)
    && (match s.main
        case Waiting(_) => s.script.Executing? || s.script.Returned?
        case Joining(_, err) =>
          (s.script.Executing? || s.script.Returned?) && err.Some? && s.runtime != StateFinished
        case Terminal(_, err) => EndedWith(s, results, err)
        case Finishing(_, err) => EndedWith(s, results, err)
        case Reporting(last, err) => if last.Some? then EndedWith(s, results, err) else NeverRan(s, err)
        case Cleaning(last, err) => if last.Some? then EndedWith(s, results, err) else NeverRan(s, err)
        case Done(last, err) => if last.Some? then EndedWith(s, results, err) else NeverRan(s, err)
        case _ => s.script.NotStarted? && s.runtime == StatePending)
  }

  /** The script was received; what it returned is the build's error if it was used. */
  predicate EndedWith(s: State, results: seq<Option<Err>>, err: Option<Err>) {
    && s.script.Received?
    && (s.script.used <==> s.runtime == StateFinished)
    && (s.script.used ==> results == [err])
    && (!s.script.used ==> err.Some?)
  }

  predicate NeverRan(s: State, err: Option<Err>) {
    s.script.NotStarted? && err.Some? && s.runtime != StateFinished
  }

  lemma StepKeepsResult(s: State, a: Action)
    requires ResultInv(s) && Enabled(s, a)
    ensures ResultInv(Apply(s, a))
  {
    ResultsOfStep(s, a);
  }

  lemma {:induction false} RunKeepsResult(acts: seq<Action>)
    ensures var r := After(Start(), acts);
            r.Some? ==> ResultInv(r.value)
  {
    if acts != [] {
      var before, a := acts[..|acts| - 1], acts[|acts| - 1];
      RunKeepsResult(before);
      var r := After(Start(), before);
      if r.Some? && Enabled(r.value, a) {
        StepKeepsResult(r.value, a);
      }
    }
  }

  /** Success is reported if and only if the select took the script's own return and
      that was no error: never for a script that failed, and never after a cancel, a
      timeout or an abort was noticed, even if the script then returned without error.
      A build that ends as finished is reported as its script's result calls for. */
  lemma SuccessMeansFinished(s: State)
    requires Reachable(s) && s.main.Done?
    ensures JobSucceeded in Reports(s.log) <==> s.script == Received(true) && ScriptResults(s.log) == [None]
    ensures s.script == Received(true) <==> s.runtime == StateFinished
    ensures s.runtime == StateFinished ==>
              && s.main.last.Some? && |ScriptResults(s.log)| == 1
              && Reports(s.log) == [StatusOf(ScriptResults(s.log)[0])]
  {
    ReachableInv(s);
    var acts :| After(Start(), acts) == Some(s);
    RunKeepsResult(acts);
  }

  /** How the build's state and its error go together. */
  ghost predicate CauseInv(s: State) {
    match s.main
    case Begin => s.runtime == StatePending
    case Creating(_) => s.runtime == StatePending
    case Preparing(_, _) => s.runtime == StatePending
    case Dropping(_, _, _) => s.runtime == StatePending
    case Waiting(_) => s.runtime == StateRunning
    case _ => Caused(s, s.main.err)
  }

  predicate Caused(s: State, err: Option<Err>) {
    match s.runtime
    case StatePending => err.Some?
    case StateRunning => false
    case StateFinished => true
    case StateCanceled => s.context == Some(Canceled) && err == Some(BuildError(""))
    case StateTerminated => err == Some(SystemError)
    case StateTimedout => s.context == Some(DeadlineExceeded) && err == Some(BuildError("job_execution_timeout"))
  }

  lemma StepKeepsCause(s: State, a: Action)
    requires CauseInv(s) && Enabled(s, a)
    ensures CauseInv(Apply(s, a))
  {
  }

  lemma {:induction false} RunKeepsCause(acts: seq<Action>)
    ensures var r := After(Start(), acts);
            r.Some? ==> CauseInv(r.value)
  {
    if acts != [] {
      var before, a := acts[..|acts| - 1], acts[|acts| - 1];
      RunKeepsCause(before);
      var r := After(Start(), before);
      if r.Some? && Enabled(r.value, a) {
        StepKeepsCause(r.value, a);
      }
    }
  }

  /** What the trace is told names the cause: a timeout is reported as such, an abort
      as a failure of the runner, a cancel as a failed script; a build that never ran
      its script is never reported as a success. */
  lemma ReportNamesTheCause(s: State)
    requires Reachable(s) && s.main.Done?
    ensures s.runtime == StateTimedout ==>
              s.context == Some(DeadlineExceeded) && Reports(s.log) == [JobFailed("job_execution_timeout")]
    ensures s.runtime == StateCanceled ==>
              s.context == Some(Canceled) && Reports(s.log) == [JobFailed("script_failure")]
    ensures s.runtime == StateTerminated ==> Reports(s.log) == [JobFailed("runner_system_failure")]
    ensures s.runtime == StatePending ==> JobSucceeded !in Reports(s.log)
    ensures s.runtime != StateRunning
  {
    ReachableInv(s);
    var acts :| After(Start(), acts) == Some(s);
    RunKeepsCause(acts);
  }

  // ----- Which preparations are tried again -----

  /** What the calls of Prepare returned, in order. */
  function Preparations(log: seq<Event>): seq<Option<Err>> {
    if log == [] then []
    else
      var before := Preparations(log[..|log| - 1]);
      var ev := log[|log| - 1];
      if ev.Prepared? then before + [ev.err] else before
  }

  lemma PreparationsOfStep(s: State, a: Action)
    requires Enabled(s, a)
    ensures Preparations(Apply(s, a).log) ==
            if a.PrepareReturns? then Preparations(s.log) + [a.err] else Preparations(s.log)
  {
    LogOfStep(s, a);
    if EventOf(s, a).Some? {
      assert (s.log + [EventOf(s, a).value])[..|s.log|] == s.log;
    }
  }

  /** How often no executor could be had. */
  function Refusals(log: seq<Event>): nat {
    if log == [] then 0
    else Refusals(log[..|log| - 1]) + if log[|log| - 1].NoExecutor? then 1 else 0
  }

  lemma RefusalsOfStep(s: State, a: Action)
    requires Enabled(s, a)
    ensures Refusals(Apply(s, a).log) ==
            Refusals(s.log) + if a == Lookup(false) || a == CreateExecutor(false) then 1 else 0
  {
    LogOfStep(s, a);
    if EventOf(s, a).Some? {
      assert (s.log + [EventOf(s, a).value])[..|s.log|] == s.log;
    }
  }

  /** The first n were system errors. */
  ghost predicate SystemErrors(ps: seq<Option<Err>>, n: int) {
    n <= |ps| && forall i :: 0 <= i < n ==> ps[i] == Some(SystemError)
  }

  /** The last of them, and system errors before it. */
  ghost predicate EndsIn(ps: seq<Option<Err>>, last: Option<Err>) {
    0 < |ps| <= PREPARATION_RETRIES && ps[|ps| - 1] == last && SystemErrors(ps, |ps| - 1)
  }

  /** Why a build ends without a prepared executor: none could be had, at the first try
      or a later one; or a preparation failed with a build error, which is then the
      build's; or the context ended; or all tries were used up. */
  ghost predicate GaveUp(s: State, ps: seq<Option<Err>>, err: Option<Err>) {
    if Refusals(s.log) > 0 then
      Refusals(s.log) == 1 && err == Some(SystemError) && SystemErrors(ps, |ps|) && |ps| < PREPARATION_RETRIES
    else
      || (err.Some? && err.value.BuildError? && EndsIn(ps, err))
      || (s.context.Some? && err == Some(HandledErr(s.context.value)) && EndsIn(ps, Some(SystemError)))
      || (err == Some(SystemError) && EndsIn(ps, err) && |ps| == PREPARATION_RETRIES)
  }

  ghost predicate PreparedOrNot(s: State, ps: seq<Option<Err>>, last: Option<nat>, err: Option<Err>) {
    if last.Some? then EndsIn(ps, None) && Refusals(s.log) == 0 else GaveUp(s, ps, err)
  }

  ghost predicate PreparationInv(s: State) {
    var ps := Preparations(s.log);
    match s.main
    case Begin => ps == [] && s.created == 0 && Refusals(s.log) == 0
    case Creating(tries) =>
      |ps| == s.created == tries < PREPARATION_RETRIES && SystemErrors(ps, |ps|) && Refusals(s.log) == 0
    case Preparing(_, tries) =>
      |ps| + 1 == s.created == tries + 1 <= PREPARATION_RETRIES && SystemErrors(ps, |ps|) && Refusals(s.log) == 0
    case Dropping(_, tries, cause) =>
      |ps| == s.created == tries + 1 <= PREPARATION_RETRIES && EndsIn(ps, Some(cause)) && Refusals(s.log) == 0
    case Waiting(_) => EndsIn(ps, None) && Refusals(s.log) == 0
    case Joining(_, _) => EndsIn(ps, None) && Refusals(s.log) == 0
    case Terminal(_, _) => EndsIn(ps, None) && Refusals(s.log) == 0
    case Finishing(_, _) => EndsIn(ps, None) && Refusals(s.log) == 0
    case Reporting(last, err) => PreparedOrNot(s, ps, last, err)
    case Cleaning(last, err) => PreparedOrNot(s, ps, last, err)
    case Done(last, err) => PreparedOrNot(s, ps, last, err)
  }

  lemma DropKeepsPreparations(s: State)
    requires PreparationInv(s) && Enabled(s, Drop)
    ensures PreparationInv(Apply(s, Drop))
  {
    PreparationsOfStep(s, Drop);
    RefusalsOfStep(s, Drop);
  }

  lemma PrepareKeepsPreparations(s: State, err: Option<Err>)
    requires PreparationInv(s) && Enabled(s, PrepareReturns(err))
    ensures PreparationInv(Apply(s, PrepareReturns(err)))
  {
    PreparationsOfStep(s, PrepareReturns(err));
    RefusalsOfStep(s, PrepareReturns(err));
  }

  lemma StepKeepsPreparations(s: State, a: Action)
    requires PreparationInv(s) && Enabled(s, a)
    ensures PreparationInv(Apply(s, a))
  {
    match a
    case Drop => DropKeepsPreparations(s);
    case PrepareReturns(err) => PrepareKeepsPreparations(s, err);
    case _ =>
      PreparationsOfStep(s, a);
      RefusalsOfStep(s, a);
  }

  lemma {:induction false} RunKeepsPreparations(acts: seq<Action>)
    ensures var r := After(Start(), acts);
            r.Some? ==> PreparationInv(r.value)
  {
    if acts != [] {
      var before, a := acts[..|acts| - 1], acts[|acts| - 1];
      RunKeepsPreparations(before);
      var r := After(Start(), before);
      if r.Some? && Enabled(r.value, a) {
        StepKeepsPreparations(r.value, a);
      }
    }
  }

  lemma PreparationsBounded(s: State)
    requires PreparationInv(s)
    ensures |Preparations(s.log)| <= PREPARATION_RETRIES && SystemErrors(Preparations(s.log), |Preparations(s.log)| - 1)
    ensures Refusals(s.log) <= 1
  {
  }

  lemma BuildErrorIsFinal(s: State, ps: seq<Option<Err>>, last: Option<nat>, err: Option<Err>)
    requires PreparedOrNot(s, ps, last, err)
    requires ps != [] && ps[|ps| - 1].Some? && ps[|ps| - 1].value.BuildError?
    ensures err == ps[|ps| - 1]
  {
  }

  /** A preparation is tried again only after a system error: a success and a build
      error are final.  A build error of Prepare is the build's own error, and a build
      that ends without a prepared executor does so for one of the reasons of GaveUp. */
  lemma OnlySystemErrorsAreRetried(s: State)
    requires Reachable(s)
    ensures var ps := Preparations(s.log);
            && |ps| <= PREPARATION_RETRIES && SystemErrors(ps, |ps| - 1)
            && (s.main.Done? && ps != [] && ps[|ps| - 1].Some? && ps[|ps| - 1].value.BuildError? ==>
                  s.main.err == ps[|ps| - 1])
            && (s.main.Done? ==> PreparedOrNot(s, ps, s.main.last, s.main.err))
            && Refusals(s.log) <= 1
  {
    var acts :| After(Start(), acts) == Some(s);
    RunKeepsPreparations(acts);
    PreparationsBounded(s);
    var ps := Preparations(s.log);
    if s.main.Done? && ps != [] && ps[|ps| - 1].Some? && ps[|ps| - 1].value.BuildError? {
      BuildErrorIsFinal(s, ps, s.main.last, s.main.err);
    }
  }

  // ----- No new executor once the context is over -----

  /** A preparation failed, or its executor was cleaned up. */
  predicate Fails(ev: Event) {
    (ev.Prepared? && ev.err.Some?) || ev.Cleaned?
  }

  predicate Ended(log: seq<Event>) {
    exists i :: 0 <= i < |log| && log[i].ContextEnded?
  }

  /** One of these comes behind the end of the context. */
  predicate FailedLate(log: seq<Event>) {
    exists j :: 0 <= j < |log| && Fails(log[j]) && Ended(log[..j])
  }

  lemma LateAfterEvent(log: seq<Event>, ev: Event)
    ensures Ended(log + [ev]) <==> Ended(log) || ev.ContextEnded?
    ensures FailedLate(log + [ev]) <==> FailedLate(log) || (Fails(ev) && Ended(log))
  {
    var all := log + [ev];
    assert all[|log|] == ev && all[..|log|] == log;
    forall j | 0 <= j < |log|
      ensures all[j] == log[j] && all[..j] == log[..j]
    {
    }
    if Ended(log) {
      var i :| 0 <= i < |log| && log[i].ContextEnded?;
      assert all[i].ContextEnded?;
    }
    if FailedLate(log) {
      var j :| 0 <= j < |log| && Fails(log[j]) && Ended(log[..j]);
      assert Fails(all[j]) && Ended(all[..j]);
    }
  }

  /** No more executors are created from here on. */
  predicate NoMoreExecutors(m: Main) {
    m.Dropping? || m.Reporting? || m.Cleaning? || m.Done?
  }

  ghost predicate LateInv(s: State) {
    && (Ended(s.log) <==> s.context.Some?)
    && (FailedLate(s.log) ==> s.context.Some? && NoMoreExecutors(s.main))
    && (forall k :: 0 <= k < |s.log| && s.log[k].Created? ==> !FailedLate(s.log[..k]))
  }

  lemma CreatedStays(log: seq<Event>, ev: Event)
    requires forall k :: 0 <= k < |log| && log[k].Created? ==> !FailedLate(log[..k])
    requires ev.Created? ==> !FailedLate(log)
    ensures forall k :: 0 <= k < |log + [ev]| && (log + [ev])[k].Created? ==> !FailedLate((log + [ev])[..k])
  {
    var all := log + [ev];
    forall k | 0 <= k < |all| && all[k].Created?
      ensures !FailedLate(all[..k])
    {
      assert all[..k] == log[..k];
      assert k == |log| ==> log[..k] == log;
    }
  }

  lemma StepKeepsLate(s: State, a: Action)
    requires LateInv(s) && Enabled(s, a)
    ensures LateInv(Apply(s, a))
  {
    LogOfStep(s, a);
    if EventOf(s, a).Some? {
      LateAfterEvent(s.log, EventOf(s, a).value);
      CreatedStays(s.log, EventOf(s, a).value);
    }
  }

  lemma {:induction false} RunKeepsLate(acts: seq<Action>)
    ensures var r := After(Start(), acts);
            r.Some? ==> LateInv(r.value)
  {
    if acts != [] {
      var before, a := acts[..|acts| - 1], acts[|acts| - 1];
      RunKeepsLate(before);
      var r := After(Start(), before);
      if r.Some? && Enabled(r.value, a) {
        StepKeepsLate(r.value, a);
      }
    }
  }

  /** Once the context is over, by a cancel or the timeout, a preparation that fails is
      not tried again: behind it no executor is created any more. */
  lemma NoRetryAfterContext(s: State, i: nat, j: nat, k: nat)
    requires Reachable(s) && i < j < k < |s.log|
    requires s.log[i].ContextEnded? && Fails(s.log[j])
    ensures !s.log[k].Created?
  {
    var acts :| After(Start(), acts) == Some(s);
    RunKeepsLate(acts);
    var before := s.log[..k];
    assert before[j] == s.log[j] && before[..j][i] == s.log[i];
    assert FailedLate(before);
  }

  // ----- The report follows from what the select took -----

  /** Which branch of the select a run took, if it came there. */
  function Choice(acts: seq<Action>): Option<Action> {
    if acts == [] then None
    else
      var a := acts[|acts| - 1];
      if a.SelectContext? || a.SelectSignal? || a.SelectFinish? then Some(a) else Choice(acts[..|acts| - 1])
  }

  /** The error that a branch leaves the build with. */
  ghost predicate Leaves(s: State, choice: Option<Action>, err: Option<Err>) {
    match choice
    case Some(SelectContext) =>
      s.context.Some? &&
      err == Some(BuildError(if s.context == Some(DeadlineExceeded) then "job_execution_timeout" else ""))
    case Some(SelectSignal) => err == Some(SystemError)
    case Some(SelectFinish) => ScriptResults(s.log) == [err]
    case _ => false
  }

  ghost predicate ChoiceInv(s: State, choice: Option<Action>) {
    match s.main
    case Joining(_, err) => Leaves(s, choice, err) && choice != Some(SelectFinish) && !s.script.Received?
    case Terminal(_, err) => Leaves(s, choice, err) && s.script.Received?
    case Finishing(_, err) => Leaves(s, choice, err) && s.script.Received?
    case Reporting(last, err) =>
      if last.Some? then Leaves(s, choice, err) && s.script.Received? else choice.None? && s.script.NotStarted?
    case Cleaning(last, err) =>
      if last.Some? then Leaves(s, choice, err) && s.script.Received? else choice.None? && s.script.NotStarted?
    case Done(last, err) =>
      if last.Some? then Leaves(s, choice, err) && s.script.Received? else choice.None? && s.script.NotStarted?
    case Waiting(_) => choice.None? && !s.script.Received?
    case _ => choice.None? && s.script.NotStarted?
  }

  lemma StepKeepsChoice(s: State, a: Action, choice: Option<Action>)
    requires ChoiceInv(s, choice) && ResultInv(s) && Enabled(s, a)
    ensures ChoiceInv(Apply(s, a), if a.SelectContext? || a.SelectSignal? || a.SelectFinish? then Some(a) else choice)
  {
    ResultsOfStep(s, a);
  }

  lemma {:induction false} RunKeepsChoice(acts: seq<Action>)
    ensures var r := After(Start(), acts);
            r.Some? ==> ChoiceInv(r.value, Choice(acts))
  {
    if acts != [] {
      var before, a := acts[..|acts| - 1], acts[|acts| - 1];
      RunKeepsChoice(before);
      RunKeepsResult(before);
      var r := After(Start(), before);
      if r.Some? && Enabled(r.value, a) {
        StepKeepsChoice(r.value, a, Choice(before));
      }
    }
  }

  /** What the trace is told follows from the branch of the select that the run took: a
      signal is a failure of the runner, the end of the context a timeout or a cancel,
      and otherwise the script's own result decides, with the reason it names.  A run that
      never came to the select had no executor. */
  lemma ReportFollowsSelect(acts: seq<Action>)
    requires After(Start(), acts).Some? && After(Start(), acts).value.main.Done?
    ensures var s := After(Start(), acts).value;
            match Choice(acts)
            case Some(SelectSignal) => Reports(s.log) == [JobFailed("runner_system_failure")]
            case Some(SelectContext) =>
              && s.context.Some?
              && Reports(s.log) ==
                 [JobFailed(if s.context == Some(DeadlineExceeded) then "job_execution_timeout" else "script_failure")]
            case Some(SelectFinish) =>
              && |ScriptResults(s.log)| == 1
              && Reports(s.log) == [match ScriptResults(s.log)[0]
                                    case None => JobSucceeded
                                    case Some(SystemError) => JobFailed("runner_system_failure")
                                    case Some(BuildError(reason)) =>
                                      JobFailed(if reason == "" then "script_failure" else reason)]
            case _ => s.main.last.None? && JobSucceeded !in Reports(s.log)
  {
    RunKeepsChoice(acts);
    RunKeepsInv(acts);
    RunKeepsResult(acts);
  }

  // ----- Every run comes to its end -----

  function MainRank(m: Main): nat {
    match m
    case Begin => 40
    case Creating(tries) => 20 + 3 * (PREPARATION_RETRIES - Min(tries, PREPARATION_RETRIES))
    case Preparing(_, tries) => 19 + 3 * (PREPARATION_RETRIES - Min(tries, PREPARATION_RETRIES))
    case Dropping(_, tries, _) => 18 + 3 * (PREPARATION_RETRIES - Min(tries, PREPARATION_RETRIES))
    case Waiting(_) => 12
    case Joining(_, _) => 10
    case Terminal(_, _) => 8
    case Finishing(_, _) => 7
    case Reporting(_, _) => 6
    case Cleaning(_, _) => 5
    case Done(_, _) => 0
  }

  /** What is left to do, the stages of the script aside. */
  function Rank(s: State): nat {
    MainRank(s.main) + (if s.script.Executing? then 1 else 0) + (if s.context.None? then 1 else 0)
  }

  lemma StepsCountDown(s: State, a: Action)
    requires ControlInv(s) && Enabled(s, a) && !a.RunStage?
    ensures Rank(Apply(s, a)) < Rank(s)
  {
  }

  /** All steps of a run but the stages that the script executes. */
  function StepsBesideStages(acts: seq<Action>): nat {
    if acts == [] then 0
    else StepsBesideStages(acts[..|acts| - 1]) + if acts[|acts| - 1].RunStage? then 0 else 1
  }

  lemma StagesKeepRank(s: State, a: Action)
    requires Enabled(s, a) && a.RunStage?
    ensures Rank(Apply(s, a)) == Rank(s)
  {
  }

  /** Run ends under every behaviour of provider, executor, script, context and signals:
      beside the script's stages no run has more than 41 steps, and until it is done the
      run can go on, by a step other than a stage or the end of the context. */
  lemma {:induction false} RunTerminates(acts: seq<Action>)
    requires After(Start(), acts).Some?
    ensures var s := After(Start(), acts).value;
            && StepsBesideStages(acts) + Rank(s) <= 41
            && (!s.main.Done? ==> exists a: Action :: Enabled(s, a) && !a.RunStage? && !a.ContextDone?)
  {
    if acts != [] {
      var before := acts[..|acts| - 1];
      RunTerminates(before);
      RunKeepsInv(before);
      var s, a := After(Start(), before).value, acts[|acts| - 1];
      if a.RunStage? {
        StagesKeepRank(s, a);
      } else {
        StepsCountDown(s, a);
      }
    }
    RunKeepsInv(acts);
    if !After(Start(), acts).value.main.Done? {
      GoesOn(After(Start(), acts).value);
    }
  }

  lemma GoesOn(s: State)
    requires ControlInv(s) && !s.main.Done?
    ensures exists a: Action :: Enabled(s, a) && !a.RunStage? && !a.ContextDone?
  {
    var a := match s.main
      case Begin => Lookup(true)
      case Creating(_) => CreateExecutor(true)
      case Preparing(_, _) => PrepareReturns(None)
      case Dropping(_, _, _) => Drop
      case Waiting(_) => SelectSignal
      case Joining(_, _) => if s.script.Returned? then Join else ScriptReturns(None)
      case Terminal(_, _) => TerminalDone
      case Finishing(_, _) => FinishExecutor
      case Reporting(_, _) => Report
      case Cleaning(_, _) => CleanupExecutor;
    assert Enabled(s, a);
  }
}
