/** The conversation between a job's trace client (network/trace.go) and the
    coordinator, as a step system: the watcher, the call that finishes the job,
    a network that may lose, delay and repeat patches, and the coordinator. */
module TraceProtocol {
  import opened Base
  import opened Decimal
  import opened PatchResponse

  datatype JobState = Running | Success | Failed

  /** How a job ends: Success() or Fail(err, reason). */
  datatype Outcome = Succeeds | Fails(reason: string)

  datatype Patch = Patch(offset: nat, content: Bytes) {
    function End(): nat {
      offset + |content|
    }
  }

  /** Where the watch loop is. */
  datatype Watcher =
    | Select                      // waiting for a tick or for the finish
    | Patching(id: nat)           // incrementalUpdate, PatchTrace called
    | Updating                    // the patch part succeeded, sendUpdate next
    | Captured(st: JobState)      // sendUpdate has read the state under the lock
    | AwaitingUpdate(st: JobState)
    | AwaitingFinish              // aborted, waits for the finish
    | Gone

  /** Where the one call of finish is. */
  datatype Finisher =
    | NotCalled
    | Closing                     // buffer.Close
    | Announcing                  // finished <- true
    | Checking                    // anyTraceToSend
    | Sending                     // sendPatch about to read the buffer
    | FinalPatching(id: nat)
    | Status                      // finalTraceUpdate is over
    | FinalCaptured(st: JobState)
    | FinalAwaiting(st: JobState)
    | Done

  datatype Event =
    | WatcherPatch(id: nat)
    | WatcherUpdate(st: JobState, reason: string, held: Bytes)   // with what the coordinator then held
    | TurnEnded(us: UpdateState, aborted: bool)                  // a turn of the watcher, by its last answer
    | FinisherPatch(id: nat)
    | FinisherReply(reply: Option<Response>)                     // to its patch
    | FinisherUpdate(st: JobState, reason: string, held: Bytes)
    | FinisherAnswer(us: UpdateState)                            // to a forced update

  /** The bytes: the client's buffer and offset, the network, the coordinator. */
  datatype Wire = Wire(
    maxPatch: nat,
    published: Bytes,             // buffer.Bytes()
    sentTrace: int,
    panicked: bool,               // a slice expression out of range
    nextId: nat,
    patches: map<nat, Patch>,     // every patch ever put on the network
    stored: Bytes,                // the coordinator's copy
    replies: set<(nat, Response)>)
  {
    function Publish(text: Bytes): Wire {
      this.(published := published + text)
    }

    /** The first half of sendPatch, up to the call. */
    function BeginPatch(): Begin {
      if |published| == sentTrace then NothingToSend
      else if sentTrace < 0 || sentTrace > |published| then OutOfRange
      else
        var content := published[sentTrace..];
        var part := if |content| > maxPatch then content[..maxPatch] else content;
        if part == [] then NothingToSend else Send(Patch(sentTrace, part))
    }

    function Put(p: Patch): Wire {
      this.(nextId := nextId + 1, patches := patches[nextId := p])
    }

    /** The second half of sendPatch: sentTrace moves on success and mismatch. */
    function Move(id: nat, reply: Option<Response>): (Wire, UpdateState)
      requires id in patches
    {
      var p := patches[id];
      var (offset, us) := ReadReply(p.offset, |p.content|, reply);
      (if us == UpdateSucceeded || us == UpdateRangeMismatch then this.(sentTrace := offset) else this, us)
    }

    /** A call ends with a reply to its own patch, or with an error of the client's. */
    predicate ReplyFor(id: nat, reply: Option<Response>) {
      id in patches && (reply.Some? ==> (id, reply.value) in replies)
    }

    /** A patch is appended only where the stored trace ends.  202 says that it was
        appended, 416 carries the stored length or no range at all; any other
        status and any job state may come with either. */
    predicate Truthful(id: nat, accept: bool, r: Response) {
      && id in patches
      && (accept ==> patches[id].offset == |stored|)
      && (r.statusCode == STATUS_ACCEPTED ==> accept)
      && (r.statusCode == STATUS_RANGE_NOT_SATISFIABLE ==>
            !accept && (r.remoteRange == RangeHeader(|stored|) || r.remoteRange == []))
    }

    function Deliver(id: nat, accept: bool, r: Response): Wire
      requires id in patches
    {
      this.(stored := if accept then stored + patches[id].content else stored, replies := replies + {(id, r)})
    }
  }

  datatype Begin = NothingToSend | OutOfRange | Send(patch: Patch)

  datatype State = State(
    wire: Wire,
    closed: bool,                 // the buffer
    state: JobState,
    reason: string,
    sentState: JobState,
    cancelFunc: bool,             // set and not yet called
    cancelSet: bool,              // it was set at some time
    watcher: Watcher,
    finisher: Finisher,
    finishRuns: nat,
    outcome: Option<Outcome>,     // of the first call that found the job running
    gaveUp: bool,                 // finalTraceUpdate returned on abort or not-found
    open: int,                    // calls of the client begun and not returned
    log: seq<Event>)

  function Start(maxPatch: nat): State {
    State(Wire(maxPatch, [], 0, false, 0, map[], [], {}),
          false, Running, "", Running, false, false, Select, NotCalled, 0, None, false, 0, [])
  }

  // ----- The world around the two loops -----

  datatype Outside =
    | Publish(text: Bytes)
    | SetCancelFunc
    | Finish(o: Outcome)          // a call of Success or Fail, from anywhere
    | Deliver(id: nat, accept: bool, response: Response)

  predicate OutsideEnabled(s: State, a: Outside) {
    match a
    case Publish(_) => !s.closed
    case SetCancelFunc => true
    case Finish(_) => true
    case Deliver(id, accept, r) => s.wire.Truthful(id, accept, r)
  }

  function OutsideStep(s: State, a: Outside): State
    requires OutsideEnabled(s, a)
  {
    match a
    case Publish(text) => s.(wire := s.wire.Publish(text))
    case SetCancelFunc => s.(cancelFunc := true, cancelSet := true)
    case Finish(o) => FinishCalled(s, o)
    case Deliver(id, accept, r) => s.(wire := s.wire.Deliver(id, accept, r))
  }

  /** Fail: only the call that finds the job running decides and goes on to finish. */
  function FinishCalled(s: State, o: Outcome): State {
    if s.state != Running then s
    else
      s.(state := if o.Succeeds? then Success else Failed,
         reason := if o.Fails? then o.reason else s.reason,
         outcome := Some(o), finisher := Closing, finishRuns := s.finishRuns + 1)
  }

  // ----- The watch loop -----

  datatype Watching =
    | Tick
    | PatchReply(reply: Option<Response>)
    | ReadState(refresh: bool)
    | SendUpdate
    | UpdateReply(us: UpdateState)

  predicate WatcherEnabled(s: State, a: Watching) {
    match a
    case Tick => s.watcher.Select?
    case PatchReply(reply) => s.watcher.Patching? && s.wire.ReplyFor(s.watcher.id, reply)
    case ReadState(_) => s.watcher.Updating?
    case SendUpdate => s.watcher.Captured?
    case UpdateReply(_) => s.watcher.AwaitingUpdate?
  }

  function WatcherStep(s: State, a: Watching): State
    requires WatcherEnabled(s, a)
  {
    match a
    case Tick =>
      (match s.wire.BeginPatch()
       case NothingToSend => s.(watcher := Updating)
       case OutOfRange => s.(wire := s.wire.(panicked := true))
       case Send(p) =>
         var id := s.wire.nextId;
         s.(wire := s.wire.Put(p), watcher := Patching(id), open := s.open + 1, log := s.log + [WatcherPatch(id)]))
    case PatchReply(reply) =>
      var (w, us) := s.wire.Move(s.watcher.id, reply);
      if us == UpdateSucceeded then s.(wire := w, watcher := Updating, open := s.open - 1)
      else EndTurn(s, w, us, s.sentState)
    case ReadState(refresh) =>
      if s.state == s.sentState && !refresh then s.(watcher := Select) else s.(watcher := Captured(s.state))
    case SendUpdate =>
      s.(watcher := AwaitingUpdate(s.watcher.st), open := s.open + 1,
         log := s.log + [WatcherUpdate(s.watcher.st, s.reason, s.wire.stored)])
    case UpdateReply(us) =>
      EndTurn(s, s.wire, us, if us == UpdateSucceeded then s.watcher.st else s.sentState)
  }

  /** The last call of a turn returns: an abort answer with a cancel function to call
      ends the loop's work. */
  function EndTurn(s: State, w: Wire, us: UpdateState, told: JobState): State {
    var abort := us == UpdateAbort && s.cancelFunc;
    s.(wire := w, sentState := told, open := s.open - 1,
       cancelFunc := s.cancelFunc && !abort,
       watcher := if abort then AwaitingFinish else Select,
       log := s.log + [TurnEnded(us, abort)])
  }

  // ----- finish -----

  datatype Finishing =
    | CloseBuffer(text: Bytes)    // the process loop publishes what was pending
    | Rendezvous
    | CheckTrace
    | SendFinalPatch
    | FinalPatchReply(reply: Option<Response>)
    | ReadFinalState
    | SendFinalUpdate
    | FinalUpdateReply(us: UpdateState)

  predicate FinisherEnabled(s: State, a: Finishing) {
    match a
    case CloseBuffer(_) => s.finisher.Closing?
    case Rendezvous => s.finisher.Announcing? && (s.watcher.Select? || s.watcher.AwaitingFinish?)
    case CheckTrace => s.finisher.Checking?
    case SendFinalPatch => s.finisher.Sending?
    case FinalPatchReply(reply) => s.finisher.FinalPatching? && s.wire.ReplyFor(s.finisher.id, reply)
    case ReadFinalState => s.finisher.Status?
    case SendFinalUpdate => s.finisher.FinalCaptured?
    case FinalUpdateReply(_) => s.finisher.FinalAwaiting?
  }

  function FinisherStep(s: State, a: Finishing): State
    requires FinisherEnabled(s, a)
  {
    match a
    case CloseBuffer(text) => s.(wire := s.wire.Publish(text), closed := true, finisher := Announcing)
    case Rendezvous => s.(watcher := Gone, finisher := Checking)
    case CheckTrace => s.(finisher := if |s.wire.published| != s.wire.sentTrace then Sending else Status)
    case SendFinalPatch =>
      (match s.wire.BeginPatch()
       case NothingToSend => s.(finisher := Checking)
       case OutOfRange => s.(wire := s.wire.(panicked := true))
       case Send(p) =>
         var id := s.wire.nextId;
         s.(wire := s.wire.Put(p), finisher := FinalPatching(id), open := s.open + 1,
            log := s.log + [FinisherPatch(id)]))
    case FinalPatchReply(reply) =>
      var (w, us) := s.wire.Move(s.finisher.id, reply);
      var over := us == UpdateAbort || us == UpdateNotFound;
      s.(wire := w, finisher := if over then Status else Checking, gaveUp := s.gaveUp || over, open := s.open - 1,
         log := s.log + [FinisherReply(reply)])
    case ReadFinalState => s.(finisher := FinalCaptured(s.state))
    case SendFinalUpdate =>
      s.(finisher := FinalAwaiting(s.finisher.st), open := s.open + 1,
         log := s.log + [FinisherUpdate(s.finisher.st, s.reason, s.wire.stored)])
    case FinalUpdateReply(us) =>
      s.(sentState := if us == UpdateSucceeded then s.finisher.st else s.sentState,
         finisher := if us == UpdateFailed then Status else Done, open := s.open - 1,
         log := s.log + [FinisherAnswer(us)])
  }

  // ----- Runs -----

  datatype Action = Env(e: Outside) | Watch(w: Watching) | Fin(f: Finishing)

  predicate Enabled(s: State, a: Action) {
    && !s.wire.panicked
    && match a
       case Env(e) => OutsideEnabled(s, e)
       case Watch(w) => WatcherEnabled(s, w)
       case Fin(f) => FinisherEnabled(s, f)
  }

  function Apply(s: State, a: Action): State
    requires Enabled(s, a)
  {
    match a
    case Env(e) => OutsideStep(s, e)
    case Watch(w) => WatcherStep(s, w)
    case Fin(f) => FinisherStep(s, f)
  }

  /** The state after a run, if every step of it was possible. */
  function After(s: State, acts: seq<Action>): Option<State> {
    if acts == [] then Some(s)
    else
      match After(s, acts[..|acts| - 1])
      case None => None
      case Some(t) =>
        var a := acts[|acts| - 1];
        if Enabled(t, a) then Some(Apply(t, a)) else None
  }

  // ----- What holds in every reachable state -----

  predicate PatchOk(published: Bytes, p: Patch) {
    p.End() <= |published| && p.content == published[p.offset..p.End()]
  }

  predicate ReplyOk(w: Wire, id: nat, r: Response) {
    && id in w.patches
    && (r.statusCode == STATUS_ACCEPTED ==> w.patches[id].End() <= |w.stored|)
    && (r.statusCode == STATUS_RANGE_NOT_SATISFIABLE ==> 0 <= NewOffset(r.remoteRange) <= |w.stored|)
  }

  /** What is stored is what was published, and no offset is ahead of it. */
  ghost predicate WireInv(w: Wire) {
    && !w.panicked
    && w.stored <= w.published
    && 0 <= w.sentTrace <= |w.stored|
    && (forall id :: id in w.patches ==> id < w.nextId && PatchOk(w.published, w.patches[id]))
    && (forall id, r :: (id, r) in w.replies ==> ReplyOk(w, id, r))
  }

  predicate PastRendezvous(f: Finisher) {
    !f.NotCalled? && !f.Closing? && !f.Announcing?
  }

  predicate PastTrace(f: Finisher) {
    f.Status? || f.FinalCaptured? || f.FinalAwaiting? || f.Done?
  }

  function StateOf(o: Outcome): JobState {
    if o.Succeeds? then Success else Failed
  }

  function ReasonOf(o: Outcome): string {
    if o.Succeeds? then "" else o.reason
  }

  /** Control: who is where, and the job's state and outcome. */
  ghost predicate ControlInv(s: State) {
    && (s.watcher.Gone? <==> PastRendezvous(s.finisher))
    && (s.closed <==> !s.finisher.NotCalled? && !s.finisher.Closing?)
    && (s.outcome.None? <==> s.finisher.NotCalled?)
    && s.finishRuns == (if s.outcome.None? then 0 else 1)
    && s.state == (if s.outcome.None? then Running else StateOf(s.outcome.value))
    && s.reason == (if s.outcome.None? then "" else ReasonOf(s.outcome.value))
    && (s.watcher.Captured? ==> s.watcher.st == Running || s.watcher.st == s.state)
    && (s.finisher.FinalCaptured? ==> s.finisher.st == s.state)
    && (PastTrace(s.finisher) ==> s.gaveUp || s.wire.sentTrace == |s.wire.published|)
    && (s.gaveUp ==> PastTrace(s.finisher))
    && (s.cancelFunc ==> s.cancelSet)
    && s.open == (if WatcherInFlight(s) then 1 else 0) + (if FinisherInFlight(s) then 1 else 0)
  }

  predicate WatcherInFlight(s: State) {
    s.watcher.Patching? || s.watcher.AwaitingUpdate?
  }

  predicate FinisherInFlight(s: State) {
    s.finisher.FinalPatching? || s.finisher.FinalAwaiting?
  }

  predicate FromWatcher(e: Event) {
    e.WatcherPatch? || e.WatcherUpdate? || e.TurnEnded?
  }

  /** The watcher called the cancel function. */
  predicate Aborted(e: Event) {
    e.TurnEnded? && e.aborted
  }

  predicate FromFinisher(e: Event) {
    e.FinisherPatch? || e.FinisherReply? || e.FinisherUpdate? || e.FinisherAnswer?
  }

  /** An update carries the running state, or the first outcome with its reason. */
  predicate UpdateOk(s: State, st: JobState, reason: string) {
    st == Running || (s.outcome.Some? && st == StateOf(s.outcome.value) && reason == ReasonOf(s.outcome.value))
  }

  predicate EventOk(s: State, e: Event) {
    match e
    case WatcherUpdate(st, reason, _) => UpdateOk(s, st, reason)
    case FinisherUpdate(st, reason, held) =>
      st != Running && UpdateOk(s, st, reason) && s.closed && (s.gaveUp || held == s.wire.published)
    case TurnEnded(us, aborted) =>
      aborted ==> us == UpdateAbort && s.cancelSet && (s.watcher.AwaitingFinish? || s.watcher.Gone?)
    case FinisherPatch(_) => s.watcher.Gone?
    case FinisherReply(_) => s.watcher.Gone?
    case FinisherAnswer(_) => s.watcher.Gone?
    case WatcherPatch(_) => true
  }

  /** The history: nothing of the watcher after an abort or after the finisher. */
  ghost predicate LogInv(s: State) {
    && (forall i :: 0 <= i < |s.log| ==> EventOk(s, s.log[i]))
    && (forall i, j :: 0 <= i < j < |s.log| && (Aborted(s.log[i]) || FromFinisher(s.log[i])) ==>
          !FromWatcher(s.log[j]))
    && (forall i :: 0 <= i < |s.log| && FromFinisher(s.log[i]) ==> s.watcher.Gone?)
  }

  ghost predicate Inv(s: State) {
    WireInv(s.wire) && ControlInv(s) && LogInv(s)
  }

  // ----- Preservation: the bytes -----

  lemma BeginPatchInRange(w: Wire)
    requires WireInv(w)
    ensures !w.BeginPatch().OutOfRange?
    ensures w.BeginPatch().Send? ==> WireInv(w.Put(w.BeginPatch().patch))
  {
  }

  lemma MoveKeepsWire(w: Wire, id: nat, reply: Option<Response>)
    requires WireInv(w) && w.ReplyFor(id, reply)
    ensures WireInv(w.Move(id, reply).0)
  {
    if reply.Some? {
      assert ReplyOk(w, id, reply.value);
    }
  }

  lemma PublishKeepsWire(w: Wire, text: Bytes)
    requires WireInv(w)
    ensures WireInv(w.Publish(text))
  {
    forall id | id in w.patches
      ensures PatchOk(w.published + text, w.patches[id])
    {
      assert PatchOk(w.published, w.patches[id]);
    }
  }

  lemma DeliverKeepsWire(w: Wire, id: nat, accept: bool, r: Response)
    requires WireInv(w) && w.Truthful(id, accept, r)
    ensures WireInv(w.Deliver(id, accept, r))
  {
    var p := w.patches[id];
    assert PatchOk(w.published, p);
    NewOffsetOfHeader(|w.stored|);
    assert NewOffset([]) == 0;
    if accept {
      assert w.stored == w.published[..p.offset];
      assert w.stored + p.content == w.published[..p.End()];
    }
  }

  // ----- Preservation: each kind of step -----

  lemma OutsideKeepsInv(s: State, a: Outside)
    requires Inv(s) && OutsideEnabled(s, a)
    ensures Inv(OutsideStep(s, a))
  {
    OutsideKeepsControl(s, a);
    OutsideKeepsWire(s, a);
    OldEventsKept(s, OutsideStep(s, a));
  }

  lemma OutsideKeepsWire(s: State, a: Outside)
    requires WireInv(s.wire) && OutsideEnabled(s, a)
    ensures WireInv(OutsideStep(s, a).wire)
  {
    match a
    case Publish(text) => PublishKeepsWire(s.wire, text);
    case Deliver(id, accept, r) => DeliverKeepsWire(s.wire, id, accept, r);
    case _ =>
  }

  lemma OutsideKeepsControl(s: State, a: Outside)
    requires ControlInv(s) && OutsideEnabled(s, a)
    ensures ControlInv(OutsideStep(s, a))
  {
    match a
    case Publish(text) => PublishKeepsControl(s, text);
    case SetCancelFunc =>
    case Finish(o) => FinishKeepsControl(s, o);
    case Deliver(id, accept, r) => DeliverKeepsControl(s, id, accept, r);
  }

  lemma PublishKeepsControl(s: State, text: Bytes)
    requires ControlInv(s) && !s.closed
    ensures ControlInv(s.(wire := s.wire.Publish(text)))
  {
    assert !PastTrace(s.finisher);
  }

  lemma FinishKeepsControl(s: State, o: Outcome)
    requires ControlInv(s)
    ensures ControlInv(FinishCalled(s, o))
  {
  }

  lemma DeliverKeepsControl(s: State, id: nat, accept: bool, r: Response)
    requires ControlInv(s) && id in s.wire.patches
    ensures ControlInv(s.(wire := s.wire.Deliver(id, accept, r)))
  {
  }

  /** Old events stay fitting as long as the finisher is past the trace only with
      a buffer that no longer changes, and the watcher does not come back. */
  lemma OldEventsKept(s: State, t: State)
    requires LogInv(s) && ControlInv(s) && ControlInv(t)
    requires s.outcome.Some? ==> t.outcome == s.outcome
    requires s.closed ==> t.closed && t.wire.published == s.wire.published
    requires s.gaveUp ==> t.gaveUp
    requires s.cancelSet ==> t.cancelSet
    requires s.watcher.Gone? ==> t.watcher.Gone?
    requires s.watcher.AwaitingFinish? ==> t.watcher.AwaitingFinish? || t.watcher.Gone?
    ensures forall i :: 0 <= i < |s.log| ==> EventOk(t, s.log[i])
    ensures t.log == s.log ==> LogInv(t)
  {
    forall i | 0 <= i < |s.log|
      ensures EventOk(t, s.log[i])
    {
      assert EventOk(s, s.log[i]);
    }
  }

  /** One more event: it fits, and it is not the watcher's after an abort. */
  lemma NewEventKept(s: State, t: State, e: Event)
    requires LogInv(s) && t.log == s.log + [e]
    requires forall i :: 0 <= i < |s.log| ==> EventOk(t, s.log[i])
    requires EventOk(t, e) && (FromFinisher(e) ==> t.watcher.Gone?)
    requires FromWatcher(e) ==> !s.watcher.AwaitingFinish? && !s.watcher.Gone?
    requires s.watcher.Gone? ==> t.watcher.Gone?
    ensures LogInv(t)
  {
    forall i | 0 <= i < |s.log|
      ensures (Aborted(s.log[i]) || FromFinisher(s.log[i])) ==> s.watcher.AwaitingFinish? || s.watcher.Gone?
    {
      assert EventOk(s, s.log[i]);
    }
  }

  /** What the watcher's steps have in common: they leave the job's outcome and the
      finisher alone and do not write to the buffer. */
  ghost predicate WatcherOnly(s: State, t: State) {
    && t.finisher == s.finisher && t.outcome == s.outcome && t.finishRuns == s.finishRuns
    && t.state == s.state && t.reason == s.reason && t.closed == s.closed && t.gaveUp == s.gaveUp
    && t.wire.published == s.wire.published && t.cancelSet == s.cancelSet
    && !t.watcher.Gone?
  }

  /** The event that ends a turn with this answer. */
  function EndOfTurn(s: State, us: UpdateState): Event {
    TurnEnded(us, us == UpdateAbort && s.cancelFunc)
  }

  /** The event of a step of the watcher, if it has one. */
  function WatcherEventOf(s: State, a: Watching): Option<Event>
    requires WatcherEnabled(s, a)
  {
    match a
    case Tick => if s.wire.BeginPatch().Send? then Some(WatcherPatch(s.wire.nextId)) else None
    case PatchReply(reply) =>
      var us := s.wire.Move(s.watcher.id, reply).1;
      if us == UpdateSucceeded then None else Some(EndOfTurn(s, us))
    case ReadState(_) => None
    case SendUpdate => Some(WatcherUpdate(s.watcher.st, s.reason, s.wire.stored))
    case UpdateReply(us) => Some(EndOfTurn(s, us))
  }

  function WatcherCalls(s: State): int {
    if WatcherInFlight(s) then 1 else 0
  }

  /** What a step of the watcher does besides: calls it begins and ends, its event, and
      the state it takes for told. */
  ghost predicate WatcherDoes(s: State, t: State, e: Option<Event>, told: JobState) {
    && t.open - s.open == WatcherCalls(t) - WatcherCalls(s)
    && (t.cancelFunc ==> s.cancelFunc)
    && t.log == (if e.Some? then s.log + [e.value] else s.log)
    && t.sentState == told
    && (t.watcher.Captured? ==> t.watcher.st == s.state)
    && (e.Some? && Aborted(e.value) ==> t.watcher.AwaitingFinish?)
    && (t.watcher.AwaitingUpdate? ==> e.Some? && e.value.WatcherUpdate? && e.value.st == t.watcher.st)
  }

  lemma TickDoes(s: State)
    requires WatcherEnabled(s, Tick)
    ensures var t := WatcherStep(s, Tick);
            WatcherOnly(s, t) && WatcherDoes(s, t, WatcherEventOf(s, Tick), s.sentState)
  {
  }

  lemma PatchReplyDoes(s: State, reply: Option<Response>)
    requires WatcherEnabled(s, PatchReply(reply))
    ensures var t := WatcherStep(s, PatchReply(reply));
            WatcherOnly(s, t) && WatcherDoes(s, t, WatcherEventOf(s, PatchReply(reply)), s.sentState)
  {
  }

  lemma UpdateReplyDoes(s: State, us: UpdateState)
    requires WatcherEnabled(s, UpdateReply(us))
    ensures var t := WatcherStep(s, UpdateReply(us));
            && WatcherOnly(s, t)
            && WatcherDoes(s, t, Some(EndOfTurn(s, us)), if us == UpdateSucceeded then s.watcher.st else s.sentState)
  {
  }

  /** The state that a step of the watcher takes for told. */
  function ToldBy(s: State, a: Watching): JobState
    requires WatcherEnabled(s, a)
  {
    if a.UpdateReply? && a.us == UpdateSucceeded then s.watcher.st else s.sentState
  }

  lemma WatcherFrame(s: State, a: Watching)
    requires WatcherEnabled(s, a)
    ensures WatcherOnly(s, WatcherStep(s, a))
    ensures WatcherDoes(s, WatcherStep(s, a), WatcherEventOf(s, a), ToldBy(s, a))
    ensures !s.watcher.AwaitingFinish? && !s.watcher.Gone?
  {
    match a
    case Tick => TickDoes(s);
    case PatchReply(reply) => PatchReplyDoes(s, reply);
    case UpdateReply(us) => UpdateReplyDoes(s, us);
    case _ =>
  }

  lemma WatcherEvent(s: State, a: Watching)
    requires WatcherEnabled(s, a) && ControlInv(s) && WatcherEventOf(s, a).Some?
    ensures EventOk(WatcherStep(s, a), WatcherEventOf(s, a).value) && FromWatcher(WatcherEventOf(s, a).value)
  {
    WatcherFrame(s, a);
  }

  lemma WatcherKeepsControl(s: State, a: Watching)
    requires ControlInv(s) && WatcherEnabled(s, a)
    ensures ControlInv(WatcherStep(s, a))
  {
    WatcherFrame(s, a);
    assert !PastTrace(s.finisher);
  }

  lemma WatcherKeepsWire(s: State, a: Watching)
    requires WireInv(s.wire) && WatcherEnabled(s, a)
    ensures WireInv(WatcherStep(s, a).wire)
  {
    match a
    case Tick => BeginPatchInRange(s.wire);
    case PatchReply(reply) => MoveKeepsWire(s.wire, s.watcher.id, reply);
    case _ =>
  }

  lemma WatcherKeepsInv(s: State, a: Watching)
    requires Inv(s) && WatcherEnabled(s, a)
    ensures Inv(WatcherStep(s, a))
  {
    var t := WatcherStep(s, a);
    WatcherKeepsControl(s, a);
    WatcherKeepsWire(s, a);
    WatcherFrame(s, a);
    OldEventsKept(s, t);
    if WatcherEventOf(s, a).Some? {
      WatcherEvent(s, a);
      NewEventKept(s, t, WatcherEventOf(s, a).value);
    }
  }

  lemma FinisherKeepsWire(s: State, a: Finishing)
    requires WireInv(s.wire) && FinisherEnabled(s, a)
    ensures WireInv(FinisherStep(s, a).wire)
  {
    match a
    case CloseBuffer(text) => PublishKeepsWire(s.wire, text);
    case SendFinalPatch => BeginPatchInRange(s.wire);
    case FinalPatchReply(reply) => MoveKeepsWire(s.wire, s.finisher.id, reply);
    case _ =>
  }

  /** The event of a step of the finisher, if it has one. */
  function FinisherEventOf(s: State, a: Finishing): Option<Event>
    requires FinisherEnabled(s, a)
  {
    match a
    case SendFinalPatch => if s.wire.BeginPatch().Send? then Some(FinisherPatch(s.wire.nextId)) else None
    case FinalPatchReply(reply) => Some(FinisherReply(reply))
    case SendFinalUpdate => Some(FinisherUpdate(s.finisher.st, s.reason, s.wire.stored))
    case FinalUpdateReply(us) => Some(FinisherAnswer(us))
    case _ => None
  }

  /** The state that a step of the finisher takes for told. */
  function ToldByFinisher(s: State, a: Finishing): JobState
    requires FinisherEnabled(s, a)
  {
    if a.FinalUpdateReply? && a.us == UpdateSucceeded then s.finisher.st else s.sentState
  }

  /** What the finisher's steps have in common: they leave the job's outcome alone, the
      watcher too but for the rendezvous, and a closed buffer. */
  ghost predicate FinisherOnly(s: State, t: State, a: Finishing) {
    && t.outcome == s.outcome && t.reason == s.reason && t.state == s.state && t.finishRuns == s.finishRuns
    && t.cancelSet == s.cancelSet && t.cancelFunc == s.cancelFunc
    && t.closed == (s.closed || a.CloseBuffer?)
    && (!a.CloseBuffer? ==> t.wire.published == s.wire.published)
    && (!a.FinalPatchReply? ==> t.gaveUp == s.gaveUp && t.wire.sentTrace == s.wire.sentTrace)
    && t.watcher == (if a.Rendezvous? then Gone else s.watcher)
  }

  ghost predicate FinisherDoes(s: State, t: State, e: Option<Event>, told: JobState) {
    && t.log == (if e.Some? then s.log + [e.value] else s.log)
    && t.sentState == told
    && (t.finisher.FinalAwaiting? ==> e.Some? && e.value.FinisherUpdate? && e.value.st == t.finisher.st)
  }

  lemma SendFinalPatchDoes(s: State)
    requires FinisherEnabled(s, SendFinalPatch)
    ensures var t := FinisherStep(s, SendFinalPatch);
            && FinisherOnly(s, t, SendFinalPatch)
            && FinisherDoes(s, t, FinisherEventOf(s, SendFinalPatch), s.sentState)
  {
  }

  lemma FinalPatchReplyDoes(s: State, reply: Option<Response>)
    requires FinisherEnabled(s, FinalPatchReply(reply))
    ensures var t := FinisherStep(s, FinalPatchReply(reply));
            && FinisherOnly(s, t, FinalPatchReply(reply))
            && FinisherDoes(s, t, Some(FinisherReply(reply)), s.sentState)
            && (s.gaveUp ==> t.gaveUp)
  {
  }

  lemma FinalUpdateReplyDoes(s: State, us: UpdateState)
    requires FinisherEnabled(s, FinalUpdateReply(us))
    ensures var t := FinisherStep(s, FinalUpdateReply(us));
            && FinisherOnly(s, t, FinalUpdateReply(us))
            && FinisherDoes(s, t, Some(FinisherAnswer(us)), ToldByFinisher(s, FinalUpdateReply(us)))
  {
  }

  lemma FinisherFrame(s: State, a: Finishing)
    requires FinisherEnabled(s, a)
    ensures var t := FinisherStep(s, a);
            && FinisherOnly(s, t, a)
            && FinisherDoes(s, t, FinisherEventOf(s, a), ToldByFinisher(s, a))
            && (s.gaveUp ==> t.gaveUp)
  {
    match a
    case SendFinalPatch => SendFinalPatchDoes(s);
    case FinalPatchReply(reply) => FinalPatchReplyDoes(s, reply);
    case FinalUpdateReply(us) => FinalUpdateReplyDoes(s, us);
    case _ =>
  }

  function FinisherCalls(s: State): int {
    if FinisherInFlight(s) then 1 else 0
  }

  /** Where the finisher goes, and the calls it begins and ends on the way. */
  ghost predicate FinisherGoes(s: State, t: State, a: Finishing) {
    && t.open - s.open == FinisherCalls(t) - FinisherCalls(s)
    && !t.finisher.NotCalled? && !t.finisher.Closing?
    && (t.finisher.Announcing? <==> a.CloseBuffer?)
    && (t.finisher.FinalCaptured? ==> t.finisher.st == s.state)
    && (PastTrace(t.finisher) ==> PastTrace(s.finisher) || t.gaveUp || t.wire.sentTrace == |t.wire.published|)
    && (a.FinalPatchReply? && t.gaveUp ==> s.gaveUp || PastTrace(t.finisher))
    && (PastTrace(s.finisher) ==> PastTrace(t.finisher))
  }

  lemma SendFinalPatchGoes(s: State)
    requires FinisherEnabled(s, SendFinalPatch)
    ensures FinisherGoes(s, FinisherStep(s, SendFinalPatch), SendFinalPatch)
  {
  }

  lemma FinalPatchReplyGoes(s: State, reply: Option<Response>)
    requires FinisherEnabled(s, FinalPatchReply(reply))
    ensures FinisherGoes(s, FinisherStep(s, FinalPatchReply(reply)), FinalPatchReply(reply))
  {
  }

  lemma FinisherMoves(s: State, a: Finishing)
    requires FinisherEnabled(s, a)
    ensures FinisherGoes(s, FinisherStep(s, a), a)
  {
    match a
    case SendFinalPatch => SendFinalPatchGoes(s);
    case FinalPatchReply(reply) => FinalPatchReplyGoes(s, reply);
    case _ =>
  }

  lemma FinisherKeepsControl(s: State, a: Finishing)
    requires ControlInv(s) && FinisherEnabled(s, a)
    ensures ControlInv(FinisherStep(s, a))
  {
    FinisherFrame(s, a);
    FinisherMoves(s, a);
  }

  lemma FinisherEvent(s: State, a: Finishing)
    requires WireInv(s.wire) && ControlInv(s) && FinisherEnabled(s, a) && FinisherEventOf(s, a).Some?
    ensures EventOk(FinisherStep(s, a), FinisherEventOf(s, a).value) && FromFinisher(FinisherEventOf(s, a).value)
    ensures FinisherStep(s, a).watcher.Gone?
  {
    FinisherFrame(s, a);
    if a.SendFinalUpdate? && !s.gaveUp {
      assert s.wire.stored == s.wire.published;
    }
  }

  lemma FinisherKeepsInv(s: State, a: Finishing)
    requires Inv(s) && FinisherEnabled(s, a)
    ensures Inv(FinisherStep(s, a))
  {
    var t := FinisherStep(s, a);
    FinisherKeepsControl(s, a);
    FinisherKeepsWire(s, a);
    FinisherFrame(s, a);
    OldEventsKept(s, t);
    if FinisherEventOf(s, a).Some? {
      FinisherEvent(s, a);
      NewEventKept(s, t, FinisherEventOf(s, a).value);
    }
  }

  lemma {:induction false} RunKeepsInv(maxPatch: nat, acts: seq<Action>)
    ensures var r := After(Start(maxPatch), acts);
            r.Some? ==> Inv(r.value)
  {
    if acts != [] {
      var before, a := acts[..|acts| - 1], acts[|acts| - 1];
      RunKeepsInv(maxPatch, before);
      var r := After(Start(maxPatch), before);
      if r.Some? && Enabled(r.value, a) {
        match a
        case Env(e) => OutsideKeepsInv(r.value, e);
        case Watch(w) => WatcherKeepsInv(r.value, w);
        case Fin(f) => FinisherKeepsInv(r.value, f);
      }
    }
  }

  ghost predicate Reachable(s: State) {
    exists maxPatch: nat, acts :: After(Start(maxPatch), acts) == Some(s)
  }

  lemma ReachableInv(s: State)
    requires Reachable(s)
    ensures Inv(s)
  {
    var maxPatch: nat, acts :| After(Start(maxPatch), acts) == Some(s);
    RunKeepsInv(maxPatch, acts);
  }

  // ----- The promises -----

  /** With patches lost, late and repeated in any way, the coordinator's trace is
      always a prefix of what was published, the client never believes more to be
      stored than is, and so no slice of the buffer is ever out of range. */
  lemma StoredTraceIsPrefix(s: State)
    requires Reachable(s)
    ensures s.wire.stored <= s.wire.published
    ensures 0 <= s.wire.sentTrace <= |s.wire.stored| <= |s.wire.published|
    ensures !s.wire.panicked
  {
    ReachableInv(s);
  }

  /** Over the whole client at most one call is ever begun and not returned: when the
      finisher begins its first one, every call of the watcher has returned.  At most
      one call runs finish, and it runs exactly when the job's outcome is decided. */
  lemma RequestsNeverOverlap(s: State)
    requires Reachable(s)
    ensures 0 <= s.open <= 1
    ensures !(WatcherInFlight(s) && FinisherInFlight(s))
    ensures s.open == 1 <==> WatcherInFlight(s) || FinisherInFlight(s)
    ensures s.finishRuns == if s.outcome.Some? then 1 else 0
    ensures s.state == if s.outcome.Some? then StateOf(s.outcome.value) else Running
  {
    ReachableInv(s);
  }

  /** Only the first outcome is ever reported, with its own reason; a forced update
      never reports a running job; nothing of the watcher follows a successful
      abort, a second abort included, nor any request of the finisher. */
  lemma UpdatesTellTheFirstOutcome(s: State, i: nat)
    requires Reachable(s) && i < |s.log|
    ensures var e := s.log[i];
            && ((e.WatcherUpdate? || e.FinisherUpdate?) && e.st != Running ==>
                  s.outcome.Some? && e.st == StateOf(s.outcome.value) && e.reason == ReasonOf(s.outcome.value))
            && (e.FinisherUpdate? ==> e.st != Running)
            && (Aborted(e) ==> e.us == UpdateAbort && s.cancelSet)
            && (Aborted(e) || FromFinisher(e) ==> forall j :: i < j < |s.log| ==> !FromWatcher(s.log[j]))
  {
    ReachableInv(s);
    assert EventOk(s, s.log[i]);
  }

  lemma OutcomeKept(s: State, a: Action)
    requires ControlInv(s) && s.outcome.Some? && Enabled(s, a)
    ensures Apply(s, a).outcome == s.outcome && Apply(s, a).finishRuns == s.finishRuns
  {
    match a
    case Env(e) =>
    case Watch(w) => WatcherFrame(s, w);
    case Fin(f) =>
  }

  /** The first outcome stays through every continuation of the run, whatever calls
      of Success and Fail it contains. */
  lemma {:induction false} FirstOutcomeStays(maxPatch: nat, first: seq<Action>, more: seq<Action>)
    requires After(Start(maxPatch), first).Some? && After(Start(maxPatch), first).value.outcome.Some?
    requires After(Start(maxPatch), first + more).Some?
    ensures var s, t := After(Start(maxPatch), first).value, After(Start(maxPatch), first + more).value;
            t.outcome == s.outcome && t.finishRuns == s.finishRuns == 1
  {
    RunKeepsInv(maxPatch, first);
    if more == [] {
      assert first + more == first;
    } else {
      var before := more[..|more| - 1];
      assert (first + more)[..|first + more| - 1] == first + before;
      FirstOutcomeStays(maxPatch, first, before);
      RunKeepsInv(maxPatch, first + before);
      OutcomeKept(After(Start(maxPatch), first + before).value, more[|more| - 1]);
    }
  }

  // ----- The outcome is told -----

  function LastEvent(s: State): Event
    requires s.log != []
  {
    s.log[|s.log| - 1]
  }

  /** An answer that is not a failure, to a forced update about this job. */
  ghost predicate Told(s: State) {
    && |s.log| >= 2
    && LastEvent(s).FinisherAnswer? && LastEvent(s).us != UpdateFailed
    && s.log[|s.log| - 2].FinisherUpdate?
  }

  /** Up to n, forced updates were answered with failures only. */
  ghost predicate OnlyFailures(log: seq<Event>, n: int) {
    forall i :: 0 <= i < n && i < |log| && log[i].FinisherAnswer? ==> log[i].us == UpdateFailed
  }

  ghost predicate TellInv(s: State) {
    && (s.finisher.FinalAwaiting? ==> s.log != [] && LastEvent(s).FinisherUpdate?)
    && (s.finisher.Done? ==> Told(s))
    && OnlyFailures(s.log, if s.finisher.Done? then |s.log| - 1 else |s.log|)
    && (s.gaveUp <==> EndedByAnswer(s.log))
  }

  predicate Ending(e: Event) {
    e.FinisherReply? && e.reply.Some? && EndsDrain(e.reply.value)
  }

  /** The coordinator answered a patch of the finisher with abort or not-found. */
  predicate EndedByAnswer(log: seq<Event>) {
    exists i :: 0 <= i < |log| && Ending(log[i])
  }

  lemma EndedAfterEvent(log: seq<Event>, e: Event)
    ensures EndedByAnswer(log + [e]) <==> EndedByAnswer(log) || Ending(e)
  {
    assert (log + [e])[|log|] == e;
    if EndedByAnswer(log) {
      var i :| 0 <= i < |log| && Ending(log[i]);
      assert Ending((log + [e])[i]);
    }
  }

  lemma WatcherKeepsTell(s: State, a: Watching)
    requires Inv(s) && TellInv(s) && WatcherEnabled(s, a)
    ensures TellInv(WatcherStep(s, a))
  {
    WatcherFrame(s, a);
    if WatcherEventOf(s, a).Some? {
      WatcherEvent(s, a);
      EndedAfterEvent(s.log, WatcherEventOf(s, a).value);
    }
  }

  /** finalTraceUpdate gives up exactly on the answers that end it. */
  lemma GaveUpMoves(s: State, a: Finishing)
    requires FinisherEnabled(s, a)
    ensures FinisherStep(s, a).gaveUp <==>
            s.gaveUp || (FinisherEventOf(s, a).Some? && Ending(FinisherEventOf(s, a).value))
  {
    if a.FinalPatchReply? {
      var p := s.wire.patches[s.finisher.id];
      EndsDrainIsRead(p.offset, |p.content|, a.reply);
    }
  }

  lemma FinisherKeepsTell(s: State, a: Finishing)
    requires TellInv(s) && FinisherEnabled(s, a)
    ensures TellInv(FinisherStep(s, a))
  {
    FinisherFrame(s, a);
    GaveUpMoves(s, a);
    if FinisherEventOf(s, a).Some? {
      EndedAfterEvent(s.log, FinisherEventOf(s, a).value);
    }
  }

  lemma OutsideKeepsTell(s: State, a: Outside)
    requires Inv(s) && TellInv(s) && OutsideEnabled(s, a)
    ensures TellInv(OutsideStep(s, a))
  {
    assert OutsideStep(s, a).log == s.log;
  }

  lemma {:induction false} RunKeepsTell(maxPatch: nat, acts: seq<Action>)
    ensures var r := After(Start(maxPatch), acts);
            r.Some? ==> TellInv(r.value)
  {
    if acts != [] {
      var before, a := acts[..|acts| - 1], acts[|acts| - 1];
      RunKeepsTell(maxPatch, before);
      RunKeepsInv(maxPatch, before);
      var r := After(Start(maxPatch), before);
      if r.Some? && Enabled(r.value, a) {
        match a
        case Env(e) => OutsideKeepsTell(r.value, e);
        case Watch(w) => WatcherKeepsTell(r.value, w);
        case Fin(f) => FinisherKeepsTell(r.value, f);
      }
    }
  }

  lemma ReachableTells(s: State)
    requires Reachable(s)
    ensures TellInv(s)
  {
    var maxPatch: nat, acts :| After(Start(maxPatch), acts) == Some(s);
    RunKeepsTell(maxPatch, acts);
  }

  /** Once finalTraceUpdate has returned, unless the coordinator answered one of its
      patches with abort or not-found, the coordinator holds exactly the final contents
      of the buffer, and every forced status update was sent while it held them. */
  lemma FinalTraceIsComplete(s: State)
    requires Reachable(s) && PastTrace(s.finisher) && !EndedByAnswer(s.log)
    ensures s.closed && s.wire.stored == s.wire.published
    ensures forall i :: 0 <= i < |s.log| && s.log[i].FinisherUpdate? ==> s.log[i].held == s.wire.published
  {
    ReachableInv(s);
    ReachableTells(s);
    forall i | 0 <= i < |s.log| && s.log[i].FinisherUpdate?
      ensures s.log[i].held == s.wire.published
    {
      assert EventOk(s, s.log[i]);
    }
  }

  /** When finish is done, the last thing it did was to tell the coordinator the first
      outcome with its reason, and the answer was not a failure; every forced update
      before was answered with a failure. */
  lemma OutcomeIsTold(s: State)
    requires Reachable(s) && s.finisher.Done?
    ensures s.outcome.Some? && Told(s)
    ensures var e := s.log[|s.log| - 2];
            e.st == StateOf(s.outcome.value) && e.reason == ReasonOf(s.outcome.value)
    ensures OnlyFailures(s.log, |s.log| - 1)
  {
    ReachableInv(s);
    ReachableTells(s);
    UpdateNames(s, |s.log| - 2);
  }

  lemma UpdateNames(s: State, i: nat)
    requires LogInv(s) && i < |s.log| && s.log[i].FinisherUpdate?
    ensures s.outcome.Some?
    ensures s.log[i].st == StateOf(s.outcome.value) && s.log[i].reason == ReasonOf(s.outcome.value)
  {
    assert EventOk(s, s.log[i]);
  }

  // ----- What the coordinator has acknowledged -----

  /** An update and the success that answers it. */
  predicate Acks(update: Event, answer: Event) {
    || (update.WatcherUpdate? && answer.TurnEnded? && answer.us == UpdateSucceeded)
    || (update.FinisherUpdate? && answer.FinisherAnswer? && answer.us == UpdateSucceeded)
  }

  /** The job's state in the last update that was answered with success. */
  function Acknowledged(log: seq<Event>): JobState {
    if |log| < 2 then Running
    else if Acks(log[|log| - 2], log[|log| - 1]) then log[|log| - 2].st
    else Acknowledged(log[..|log| - 1])
  }

  lemma AcknowledgedAfter(log: seq<Event>, e: Event)
    ensures Acknowledged(log + [e]) ==
            if log != [] && Acks(log[|log| - 1], e) then log[|log| - 1].st else Acknowledged(log)
  {
    assert (log + [e])[..|log|] == log;
  }

  ghost predicate AckInv(s: State) {
    && s.sentState == Acknowledged(s.log)
    && (s.watcher.AwaitingUpdate? ==>
          s.log != [] && LastEvent(s).WatcherUpdate? && LastEvent(s).st == s.watcher.st)
    && (s.finisher.FinalAwaiting? ==>
          s.log != [] && LastEvent(s).FinisherUpdate? && LastEvent(s).st == s.finisher.st)
  }

  /** A turn ends with success only by the answer to an update. */
  lemma SuccessOfUpdate(s: State, a: Watching)
    requires WatcherEnabled(s, a)
    ensures var e := WatcherEventOf(s, a);
            e.Some? && e.value.TurnEnded? && e.value.us == UpdateSucceeded <==>
            a.UpdateReply? && a.us == UpdateSucceeded
  {
  }

  lemma WatcherKeepsAck(s: State, a: Watching)
    requires AckInv(s) && ControlInv(s) && WatcherEnabled(s, a)
    ensures AckInv(WatcherStep(s, a))
  {
    WatcherFrame(s, a);
    SuccessOfUpdate(s, a);
    if WatcherEventOf(s, a).Some? {
      WatcherEvent(s, a);
      AcknowledgedAfter(s.log, WatcherEventOf(s, a).value);
    }
  }

  lemma FinisherKeepsAck(s: State, a: Finishing)
    requires AckInv(s) && ControlInv(s) && FinisherEnabled(s, a)
    ensures AckInv(FinisherStep(s, a))
  {
    FinisherFrame(s, a);
    if FinisherEventOf(s, a).Some? {
      AcknowledgedAfter(s.log, FinisherEventOf(s, a).value);
    }
  }

  lemma {:induction false} RunKeepsAck(maxPatch: nat, acts: seq<Action>)
    ensures var r := After(Start(maxPatch), acts);
            r.Some? ==> AckInv(r.value)
  {
    if acts != [] {
      var before, a := acts[..|acts| - 1], acts[|acts| - 1];
      RunKeepsAck(maxPatch, before);
      RunKeepsInv(maxPatch, before);
      var r := After(Start(maxPatch), before);
      if r.Some? && Enabled(r.value, a) {
        match a
        case Env(e) => OutsideKeepsAck(r.value, e);
        case Watch(w) => WatcherKeepsAck(r.value, w);
        case Fin(f) => FinisherKeepsAck(r.value, f);
      }
    }
  }

  lemma OutsideKeepsAck(s: State, a: Outside)
    requires AckInv(s) && ControlInv(s) && OutsideEnabled(s, a)
    ensures AckInv(OutsideStep(s, a))
  {
    assert OutsideStep(s, a).log == s.log;
  }

  /** sentState, by which the watcher decides whether there is news, is always the state
      in the last update that the coordinator answered with success. */
  lemma SentStateIsAcknowledged(s: State)
    requires Reachable(s)
    ensures s.sentState == Acknowledged(s.log)
  {
    var maxPatch: nat, acts :| After(Start(maxPatch), acts) == Some(s);
    RunKeepsAck(maxPatch, acts);
  }

  // ----- What each turn of the watcher does -----

  /** The watcher has called the cancel function and waits for the finish. */
  predicate CancelCalled(s: State, t: State) {
    t.watcher.AwaitingFinish? && !t.cancelFunc && |t.log| == |s.log| + 1 && Aborted(t.log[|s.log|])
  }

  /** An abort answer, to a patch or to an update, cancels the build if and only if there
      is a cancel function to call; otherwise the loop goes on, as after any other answer
      that ends a turn. */
  lemma AbortCancels(s: State, reply: Option<Response>, us: UpdateState)
    ensures s.watcher.AwaitingUpdate? ==>
              var t := WatcherStep(s, UpdateReply(us));
              if us == UpdateAbort && s.cancelFunc then CancelCalled(s, t) else t.watcher.Select?
    ensures WatcherEnabled(s, PatchReply(reply)) && reply.Some? ==>
              var t, r := WatcherStep(s, PatchReply(reply)), reply.value;
              if JobIsOver(r.remoteState) || r.statusCode == 403 || r.statusCode == -100 then
                if s.cancelFunc then CancelCalled(s, t) else t.watcher.Select?
              else if r.statusCode == 202 then t.watcher.Updating?
              else t.watcher.Select?
  {
    if WatcherEnabled(s, PatchReply(reply)) && reply.Some? {
      var p := s.wire.patches[s.watcher.id];
      ReplyIsRead(p.offset, |p.content|, reply.value);
    }
  }

  /** What the next patch must be: the bytes behind the offset, as many as fit. */
  predicate IsNextPatch(w: Wire, p: Patch) {
    && p.offset == w.sentTrace
    && |p.content| == Min(w.maxPatch, |w.published| - w.sentTrace)
    && 0 <= w.sentTrace && p.End() <= |w.published| && p.content == w.published[p.offset..p.End()]
  }

  lemma BeginIsNext(w: Wire)
    requires WireInv(w) && w.maxPatch > 0
    ensures w.BeginPatch().NothingToSend? <==> w.sentTrace == |w.published|
    ensures w.sentTrace != |w.published| ==> w.BeginPatch().Send? && IsNextPatch(w, w.BeginPatch().patch)
    ensures w.nextId !in w.patches
  {
  }

  /** Whenever there is something to send, the watcher's tick and the finisher's turn send
      exactly the next patch; the watcher goes on to its update without one only if there
      is nothing. */
  lemma NextPatchIsSent(s: State)
    requires Reachable(s) && s.wire.maxPatch > 0
    ensures s.watcher.Select? ==>
              var t := WatcherStep(s, Tick);
              if s.wire.sentTrace == |s.wire.published| then t.watcher.Updating? && t.wire == s.wire
              else t.watcher.Patching? && t.watcher.id in t.wire.patches && t.watcher.id !in s.wire.patches &&
                   IsNextPatch(s.wire, t.wire.patches[t.watcher.id])
    ensures s.finisher.Sending? && s.wire.sentTrace != |s.wire.published| ==>
              var t := FinisherStep(s, SendFinalPatch);
              && t.finisher.FinalPatching? && t.finisher.id in t.wire.patches && t.finisher.id !in s.wire.patches
              && IsNextPatch(s.wire, t.wire.patches[t.finisher.id])
  {
    ReachableInv(s);
    BeginIsNext(s.wire);
  }

  /** The finisher goes on to its next part exactly when its loop is over: to the status
      when nothing is left or the answer ends the drain, and to the end when a forced update
      is answered with anything but a failure. */
  lemma FinisherGoesOnIff(s: State, reply: Option<Response>, us: UpdateState)
    ensures s.finisher.Checking? ==>
              FinisherStep(s, CheckTrace).finisher ==
              if s.wire.sentTrace == |s.wire.published| then Status else Sending
    ensures FinisherEnabled(s, FinalPatchReply(reply)) ==>
              FinisherStep(s, FinalPatchReply(reply)).finisher ==
              if reply.Some? && EndsDrain(reply.value) then Status else Checking
    ensures s.finisher.FinalAwaiting? ==>
              FinisherStep(s, FinalUpdateReply(us)).finisher == if us == UpdateFailed then Status else Done
  {
    if FinisherEnabled(s, FinalPatchReply(reply)) {
      EndsDrainIsRead(s.wire.patches[s.finisher.id].offset, |s.wire.patches[s.finisher.id].content|, reply);
    }
  }

  /** Finish is never stuck: until it is done it can take a step, or it waits for the watcher,
      which then can take one; and a watcher at its select lets it go on. */
  lemma FinishNeverStuck(s: State)
    requires Reachable(s) && !s.finisher.NotCalled? && !s.finisher.Done?
    ensures (exists a :: FinisherEnabled(s, a)) || (s.finisher.Announcing? && exists a :: WatcherEnabled(s, a))
    ensures s.finisher.Announcing? && (s.watcher.Select? || s.watcher.AwaitingFinish?) ==>
              FinisherEnabled(s, Rendezvous)
  {
    ReachableInv(s);
    var maxPatch: nat, acts :| After(Start(maxPatch), acts) == Some(s);
    RunKeepsSync(maxPatch, acts);
    RunKeepsFlight(maxPatch, acts);
    match s.finisher
    case Closing => assert FinisherEnabled(s, CloseBuffer([]));
    case Announcing => WatcherNeverStuck(s);
    case Checking => assert FinisherEnabled(s, CheckTrace);
    case Sending => assert FinisherEnabled(s, SendFinalPatch);
    case FinalPatching(_) => assert FinisherEnabled(s, FinalPatchReply(None));
    case Status => assert FinisherEnabled(s, ReadFinalState);
    case FinalCaptured(_) => assert FinisherEnabled(s, SendFinalUpdate);
    case FinalAwaiting(_) => assert FinisherEnabled(s, FinalUpdateReply(UpdateFailed));
  }

  lemma WatcherNeverStuck(s: State)
    requires ControlInv(s) && SyncInv(s) && s.finisher.Announcing?
    ensures (exists a :: FinisherEnabled(s, a)) || (exists a :: WatcherEnabled(s, a))
  {
    match s.watcher
    case Select => assert FinisherEnabled(s, Rendezvous);
    case AwaitingFinish => assert FinisherEnabled(s, Rendezvous);
    case Patching(_) => assert WatcherEnabled(s, PatchReply(None));
    case Updating => assert WatcherEnabled(s, ReadState(true));
    case Captured(_) => assert WatcherEnabled(s, SendUpdate);
    case AwaitingUpdate(_) => assert WatcherEnabled(s, UpdateReply(UpdateFailed));
  }

  /** The finisher waits for the answer to a patch that is on the network. */
  lemma {:induction false} RunKeepsFlight(maxPatch: nat, acts: seq<Action>)
    ensures var r := After(Start(maxPatch), acts);
            r.Some? ==> InFlight(r.value)
  {
    if acts != [] {
      var before, a := acts[..|acts| - 1], acts[|acts| - 1];
      RunKeepsFlight(maxPatch, before);
      RunKeepsInv(maxPatch, before);
      var r := After(Start(maxPatch), before);
      if r.Some? && Enabled(r.value, a) {
        FlightStays(r.value, a);
      }
    }
  }

  ghost predicate InFlight(s: State) {
    s.finisher.FinalPatching? ==> s.finisher.id in s.wire.patches
  }

  lemma OutsideKeepsFlight(s: State, a: Outside)
    requires OutsideEnabled(s, a) && InFlight(s)
    ensures InFlight(OutsideStep(s, a))
  {
  }

  lemma FinisherKeepsFlight(s: State, a: Finishing)
    requires FinisherEnabled(s, a)
    ensures InFlight(FinisherStep(s, a))
  {
    if a.SendFinalPatch? && s.wire.BeginPatch().Send? {
      assert s.wire.nextId in s.wire.Put(s.wire.BeginPatch().patch).patches;
    }
  }

  lemma FlightStays(s: State, a: Action)
    requires Enabled(s, a) && ControlInv(s) && InFlight(s)
    ensures InFlight(Apply(s, a))
  {
    match a
    case Env(e) => OutsideKeepsFlight(s, e);
    case Watch(w) => WatcherFrame(s, w);
    case Fin(f) => FinisherKeepsFlight(s, f);
  }

  /** The offset after an answer: the end of the patch on success, the coordinator's
      length if it answered 416 with one, and otherwise unchanged. */
  lemma OffsetFollowsAnswer(w: Wire, id: nat, r: Response, n: nat)
    requires id in w.patches && n <= MAX_INT
    ensures var u := w.Move(id, Some(r)).0;
            if !JobIsOver(r.remoteState) && r.statusCode == 202 then u == w.(sentTrace := w.patches[id].End())
            else if !JobIsOver(r.remoteState) && r.statusCode == 416 then
              r.remoteRange == RangeHeader(n) ==> u == w.(sentTrace := n)
            else u == w
  {
    ReplyIsRead(w.patches[id].offset, |w.patches[id].content|, r);
    NewOffsetOfHeader(n);
  }

  /** After its patch the watcher sends an update if and only if the job's state is not the
      one last acknowledged, or a refresh is due. */
  lemma UpdateDueIff(s: State, refresh: bool)
    requires Reachable(s) && s.watcher.Updating?
    ensures WatcherStep(s, ReadState(refresh)).watcher ==
            if s.state != Acknowledged(s.log) || refresh then Captured(s.state) else Select
  {
    SentStateIsAcknowledged(s);
  }

  // ----- What does not hold, and exactly when it does -----

  lemma AfterStep(s: State, acts: seq<Action>, t: State, a: Action)
    requires After(s, acts) == Some(t) && Enabled(t, a)
    ensures After(s, acts + [a]) == Some(Apply(t, a))
  {
    assert (acts + [a])[..|acts|] == acts;
  }

  lemma ReachableStep(s: State, a: Action)
    requires Reachable(s) && Enabled(s, a)
    ensures Reachable(Apply(s, a))
  {
    var maxPatch: nat, acts :| After(Start(maxPatch), acts) == Some(s);
    AfterStep(Start(maxPatch), acts, s, a);
  }

  lemma StartReachable(maxPatch: nat)
    ensures Reachable(Start(maxPatch))
  {
    assert After(Start(maxPatch), []) == Some(Start(maxPatch));
  }

  /** The failure reason is read outside the lock: an update can report a running
      job together with the reason of a failure that came in between. */
  lemma RunningMayCarryAReason() returns (s: State)
    ensures Reachable(s)
    ensures s.log == [WatcherUpdate(Running, "script_failure", [])]
  {
    StartReachable(1);
    s := Start(1);
    ReachableStep(s, Watch(Tick));
    s := Apply(s, Watch(Tick));
    ReachableStep(s, Watch(ReadState(true)));
    s := Apply(s, Watch(ReadState(true)));
    ReachableStep(s, Env(Finish(Fails("script_failure"))));
    s := Apply(s, Env(Finish(Fails("script_failure"))));
    ReachableStep(s, Watch(SendUpdate));
    s := Apply(s, Watch(SendUpdate));
  }

  /** Exactly when the watcher's next update is consistent, a reason only with a
      failed job: unless the job failed, with a reason, after its state was read. */
  lemma ReasonFitsIff(s: State)
    requires Reachable(s) && s.watcher.Captured?
    ensures WatcherStep(s, SendUpdate).log == s.log + [WatcherUpdate(s.watcher.st, s.reason, s.wire.stored)]
    ensures (s.watcher.st != Failed ==> s.reason == "") <==>
            !(s.watcher.st == Running && s.outcome.Some? && ReasonOf(s.outcome.value) != "")
  {
    ReachableInv(s);
  }

  /** The watcher may report the outcome before the trace is complete, which is why
      completeness is promised for the forced update only. */
  lemma WatcherMayReportEarly() returns (s: State)
    ensures Reachable(s)
    ensures s.log == [WatcherUpdate(Success, "", [])] && s.wire.published == [0]
  {
    StartReachable(1);
    s := Start(1);
    ReachableStep(s, Watch(Tick));
    s := Apply(s, Watch(Tick));
    ReachableStep(s, Env(Publish([0])));
    s := Apply(s, Env(Publish([0])));
    ReachableStep(s, Env(Finish(Succeeds)));
    s := Apply(s, Env(Finish(Succeeds)));
    ReachableStep(s, Watch(ReadState(false)));
    s := Apply(s, Watch(ReadState(false)));
    ReachableStep(s, Watch(SendUpdate));
    s := Apply(s, Watch(SendUpdate));
  }

  // ----- When the watcher's update comes after the whole trace -----

  /** No patch on the network fits behind the stored trace any more. */
  ghost predicate AllBehind(w: Wire) {
    forall id :: id in w.patches ==> w.patches[id].offset < |w.stored|
  }

  /** The client's offset is what is stored, and it stays so until the next patch. */
  ghost predicate InSync(w: Wire) {
    w.sentTrace == |w.stored| && AllBehind(w)
  }

  predicate SomePatch(w: Wire, id: nat)
    requires id in w.patches
  {
    w.patches[id].offset <= |w.stored| && w.patches[id].content != [] && w.maxPatch > 0
  }

  ghost predicate OffsetInv(w: Wire) {
    && (forall id :: id in w.patches ==> SomePatch(w, id))
    && (w.maxPatch == 0 ==> w.stored == [])
  }

  ghost predicate Accepted(w: Wire, id: nat) {
    exists r :: (id, r) in w.replies && r.statusCode == STATUS_ACCEPTED
  }

  /** A patch that was accepted ends the stored trace. */
  ghost predicate EndsStored(w: Wire, id: nat) {
    && id in w.patches
    && (Accepted(w, id) ==> |w.stored| == w.patches[id].End() && AllBehind(w))
  }

  predicate BeforeUpdate(x: Watcher) {
    x.Updating? || x.Captured? || x.AwaitingUpdate?
  }

  ghost predicate SyncInv(s: State) {
    && OffsetInv(s.wire)
    && (BeforeUpdate(s.watcher) ==> InSync(s.wire))
    && (s.watcher.Patching? ==> EndsStored(s.wire, s.watcher.id))
  }

  lemma PublishKeepsSync(w: Wire, text: Bytes)
    requires OffsetInv(w)
    ensures OffsetInv(w.Publish(text))
    ensures InSync(w) ==> InSync(w.Publish(text))
    ensures forall id :: EndsStored(w, id) ==> EndsStored(w.Publish(text), id)
  {
    var u := w.Publish(text);
    assert forall id :: id in u.patches ==> SomePatch(w, id) && SomePatch(u, id);
    assert forall id :: Accepted(u, id) ==> Accepted(w, id);
  }

  lemma DeliverKeepsOffsets(w: Wire, id: nat, accept: bool, r: Response)
    requires WireInv(w) && OffsetInv(w) && w.Truthful(id, accept, r)
    ensures OffsetInv(w.Deliver(id, accept, r))
    ensures AllBehind(w) ==> !accept && AllBehind(w.Deliver(id, accept, r))
    ensures accept ==> AllBehind(w.Deliver(id, accept, r))
  {
    var u := w.Deliver(id, accept, r);
    assert SomePatch(w, id);
    forall p | p in u.patches
      ensures SomePatch(u, p) && (accept ==> u.patches[p].offset < |u.stored|)
    {
      assert SomePatch(w, p);
    }
  }

  lemma DeliverKeepsEnd(w: Wire, id: nat, accept: bool, r: Response, own: nat)
    requires WireInv(w) && OffsetInv(w) && w.Truthful(id, accept, r) && EndsStored(w, own)
    ensures EndsStored(w.Deliver(id, accept, r), own)
  {
    var u := w.Deliver(id, accept, r);
    DeliverKeepsOffsets(w, id, accept, r);
    if Accepted(u, own) && !Accepted(w, own) {
      var q :| (own, q) in u.replies && q.statusCode == STATUS_ACCEPTED;
      assert (own, q) == (id, r);
    }
  }

  lemma PutKeepsOffsets(w: Wire)
    requires WireInv(w) && OffsetInv(w) && w.BeginPatch().Send?
    ensures OffsetInv(w.Put(w.BeginPatch().patch)) && EndsStored(w.Put(w.BeginPatch().patch), w.nextId)
  {
    var u := w.Put(w.BeginPatch().patch);
    forall id | id in u.patches
      ensures SomePatch(u, id)
    {
      assert id != w.nextId ==> SomePatch(w, id);
    }
    assert forall r :: (w.nextId, r) in w.replies ==> ReplyOk(w, w.nextId, r);
  }

  /** Without anything to send, everything published is stored, or patches are empty. */
  lemma NothingToSendInSync(w: Wire)
    requires WireInv(w) && OffsetInv(w) && w.BeginPatch().NothingToSend?
    ensures InSync(w)
  {
    forall id | id in w.patches
      ensures w.patches[id].offset < |w.stored|
    {
      assert SomePatch(w, id) && PatchOk(w.published, w.patches[id]);
    }
  }

  lemma MoveInSync(w: Wire, id: nat, reply: Option<Response>)
    requires WireInv(w) && OffsetInv(w) && w.ReplyFor(id, reply) && EndsStored(w, id)
    ensures var (u, us) := w.Move(id, reply);
            OffsetInv(u) && (us == UpdateSucceeded ==> InSync(u))
  {
    var (u, us) := w.Move(id, reply);
    assert forall p :: p in w.patches ==> SomePatch(w, p) && SomePatch(u, p);
    if us == UpdateSucceeded {
      assert Accepted(w, id);
    }
  }

  lemma OutsideKeepsSync(s: State, a: Outside)
    requires Inv(s) && SyncInv(s) && OutsideEnabled(s, a)
    ensures SyncInv(OutsideStep(s, a))
  {
    match a
    case Publish(text) => PublishKeepsSync(s.wire, text);
    case Deliver(id, accept, r) =>
      DeliverKeepsOffsets(s.wire, id, accept, r);
      if s.watcher.Patching? {
        DeliverKeepsEnd(s.wire, id, accept, r, s.watcher.id);
      }
    case _ =>
  }

  lemma WatcherKeepsSync(s: State, a: Watching)
    requires Inv(s) && SyncInv(s) && WatcherEnabled(s, a)
    ensures SyncInv(WatcherStep(s, a))
  {
    match a
    case Tick =>
      BeginPatchInRange(s.wire);
      if s.wire.BeginPatch().Send? {
        PutKeepsOffsets(s.wire);
      } else {
        NothingToSendInSync(s.wire);
      }
    case PatchReply(reply) => MoveInSync(s.wire, s.watcher.id, reply);
    case _ =>
  }

  lemma FinisherKeepsSync(s: State, a: Finishing)
    requires Inv(s) && SyncInv(s) && FinisherEnabled(s, a)
    ensures SyncInv(FinisherStep(s, a))
  {
    match a
    case CloseBuffer(text) => PublishKeepsSync(s.wire, text);
    case SendFinalPatch =>
      BeginPatchInRange(s.wire);
      if s.wire.BeginPatch().Send? {
        PutKeepsOffsets(s.wire);
      }
    case FinalPatchReply(reply) => MoveKeepsOffsets(s.wire, s.finisher.id, reply);
    case _ =>
  }

  lemma MoveKeepsOffsets(w: Wire, id: nat, reply: Option<Response>)
    requires OffsetInv(w) && w.ReplyFor(id, reply)
    ensures OffsetInv(w.Move(id, reply).0)
  {
    var u := w.Move(id, reply).0;
    assert forall p :: p in w.patches ==> SomePatch(w, p) && SomePatch(u, p);
  }

  lemma {:induction false} RunKeepsSync(maxPatch: nat, acts: seq<Action>)
    ensures var r := After(Start(maxPatch), acts);
            r.Some? ==> SyncInv(r.value)
  {
    if acts != [] {
      var before, a := acts[..|acts| - 1], acts[|acts| - 1];
      RunKeepsSync(maxPatch, before);
      RunKeepsInv(maxPatch, before);
      var r := After(Start(maxPatch), before);
      if r.Some? && Enabled(r.value, a) {
        match a
        case Env(e) => OutsideKeepsSync(r.value, e);
        case Watch(w) => WatcherKeepsSync(r.value, w);
        case Fin(f) => FinisherKeepsSync(r.value, f);
      }
    }
  }

  /** Between the watcher's patch and its update the client's offset is exactly what is
      stored, whatever old patches are still on the network.  So the update comes after
      the whole trace if and only if the client has nothing left to send. */
  lemma WatcherUpdateCompleteIff(s: State)
    requires Reachable(s) && s.watcher.Captured?
    ensures s.wire.sentTrace == |s.wire.stored|
    ensures var t := WatcherStep(s, SendUpdate);
            && |t.log| == |s.log| + 1 && t.log[|s.log|].WatcherUpdate?
            && (t.log[|s.log|].held == t.wire.published <==> s.wire.sentTrace == |s.wire.published|)
  {
    ReachableInv(s);
    var maxPatch: nat, acts :| After(Start(maxPatch), acts) == Some(s);
    RunKeepsSync(maxPatch, acts);
  }
}
