/** The sequential end of a job's trace: after the watcher has left, the finishing
    call alone sends patches (network/trace.go).  Its loop runs for as long as the
    network makes it; what each call meets there is given as a list of fates. */
module TraceClient {
  import opened Base
  import opened Decimal
  import opened PatchResponse

  /** What happens to one PatchTrace call. */
  datatype Fate =
    | Unsent                                  // never reaches the coordinator
    | ReplyLost                               // handled, but the client sees an error
    | Answered(remoteState: string)           // handled and answered
    | Refused(code: int, remoteState: string) // answered without being handled

  /** The coordinator's side of one job. */
  class Coordinator {
    var stored: Bytes

    constructor (initial: Bytes)
      ensures stored == initial
    {
      stored := initial;
    }

    /** Appends a patch that starts where the trace ends; 416 with the length otherwise. */
    method Patch(offset: int, content: Bytes, remoteState: string) returns (r: Response)
      modifies this
      ensures offset == |old(stored)| ==>
                stored == old(stored) + content && r == Response(STATUS_ACCEPTED, remoteState, [])
      ensures offset != |old(stored)| ==>
                stored == old(stored) &&
                r == Response(STATUS_RANGE_NOT_SATISFIABLE, remoteState, RangeHeader(|stored|))
    {
      if offset == |stored| {
        stored := stored + content;
        r := Response(STATUS_ACCEPTED, remoteState, []);
      } else {
        r := Response(STATUS_RANGE_NOT_SATISFIABLE, remoteState, RangeHeader(|stored|));
      }
    }
  }

  datatype Ending = Drained | GaveUp | StillSending

  predicate Aborts(f: Fate) {
    f.Answered? && (f.remoteState == "canceled" || f.remoteState == "failed")
  }

  /** The answers that end the drain: the job is canceled or failed there, forbidden,
      gone, or the client cannot make the request. */
  predicate Ends(f: Fate) {
    Aborts(f) || (f.Refused? && EndsDrain(Response(f.code, f.remoteState, [])))
  }

  /** The calls that the coordinator handled and the client learnt about. */
  function AnsweredCalls(fates: seq<Fate>): nat {
    if fates == [] then 0
    else AnsweredCalls(fates[..|fates| - 1]) + if fates[|fates| - 1].Answered? then 1 else 0
  }

  /** Patches needed for n bytes, size at a time. */
  function Chunks(n: nat, size: nat): nat
    requires size > 0
  {
    if n == 0 then 0 else 1 + Chunks(n - Min(n, size), size)
  }

  /** Chunks is the number of patches rounded up. */
  lemma {:induction false} ChunksRoundsUp(n: nat, size: nat)
    requires size > 0
    ensures n <= Chunks(n, size) * size < n + size
  {
    if n != 0 {
      var rest := n - Min(n, size);
      ChunksRoundsUp(rest, size);
      assert Chunks(n, size) * size == size + Chunks(rest, size) * size;
      if n < size {
        assert Chunks(rest, size) == 0;
      }
    }
  }

  /** The coordinator's trace after a call. */
  function StoredAfter(stored: Bytes, start: nat, content: Bytes, fate: Fate): Bytes {
    if (fate.ReplyLost? || fate.Answered?) && start == |stored| then stored + content else stored
  }

  /** What the client is told about a call. */
  function ReplyTo(stored: Bytes, start: nat, fate: Fate): Option<Response> {
    match fate
    case Unsent => None
    case ReplyLost => None
    case Answered(remoteState) =>
      if start == |stored| then Some(Response(STATUS_ACCEPTED, remoteState, []))
      else Some(Response(STATUS_RANGE_NOT_SATISFIABLE, remoteState, RangeHeader(|stored|)))
    case Refused(code, remoteState) => Some(Response(code, remoteState, []))
  }

  /** A coordinator that does not handle a call claims neither success nor mismatch. */
  predicate Honest(fate: Fate) {
    fate.Refused? ==> fate.code != STATUS_ACCEPTED && fate.code != STATUS_RANGE_NOT_SATISFIABLE
  }

  /** Answered calls still needed: a patch per chunk, and one to learn the offset. */
  function CallsNeeded(total: nat, stored: nat, sent: int, size: nat): nat
    requires size > 0 && stored <= total
  {
    Chunks(total - stored, size) + if sent == stored then 0 else 1
  }

  /** The patch that is cut from the buffer continues the stored trace when it starts
      where that ends, and takes one chunk off what is left. */
  lemma PatchFits(buffer: Bytes, stored: Bytes, start: nat, content: Bytes, size: nat)
    requires 0 < size && stored <= buffer && start <= |stored| && start < |buffer|
    requires content == buffer[start..start + Min(|buffer| - start, size)]
    ensures content != []
    ensures start == |stored| ==>
              && stored + content <= buffer
              && Chunks(|buffer| - |stored|, size) == 1 + Chunks(|buffer| - |stored + content|, size)
  {
    if start == |stored| {
      assert stored + content == buffer[..start + |content|];
    }
  }

  lemma ReplyMeans(stored: Bytes, start: nat, size: nat, fate: Fate)
    requires Honest(fate) && |stored| <= MAX_INT
    ensures var (offset, us) := ReadReply(start, size, ReplyTo(stored, start, fate));
            && (fate.Answered? && !Aborts(fate) ==>
                  (offset, us) == if start == |stored| then (start + size, UpdateSucceeded)
                                  else (|stored|, UpdateRangeMismatch))
            && (!fate.Answered? || Aborts(fate) ==> us != UpdateSucceeded && us != UpdateRangeMismatch)
            && (us == UpdateAbort || us == UpdateNotFound <==> Ends(fate))
            && (us == UpdateNotFound <==> fate.Refused? && fate.code == 404 && !JobIsOver(fate.remoteState))
  {
    NewOffsetOfHeader(|stored|);
  }

  class ClientJobTrace {
    const buffer: Bytes            // the closed buffer
    const maxTracePatchSize: nat
    const coordinator: Coordinator
    var sentTrace: int

    constructor (buffer: Bytes, maxTracePatchSize: nat, coordinator: Coordinator, sentTrace: int)
      ensures this.buffer == buffer && this.maxTracePatchSize == maxTracePatchSize
      ensures this.coordinator == coordinator && this.sentTrace == sentTrace
    {
      this.buffer, this.maxTracePatchSize := buffer, maxTracePatchSize;
      this.coordinator, this.sentTrace := coordinator, sentTrace;
    }

    /** What the run so far left behind: see TraceProtocol.StoredTraceIsPrefix. */
    ghost predicate Valid()
      reads this, coordinator
    {
      && 0 < maxTracePatchSize
      && |buffer| <= MAX_INT
      && coordinator.stored <= buffer
      && 0 <= sentTrace <= |coordinator.stored|
    }

    ghost function CallsLeft(): nat
      requires Valid()
      reads this, coordinator
    {
      CallsNeeded(|buffer|, |coordinator.stored|, sentTrace, maxTracePatchSize)
    }

    method PatchTrace(content: Bytes, start: nat, fate: Fate) returns (offset: int, us: UpdateState)
      modifies coordinator
      ensures content == [] ==>
                (offset, us) == (start, UpdateSucceeded) && coordinator.stored == old(coordinator.stored)
      ensures content != [] ==>
                && (offset, us) == ReadReply(start, |content|, ReplyTo(old(coordinator.stored), start, fate))
                && coordinator.stored == StoredAfter(old(coordinator.stored), start, content, fate)
    {
      if |content| == 0 {
        return start, UpdateSucceeded;
      }
      var reply: Option<Response> := None;
      match fate {
        case Unsent =>
        case ReplyLost =>
          var _ := coordinator.Patch(start, content, "");
        case Answered(remoteState) =>
          var r := coordinator.Patch(start, content, remoteState);
          reply := Some(r);
        case Refused(code, remoteState) =>
          reply := Some(Response(code, remoteState, []));
      }
      var (o, u) := ReadReply(start, |content|, reply);
      return o, u;
    }

    /** One patch.  An answered call always brings the end exactly one call nearer,
        any other outcome never moves it away. */
    method SendPatch(fate: Fate) returns (us: UpdateState)
      requires Valid() && Honest(fate)
      modifies this, coordinator
      ensures Valid() && old(coordinator.stored) <= coordinator.stored
      ensures old(sentTrace) == |buffer| ==> us == UpdateSucceeded && CallsLeft() == old(CallsLeft())
      ensures old(sentTrace) != |buffer| ==>
                && CallsLeft() <= old(CallsLeft())
                && (fate.Answered? && !Aborts(fate) ==> CallsLeft() == old(CallsLeft()) - 1)
                && (us == UpdateAbort || us == UpdateNotFound <==> Ends(fate))
    {
      var trace := buffer;
      if |trace| == sentTrace {
        return UpdateSucceeded;
      }
      var content := trace[sentTrace..];
      if |content| > maxTracePatchSize {
        content := content[..maxTracePatchSize];
      }
      PatchFits(buffer, coordinator.stored, sentTrace, content, maxTracePatchSize);
      ReplyMeans(coordinator.stored, sentTrace, |content|, fate);
      var sentOffset, state := PatchTrace(content, sentTrace, fate);
      if state == UpdateSucceeded || state == UpdateRangeMismatch {
        sentTrace := sentOffset;
      }
      us := state;
    }

    /** The loop of finalTraceUpdate over the given calls.  If it ends by itself the
        coordinator holds the whole buffer; it is still sending only if fewer calls
        were answered than the trace needs, and with every call answered it takes
        exactly as many as needed.  It gives up at the first answer that ends it. */
    method FinalTraceUpdate(fates: seq<Fate>) returns (ending: Ending, calls: nat)
      requires Valid() && forall i :: 0 <= i < |fates| ==> Honest(fates[i])
      modifies this, coordinator
      ensures Valid() && old(coordinator.stored) <= coordinator.stored
      ensures ending.Drained? ==> coordinator.stored == buffer && sentTrace == |buffer|
      ensures calls <= |fates|
      ensures ending.GaveUp? ==> calls > 0 && Ends(fates[calls - 1]) && NoneEnds(fates[..calls - 1])
      ensures !ending.GaveUp? ==> NoneEnds(fates[..calls])
      ensures ending.StillSending? ==> calls == |fates| && AnsweredCalls(fates) < old(CallsLeft())
      ensures AllAnswered(fates) && |fates| >= old(CallsLeft()) ==> ending.Drained? && calls == old(CallsLeft())
    {
      calls := 0;
      while sentTrace != |buffer|
        invariant Valid() && old(coordinator.stored) <= coordinator.stored
        invariant calls <= |fates| && NoneEnds(fates[..calls])
        invariant AnsweredCalls(fates[..calls]) + CallsLeft() <= old(CallsLeft())
        invariant AllAnswered(fates) ==> calls + CallsLeft() == old(CallsLeft())
        decreases |fates| - calls
      {
        assert CallsLeft() > 0;
        if calls == |fates| {
          assert fates[..calls] == fates;
          return StillSending, calls;
        }
        assert fates[..calls + 1][..calls] == fates[..calls];
        var us := SendPatch(fates[calls]);
        calls := calls + 1;
        match us {
          case UpdateSucceeded =>
          case UpdateAbort => return GaveUp, calls;
          case UpdateNotFound => return GaveUp, calls;
          case UpdateRangeMismatch =>
          case UpdateFailed =>
        }
      }
      ending := Drained;
    }
  }

  predicate NoneEnds(fates: seq<Fate>) {
    forall i :: 0 <= i < |fates| ==> !Ends(fates[i])
  }

  predicate AllAnswered(fates: seq<Fate>) {
    forall i :: 0 <= i < |fates| ==> fates[i].Answered? && !Aborts(fates[i])
  }
}
