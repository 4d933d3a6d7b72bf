/** How the answer to a trace patch is read (network/patch_response.go,
    network/remote_job_state_response.go and PatchTrace in network/gitlab.go). */
module PatchResponse {
  import opened Base
  import opened Decimal

  const STATUS_ACCEPTED := 202
  const STATUS_FORBIDDEN := 403
  const STATUS_NOT_FOUND := 404
  const STATUS_RANGE_NOT_SATISFIABLE := 416
  /** The status the client uses for its own failures. */
  const CLIENT_ERROR := -100

  datatype UpdateState = UpdateSucceeded | UpdateNotFound | UpdateAbort | UpdateFailed | UpdateRangeMismatch

  datatype Response = Response(statusCode: int, remoteState: string, remoteRange: Bytes)

  predicate IsAborted(r: Response) {
    r.remoteState == "canceled" || r.remoteState == "failed" || r.statusCode == STATUS_FORBIDDEN
  }

  /** The pieces of s between separators. */
  function Split(s: Bytes, sep: byte): (parts: seq<Bytes>)
    ensures parts != []
  {
    if s == [] then [[]]
    else
      var rest := Split(s[1..], sep);
      if s[0] == sep then [[]] + rest else [[s[0]] + rest[0]] + rest[1..]
  }

  /** The pieces put together again with the separator between them. */
  function Join(parts: seq<Bytes>, sep: byte): Bytes
    requires parts != []
  {
    if |parts| == 1 then parts[0] else parts[0] + [sep] + Join(parts[1..], sep)
  }

  /** Splitting cuts at every separator and nowhere else. */
  lemma {:induction false} SplitCutsAtSeparators(s: Bytes, sep: byte)
    ensures Join(Split(s, sep), sep) == s
    ensures forall i :: 0 <= i < |Split(s, sep)| ==> sep !in Split(s, sep)[i]
  {
    if s != [] {
      var parts, rest := Split(s, sep), Split(s[1..], sep);
      SplitCutsAtSeparators(s[1..], sep);
      if s[0] == sep {
        assert parts[1..] == rest;
      } else {
        assert parts[1..] == rest[1..];
        assert |rest| > 1 ==> Join(parts, sep) == [s[0]] + (rest[0] + [sep] + Join(rest[1..], sep));
        forall i | 0 <= i < |parts|
          ensures sep !in parts[i]
        {
          assert i > 0 ==> parts[i] == rest[i];
        }
      }
      assert s == [s[0]] + s[1..];
    }
  }

  function NewOffset(remoteRange: Bytes): int {
    var parts := Split(remoteRange, MINUS);
    if |parts| == 2 then Atoi(parts[1]) else 0
  }

  /** The offset and the state for a patch of `size` bytes sent at `start`, given
      the response or its absence. */
  function ReadReply(start: nat, size: nat, reply: Option<Response>): (int, UpdateState) {
    match reply
    case None => (start, UpdateFailed)
    case Some(r) =>
      if IsAborted(r) then (start, UpdateAbort)
      else if r.statusCode == STATUS_ACCEPTED then (start + size, UpdateSucceeded)
      else if r.statusCode == STATUS_NOT_FOUND then (start, UpdateNotFound)
      else if r.statusCode == STATUS_RANGE_NOT_SATISFIABLE then (NewOffset(r.remoteRange), UpdateRangeMismatch)
      else if r.statusCode == CLIENT_ERROR then (start, UpdateAbort)
      else (start, UpdateFailed)
  }

  /** An answer after which no more patches are sent: the job is canceled or failed
      there, forbidden or gone, or the client cannot make the request. */
  predicate EndsDrain(r: Response) {
    IsAborted(r) || r.statusCode == STATUS_NOT_FOUND || r.statusCode == CLIENT_ERROR
  }

  /** The job is over for the coordinator. */
  predicate JobIsOver(remoteState: string) {
    remoteState == "canceled" || remoteState == "failed"
  }

  /** How every answer is read: the job's state first, then the status.  The offset moves
      on success, to the end of the patch, and on a mismatch, to what the header says. */
  lemma ReplyIsRead(start: nat, size: nat, r: Response)
    ensures var (offset, us) := ReadReply(start, size, Some(r));
            && (us == UpdateAbort <==> JobIsOver(r.remoteState) || r.statusCode == 403 || r.statusCode == -100)
            && (us == UpdateSucceeded <==> !JobIsOver(r.remoteState) && r.statusCode == 202)
            && (us == UpdateNotFound <==> !JobIsOver(r.remoteState) && r.statusCode == 404)
            && (us == UpdateRangeMismatch <==> !JobIsOver(r.remoteState) && r.statusCode == 416)
            && offset == (if us == UpdateSucceeded then start + size
                          else if us == UpdateRangeMismatch then NewOffset(r.remoteRange) else start)
    ensures ReadReply(start, size, None) == (start, UpdateFailed)
  {
  }

  /** Exactly these answers are read as abort or not-found. */
  lemma EndsDrainIsRead(start: nat, size: nat, reply: Option<Response>)
    ensures var us := ReadReply(start, size, reply).1;
            us == UpdateAbort || us == UpdateNotFound <==> reply.Some? && EndsDrain(reply.value)
  {
  }

  /** The coordinator's header for a stored trace of n bytes: "0-n". */
  function RangeHeader(n: nat): Bytes {
    [ZERO, MINUS] + Itoa(n)
  }

  lemma {:induction false} SplitWithout(s: Bytes, sep: byte)
    requires sep !in s
    ensures Split(s, sep) == [s]
  {
    if s != [] {
      SplitWithout(s[1..], sep);
      assert s == [s[0]] + s[1..];
    }
  }

  /** The header is read back as the stored length, up to the largest int. */
  lemma NewOffsetOfHeader(n: nat)
    ensures NewOffset(RangeHeader(n)) == if n > MAX_INT then MAX_INT else n
  {
    var h := RangeHeader(n);
    var digits := Numeral(n);
    assert MINUS !in digits by {
      assert forall i :: 0 <= i < |digits| ==> IsDigit(digits[i]);
    }
    SplitWithout(digits, MINUS);
    assert h[1..] == [MINUS] + digits;
    assert h[1..][1..] == digits;
    assert Split(h[1..], MINUS) == [[], digits];
    assert [ZERO] + [] == [ZERO];
    assert [[], digits][1..] == [digits];
    AtoiOfItoa(n);
  }

  function Count(s: Bytes, sep: byte): nat {
    if s == [] then 0 else (if s[0] == sep then 1 else 0) + Count(s[1..], sep)
  }

  lemma {:induction false} SplitCounts(s: Bytes, sep: byte)
    ensures |Split(s, sep)| == Count(s, sep) + 1
  {
    if s != [] {
      SplitCounts(s[1..], sep);
    }
  }

  lemma {:induction false} SplitAtOnly(a: Bytes, b: Bytes, sep: byte)
    requires sep !in a && sep !in b
    ensures Split(a + [sep] + b, sep) == [a, b]
  {
    var s := a + [sep] + b;
    if a == [] {
      assert s == [sep] + b && s[1..] == b;
      SplitWithout(b, sep);
    } else {
      assert s[1..] == a[1..] + [sep] + b;
      SplitAtOnly(a[1..], b, sep);
      assert a == [a[0]] + a[1..];
    }
  }

  /** Any header: one separator, and the number behind it counts, whatever stands before;
      none or several, and the offset is 0. */
  lemma NewOffsetOfAny(h: Bytes, a: Bytes, b: Bytes)
    ensures Count(h, MINUS) != 1 ==> NewOffset(h) == 0
    ensures MINUS !in a && MINUS !in b ==> NewOffset(a + [MINUS] + b) == Atoi(b)
  {
    SplitCounts(h, MINUS);
    if MINUS !in a && MINUS !in b {
      SplitAtOnly(a, b, MINUS);
    }
  }
}
