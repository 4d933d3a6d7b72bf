/** The stages of one build script: executeScript, attemptExecuteStage and
    executeUploadArtifacts (common/build.go). */
module BuildStages {
  import opened Base

  datatype Stage =
    | Prepare | GetSources | RestoreCache | DownloadArtifacts
    | UserScript | AfterScript | ArchiveCache
    | UploadOnSuccess | UploadOnFailure

  /** What a stage, or the check of its number of attempts, fails with. */
  datatype Error = AttemptsOutOfRange(stage: Stage) | StageFailed(reason: int)

  /** One execution of a stage and how it ended. */
  datatype Execution = Execution(stage: Stage, err: Option<Error>)

  datatype Attempts = Attempts(getSources: int, restoreCache: int, downloadArtifacts: int)

  predicate InRange(attempts: int) {
    1 <= attempts <= 10
  }

  /** A retried stage: between one and `attempts` executions, all but the last of
      them failed, and as many as allowed if the last one failed too.  A number of
      attempts outside [1, 10] is an error and executes nothing. */
  ghost predicate Retried(stage: Stage, attempts: int, es: seq<Execution>, err: Option<Error>) {
    if !InRange(attempts) then es == [] && err == Some(AttemptsOutOfRange(stage))
    else
      && 1 <= |es| <= attempts
      && (forall i :: 0 <= i < |es| ==> es[i].stage == stage)
      && (forall i :: 0 <= i < |es| - 1 ==> es[i].err.Some?)
      && err == es[|es| - 1].err
      && (err.Some? ==> |es| == attempts)
  }

  /** The executions of one script, by part; a part that is not reached is empty. */
  datatype Script = Script(
    prepare: Execution, getSources: seq<Execution>, restoreCache: seq<Execution>,
    downloadArtifacts: seq<Execution>, user: seq<Execution>, archive: seq<Execution>, upload: Execution)
  {
    function Job(): seq<Execution> {
      [prepare] + getSources + restoreCache + downloadArtifacts + user + archive
    }

    function All(): seq<Execution> {
      Job() + [upload]
    }
  }

  /** A part runs, with this outcome, if nothing failed before; otherwise it is
      skipped and the earlier error stays. */
  ghost predicate Part(before: Option<Error>, ran: bool, es: seq<Execution>, err: Option<Error>) {
    if before.None? then ran else es == [] && err == before
  }

  ghost predicate Once(stage: Stage, es: seq<Execution>, err: Option<Error>) {
    |es| == 1 && es[0] == Execution(stage, err)
  }

  /** The user script with its after_script, whose own outcome does not matter. */
  ghost predicate UserPart(es: seq<Execution>, err: Option<Error>) {
    |es| == 2 && es[0] == Execution(UserScript, err) && es[1].stage == AfterScript
  }

  /** The whole script: its parts in order, the job's error threaded through them,
      the upload chosen by that error, and the result. */
  ghost predicate ScriptOk(s: Script, a: Attempts, jobErr: Option<Error>, result: Option<Error>) {
    && s.prepare.stage == Prepare
    && (exists e1, e2, e3, e4 :: ChainOk(s, a, e1, e2, e3, e4, jobErr))
    && s.upload.stage == (if jobErr.None? then UploadOnSuccess else UploadOnFailure)
    && result == if jobErr.Some? then jobErr else s.upload.err
  }

  ghost predicate ChainOk(s: Script, a: Attempts, e1: Option<Error>, e2: Option<Error>, e3: Option<Error>,
                          e4: Option<Error>, jobErr: Option<Error>) {
    && Part(s.prepare.err, Retried(GetSources, a.getSources, s.getSources, e1), s.getSources, e1)
    && Part(e1, Retried(RestoreCache, a.restoreCache, s.restoreCache, e2), s.restoreCache, e2)
    && Part(e2, Retried(DownloadArtifacts, a.downloadArtifacts, s.downloadArtifacts, e3), s.downloadArtifacts, e3)
    && Part(e3, UserPart(s.user, e4), s.user, e4)
    && Part(e4, Once(ArchiveCache, s.archive, jobErr), s.archive, jobErr)
  }

  /** The executions end as the environment says: `env` of how many came before. */
  ghost predicate Told(es: seq<Execution>, from: nat, env: nat -> Option<Error>) {
    forall i :: 0 <= i < |es| ==> ToldAt(es, from, env, i)
  }

  predicate ToldAt(es: seq<Execution>, from: nat, env: nat -> Option<Error>, i: nat)
    requires i < |es|
  {
    es[i].err == env(from + i)
  }

  /** The same of the log from a position on. */
  ghost predicate Follows(log: seq<Execution>, from: nat, env: nat -> Option<Error>) {
    forall i: nat :: from <= i < |log| ==> log[i].err == env(i)
  }

  lemma FollowsOn(before: seq<Execution>, log: seq<Execution>, from: nat, env: nat -> Option<Error>)
    requires before <= log && Follows(before, from, env) && Follows(log, |before|, env)
    ensures Follows(log, from, env)
  {
  }

  lemma FollowsIsTold(log: seq<Execution>, es: seq<Execution>, env: nat -> Option<Error>)
    requires Follows(log + es, |log|, env)
    ensures Told(es, |log|, env)
  {
    forall i | 0 <= i < |es|
      ensures ToldAt(es, |log|, env, i)
    {
      assert (log + es)[|log| + i] == es[i];
    }
  }

  lemma ToldConcat(a: seq<Execution>, b: seq<Execution>, from: nat, env: nat -> Option<Error>)
    requires Told(a + b, from, env)
    ensures Told(a, from, env) && Told(b, from + |a|, env)
  {
    forall i | 0 <= i < |a|
      ensures ToldAt(a, from, env, i)
    {
      assert ToldAt(a + b, from, env, i);
    }
    var next := from + |a|;
    forall i | 0 <= i < |b|
      ensures ToldAt(b, next, env, i)
    {
      assert ToldAt(a + b, from, env, |a| + i);
    }
  }

  lemma LogAssembled(s: Script, before: seq<Execution>, log: seq<Execution>)
    requires log == before + [s.prepare] + (s.getSources + s.restoreCache + s.downloadArtifacts) +
                    (s.user + s.archive) + [s.upload]
    ensures log == before + s.All()
  {
    assert s.Job() == [s.prepare] + (s.getSources + s.restoreCache + s.downloadArtifacts) + (s.user + s.archive);
  }

  lemma ScriptAssembled(s: Script, a: Attempts, e1: Option<Error>, e2: Option<Error>, e3: Option<Error>,
                        e4: Option<Error>, jobErr: Option<Error>)
    requires s.prepare.stage == Prepare
    requires Part(s.prepare.err, Retried(GetSources, a.getSources, s.getSources, e1), s.getSources, e1)
    requires Part(e1, Retried(RestoreCache, a.restoreCache, s.restoreCache, e2), s.restoreCache, e2)
    requires Part(e2, Retried(DownloadArtifacts, a.downloadArtifacts, s.downloadArtifacts, e3), s.downloadArtifacts, e3)
    requires Part(e3, UserPart(s.user, e4), s.user, e4)
    requires Part(e4, Once(ArchiveCache, s.archive, jobErr), s.archive, jobErr)
    requires s.upload.stage == if jobErr.None? then UploadOnSuccess else UploadOnFailure
    ensures ScriptOk(s, a, jobErr, if jobErr.Some? then jobErr else s.upload.err)
  {
    assert ChainOk(s, a, e1, e2, e3, e4, jobErr);
  }

  // ----- The build -----

  class Build {
    var currentStage: Option<Stage>
    var log: seq<Execution>

    constructor ()
      ensures currentStage.None? && log == []
    {
      currentStage, log := None, [];
    }

    /** The executor decides how each execution ends: `env` of how many came before. */
    method ExecuteStage(stage: Stage, env: nat -> Option<Error>) returns (err: Option<Error>)
      modifies this
      ensures currentStage == Some(stage)
      ensures err == env(|old(log)|) && log == old(log) + [Execution(stage, err)]
      ensures Follows(log, |old(log)|, env)
    {
      currentStage := Some(stage);
      err := env(|log|);
      log := log + [Execution(stage, err)];
    }

    method AttemptExecuteStage(stage: Stage, attempts: int, env: nat -> Option<Error>)
        returns (err: Option<Error>, ghost es: seq<Execution>)
      modifies this
      ensures log == old(log) + es && Retried(stage, attempts, es, err)
      ensures Follows(log, |old(log)|, env)
    {
      es := [];
      if attempts < 1 || attempts > 10 {
        return Some(AttemptsOutOfRange(stage)), es;
      }
      err := None;
      for attempt := 0 to attempts
        invariant log == old(log) + es && |es| == attempt
        invariant forall i :: 0 <= i < |es| ==> es[i].stage == stage && es[i].err.Some?
        invariant Follows(log, |old(log)|, env)
        invariant attempt > 0 ==> err == es[attempt - 1].err
      {
        err := ExecuteStage(stage, env);
        es := es + [Execution(stage, err)];
        if err.None? {
          return;
        }
      }
    }

    method ExecuteUploadArtifacts(state: Option<Error>, env: nat -> Option<Error>)
        returns (err: Option<Error>)
      modifies this
      ensures log == old(log) + [Execution(if state.None? then UploadOnSuccess else UploadOnFailure, err)]
      ensures Follows(log, |old(log)|, env)
    {
      if state.None? {
        err := ExecuteStage(UploadOnSuccess, env);
      } else {
        err := ExecuteStage(UploadOnFailure, env);
      }
    }

    /** The three retried stages, each only if all before it succeeded. */
    method PrepareSources(a: Attempts, before: Option<Error>, env: nat -> Option<Error>)
        returns (err: Option<Error>, ghost gs: seq<Execution>, ghost rc: seq<Execution>, ghost da: seq<Execution>,
                 ghost e1: Option<Error>, ghost e2: Option<Error>)
      modifies this
      ensures log == old(log) + (gs + rc + da) && Follows(log, |old(log)|, env)
      ensures Part(before, Retried(GetSources, a.getSources, gs, e1), gs, e1)
      ensures Part(e1, Retried(RestoreCache, a.restoreCache, rc, e2), rc, e2)
      ensures Part(e2, Retried(DownloadArtifacts, a.downloadArtifacts, da, err), da, err)
    {
      err, gs, rc, da := before, [], [], [];
      if err.None? {
        err, gs := AttemptExecuteStage(GetSources, a.getSources, env);
      }
      assert log == old(log) + gs;
      e1 := err;
      if err.None? {
        err, rc := AttemptExecuteStage(RestoreCache, a.restoreCache, env);
      }
      assert log == old(log) + (gs + rc);
      e2 := err;
      if err.None? {
        err, da := AttemptExecuteStage(DownloadArtifacts, a.downloadArtifacts, env);
      }
    }

    /** The user script, its after_script, and the cache if the script succeeded. */
    method RunUserScript(before: Option<Error>, env: nat -> Option<Error>)
        returns (err: Option<Error>, ghost user: seq<Execution>, ghost archive: seq<Execution>, ghost e4: Option<Error>)
      modifies this
      ensures log == old(log) + (user + archive) && Follows(log, |old(log)|, env)
      ensures Part(before, UserPart(user, e4), user, e4)
      ensures Part(e4, Once(ArchiveCache, archive, err), archive, err)
    {
      err, user, archive := before, [], [];
      if err.None? {
        err := ExecuteStage(UserScript, env);
        var afterErr := ExecuteStage(AfterScript, env);
        user := [Execution(UserScript, err), Execution(AfterScript, afterErr)];
      }
      e4 := err;
      if err.None? {
        err := ExecuteStage(ArchiveCache, env);
        archive := [Execution(ArchiveCache, err)];
      }
    }

    method ExecuteScript(a: Attempts, env: nat -> Option<Error>)
        returns (result: Option<Error>, ghost s: Script, ghost jobErr: Option<Error>)
      modifies this
      ensures log == old(log) + s.All() && Told(s.All(), |old(log)|, env)
      ensures ScriptOk(s, a, jobErr, result)
    {
      var err := ExecuteStage(Prepare, env);
      ghost var prepare, log1 := Execution(Prepare, err), log;
      ghost var gs, rc, da, e1, e2;
      err, gs, rc, da, e1, e2 := PrepareSources(a, err, env);
      ghost var e3, log2 := err, log;
      FollowsOn(log1, log2, |old(log)|, env);
      ghost var user, archive, e4;
      err, user, archive, e4 := RunUserScript(err, env);
      FollowsOn(log2, log, |old(log)|, env);
      ghost var log3 := log;
      jobErr := err;
      var uploadError := ExecuteUploadArtifacts(err, env);
      FollowsOn(log3, log, |old(log)|, env);
      s := Script(prepare, gs, rc, da, user, archive,
                  Execution(if err.None? then UploadOnSuccess else UploadOnFailure, uploadError));
      LogAssembled(s, old(log), log);
      FollowsIsTold(old(log), s.All(), env);
      ScriptAssembled(s, a, e1, e2, e3, e4, jobErr);
      if err.Some? {
        return err, s, jobErr;
      }
      return uploadError, s, jobErr;
    }
  }

  // ----- The grammar admits one run for each environment -----

  /** A retried stage, as it goes: again after a failure while attempts are left. */
  function Tries(stage: Stage, attempts: nat, from: nat, env: nat -> Option<Error>): (es: seq<Execution>)
    ensures es != []
  {
    var e := Execution(stage, env(from));
    if e.err.None? || attempts <= 1 then [e] else [e] + Tries(stage, attempts - 1, from + 1, env)
  }

  function Ran(before: Option<Error>, stage: Stage, attempts: int, from: nat, env: nat -> Option<Error>)
      : (seq<Execution>, Option<Error>)
  {
    if before.Some? then ([], before)
    else if !InRange(attempts) then ([], Some(AttemptsOutOfRange(stage)))
    else
      var es := Tries(stage, attempts, from, env);
      (es, es[|es| - 1].err)
  }

  function UserRan(before: Option<Error>, from: nat, env: nat -> Option<Error>): (seq<Execution>, Option<Error>) {
    if before.Some? then ([], before)
    else ([Execution(UserScript, env(from)), Execution(AfterScript, env(from + 1))], env(from))
  }

  function ArchiveRan(before: Option<Error>, from: nat, env: nat -> Option<Error>): (seq<Execution>, Option<Error>) {
    if before.Some? then ([], before) else ([Execution(ArchiveCache, env(from))], env(from))
  }

  /** The run of a script under an environment, and the job's error. */
  function ScriptOf(a: Attempts, from: nat, env: nat -> Option<Error>): (Script, Option<Error>) {
    var prepare := Execution(Prepare, env(from));
    var n1 := from + 1;
    var (gs, e1) := Ran(prepare.err, GetSources, a.getSources, n1, env);
    var n2 := n1 + |gs|;
    var (rc, e2) := Ran(e1, RestoreCache, a.restoreCache, n2, env);
    var n3 := n2 + |rc|;
    var (da, e3) := Ran(e2, DownloadArtifacts, a.downloadArtifacts, n3, env);
    var n4 := n3 + |da|;
    var (user, e4) := UserRan(e3, n4, env);
    var n5 := n4 + |user|;
    var (archive, jobErr) := ArchiveRan(e4, n5, env);
    var upload := Execution(if jobErr.None? then UploadOnSuccess else UploadOnFailure, env(n5 + |archive|));
    (Script(prepare, gs, rc, da, user, archive, upload), jobErr)
  }

  /** What fits the description of a retried stage is its course. */
  lemma {:induction false} RetriedIsTries(stage: Stage, attempts: int, from: nat, env: nat -> Option<Error>,
                                          es: seq<Execution>, err: Option<Error>)
    requires InRange(attempts) && Retried(stage, attempts, es, err) && Told(es, from, env)
    ensures es == Tries(stage, attempts, from, env)
    decreases attempts
  {
    assert ToldAt(es, from, env, 0);
    assert es[0] == Execution(stage, env(from));
    if |es| == 1 {
      assert es == [es[0]];
    } else {
      var rest, next := es[1..], from + 1;
      forall i | 0 <= i < |rest|
        ensures ToldAt(rest, next, env, i)
      {
        assert ToldAt(es, from, env, i + 1);
      }
      RetriedIsTries(stage, attempts - 1, next, env, rest, err);
      assert es == [es[0]] + rest;
    }
  }

  lemma PartIsRan(before: Option<Error>, stage: Stage, attempts: int, from: nat, env: nat -> Option<Error>,
                  es: seq<Execution>, err: Option<Error>)
    requires Part(before, Retried(stage, attempts, es, err), es, err) && Told(es, from, env)
    ensures (es, err) == Ran(before, stage, attempts, from, env)
  {
    if before.None? && InRange(attempts) {
      RetriedIsTries(stage, attempts, from, env, es, err);
    }
  }

  /** Each part of the job ends as the environment says, from where it starts. */
  ghost predicate ToldEach(s: Script, from: nat, env: nat -> Option<Error>) {
    var n1 := from + 1;
    var n2 := n1 + |s.getSources|;
    var n3 := n2 + |s.restoreCache|;
    var n4 := n3 + |s.downloadArtifacts|;
    && s.prepare.err == env(from)
    && Told(s.getSources, n1, env) && Told(s.restoreCache, n2, env) && Told(s.downloadArtifacts, n3, env)
    && Told(s.user, n4, env) && Told(s.archive, n4 + |s.user|, env)
  }

  function JobLength(s: Script): nat {
    1 + |s.getSources| + |s.restoreCache| + |s.downloadArtifacts| + |s.user| + |s.archive|
  }

  lemma ToldParts(s: Script, from: nat, env: nat -> Option<Error>)
    requires Told(s.All(), from, env)
    ensures ToldEach(s, from, env) && s.upload.err == env(from + JobLength(s))
  {
    var p1 := [s.prepare] + s.getSources;
    var p2 := p1 + s.restoreCache;
    var p3 := p2 + s.downloadArtifacts;
    var p4 := p3 + s.user;
    ToldConcat(s.Job(), [s.upload], from, env);
    ToldConcat(p4, s.archive, from, env);
    ToldConcat(p3, s.user, from, env);
    ToldConcat(p2, s.downloadArtifacts, from, env);
    ToldConcat(p1, s.restoreCache, from, env);
    ToldConcat([s.prepare], s.getSources, from, env);
    assert ToldAt([s.prepare], from, env, 0);
    assert ToldAt([s.upload], from + |s.Job()|, env, 0);
  }

  lemma UserIs(from: nat, env: nat -> Option<Error>, e3: Option<Error>,
               us: seq<Execution>, xs: seq<Execution>, e4: Option<Error>, e: Option<Error>)
    requires Part(e3, UserPart(us, e4), us, e4) && Part(e4, Once(ArchiveCache, xs, e), xs, e)
    requires Told(us, from, env) && Told(xs, from + |us|, env)
    ensures (us, e4) == UserRan(e3, from, env) && (xs, e) == ArchiveRan(e4, from + |us|, env)
  {
    if e3.None? {
      assert ToldAt(us, from, env, 0) && ToldAt(us, from, env, 1);
      assert us == [us[0], us[1]];
    }
    if e4.None? {
      assert ToldAt(xs, from + |us|, env, 0);
      assert xs == [xs[0]];
    }
  }

  lemma PreparedIs(a: Attempts, from: nat, env: nat -> Option<Error>, s: Script, e1: Option<Error>, e2: Option<Error>,
                   e3: Option<Error>, e4: Option<Error>, e: Option<Error>)
    requires ChainOk(s, a, e1, e2, e3, e4, e) && ToldEach(s, from, env)
    ensures (s.getSources, e1) == Ran(s.prepare.err, GetSources, a.getSources, from + 1, env)
    ensures var n := from + 1 + |s.getSources|;
            (s.restoreCache, e2) == Ran(e1, RestoreCache, a.restoreCache, n, env)
    ensures var n := from + 1 + |s.getSources| + |s.restoreCache|;
            (s.downloadArtifacts, e3) == Ran(e2, DownloadArtifacts, a.downloadArtifacts, n, env)
  {
    var n := from + 1;
    PartIsRan(s.prepare.err, GetSources, a.getSources, n, env, s.getSources, e1);
    n := n + |s.getSources|;
    PartIsRan(e1, RestoreCache, a.restoreCache, n, env, s.restoreCache, e2);
    n := n + |s.restoreCache|;
    PartIsRan(e2, DownloadArtifacts, a.downloadArtifacts, n, env, s.downloadArtifacts, e3);
  }

  lemma RanInTurn(a: Attempts, from: nat, env: nat -> Option<Error>, s: Script, e1: Option<Error>, e2: Option<Error>,
                  e3: Option<Error>, e4: Option<Error>, e: Option<Error>, n2: nat, n3: nat, n4: nat, n5: nat)
    requires n2 == from + 1 + |s.getSources| && n3 == n2 + |s.restoreCache|
    requires n4 == n3 + |s.downloadArtifacts| && n5 == n4 + |s.user|
    requires s.prepare == Execution(Prepare, env(from))
    requires (s.getSources, e1) == Ran(s.prepare.err, GetSources, a.getSources, from + 1, env)
    requires (s.restoreCache, e2) == Ran(e1, RestoreCache, a.restoreCache, n2, env)
    requires (s.downloadArtifacts, e3) == Ran(e2, DownloadArtifacts, a.downloadArtifacts, n3, env)
    requires (s.user, e4) == UserRan(e3, n4, env)
    requires (s.archive, e) == ArchiveRan(e4, n5, env)
    requires s.upload == Execution(if e.None? then UploadOnSuccess else UploadOnFailure, env(n5 + |s.archive|))
    ensures (s, e) == ScriptOf(a, from, env)
  {
  }

  lemma EndIs(a: Attempts, from: nat, env: nat -> Option<Error>, s: Script, e1: Option<Error>, e2: Option<Error>,
              e3: Option<Error>, e4: Option<Error>, e: Option<Error>)
    requires ChainOk(s, a, e1, e2, e3, e4, e) && ToldEach(s, from, env)
    ensures s.prepare.err == env(from)
    ensures var n := from + 1 + |s.getSources| + |s.restoreCache| + |s.downloadArtifacts|;
            (s.user, e4) == UserRan(e3, n, env) && (s.archive, e) == ArchiveRan(e4, n + |s.user|, env)
  {
    var n := from + 1 + |s.getSources| + |s.restoreCache| + |s.downloadArtifacts|;
    UserIs(n, env, e3, s.user, s.archive, e4, e);
  }

  lemma ChainIs(a: Attempts, from: nat, env: nat -> Option<Error>, s: Script, e1: Option<Error>, e2: Option<Error>,
                e3: Option<Error>, e4: Option<Error>, e: Option<Error>)
    requires ChainOk(s, a, e1, e2, e3, e4, e) && ToldEach(s, from, env)
    requires s.prepare.stage == Prepare
    requires s.upload == Execution(if e.None? then UploadOnSuccess else UploadOnFailure, env(from + JobLength(s)))
    ensures (s, e) == ScriptOf(a, from, env)
  {
    PreparedIs(a, from, env, s, e1, e2, e3, e4, e);
    EndIs(a, from, env, s, e1, e2, e3, e4, e);
    var n2 := from + 1 + |s.getSources|;
    var n3 := n2 + |s.restoreCache|;
    var n4 := n3 + |s.downloadArtifacts|;
    RanInTurn(a, from, env, s, e1, e2, e3, e4, e, n2, n3, n4, n4 + |s.user|);
  }

  /** For every environment the grammar admits exactly one run, and it is the one
      computed stage by stage: the grammar leaves nothing open. */
  lemma ScriptIsDetermined(a: Attempts, from: nat, env: nat -> Option<Error>,
                           s: Script, jobErr: Option<Error>, result: Option<Error>)
    requires ScriptOk(s, a, jobErr, result) && Told(s.All(), from, env)
    ensures (s, jobErr) == ScriptOf(a, from, env)
  {
    ToldParts(s, from, env);
    var e1, e2, e3, e4 :| ChainOk(s, a, e1, e2, e3, e4, jobErr);
    ChainIs(a, from, env, s, e1, e2, e3, e4, jobErr);
  }

  // ----- What the log of a script tells, without its parts -----

  function Rank(stage: Stage): nat {
    match stage
    case Prepare => 0
    case GetSources => 1
    case RestoreCache => 2
    case DownloadArtifacts => 3
    case UserScript => 4
    case AfterScript => 5
    case ArchiveCache => 6
    case UploadOnSuccess => 7
    case UploadOnFailure => 7
  }

  /** All executions of one part are of the same stage. */
  ghost predicate AllOf(stage: Stage, es: seq<Execution>) {
    forall i :: 0 <= i < |es| ==> es[i].stage == stage
  }

  function Count(es: seq<Execution>, stage: Stage): nat {
    if es == [] then 0 else Count(es[..|es| - 1], stage) + if es[|es| - 1].stage == stage then 1 else 0
  }

  lemma {:induction false} CountConcat(a: seq<Execution>, b: seq<Execution>, stage: Stage)
    ensures Count(a + b, stage) == Count(a, stage) + Count(b, stage)
  {
    if b == [] {
      assert a + b == a;
    } else {
      assert (a + b)[..|a + b| - 1] == a + b[..|b| - 1];
      CountConcat(a, b[..|b| - 1], stage);
    }
  }

  lemma {:induction false} CountAllOf(es: seq<Execution>, own: Stage, stage: Stage)
    requires AllOf(own, es)
    ensures Count(es, stage) == if own == stage then |es| else 0
  {
    if es != [] {
      CountAllOf(es[..|es| - 1], own, stage);
    }
  }

  lemma PartStages(s: Script, a: Attempts, jobErr: Option<Error>, result: Option<Error>)
    requires ScriptOk(s, a, jobErr, result)
    ensures AllOf(GetSources, s.getSources) && AllOf(RestoreCache, s.restoreCache)
    ensures AllOf(DownloadArtifacts, s.downloadArtifacts)
    ensures |s.getSources| <= Max(0, a.getSources) && |s.restoreCache| <= Max(0, a.restoreCache)
    ensures |s.downloadArtifacts| <= Max(0, a.downloadArtifacts)
    ensures s.user == [] || (|s.user| == 2 && s.user[0].stage == UserScript && s.user[1].stage == AfterScript)
    ensures s.archive == [] || (|s.archive| == 1 && s.archive[0].stage == ArchiveCache)
  {
    var e1, e2, e3, e4 :| ChainOk(s, a, e1, e2, e3, e4, jobErr);
  }

  /** How often each stage appears in the log: a retried stage at most its number of
      attempts, the user script at most once and after_script exactly as often,
      archiving at most once, and exactly one upload, which comes last. */
  lemma StageCounts(s: Script, a: Attempts, jobErr: Option<Error>, result: Option<Error>)
    requires ScriptOk(s, a, jobErr, result)
    ensures var es := s.All();
            && Count(es, Prepare) == 1
            && Count(es, GetSources) <= Max(0, a.getSources)
            && Count(es, RestoreCache) <= Max(0, a.restoreCache)
            && Count(es, DownloadArtifacts) <= Max(0, a.downloadArtifacts)
            && Count(es, UserScript) == Count(es, AfterScript) <= 1
            && Count(es, ArchiveCache) <= Count(es, UserScript)
            && Count(es, UploadOnSuccess) + Count(es, UploadOnFailure) == 1
            && es[|es| - 1] == s.upload
  {
    PartStages(s, a, jobErr, result);
    forall stage
      ensures Count(s.All(), stage) == CountOf(s, stage)
    {
      CountParts(s, stage);
    }
    CountOfParts(s);
    ArchiveNeedsUser(s, a, jobErr, result);
  }

  function CountOf(s: Script, stage: Stage): nat {
    Count([s.prepare], stage) + Count(s.getSources, stage) + Count(s.restoreCache, stage) +
    Count(s.downloadArtifacts, stage) + Count(s.user, stage) + Count(s.archive, stage) + Count([s.upload], stage)
  }

  lemma CountParts(s: Script, stage: Stage)
    ensures Count(s.All(), stage) == CountOf(s, stage)
  {
    var p1 := [s.prepare] + s.getSources;
    var p2 := p1 + s.restoreCache;
    var p3 := p2 + s.downloadArtifacts;
    var p4 := p3 + s.user;
    CountConcat([s.prepare], s.getSources, stage);
    CountConcat(p1, s.restoreCache, stage);
    CountConcat(p2, s.downloadArtifacts, stage);
    CountConcat(p3, s.user, stage);
    CountConcat(p4, s.archive, stage);
    CountConcat(s.Job(), [s.upload], stage);
  }

  lemma CountOne(e: Execution, stage: Stage)
    ensures Count([e], stage) == if e.stage == stage then 1 else 0
  {
    assert [e][..0] == [];
  }

  lemma CountOfParts(s: Script)
    requires s.prepare.stage == Prepare && (s.upload.stage == UploadOnSuccess || s.upload.stage == UploadOnFailure)
    requires AllOf(GetSources, s.getSources) && AllOf(RestoreCache, s.restoreCache)
    requires AllOf(DownloadArtifacts, s.downloadArtifacts)
    requires s.user == [] || (|s.user| == 2 && s.user[0].stage == UserScript && s.user[1].stage == AfterScript)
    requires s.archive == [] || (|s.archive| == 1 && s.archive[0].stage == ArchiveCache)
    ensures forall stage :: CountOf(s, stage) ==
              match stage
              case Prepare => 1
              case GetSources => |s.getSources|
              case RestoreCache => |s.restoreCache|
              case DownloadArtifacts => |s.downloadArtifacts|
              case UserScript => if s.user == [] then 0 else 1
              case AfterScript => if s.user == [] then 0 else 1
              case ArchiveCache => |s.archive|
              case UploadOnSuccess => if s.upload.stage == UploadOnSuccess then 1 else 0
              case UploadOnFailure => if s.upload.stage == UploadOnFailure then 1 else 0
  {
    forall stage
      ensures Count(s.user, stage) == if s.user != [] && (stage.UserScript? || stage.AfterScript?) then 1 else 0
    {
      if s.user != [] {
        assert s.user == [s.user[0]] + [s.user[1]];
        CountConcat([s.user[0]], [s.user[1]], stage);
        CountOne(s.user[0], stage);
        CountOne(s.user[1], stage);
      }
    }
    forall stage
      ensures Count(s.getSources, stage) == if stage.GetSources? then |s.getSources| else 0
      ensures Count(s.restoreCache, stage) == if stage.RestoreCache? then |s.restoreCache| else 0
      ensures Count(s.downloadArtifacts, stage) == if stage.DownloadArtifacts? then |s.downloadArtifacts| else 0
      ensures Count(s.archive, stage) == if stage.ArchiveCache? then |s.archive| else 0
      ensures Count([s.prepare], stage) == if stage.Prepare? then 1 else 0
      ensures Count([s.upload], stage) == if s.upload.stage == stage then 1 else 0
    {
      CountAllOf(s.getSources, GetSources, stage);
      CountAllOf(s.restoreCache, RestoreCache, stage);
      CountAllOf(s.downloadArtifacts, DownloadArtifacts, stage);
      CountAllOf(s.archive, ArchiveCache, stage);
      CountOne(s.prepare, stage);
      CountOne(s.upload, stage);
    }
  }

  lemma ArchiveNeedsUser(s: Script, a: Attempts, jobErr: Option<Error>, result: Option<Error>)
    requires ScriptOk(s, a, jobErr, result)
    ensures s.archive != [] ==> s.user != [] && s.user[0].err.None?
  {
    var e1, e2, e3, e4 :| ChainOk(s, a, e1, e2, e3, e4, jobErr);
  }

  /** The last execution of a non-empty log. */
  function Last(es: seq<Execution>): Execution
    requires es != []
  {
    es[|es| - 1]
  }

  /** The last execution before the upload, after_script left aside. */
  function LastOfJob(job: seq<Execution>): Execution
    requires job != []
  {
    if Last(job).stage.AfterScript? && |job| > 1 then job[|job| - 2] else Last(job)
  }

  /** A job that stops after this stage ended well does so because the number of
      attempts of the next stage is out of range; after the cache nothing is left. */
  function RefusedAfter(stage: Stage): Option<Error> {
    match stage
    case Prepare => Some(AttemptsOutOfRange(GetSources))
    case GetSources => Some(AttemptsOutOfRange(RestoreCache))
    case RestoreCache => Some(AttemptsOutOfRange(DownloadArtifacts))
    case _ => None
  }

  datatype Verdict = Verdict(jobErr: Option<Error>, upload: Stage, result: Option<Error>)

  /** What a flat log says, read from its end: the upload comes last, and the execution
      before it, after_script left aside, decides whether the job failed. */
  function VerdictOf(es: seq<Execution>): Verdict
    requires |es| >= 2
  {
    var last := LastOfJob(es[..|es| - 1]);
    var jobErr := if last.err.Some? then last.err else RefusedAfter(last.stage);
    if jobErr.Some? then Verdict(jobErr, UploadOnFailure, jobErr)
    else Verdict(None, UploadOnSuccess, Last(es).err)
  }

  /** The part of the job that the log ends with, and the errors up to there. */
  lemma LastDecides(s: Script, a: Attempts, e1: Option<Error>, e2: Option<Error>, e3: Option<Error>,
                    e4: Option<Error>, jobErr: Option<Error>)
    requires s.prepare.stage == Prepare && ChainOk(s, a, e1, e2, e3, e4, jobErr)
    ensures var last := LastOfJob(s.Job());
            jobErr == if last.err.Some? then last.err else RefusedAfter(last.stage)
  {
    var p1 := [s.prepare] + s.getSources;
    var p2 := p1 + s.restoreCache;
    var p3 := p2 + s.downloadArtifacts;
    if s.prepare.err.Some? || s.getSources == [] {
      assert s.Job() == [s.prepare];
    } else if e1.Some? || s.restoreCache == [] {
      assert s.Job() == p1;
    } else if e2.Some? || s.downloadArtifacts == [] {
      assert s.Job() == p2;
    } else if e3.Some? {
      assert s.Job() == p3;
    } else if e4.Some? {
      assert s.Job() == p3 + s.user;
    } else {
      assert Last(s.Job()) == s.archive[0];
    }
  }

  /** The flat log alone, without the attempts and without its division into parts,
      gives the job's error, the upload that runs and the result. */
  lemma ResultFromLog(s: Script, a: Attempts, jobErr: Option<Error>, result: Option<Error>)
    requires ScriptOk(s, a, jobErr, result)
    ensures |s.All()| >= 2 && VerdictOf(s.All()) == Verdict(jobErr, s.upload.stage, result)
  {
    var e1, e2, e3, e4 :| ChainOk(s, a, e1, e2, e3, e4, jobErr);
    LastDecides(s, a, e1, e2, e3, e4, jobErr);
    assert s.All()[..|s.All()| - 1] == s.Job();
  }

  /** The user script is attempted exactly when every stage before it ended well. */
  lemma UserScriptIffPrepared(s: Script, a: Attempts, jobErr: Option<Error>, result: Option<Error>)
    requires ScriptOk(s, a, jobErr, result)
    ensures s.user != [] <==>
              && s.prepare.err.None?
              && s.getSources != [] && Last(s.getSources).err.None?
              && s.restoreCache != [] && Last(s.restoreCache).err.None?
              && s.downloadArtifacts != [] && Last(s.downloadArtifacts).err.None?
    ensures s.archive != [] <==> s.user != [] && s.user[0].err.None?
  {
    var e1, e2, e3, e4 :| ChainOk(s, a, e1, e2, e3, e4, jobErr);
  }

  lemma PreparedInOrder(s: Script)
    requires s.prepare.stage == Prepare && AllOf(GetSources, s.getSources)
    requires AllOf(RestoreCache, s.restoreCache) && AllOf(DownloadArtifacts, s.downloadArtifacts)
    ensures OrderedUpTo([s.prepare] + s.getSources + s.restoreCache + s.downloadArtifacts, 3)
  {
    var p1 := [s.prepare] + s.getSources;
    RankAppend([s.prepare], s.getSources, 0, 1);
    RankAppend(p1, s.restoreCache, 1, 2);
    RankAppend(p1 + s.restoreCache, s.downloadArtifacts, 2, 3);
  }

  /** A retried stage that is due: it runs, stops at its first success, and uses all its
      attempts if there is none. */
  predicate RunsToSuccess(es: seq<Execution>, attempts: int) {
    && es != []
    && (forall i :: 0 <= i < |es| - 1 ==> es[i].err.Some?)
    && (Last(es).err.Some? ==> |es| == attempts)
  }

  /** Each retried stage is due exactly if the one before it ended well. */
  lemma RetriedStagesRun(s: Script, a: Attempts, jobErr: Option<Error>, result: Option<Error>)
    requires ScriptOk(s, a, jobErr, result)
    ensures if s.prepare.err.None? && 1 <= a.getSources <= 10 then RunsToSuccess(s.getSources, a.getSources)
            else s.getSources == []
    ensures if s.getSources != [] && Last(s.getSources).err.None? && 1 <= a.restoreCache <= 10 then
              RunsToSuccess(s.restoreCache, a.restoreCache)
            else s.restoreCache == []
    ensures if s.restoreCache != [] && Last(s.restoreCache).err.None? && 1 <= a.downloadArtifacts <= 10 then
              RunsToSuccess(s.downloadArtifacts, a.downloadArtifacts)
            else s.downloadArtifacts == []
  {
    var e1, e2, e3, e4 :| ChainOk(s, a, e1, e2, e3, e4, jobErr);
  }

  lemma JobInOrder(s: Script, a: Attempts, jobErr: Option<Error>, result: Option<Error>)
    requires ScriptOk(s, a, jobErr, result)
    ensures OrderedUpTo(s.Job(), 6)
  {
    PartStages(s, a, jobErr, result);
    PreparedInOrder(s);
    var prepared := [s.prepare] + s.getSources + s.restoreCache + s.downloadArtifacts;
    RankAppend(prepared, s.user, 3, 5);
    RankAppend(prepared + s.user, s.archive, 5, 6);
  }

  /** Stages never go back: the log is ordered. */
  lemma StagesInOrder(s: Script, a: Attempts, jobErr: Option<Error>, result: Option<Error>, i: nat, j: nat)
    requires ScriptOk(s, a, jobErr, result) && i <= j < |s.All()|
    ensures Rank(s.All()[i].stage) <= Rank(s.All()[j].stage)
  {
    JobInOrder(s, a, jobErr, result);
    RankAppend(s.Job(), [s.upload], 6, 7);
  }

  /** Ordered, and nothing beyond rank r. */
  ghost predicate OrderedUpTo(es: seq<Execution>, r: nat) {
    && (forall i, j :: 0 <= i <= j < |es| ==> Rank(es[i].stage) <= Rank(es[j].stage))
    && (forall i :: 0 <= i < |es| ==> Rank(es[i].stage) <= r)
  }

  lemma RankAppend(a: seq<Execution>, b: seq<Execution>, q: nat, r: nat)
    requires q <= r && OrderedUpTo(a, q) && OrderedUpTo(b, r)
    requires forall i :: 0 <= i < |b| ==> q <= Rank(b[i].stage)
    ensures OrderedUpTo(a + b, r)
  {
  }
}
