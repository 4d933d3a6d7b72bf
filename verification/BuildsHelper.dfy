/** Accounting of running builds (commands/builds_helper.go). */
module BuildsHelper {
  datatype RunnerConfig = RunnerConfig(token: string, limit: int, requestConcurrency: int) {
    function GetRequestConcurrency(): (n: int)
      ensures n >= 1 && (requestConcurrency >= 1 ==> n == requestConcurrency)
    {
      if requestConcurrency <= 0 then 1 else requestConcurrency
    }
  }

  datatype RunnerCounter = RunnerCounter(builds: int, requests: int, requestConcurrencyExceeded: int)

  const NO_BUILDS := RunnerCounter(0, 0, 0)

  /** The first number from `start` on that is not in use.  By counting, it is at
      most |used| away, which is also why the search ends. */
  function LeastFree(start: int, used: set<int>): (id: int)
    ensures start <= id <= start + |used|
    ensures id !in used
    decreases |used|
  {
    if start !in used then start else LeastFree(start + 1, used - {start})
  }

  /** Every number below the chosen one is in use. */
  lemma {:induction false} BelowLeastFree(start: int, used: set<int>, k: int)
    requires start <= k < LeastFree(start, used)
    ensures k in used
    decreases |used|
  {
    if k != start {
      BelowLeastFree(start + 1, used - {start}, k);
    }
  }

  lemma AllBelowLeastFree(start: int, used: set<int>)
    ensures forall k :: start <= k < LeastFree(start, used) ==> k in used
  {
    forall k | start <= k < LeastFree(start, used)
      ensures k in used
    {
      BelowLeastFree(start, used, k);
    }
  }

  /** The search loops of addBuild. */
  method FirstFree(start: int, used: set<int>) returns (id: int)
    ensures id == LeastFree(start, used)
  {
    id := start;
    AllBelowLeastFree(start, used);
    while id in used
      invariant start <= id <= LeastFree(start, used)
      decreases LeastFree(start, used) - id
    {
      id := id + 1;
    }
  }

  class Build {
    const token: string            // Runner.Token
    const project: int             // JobInfo.ProjectID
    var runnerID: int
    var projectRunnerID: int

    constructor (token: string, project: int)
      ensures this.token == token && this.project == project
      ensures runnerID == 0 && projectRunnerID == 0
    {
      this.token, this.project := token, project;
      runnerID, projectRunnerID := 0, 0;
    }
  }

  ghost predicate Apart(a: Build, b: Build)
    reads a, b
  {
    && a != b
    && (a.token == b.token ==>
          a.runnerID != b.runnerID && (a.project == b.project ==> a.projectRunnerID != b.projectRunnerID))
  }

  /** The build does not use these numbers for this token and project. */
  ghost predicate Differs(b: Build, token: string, project: int, id: int, projectID: int)
    reads b
  {
    b.token == token ==> b.runnerID != id && (b.project == project ==> b.projectRunnerID != projectID)
  }

  /** The RunnerIDs in use for a token. */
  ghost function RunnerIDs(bs: seq<Build>, token: string): set<int>
    reads bs
  {
    set i | 0 <= i < |bs| && bs[i].token == token :: bs[i].runnerID
  }

  /** The ProjectRunnerIDs in use for a token and a project. */
  ghost function ProjectRunnerIDs(bs: seq<Build>, token: string, project: int): set<int>
    reads bs
  {
    set i | 0 <= i < |bs| && bs[i].token == token && bs[i].project == project :: bs[i].projectRunnerID
  }

  function Matching(bs: seq<Build>, token: string): nat {
    if bs == [] then 0 else Matching(bs[..|bs| - 1], token) + if bs[|bs| - 1].token == token then 1 else 0
  }

  /** There are no more numbers in use than builds. */
  lemma {:induction false} RunnerIDsCounted(bs: seq<Build>, token: string)
    ensures |RunnerIDs(bs, token)| <= Matching(bs, token)
  {
    if bs == [] {
      assert RunnerIDs(bs, token) == {};
    } else {
      var n := |bs| - 1;
      RunnerIDsCounted(bs[..n], token);
      RunnerIDsAppend(bs[..n], bs[n], token);
      assert bs == bs[..n] + [bs[n]];
    }
  }

  lemma RunnerIDsAppend(bs: seq<Build>, b: Build, token: string)
    ensures RunnerIDs(bs + [b], token) == RunnerIDs(bs, token) + if b.token == token then {b.runnerID} else {}
  {
    var all := bs + [b];
    forall id | id in RunnerIDs(bs, token) + if b.token == token then {b.runnerID} else {}
      ensures id in RunnerIDs(all, token)
    {
      if id in RunnerIDs(bs, token) {
        var i :| 0 <= i < |bs| && bs[i].token == token && bs[i].runnerID == id;
        assert all[i] == bs[i];
      } else {
        assert all[|bs|] == b;
      }
    }
  }

  lemma ProjectRunnerIDsAppend(bs: seq<Build>, b: Build, token: string, project: int)
    ensures ProjectRunnerIDs(bs + [b], token, project) ==
            ProjectRunnerIDs(bs, token, project) +
            if b.token == token && b.project == project then {b.projectRunnerID} else {}
  {
    var all := bs + [b];
    forall id | id in ProjectRunnerIDs(bs, token, project) +
                      if b.token == token && b.project == project then {b.projectRunnerID} else {}
      ensures id in ProjectRunnerIDs(all, token, project)
    {
      if id in ProjectRunnerIDs(bs, token, project) {
        var i :| 0 <= i < |bs| && bs[i].token == token && bs[i].project == project && bs[i].projectRunnerID == id;
        assert all[i] == bs[i];
      } else {
        assert all[|bs|] == b;
      }
    }
  }

  function MatchingProject(bs: seq<Build>, token: string, project: int): nat {
    if bs == [] then 0
    else
      var last := bs[|bs| - 1];
      MatchingProject(bs[..|bs| - 1], token, project) + if last.token == token && last.project == project then 1 else 0
  }

  lemma {:induction false} ProjectRunnerIDsCounted(bs: seq<Build>, token: string, project: int)
    ensures |ProjectRunnerIDs(bs, token, project)| <= MatchingProject(bs, token, project)
  {
    if bs == [] {
      assert ProjectRunnerIDs(bs, token, project) == {};
    } else {
      var n := |bs| - 1;
      ProjectRunnerIDsCounted(bs[..n], token, project);
      ProjectRunnerIDsAppend(bs[..n], bs[n], token, project);
      assert bs == bs[..n] + [bs[n]];
    }
  }

  /** A new number is at most the number of matching builds away from the build's own. */
  lemma NumbersBounded(bs: seq<Build>, token: string, project: int, id: int, projectID: int)
    ensures LeastFree(id, RunnerIDs(bs, token)) - id <= Matching(bs, token)
    ensures LeastFree(projectID, ProjectRunnerIDs(bs, token, project)) - projectID <=
            MatchingProject(bs, token, project)
  {
    RunnerIDsCounted(bs, token);
    ProjectRunnerIDsCounted(bs, token, project);
  }

  class Helper {
    var counters: map<string, RunnerCounter>
    var builds: seq<Build>

    /** Registered builds are distinct, no two of one token share a RunnerID, no two
        of one token and project share a ProjectRunnerID. */
    ghost predicate Valid()
      reads this, builds
    {
      forall i, j :: 0 <= i < j < |builds| ==> Apart(builds[i], builds[j])
    }

    constructor ()
      ensures Valid() && builds == [] && counters == map[]
    {
      counters, builds := map[], [];
    }

    function Counter(token: string): RunnerCounter
      reads this
    {
      if token in counters then counters[token] else NO_BUILDS
    }

    method AcquireBuild(runner: RunnerConfig) returns (ok: bool)
      modifies this`counters
      ensures ok <==> !(runner.limit > 0 && old(Counter(runner.token)).builds >= runner.limit)
      ensures Counter(runner.token) ==
              old(Counter(runner.token)).(builds := old(Counter(runner.token)).builds + if ok then 1 else 0)
      ensures forall t :: t != runner.token ==> Counter(t) == old(Counter(t))
    {
      var counter := Counter(runner.token);
      if runner.limit > 0 && counter.builds >= runner.limit {
        return false;
      }
      counters := counters[runner.token := counter.(builds := counter.builds + 1)];
      return true;
    }

    method ReleaseBuild(runner: RunnerConfig) returns (ok: bool)
      modifies this`counters
      ensures ok <==> old(Counter(runner.token)).builds > 0
      ensures Counter(runner.token) ==
              old(Counter(runner.token)).(builds := old(Counter(runner.token)).builds - if ok then 1 else 0)
      ensures forall t :: t != runner.token ==> Counter(t) == old(Counter(t))
    {
      var counter := Counter(runner.token);
      if counter.builds > 0 {
        counters := counters[runner.token := counter.(builds := counter.builds - 1)];
        return true;
      }
      return false;
    }

    method AcquireRequest(runner: RunnerConfig) returns (ok: bool)
      modifies this`counters
      ensures ok <==> old(Counter(runner.token)).requests < runner.GetRequestConcurrency()
      ensures var c := old(Counter(runner.token));
              Counter(runner.token) ==
              if ok then c.(requests := c.requests + 1)
              else c.(requestConcurrencyExceeded := c.requestConcurrencyExceeded + 1)
      ensures forall t :: t != runner.token ==> Counter(t) == old(Counter(t))
    {
      var counter := Counter(runner.token);
      if counter.requests >= runner.GetRequestConcurrency() {
        counters := counters[runner.token :=
          counter.(requestConcurrencyExceeded := counter.requestConcurrencyExceeded + 1)];
        return false;
      }
      counters := counters[runner.token := counter.(requests := counter.requests + 1)];
      return true;
    }

    method ReleaseRequest(runner: RunnerConfig) returns (ok: bool)
      modifies this`counters
      ensures ok <==> old(Counter(runner.token)).requests > 0
      ensures Counter(runner.token) ==
              old(Counter(runner.token)).(requests := old(Counter(runner.token)).requests - if ok then 1 else 0)
      ensures forall t :: t != runner.token ==> Counter(t) == old(Counter(t))
    {
      var counter := Counter(runner.token);
      if counter.requests > 0 {
        counters := counters[runner.token := counter.(requests := counter.requests - 1)];
        return true;
      }
      return false;
    }

    /** The first loop of addBuild: the numbers that other builds use. */
    method IDsInUse(token: string, project: int) returns (runners: set<int>, projectRunners: set<int>)
      ensures runners == RunnerIDs(builds, token)
      ensures projectRunners == ProjectRunnerIDs(builds, token, project)
    {
      runners, projectRunners := {}, {};
      for i := 0 to |builds|
        invariant runners == RunnerIDs(builds[..i], token)
        invariant projectRunners == ProjectRunnerIDs(builds[..i], token, project)
      {
        var other := builds[i];
        assert builds[..i + 1] == builds[..i] + [other];
        RunnerIDsAppend(builds[..i], other, token);
        ProjectRunnerIDsAppend(builds[..i], other, token, project);
        if other.token != token {
          continue;
        }
        runners := runners + {other.runnerID};
        if other.project != project {
          continue;
        }
        projectRunners := projectRunners + {other.projectRunnerID};
      }
      assert builds[..|builds|] == builds;
    }

    /** The least free numbers from the build's own on, so none that another build of
        its token, or of its token and project, uses. */
    method AssignIDs(build: Build)
      modifies build
      ensures build.runnerID == LeastFree(old(build.runnerID), old(RunnerIDs(builds, build.token)))
      ensures build.projectRunnerID ==
              LeastFree(old(build.projectRunnerID), old(ProjectRunnerIDs(builds, build.token, build.project)))
      ensures forall i :: 0 <= i < |builds| && builds[i] != build ==> Apart(builds[i], build)
    {
      var runners, projectRunners := IDsInUse(build.token, build.project);
      var id := FirstFree(build.runnerID, runners);
      var projectID := FirstFree(build.projectRunnerID, projectRunners);
      forall i | 0 <= i < |builds|
        ensures Differs(builds[i], build.token, build.project, id, projectID)
      {
        assert builds[i].token == build.token ==> builds[i].runnerID in runners;
      }
      build.runnerID := id;
      build.projectRunnerID := projectID;
      forall i | 0 <= i < |builds| && builds[i] != build
        ensures Apart(builds[i], build)
      {
        assert old(Differs(builds[i], build.token, build.project, id, projectID));
      }
    }

    /** Gives the build its numbers and registers it. */
    method AddBuild(build: Build?)
      requires Valid()
      modifies this`builds, build
      ensures build == null ==> builds == old(builds)
      ensures build != null ==>
                && builds == old(builds) + [build]
                && build.runnerID == LeastFree(old(build.runnerID), old(RunnerIDs(builds, build.token)))
                && build.projectRunnerID ==
                   LeastFree(old(build.projectRunnerID), old(ProjectRunnerIDs(builds, build.token, build.project)))
                && build.runnerID - old(build.runnerID) <= Matching(old(builds), build.token)
                && build.projectRunnerID - old(build.projectRunnerID) <=
                   MatchingProject(old(builds), build.token, build.project)
      ensures build !in old(builds) ==> Valid()
    {
      if build == null {
        return;
      }
      ghost var bs := builds;
      NumbersBounded(bs, build.token, build.project, build.runnerID, build.projectRunnerID);
      AssignIDs(build);
      builds := builds + [build];
      if build !in bs {
        forall i, j | 0 <= i < j < |builds|
          ensures Apart(builds[i], builds[j])
        {
          if j < |bs| {
            assert old(Apart(bs[i], bs[j]));
          }
        }
      }
    }

    /** Removes the first entry for the build, if there is one. */
    method RemoveBuild(deleteBuild: Build) returns (found: bool)
      requires Valid()
      modifies this`builds
      ensures Valid()
      ensures found <==> deleteBuild in old(builds)
      ensures !found ==> builds == old(builds)
      ensures found ==> exists idx :: 0 <= idx < |old(builds)| && old(builds)[idx] == deleteBuild &&
                          builds == old(builds)[..idx] + old(builds)[idx + 1..]
      ensures deleteBuild !in builds
    {
      for idx := 0 to |builds|
        invariant builds == old(builds)
        invariant deleteBuild !in builds[..idx]
      {
        if builds[idx] == deleteBuild {
          builds := builds[..idx] + builds[idx + 1..];
          return true;
        }
      }
      return false;
    }
  }
}
