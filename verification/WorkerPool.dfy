/** The worker pool (commands/multi.go) over the build accounting, as a step system:
    the main loop and the workers, which meet on unbuffered channels, with the
    configuration of each runner token fixed. */
module WorkerPool {
  import opened Base
  import opened BuildsHelper

  /** Where processRunner is, between what it has acquired and what it still owes. */
  datatype Phase =
    | Acquired      // provider.Acquire succeeded
    | Counted       // acquireBuild succeeded
    | Requesting    // acquireRequest succeeded, RequestJob is running
    | GotJob        // releaseRequest done, a job received
    | Building      // addBuild done
    | Unwinding     // releaseFn: releaseBuild next
    | Releasing     // provider.Release next

  datatype Worker =
    | Waiting                                            // for a runner or for stopWorker
    | Busy(phase: Phase, token: string, acquisition: nat)

  datatype Main =
    | Top                      // loop condition
    | Scaling(limit: int)      // updateWorkers
    | Stopped(limit: int)      // a worker took stopWorker, currentWorkers not yet lowered
    | Started(limit: int)      // startWorkers took an index, currentWorkers not yet raised
    | Configuring              // updateConfig
    | Draining
    | DrainStopped
    | Finished                 // runFinished sent

  datatype Registration = Registration(token: string, project: int, runnerID: int, projectRunnerID: int)

  datatype State = State(
    runners: map<string, RunnerConfig>,
    main: Main,
    currentWorkers: int,
    workerIndex: nat,
    stopSignal: bool,
    spawning: Option<nat>,                  // received by startWorkers, goroutine not yet started
    workers: map<nat, Worker>,              // the live workers
    counters: map<string, RunnerCounter>,
    builds: map<nat, Registration>,         // registered builds, by the worker that runs them
    acquisitions: nat,                      // successful provider.Acquire calls
    releases: multiset<nat>)                // which of them provider.Release was called for
  {
    function Limit(t: string): int {
      if t in runners then runners[t].limit else 0
    }

    function RequestConcurrency(t: string): int {
      if t in runners then runners[t].GetRequestConcurrency() else 1
    }

    function Counter(t: string): RunnerCounter {
      if t in counters then counters[t] else NO_BUILDS
    }
  }

  function Start(runners: map<string, RunnerConfig>): State {
    State(runners, Top, 0, 0, false, None, map[], map[], map[], 0, multiset{})
  }

  // ----- The workers -----

  datatype Work =
    | Take(token: string, acquired: bool)   // receive a runner, provider.Acquire
    | AcquireBuild
    | SessionFails
    | AcquireRequest
    | EndRequest(job: bool)
    | BuildRefused                          // NewBuild returned an error
    | AddBuild(project: int)
    | EndBuild                              // build.Run is over: removeBuild
    | ReleaseBuild
    | ReleaseProvider

  predicate InPhase(s: State, w: nat, p: Phase) {
    w in s.workers && s.workers[w].Busy? && s.workers[w].phase == p
  }

  predicate WorkEnabled(s: State, w: nat, a: Work) {
    match a
    case Take(token, _) => w in s.workers && s.workers[w].Waiting? && token in s.runners
    case AcquireBuild => InPhase(s, w, Acquired)
    case SessionFails => InPhase(s, w, Counted)
    case AcquireRequest => InPhase(s, w, Counted)
    case EndRequest(_) => InPhase(s, w, Requesting)
    case BuildRefused => InPhase(s, w, GotJob)
    case AddBuild(_) => InPhase(s, w, GotJob)
    case EndBuild => InPhase(s, w, Building)
    case ReleaseBuild => InPhase(s, w, Unwinding)
    case ReleaseProvider => InPhase(s, w, Releasing)
  }

  function RunnerIDsOf(builds: map<nat, Registration>, t: string): set<int> {
    set w | w in builds && builds[w].token == t :: builds[w].runnerID
  }

  function ProjectRunnerIDsOf(builds: map<nat, Registration>, t: string, project: int): set<int> {
    set w | w in builds && builds[w].token == t && builds[w].project == project :: builds[w].projectRunnerID
  }

  function Register(builds: map<nat, Registration>, t: string, project: int): Registration {
    Registration(t, project, LeastFree(0, RunnerIDsOf(builds, t)), LeastFree(0, ProjectRunnerIDsOf(builds, t, project)))
  }

  /** The token a worker is given or works for. */
  function TokenOf(s: State, w: nat, a: Work): string
    requires WorkEnabled(s, w, a)
  {
    if a.Take? then a.token else s.workers[w].token
  }

  /** Where the worker goes. */
  function NextWorker(s: State, w: nat, a: Work): Worker
    requires WorkEnabled(s, w, a)
  {
    var x := s.workers[w];
    match a
    case Take(t, acquired) => if acquired then Busy(Acquired, t, s.acquisitions) else Waiting
    case AcquireBuild =>
      x.(phase := if s.Limit(x.token) > 0 && s.Counter(x.token).builds >= s.Limit(x.token) then Releasing else Counted)
    case SessionFails => x.(phase := Unwinding)
    case AcquireRequest =>
      x.(phase := if s.Counter(x.token).requests >= s.RequestConcurrency(x.token) then Unwinding else Requesting)
    case EndRequest(job) => x.(phase := if job then GotJob else Unwinding)
    case BuildRefused => x.(phase := Unwinding)
    case AddBuild(_) => x.(phase := Building)
    case EndBuild => x.(phase := Unwinding)
    case ReleaseBuild => x.(phase := Releasing)
    case ReleaseProvider => Waiting
  }

  /** What becomes of its token's counter. */
  function NextCounter(s: State, w: nat, a: Work): RunnerCounter
    requires WorkEnabled(s, w, a)
  {
    var t := TokenOf(s, w, a);
    var c := s.Counter(t);
    match a
    case AcquireBuild => if s.Limit(t) > 0 && c.builds >= s.Limit(t) then c else c.(builds := c.builds + 1)
    case AcquireRequest =>
      if c.requests >= s.RequestConcurrency(t) then
        c.(requestConcurrencyExceeded := c.requestConcurrencyExceeded + 1)
      else c.(requests := c.requests + 1)
    case EndRequest(_) => if c.requests > 0 then c.(requests := c.requests - 1) else c
    case ReleaseBuild => if c.builds > 0 then c.(builds := c.builds - 1) else c
    case _ => c
  }

  function NextBuilds(s: State, w: nat, a: Work): map<nat, Registration>
    requires WorkEnabled(s, w, a)
  {
    if a.AddBuild? then s.builds[w := Register(s.builds, s.workers[w].token, a.project)]
    else if a.EndBuild? then s.builds - {w}
    else s.builds
  }

  function WorkStep(s: State, w: nat, a: Work): State
    requires WorkEnabled(s, w, a)
  {
    s.(workers := s.workers[w := NextWorker(s, w, a)],
       counters := s.counters[TokenOf(s, w, a) := NextCounter(s, w, a)],
       builds := NextBuilds(s, w, a),
       acquisitions := s.acquisitions + if a.Take? && a.acquired then 1 else 0,
       releases := s.releases + if a.ReleaseProvider? then multiset{s.workers[w].acquisition} else multiset{})
  }

  // ----- The main loop -----

  datatype Control =
    | Signal                                // the process is told to stop
    | EnterLoop(concurrent: int)            // the loop condition, then updateWorkers
    | StopOne(w: nat)                       // stopWorker <- true
    | Lower                                 // currentWorkers--
    | StartOne                              // startWorker <- workerIndex
    | Raise                                 // currentWorkers++, workerIndex++
    | Spawn                                 // go processRunners
    | ScalingDone
    | ConfigDone
    | Interrupted                           // runSignal received
    | Finish

  predicate CanStop(s: State, w: nat) {
    w in s.workers && s.workers[w].Waiting?
  }

  predicate ControlEnabled(s: State, a: Control) {
    match a
    case Signal => true
    case EnterLoop(concurrent) => s.main.Top? && concurrent >= 1
    case StopOne(w) =>
      CanStop(s, w) &&
      ((s.main.Scaling? && s.currentWorkers > s.main.limit) || (s.main.Draining? && s.currentWorkers > 0))
    case Lower => s.main.Stopped? || s.main.DrainStopped?
    case StartOne => s.main.Scaling? && s.currentWorkers < s.main.limit && s.spawning.None?
    case Raise => s.main.Started?
    case Spawn => s.spawning.Some?
    case ScalingDone => s.main.Scaling? && s.currentWorkers == s.main.limit
    case ConfigDone => s.main.Configuring?
    case Interrupted => s.stopSignal && (s.main.Scaling? || s.main.Configuring?)
    case Finish => s.main.Draining? && s.currentWorkers <= 0
  }

  function ControlStep(s: State, a: Control): State
    requires ControlEnabled(s, a)
  {
    match a
    case Signal => s.(stopSignal := true)
    case EnterLoop(concurrent) => s.(main := if s.stopSignal then Draining else Scaling(concurrent))
    case StopOne(w) =>
      s.(workers := s.workers - {w}, main := if s.main.Scaling? then Stopped(s.main.limit) else DrainStopped)
    case Lower =>
      s.(currentWorkers := s.currentWorkers - 1, main := if s.main.Stopped? then Scaling(s.main.limit) else Draining)
    case StartOne => s.(spawning := Some(s.workerIndex), main := Started(s.main.limit))
    case Raise =>
      s.(currentWorkers := s.currentWorkers + 1, workerIndex := s.workerIndex + 1, main := Scaling(s.main.limit))
    case Spawn => s.(workers := s.workers[s.spawning.value := Waiting], spawning := None)
    case ScalingDone => s.(main := Configuring)
    case ConfigDone => s.(main := Top)
    case Interrupted => s.(main := Draining)
    case Finish => s.(main := Finished)
  }

  // ----- Runs -----

  datatype Action = Do(w: nat, work: Work) | Main(control: Control)

  predicate Enabled(s: State, a: Action) {
    match a
    case Do(w, work) => WorkEnabled(s, w, work)
    case Main(c) => ControlEnabled(s, c)
  }

  function Apply(s: State, a: Action): State
    requires Enabled(s, a)
  {
    match a
    case Do(w, work) => WorkStep(s, w, work)
    case Main(c) => ControlStep(s, c)
  }

  function After(s: State, acts: seq<Action>): Option<State> {
    if acts == [] then Some(s)
    else
      match After(s, acts[..|acts| - 1])
      case None => None
      case Some(t) =>
        var a := acts[|acts| - 1];
        if Enabled(t, a) then Some(Apply(t, a)) else None
  }

  ghost predicate Reachable(s: State) {
    exists runners, acts :: After(Start(runners), acts) == Some(s)
  }

  // ----- What holds in every reachable state -----

  datatype Kind = Builds | Requests

  /** The worker is between acquiring and releasing this counter. */
  predicate Counts(x: Worker, k: Kind, t: string) {
    && x.Busy? && x.token == t
    && if k.Builds? then !x.phase.Acquired? && !x.phase.Releasing? else x.phase.Requesting?
  }

  function Members(workers: map<nat, Worker>, k: Kind, t: string): set<nat> {
    set w | w in workers && Counts(workers[w], k, t)
  }

  function Amount(c: RunnerCounter, k: Kind): int {
    if k.Builds? then c.builds else c.requests
  }

  /** Counters are exactly the workers between acquisition and release. */
  ghost predicate CounterInv(s: State) {
    forall k, t :: Amount(s.Counter(t), k) == |Members(s.workers, k, t)|
  }

  ghost predicate LimitInv(s: State) {
    forall t ::
      (s.Limit(t) > 0 ==> s.Counter(t).builds <= s.Limit(t)) && s.Counter(t).requests <= s.RequestConcurrency(t)
  }

  /** Registered builds are those of the building workers, with distinct numbers. */
  ghost predicate BuildInv(s: State) {
    && (forall w :: w in s.builds <==> InPhase(s, w, Building))
    && (forall w :: w in s.builds ==> s.builds[w].token == s.workers[w].token)
    && DistinctIDs(s.builds)
    && (forall w :: w in s.builds ==> RunnerIDOk(s, w))
  }

  predicate RunnerIDOk(s: State, w: nat)
    requires w in s.builds
  {
    var limit := s.Limit(s.builds[w].token);
    0 <= s.builds[w].runnerID && (limit > 0 ==> s.builds[w].runnerID < limit)
  }

  predicate Holds(s: State, w: nat, n: nat) {
    w in s.workers && s.workers[w].Busy? && s.workers[w].acquisition == n
  }

  /** An acquisition is either held by one worker or released once. */
  ghost predicate ProviderInv(s: State) {
    && (forall w, n: nat :: Holds(s, w, n) ==> n < s.acquisitions && n !in s.releases)
    && (forall v, w, n: nat :: Holds(s, v, n) && Holds(s, w, n) ==> v == w)
    && (forall n :: n in s.releases ==> n < s.acquisitions && s.releases[n] == 1)
    && (forall n: nat :: n < s.acquisitions && n !in s.releases ==> exists w :: Holds(s, w, n))
  }

  function Pending(s: State): int {
    if s.main.Stopped? || s.main.DrainStopped? then 1 else if s.main.Started? then -1 else 0
  }

  /** currentWorkers is the number of workers, up to the rendezvous under way. */
  ghost predicate PoolInv(s: State) {
    && s.currentWorkers == |s.workers| + (if s.spawning.Some? then 1 else 0) + Pending(s)
    && (forall w :: w in s.workers ==> w < s.workerIndex + if s.main.Started? then 1 else 0)
    && (s.spawning.Some? ==> s.spawning.value !in s.workers)
    && (s.spawning.Some? ==> s.spawning.value < s.workerIndex + if s.main.Started? then 1 else 0)
    && (s.main.Started? && s.spawning.None? ==> s.workerIndex in s.workers)
    && (s.main.Started? && s.spawning.Some? ==> s.spawning.value == s.workerIndex)
    && (s.main.Finished? ==> s.currentWorkers <= 0)
  }

  ghost predicate Inv(s: State) {
    CounterInv(s) && LimitInv(s) && BuildInv(s) && ProviderInv(s) && PoolInv(s)
  }

  // ----- Counting workers -----

  lemma SizeOfChange<T>(before: set<T>, after: set<T>, x: T)
    requires before - {x} == after - {x}
    ensures |after| == |before| + (if x in after then 1 else 0) - (if x in before then 1 else 0)
  {
    assert x in before ==> before == (before - {x}) + {x};
    assert x !in before ==> before == before - {x};
    assert x in after ==> after == (after - {x}) + {x};
    assert x !in after ==> after == after - {x};
  }

  /** One worker's change moves the count by what it stops and starts counting for. */
  lemma MembersOfUpdate(workers: map<nat, Worker>, w: nat, x: Worker, k: Kind, t: string)
    requires w in workers
    ensures |Members(workers[w := x], k, t)| ==
            |Members(workers, k, t)| + (if Counts(x, k, t) then 1 else 0)
            - (if Counts(workers[w], k, t) then 1 else 0)
  {
    SizeOfChange(Members(workers, k, t), Members(workers[w := x], k, t), w);
  }

  lemma SizeOfUpdate(workers: map<nat, Worker>, w: nat, x: Worker)
    ensures |workers[w := x]| == |workers| + if w in workers then 0 else 1
    ensures w in workers ==> |workers - {w}| == |workers| - 1
  {
    assert workers[w := x].Keys == workers.Keys + {w};
    assert (workers - {w}).Keys == workers.Keys - {w};
  }

  // ----- Preservation: the workers -----

  lemma WorkKeepsPool(s: State, w: nat, a: Work)
    requires PoolInv(s) && WorkEnabled(s, w, a)
    ensures PoolInv(WorkStep(s, w, a))
  {
    SizeOfUpdate(s.workers, w, NextWorker(s, w, a));
  }

  /** A step changes its token's counter by exactly what the worker's move changes. */
  lemma CounterFollowsWorker(s: State, w: nat, a: Work, k: Kind)
    requires WorkEnabled(s, w, a)
    requires s.workers[w].Busy? && Counts(s.workers[w], k, s.workers[w].token) ==>
               Amount(s.Counter(s.workers[w].token), k) > 0
    ensures var t := TokenOf(s, w, a);
            Amount(NextCounter(s, w, a), k) == Amount(s.Counter(t), k)
              + (if Counts(NextWorker(s, w, a), k, t) then 1 else 0)
              - (if Counts(s.workers[w], k, t) then 1 else 0)
  {
  }

  lemma WorkerKeepsToken(s: State, w: nat, a: Work, k: Kind, t: string)
    requires WorkEnabled(s, w, a) && t != TokenOf(s, w, a)
    ensures !Counts(NextWorker(s, w, a), k, t) && !Counts(s.workers[w], k, t)
  {
  }

  lemma WorkKeepsCounters(s: State, w: nat, a: Work)
    requires CounterInv(s) && WorkEnabled(s, w, a)
    ensures CounterInv(WorkStep(s, w, a))
  {
    var u := WorkStep(s, w, a);
    forall k, t
      ensures Amount(u.Counter(t), k) == |Members(u.workers, k, t)|
    {
      MembersOfUpdate(s.workers, w, NextWorker(s, w, a), k, t);
      assert Amount(s.Counter(t), k) == |Members(s.workers, k, t)|;
      if t == TokenOf(s, w, a) {
        assert Counts(s.workers[w], k, t) ==> w in Members(s.workers, k, t);
        CounterFollowsWorker(s, w, a, k);
      } else {
        WorkerKeepsToken(s, w, a, k, t);
      }
    }
  }

  lemma WorkKeepsLimits(s: State, w: nat, a: Work)
    requires LimitInv(s) && WorkEnabled(s, w, a)
    ensures LimitInv(WorkStep(s, w, a))
  {
    var u := WorkStep(s, w, a);
    forall t
      ensures (u.Limit(t) > 0 ==> u.Counter(t).builds <= u.Limit(t)) && u.Counter(t).requests <= u.RequestConcurrency(t)
    {
      assert u.Limit(t) == s.Limit(t) && u.RequestConcurrency(t) == s.RequestConcurrency(t);
      assert (s.Limit(t) > 0 ==> s.Counter(t).builds <= s.Limit(t)) && s.Counter(t).requests <= s.RequestConcurrency(t);
      assert t != TokenOf(s, w, a) ==> u.Counter(t) == s.Counter(t);
    }
  }

  lemma AcquisitionMoves(s: State, w: nat, a: Work)
    requires WorkEnabled(s, w, a)
    ensures a.Take? ==> s.workers[w].Waiting?
    ensures var x := NextWorker(s, w, a);
            && (a.Take? && a.acquired ==> x.Busy? && x.acquisition == s.acquisitions)
            && ((a.Take? && !a.acquired) || a.ReleaseProvider? ==> x.Waiting?)
            && (!a.Take? ==> s.workers[w].Busy?)
            && (!a.Take? && !a.ReleaseProvider? ==> x.Busy? && x.acquisition == s.workers[w].acquisition)
  {
  }

  lemma SameHolds(s: State, u: State)
    requires ProviderInv(s) && u.acquisitions == s.acquisitions && u.releases == s.releases
    requires forall v, n :: Holds(u, v, n) <==> Holds(s, v, n)
    ensures ProviderInv(u)
  {
  }

  lemma TakeKeepsProvider(s: State, u: State, w: nat)
    requires ProviderInv(s) && u.acquisitions == s.acquisitions + 1 && u.releases == s.releases
    requires forall v, n :: Holds(u, v, n) <==> Holds(s, v, n) || (v == w && n == s.acquisitions)
    ensures ProviderInv(u)
  {
    assert Holds(u, w, s.acquisitions);
    forall n: nat | n < s.acquisitions && n !in u.releases
      ensures exists v :: Holds(u, v, n)
    {
      var v :| Holds(s, v, n);
      assert Holds(u, v, n);
    }
  }

  lemma ReleaseKeepsProvider(s: State, u: State, w: nat, m: nat)
    requires ProviderInv(s) && u.acquisitions == s.acquisitions && u.releases == s.releases + multiset{m}
    requires Holds(s, w, m)
    requires forall v, n :: Holds(u, v, n) <==> Holds(s, v, n) && v != w
    ensures ProviderInv(u)
  {
    assert forall n :: Holds(s, w, n) ==> n == m;
    assert forall v, n :: Holds(u, v, n) ==> n != m;
    forall n: nat | n < u.acquisitions && n !in u.releases
      ensures exists v :: Holds(u, v, n)
    {
      assert n != m && n !in s.releases;
      var v :| Holds(s, v, n);
      assert Holds(u, v, n);
    }
  }

  lemma WorkKeepsProvider(s: State, w: nat, a: Work)
    requires ProviderInv(s) && WorkEnabled(s, w, a)
    ensures ProviderInv(WorkStep(s, w, a))
  {
    var u := WorkStep(s, w, a);
    AcquisitionMoves(s, w, a);
    assert u.workers[w] == NextWorker(s, w, a);
    assert forall v, n :: v != w ==> (Holds(u, v, n) <==> Holds(s, v, n));
    if a.Take? && a.acquired {
      TakeKeepsProvider(s, u, w);
    } else if a.ReleaseProvider? {
      ReleaseKeepsProvider(s, u, w, s.workers[w].acquisition);
    } else {
      assert u.releases == s.releases;
      SameHolds(s, u);
    }
  }

  function IDsOf(builds: map<nat, Registration>, ws: set<nat>): set<int> {
    set w | w in ws && w in builds :: builds[w].runnerID
  }

  /** Distinct numbers are no more than the builds that carry them. */
  lemma {:induction false} ImageBound(builds: map<nat, Registration>, ws: set<nat>)
    requires ws <= builds.Keys
    ensures |IDsOf(builds, ws)| <= |ws|
  {
    if ws != {} {
      var w :| w in ws;
      ImageBound(builds, ws - {w});
      assert IDsOf(builds, ws) == IDsOf(builds, ws - {w}) + {builds[w].runnerID};
    } else {
      assert IDsOf(builds, ws) == {};
    }
  }

  /** A new build's number is below the number of workers counted for its token,
      and so below the limit. */
  lemma NewRunnerIDBelowLimit(s: State, w: nat)
    requires Inv(s) && InPhase(s, w, GotJob)
    ensures var t := s.workers[w].token;
            LeastFree(0, RunnerIDsOf(s.builds, t)) < s.Counter(t).builds
  {
    var t := s.workers[w].token;
    var registered, members := Registered(s, t), Members(s.workers, Builds, t);
    assert Amount(s.Counter(t), Builds) == |members|;
    ImageBound(s.builds, registered);
    assert RunnerIDsOf(s.builds, t) == IDsOf(s.builds, registered);
    RegisteredAreCounted(s, t);
    assert w in members && w !in registered;
    SubsetSize(registered, members - {w});
  }

  lemma {:induction false} SubsetSize<T>(a: set<T>, b: set<T>)
    requires a <= b
    ensures |a| <= |b|
  {
    if a != {} {
      var x :| x in a;
      SubsetSize(a - {x}, b - {x});
    }
  }

  ghost predicate DistinctIDs(builds: map<nat, Registration>) {
    forall v, w :: v in builds && w in builds && v != w && builds[v].token == builds[w].token ==>
      && builds[v].runnerID != builds[w].runnerID
      && (builds[v].project == builds[w].project ==> builds[v].projectRunnerID != builds[w].projectRunnerID)
  }

  lemma RegisterKeepsDistinct(builds: map<nat, Registration>, w: nat, t: string, project: int)
    requires DistinctIDs(builds) && w !in builds
    ensures DistinctIDs(builds[w := Register(builds, t, project)])
  {
    forall v | v in builds && builds[v].token == t
      ensures builds[v].runnerID in RunnerIDsOf(builds, t)
      ensures builds[v].project == project ==> builds[v].projectRunnerID in ProjectRunnerIDsOf(builds, t, project)
    {
    }
  }

  lemma BuildingMoves(s: State, w: nat, a: Work)
    requires WorkEnabled(s, w, a)
    ensures a.AddBuild? <==> NextWorker(s, w, a).Busy? && NextWorker(s, w, a).phase.Building?
    ensures a.EndBuild? <==> InPhase(s, w, Building)
    ensures a.AddBuild? ==> NextWorker(s, w, a).token == s.workers[w].token
  {
  }

  /** Registered builds stay in order if a new number is below the count of its token. */
  lemma NextBuildsFit(s: State, w: nat, a: Work)
    requires BuildInv(s) && LimitInv(s) && WorkEnabled(s, w, a)
    requires a.AddBuild? ==>
               LeastFree(0, RunnerIDsOf(s.builds, s.workers[w].token)) < s.Counter(s.workers[w].token).builds
    ensures BuildInv(WorkStep(s, w, a))
  {
    var u := WorkStep(s, w, a);
    BuildingMoves(s, w, a);
    assert forall v :: v != w ==> (InPhase(u, v, Building) <==> InPhase(s, v, Building));
    if a.AddBuild? {
      RegisterKeepsDistinct(s.builds, w, s.workers[w].token, a.project);
    }
    forall v | v in u.builds
      ensures RunnerIDOk(u, v)
    {
      if v != w {
        assert RunnerIDOk(s, v);
      }
    }
  }

  lemma WorkKeepsBuilds(s: State, w: nat, a: Work)
    requires Inv(s) && WorkEnabled(s, w, a)
    ensures BuildInv(WorkStep(s, w, a))
  {
    if a.AddBuild? {
      NewRunnerIDBelowLimit(s, w);
    }
    NextBuildsFit(s, w, a);
  }

  lemma WorkKeepsInv(s: State, w: nat, a: Work)
    requires Inv(s) && WorkEnabled(s, w, a)
    ensures Inv(WorkStep(s, w, a))
  {
    WorkKeepsPool(s, w, a);
    WorkKeepsCounters(s, w, a);
    WorkKeepsLimits(s, w, a);
    WorkKeepsProvider(s, w, a);
    WorkKeepsBuilds(s, w, a);
  }

  // ----- Preservation: the main loop -----

  lemma ControlKeepsPool(s: State, a: Control)
    requires PoolInv(s) && ControlEnabled(s, a)
    ensures PoolInv(ControlStep(s, a))
  {
    match a
    case StopOne(w) =>
      StopKeepsPool(s, w);
    case Spawn =>
      SizeOfUpdate(s.workers, s.spawning.value, Waiting);
    case _ =>
  }

  lemma StopKeepsPool(s: State, w: nat)
    requires PoolInv(s) && ControlEnabled(s, StopOne(w))
    ensures PoolInv(ControlStep(s, StopOne(w)))
  {
    SizeOfUpdate(s.workers, w, Waiting);
  }

  /** Two states whose busy workers and accounts are the same. */
  ghost predicate SameAccounts(s: State, u: State) {
    && u.runners == s.runners && u.counters == s.counters && u.builds == s.builds
    && u.acquisitions == s.acquisitions && u.releases == s.releases
    && (forall w :: w in u.workers && u.workers[w].Busy? <==> w in s.workers && s.workers[w].Busy?)
    && (forall w :: w in u.workers && u.workers[w].Busy? ==> u.workers[w] == s.workers[w])
  }

  /** The main loop only adds and removes waiting workers. */
  lemma ControlFrame(s: State, a: Control)
    requires PoolInv(s) && ControlEnabled(s, a)
    ensures SameAccounts(s, ControlStep(s, a))
  {
  }

  lemma SameCounters(s: State, u: State)
    requires CounterInv(s) && LimitInv(s) && SameAccounts(s, u)
    ensures CounterInv(u) && LimitInv(u)
  {
    forall k, t
      ensures Amount(u.Counter(t), k) == |Members(u.workers, k, t)|
    {
      assert Members(u.workers, k, t) == Members(s.workers, k, t);
      assert Amount(s.Counter(t), k) == |Members(s.workers, k, t)|;
    }
    forall t
      ensures (u.Limit(t) > 0 ==> u.Counter(t).builds <= u.Limit(t)) && u.Counter(t).requests <= u.RequestConcurrency(t)
    {
      assert u.Limit(t) == s.Limit(t) && u.RequestConcurrency(t) == s.RequestConcurrency(t);
    }
  }

  lemma SameBuilds(s: State, u: State)
    requires BuildInv(s) && SameAccounts(s, u)
    ensures BuildInv(u)
  {
    assert forall w :: InPhase(u, w, Building) <==> InPhase(s, w, Building);
    assert forall w :: w in s.builds ==> RunnerIDOk(s, w);
  }

  lemma ControlKeepsInv(s: State, a: Control)
    requires Inv(s) && ControlEnabled(s, a)
    ensures Inv(ControlStep(s, a))
  {
    var u := ControlStep(s, a);
    ControlKeepsPool(s, a);
    ControlFrame(s, a);
    SameCounters(s, u);
    SameBuilds(s, u);
    SameHolds(s, u);
  }

  lemma {:induction false} RunKeepsInv(runners: map<string, RunnerConfig>, acts: seq<Action>)
    ensures var r := After(Start(runners), acts);
            r.Some? ==> Inv(r.value)
  {
    if acts == [] {
      var s := Start(runners);
      forall k, t
        ensures Amount(s.Counter(t), k) == |Members(s.workers, k, t)|
      {
        assert Members(s.workers, k, t) == {};
      }
    } else {
      var before := acts[..|acts| - 1];
      RunKeepsInv(runners, before);
      var r := After(Start(runners), before);
      var a := acts[|acts| - 1];
      if r.Some? && Enabled(r.value, a) {
        match a
        case Do(w, work) => WorkKeepsInv(r.value, w, work);
        case Main(c) => ControlKeepsInv(r.value, c);
      }
    }
  }

  lemma ReachableInv(s: State)
    requires Reachable(s)
    ensures Inv(s)
  {
    var runners, acts :| After(Start(runners), acts) == Some(s);
    RunKeepsInv(runners, acts);
  }

  // ----- The promises -----

  function Registered(s: State, t: string): set<nat> {
    set w | w in s.builds && s.builds[w].token == t
  }

  lemma RegisteredAreCounted(s: State, t: string)
    requires Inv(s)
    ensures Registered(s, t) <= Members(s.workers, Builds, t)
  {
    forall w | w in Registered(s, t)
      ensures w in Members(s.workers, Builds, t)
    {
      assert InPhase(s, w, Building);
    }
  }

  /** Per token: the registered builds are at most counter.builds, which is the
      number of workers between acquireBuild and releaseBuild and at most the limit;
      requests are the workers inside RequestJob and at most the concurrency. */
  lemma CountersMatchWorkers(s: State, t: string)
    requires Reachable(s)
    ensures |Registered(s, t)| <= s.Counter(t).builds
    ensures s.Counter(t).builds == |Members(s.workers, Builds, t)|
    ensures s.Counter(t).requests == |Members(s.workers, Requests, t)|
    ensures s.Limit(t) > 0 ==> s.Counter(t).builds <= s.Limit(t)
    ensures s.Counter(t).requests <= s.RequestConcurrency(t)
  {
    ReachableInv(s);
    assert Amount(s.Counter(t), Builds) == |Members(s.workers, Builds, t)|;
    assert Amount(s.Counter(t), Requests) == |Members(s.workers, Requests, t)|;
    RegisteredAreCounted(s, t);
    SubsetSize(Registered(s, t), Members(s.workers, Builds, t));
  }

  /** Running builds of a token have distinct RunnerIDs, those of a token and project
      distinct ProjectRunnerIDs, and every RunnerID is below the token's limit. */
  lemma RunnerIDsAreDistinctAndBounded(s: State, v: nat, w: nat)
    requires Reachable(s)
    requires v in s.builds && w in s.builds && s.builds[v].token == s.builds[w].token
    ensures v != w ==> s.builds[v].runnerID != s.builds[w].runnerID
    ensures v != w && s.builds[v].project == s.builds[w].project ==>
              s.builds[v].projectRunnerID != s.builds[w].projectRunnerID
    ensures 0 <= s.builds[w].runnerID
    ensures var limit := s.Limit(s.builds[w].token); limit > 0 ==> s.builds[w].runnerID < limit
  {
    ReachableInv(s);
    assert RunnerIDOk(s, w);
  }

  /** Every successful provider.Acquire is held by exactly one worker until the one
      provider.Release that answers it. */
  lemma AcquisitionsReleasedOnce(s: State, n: nat)
    requires Reachable(s) && n < s.acquisitions
    ensures s.releases[n] <= 1
    ensures s.releases[n] == 0 <==> exists w :: Holds(s, w, n)
    ensures forall v, w :: Holds(s, v, n) && Holds(s, w, n) ==> v == w
  {
    ReachableInv(s);
  }

  /** Whenever no rendezvous is half done, currentWorkers is the number of live workers. */
  lemma CurrentWorkersIsExact(s: State)
    requires Reachable(s)
    requires s.spawning.None? && !s.main.Stopped? && !s.main.Started? && !s.main.DrainStopped?
    ensures s.currentWorkers == |s.workers|
  {
    ReachableInv(s);
  }

  /** When Run reports that it finished, no worker is live or starting, no build is
      registered, all counters are zero and everything acquired was released. */
  lemma FinishedIsClean(s: State)
    requires Reachable(s) && s.main.Finished?
    ensures s.workers == map[] && s.spawning.None? && s.currentWorkers == 0
    ensures s.builds == map[]
    ensures forall t :: s.Counter(t).builds == 0 && s.Counter(t).requests == 0
    ensures forall n :: 0 <= n < s.acquisitions ==> s.releases[n] == 1
  {
    ReachableInv(s);
    assert |s.workers| == 0;
    assert s.workers.Keys == {};
    forall t
      ensures s.Counter(t).builds == 0 && s.Counter(t).requests == 0
    {
      assert Members(s.workers, Builds, t) == {} && Members(s.workers, Requests, t) == {};
      assert Amount(s.Counter(t), Builds) == 0 && Amount(s.Counter(t), Requests) == 0;
    }
    assert forall w :: w !in s.builds by {
      assert forall w :: !InPhase(s, w, Building);
    }
    assert forall w, n :: !Holds(s, w, n);
  }

  /** Neither releaseBuild nor releaseRequest ever finds its counter at zero. */
  lemma ReleasesAlwaysSucceed(s: State, w: nat)
    requires Reachable(s)
    ensures InPhase(s, w, Unwinding) ==> s.Counter(s.workers[w].token).builds > 0
    ensures InPhase(s, w, Requesting) ==> s.Counter(s.workers[w].token).requests > 0
  {
    ReachableInv(s);
    if w in s.workers && s.workers[w].Busy? {
      var t := s.workers[w].token;
      assert Amount(s.Counter(t), Builds) == |Members(s.workers, Builds, t)|;
      assert Amount(s.Counter(t), Requests) == |Members(s.workers, Requests, t)|;
      assert Counts(s.workers[w], Builds, t) ==> w in Members(s.workers, Builds, t);
      assert Counts(s.workers[w], Requests, t) ==> w in Members(s.workers, Requests, t);
    }
  }

  // ----- The configured concurrency -----

  /** The Concurrent that the last updateWorkers of a run read. */
  function LastConcurrent(acts: seq<Action>): int {
    if acts == [] then 0
    else
      match acts[|acts| - 1]
      case Main(EnterLoop(concurrent)) => concurrent
      case _ => LastConcurrent(acts[..|acts| - 1])
  }

  function MaxConcurrent(acts: seq<Action>): int {
    if acts == [] then 0
    else
      var before := MaxConcurrent(acts[..|acts| - 1]);
      match acts[|acts| - 1]
      case Main(EnterLoop(concurrent)) => if concurrent > before then concurrent else before
      case _ => before
  }

  /** The loop works towards n, from never more than m. */
  predicate Towards(s: State, n: int, m: int) {
    && 0 <= n <= m
    && s.currentWorkers <= m
    && (s.main.Scaling? || s.main.Started? || s.main.Stopped? ==> s.main.limit == n)
    && (s.main.Started? ==> s.currentWorkers < n)
    && (s.main.Configuring? ==> s.currentWorkers == n)
  }

  lemma ControlTowards(s: State, a: Control, n: int, m: int)
    requires ControlEnabled(s, a) && Towards(s, n, m)
    ensures var c := if a.EnterLoop? then a.concurrent else n;
            Towards(ControlStep(s, a), c, if c > m then c else m)
  {
  }

  lemma {:induction false} RunTowards(runners: map<string, RunnerConfig>, acts: seq<Action>)
    ensures var r := After(Start(runners), acts);
            r.Some? ==> Towards(r.value, LastConcurrent(acts), MaxConcurrent(acts))
  {
    if acts != [] {
      var before, a := acts[..|acts| - 1], acts[|acts| - 1];
      RunTowards(runners, before);
      var r := After(Start(runners), before);
      if r.Some? && Enabled(r.value, a) && a.Main? {
        ControlTowards(r.value, a.control, LastConcurrent(before), MaxConcurrent(before));
      }
    }
  }

  /** Scaling is done exactly at the configured concurrency: when updateWorkers has
      returned, currentWorkers is the Concurrent it read, and so, once the last worker
      asked for has started, is the number of live workers.  At no time are there more
      workers, live or starting, than the largest Concurrent read so far. */
  lemma WorkersMatchConcurrent(runners: map<string, RunnerConfig>, acts: seq<Action>)
    requires After(Start(runners), acts).Some?
    ensures var s := After(Start(runners), acts).value;
            && (s.main.Configuring? ==>
                  s.currentWorkers == LastConcurrent(acts) == |s.workers| + if s.spawning.Some? then 1 else 0)
            && (s.main.Scaling? || s.main.Started? || s.main.Stopped? ==> s.main.limit == LastConcurrent(acts))
            && |s.workers| + (if s.spawning.Some? then 1 else 0) <= MaxConcurrent(acts)
  {
    RunTowards(runners, acts);
    RunKeepsInv(runners, acts);
  }

  predicate Drains(m: Main) {
    m.Draining? || m.DrainStopped? || m.Finished?
  }

  /** A stop signal seen at the loop condition, or received while scaling or reloading,
      begins the drain, and the drain is final: no worker is asked for any more. */
  lemma DrainIsFinal(s: State, a: Action)
    requires Enabled(s, a)
    ensures Drains(s.main) ==>
              && Drains(Apply(s, a).main)
              && (Apply(s, a).spawning.Some? ==> Apply(s, a).spawning == s.spawning)
    ensures a.Main? && a.control.EnterLoop? ==> (Drains(Apply(s, a).main) <==> s.stopSignal)
    ensures a.Main? && a.control.Interrupted? ==> Drains(Apply(s, a).main)
  {
  }

  // ----- What is refused, and what is not -----

  /** A worker goes on exactly where the limits let it: it is counted unless its token's
      limit is reached, requests a job unless the request concurrency is, and with a job
      registers a build under its token and project. */
  lemma WorkerGoesOnIff(s: State, w: nat)
    requires w in s.workers && s.workers[w].Busy?
    ensures var t := s.workers[w].token;
            && (InPhase(s, w, Acquired) ==>
                  var u := WorkStep(s, w, AcquireBuild);
                  if s.Limit(t) > 0 && s.Counter(t).builds >= s.Limit(t) then
                    InPhase(u, w, Releasing) && u.Counter(t) == s.Counter(t)
                  else InPhase(u, w, Counted) && u.Counter(t).builds == s.Counter(t).builds + 1)
            && (InPhase(s, w, Counted) ==>
                  var u := WorkStep(s, w, AcquireRequest);
                  if s.Counter(t).requests >= s.RequestConcurrency(t) then InPhase(u, w, Unwinding)
                  else InPhase(u, w, Requesting) && u.Counter(t).requests == s.Counter(t).requests + 1)
            && (InPhase(s, w, Requesting) ==>
                  && InPhase(WorkStep(s, w, EndRequest(true)), w, GotJob)
                  && InPhase(WorkStep(s, w, EndRequest(false)), w, Unwinding))
  {
  }

  lemma BuildIsRegistered(s: State, w: nat, project: int)
    requires Reachable(s) && InPhase(s, w, GotJob)
    ensures var u, t := WorkStep(s, w, AddBuild(project)), s.workers[w].token;
            && w !in s.builds && w in u.builds && u.builds == s.builds[w := u.builds[w]]
            && u.builds[w].token == t && u.builds[w].project == project
            && u.builds[w].runnerID !in RunnerIDsOf(s.builds, t)
            && (forall id :: 0 <= id < u.builds[w].runnerID ==> id in RunnerIDsOf(s.builds, t))
            && u.builds[w].projectRunnerID !in ProjectRunnerIDsOf(s.builds, t, project)
            && (forall id :: 0 <= id < u.builds[w].projectRunnerID ==> id in ProjectRunnerIDsOf(s.builds, t, project))
  {
    ReachableInv(s);
    var t := s.workers[w].token;
    AllBelowLeastFree(0, RunnerIDsOf(s.builds, t));
    AllBelowLeastFree(0, ProjectRunnerIDsOf(s.builds, t, project));
  }

  /** A waiting worker that is given a runner works for that runner's token, if the
      provider's Acquire succeeds, and goes back to waiting otherwise. */
  lemma WorkerTakesRunner(s: State, w: nat, token: string, acquired: bool)
    requires WorkEnabled(s, w, Take(token, acquired))
    ensures WorkStep(s, w, Take(token, acquired)).workers[w] ==
            if acquired then Busy(Acquired, token, s.acquisitions) else Waiting
  {
  }

  // ----- The drain can always go on -----

  /** How far a busy worker is from waiting again. */
  function PhaseRank(x: Worker): nat {
    if x.Waiting? then 0
    else
      match x.phase
      case Acquired => 7
      case Counted => 6
      case Requesting => 5
      case GotJob => 4
      case Building => 3
      case Unwinding => 2
      case Releasing => 1
  }

  /** A worker's own way back: every step but taking a runner brings it nearer. */
  lemma WorkCountsDown(s: State, w: nat, a: Work)
    requires WorkEnabled(s, w, a) && !a.Take?
    ensures PhaseRank(WorkStep(s, w, a).workers[w]) < PhaseRank(s.workers[w])
  {
  }

  /** The next step of a busy worker that takes it home. */
  function WayHome(x: Worker): Work
    requires x.Busy?
  {
    match x.phase
    case Acquired => AcquireBuild
    case Counted => AcquireRequest
    case Requesting => EndRequest(false)
    case GotJob => BuildRefused
    case Building => EndBuild
    case Unwinding => ReleaseBuild
    case Releasing => ReleaseProvider
  }

  /** The drain is never stuck: it can finish, or lower its count, or stop a waiting worker,
      or a worker just asked for can start, or a busy one can take a step towards waiting. */
  lemma DrainNeverStuck(s: State)
    requires Reachable(s) && Drains(s.main) && !s.main.Finished?
    ensures || ControlEnabled(s, Finish) || ControlEnabled(s, Lower) || ControlEnabled(s, Spawn)
            || (exists w :: ControlEnabled(s, StopOne(w)))
            || (exists w :: w in s.workers && s.workers[w].Busy? && WorkEnabled(s, w, WayHome(s.workers[w])))
  {
    ReachableInv(s);
    if s.main.Draining? && s.currentWorkers > 0 && s.spawning.None? {
      assert |s.workers| > 0;
      assert s.workers.Keys != {};
      var w :| w in s.workers.Keys;
      if s.workers[w].Waiting? {
        assert ControlEnabled(s, StopOne(w));
      } else {
        assert WorkEnabled(s, w, WayHome(s.workers[w]));
      }
    }
  }
}
