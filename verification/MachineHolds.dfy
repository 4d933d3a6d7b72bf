/** Who holds which machine: the docker-machine provider and executor
    (executors/docker/machine/provider.go, executor.go) as a step system of
    lock-sized steps, with creation and removal running on their own and machine
    lists that may be out of date. */
module MachineHolds {
  import opened Base
  import opened MachineScaling

  /** Whether create's goroutine is running for the machine, and for whom. */
  datatype Creation = NotRunning | ForPool | ForBuild(t: nat)

  /** A machineDetails object.  `listed` says that the provider's table maps its name
      to it, `removals` how many finalizeRemoval calls are running for it, `owner`
      which thread obtained it and has not given it up. */
  datatype Machine = Machine(
    name: string, state: MachineState, usedCount: nat, created: bool,
    listed: bool, creation: Creation, removals: nat, owner: Option<nat>)

  /** One thread: a worker's Acquire, its build's executors, its Release.  `data` is
      what Acquire returned and the worker releases at the end. */
  datatype Thread =
    | Out
    | Search(data: Option<nat>, inUse: bool, names: seq<string>)           // findFreeMachine
    | Probe(data: Option<nat>, inUse: bool, o: nat, names: seq<string>)    // CanConnect on o
    | Create(data: Option<nat>, o: nat)                                    // useMachine waits on errCh
    | Holding(data: Option<nat>)                                           // no executor uses a machine
    | Seeking(data: Option<nat>)                                           // retryUseMachine, between attempts
    | Ready(data: Option<nat>, e: Option<nat>)                             // Use: Credentials next
    | Running(data: Option<nat>, e: Option<nat>)                           // Use succeeded; e is executor.data

  datatype Event = Obtain(t: nat, o: nat) | Give(t: nat, o: nat)

  datatype State = State(
    maxBuilds: int,
    objs: map<nat, Machine>,
    table: map<string, nat>,
    threads: map<nat, Thread>,
    nextId: nat,
    log: seq<Event>)
  {
    function At(t: nat): Thread {
      if t in threads then threads[t] else Out
    }

    function Go(t: nat, x: Thread): State {
      this.(threads := threads[t := x])
    }

    function Put(o: nat, m: Machine): State {
      this.(objs := objs[o := m])
    }

    /** A new object under a name. */
    function New(m: Machine): State {
      this.(objs := objs[nextId := m], table := table[m.name := nextId], nextId := nextId + 1)
    }

    /** remove(name): whatever object the table has under that name. */
    function Remove(name: string): State {
      if name in table && table[name] in objs then
        var m := objs[table[name]];
        Put(table[name], m.(state := Removing, removals := m.removals + 1, owner := None))
      else this
    }

    /** Release(data): remove a machine that is used up, otherwise mark it idle. */
    function Release(o: nat): State
      requires o in objs
    {
      var m := objs[o];
      if maxBuilds > 0 && m.usedCount >= maxBuilds && m.name in table then Remove(m.name)
      else Put(o, m.(state := Idle, owner := None))
    }

    function Log(e: Event): State {
      this.(log := log + [e])
    }
  }

  /** A machine that is listed but unknown: idle, and used once. */
  function FoundMachine(name: string): Machine {
    Machine(name, Idle, 1, false, true, NotRunning, 0, None)
  }

  /** A machine whose creation begins, for the pool or for a waiting thread. */
  function NewMachine(name: string, creation: Creation): Machine {
    Machine(name, Creating, 0, true, true, creation, 0, if creation.ForBuild? then Some(creation.t) else None)
  }

  function Start(maxBuilds: int): State {
    State(maxBuilds, map[], map[], map[], 0, [])
  }

  // ----- Steps outside the threads -----

  datatype World =
    | See(name: string)            // machineDetails(name, false) in updateMachines
    | RemoveIdle(name: string)     // updateMachine finds it idle and surplus, remove
    | CreateIdle(name: string)     // createMachines
    | Created(o: nat)              // the creating goroutine succeeds
    | CreationFailed(o: nat)
    | Finalize(o: nat)             // finalizeRemoval deletes the name from the table

  predicate WorldEnabled(s: State, a: World) {
    match a
    case See(_) => true
    case RemoveIdle(name) => name in s.table && s.table[name] in s.objs && s.objs[s.table[name]].state.Idle?
    case CreateIdle(name) => name !in s.table
    case Created(o) => o in s.objs && !s.objs[o].creation.NotRunning?
    case CreationFailed(o) => o in s.objs && !s.objs[o].creation.NotRunning?
    case Finalize(o) => o in s.objs && s.objs[o].removals > 0
  }

  function WorldStep(s: State, a: World): State
    requires WorldEnabled(s, a)
  {
    match a
    case See(name) => if name in s.table then s else s.New(FoundMachine(name))
    case RemoveIdle(name) => s.Remove(name)
    case CreateIdle(name) => s.New(NewMachine(name, ForPool))
    case Created(o) => CreatedStep(s, o)
    case CreationFailed(o) => FailedStep(s, o)
    case Finalize(o) => FinalizeStep(s, o)
  }

  /** The thread that waits on the creation of o goes on. */
  function Wake(s: State, creation: Creation, o: nat, ok: bool): State {
    if creation.ForBuild? && s.At(creation.t).Create? && s.At(creation.t).o == o then
      var d := s.At(creation.t).data;
      s.Go(creation.t, if ok then Ready(d, Some(o)) else Seeking(d))
    else s
  }

  /** A machine created for the pool becomes idle, one that a build waits for becomes
      acquired and the build goes on. */
  function CreatedStep(s: State, o: nat): State
    requires o in s.objs
  {
    var m := s.objs[o];
    var state := if m.creation.ForBuild? then Acquired else Idle;
    Wake(s.Put(o, m.(state := state, creation := NotRunning)), m.creation, o, true)
  }

  function FailedStep(s: State, o: nat): State
    requires o in s.objs
  {
    var m := s.objs[o];
    var u := Wake(s.Put(o, m.(creation := NotRunning)).Remove(m.name), m.creation, o, false);
    if m.creation.ForBuild? then u.Log(Give(m.creation.t, o)) else u
  }

  function FinalizeStep(s: State, o: nat): State
    requires o in s.objs
  {
    var m := s.objs[o];
    s.Put(o, m.(removals := if m.removals > 0 then m.removals - 1 else 0, listed := false))
     .(table := s.table - {m.name})
  }

  // ----- Steps of a thread -----

  datatype Step =
    | StartAcquire(names: seq<string>)
    | Try                                  // machineDetails(name, true) on the last name
    | ProbeOk
    | ProbeFails
    | EndAcquire(err: bool)                // no free machine found
    | CreateForUse(name: string)           // no free machine found in useMachine
    | StartUse(connects: bool)
    | Attempt(names: seq<string>)          // useMachine has loaded the machine list
    | UseFails
    | Credentials(ok: bool)
    | Cleanup
    | EndWork                              // the worker's Release of data

  predicate StepEnabled(s: State, t: nat, a: Step) {
    var x := s.At(t);
    match a
    case StartAcquire(_) => x.Out?
    case Try => x.Search? && x.names != []
    case ProbeOk => x.Probe?
    case ProbeFails => x.Probe? && x.o in s.objs
    case EndAcquire(_) => x.Search? && !x.inUse && x.names == []
    case CreateForUse(name) => x.Search? && x.inUse && x.names == [] && name !in s.table
    case StartUse(_) => x.Holding?
    case Attempt(_) => x.Seeking?
    case UseFails => x.Seeking?
    case Credentials(_) => x.Ready? && Target(x).Some? && Target(x).value in s.objs
    case Cleanup => x.Running? && (x.e.Some? ==> x.e.value in s.objs)
    case EndWork => x.Holding? && (x.data.Some? ==> x.data.value in s.objs)
  }

  /** The machine that Use works with: a new one, or the one Acquire returned. */
  function Target(x: Thread): Option<nat> {
    if x.Ready? || x.Running? then (if x.e.Some? then x.e else x.data) else None
  }

  predicate CanBeUsed(s: State, data: Option<nat>) {
    data.Some? && data.value in s.objs && s.objs[data.value].state.Acquired?
  }

  function ThreadStep(s: State, t: nat, a: Step): State
    requires StepEnabled(s, t, a)
  {
    var x := s.At(t);
    match a
    case StartAcquire(names) => s.Go(t, Search(None, false, names))
    case Try => TryStep(s, t)
    case ProbeOk => s.Go(t, if x.inUse then Ready(x.data, Some(x.o)) else Holding(Some(x.o)))
    case ProbeFails =>
      s.Remove(s.objs[x.o].name).Go(t, Search(x.data, x.inUse, x.names)).Log(Give(t, x.o))
    case EndAcquire(err) => s.Go(t, if err then Out else Holding(None))
    case CreateForUse(name) =>
      s.New(NewMachine(name, ForBuild(t))).Go(t, Create(x.data, s.nextId)).Log(Obtain(t, s.nextId))
    case StartUse(connects) =>
      s.Go(t, if CanBeUsed(s, x.data) && connects then Ready(x.data, None) else Seeking(x.data))
    case Attempt(names) => s.Go(t, Search(x.data, true, names))
    case UseFails => s.Go(t, Holding(x.data))
    case Credentials(ok) => CredentialsStep(s, t, ok)
    case Cleanup => GiveStep(s, t, x.e, Holding(x.data))
    case EndWork => GiveStep(s, t, x.data, Out)
  }

  /** The last name is looked up, or entered as found, and taken if it is idle. */
  function TryStep(s: State, t: nat): State
    requires s.At(t).Search? && s.At(t).names != []
  {
    var x := s.At(t);
    var name, rest := x.names[|x.names| - 1], x.names[..|x.names| - 1];
    if name !in s.table then
      s.New(FoundMachine(name).(state := Acquired, owner := Some(t)))
       .Go(t, Probe(x.data, x.inUse, s.nextId, rest)).Log(Obtain(t, s.nextId))
    else
      var o := s.table[name];
      if o in s.objs && s.objs[o].state.Idle? then
        s.Put(o, s.objs[o].(state := Acquired, owner := Some(t)))
         .Go(t, Probe(x.data, x.inUse, o, rest)).Log(Obtain(t, o))
      else
        s.Go(t, Search(x.data, x.inUse, rest))
  }

  /** With credentials the machine is marked used; without them a machine that Use
      obtained itself is released again. */
  function CredentialsStep(s: State, t: nat, ok: bool): State
    requires s.At(t).Ready? && Target(s.At(t)).Some? && Target(s.At(t)).value in s.objs
  {
    var x := s.At(t);
    var o := Target(x).value;
    if ok then
      s.Put(o, s.objs[o].(state := Used, usedCount := s.objs[o].usedCount + 1)).Go(t, Running(x.data, x.e))
    else if x.e.Some? then GiveStep(s, t, x.e, Holding(x.data))
    else s.Go(t, Holding(x.data))
  }

  function GiveStep(s: State, t: nat, o: Option<nat>, next: Thread): State
    requires o.Some? ==> o.value in s.objs
  {
    if o.None? then s.Go(t, next) else s.Release(o.value).Go(t, next).Log(Give(t, o.value))
  }

  // ----- Runs -----

  datatype Action = Outside(w: World) | By(t: nat, step: Step)

  predicate Enabled(s: State, a: Action) {
    match a
    case Outside(w) => WorldEnabled(s, w)
    case By(t, step) => StepEnabled(s, t, step)
  }

  function Apply(s: State, a: Action): State
    requires Enabled(s, a)
  {
    match a
    case Outside(w) => WorldStep(s, w)
    case By(t, step) => ThreadStep(s, t, step)
  }

  function After(s: State, acts: seq<Action>): Option<State> {
    if acts == [] then Some(s)
    else
      match After(s, acts[..|acts| - 1])
      case None => None
      case Some(u) =>
        var a := acts[|acts| - 1];
        if Enabled(u, a) then Some(Apply(u, a)) else None
  }

  ghost predicate Reachable(s: State) {
    exists maxBuilds: int, acts :: After(Start(maxBuilds), acts) == Some(s)
  }

  // ----- What holds in every reachable state -----

  /** One object: owned exactly when a build has it or waits for its creation, and
      under removal at most once, by a removal that finds it in the table. */
  predicate MachineOk(m: Machine) {
    && (m.state.Idle? ==> m.owner.None?)
    && (m.state.Acquired? || m.state.Used? ==> m.owner.Some?)
    && (m.state.Removing? ==> m.owner.None? && m.removals == if m.listed then 1 else 0)
    && (!m.state.Removing? ==> m.listed && m.removals == 0)
    && (m.state.Creating? <==> !m.creation.NotRunning?)
    && (m.creation.ForPool? ==> m.owner.None?)
    && (m.creation.ForBuild? ==> m.owner == Some(m.creation.t))
  }

  ghost predicate TableInv(s: State) {
    && (forall n :: n in s.table ==> s.table[n] in s.objs && s.objs[s.table[n]].name == n)
    && (forall o :: o in s.objs ==>
          o < s.nextId && MachineOk(s.objs[o]) &&
          (s.objs[o].listed <==> s.objs[o].name in s.table && s.table[s.objs[o].name] == o))
  }

  function OptionSet(o: Option<nat>): set<nat> {
    if o.Some? then {o.value} else {}
  }

  /** The machines a thread holds. */
  function HeldBy(x: Thread): set<nat> {
    match x
    case Out => {}
    case Search(d, _, _) => OptionSet(d)
    case Probe(d, _, o, _) => OptionSet(d) + {o}
    case Create(d, o) => OptionSet(d) + {o}
    case Holding(d) => OptionSet(d)
    case Seeking(d) => OptionSet(d)
    case Ready(d, e) => OptionSet(d) + OptionSet(e)
    case Running(d, e) => OptionSet(d) + OptionSet(e)
  }

  predicate InState(objs: map<nat, Machine>, o: nat, st: MachineState) {
    o in objs && objs[o].state == st
  }

  /** What Acquire returned is acquired, or used by an earlier executor. */
  predicate DataOk(objs: map<nat, Machine>, d: Option<nat>) {
    d.Some? ==> InState(objs, d.value, Acquired) || InState(objs, d.value, Used)
  }

  predicate ThreadOk(objs: map<nat, Machine>, x: Thread) {
    match x
    case Out => true
    case Search(d, inUse, _) => DataOk(objs, d) && (!inUse ==> d.None?)
    case Probe(d, inUse, o, _) => DataOk(objs, d) && (!inUse ==> d.None?) && d != Some(o) && InState(objs, o, Acquired)
    case Create(d, o) => DataOk(objs, d) && d != Some(o) && InState(objs, o, Creating)
    case Holding(d) => DataOk(objs, d)
    case Seeking(d) => DataOk(objs, d)
    case Ready(d, e) =>
      DataOk(objs, d) && (if e.Some? then e != d && InState(objs, e.value, Acquired)
                          else d.Some? && InState(objs, d.value, Acquired))
    case Running(d, e) =>
      DataOk(objs, d) && (if e.Some? then e != d && InState(objs, e.value, Used)
                          else d.Some? && InState(objs, d.value, Used))
  }

  predicate OwnedBy(objs: map<nat, Machine>, o: nat, t: nat) {
    o in objs && objs[o].owner == Some(t)
  }

  /** Threads and objects agree about who holds what; a machine under creation for a
      build is one that its thread waits for. */
  ghost predicate HoldInv(s: State) {
    && (forall t, o :: o in HeldBy(s.At(t)) <==> OwnedBy(s.objs, o, t))
    && (forall t :: ThreadOk(s.objs, s.At(t)))
    && (forall o :: o in s.objs && s.objs[o].creation.ForBuild? ==> Waits(s, s.objs[o].creation.t, o))
  }

  predicate Waits(s: State, t: nat, o: nat) {
    s.At(t).Create? && s.At(t).o == o
  }

  /** Who holds o after the events of a log. */
  function HolderAfter(log: seq<Event>, o: nat): Option<nat> {
    if log == [] then None
    else
      match log[|log| - 1]
      case Obtain(t, p) => if p == o then Some(t) else HolderAfter(log[..|log| - 1], o)
      case Give(_, p) => if p == o then None else HolderAfter(log[..|log| - 1], o)
  }

  /** A machine is obtained only while nobody holds it and given up only by its holder. */
  predicate Fits(log: seq<Event>, e: Event) {
    match e
    case Obtain(_, o) => HolderAfter(log, o).None?
    case Give(t, o) => HolderAfter(log, o) == Some(t)
  }

  ghost predicate LogInv(s: State) {
    && (forall i :: 0 <= i < |s.log| ==> Fits(s.log[..i], s.log[i]))
    && (forall o :: o in s.objs ==> HolderAfter(s.log, o) == s.objs[o].owner)
    && (forall o :: o !in s.objs ==> HolderAfter(s.log, o) == None)
  }

  /** How often a machine is used with a build limit: a found machine starts as used
      once, and is still used again. */
  function Allowance(maxBuilds: int, created: bool): int {
    if created || maxBuilds >= 2 then maxBuilds else 2
  }

  /** With a build limit: below the allowance while it may be used again, never above. */
  predicate UsageOk(maxBuilds: int, m: Machine) {
    && (!m.created ==> m.usedCount >= 1)
    && (maxBuilds > 0 ==>
          && m.usedCount <= Allowance(maxBuilds, m.created)
          && (!m.state.Used? && !m.state.Removing? ==> m.usedCount < Allowance(maxBuilds, m.created)))
  }

  ghost predicate UsageInv(s: State) {
    forall o :: o in s.objs ==> UsageOk(s.maxBuilds, s.objs[o])
  }

  ghost predicate Inv(s: State) {
    TableInv(s) && HoldInv(s) && LogInv(s) && UsageInv(s)
  }

  // ----- The shapes of a step -----

  /** A step moves at most one thread and changes or adds at most one object, whose
      owner it leaves, takes away or makes the moving thread. */
  ghost predicate OneMoved(s: State, u: State, t: nat, o: nat) {
    && (forall v :: v != t ==> u.At(v) == s.At(v))
    && o in u.objs
    && (forall p :: p != o ==> (p in u.objs <==> p in s.objs))
    && (forall p :: p != o && p in s.objs ==> u.objs[p] == s.objs[p])
    && (o in s.objs ==> s.objs[o].owner == None || s.objs[o].owner == Some(t))
    && (u.objs[o].owner == None || u.objs[o].owner == Some(t))
  }

  lemma MoveKeepsHolds(s: State, u: State, t: nat, o: nat)
    requires HoldInv(s) && OneMoved(s, u, t, o)
    requires o in HeldBy(u.At(t)) <==> OwnedBy(u.objs, o, t)
    requires forall p :: p != o ==> (p in HeldBy(u.At(t)) <==> p in HeldBy(s.At(t)))
    requires ThreadOk(u.objs, u.At(t))
    requires u.objs[o].creation.ForBuild? ==> Waits(u, u.objs[o].creation.t, o)
    requires s.At(t).Create? && s.At(t).o != o ==> u.At(t) == s.At(t)
    ensures HoldInv(u)
  {
    forall v, p
      ensures p in HeldBy(u.At(v)) <==> OwnedBy(u.objs, p, v)
    {
      assert p in HeldBy(s.At(v)) <==> OwnedBy(s.objs, p, v);
    }
    forall v
      ensures ThreadOk(u.objs, u.At(v))
    {
      if v != t {
        assert o !in HeldBy(s.At(v)) by {
          assert o in HeldBy(s.At(v)) <==> OwnedBy(s.objs, o, v);
        }
        OthersUnaffected(s.objs, u.objs, s.At(v), o);
      }
    }
  }

  /** What a thread relies on is only what it holds. */
  lemma OthersUnaffected(before: map<nat, Machine>, after: map<nat, Machine>, x: Thread, o: nat)
    requires ThreadOk(before, x) && o !in HeldBy(x)
    requires forall p :: p != o && p in before ==> p in after && after[p] == before[p]
    ensures ThreadOk(after, x)
  {
  }

  lemma LogGrows(s: State, u: State, e: Event, o: nat)
    requires LogInv(s) && u.log == s.log + [e] && Fits(s.log, e) && e.o == o
    requires o in u.objs && u.objs[o].owner == (if e.Obtain? then Some(e.t) else None)
    requires forall p :: p != o ==> (p in u.objs <==> p in s.objs)
    requires forall p :: p != o && p in s.objs ==> u.objs[p].owner == s.objs[p].owner
    ensures LogInv(u)
  {
    assert u.log[..|s.log|] == s.log;
    forall i | 0 <= i < |u.log|
      ensures Fits(u.log[..i], u.log[i])
    {
      if i < |s.log| {
        assert u.log[..i] == s.log[..i] && u.log[i] == s.log[i];
      }
    }
  }

  lemma LogStays(s: State, u: State, o: nat)
    requires LogInv(s) && u.log == s.log && o in u.objs
    requires u.objs[o].owner == if o in s.objs then s.objs[o].owner else None
    requires forall p :: p != o ==> (p in u.objs <==> p in s.objs)
    requires forall p :: p != o && p in s.objs ==> u.objs[p].owner == s.objs[p].owner
    ensures LogInv(u)
  {
  }

  // ----- Preservation: the table -----

  lemma PutKeepsTable(s: State, o: nat, m: Machine)
    requires TableInv(s) && o in s.objs && MachineOk(m)
    requires m.name == s.objs[o].name && m.listed == s.objs[o].listed
    ensures TableInv(s.Put(o, m))
  {
  }

  lemma NewKeepsTable(s: State, m: Machine)
    requires TableInv(s) && m.name !in s.table && m.listed && MachineOk(m)
    ensures TableInv(s.New(m))
  {
    forall p | p in s.objs
      ensures s.objs[p].listed <==> s.objs[p].name in s.New(m).table && s.New(m).table[s.objs[p].name] == p
    {
      assert s.objs[p].listed <==> s.objs[p].name in s.table && s.table[s.objs[p].name] == p;
    }
  }

  /** remove finds the object itself under its name. */
  lemma RemoveIsPut(s: State, o: nat)
    requires TableInv(s) && o in s.objs && s.objs[o].listed
    ensures s.Remove(s.objs[o].name) ==
            s.Put(o, s.objs[o].(state := Removing, removals := s.objs[o].removals + 1, owner := None))
  {
  }

  lemma FinalizeKeepsTable(s: State, o: nat)
    requires TableInv(s) && o in s.objs && s.objs[o].removals > 0
    ensures TableInv(FinalizeStep(s, o))
  {
    var name := s.objs[o].name;
    assert MachineOk(s.objs[o]);
    assert s.table[name] == o;
    forall p | p in s.objs && p != o
      ensures s.objs[p].listed ==> s.objs[p].name != name
    {
    }
  }

  /** The object a thread holds is listed and its own. */
  lemma HeldIsListed(s: State, t: nat, o: nat)
    requires TableInv(s) && HoldInv(s) && o in HeldBy(s.At(t))
    ensures o in s.objs && s.objs[o].listed && s.objs[o].owner == Some(t) && s.objs[o].removals == 0
  {
    assert OwnedBy(s.objs, o, t);
    assert MachineOk(s.objs[o]);
  }

  // ----- Preservation: steps that leave all objects alone -----

  lemma GoKeepsInv(s: State, t: nat, x: Thread)
    requires Inv(s) && HeldBy(x) == HeldBy(s.At(t)) && ThreadOk(s.objs, x) && !s.At(t).Create?
    ensures Inv(s.Go(t, x))
  {
    var u := s.Go(t, x);
    forall v, o
      ensures o in HeldBy(u.At(v)) <==> OwnedBy(u.objs, o, v)
    {
      assert o in HeldBy(s.At(v)) <==> OwnedBy(s.objs, o, v);
    }
    forall v
      ensures ThreadOk(u.objs, u.At(v))
    {
      assert ThreadOk(s.objs, s.At(v));
    }
    forall o | o in u.objs && u.objs[o].creation.ForBuild?
      ensures Waits(u, u.objs[o].creation.t, o)
    {
      assert Waits(s, s.objs[o].creation.t, o);
    }
  }

  // ----- Preservation: the world -----

  /** Nobody holds an object that does not exist or has no owner. */
  lemma UnownedIsFree(s: State, o: nat)
    requires HoldInv(s) && (o in s.objs ==> s.objs[o].owner.None?)
    ensures forall t :: o !in HeldBy(s.At(t))
  {
    forall t
      ensures o !in HeldBy(s.At(t))
    {
      assert o in HeldBy(s.At(t)) <==> OwnedBy(s.objs, o, t);
    }
  }

  /** A change to an object that nobody holds before or after. */
  lemma FreeChangeKeepsHolds(s: State, u: State, o: nat)
    requires HoldInv(s) && u.threads == s.threads && OneMoved(s, u, 0, o)
    requires o in s.objs ==> s.objs[o].owner.None?
    requires u.objs[o].owner.None? && !u.objs[o].creation.ForBuild?
    ensures HoldInv(u)
  {
    UnownedIsFree(s, o);
    assert forall v :: u.At(v) == s.At(v);
    assert ThreadOk(s.objs, s.At(0));
    OthersUnaffected(s.objs, u.objs, s.At(0), o);
    MoveKeepsHolds(s, u, 0, o);
  }

  lemma SeeKeepsInv(s: State, m: Machine)
    requires Inv(s) && m.name !in s.table && m.listed && MachineOk(m) && UsageOk(s.maxBuilds, m)
    requires m.owner.None? && !m.creation.ForBuild?
    ensures Inv(s.New(m))
  {
    assert s.nextId !in s.objs;
    NewKeepsTable(s, m);
    FreeChangeKeepsHolds(s, s.New(m), s.nextId);
    LogStays(s, s.New(m), s.nextId);
  }

  lemma FreePutKeepsInv(s: State, o: nat, m: Machine)
    requires Inv(s) && o in s.objs && s.objs[o].owner.None?
    requires MachineOk(m) && UsageOk(s.maxBuilds, m) && m.owner.None? && !m.creation.ForBuild?
    requires m.name == s.objs[o].name && m.listed == s.objs[o].listed
    ensures Inv(s.Put(o, m))
  {
    PutKeepsTable(s, o, m);
    FreeChangeKeepsHolds(s, s.Put(o, m), o);
    LogStays(s, s.Put(o, m), o);
  }

  lemma RemoveIdleKeepsInv(s: State, name: string)
    requires Inv(s) && WorldEnabled(s, RemoveIdle(name))
    ensures Inv(s.Remove(name))
  {
    var o := s.table[name];
    assert MachineOk(s.objs[o]) && UsageOk(s.maxBuilds, s.objs[o]);
    RemoveIsPut(s, o);
    FreePutKeepsInv(s, o, s.objs[o].(state := Removing, removals := s.objs[o].removals + 1, owner := None));
  }

  lemma FinalizeKeepsInv(s: State, o: nat)
    requires Inv(s) && WorldEnabled(s, Finalize(o))
    ensures Inv(FinalizeStep(s, o))
  {
    var u := FinalizeStep(s, o);
    assert MachineOk(s.objs[o]) && UsageOk(s.maxBuilds, s.objs[o]);
    FinalizeKeepsTable(s, o);
    FreeChangeKeepsHolds(s, u, o);
    LogStays(s, u, o);
  }

  lemma CreatedKeepsInv(s: State, o: nat)
    requires Inv(s) && WorldEnabled(s, Created(o))
    ensures Inv(CreatedStep(s, o))
  {
    var m := s.objs[o];
    var m' := m.(state := if m.creation.ForBuild? then Acquired else Idle, creation := NotRunning);
    assert MachineOk(m) && UsageOk(s.maxBuilds, m);
    if m.creation.ForBuild? {
      var t := m.creation.t;
      assert Waits(s, t, o) && ThreadOk(s.objs, s.At(t));
      var x := Ready(s.At(t).data, Some(o));
      ChangeByHolder(s, t, o, m', x);
      assert CreatedStep(s, o) == s.Put(o, m').Go(t, x);
    } else {
      FreePutKeepsInv(s, o, m');
      assert CreatedStep(s, o) == s.Put(o, m');
    }
  }

  lemma FailedKeepsInv(s: State, o: nat)
    requires Inv(s) && WorldEnabled(s, CreationFailed(o))
    ensures Inv(FailedStep(s, o))
  {
    var m := s.objs[o];
    var m' := m.(creation := NotRunning, state := Removing, removals := m.removals + 1, owner := None);
    assert MachineOk(m) && UsageOk(s.maxBuilds, m);
    assert s.Put(o, m.(creation := NotRunning)).Remove(m.name) == s.Put(o, m') by {
      assert m.name in s.table && s.table[m.name] == o;
    }
    if m.creation.ForBuild? {
      var t := m.creation.t;
      assert Waits(s, t, o) && ThreadOk(s.objs, s.At(t));
      var x := Seeking(s.At(t).data);
      GiveByHolder(s, t, o, m', x);
      assert FailedStep(s, o) == s.Put(o, m').Go(t, x).Log(Give(t, o));
    } else {
      FreePutKeepsInv(s, o, m');
      assert FailedStep(s, o) == s.Put(o, m');
    }
  }

  // ----- Preservation: the threads -----

  /** The holder changes the state of what it holds and moves on holding the same. */
  lemma ChangeByHolder(s: State, t: nat, o: nat, m: Machine, x: Thread)
    requires Inv(s) && o in s.objs && s.objs[o].owner == Some(t)
    requires MachineOk(m) && UsageOk(s.maxBuilds, m) && m.owner == Some(t) && m.creation.NotRunning?
    requires m.name == s.objs[o].name && m.listed == s.objs[o].listed
    requires HeldBy(x) == HeldBy(s.At(t)) && ThreadOk(s.objs[o := m], x)
    requires s.At(t).Create? ==> s.At(t).o == o
    ensures Inv(s.Put(o, m).Go(t, x))
  {
    var u := s.Put(o, m).Go(t, x);
    PutKeepsTable(s, o, m);
    assert o in HeldBy(s.At(t)) <==> OwnedBy(s.objs, o, t);
    MoveKeepsHolds(s, u, t, o);
    LogStays(s, u, o);
  }

  /** The holder gives a machine up. */
  lemma GiveByHolder(s: State, t: nat, o: nat, m: Machine, x: Thread)
    requires Inv(s) && o in s.objs && s.objs[o].owner == Some(t)
    requires MachineOk(m) && UsageOk(s.maxBuilds, m) && m.owner.None? && m.creation.NotRunning?
    requires m.name == s.objs[o].name && m.listed == s.objs[o].listed
    requires HeldBy(x) == HeldBy(s.At(t)) - {o} && ThreadOk(s.objs[o := m], x)
    requires s.At(t).Create? ==> s.At(t).o == o
    ensures Inv(s.Put(o, m).Go(t, x).Log(Give(t, o)))
  {
    var u := s.Put(o, m).Go(t, x).Log(Give(t, o));
    PutKeepsTable(s, o, m);
    MoveKeepsHolds(s, u, t, o);
    LogGrows(s, u, Give(t, o), o);
  }

  /** A thread obtains a machine that nobody holds. */
  lemma ObtainFree(s: State, t: nat, o: nat, m: Machine, x: Thread)
    requires Inv(s) && o in s.objs && s.objs[o].owner.None?
    requires MachineOk(m) && UsageOk(s.maxBuilds, m) && m.owner == Some(t) && m.creation.NotRunning?
    requires m.name == s.objs[o].name && m.listed == s.objs[o].listed
    requires HeldBy(x) == HeldBy(s.At(t)) + {o} && ThreadOk(s.objs[o := m], x) && !s.At(t).Create?
    ensures Inv(s.Put(o, m).Go(t, x).Log(Obtain(t, o)))
  {
    var u := s.Put(o, m).Go(t, x).Log(Obtain(t, o));
    PutKeepsTable(s, o, m);
    UnownedIsFree(s, o);
    MoveKeepsHolds(s, u, t, o);
    LogGrows(s, u, Obtain(t, o), o);
  }

  /** A thread obtains a machine that is entered into the table for it. */
  lemma ObtainNew(s: State, t: nat, m: Machine, x: Thread)
    requires Inv(s) && m.name !in s.table && m.listed
    requires MachineOk(m) && UsageOk(s.maxBuilds, m) && m.owner == Some(t)
    requires HeldBy(x) == HeldBy(s.At(t)) + {s.nextId} && ThreadOk(s.objs[s.nextId := m], x) && !s.At(t).Create?
    requires m.creation.ForBuild? ==> m.creation.t == t && x.Create? && x.o == s.nextId
    ensures Inv(s.New(m).Go(t, x).Log(Obtain(t, s.nextId)))
  {
    var o := s.nextId;
    var u := s.New(m).Go(t, x).Log(Obtain(t, o));
    assert o !in s.objs;
    NewKeepsTable(s, m);
    UnownedIsFree(s, o);
    MoveKeepsHolds(s, u, t, o);
    LogGrows(s, u, Obtain(t, o), o);
  }

  lemma TryKeepsInv(s: State, t: nat)
    requires Inv(s) && StepEnabled(s, t, Try)
    ensures Inv(TryStep(s, t))
  {
    var x := s.At(t);
    var name, rest := x.names[|x.names| - 1], x.names[..|x.names| - 1];
    assert ThreadOk(s.objs, x);
    if name !in s.table {
      UnownedIsFree(s, s.nextId);
      ObtainNew(s, t, FoundMachine(name).(state := Acquired, owner := Some(t)), Probe(x.data, x.inUse, s.nextId, rest));
    } else {
      var o := s.table[name];
      assert MachineOk(s.objs[o]) && UsageOk(s.maxBuilds, s.objs[o]);
      if s.objs[o].state.Idle? {
        UnownedIsFree(s, o);
        ObtainFree(s, t, o, s.objs[o].(state := Acquired, owner := Some(t)), Probe(x.data, x.inUse, o, rest));
      } else {
        GoKeepsInv(s, t, Search(x.data, x.inUse, rest));
      }
    }
  }

  /** Giving up through Release ends in one of the two states of GiveByHolder. */
  lemma ReleaseKeepsInv(s: State, t: nat, o: nat, x: Thread)
    requires Inv(s) && o in HeldBy(s.At(t)) && !s.At(t).Create?
    requires HeldBy(x) == HeldBy(s.At(t)) - {o}
    requires x.Out? || x.Holding?
    requires x.Holding? ==> x.data != Some(o) && DataOk(s.objs, x.data)
    requires s.objs[o].creation.NotRunning?
    ensures Inv(s.Release(o).Go(t, x).Log(Give(t, o)))
  {
    var m := s.objs[o];
    HeldIsListed(s, t, o);
    assert MachineOk(m) && UsageOk(s.maxBuilds, m);
    assert m.name in s.table && s.table[m.name] == o;
    if s.maxBuilds > 0 && m.usedCount >= s.maxBuilds {
      RemoveIsPut(s, o);
      GiveByHolder(s, t, o, m.(state := Removing, removals := m.removals + 1, owner := None), x);
    } else {
      GiveByHolder(s, t, o, m.(state := Idle, owner := None), x);
    }
  }

  lemma ProbeFailsKeepsInv(s: State, t: nat)
    requires Inv(s) && StepEnabled(s, t, ProbeFails)
    ensures Inv(ThreadStep(s, t, ProbeFails))
  {
    var x := s.At(t);
    assert ThreadOk(s.objs, x);
    HeldIsListed(s, t, x.o);
    RemoveIsPut(s, x.o);
    var m := s.objs[x.o];
    assert MachineOk(m) && UsageOk(s.maxBuilds, m);
    GiveByHolder(s, t, x.o, m.(state := Removing, removals := m.removals + 1, owner := None),
                 Search(x.data, x.inUse, x.names));
  }

  lemma ReadyBecomesRunning(objs: map<nat, Machine>, x: Thread, m: Machine)
    requires x.Ready? && ThreadOk(objs, x) && m.state.Used?
    ensures Target(x).Some? && Target(x).value in HeldBy(x) && InState(objs, Target(x).value, Acquired)
    ensures ThreadOk(objs[Target(x).value := m], Running(x.data, x.e))
  {
  }

  lemma UseCounted(maxBuilds: int, m: Machine)
    requires MachineOk(m) && UsageOk(maxBuilds, m) && m.state.Acquired?
    ensures var m' := m.(state := Used, usedCount := m.usedCount + 1); MachineOk(m') && UsageOk(maxBuilds, m')
  {
  }

  /** Marking the machine used: what ChangeByHolder asks for. */
  lemma UsedFacts(s: State, t: nat, o: nat)
    requires TableInv(s) && HoldInv(s) && UsageInv(s) && s.At(t).Ready? && Target(s.At(t)) == Some(o)
    ensures o in s.objs && s.objs[o].owner == Some(t) && s.objs[o].creation.NotRunning?
    ensures var m := s.objs[o].(state := Used, usedCount := s.objs[o].usedCount + 1);
            MachineOk(m) && UsageOk(s.maxBuilds, m) && ThreadOk(s.objs[o := m], Running(s.At(t).data, s.At(t).e))
  {
    var x := s.At(t);
    assert ThreadOk(s.objs, x);
    HeldIsListed(s, t, o);
    UseCounted(s.maxBuilds, s.objs[o]);
    ReadyBecomesRunning(s.objs, x, s.objs[o].(state := Used, usedCount := s.objs[o].usedCount + 1));
  }

  lemma UsedShape(s: State, t: nat, o: nat, m: Machine, x: Thread)
    requires s.At(t).Ready? && Target(s.At(t)) == Some(o) && o in s.objs
    requires m == s.objs[o].(state := Used, usedCount := s.objs[o].usedCount + 1)
    requires x == Running(s.At(t).data, s.At(t).e)
    ensures CredentialsStep(s, t, true) == s.Put(o, m).Go(t, x) && HeldBy(x) == HeldBy(s.At(t))
  {
  }

  lemma UsedKeepsInv(s: State, t: nat)
    requires Inv(s) && StepEnabled(s, t, Credentials(true))
    ensures Inv(CredentialsStep(s, t, true))
  {
    var o := Target(s.At(t)).value;
    var x := Running(s.At(t).data, s.At(t).e);
    var m := s.objs[o].(state := Used, usedCount := s.objs[o].usedCount + 1);
    UsedShape(s, t, o, m, x);
    UsedFacts(s, t, o);
    ChangeByHolder(s, t, o, m, x);
  }

  lemma CredentialsKeepsInv(s: State, t: nat, ok: bool)
    requires Inv(s) && StepEnabled(s, t, Credentials(ok))
    ensures Inv(CredentialsStep(s, t, ok))
  {
    var x := s.At(t);
    assert ThreadOk(s.objs, x);
    if ok {
      UsedKeepsInv(s, t);
    } else if x.e.Some? {
      HeldIsListed(s, t, x.e.value);
      assert MachineOk(s.objs[x.e.value]);
      ReleaseKeepsInv(s, t, x.e.value, Holding(x.data));
    } else {
      GoKeepsInv(s, t, Holding(x.data));
    }
  }

  lemma EndKeepsInv(s: State, t: nat, a: Step)
    requires Inv(s) && StepEnabled(s, t, a) && (a.Cleanup? || a.EndWork?)
    ensures Inv(ThreadStep(s, t, a))
  {
    var x := s.At(t);
    assert ThreadOk(s.objs, x);
    var o := if a.Cleanup? then x.e else x.data;
    var next := if a.Cleanup? then Holding(x.data) else Out;
    if o.None? {
      GoKeepsInv(s, t, next);
    } else {
      HeldIsListed(s, t, o.value);
      assert MachineOk(s.objs[o.value]);
      ReleaseKeepsInv(s, t, o.value, next);
    }
  }

  /** The steps that only move the thread on. */
  lemma MoveKeepsInv(s: State, t: nat, a: Step)
    requires Inv(s) && StepEnabled(s, t, a)
    requires a.StartAcquire? || a.ProbeOk? || a.EndAcquire? || a.StartUse? || a.Attempt? || a.UseFails?
    ensures Inv(ThreadStep(s, t, a))
  {
    var x := s.At(t);
    assert ThreadOk(s.objs, x);
    match a
    case StartAcquire(names) => GoKeepsInv(s, t, Search(None, false, names));
    case ProbeOk => GoKeepsInv(s, t, if x.inUse then Ready(x.data, Some(x.o)) else Holding(Some(x.o)));
    case EndAcquire(err) => GoKeepsInv(s, t, if err then Out else Holding(None));
    case StartUse(connects) =>
      GoKeepsInv(s, t, if CanBeUsed(s, x.data) && connects then Ready(x.data, None) else Seeking(x.data));
    case Attempt(names) => GoKeepsInv(s, t, Search(x.data, true, names));
    case UseFails => GoKeepsInv(s, t, Holding(x.data));
  }

  lemma ThreadKeepsInv(s: State, t: nat, a: Step)
    requires Inv(s) && StepEnabled(s, t, a)
    ensures Inv(ThreadStep(s, t, a))
  {
    match a
    case Try => TryKeepsInv(s, t);
    case ProbeFails => ProbeFailsKeepsInv(s, t);
    case CreateForUse(name) =>
      assert ThreadOk(s.objs, s.At(t));
      UnownedIsFree(s, s.nextId);
      ObtainNew(s, t, NewMachine(name, ForBuild(t)), Create(s.At(t).data, s.nextId));
    case Credentials(ok) => CredentialsKeepsInv(s, t, ok);
    case Cleanup => EndKeepsInv(s, t, a);
    case EndWork => EndKeepsInv(s, t, a);
    case _ => MoveKeepsInv(s, t, a);
  }

  lemma WorldKeepsInv(s: State, a: World)
    requires Inv(s) && WorldEnabled(s, a)
    ensures Inv(WorldStep(s, a))
  {
    match a
    case See(name) =>
      if name !in s.table {
        SeeKeepsInv(s, FoundMachine(name));
      }
    case RemoveIdle(name) => RemoveIdleKeepsInv(s, name);
    case CreateIdle(name) => SeeKeepsInv(s, NewMachine(name, ForPool));
    case Created(o) => CreatedKeepsInv(s, o);
    case CreationFailed(o) => FailedKeepsInv(s, o);
    case Finalize(o) => FinalizeKeepsInv(s, o);
  }

  lemma {:induction false} RunKeepsInv(maxBuilds: int, acts: seq<Action>)
    ensures var r := After(Start(maxBuilds), acts);
            r.Some? ==> Inv(r.value)
  {
    if acts != [] {
      var before, a := acts[..|acts| - 1], acts[|acts| - 1];
      RunKeepsInv(maxBuilds, before);
      var r := After(Start(maxBuilds), before);
      if r.Some? && Enabled(r.value, a) {
        match a
        case Outside(w) => WorldKeepsInv(r.value, w);
        case By(t, step) => ThreadKeepsInv(r.value, t, step);
      }
    }
  }

  lemma ReachableInv(s: State)
    requires Reachable(s)
    ensures Inv(s)
  {
    var maxBuilds, acts :| After(Start(maxBuilds), acts) == Some(s);
    RunKeepsInv(maxBuilds, acts);
  }

  // ----- The promises -----

  /** No machine is held by two builds, nor twice by one, and what is held is in the
      table under its own name, neither idle nor under removal. */
  lemma NoMachineHeldTwice(s: State, t: nat, v: nat, o: nat)
    requires Reachable(s) && o in HeldBy(s.At(t))
    ensures t != v ==> o !in HeldBy(s.At(v))
    ensures s.At(t).Ready? || s.At(t).Running? ==> s.At(t).e.None? || s.At(t).e != s.At(t).data
    ensures o in s.objs && s.objs[o].listed && s.objs[o].removals == 0
    ensures !s.objs[o].state.Idle? && !s.objs[o].state.Removing?
  {
    ReachableInv(s);
    HeldIsListed(s, t, o);
    assert MachineOk(s.objs[o]) && ThreadOk(s.objs, s.At(t));
    assert o in HeldBy(s.At(v)) <==> OwnedBy(s.objs, o, v);
  }

  /** Over the whole history every machine is obtained only while nobody holds it and
      given up exactly once, by the thread that obtained it. */
  lemma HoldsAlternate(s: State, i: nat)
    requires Reachable(s) && i < |s.log|
    ensures Fits(s.log[..i], s.log[i])
    ensures forall t: nat, o: nat :: o in HeldBy(s.At(t)) <==> HolderAfter(s.log, o) == Some(t)
  {
    ReachableInv(s);
    forall t: nat, o: nat
      ensures o in HeldBy(s.At(t)) <==> HolderAfter(s.log, o) == Some(t)
    {
      assert o in HeldBy(s.At(t)) <==> OwnedBy(s.objs, o, t);
      assert o in s.objs ==> HolderAfter(s.log, o) == s.objs[o].owner;
    }
  }

  /** A machine is under removal at most once, and its removal deletes its own entry. */
  lemma RemovedOnce(s: State, o: nat)
    requires Reachable(s) && o in s.objs
    ensures s.objs[o].removals <= 1
    ensures s.objs[o].removals == 1 ==> s.objs[o].name in s.table && s.table[s.objs[o].name] == o
  {
    ReachableInv(s);
    assert MachineOk(s.objs[o]);
  }

  /** With MaxBuilds > 0 no machine that the provider created is used more often, and
      none of them is idle in the table with no builds left.  Of machines it found the
      same holds exactly when MaxBuilds is not 1; then there is one use too many. */
  lemma UsageWithinMaxBuilds(s: State, o: nat)
    requires Reachable(s) && o in s.objs && s.maxBuilds > 0
    ensures s.objs[o].created || s.maxBuilds != 1 ==> s.objs[o].usedCount <= s.maxBuilds
    ensures s.objs[o].state.Idle? ==>
              (s.objs[o].usedCount < s.maxBuilds <==> s.objs[o].created || s.maxBuilds != 1)
    ensures s.objs[o].usedCount <= s.maxBuilds + 1
  {
    ReachableInv(s);
    assert UsageOk(s.maxBuilds, s.objs[o]);
  }

  lemma AfterStep(s: State, acts: seq<Action>, u: State, a: Action)
    requires After(s, acts) == Some(u) && Enabled(u, a)
    ensures After(s, acts + [a]) == Some(Apply(u, a))
  {
    assert (acts + [a])[..|acts|] == acts;
  }

  lemma ReachableStep(s: State, a: Action)
    requires Reachable(s) && Enabled(s, a)
    ensures Reachable(Apply(s, a))
  {
    var maxBuilds, acts :| After(Start(maxBuilds), acts) == Some(s);
    AfterStep(Start(maxBuilds), acts, s, a);
  }

  /** A build without a machine of its own reaches the search of useMachine. */
  lemma SearchInUse(name: string) returns (s: State)
    ensures Reachable(s) && s == Start(1).Go(0, Search(None, true, [name]))
  {
    s := Start(1);
    assert After(s, []) == Some(s);
    ReachableStep(s, By(0, StartAcquire([])));
    s := s.Go(0, Search(None, false, []));
    ReachableStep(s, By(0, EndAcquire(false)));
    s := s.Go(0, Holding(None));
    ReachableStep(s, By(0, StartUse(true)));
    s := s.Go(0, Seeking(None));
    ReachableStep(s, By(0, Attempt([name])));
    s := s.Go(0, Search(None, true, [name]));
    assert s.threads == Start(1).Go(0, Search(None, true, [name])).threads;
  }

  /** A found machine counts as used once, so with MaxBuilds 1 it is idle with no
      builds left, and useMachine still takes it and uses it a second time. */
  lemma FoundMachineOverused() returns (s: State)
    ensures Reachable(s) && s.maxBuilds == 1
    ensures 0 in s.objs && !s.objs[0].created && s.objs[0].usedCount == 2
  {
    var s1 := SearchInUse("m");
    ReachableStep(s1, By(0, Try));
    var s2 := Apply(s1, By(0, Try));
    assert s2.At(0) == Probe(None, true, 0, []);
    assert s2.objs[0] == FoundMachine("m").(state := Acquired, owner := Some(0));
    ReachableStep(s2, By(0, ProbeOk));
    var s3 := Apply(s2, By(0, ProbeOk));
    ReachableStep(s3, By(0, Credentials(true)));
    s := Apply(s3, By(0, Credentials(true)));
  }

  // ----- The life of a machine, step by step -----

  /** What giving a machine up makes of it: it goes if it is used up, and is free again
      otherwise. */
  function GivenUp(s: State, m: Machine): MachineState {
    if s.maxBuilds > 0 && m.usedCount >= s.maxBuilds then Removing else Idle
  }

  /** The name that a search tries next: the last one left. */
  function NextName(x: Thread): string
    requires x.Search? && x.names != []
  {
    x.names[|x.names| - 1]
  }

  /** The state of a machine after a step, told without the steps: an idle one is taken
      when it is tried, a used-up or unreachable one goes, and so on. */
  function NextState(s: State, a: Action, o: nat): MachineState
    requires o in s.objs && Enabled(s, a)
  {
    var m := s.objs[o];
    match a
    case Outside(RemoveIdle(name)) => if m.listed && m.name == name then Removing else m.state
    case Outside(Created(p)) => if p != o then m.state else if m.creation.ForBuild? then Acquired else Idle
    case Outside(CreationFailed(p)) => if p == o then Removing else m.state
    case Outside(_) => m.state
    case By(t, Try) => if m.state.Idle? && m.listed && m.name == NextName(s.At(t)) then Acquired else m.state
    case By(t, ProbeFails) => if s.At(t).o == o then Removing else m.state
    case By(t, Credentials(ok)) =>
      if Target(s.At(t)) != Some(o) then m.state
      else if ok then Used
      else if s.At(t).e.Some? then GivenUp(s, m)
      else m.state
    case By(t, Cleanup) => if s.At(t).e == Some(o) then GivenUp(s, m) else m.state
    case By(t, EndWork) => if s.At(t).data == Some(o) then GivenUp(s, m) else m.state
    case By(_, _) => m.state
  }

  /** It is used once more by the step that marks it used, and by no other. */
  function NextUse(s: State, a: Action, o: nat): nat
    requires o in s.objs && Enabled(s, a)
  {
    s.objs[o].usedCount + if a.By? && a.step == Credentials(true) && Target(s.At(a.t)) == Some(o) then 1 else 0
  }

  ghost predicate LivesOn(s: State, a: Action, o: nat)
    requires o in s.objs && Enabled(s, a)
  {
    var u := Apply(s, a);
    o in u.objs && u.objs[o].state == NextState(s, a, o) && u.objs[o].usedCount == NextUse(s, a, o)
  }

  lemma WorldLives(s: State, w: World, o: nat)
    requires TableInv(s) && WorldEnabled(s, w) && o in s.objs
    ensures LivesOn(s, Outside(w), o)
  {
    match w
    case RemoveIdle(name) => RemoveIsPut(s, s.table[name]);
    case CreationFailed(p) => FailedLives(s, p, o);
    case _ =>
  }

  lemma FailedLives(s: State, p: nat, o: nat)
    requires TableInv(s) && WorldEnabled(s, CreationFailed(p)) && o in s.objs
    ensures LivesOn(s, Outside(CreationFailed(p)), o)
  {
    var m := s.objs[p];
    assert MachineOk(m);
    assert m.name in s.table && s.table[m.name] == p;
  }

  /** Releasing a machine that is listed. */
  lemma ReleaseLives(s: State, o: nat, p: nat)
    requires TableInv(s) && o in s.objs && s.objs[o].listed && p in s.objs
    ensures p in s.Release(o).objs && s.Release(o).objs[p].usedCount == s.objs[p].usedCount
    ensures s.Release(o).objs[p].state == if p == o then GivenUp(s, s.objs[o]) else s.objs[p].state
  {
    RemoveIsPut(s, o);
  }

  lemma GiveLives(s: State, t: nat, a: Step, o: nat)
    requires TableInv(s) && HoldInv(s) && StepEnabled(s, t, a) && o in s.objs
    requires a.Cleanup? || a.EndWork? || a == Credentials(false)
    ensures LivesOn(s, By(t, a), o)
  {
    var x := s.At(t);
    var given := if a.EndWork? then x.data else x.e;
    if given.Some? {
      HeldIsListed(s, t, given.value);
      ReleaseLives(s, given.value, o);
    }
  }

  lemma ProbeFailsLives(s: State, t: nat, o: nat)
    requires TableInv(s) && HoldInv(s) && StepEnabled(s, t, ProbeFails) && o in s.objs
    ensures LivesOn(s, By(t, ProbeFails), o)
  {
    HeldIsListed(s, t, s.At(t).o);
    RemoveIsPut(s, s.At(t).o);
  }

  lemma TryLives(s: State, t: nat, o: nat)
    requires TableInv(s) && StepEnabled(s, t, Try) && o in s.objs
    ensures LivesOn(s, By(t, Try), o)
  {
  }

  lemma ThreadLives(s: State, t: nat, a: Step, o: nat)
    requires TableInv(s) && HoldInv(s) && StepEnabled(s, t, a) && o in s.objs
    ensures LivesOn(s, By(t, a), o)
  {
    match a
    case Try => TryLives(s, t, o);
    case ProbeFails => ProbeFailsLives(s, t, o);
    case Credentials(ok) =>
      if !ok {
        GiveLives(s, t, a, o);
      }
    case Cleanup => GiveLives(s, t, a, o);
    case EndWork => GiveLives(s, t, a, o);
    case _ =>
  }

  /** Every step of every reachable run moves every machine exactly as its life says, and
      leaves all other machines in their states. */
  lemma MachineLives(s: State, a: Action, o: nat)
    requires Reachable(s) && Enabled(s, a) && o in s.objs
    ensures LivesOn(s, a, o)
  {
    ReachableInv(s);
    match a
    case Outside(w) => WorldLives(s, w, o);
    case By(t, step) => ThreadLives(s, t, step, o);
  }

  /** A removal that ends takes the name out of the table, and no other. */
  lemma RemovalDeletes(s: State, o: nat)
    requires Reachable(s) && WorldEnabled(s, Finalize(o))
    ensures WorldStep(s, Finalize(o)).table == s.table - {s.objs[o].name}
    ensures s.objs[o].name in s.table && s.table[s.objs[o].name] == o
  {
    RemovedOnce(s, o);
  }

  // ----- Free machines are taken -----

  /** The state of the machine known under a name. */
  function SeenUnder(s: State, name: string): Option<MachineState> {
    if name in s.table && s.table[name] in s.objs then Some(s.objs[s.table[name]].state) else None
  }

  /** A name that is tried: its machine is taken if it is idle, or unknown and then
      entered as found; a busy one is passed over. */
  lemma FreeMachineIsTaken(s: State, t: nat)
    requires Reachable(s) && StepEnabled(s, t, Try)
    ensures var name, u := NextName(s.At(t)), ThreadStep(s, t, Try);
            if SeenUnder(s, name) == Some(Idle) then
              u.At(t).Probe? && u.At(t).o == s.table[name] && s.table[name] in HeldBy(u.At(t))
            else if name !in s.table then
              && u.At(t).Probe? && u.At(t).o == s.nextId && s.nextId !in s.objs && s.nextId in HeldBy(u.At(t))
              && name in u.table && u.table[name] == s.nextId
              && u.objs[s.nextId].state == Acquired && u.objs[s.nextId].usedCount == 1
            else u.At(t).Search? && HeldBy(u.At(t)) == HeldBy(s.At(t))
  {
    ReachableInv(s);
  }

  /** A build uses the machine that Acquire returned if and only if it is still acquired
      and reachable. */
  lemma OwnMachineIsUsed(s: State, t: nat, connects: bool)
    requires Reachable(s) && s.At(t).Holding?
    ensures s.At(t).data.Some? ==> s.At(t).data.value in s.objs
    ensures var d, u := s.At(t).data, ThreadStep(s, t, StartUse(connects));
            if d.Some? && s.objs[d.value].state == Acquired && connects then
              u.At(t).Ready? && Target(u.At(t)) == d
            else u.At(t).Seeking?
  {
    ReachableInv(s);
    assert ThreadOk(s.objs, s.At(t));
  }

  /** A machine that was obtained and can be reached is what Acquire returns, or what the
      build uses next; with credentials the build runs on it, without it goes on as before. */
  lemma ObtainedIsUsed(s: State, t: nat, ok: bool)
    ensures s.At(t).Probe? ==>
              var x, u := s.At(t), ThreadStep(s, t, ProbeOk).At(t);
              if x.inUse then u.Ready? && Target(u) == Some(x.o) && u.data == x.data else u == Holding(Some(x.o))
    ensures StepEnabled(s, t, Credentials(ok)) ==>
              var x, u := s.At(t), ThreadStep(s, t, Credentials(ok)).At(t);
              if ok then u.Running? && Target(u) == Target(x) && u.data == x.data else u == Holding(x.data)
  {
  }

  /** Every thread can always go on; one that waits for a machine to be created can once the
      creation ends, and a search that is over once there is a fresh name. */
  lemma ThreadNeverStuck(s: State, t: nat, unused: string)
    requires Reachable(s) && unused !in s.table
    ensures (exists a :: StepEnabled(s, t, a)) ||
            (s.At(t).Create? && WorldEnabled(s, Created(s.At(t).o)) && WorldEnabled(s, CreationFailed(s.At(t).o)))
  {
    ReachableInv(s);
    assert ThreadOk(s.objs, s.At(t));
    match s.At(t)
    case Out => assert StepEnabled(s, t, StartAcquire([]));
    case Search(_, inUse, names) =>
      if names != [] {
        assert StepEnabled(s, t, Try);
      } else if inUse {
        assert StepEnabled(s, t, CreateForUse(unused));
      } else {
        assert StepEnabled(s, t, EndAcquire(false));
      }
    case Probe(_, _, _, _) => assert StepEnabled(s, t, ProbeOk);
    case Create(_, o) => assert MachineOk(s.objs[o]);
    case Holding(_) => assert StepEnabled(s, t, StartUse(true));
    case Seeking(_) => assert StepEnabled(s, t, UseFails);
    case Ready(_, _) => assert StepEnabled(s, t, Credentials(true));
    case Running(_, _) => assert StepEnabled(s, t, Cleanup);
  }

  /** What one search has tried: the name, the state its machine was in then, if the name
      was known, and whether the machine was obtained and failed its probe. */
  datatype Tried = Tried(name: string, seen: Option<MachineState>, failed: bool)

  datatype SearchLog = SearchLog(listed: seq<string>, tried: seq<Tried>)

  /** The last search of a thread in a run, read off the run's actions and states. */
  function SearchOf(maxBuilds: int, acts: seq<Action>, t: nat): SearchLog {
    if acts == [] then SearchLog([], [])
    else
      var before, a := acts[..|acts| - 1], acts[|acts| - 1];
      var h := SearchOf(maxBuilds, before, t);
      var r := After(Start(maxBuilds), before);
      match a
      case By(v, StartAcquire(names)) => if v == t then SearchLog(names, []) else h
      case By(v, Attempt(names)) => if v == t then SearchLog(names, []) else h
      case By(v, Try) =>
        if v == t && r.Some? && StepEnabled(r.value, t, Try) then
          var name := NextName(r.value.At(t));
          h.(tried := h.tried + [Tried(name, SeenUnder(r.value, name), false)])
        else h
      case By(v, ProbeFails) =>
        if v == t && h.tried != [] then
          h.(tried := h.tried[..|h.tried| - 1] + [h.tried[|h.tried| - 1].(failed := true)])
        else h
      case _ => h
  }

  /** Busy when it was tried, or obtained and not reachable. */
  predicate InVain(x: Tried) {
    (x.seen.Some? && x.seen.value != Idle) || x.failed
  }

  /** The names from the end of the list down to position n were tried, in this order. */
  ghost predicate TriedTo(h: SearchLog, names: seq<string>) {
    && names <= h.listed && |h.tried| == |h.listed| - |names|
    && forall i :: 0 <= i < |h.tried| ==> h.tried[i].name == h.listed[|h.listed| - 1 - i]
  }

  ghost predicate AllInVain(h: SearchLog, n: int) {
    forall i :: 0 <= i < n && i < |h.tried| ==> InVain(h.tried[i])
  }

  /** A search has tried in vain all names but those left; a probe tried one more. */
  ghost predicate SearchOk(x: Thread, h: SearchLog) {
    && (x.Search? ==> TriedTo(h, x.names) && AllInVain(h, |h.tried|))
    && (x.Probe? ==> TriedTo(h, x.names) && h.tried != [] && AllInVain(h, |h.tried| - 1))
  }

  predicate SameSearch(x: Thread, y: Thread) {
    y == x || (!y.Search? && !y.Probe?)
  }

  lemma WorldKeepsSearch(s: State, w: World, t: nat)
    requires WorldEnabled(s, w)
    ensures SameSearch(s.At(t), WorldStep(s, w).At(t))
  {
  }

  lemma OthersKeepSearch(s: State, v: nat, a: Step, t: nat)
    requires StepEnabled(s, v, a) && v != t
    ensures ThreadStep(s, v, a).At(t) == s.At(t)
  {
  }

  /** Other threads and the world leave a search alone. */
  lemma SearchStays(s: State, a: Action, t: nat)
    requires Enabled(s, a) && !(a.By? && a.t == t)
    ensures SameSearch(s.At(t), Apply(s, a).At(t))
  {
    match a
    case Outside(w) => WorldKeepsSearch(s, w, t);
    case By(v, step) => OthersKeepSearch(s, v, step, t);
  }

  lemma SearchTries(s: State, t: nat, h: SearchLog)
    requires TableInv(s) && StepEnabled(s, t, Try) && SearchOk(s.At(t), h)
    ensures var name := NextName(s.At(t));
            SearchOk(ThreadStep(s, t, Try).At(t), h.(tried := h.tried + [Tried(name, SeenUnder(s, name), false)]))
  {
    var x := s.At(t);
    assert NextName(x) == h.listed[|h.listed| - 1 - |h.tried|];
  }

  lemma SearchFails(s: State, t: nat, h: SearchLog)
    requires StepEnabled(s, t, ProbeFails) && SearchOk(s.At(t), h)
    ensures h.tried != []
    ensures SearchOk(ThreadStep(s, t, ProbeFails).At(t),
                     h.(tried := h.tried[..|h.tried| - 1] + [h.tried[|h.tried| - 1].(failed := true)]))
  {
  }

  lemma SearchMoves(s: State, t: nat, a: Step, h: SearchLog)
    requires StepEnabled(s, t, a) && !a.Try? && !a.ProbeFails? && SearchOk(s.At(t), h)
    ensures SearchOk(ThreadStep(s, t, a).At(t),
                     if a.StartAcquire? || a.Attempt? then SearchLog(a.names, []) else h)
  {
  }

  lemma {:induction false} RunKeepsSearch(maxBuilds: int, acts: seq<Action>, t: nat)
    ensures var r := After(Start(maxBuilds), acts);
            r.Some? ==> SearchOk(r.value.At(t), SearchOf(maxBuilds, acts, t))
  {
    if acts != [] {
      var before, a := acts[..|acts| - 1], acts[|acts| - 1];
      RunKeepsSearch(maxBuilds, before, t);
      RunKeepsInv(maxBuilds, before);
      var r, h := After(Start(maxBuilds), before), SearchOf(maxBuilds, before, t);
      if r.Some? && Enabled(r.value, a) {
        if a.By? && a.t == t {
          match a.step
          case Try => SearchTries(r.value, t, h);
          case ProbeFails => SearchFails(r.value, t, h);
          case _ => SearchMoves(r.value, t, a.step, h);
        } else {
          SearchStays(r.value, a, t);
        }
      }
    }
  }

  /** Nothing free is skipped: when Acquire ends without a machine, and when useMachine
      creates one, every machine listed was tried, the newest first, and was busy at that
      time or was obtained and could not be reached. */
  lemma NothingFreeIsSkipped(maxBuilds: int, acts: seq<Action>, t: nat, a: Step)
    requires After(Start(maxBuilds), acts).Some? && StepEnabled(After(Start(maxBuilds), acts).value, t, a)
    requires a.EndAcquire? || a.CreateForUse?
    ensures var h := SearchOf(maxBuilds, acts, t);
            && |h.tried| == |h.listed|
            && forall i :: 0 <= i < |h.listed| ==>
                 h.tried[i].name == h.listed[|h.listed| - 1 - i] && InVain(h.tried[i])
  {
    RunKeepsSearch(maxBuilds, acts, t);
  }
}
