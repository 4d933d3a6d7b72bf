/** One scaling pass of the docker-machine provider: updateMachines and
    createMachines (executors/docker/machine/provider.go, data.go, details.go). */
module MachineScaling {
  import opened Base

  datatype MachineState = Idle | Acquired | Creating | Used | Removing

  const REMOVE_RETRY_TRIES := 3

  /** `used` is the time of last use. */
  datatype Details = Details(state: MachineState, usedCount: int, retryCount: int, used: int) {
    predicate IsStuckOnRemove() {
      state.Removing? && retryCount >= REMOVE_RETRY_TRIES
    }
  }

  datatype Config = Config(limit: int, maxBuilds: int, idleCount: int, idleTime: int)

  datatype MachinesData = MachinesData(acquired: nat, creating: nat, idle: nat, used: nat, removing: nat, stuck: nat) {
    function Available(): nat {
      acquired + creating + idle
    }

    function Total(): nat {
      acquired + creating + idle + used + removing + stuck
    }

    function Add(d: Details): MachinesData {
      match d.state
      case Idle => this.(idle := idle + 1)
      case Creating => this.(creating := creating + 1)
      case Acquired => this.(acquired := acquired + 1)
      case Used => this.(used := used + 1)
      case Removing =>
        if d.IsStuckOnRemove() then this.(stuck := stuck + 1) else this.(removing := removing + 1)
    }
  }

  const NO_MACHINES := MachinesData(0, 0, 0, 0, 0, 0)

  /** A machine that is listed but unknown counts as used once. */
  function Found(now: int): Details {
    Details(Idle, 1, 0, now)
  }

  /** updateMachine: whether the machine is to be removed. */
  predicate Surplus(c: Config, data: MachinesData, d: Details, now: int) {
    && d.state.Idle?
    && (|| (c.maxBuilds > 0 && d.usedCount >= c.maxBuilds)
        || (data.Total() >= c.limit && c.limit > 0)
        || (now - d.used > c.idleTime && data.idle >= c.idleCount))
  }

  function Removed(d: Details, now: int): Details {
    d.(state := Removing, retryCount := 0, used := now)
  }

  // ----- The pass as a fold over the list -----

  datatype Pass = Pass(details: map<string, Details>, data: MachinesData, valid: seq<string>) {
    /** The machine as the pass finds it. */
    function Seen(name: string, now: int): Details {
      if name in details then details[name] else Found(now)
    }

    function Visit(name: string, c: Config, now: int): Pass {
      var d := Seen(name, now);
      if Surplus(c, data, d, now) then
        var r := Removed(d, now);
        Pass(details[name := r], data.Add(r), valid)
      else
        Pass(details[name := d], data.Add(d), valid + [name])
    }
  }

  function Scan(p: Pass, names: seq<string>, c: Config, now: int): Pass {
    if names == [] then p else Scan(p, names[..|names| - 1], c, now).Visit(names[|names| - 1], c, now)
  }

  function Begin(details: map<string, Details>): Pass {
    Pass(details, NO_MACHINES, [])
  }

  /** How many of the first i positions listed the pass left in this state. */
  function Left(details: map<string, Details>, names: seq<string>, c: Config, now: int, i: nat, st: MachineState): nat
    requires i <= |names|
  {
    if i == 0 then 0
    else
      var p := Scan(Begin(details), names[..i], c, now);
      Left(details, names, c, now, i - 1, st) + if p.Seen(names[i - 1], now).state == st then 1 else 0
  }

  /** How many of them have been under removal for too many tries. */
  function LeftStuck(details: map<string, Details>, names: seq<string>, c: Config, now: int, i: nat): nat
    requires i <= |names|
  {
    if i == 0 then 0
    else
      var d := Scan(Begin(details), names[..i], c, now).Seen(names[i - 1], now);
      LeftStuck(details, names, c, now, i - 1) + if d.state == Removing && d.retryCount >= 3 then 1 else 0
  }

  function CounterOf(data: MachinesData, st: MachineState): nat {
    match st
    case Idle => data.idle
    case Acquired => data.acquired
    case Creating => data.creating
    case Used => data.used
    case Removing => data.removing + data.stuck
  }

  lemma VisitCounts(p: Pass, name: string, c: Config, now: int)
    ensures var q := p.Visit(name, c, now);
            var d := q.Seen(name, now);
            && (forall st :: CounterOf(q.data, st) == CounterOf(p.data, st) + if d.state == st then 1 else 0)
            && q.data.stuck == p.data.stuck + if d.state == Removing && d.retryCount >= 3 then 1 else 0
  {
  }

  lemma {:induction false} LeftCounted(details: map<string, Details>, names: seq<string>, c: Config, now: int, i: nat,
                                       st: MachineState)
    requires i <= |names|
    ensures CounterOf(Scan(Begin(details), names[..i], c, now).data, st) == Left(details, names, c, now, i, st)
  {
    if i > 0 {
      LeftCounted(details, names, c, now, i - 1, st);
      ScanVisits(Begin(details), names, c, now, i - 1);
      VisitCounts(Scan(Begin(details), names[..i - 1], c, now), names[i - 1], c, now);
    }
  }

  lemma {:induction false} StuckCounted(details: map<string, Details>, names: seq<string>, c: Config, now: int, i: nat)
    requires i <= |names|
    ensures Scan(Begin(details), names[..i], c, now).data.stuck == LeftStuck(details, names, c, now, i)
  {
    if i > 0 {
      StuckCounted(details, names, c, now, i - 1);
      ScanVisits(Begin(details), names, c, now, i - 1);
      VisitCounts(Scan(Begin(details), names[..i - 1], c, now), names[i - 1], c, now);
    }
  }

  lemma {:induction false} AllCounted(p: Pass, names: seq<string>, c: Config, now: int)
    ensures Scan(p, names, c, now).data.Total() == p.data.Total() + |names|
  {
    if names != [] {
      var front := names[..|names| - 1];
      AllCounted(p, front, c, now);
      var q := Scan(p, front, c, now);
      var name := names[|names| - 1];
      VisitCounts(q, name, c, now);
      TotalGrows(q.data, q.Visit(name, c, now).data, q.Visit(name, c, now).Seen(name, now).state);
    }
  }

  lemma TotalGrows(before: MachinesData, after: MachinesData, one: MachineState)
    requires forall st :: CounterOf(after, st) == CounterOf(before, st) + if one == st then 1 else 0
    ensures after.Total() == before.Total() + 1
  {
    TotalIsSum(before);
    TotalIsSum(after);
  }

  lemma TotalIsSum(data: MachinesData)
    ensures data.Total() == CounterOf(data, Idle) + CounterOf(data, Acquired) + CounterOf(data, Creating) +
                            CounterOf(data, Used) + CounterOf(data, Removing)
    ensures data.Available() == CounterOf(data, Idle) + CounterOf(data, Acquired) + CounterOf(data, Creating)
  {
  }

  /** The counters are these, and the total and the available ones their sums. */
  predicate Tally(data: MachinesData, idle: nat, creating: nat, acquired: nat, used: nat, removing: nat, stuck: nat) {
    && data.idle == idle && data.creating == creating && data.acquired == acquired && data.used == used
    && data.removing + data.stuck == removing && data.stuck == stuck
    && data.Available() == idle + creating + acquired
    && data.Total() == idle + creating + acquired + used + removing
  }

  lemma TallyOf(data: MachinesData, stuck: nat)
    requires data.stuck == stuck
    ensures Tally(data, CounterOf(data, Idle), CounterOf(data, Creating), CounterOf(data, Acquired),
                  CounterOf(data, Used), CounterOf(data, Removing), stuck)
  {
  }

  /** The counters follow the list: as many in total as positions visited, in each state
      as many as were left in it, and available are those left idle, acquired or
      creating. */
  lemma ScanCounts(details: map<string, Details>, names: seq<string>, c: Config, now: int, i: nat)
    requires i <= |names|
    ensures Scan(Begin(details), names[..i], c, now).data.Total() == i
    ensures Tally(Scan(Begin(details), names[..i], c, now).data,
                  Left(details, names, c, now, i, Idle), Left(details, names, c, now, i, Creating),
                  Left(details, names, c, now, i, Acquired), Left(details, names, c, now, i, Used),
                  Left(details, names, c, now, i, Removing), LeftStuck(details, names, c, now, i))
  {
    AllCounted(Begin(details), names[..i], c, now);
    LeftCounted(details, names, c, now, i, Idle);
    LeftCounted(details, names, c, now, i, Creating);
    LeftCounted(details, names, c, now, i, Acquired);
    LeftCounted(details, names, c, now, i, Used);
    LeftCounted(details, names, c, now, i, Removing);
    StuckCounted(details, names, c, now, i);
    TallyOf(Scan(Begin(details), names[..i], c, now).data, LeftStuck(details, names, c, now, i));
  }

  /** Exactly which idle machines go: those used up, those listed at the limit or
      behind it, and those idle for too long once enough idle ones were kept before. */
  predicate Doomed(c: Config, d: Details, now: int, position: nat, keptBefore: nat) {
    && d.state.Idle?
    && (|| (c.maxBuilds > 0 && d.usedCount >= c.maxBuilds)
        || (c.limit > 0 && position >= c.limit)
        || (now - d.used > c.idleTime && keptBefore >= c.idleCount))
  }

  /** With the counters the pass has when it comes to a position, it removes the
      machines that are doomed there. */
  lemma SurplusIsDoomed(c: Config, data: MachinesData, d: Details, now: int, position: nat)
    requires data.Total() == position
    ensures Surplus(c, data, d, now) <==> Doomed(c, d, now, position, data.idle)
  {
  }

  lemma ScanVisits(p: Pass, names: seq<string>, c: Config, now: int, i: nat)
    requires i < |names|
    ensures Scan(p, names[..i + 1], c, now) == Scan(p, names[..i], c, now).Visit(names[i], c, now)
  {
    assert names[..i + 1][..i] == names[..i];
  }

  lemma VisitDecides(details: map<string, Details>, names: seq<string>, c: Config, now: int, i: nat)
    requires i < |names|
    ensures var before := Scan(Begin(details), names[..i], c, now);
            var after := Scan(Begin(details), names[..i + 1], c, now);
            var d := before.Seen(names[i], now);
            if Doomed(c, d, now, i, Left(details, names, c, now, i, Idle)) then
              after.details == before.details[names[i] := Removed(d, now)] && after.valid == before.valid
            else
              after.details == before.details[names[i] := d] && after.valid == before.valid + [names[i]]
  {
    var before := Scan(Begin(details), names[..i], c, now);
    ScanCounts(details, names, c, now, i);
    SurplusIsDoomed(c, before.data, before.Seen(names[i], now), now, i);
    ScanVisits(Begin(details), names, c, now, i);
  }

  /** A machine that is not idle is left alone by the rest of the pass. */
  lemma {:induction false} NotIdleStays(p: Pass, names: seq<string>, c: Config, now: int, name: string)
    requires name in p.details && !p.details[name].state.Idle?
    ensures var q := Scan(p, names, c, now);
            name in q.details && q.details[name] == p.details[name]
  {
    if names != [] {
      NotIdleStays(p, names[..|names| - 1], c, now, name);
    }
  }

  lemma {:induction false} ScanSplit(p: Pass, a: seq<string>, b: seq<string>, c: Config, now: int)
    ensures Scan(p, a + b, c, now) == Scan(Scan(p, a, c, now), b, c, now)
  {
    if b == [] {
      assert a + b == a;
    } else {
      assert (a + b)[..|a + b| - 1] == a + b[..|b| - 1];
      ScanSplit(p, a, b[..|b| - 1], c, now);
    }
  }

  /** A machine that is idle or unknown before the pass is idle or under removal after. */
  lemma {:induction false} IdleStaysOrGoes(details: map<string, Details>, names: seq<string>, c: Config, now: int,
                                           name: string)
    requires name in details ==> details[name].state.Idle?
    ensures var q := Scan(Begin(details), names, c, now);
            name in q.details ==> q.details[name].state.Idle? || q.details[name].state.Removing?
  {
    if names != [] {
      IdleStaysOrGoes(details, names[..|names| - 1], c, now, name);
    }
  }

  /** After the pass no machine listed at the limit or behind it is idle: those that
      were idle or unknown are under removal. */
  lemma NoneIdleBeyondLimit(details: map<string, Details>, names: seq<string>, c: Config, now: int, i: nat)
    requires c.limit > 0 && c.limit <= i < |names|
    ensures var q := Scan(Begin(details), names, c, now);
            && names[i] in q.details && !q.details[names[i]].state.Idle?
            && ((names[i] in details ==> details[names[i]].state.Idle?) ==> q.details[names[i]].state.Removing?)
  {
    VisitDecides(details, names, c, now, i);
    var after := Scan(Begin(details), names[..i + 1], c, now);
    assert names == names[..i + 1] + names[i + 1..];
    ScanSplit(Begin(details), names[..i + 1], names[i + 1..], c, now);
    NotIdleStays(after, names[i + 1..], c, now, names[i]);
    if names[i] in details ==> details[names[i]].state.Idle? {
      IdleStaysOrGoes(details, names, c, now, names[i]);
    }
  }

  /** Machines that were busy before the pass, and machines not listed, are untouched. */
  lemma {:induction false} OnlyIdleChange(details: map<string, Details>, names: seq<string>, c: Config, now: int,
                                          name: string)
    requires name in details && (!details[name].state.Idle? || name !in names)
    ensures var q := Scan(Begin(details), names, c, now);
            name in q.details && q.details[name] == details[name]
  {
    if names != [] {
      OnlyIdleChange(details, names[..|names| - 1], c, now, name);
    }
  }

  // ----- Creation -----

  /** With that many more machines creation stops. */
  predicate Enough(c: Config, data: MachinesData, more: nat) {
    data.Available() + more >= c.idleCount || (c.limit > 0 && data.Total() + more >= c.limit)
  }

  /** How many machines are missing: up to IdleCount available ones, within the limit. */
  function Missing(c: Config, data: MachinesData): nat {
    var wanted := Max(0, c.idleCount - data.Available());
    if c.limit > 0 then Min(wanted, Max(0, c.limit - data.Total())) else wanted
  }

  /** That is the least number with which there are enough. */
  lemma MissingIsLeast(c: Config, data: MachinesData, fewer: nat)
    ensures Enough(c, data, Missing(c, data))
    ensures fewer < Missing(c, data) ==> !Enough(c, data, fewer)
  {
  }

  function WithNew(details: map<string, Details>, names: seq<string>, now: int): map<string, Details> {
    if names == [] then details
    else WithNew(details, names[..|names| - 1], now)[names[|names| - 1] := Details(Creating, 0, 0, now)]
  }

  lemma {:induction false} NewOnesOnly(details: map<string, Details>, names: seq<string>, now: int)
    requires forall i :: 0 <= i < |names| ==> names[i] !in details
    ensures WithNew(details, names, now).Keys == details.Keys + set n | n in names
    ensures forall n :: n in names ==>
              && n in WithNew(details, names, now)
              && WithNew(details, names, now)[n].state == Creating && WithNew(details, names, now)[n].usedCount == 0
    ensures forall n :: n in details ==>
              n in WithNew(details, names, now) && WithNew(details, names, now)[n] == details[n]
  {
    if names != [] {
      NewOnesOnly(details, names[..|names| - 1], now);
      assert names == names[..|names| - 1] + [names[|names| - 1]];
    }
  }

  // ----- The provider -----

  class Provider {
    var details: map<string, Details>

    constructor ()
      ensures details == map[]
    {
      details := map[];
    }

    /** machineDetails(name, false). */
    method MachineDetails(name: string, now: int) returns (d: Details)
      modifies this
      ensures d == Begin(old(details)).Seen(name, now)
      ensures d == if name in old(details) then old(details)[name] else Details(Idle, 1, 0, now)
      ensures details == old(details)[name := d]
    {
      if name !in details {
        details := details[name := Found(now)];
      }
      d := details[name];
    }

    method Remove(name: string, now: int) returns (found: bool)
      modifies this
      ensures found <==> name in old(details)
      ensures details == if found then old(details)[name := Removed(old(details)[name], now)] else old(details)
      ensures found ==> details[name].state == Removing && details[name].usedCount == old(details)[name].usedCount
    {
      if name !in details {
        return false;
      }
      details := details[name := Removed(details[name], now)];
      return true;
    }

    method UpdateMachines(machines: seq<string>, c: Config, now: int) returns (data: MachinesData, valid: seq<string>)
      modifies this
      ensures Pass(details, data, valid) == Scan(Begin(old(details)), machines, c, now)
      ensures data.Total() == |machines|
    {
      data, valid := NO_MACHINES, [];
      for i := 0 to |machines|
        invariant Pass(details, data, valid) == Scan(Begin(old(details)), machines[..i], c, now)
      {
        assert machines[..i + 1][..i] == machines[..i];
        var name := machines[i];
        var d := MachineDetails(name, now);
        if Surplus(c, data, d, now) {
          var _ := Remove(name, now);
        } else {
          valid := valid + [name];
        }
        data := data.Add(details[name]);
      }
      assert machines[..|machines|] == machines;
      ScanCounts(old(details), machines, c, now, |machines|);
    }

    /** Creates exactly the missing machines; `names` supplies their names. */
    method CreateMachines(c: Config, data0: MachinesData, names: seq<string>, now: int) returns (data: MachinesData)
      requires |names| >= Missing(c, data0)
      modifies this
      ensures details == WithNew(old(details), names[..Missing(c, data0)], now)
      ensures data == data0.(creating := data0.creating + Missing(c, data0))
      ensures data.Available() >= c.idleCount || (c.limit > 0 && data.Total() >= c.limit)
      ensures c.limit > 0 ==> data.Total() <= Max(data0.Total(), c.limit)
      ensures forall fewer: nat :: fewer < data.creating - data0.creating ==> !Enough(c, data0, fewer)
    {
      data := data0;
      var next := 0;
      while true
        invariant 0 <= next <= Missing(c, data0)
        invariant details == WithNew(old(details), names[..next], now)
        invariant data == data0.(creating := data0.creating + next)
        decreases Missing(c, data0) - next
      {
        if data.Available() >= c.idleCount {
          break;
        }
        if data.Total() >= c.limit && c.limit > 0 {
          break;
        }
        assert names[..next + 1][..next] == names[..next];
        details := details[names[next] := Details(Creating, 0, 0, now)];
        next := next + 1;
        data := data.(creating := data.creating + 1);
      }
    }

    /** The part of Acquire up to the search for a free machine: every listed machine
        is counted once, the pool is filled up, and the total stays at or below the
        larger of the listed number and the limit. */
    method ScalingPass(machines: seq<string>, c: Config, names: seq<string>, now: int)
        returns (data: MachinesData, valid: seq<string>)
      requires |names| >= Max(0, c.idleCount)
      modifies this
      ensures data.Available() >= c.idleCount || (c.limit > 0 && data.Total() >= c.limit)
      ensures |machines| <= data.Total()
      ensures c.limit > 0 ==> data.Total() <= Max(|machines|, c.limit)
      ensures var p := Scan(Begin(old(details)), machines, c, now);
              && valid == p.valid
              && data == p.data.(creating := p.data.creating + Missing(c, p.data))
              && details == WithNew(p.details, names[..Missing(c, p.data)], now)
    {
      data, valid := UpdateMachines(machines, c, now);
      data := CreateMachines(c, data, names, now);
    }
  }
}
