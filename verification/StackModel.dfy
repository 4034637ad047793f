/** Value-level specification of the transactional launcher (stack_lifecycle.py, PortableStackLauncher).

    The host is asked one question per tick; quantifying over its answers covers every way a spawn,
    probe, write, wait or kill can go. A resource is live until the launcher has confirmed that it
    stopped. */
module StackModel {
  import opened Common
  import opened StackPlan

  datatype Record = Record(id: Id, owned: bool, pid: Option<nat>)

  datatype Phase = Starting | Running | RollingBack | Failed | Stopping | Stopped

  datatype Manifest = Manifest(transaction: nat, digest: nat, phase: Phase, records: seq<Record>)

  // A daemon's process group, a start or stop command still running, or what a service with an
  // inverse command establishes outside its process.
  datatype Resource = Process(pid: nat) | Helper(pid: nat) | Managed(id: Id)

  datatype Exit = Succeeds | Fails | Overruns

  datatype Env = Env(
    persists: nat -> bool,
    healthy: nat -> bool,
    spawns: nat -> bool,
    identified: nat -> bool,
    ready: nat -> bool,      // becomes healthy in time
    starts: nat -> Exit,     // how a start command ends
    contains: nat -> bool,   // a start command that must go is confirmed gone
    stops: nat -> Exit,      // how a stop command ends
    kills: nat -> bool)      // a process group is confirmed gone

  datatype Host = Host(disk: Option<Manifest>, live: set<Resource>, visited: seq<Id>, tick: nat)

  datatype Plan = Plan(services: seq<Service>, digest: nat)

  datatype Problem = MissingSpec(id: Id) | StopFailed(id: Id) | ProcessRemains(id: Id) | Unsaved(phase: Phase)

  datatype Did = Did(host: Host, ok: bool)

  function Lookup(services: seq<Service>, id: Id): Option<Service> {
    if services == [] then None
    else
      var later := Lookup(services[1..], id);
      if later.Some? then later else if services[0].id == id then Some(services[0]) else None
  }

  function Later(h: Host): Host { h.(tick := h.tick + 1) }

  /** The manifest is replaced as a whole or not at all. */
  function Persist(env: Env, h: Host, m: Manifest): Did {
    if env.persists(h.tick) then Did(Later(h).(disk := Some(m)), true) else Did(Later(h), false)
  }

  function Released(records: seq<Record>): seq<Record> {
    seq(|records|, i requires 0 <= i < |records| => Record(records[i].id, false, None))
  }

  // --- Rolling back ------------------------------------------------------------------------------

  function Terminate(env: Env, h: Host, pid: nat): Did {
    if env.kills(h.tick) then Did(Later(h).(live := h.live - {Process(pid)}), true) else Did(Later(h), false)
  }

  function RunStop(env: Env, h: Host, s: Service): Did {
    if !env.spawns(h.tick) then Did(Later(h), false)
    else
      var spawned := Later(h);
      match env.stops(spawned.tick)
      case Succeeds => Did(Later(spawned).(live := h.live - {Managed(s.id)}), true)
      case Fails => Did(Later(spawned), false)
      case Overruns =>
        var waited := Later(spawned);
        Did(Later(waited).(live := if env.contains(waited.tick) then h.live else h.live + {Helper(h.tick)}), false)
  }

  datatype Undone = Undone(host: Host, problems: seq<Problem>)

  /** Undo one record: both halves are tried, whatever becomes of the first. */
  function Undo(env: Env, services: seq<Service>, h: Host, r: Record): Undone {
    if !r.owned then Undone(h, [])
    else
      var service := Lookup(services, r.id);
      if service.None? then Undone(h, [MissingSpec(r.id)])
      else
        var visited := h.(visited := h.visited + [r.id]);
        var stopped := if service.value.hasStop then RunStop(env, visited, service.value) else Did(visited, true);
        var ended := if r.pid.Some? then Terminate(env, stopped.host, r.pid.value) else Did(stopped.host, true);
        Undone(ended.host, (if stopped.ok then [] else [StopFailed(r.id)])
                           + (if ended.ok then [] else [ProcessRemains(r.id)]))
  }

  /** The newest record first. */
  function Rollback(env: Env, services: seq<Service>, h: Host, records: seq<Record>): Undone
    decreases |records|
  {
    if records == [] then Undone(h, [])
    else
      var last := Undo(env, services, h, records[|records| - 1]);
      var rest := Rollback(env, services, last.host, records[..|records| - 1]);
      Undone(rest.host, last.problems + rest.problems)
  }

  // --- Starting services ---------------------------------------------------------------------------

  datatype Transaction = Transaction(host: Host, manifest: Manifest, records: seq<Record>)

  datatype Began = Began(transaction: Transaction, ok: bool)

  function On(t: Transaction, h: Host): Transaction { t.(host := h) }

  /** A record counts from the moment it is announced, even if writing it down fails. */
  function Announce(env: Env, t: Transaction, r: Record): Began {
    var records := t.records + [r];
    var manifest := t.manifest.(records := records);
    var saved := Persist(env, t.host, manifest);
    Began(Transaction(saved.host, manifest, records), saved.ok)
  }

  function Footprint(s: Service): set<Resource> { if s.hasStop then {Managed(s.id)} else {} }

  function StartDaemon(env: Env, t: Transaction, s: Service): Began {
    if !env.spawns(t.host.tick) then Began(On(t, Later(t.host)), false)
    else
      var pid := t.host.tick;
      var spawned := Later(t.host).(live := t.host.live + {Process(pid)} + Footprint(s));
      var announced := Announce(env, On(t, spawned), Record(s.id, true, Some(pid)));
      if !announced.ok then announced
      else
        var h := announced.transaction.host;
        if !env.identified(h.tick) then Began(On(announced.transaction, Later(h)), false)
        else Began(On(announced.transaction, Later(Later(h))), env.ready(h.tick + 1))
  }

  /** Wait for a spawned start command, or contain it. */
  function Contain(env: Env, h: Host, pid: nat): Host {
    Later(h).(live := if env.contains(h.tick) then h.live - {Helper(pid)} else h.live)
  }

  function StartOneshot(env: Env, t: Transaction, s: Service): Began {
    if !env.spawns(t.host.tick) then Began(On(t, Later(t.host)), false)
    else
      var pid := t.host.tick;
      var spawned := Later(t.host).(live := t.host.live + {Helper(pid)} + Footprint(s));
      var announced := Announce(env, On(t, spawned), Record(s.id, true, None));
      var h := announced.transaction.host;
      if !announced.ok then Began(On(announced.transaction, Contain(env, h, pid)), false)
      else match env.starts(h.tick)
        case Overruns => Began(On(announced.transaction, Contain(env, Later(h), pid)), false)
        case Fails => Began(On(announced.transaction, Later(h).(live := h.live - {Helper(pid)})), false)
        case Succeeds =>
          var exited := Later(h).(live := h.live - {Helper(pid)});
          Began(On(announced.transaction, Later(exited)), env.ready(exited.tick))
  }

  function StartService(env: Env, t: Transaction, s: Service): Began {
    var probed := On(t, Later(t.host));
    if s.reuseIfHealthy && env.healthy(t.host.tick) then Announce(env, probed, Record(s.id, false, None))
    else match s.mode
      case External =>
        var waited := On(t, Later(probed.host));
        if env.ready(probed.host.tick) then Announce(env, waited, Record(s.id, false, None)) else Began(waited, false)
      case Daemon => StartDaemon(env, probed, s)
      case Oneshot => StartOneshot(env, probed, s)
  }

  function StartServices(env: Env, t: Transaction, order: seq<Service>): Began
    decreases |order|
  {
    if order == [] then Began(t, true)
    else
      var first := StartService(env, t, order[0]);
      if !first.ok then first else StartServices(env, first.transaction, order[1..])
  }

  // --- Transactions ----------------------------------------------------------------------------------

  // A call returns, raises StackStartError with problems to report, or raises something else.
  datatype Verdict = Returned | StartError(problems: seq<Problem>) | Raised

  datatype Ended = Ended(host: Host, verdict: Verdict)

  datatype Readiness = Proceed | Already | Blocked(verdict: Verdict)

  datatype Recovered = Recovered(host: Host, readiness: Readiness)

  /** Every service of the plan has a record and is healthy. */
  predicate ManifestHealthy(env: Env, plan: Plan, h: Host, m: Manifest) {
    (set r | r in m.records :: r.id) == Ids(plan.services) && env.healthy(h.tick)
  }

  /** Settle what an earlier transaction left before a new one may begin. */
  function Recover(env: Env, plan: Plan, h: Host): Recovered {
    if h.disk.None? then Recovered(h, Proceed)
    else
      var m := h.disk.value;
      if m.digest != plan.digest then Recovered(h, Blocked(Raised))
      else if m.phase.Running? && ManifestHealthy(env, plan, h, m) then Recovered(Later(h), Already)
      else
        var written := Persist(env, Later(h), m.(phase := RollingBack));
        if !written.ok then Recovered(written.host, Blocked(Raised)) else Settle(env, plan, written.host, m)
  }

  function Settle(env: Env, plan: Plan, h: Host, m: Manifest): Recovered {
    var undone := Rollback(env, plan.services, h, m.records);
    if undone.problems != [] then
      var failed := Persist(env, undone.host, m.(phase := Failed));
      Recovered(failed.host, Blocked(if failed.ok then StartError(undone.problems) else Raised))
    else
      var settled := Persist(env, undone.host, m.(phase := Stopped, records := Released(m.records)));
      Recovered(settled.host, if settled.ok then Proceed else Blocked(Raised))
  }

  /** Undo a transaction that failed; it owns nothing afterwards unless undoing it failed too. */
  function Abandon(env: Env, plan: Plan, t: Transaction): Ended {
    var manifest := t.manifest.(phase := RollingBack, records := t.records);
    var written := Persist(env, t.host, manifest);
    var undone := Rollback(env, plan.services, written.host, t.records);
    var kept := if undone.problems == [] then Released(t.records) else t.records;
    var closed := Persist(env, undone.host, manifest.(phase := Failed, records := kept));
    Ended(closed.host, StartError(undone.problems
                                  + (if written.ok then [] else [Unsaved(RollingBack)])
                                  + (if closed.ok then [] else [Unsaved(Failed)])))
  }

  function Launch(env: Env, plan: Plan, order: seq<Service>, h: Host): Ended {
    var manifest := Manifest(h.tick, plan.digest, Starting, []);
    var written := Persist(env, h, manifest);
    if !written.ok then Ended(written.host, Raised)
    else
      var began := StartServices(env, Transaction(written.host, manifest, []), order);
      if !began.ok then Abandon(env, plan, began.transaction)
      else
        var t := began.transaction;
        var saved := Persist(env, t.host, t.manifest.(phase := Running, records := t.records));
        Ended(saved.host, if saved.ok then Returned else Raised)
  }

  function Start(env: Env, plan: Plan, order: seq<Service>, h: Host): Ended {
    var recovered := Recover(env, plan, h);
    match recovered.readiness
    case Already => Ended(recovered.host, Returned)
    case Blocked(verdict) => Ended(recovered.host, verdict)
    case Proceed => Launch(env, plan, order, recovered.host)
  }

  function Stop(env: Env, plan: Plan, h: Host): Ended {
    if h.disk.None? then Ended(h, Returned)
    else
      var m := h.disk.value;
      if m.digest != plan.digest then Ended(h, Raised)
      else
        var written := Persist(env, h, m.(phase := Stopping));
        if !written.ok then Ended(written.host, Raised)
        else
          var undone := Rollback(env, plan.services, written.host, m.records);
          var clean := undone.problems == [];
          var closed := Persist(env, undone.host, m.(phase := if clean then Stopped else Failed,
                                                     records := if clean then Released(m.records) else m.records));
          Ended(closed.host, if !closed.ok then Raised else if clean then Returned else StartError(undone.problems))
  }

  datatype Call = StartCall | StopCall

  function Perform(env: Env, plan: Plan, order: seq<Service>, h: Host, call: Call): Ended {
    match call case StartCall => Start(env, plan, order, h) case StopCall => Stop(env, plan, h)
  }

  function Run(env: Env, plan: Plan, order: seq<Service>, h: Host, calls: seq<Call>): Host
    decreases |calls|
  {
    if calls == [] then h else Run(env, plan, order, Perform(env, plan, order, h, calls[0]).host, calls[1..])
  }
}
