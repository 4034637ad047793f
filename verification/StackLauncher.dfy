/** The launcher as the object it is: a manifest on disk, a list of records that grows as services
    start, and a loop that rolls them back; each method equal to its specification in StackModel. */
module StackLauncher {
  import opened Common
  import opened StackPlan
  import opened StackModel
  import Spec = StackModel

  /** The machine: the manifest file, what is live, and the outcome of everything asked of it. */
  class Machine {
    const env: Env
    var disk: Option<Manifest>
    var live: set<Resource>
    var tick: nat
    ghost var visited: seq<Id>

    ghost function View(): Host
      reads this
    {
      Host(disk, live, visited, tick)
    }

    constructor (env: Env)
      ensures this.env == env && View() == Host(None, {}, [], 0)
    {
      this.env, disk, live, tick, visited := env, None, {}, 0, [];
    }

    method Persist(m: Manifest) returns (ok: bool)
      modifies this
      ensures Did(View(), ok) == Spec.Persist(env, old(View()), m)
    {
      ok := env.persists(tick);
      if ok {
        disk := Some(m);
      }
      tick := tick + 1;
    }

    method Ask(answers: nat -> bool) returns (answer: bool)
      modifies `tick
      ensures tick == old(tick) + 1 && answer == answers(old(tick))
    {
      answer := answers(tick);
      tick := tick + 1;
    }

    method Terminate(pid: nat) returns (ok: bool)
      modifies this
      ensures Did(View(), ok) == Spec.Terminate(env, old(View()), pid)
    {
      ok := Ask(env.kills);
      if ok {
        live := live - {Process(pid)};
      }
    }

    method Contain(pid: nat)
      modifies this
      ensures View() == Spec.Contain(env, old(View()), pid)
    {
      var gone := Ask(env.contains);
      if gone {
        live := live - {Helper(pid)};
      }
    }

    method RunStop(s: Service) returns (ok: bool)
      modifies this
      ensures Did(View(), ok) == Spec.RunStop(env, old(View()), s)
    {
      var pid := tick;
      var spawned := Ask(env.spawns);
      if !spawned {
        return false;
      }
      var exit := env.stops(tick);
      tick := tick + 1;
      match exit
      case Succeeds =>
        live := live - {Managed(s.id)};
        ok := true;
      case Fails =>
        ok := false;
      case Overruns =>
        var gone := Ask(env.contains);
        if !gone {
          live := live + {Helper(pid)};
        }
        ok := false;
    }
  }

  class PortableStackLauncher {
    const plan: Plan
    const machine: Machine
    // The transaction in progress.
    var manifest: Manifest
    var records: seq<Record>

    ghost function View(): Transaction
      reads this, machine
    {
      Transaction(machine.View(), manifest, records)
    }

    constructor (plan: Plan, machine: Machine)
      ensures this.plan == plan && this.machine == machine
    {
      this.plan, this.machine := plan, machine;
      manifest, records := Manifest(0, plan.digest, Stopped, []), [];
    }

    method RecordStarted(r: Record) returns (ok: bool)
      modifies this, machine
      ensures Began(View(), ok) == Announce(machine.env, old(View()), r)
    {
      records := records + [r];
      manifest := manifest.(records := records);
      ok := machine.Persist(manifest);
    }

    method StartDaemon(s: Service) returns (ok: bool)
      modifies this, machine
      ensures Began(View(), ok) == Spec.StartDaemon(machine.env, old(View()), s)
    {
      hide Announce;
      var pid := machine.tick;
      var spawned := machine.Ask(machine.env.spawns);
      if !spawned {
        return false;
      }
      machine.live := machine.live + {Process(pid)} + Footprint(s);
      ok := RecordStarted(Record(s.id, true, Some(pid)));
      if !ok {
        return;
      }
      ok := machine.Ask(machine.env.identified);
      if !ok {
        return;
      }
      ok := machine.Ask(machine.env.ready);
    }

    method StartOneshot(s: Service) returns (ok: bool)
      modifies this, machine
      ensures Began(View(), ok) == Spec.StartOneshot(machine.env, old(View()), s)
    {
      hide Announce;
      var pid := machine.tick;
      var spawned := machine.Ask(machine.env.spawns);
      if !spawned {
        return false;
      }
      machine.live := machine.live + {Helper(pid)} + Footprint(s);
      ok := RecordStarted(Record(s.id, true, None));
      if !ok {
        machine.Contain(pid);
        return false;
      }
      var exit := machine.env.starts(machine.tick);
      machine.tick := machine.tick + 1;
      if exit.Overruns? {
        machine.Contain(pid);
        return false;
      }
      machine.live := machine.live - {Helper(pid)};
      if exit.Fails? {
        return false;
      }
      ok := machine.Ask(machine.env.ready);
    }

    method StartService(s: Service) returns (ok: bool)
      modifies this, machine
      ensures Began(View(), ok) == Spec.StartService(machine.env, old(View()), s)
    {
      hide Announce, Spec.StartDaemon, Spec.StartOneshot;
      var healthy := machine.Ask(machine.env.healthy);
      if s.reuseIfHealthy && healthy {
        ok := RecordStarted(Record(s.id, false, None));
        return;
      }
      match s.mode
      case External =>
        ok := machine.Ask(machine.env.ready);
        if ok {
          ok := RecordStarted(Record(s.id, false, None));
        }
      case Daemon => ok := StartDaemon(s);
      case Oneshot => ok := StartOneshot(s);
    }

    method StartServices(order: seq<Service>) returns (ok: bool)
      modifies this, machine
      ensures Began(View(), ok) == Spec.StartServices(machine.env, old(View()), order)
    {
      hide Spec.StartService;
      ok := true;
      for i := 0 to |order|
        invariant ok
        invariant Spec.StartServices(machine.env, View(), order[i..])
                  == Spec.StartServices(machine.env, old(View()), order)
      {
        assert order[i..][1..] == order[i + 1..];
        ok := StartService(order[i]);
        if !ok {
          return;
        }
      }
    }

    method Undo(r: Record) returns (problems: seq<Problem>)
      modifies machine
      ensures Undone(machine.View(), problems) == Spec.Undo(machine.env, plan.services, old(machine.View()), r)
    {
      hide Lookup, Spec.RunStop, Spec.Terminate;
      problems := [];
      if !r.owned {
        return;
      }
      var service := Lookup(plan.services, r.id);
      if service.None? {
        return [MissingSpec(r.id)];
      }
      machine.visited := machine.visited + [r.id];
      if service.value.hasStop {
        var stopped := machine.RunStop(service.value);
        if !stopped {
          problems := problems + [StopFailed(r.id)];
        }
      }
      if r.pid.Some? {
        var ended := machine.Terminate(r.pid.value);
        if !ended {
          problems := problems + [ProcessRemains(r.id)];
        }
      }
    }

    method Rollback(owned: seq<Record>) returns (problems: seq<Problem>)
      modifies machine
      ensures Undone(machine.View(), problems) == Spec.Rollback(machine.env, plan.services, old(machine.View()), owned)
    {
      hide Spec.Undo;
      problems := [];
      var i: nat := |owned|;
      assert owned[..i] == owned;
      while 0 < i
        invariant i <= |owned|
        invariant var rest := Spec.Rollback(machine.env, plan.services, machine.View(), owned[..i]);
                  Undone(rest.host, problems + rest.problems)
                  == Spec.Rollback(machine.env, plan.services, old(machine.View()), owned)
      {
        i := i - 1;
        assert owned[..i + 1][..i] == owned[..i];
        ghost var before := problems;
        var found := Undo(owned[i]);
        problems := problems + found;
        ghost var rest := Spec.Rollback(machine.env, plan.services, machine.View(), owned[..i]).problems;
        assert before + (found + rest) == problems + rest;
      }
    }

    method Settle(previous: Manifest) returns (readiness: Readiness)
      modifies machine
      ensures Recovered(machine.View(), readiness) == Spec.Settle(machine.env, plan, old(machine.View()), previous)
    {
      hide Spec.Rollback;
      var problems := Rollback(previous.records);
      if problems != [] {
        var saved := machine.Persist(previous.(phase := Failed));
        return Blocked(if saved then StartError(problems) else Raised);
      }
      var saved := machine.Persist(previous.(phase := Stopped, records := Released(previous.records)));
      return if saved then Proceed else Blocked(Raised);
    }

    method Recover() returns (readiness: Readiness)
      modifies machine
      ensures Recovered(machine.View(), readiness) == Spec.Recover(machine.env, plan, old(machine.View()))
    {
      hide Spec.Settle;
      if machine.disk.None? {
        return Proceed;
      }
      var previous := machine.disk.value;
      if previous.digest != plan.digest {
        return Blocked(Raised);
      }
      var complete := (set r | r in previous.records :: r.id) == Ids(plan.services);
      var healthy := machine.Ask(machine.env.healthy);
      if previous.phase.Running? && complete && healthy {
        return Already;
      }
      var saved := machine.Persist(previous.(phase := RollingBack));
      if !saved {
        return Blocked(Raised);
      }
      readiness := Settle(previous);
    }

    method Abandon() returns (verdict: Verdict)
      modifies this, machine
      ensures Ended(machine.View(), verdict) == Spec.Abandon(machine.env, plan, old(View()))
    {
      hide Spec.Rollback;
      manifest := manifest.(phase := RollingBack, records := records);
      var written := machine.Persist(manifest);
      var problems := Rollback(records);
      manifest := manifest.(phase := Failed, records := if problems == [] then Released(records) else records);
      var closed := machine.Persist(manifest);
      return StartError(problems + (if written then [] else [Unsaved(RollingBack)])
                                 + (if closed then [] else [Unsaved(Failed)]));
    }

    method Launch(order: seq<Service>) returns (verdict: Verdict)
      modifies this, machine
      ensures Ended(machine.View(), verdict) == Spec.Launch(machine.env, plan, order, old(machine.View()))
    {
      hide Spec.StartServices, Spec.Abandon;
      manifest, records := Manifest(machine.tick, plan.digest, Starting, []), [];
      var saved := machine.Persist(manifest);
      if !saved {
        return Raised;
      }
      var ok := StartServices(order);
      if !ok {
        verdict := Abandon();
        return;
      }
      manifest := manifest.(phase := Running, records := records);
      saved := machine.Persist(manifest);
      return if saved then Returned else Raised;
    }

    /** Start the stack. A plan without a start order is refused before anything is touched. */
    method Start() returns (verdict: Verdict)
      requires UniqueIds(plan.services)
      modifies this, machine
      ensures var order := Ordered(plan.services);
              Ended(machine.View(), verdict)
              == if order.None? then Ended(old(machine.View()), Raised)
                 else Spec.Start(machine.env, plan, order.value, old(machine.View()))
    {
      hide Spec.Recover, Spec.Launch, Ordered;
      var order := OrderedServices(plan.services);
      if order.None? {
        return Raised;
      }
      var readiness := Recover();
      match readiness
      case Already => verdict := Returned;
      case Blocked(refusal) => verdict := refusal;
      case Proceed => verdict := Launch(order.value);
    }

    method Stop() returns (verdict: Verdict)
      modifies machine
      ensures Ended(machine.View(), verdict) == Spec.Stop(machine.env, plan, old(machine.View()))
    {
      hide Spec.Rollback;
      if machine.disk.None? {
        return Returned;
      }
      var m := machine.disk.value;
      if m.digest != plan.digest {
        return Raised;
      }
      var saved := machine.Persist(m.(phase := Stopping));
      if !saved {
        return Raised;
      }
      var problems := Rollback(m.records);
      saved := machine.Persist(if problems == [] then m.(phase := Stopped, records := Released(m.records))
                               else m.(phase := Failed));
      if !saved {
        return Raised;
      }
      return if problems == [] then Returned else StartError(problems);
    }
  }
}
