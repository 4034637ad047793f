/** The answers under which a stack comes up, and what each call leaves for every other answer. */
module StackStarts {
  import opened Common
  import opened StackPlan
  import opened StackModel
  import opened StackFacts

  // --- One service ------------------------------------------------------------------------------------------

  predicate Reused(env: Env, t: nat, s: Service) { s.reuseIfHealthy && env.healthy(t) }

  /** The answers under which a service starts at tick `t`: one that may be reused is healthy, and announced;
      otherwise it is waited for and announced, or spawned, announced, identified or run to a successful end, and
      ready in time. */
  predicate Comes(env: Env, t: nat, s: Service) {
    if Reused(env, t, s) then env.persists(t + 1)
    else match s.mode
      case External => env.ready(t + 1) && env.persists(t + 2)
      case Daemon => env.spawns(t + 1) && env.persists(t + 2) && env.identified(t + 3) && env.ready(t + 4)
      case Oneshot => env.spawns(t + 1) && env.persists(t + 2) && env.starts(t + 3).Succeeds? && env.ready(t + 4)
  }

  /** The tick after a service has started. */
  function Came(env: Env, t: nat, s: Service): nat {
    if Reused(env, t, s) then t + 2 else if s.mode.External? then t + 3 else t + 5
  }

  /** Its record: only what was spawned is owned, and only a daemon keeps its process. */
  function Entry(env: Env, t: nat, s: Service): Record {
    if Reused(env, t, s) || s.mode.External? then Record(s.id, false, None)
    else Record(s.id, true, if s.mode.Daemon? then Some(t + 1) else None)
  }

  /** What a started service adds to what is live. */
  function Adds(env: Env, t: nat, s: Service): set<Resource> {
    if Reused(env, t, s) || s.mode.External? then {}
    else (if s.mode.Daemon? then {Process(t + 1)} else {}) + (if s.hasStop then {Managed(s.id)} else {})
  }

  /** Whether its record is added: announced, even if writing that down fails. */
  predicate Announced(env: Env, t: nat, s: Service) {
    Reused(env, t, s) || if s.mode.External? then env.ready(t + 1) else env.spawns(t + 1)
  }

  predicate Saved(env: Env, t: nat, s: Service) {
    Announced(env, t, s) && env.persists(if Reused(env, t, s) then t + 1 else t + 2)
  }

  /** No start command of this id is running already. */
  predicate NoHelper(live: set<Resource>, t: nat) { Helper(t) !in live }

  lemma ServiceStarts(env: Env, t: Transaction, s: Service)
    ensures var b, n := StartService(env, t, s), t.host.tick;
            && (b.ok <==> Comes(env, n, s))
            && (b.ok ==>
                  var records := t.records + [Entry(env, n, s)];
                  var manifest := t.manifest.(records := records);
                  && b.transaction == Transaction(Host(Some(manifest), b.transaction.host.live, t.host.visited,
                                                       Came(env, n, s)), manifest, records)
                  && (NoHelper(t.host.live, n + 1) ==> b.transaction.host.live == t.host.live + Adds(env, n, s)))
  {
    hide StartDaemon, StartOneshot;
    var probed := On(t, Later(t.host));
    DaemonStarts(env, probed, s);
    OneshotStarts(env, probed, s);
  }

  lemma DaemonStarts(env: Env, t: Transaction, s: Service)
    ensures var b, n := StartDaemon(env, t, s), t.host.tick;
            && (b.ok <==> env.spawns(n) && env.persists(n + 1) && env.identified(n + 2) && env.ready(n + 3))
            && (b.ok ==>
                  var records := t.records + [Record(s.id, true, Some(n))];
                  var manifest := t.manifest.(records := records);
                  var live := t.host.live + {Process(n)} + (if s.hasStop then {Managed(s.id)} else {});
                  b.transaction == Transaction(Host(Some(manifest), live, t.host.visited, n + 4), manifest, records))
  {
  }

  lemma OneshotStarts(env: Env, t: Transaction, s: Service)
    ensures var b, n := StartOneshot(env, t, s), t.host.tick;
            && (b.ok <==> env.spawns(n) && env.persists(n + 1) && env.starts(n + 2).Succeeds? && env.ready(n + 3))
            && (b.ok ==>
                  var records := t.records + [Record(s.id, true, None)];
                  var manifest := t.manifest.(records := records);
                  && b.transaction == Transaction(Host(Some(manifest), b.transaction.host.live, t.host.visited, n + 4),
                                                  manifest, records)
                  && (NoHelper(t.host.live, n) ==>
                        b.transaction.host.live == t.host.live + (if s.hasStop then {Managed(s.id)} else {})))
  {
  }

  /** However it ends: its record is there exactly if it was announced, and the manifest on disk names it exactly
      if that was written down. */
  lemma ServiceTold(env: Env, t: Transaction, s: Service)
    ensures var b, n := StartService(env, t, s), t.host.tick;
            var records := if Announced(env, n, s) then t.records + [Entry(env, n, s)] else t.records;
            && b.transaction.records == records && b.transaction.host.visited == t.host.visited
            && b.transaction.manifest == (if Announced(env, n, s) then t.manifest.(records := records) else t.manifest)
            && b.transaction.host.disk
               == (if Saved(env, n, s) then Some(t.manifest.(records := records)) else t.host.disk)
            && b.transaction.host.tick > n
  {
  }

  /** What is live however it ends: a start command that must go and is not confirmed gone may remain. */
  lemma ServiceLive(env: Env, t: Transaction, s: Service)
    requires NoHelper(t.host.live, t.host.tick + 1)
    ensures var live, n := StartService(env, t, s).transaction.host.live, t.host.tick;
            var spawned := !Reused(env, n, s) && !s.mode.External? && env.spawns(n + 1);
            var hangs := s.mode.Oneshot?
                         && if !env.persists(n + 2) then !env.contains(n + 3)
                            else env.starts(n + 3).Overruns? && !env.contains(n + 4);
            live == t.host.live
                    + (if !spawned then {} else Adds(env, n, s) + (if hangs then {Helper(n + 1)} else {}))
  {
  }

  // --- All services -------------------------------------------------------------------------------------------

  predicate AllCome(env: Env, t: nat, order: seq<Service>)
    decreases |order|
  {
    order == [] || (Comes(env, t, order[0]) && AllCome(env, Came(env, t, order[0]), order[1..]))
  }

  function AllCame(env: Env, t: nat, order: seq<Service>): (r: nat)
    ensures t <= r
    decreases |order|
  {
    if order == [] then t else AllCame(env, Came(env, t, order[0]), order[1..])
  }

  function Entries(env: Env, t: nat, order: seq<Service>): (r: seq<Record>)
    ensures |r| == |order|
    decreases |order|
  {
    if order == [] then [] else [Entry(env, t, order[0])] + Entries(env, Came(env, t, order[0]), order[1..])
  }

  function AllAdd(env: Env, t: nat, order: seq<Service>): set<Resource>
    decreases |order|
  {
    if order == [] then {} else Adds(env, t, order[0]) + AllAdd(env, Came(env, t, order[0]), order[1..])
  }

  /** No start command that a start from tick `t` on would spawn is running already. */
  ghost predicate NoneFrom(live: set<Resource>, t: nat) { forall n: nat :: n >= t ==> Helper(n) !in live }

  /** Starting the services succeeds exactly when each comes in its turn; they then all have their records, in order. */
  lemma {:induction false} ServicesStart(env: Env, t: Transaction, order: seq<Service>)
    requires t.host.disk == Some(t.manifest) && t.manifest.records == t.records
    ensures var b, n := StartServices(env, t, order), t.host.tick;
            && (b.ok <==> AllCome(env, n, order))
            && (b.ok ==>
                  var records := t.records + Entries(env, n, order);
                  var manifest := t.manifest.(records := records);
                  && b.transaction == Transaction(Host(Some(manifest), b.transaction.host.live, t.host.visited,
                                                       AllCame(env, n, order)), manifest, records)
                  && (NoneFrom(t.host.live, n) ==> b.transaction.host.live == t.host.live + AllAdd(env, n, order)))
    decreases |order|
  {
    hide StartService, Comes, Came, Entry, Adds;
    if order != [] {
      ServiceStarts(env, t, order[0]);
      var first := StartService(env, t, order[0]);
      if first.ok {
        AddsNoHelper(env, t.host.tick, order[0]);
        ServicesStart(env, first.transaction, order[1..]);
        assert t.records + Entries(env, t.host.tick, order)
               == first.transaction.records + Entries(env, first.transaction.host.tick, order[1..]);
      }
    } else {
      assert t.records + [] == t.records && t.host.live + {} == t.host.live;
    }
  }

  lemma AddsNoHelper(env: Env, t: nat, s: Service)
    ensures Came(env, t, s) > t && forall n: nat :: Helper(n) !in Adds(env, t, s)
  {
  }

  // --- Whole calls --------------------------------------------------------------------------------------------

  /** The answers under which a new transaction from tick `t` returns: the manifest is written, every service comes
      in its turn, and the manifest is written once more. */
  predicate Launches(env: Env, t: nat, order: seq<Service>) {
    env.persists(t) && AllCome(env, t + 1, order) && env.persists(AllCame(env, t + 1, order))
  }

  /** A transaction returns exactly then, and leaves a running manifest with every service's record, in order. */
  lemma LaunchReturns(env: Env, plan: Plan, order: seq<Service>, h: Host)
    ensures var e, t := Launch(env, plan, order, h), h.tick;
            && (e.verdict == Returned <==> Launches(env, t, order))
            && (e.verdict == Returned ==>
                  && e.host == Host(Some(Manifest(t, plan.digest, Running, Entries(env, t + 1, order))), e.host.live,
                                    h.visited, AllCame(env, t + 1, order) + 1)
                  && (NoneFrom(h.live, t) ==> e.host.live == h.live + AllAdd(env, t + 1, order)))
            && (!env.persists(t) ==> e == Ended(h.(tick := t + 1), Raised))
  {
    hide StartServices, Abandon, AllCome, AllCame, Entries, AllAdd;
    var manifest := Manifest(h.tick, plan.digest, Starting, []);
    var t := Transaction(Host(Some(manifest), h.live, h.visited, h.tick + 1), manifest, []);
    if env.persists(h.tick) {
      ServicesStart(env, t, order);
      AbandonTold(env, plan, StartServices(env, t, order).transaction);
      assert [] + Entries(env, h.tick + 1, order) == Entries(env, h.tick + 1, order);
    }
  }

  /** The tick after undoing records that are all confirmed. */
  function UndoneAt(services: seq<Service>, t: nat, records: seq<Record>): nat
    decreases |records|
  {
    if records == [] then t
    else
      var last, front := records[|records| - 1], records[..|records| - 1];
      var s := Lookup(services, last.id);
      UndoneAt(services,
               if !last.owned || s.None? then t
               else t + (if s.value.hasStop then 2 else 0) + (if last.pid.Some? then 1 else 0),
               front)
  }

  lemma {:induction false} RollbackEnds(env: Env, services: seq<Service>, h: Host, records: seq<Record>)
    requires Confirms(env, services, h.tick, records)
    ensures Rollback(env, services, h, records).host.tick == UndoneAt(services, h.tick, records)
    decreases |records|
  {
    hide Lookup;
    if records != [] {
      var last := records[|records| - 1];
      RollbackEnds(env, services, Undo(env, services, h, last).host, records[..|records| - 1]);
    }
  }

  /** A manifest on disk says that this stack is running, and every service is healthy. */
  predicate AlreadyUp(env: Env, plan: Plan, h: Host) {
    && h.disk.Some? && h.disk.value.digest == plan.digest && h.disk.value.phase.Running? && env.healthy(h.tick)
    && (forall r :: r in h.disk.value.records ==> exists s :: s in plan.services && s.id == r.id)
    && (forall s :: s in plan.services ==> exists r :: r in h.disk.value.records && r.id == s.id)
  }

  /** The answers under which what an earlier transaction left is settled. */
  predicate Settles(env: Env, plan: Plan, h: Host)
    requires h.disk.Some?
  {
    var records, t := h.disk.value.records, h.tick;
    && h.disk.value.digest == plan.digest && env.persists(t + 1) && Confirms(env, plan.services, t + 2, records)
    && env.persists(UndoneAt(plan.services, t + 2, records))
  }

  lemma AlreadyUpTold(env: Env, plan: Plan, h: Host)
    requires h.disk.Some? && h.disk.value.digest == plan.digest && h.disk.value.phase.Running?
    ensures ManifestHealthy(env, plan, h, h.disk.value) <==> AlreadyUp(env, plan, h)
  {
    SameNames(h.disk.value.records, plan.services);
  }

  lemma SameNames(records: seq<Record>, services: seq<Service>)
    ensures (set r | r in records :: r.id) == Ids(services) <==>
              && (forall r :: r in records ==> exists s :: s in services && s.id == r.id)
              && (forall s :: s in services ==> exists r :: r in records && r.id == s.id)
  {
    var ids := set r | r in records :: r.id;
    if ids == Ids(services) {
      forall r | r in records
        ensures exists s :: s in services && s.id == r.id
      {
        assert r.id in ids;
      }
      forall s | s in services
        ensures exists r :: r in records && r.id == s.id
      {
        assert s.id in Ids(services);
      }
    }
  }

  /** A start returns exactly when this stack is up already; or there is no manifest and the transaction launches;
      or there is one of this plan, what it owns is settled, and the transaction launches from there. */
  lemma StartReturns(env: Env, plan: Plan, order: seq<Service>, h: Host)
    ensures Start(env, plan, order, h).verdict == Returned <==>
              if AlreadyUp(env, plan, h) then true
              else if h.disk.None? then Launches(env, h.tick, order)
              else && Settles(env, plan, h)
                   && Launches(env, UndoneAt(plan.services, h.tick + 2, h.disk.value.records) + 1, order)
  {
    hide Launch, Rollback, Confirms, Launches, UndoneAt, ManifestHealthy, AlreadyUp;
    if h.disk.None? {
      LaunchReturns(env, plan, order, h);
      NothingUp(env, plan, h);
    } else {
      var m := h.disk.value;
      NothingUp(env, plan, h);
      if m.digest == plan.digest {
        if m.phase.Running? {
          AlreadyUpTold(env, plan, h);
        }
        RollbackAnswers(env, plan, h);
        var r := Recover(env, plan, h);
        if r.readiness.Proceed? {
          LaunchReturns(env, plan, order, r.host);
        }
      }
    }
  }

  lemma NothingUp(env: Env, plan: Plan, h: Host)
    ensures h.disk.None? || h.disk.value.digest != plan.digest || !h.disk.value.phase.Running? ==>
              !AlreadyUp(env, plan, h)
  {
  }

  /** Undoing what the manifest on disk owns, after it was written that it is rolled back. */
  lemma RollbackAnswers(env: Env, plan: Plan, h: Host)
    requires h.disk.Some?
    ensures var records := h.disk.value.records;
            var before := h.(disk := Some(h.disk.value.(phase := RollingBack)), tick := h.tick + 2);
            var u := Rollback(env, plan.services, before, records);
            && (u.problems == [] <==> Confirms(env, plan.services, h.tick + 2, records))
            && (u.problems == [] ==> u.host.tick == UndoneAt(plan.services, h.tick + 2, records))
  {
    hide Rollback, Confirms;
    var records := h.disk.value.records;
    var before := h.(disk := Some(h.disk.value.(phase := RollingBack)), tick := h.tick + 2);
    RollbackConfirms(env, plan.services, before, records);
    if Confirms(env, plan.services, h.tick + 2, records) {
      RollbackEnds(env, plan.services, before, records);
    }
  }

  // --- Undoing ------------------------------------------------------------------------------------------------

  /** One owned record is undone in two halves, each by its own answers: the inverse command is spawned, and
      awaited or contained; then the process group is told to go. */
  lemma UndoTold(env: Env, services: seq<Service>, h: Host, r: Record)
    ensures var u, t, s := Undo(env, services, h, r), h.tick, Lookup(services, r.id);
            if !r.owned then u == Undone(h, [])
            else if s.None? then u == Undone(h, [MissingSpec(r.id)])
            else
              var stops := s.value.hasStop;
              var stopped := stops && env.spawns(t) && env.stops(t + 1).Succeeds?;
              var hangs := stops && env.spawns(t) && env.stops(t + 1).Overruns?;
              var next := if !stops then t else if !env.spawns(t) then t + 1 else if hangs then t + 3 else t + 2;
              var gone := r.pid.Some? && env.kills(next);
              && u.host == Host(h.disk,
                                h.live - (if stopped then {Managed(s.value.id)} else {})
                                + (if hangs && !env.contains(t + 2) then {Helper(t)} else {})
                                - (if gone then {Process(r.pid.value)} else {}),
                                h.visited + [r.id], if r.pid.Some? then next + 1 else next)
              && u.problems == (if stops && !stopped then [StopFailed(r.id)] else [])
                               + (if r.pid.Some? && !gone then [ProcessRemains(r.id)] else [])
  {
  }

  /** Records are undone newest first, past any problem. */
  lemma {:induction false} RollbackTold(env: Env, services: seq<Service>, h: Host, older: seq<Record>, r: Record)
    ensures var last := Undo(env, services, h, r);
            var rest := Rollback(env, services, last.host, older);
            Rollback(env, services, h, older + [r]) == Undone(rest.host, last.problems + rest.problems)
    ensures Rollback(env, services, h, []) == Undone(h, [])
  {
    hide Undo;
    assert (older + [r])[..|older|] == older;
  }

  /** A failed transaction is undone under a manifest that says so, if that can be written, and closed as failed:
      its records are released only if undoing them met no problem, and both writes that fail are reported. */
  lemma AbandonTold(env: Env, plan: Plan, t: Transaction)
    ensures var e, n := Abandon(env, plan, t), t.host.tick;
            var rolling := t.manifest.(phase := RollingBack, records := t.records);
            var disk := if env.persists(n) then Some(rolling) else t.host.disk;
            var u := Rollback(env, plan.services, Host(disk, t.host.live, t.host.visited, n + 1), t.records);
            var failed := t.manifest.(phase := Failed,
                                      records := if |u.problems| == 0 then Released(t.records) else t.records);
            && e.host == u.host.(disk := if env.persists(u.host.tick) then Some(failed) else u.host.disk,
                                 tick := u.host.tick + 1)
            && e.verdict == StartError(u.problems + (if env.persists(n) then [] else [Unsaved(RollingBack)])
                                       + (if env.persists(u.host.tick) then [] else [Unsaved(Failed)]))
  {
    hide Rollback;
  }

  /** What an earlier transaction left: nothing to do, up already, refused, or rolled back and settled. */
  lemma RecoverTold(env: Env, plan: Plan, h: Host)
    ensures var r, t := Recover(env, plan, h), h.tick;
            if h.disk.None? then r == Recovered(h, Proceed)
            else if h.disk.value.digest != plan.digest then r == Recovered(h, Blocked(Raised))
            else if AlreadyUp(env, plan, h) then r == Recovered(h.(tick := t + 1), Already)
            else if !env.persists(t + 1) then r == Recovered(h.(tick := t + 2), Blocked(Raised))
            else
              var m := h.disk.value;
              var u := Rollback(env, plan.services,
                                Host(Some(m.(phase := RollingBack)), h.live, h.visited, t + 2), m.records);
              var end := if |u.problems| == 0 then m.(phase := Stopped, records := Released(m.records))
                         else m.(phase := Failed);
              var writes := env.persists(u.host.tick);
              && r.host == u.host.(disk := if writes then Some(end) else u.host.disk, tick := u.host.tick + 1)
              && r.readiness == if !writes then Blocked(Raised)
                                else if |u.problems| == 0 then Proceed else Blocked(StartError(u.problems))
  {
    hide Rollback, ManifestHealthy, AlreadyUp;
    NothingUp(env, plan, h);
    if h.disk.Some? && h.disk.value.digest == plan.digest && h.disk.value.phase.Running? {
      AlreadyUpTold(env, plan, h);
    }
  }

  /** A stop returns exactly when there is nothing to stop, or this plan's manifest is written as stopping,
      everything it owns is confirmed gone, and it is written as stopped. */
  lemma StopReturns(env: Env, plan: Plan, h: Host)
    ensures Stop(env, plan, h).verdict == Returned <==>
              h.disk.Some? ==>
                var records := h.disk.value.records;
                && h.disk.value.digest == plan.digest && env.persists(h.tick)
                && Confirms(env, plan.services, h.tick + 1, records)
                && env.persists(UndoneAt(plan.services, h.tick + 1, records))
  {
    hide Rollback, Confirms;
    if h.disk.Some? {
      var m := h.disk.value;
      var before := h.(disk := Some(m.(phase := Stopping)), tick := h.tick + 1);
      RollbackConfirms(env, plan.services, before, m.records);
      if Confirms(env, plan.services, h.tick + 1, m.records) {
        RollbackEnds(env, plan.services, before, m.records);
      }
    }
  }

  /** And this is what it leaves, however it ends. */
  lemma StopTold(env: Env, plan: Plan, h: Host)
    ensures var e, t := Stop(env, plan, h), h.tick;
            if h.disk.None? then e == Ended(h, Returned)
            else if h.disk.value.digest != plan.digest then e == Ended(h, Raised)
            else if !env.persists(t) then e == Ended(h.(tick := t + 1), Raised)
            else
              var m := h.disk.value;
              var u := Rollback(env, plan.services, Host(Some(m.(phase := Stopping)), h.live, h.visited, t + 1),
                                m.records);
              var end := if |u.problems| == 0 then m.(phase := Stopped, records := Released(m.records))
                         else m.(phase := Failed);
              var writes := env.persists(u.host.tick);
              && e.host == u.host.(disk := if writes then Some(end) else u.host.disk, tick := u.host.tick + 1)
              && e.verdict == if !writes then Raised
                              else if |u.problems| == 0 then Returned else StartError(u.problems)
  {
    hide Rollback;
  }

  /** Every call of a run is made, on the host that the calls before it left. */
  lemma {:induction false} RunMakesAll(env: Env, plan: Plan, order: seq<Service>, h: Host, calls: seq<Call>, last: Call)
    ensures Run(env, plan, order, h, []) == h
    ensures var before := Run(env, plan, order, h, calls);
            Run(env, plan, order, h, calls + [last])
            == (if last.StartCall? then Start(env, plan, order, before) else Stop(env, plan, before)).host
    decreases |calls|
  {
    hide Start, Stop;
    if calls == [] {
      assert [last][1..] == [];
    } else {
      assert (calls + [last])[1..] == calls[1..] + [last];
      RunMakesAll(env, plan, order, Perform(env, plan, order, h, calls[0]).host, calls[1..], last);
    }
  }

  /** Ids are unique exactly when there are as many as there are services. */
  lemma {:induction false} UniqueIdsTold(services: seq<Service>)
    ensures |Ids(services)| <= |services| && (UniqueIds(services) <==> |Ids(services)| == |services|)
  {
    hide Ids, UniqueIds;
    if services == [] {
      NoIds();
      UniqueFrom(services);
    } else {
      var first, rest := services[0], services[1..];
      assert services == [first] + rest;
      UniqueIdsTold(rest);
      IdsAppend([first], rest);
      OneId(first);
      UniqueFrom(services);
      if first.id in Ids(rest) {
        assert Ids(services) == Ids(rest);
      } else {
        assert |{first.id} + Ids(rest)| == 1 + |Ids(rest)|;
      }
    }
  }

  lemma UniqueFrom(services: seq<Service>)
    ensures services == [] ==> UniqueIds(services)
    ensures services != [] ==>
              (UniqueIds(services) <==> UniqueIds(services[1..]) && services[0].id !in Ids(services[1..]))
  {
    if services != [] {
      var rest := services[1..];
      if services[0].id in Ids(rest) {
        var k :| 0 <= k < |rest| && rest[k].id == services[0].id;
        assert services[k + 1].id == services[0].id;
      } else {
        assert forall k :: 0 < k < |services| ==> services[k] == rest[k - 1] && rest[k - 1].id in Ids(rest);
      }
    }
  }
}
