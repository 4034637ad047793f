/** What a stack transaction keeps: nothing owned survives unreported, nothing reused is touched, and
    what is live is always accounted for on disk. */
module StackFacts {
  import opened Common
  import opened StackPlan
  import opened StackModel

  /** What undoing a record must stop. */
  function Claims(services: seq<Service>, r: Record): set<Resource> {
    if !r.owned then {}
    else
      var service := Lookup(services, r.id);
      (if r.pid.Some? then {Process(r.pid.value)} else {})
      + (if service.Some? then Footprint(service.value) else {})
  }

  function Claimed(services: seq<Service>, records: seq<Record>): set<Resource> {
    if records == [] then {} else Claimed(services, records[..|records| - 1]) + Claims(services, records[|records| - 1])
  }

  /** The owned records an undo can look up, oldest first. */
  function OwnedIds(services: seq<Service>, records: seq<Record>): seq<Id> {
    if records == [] then []
    else
      var last := records[|records| - 1];
      OwnedIds(services, records[..|records| - 1])
      + if last.owned && Lookup(services, last.id).Some? then [last.id] else []
  }

  function Reversed<T>(s: seq<T>): seq<T> { if s == [] then [] else [s[|s| - 1]] + Reversed(s[..|s| - 1]) }

  /** Only commands of the launcher itself may have been added to what was live. */
  predicate OnlyHelpersAdded(before: set<Resource>, after: set<Resource>) {
    forall x :: x in after ==> x in before || x.Helper?
  }

  predicate OnlyHelpers(live: set<Resource>) { forall x :: x in live ==> x.Helper? }

  predicate OwnsNothing(records: seq<Record>) { forall r :: r in records ==> !r.owned }

  /** Numbers of processes are not used again. */
  ghost predicate Fresh(h: Host) {
    forall x :: x in h.live ==> (x.Process? || x.Helper? ==> x.pid < h.tick)
  }

  // --- Rolling back -------------------------------------------------------------------------------

  /** What an undo does: it touches nothing but what its records claim, leaves the disk alone, and
      without problems leaves nothing they claim. */
  ghost predicate Undoes(h: Host, claims: set<Resource>, visits: seq<Id>, u: Undone) {
    && u.host.disk == h.disk && h.tick <= u.host.tick
    && h.live - claims <= u.host.live && OnlyHelpersAdded(h.live, u.host.live)
    && (u.problems == [] ==> u.host.live == h.live - claims)
    && u.host.visited == h.visited + visits && (Fresh(h) ==> Fresh(u.host))
  }

  lemma UndoEffect(env: Env, services: seq<Service>, h: Host, r: Record)
    ensures Undoes(h, Claims(services, r),
                   if r.owned && Lookup(services, r.id).Some? then [r.id] else [], Undo(env, services, h, r))
  {
    hide Lookup;
  }

  lemma UndoesThen(h: Host, claims: set<Resource>, visits: seq<Id>, u: Undone,
                   claims': set<Resource>, visits': seq<Id>, u': Undone)
    requires Undoes(h, claims, visits, u) && Undoes(u.host, claims', visits', u')
    ensures Undoes(h, claims' + claims, visits + visits', Undone(u'.host, u.problems + u'.problems))
  {
  }

  /** Every owned record is visited once, newest first, whatever problems come up on the way. */
  lemma {:induction false} RollbackEffect(env: Env, services: seq<Service>, h: Host, records: seq<Record>)
    ensures Undoes(h, Claimed(services, records), Reversed(OwnedIds(services, records)),
                   Rollback(env, services, h, records))
    decreases |records|
  {
    if records != [] {
      hide Undo, Claims, Lookup, Undoes;
      var last, front := records[|records| - 1], records[..|records| - 1];
      UndoEffect(env, services, h, last);
      var u := Undo(env, services, h, last);
      RollbackEffect(env, services, u.host, front);
      var ids := OwnedIds(services, front);
      var visits := if last.owned && Lookup(services, last.id).Some? then [last.id] else [];
      UndoesThen(h, Claims(services, last), visits, u, Claimed(services, front), Reversed(ids),
                 Rollback(env, services, u.host, front));
      assert visits + Reversed(ids) == Reversed(OwnedIds(services, records)) by {
        if visits != [] {
          assert (ids + visits)[..|ids|] == ids;
        } else {
          assert ids + visits == ids;
        }
      }
    }
  }

  predicate About(p: Problem, id: Id) {
    p == MissingSpec(id) || p == StopFailed(id) || p == ProcessRemains(id)
  }

  /** Each half of an undo that goes unreported worked, whatever became of the other. */
  lemma UndoReportsEachHalf(env: Env, services: seq<Service>, h: Host, r: Record)
    requires r.owned && Lookup(services, r.id).Some?
    ensures var u := Undo(env, services, h, r);
            && (forall p :: p in u.problems ==> About(p, r.id))
            && (r.pid.Some? && ProcessRemains(r.id) !in u.problems ==> Process(r.pid.value) !in u.host.live)
            && (StopFailed(r.id) !in u.problems ==> u.host.live !! Footprint(Lookup(services, r.id).value))
  {
    hide Lookup;
  }

  /** Whatever an owned record claims and a rollback leaves alive is reported under that record's name,
      whatever else went wrong. */
  lemma {:induction false} RollbackReportsSurvivors(
    env: Env, services: seq<Service>, h: Host, records: seq<Record>, i: nat, x: Resource)
    requires i < |records| && x in Claims(services, records[i]) && !x.Helper?
    requires x in Rollback(env, services, h, records).host.live
    ensures exists p :: p in Rollback(env, services, h, records).problems && About(p, records[i].id)
    decreases |records|
  {
    hide Undo, Claims, Lookup, Undoes;
    var last, front := records[|records| - 1], records[..|records| - 1];
    var u := Undo(env, services, h, last);
    var rest := Rollback(env, services, u.host, front);
    if i < |front| {
      RollbackReportsSurvivors(env, services, u.host, front, i, x);
      var p :| p in rest.problems && About(p, records[i].id);
      assert p in u.problems + rest.problems;
    } else {
      RollbackEffect(env, services, u.host, front);
      OnlyLiveSurvives(u.host, Claimed(services, front), Reversed(OwnedIds(services, front)), rest, x);
      UndoReports(env, services, h, last, x);
      assert u.problems[0] in u.problems + rest.problems;
    }
  }

  lemma OnlyLiveSurvives(h: Host, claims: set<Resource>, visits: seq<Id>, u: Undone, x: Resource)
    requires Undoes(h, claims, visits, u) && x in u.host.live && !x.Helper?
    ensures x in h.live
  {
  }

  lemma UndoReports(env: Env, services: seq<Service>, h: Host, r: Record, x: Resource)
    requires x in Claims(services, r) && x in Undo(env, services, h, r).host.live
    ensures var problems := Undo(env, services, h, r).problems; problems != [] && About(problems[0], r.id)
  {
    hide Lookup;
  }

  lemma {:induction false} ReleasedOwnsNothing(services: seq<Service>, records: seq<Record>)
    ensures OwnsNothing(Released(records)) && Claimed(services, Released(records)) == {}
    decreases |records|
  {
    if records != [] {
      var n := |records| - 1;
      assert Released(records)[..n] == Released(records[..n]);
      ReleasedOwnsNothing(services, records[..n]);
    }
  }

  /** The answers under which undoing these records works: newest first, each inverse command runs and succeeds,
      and each process group is confirmed gone. */
  predicate Confirms(env: Env, services: seq<Service>, tick: nat, records: seq<Record>)
    decreases |records|
  {
    if records == [] then true
    else
      var last, front := records[|records| - 1], records[..|records| - 1];
      if !last.owned then Confirms(env, services, tick, front)
      else if Lookup(services, last.id).None? then false
      else
        var stops := Lookup(services, last.id).value.hasStop;
        var ending := if stops then tick + 2 else tick;
        && (stops ==> env.spawns(tick) && env.stops(tick + 1).Succeeds?)
        && (last.pid.Some? ==> env.kills(ending))
        && Confirms(env, services, if last.pid.Some? then ending + 1 else ending, front)
  }

  lemma {:induction false} RollbackConfirms(env: Env, services: seq<Service>, h: Host, records: seq<Record>)
    ensures Rollback(env, services, h, records).problems == [] <==> Confirms(env, services, h.tick, records)
    decreases |records|
  {
    hide Lookup;
    if records != [] {
      var u := Undo(env, services, h, records[|records| - 1]);
      RollbackConfirms(env, services, u.host, records[..|records| - 1]);
    }
  }

  lemma UndoConfirms(env: Env, services: seq<Service>, h: Host, r: Record)
    requires Claims(services, r) <= h.live
    ensures var u := Undo(env, services, h, r);
            && (u.problems == [] <==> Confirms(env, services, h.tick, [r]))
            && (Lookup(services, r.id).Some? ==>
                  (Confirms(env, services, h.tick, [r]) <==> u.host.live !! Claims(services, r)))
  {
    hide Lookup;
    assert [r][..0] == [];
  }

  /** No two records name the same service or process. */
  predicate Apart(records: seq<Record>) {
    forall i, j :: 0 <= i < j < |records| ==>
      && records[i].id != records[j].id
      && (records[i].pid.Some? && records[j].pid.Some? ==> records[i].pid.value != records[j].pid.value)
  }

  lemma {:induction false} ClaimsApart(services: seq<Service>, records: seq<Record>, r: Record)
    requires Apart(records + [r]) && Lookups(services)
    ensures Claimed(services, records) !! Claims(services, r)
    decreases |records|
  {
    hide Lookup;
    if records != [] {
      var n := |records| - 1;
      var fewer, all := records[..n] + [r], records + [r];
      assert all[n] == records[n] && all[n + 1] == r == fewer[n];
      assert forall i :: 0 <= i < n ==> fewer[i] == all[i];
      ClaimsApart(services, records[..n], r);
    }
  }

  /** Looking a service up by an id finds one with that id. */
  ghost predicate Lookups(services: seq<Service>) {
    forall id :: Lookup(services, id).Some? ==> Lookup(services, id).value.id == id
  }

  lemma LookupNames(services: seq<Service>)
    ensures Lookups(services)
  {
    forall id | Lookup(services, id).Some?
      ensures Lookup(services, id).value.id == id
    {
      LookupNamesOne(services, id);
    }
  }

  lemma LookupNamesOne(services: seq<Service>, id: Id)
    requires Lookup(services, id).Some?
    ensures Lookup(services, id).value.id == id
  {
    if Lookup(services[1..], id).Some? {
      LookupNamesOne(services[1..], id);
    }
  }

  /** A rollback with problems leaves something alive that its records claim. */
  lemma {:induction false} ProblemsLeaveSomething(env: Env, services: seq<Service>, h: Host, records: seq<Record>)
    requires Claimed(services, records) <= h.live && Apart(records) && Lookups(services)
    requires forall r :: r in records ==> Lookup(services, r.id).Some?
    requires Rollback(env, services, h, records).problems != []
    ensures exists x :: x in Rollback(env, services, h, records).host.live && x in Claimed(services, records)
    decreases |records|
  {
    hide Lookup, Undo, Claims, Undoes, Lookups;
    var last, front := records[|records| - 1], records[..|records| - 1];
    var u := Undo(env, services, h, last);
    assert front + [last] == records;
    ClaimsApart(services, front, last);
    UndoConfirms(env, services, h, last);
    UndoEffect(env, services, h, last);
    UndoesMeans(h, Claims(services, last), if last.owned && Lookup(services, last.id).Some? then [last.id] else [], u);
    RollbackEffect(env, services, u.host, front);
    var rest := Rollback(env, services, u.host, front);
    UndoesMeans(u.host, Claimed(services, front), Reversed(OwnedIds(services, front)), rest);
    if u.problems != [] {
      var x :| x in u.host.live && x in Claims(services, last);
      assert x in rest.host.live;
    } else {
      ProblemsLeaveSomething(env, services, u.host, front);
      var x :| x in rest.host.live && x in Claimed(services, front);
      assert x in Claimed(services, records);
    }
  }

  lemma UndoesMeans(h: Host, claims: set<Resource>, visits: seq<Id>, u: Undone)
    requires Undoes(h, claims, visits, u)
    ensures h.live - claims <= u.host.live && u.host.disk == h.disk && h.tick <= u.host.tick
    ensures u.problems == [] ==> u.host.live == h.live - claims
  {
  }

  lemma {:induction false} ClaimsNoHelper(services: seq<Service>, records: seq<Record>)
    ensures forall x :: x in Claimed(services, records) ==> !x.Helper?
    decreases |records|
  {
    if records != [] {
      ClaimsNoHelper(services, records[..|records| - 1]);
    }
  }

  // --- Starting services ------------------------------------------------------------------------------

  /** The records follow the start order. */
  predicate Follows(records: seq<Record>, order: seq<Service>) {
    |records| <= |order| && forall i :: 0 <= i < |records| ==> records[i].id == order[i].id
  }

  /** The transaction has recorded everything it started; all of it lives; later processes have larger numbers. */
  ghost predicate Recorded(services: seq<Service>, t: Transaction, before: set<Resource>) {
    && t.manifest.records == t.records && Fresh(t.host)
    && before <= t.host.live && Claimed(services, t.records) <= t.host.live
    && (forall x :: x in t.host.live ==> x in before || x.Helper? || x in Claimed(services, t.records))
    && Rising(t.records, t.host.tick)
  }

  predicate Rising(records: seq<Record>, tick: nat) {
    && (forall r :: r in records && r.pid.Some? ==> r.pid.value < tick)
    && (forall i, j :: 0 <= i < j < |records| && records[i].pid.Some? && records[j].pid.Some? ==>
          records[i].pid.value < records[j].pid.value)
  }

  /** The disk holds the transaction's manifest. */
  predicate Written(t: Transaction) { t.host.disk == Some(t.manifest) }

  /** The disk lacks the last record: announcing it failed. */
  predicate Lags(t: Transaction) {
    t.records != [] && t.host.disk == Some(t.manifest.(records := t.records[..|t.records| - 1]))
  }

  lemma ClaimedAppends(services: seq<Service>, records: seq<Record>, r: Record)
    ensures Claimed(services, records + [r]) == Claimed(services, records) + Claims(services, r)
  {
    assert (records + [r])[..|records|] == records;
  }

  /** What starting one service leaves: it is recorded before anything can fail after its spawn, and
      only a start command that could not be contained goes unrecorded. */
  ghost predicate Starts(services: seq<Service>, t: Transaction, s: Service, before: set<Resource>, b: Began) {
    var t' := b.transaction;
    && Recorded(services, t', before)
    && (t'.records == t.records || (|t'.records| == |t.records| + 1 && t'.records[..|t.records|] == t.records
                                    && t'.records[|t.records|].id == s.id))
    && (b.ok ==> |t'.records| == |t.records| + 1)
    && (Written(t) ==> Written(t') || (!b.ok && Lags(t')))
    && (b.ok || !s.mode.Oneshot? ==> forall x :: x in t'.host.live && x.Helper? ==> x in t.host.live)
    && t'.manifest == t.manifest.(records := t'.records) && t'.host.visited == t.host.visited
  }

  lemma AnnounceStarts(env: Env, services: seq<Service>, t: Transaction, host: Host, s: Service,
                       r: Record, before: set<Resource>)
    requires Recorded(services, t, before) && Lookup(services, s.id) == Some(s)
    requires r.id == s.id && t.host.tick <= host.tick && Fresh(host) && host.disk == t.host.disk
    requires t.host.live + Claims(services, r) <= host.live && host.visited == t.host.visited
    requires forall x :: x in host.live ==> x in t.host.live || x.Helper? || x in Claims(services, r)
    requires r.pid.Some? ==> t.host.tick <= r.pid.value < host.tick
    ensures var b := Announce(env, On(t, host), r);
            && Recorded(services, b.transaction, before)
            && b.transaction.records == t.records + [r]
            && b.transaction.manifest == t.manifest.(records := t.records + [r])
            && b.transaction.host.live == host.live && b.transaction.host.visited == t.host.visited
            && b.transaction.host.tick == host.tick + 1
            && (Written(t) ==> if b.ok then Written(b.transaction) else Lags(b.transaction))
  {
    ClaimedAppends(services, t.records, r);
    assert (t.records + [r])[..|t.records|] == t.records;
  }

  /** Time passes, and at most a start command of the launcher's own ends. */
  lemma WaitRecorded(services: seq<Service>, t: Transaction, host: Host, before: set<Resource>, pid: nat)
    requires Recorded(services, t, before) && Helper(pid) !in before && t.host.tick <= host.tick
    requires host.live == t.host.live || host.live == t.host.live - {Helper(pid)}
    ensures Recorded(services, On(t, host), before)
  {
    ClaimsNoHelper(services, t.records);
  }

  lemma StartOneshotEffect(env: Env, services: seq<Service>, t: Transaction, s: Service, before: set<Resource>)
    requires Recorded(services, t, before) && Lookup(services, s.id) == Some(s) && s.mode.Oneshot?
    ensures Starts(services, t, s, before, StartOneshot(env, t, s))
  {
    hide Lookup, Announce, Claimed, Recorded;
    var pid := t.host.tick;
    RecordedFresh(services, t, before);
    WaitRecorded(services, t, Later(t.host), before, pid);
    if env.spawns(pid) {
      var spawned := Later(t.host).(live := t.host.live + {Helper(pid)} + Footprint(s));
      AnnounceStarts(env, services, t, spawned, s, Record(s.id, true, None), before);
      var u := Announce(env, On(t, spawned), Record(s.id, true, None)).transaction;
      var ended := Later(u.host).(live := u.host.live - {Helper(pid)});
      WaitRecorded(services, u, Contain(env, u.host, pid), before, pid);
      WaitRecorded(services, u, Contain(env, Later(u.host), pid), before, pid);
      WaitRecorded(services, u, ended, before, pid);
      WaitRecorded(services, u, Later(ended), before, pid);
    }
  }

  lemma RecordedFresh(services: seq<Service>, t: Transaction, before: set<Resource>)
    requires Recorded(services, t, before)
    ensures Fresh(t.host) && before <= t.host.live && Helper(t.host.tick) !in t.host.live
  {
  }

  lemma StartDaemonEffect(env: Env, services: seq<Service>, t: Transaction, s: Service, before: set<Resource>)
    requires Recorded(services, t, before) && Lookup(services, s.id) == Some(s)
    ensures Starts(services, t, s, before, StartDaemon(env, t, s))
  {
    hide Lookup, Announce, Claimed, Recorded;
    var pid := t.host.tick;
    RecordedFresh(services, t, before);
    WaitRecorded(services, t, Later(t.host), before, pid);
    if env.spawns(pid) {
      var r := Record(s.id, true, Some(pid));
      var spawned := Later(t.host).(live := t.host.live + {Process(pid)} + Footprint(s));
      AnnounceStarts(env, services, t, spawned, s, r, before);
      var u := Announce(env, On(t, spawned), r).transaction;
      WaitRecorded(services, u, Later(u.host), before, pid);
      WaitRecorded(services, u, Later(Later(u.host)), before, pid);
    }
  }

  lemma StartServiceEffect(env: Env, services: seq<Service>, t: Transaction, s: Service, before: set<Resource>)
    requires Recorded(services, t, before) && Lookup(services, s.id) == Some(s)
    ensures Starts(services, t, s, before, StartService(env, t, s))
  {
    hide Lookup, Announce, Claimed, StartDaemon, StartOneshot, Recorded;
    var probed, r := On(t, Later(t.host)), Record(s.id, false, None);
    RecordedFresh(services, t, before);
    WaitRecorded(services, t, Later(t.host), before, t.host.tick);
    WaitRecorded(services, t, Later(probed.host), before, t.host.tick);
    AnnounceStarts(env, services, t, probed.host, s, r, before);
    AnnounceStarts(env, services, t, Later(probed.host), s, r, before);
    StartDaemonEffect(env, services, probed, s, before);
    if s.mode.Oneshot? {
      StartOneshotEffect(env, services, probed, s, before);
    }
  }

  // --- A whole transaction --------------------------------------------------------------------------

  /** The services can be looked up by their own ids. */
  ghost predicate Found(services: seq<Service>, order: seq<Service>) {
    forall s :: s in order ==> Lookup(services, s.id) == Some(s)
  }

  /** What starting services in order leaves, after returning or failing at any of them. */
  ghost predicate Progress(
    services: seq<Service>, order: seq<Service>, t: Transaction, before: set<Resource>, b: Began)
  {
    var t' := b.transaction;
    && Recorded(services, t', before) && t'.manifest == t.manifest.(records := t'.records)
    && |t.records| <= |t'.records| <= |t.records| + |order| && t'.records[..|t.records|] == t.records
    && Follows(t'.records[|t.records|..], order)
    && (b.ok ==> |t'.records| == |t.records| + |order|)
    && (Written(t) ==> Written(t') || (!b.ok && Lags(t')))
    && ((forall s :: s in order ==> !s.mode.Oneshot?) ==>
          forall x :: x in t'.host.live && x.Helper? ==> x in t.host.live)
    && t'.host.visited == t.host.visited
  }

  lemma {:induction false} StartServicesEffect(
    env: Env, services: seq<Service>, t: Transaction, order: seq<Service>, before: set<Resource>)
    requires Recorded(services, t, before) && Found(services, order)
    ensures Progress(services, order, t, before, StartServices(env, t, order))
    decreases |order|
  {
    hide Lookup, StartService, Claimed, Fresh;
    if order != [] {
      var s, rest := order[0], order[1..];
      StartServiceEffect(env, services, t, s, before);
      var first := StartService(env, t, s);
      if first.ok {
        StartServicesEffect(env, services, first.transaction, rest, before);
        ProgressStep(services, t, first, StartServices(env, first.transaction, rest), order, before);
      }
    }
  }

  lemma ProgressStep(services: seq<Service>, t: Transaction, first: Began, last: Began, order: seq<Service>,
                     before: set<Resource>)
    requires order != [] && first.ok && Starts(services, t, order[0], before, first)
    requires Progress(services, order[1..], first.transaction, before, last)
    ensures Progress(services, order, t, before, last)
  {
    hide Recorded;
    var n := |t.records|;
    var records := last.transaction.records;
    assert records[..n] == records[..n + 1][..n];
    assert records[n] == records[..n + 1][n];
    assert records[n + 1..] == records[n..][1..];
    forall i | 0 <= i < |records[n..]|
      ensures records[n..][i].id == order[i].id
    {
      if 0 < i {
        assert records[n + 1..][i - 1].id == order[1..][i - 1].id;
      }
    }
  }

  /** What is live is a command of the launcher, or written down as owned. */
  ghost predicate Accounted(services: seq<Service>, h: Host) {
    forall x :: x in h.live ==>
      x.Helper? || (h.disk.Some? && x in Claimed(services, h.disk.value.records))
  }

  /** Nothing but commands of the launcher is live, and nothing is written down as owned. */
  ghost predicate NothingLeft(h: Host) {
    OnlyHelpers(h.live) && (h.disk.Some? ==> OwnsNothing(h.disk.value.records))
  }

  /** A failed transaction, between its last step and its undoing. */
  ghost predicate Failing(services: seq<Service>, order: seq<Service>, t: Transaction, before: set<Resource>) {
    && Recorded(services, t, before) && (Written(t) || Lags(t))
    && Found(services, order) && UniqueIds(order) && Follows(t.records, order)
  }

  lemma FailingApart(services: seq<Service>, order: seq<Service>, t: Transaction, before: set<Resource>)
    requires Failing(services, order, t, before)
    ensures Apart(t.records) && forall r :: r in t.records ==> Lookup(services, r.id).Some?
  {
    hide Lookup, Claimed;
    forall r | r in t.records
      ensures Lookup(services, r.id).Some?
    {
      var i :| 0 <= i < |t.records| && t.records[i] == r;
      assert order[i] in order;
    }
  }

  /** The answers under which undoing a failed transaction loses track of its last resource: announcing it could
      not be written, the rollback could not be, undoing it is not confirmed, and the failure could not be
      written either. */
  predicate Forgotten(env: Env, plan: Plan, t: Transaction) {
    && Lags(t) && !env.persists(t.host.tick)
    && !Confirms(env, plan.services, t.host.tick + 1, t.records[|t.records| - 1..])
    && !env.persists(Rollback(env, plan.services, Later(t.host), t.records).host.tick)
  }

  /** The answers under which it clears everything up: all undoing is confirmed, and the failure is written down,
      or what is written down already owns nothing. */
  predicate ClearsUp(env: Env, plan: Plan, t: Transaction) {
    var h := Persist(env, t.host, t.manifest.(phase := RollingBack, records := t.records)).host;
    && Confirms(env, plan.services, h.tick, t.records)
    && (env.persists(Rollback(env, plan.services, h, t.records).host.tick)
        || (h.disk.Some? && OwnsNothing(h.disk.value.records)))
  }

  /** The last record's undoing is the first, and no later one makes up for it. */
  lemma LastSurvives(env: Env, services: seq<Service>, h: Host, records: seq<Record>)
    requires records != [] && Claimed(services, records) <= h.live && Apart(records) && Lookups(services)
    requires forall r :: r in records ==> Lookup(services, r.id).Some?
    ensures var n := |records| - 1;
            Confirms(env, services, h.tick, records[n..])
            <==> Rollback(env, services, h, records).host.live !! Claims(services, records[n])
  {
    hide Lookup, Undo, Claims, Lookups, OwnedIds, Confirms;
    var n := |records| - 1;
    var last, front := records[n], records[..n];
    assert front + [last] == records && records[n..] == [last];
    var u := Undo(env, services, h, last);
    ClaimsApart(services, front, last);
    ClaimsNoHelper(services, records);
    UndoConfirms(env, services, h, last);
    RollbackEffect(env, services, u.host, front);
  }

  /** What undoing a failed transaction does to the host, before the failure is written down. */
  lemma AbandonRollback(env: Env, services: seq<Service>, order: seq<Service>, t: Transaction, before: set<Resource>,
                        h: Host)
    requires Failing(services, order, t, before) && h.live == t.host.live && h.tick >= t.host.tick
    ensures var u := Rollback(env, services, h, t.records);
            && Fresh(u.host) && u.host.disk == h.disk
            && u.host.visited == h.visited + Reversed(OwnedIds(services, t.records))
            && (u.problems == [] <==> Confirms(env, services, h.tick, t.records))
            && (u.problems == [] ==> u.host.live <= h.live)
            && (OnlyHelpers(before) ==>
                  && (u.problems == [] <==> OnlyHelpers(u.host.live))
                  && forall x :: x in u.host.live ==> x.Helper? || x in Claimed(services, t.records))
  {
    hide Lookup, Claims, OwnedIds, Confirms, Rollback;
    FailingApart(services, order, t, before);
    LookupNames(services);
    ClaimsNoHelper(services, t.records);
    RollbackEffect(env, services, h, t.records);
    RollbackConfirms(env, services, h, t.records);
    if Rollback(env, services, h, t.records).problems != [] {
      ProblemsLeaveSomething(env, services, h, t.records);
    }
  }

  /** Abandoning undoes exactly what the transaction recorded, newest first; an abandoned transaction's manifest
      follows the start order. */
  lemma AbandonEffect(env: Env, plan: Plan, order: seq<Service>, t: Transaction, before: set<Resource>)
    requires Failing(plan.services, order, t, before)
    ensures var e := Abandon(env, plan, t);
            && Fresh(e.host) && e.verdict.StartError?
            && e.host.visited == t.host.visited + Reversed(OwnedIds(plan.services, t.records))
            && (e.verdict == StartError([]) ==> e.host.live <= t.host.live)
            && (e.verdict == StartError([]) && OnlyHelpers(before) ==> NothingLeft(e.host))
            && e.host.disk.Some? && e.host.disk.value.digest == t.manifest.digest
            && Follows(e.host.disk.value.records, order)
  {
    hide Rollback, OwnedIds, Confirms, Claimed, Failing;
    FailingMeans(plan.services, order, t, before);
    var written := Persist(env, t.host, t.manifest.(phase := RollingBack, records := t.records));
    AbandonRollback(env, plan.services, order, t, before, written.host);
    ReleasedOwnsNothing(plan.services, t.records);
    var undone := Rollback(env, plan.services, written.host, t.records);
    if undone.problems != [] {
      assert undone.problems[0] in Abandon(env, plan, t).verdict.problems;
    }
  }

  lemma FailingMeans(services: seq<Service>, order: seq<Service>, t: Transaction, before: set<Resource>)
    requires Failing(services, order, t, before)
    ensures t.manifest.records == t.records && (Written(t) || Lags(t)) && !(Written(t) && Lags(t))
    ensures Follows(t.records, order) && Claimed(services, t.records) <= t.host.live
  {
  }

  /** It leaves nothing exactly when all undoing is confirmed and written down, or nothing was written as owned. */
  lemma AbandonClears(env: Env, plan: Plan, order: seq<Service>, t: Transaction, before: set<Resource>)
    requires Failing(plan.services, order, t, before) && OnlyHelpers(before)
    ensures NothingLeft(Abandon(env, plan, t).host) <==> ClearsUp(env, plan, t)
  {
    hide Rollback, OwnedIds, Confirms, Claimed, Failing;
    FailingMeans(plan.services, order, t, before);
    var written := Persist(env, t.host, t.manifest.(phase := RollingBack, records := t.records));
    AbandonRollback(env, plan.services, order, t, before, written.host);
    ReleasedOwnsNothing(plan.services, t.records);
  }

  /** A manifest that lacks the last record accounts for everything exactly when nothing of that record lives. */
  lemma LagAccounts(services: seq<Service>, t: Transaction, h: Host)
    requires Lags(t) && h.disk == t.host.disk && Apart(t.records) && Lookups(services)
    requires forall x :: x in h.live ==> x.Helper? || x in Claimed(services, t.records)
    ensures Accounted(services, h) <==> h.live !! Claims(services, t.records[|t.records| - 1])
  {
    hide Lookup, Claims, Lookups, Apart;
    var n := |t.records| - 1;
    assert t.records[..n] + [t.records[n]] == t.records;
    ClaimsApart(services, t.records[..n], t.records[n]);
    ClaimsNoHelper(services, t.records);
  }

  /** It loses track of something exactly under the answers named above. */
  lemma AbandonAccounts(env: Env, plan: Plan, order: seq<Service>, t: Transaction, before: set<Resource>)
    requires Failing(plan.services, order, t, before) && OnlyHelpers(before)
    ensures Accounted(plan.services, Abandon(env, plan, t).host) <==> !Forgotten(env, plan, t)
  {
    hide Rollback, OwnedIds, Confirms, Failing, Lookup, Claims, Claimed, Apart, Lookups, Follows;
    FailingMeans(plan.services, order, t, before);
    FailingApart(plan.services, order, t, before);
    var written := Persist(env, t.host, t.manifest.(phase := RollingBack, records := t.records));
    AbandonRollback(env, plan.services, order, t, before, written.host);
    ReleasedOwnsNothing(plan.services, t.records);
    var undone := Rollback(env, plan.services, written.host, t.records);
    if Lags(t) && !written.ok {
      LookupNames(plan.services);
      LastSurvives(env, plan.services, written.host, t.records);
      LagAccounts(plan.services, t, undone.host);
      if !env.persists(undone.host.tick) {
        assert Abandon(env, plan, t).host == Later(undone.host);
      }
    }
  }

  /** Starting the services of a new transaction. */
  function Begun(env: Env, plan: Plan, order: seq<Service>, h: Host): Began {
    var manifest := Manifest(h.tick, plan.digest, Starting, []);
    StartServices(env, Transaction(Persist(env, h, manifest).host, manifest, []), order)
  }

  predicate LaunchForgets(env: Env, plan: Plan, order: seq<Service>, h: Host) {
    var b := Begun(env, plan, order, h);
    env.persists(h.tick) && !b.ok && Forgotten(env, plan, b.transaction)
  }

  /** When a launch that does not return clears up after itself: it wrote nothing to begin with; or it failed
      and was undone; or only its last write failed, and it owned nothing. */
  predicate LaunchClears(env: Env, plan: Plan, order: seq<Service>, h: Host) {
    var b := Begun(env, plan, order, h);
    !env.persists(h.tick) || if b.ok then OwnsNothing(b.transaction.records) else ClearsUp(env, plan, b.transaction)
  }

  lemma BegunEffect(env: Env, plan: Plan, order: seq<Service>, h: Host)
    requires Fresh(h) && Found(plan.services, order) && UniqueIds(order) && env.persists(h.tick)
    ensures var manifest := Manifest(h.tick, plan.digest, Starting, []);
            var b := Begun(env, plan, order, h);
            && Progress(plan.services, order, Transaction(Persist(env, h, manifest).host, manifest, []), h.live, b)
            && Failing(plan.services, order, b.transaction, h.live) && (b.ok ==> Written(b.transaction))
            && b.transaction.manifest.digest == plan.digest && b.transaction.host.visited == h.visited
            && (b.ok ==> |b.transaction.records| == |order|)
            && ((forall s :: s in order ==> !s.mode.Oneshot?) ==>
                  forall x :: x in b.transaction.host.live && x.Helper? ==> x in h.live)
  {
    hide StartServices, Claimed, Lookup;
    NothingClaimed(plan.services);
    var manifest := Manifest(h.tick, plan.digest, Starting, []);
    var t := Transaction(Persist(env, h, manifest).host, manifest, []);
    StartServicesEffect(env, plan.services, t, order, h.live);
    var b := Begun(env, plan, order, h);
    assert b.transaction.records == b.transaction.records[|t.records|..];
  }

  lemma NothingClaimed(services: seq<Service>)
    ensures Claimed(services, []) == {}
  {
  }

  /** What the manifest on disk says belongs to this plan follows its start order. */
  predicate Ours(plan: Plan, order: seq<Service>, h: Host) {
    h.disk.Some? && h.disk.value.digest == plan.digest ==> Follows(h.disk.value.records, order)
  }

  /** What undoing a launch visits. */
  function LaunchVisits(env: Env, plan: Plan, order: seq<Service>, h: Host): seq<Id> {
    var b := Begun(env, plan, order, h);
    if env.persists(h.tick) && !b.ok then Reversed(OwnedIds(plan.services, b.transaction.records)) else []
  }

  lemma LaunchEffect(env: Env, plan: Plan, order: seq<Service>, h: Host)
    requires Fresh(h) && Found(plan.services, order) && UniqueIds(order)
    ensures var e := Launch(env, plan, order, h);
            && Fresh(e.host) && (Ours(plan, order, h) ==> Ours(plan, order, e.host))
            && (NothingLeft(h) ==>
                  && (Accounted(plan.services, e.host) <==> !LaunchForgets(env, plan, order, h))
                  && (!e.verdict.Returned? ==> (NothingLeft(e.host) <==> LaunchClears(env, plan, order, h)))
                  && (e.verdict == StartError([]) ==> NothingLeft(e.host))
                  && ((forall s :: s in order ==> !s.mode.Oneshot?) && e.verdict == StartError([]) ==>
                        e.host.live <= h.live))
            && e.host.visited == h.visited + LaunchVisits(env, plan, order, h)
            && (e.verdict.Returned? ==>
                  && e.host.disk.Some? && e.host.disk.value.phase.Running?
                  && |e.host.disk.value.records| == |order| && Follows(e.host.disk.value.records, order))
  {
    hide StartServices, Abandon, Claimed, Lookup, OwnedIds, ClearsUp, Forgotten, Begun, Progress, Found, UniqueIds,
         Failing;
    LaunchUnfolds(env, plan, order, h);
    if env.persists(h.tick) {
      BegunEffect(env, plan, order, h);
      var b := Begun(env, plan, order, h);
      if b.ok {
        RunningEffect(env, plan, order, b.transaction, h.live);
      } else {
        AbandonEffect(env, plan, order, b.transaction, h.live);
        if OnlyHelpers(h.live) {
          AbandonClears(env, plan, order, b.transaction, h.live);
          AbandonAccounts(env, plan, order, b.transaction, h.live);
        }
      }
    }
  }

  /** The last write of a transaction that started everything. */
  function Finish(env: Env, t: Transaction): Ended {
    var saved := Persist(env, t.host, t.manifest.(phase := Running, records := t.records));
    Ended(saved.host, if saved.ok then Returned else Raised)
  }

  lemma LaunchUnfolds(env: Env, plan: Plan, order: seq<Service>, h: Host)
    ensures var b := Begun(env, plan, order, h);
            Launch(env, plan, order, h)
            == if !env.persists(h.tick) then Ended(Later(h), Raised)
               else if b.ok then Finish(env, b.transaction) else Abandon(env, plan, b.transaction)
  {
    hide StartServices, Abandon;
  }

  /** Everything is live and written down, whether or not the last write works. */
  lemma RunningEffect(env: Env, plan: Plan, order: seq<Service>, t: Transaction, before: set<Resource>)
    requires Failing(plan.services, order, t, before) && Written(t) && t.manifest.digest == plan.digest
    ensures var e := Finish(env, t);
            && Fresh(e.host) && Ours(plan, order, e.host) && e.host.visited == t.host.visited
            && (OnlyHelpers(before) ==>
                  Accounted(plan.services, e.host) && (NothingLeft(e.host) <==> OwnsNothing(t.records)))
            && e.host.disk.Some? && e.host.disk.value.records == t.records
            && (e.verdict.Returned? ==> e.host.disk.value.phase.Running?)
  {
    hide Lookup, Claims;
    if OwnsNothing(t.records) {
      OwningNothingClaims(plan.services, t.records);
    }
  }

  lemma {:induction false} OwningNothingClaims(services: seq<Service>, records: seq<Record>)
    requires OwnsNothing(records)
    ensures Claimed(services, records) == {}
    decreases |records|
  {
    if records != [] {
      OwningNothingClaims(services, records[..|records| - 1]);
    }
  }

  /** The rollback of what an earlier transaction left: only under this plan's digest, only when it is not running
      and healthy, and only once it is written down. */
  predicate Resumes(env: Env, plan: Plan, h: Host) {
    && h.disk.Some? && h.disk.value.digest == plan.digest
    && !(h.disk.value.phase.Running? && ManifestHealthy(env, plan, h, h.disk.value)) && env.persists(h.tick + 1)
  }

  function RecoverVisits(env: Env, plan: Plan, h: Host): seq<Id> {
    if Resumes(env, plan, h) then Reversed(OwnedIds(plan.services, h.disk.value.records)) else []
  }

  /** Whatever is live and whatever was lost before: a new transaction begins only once everything the manifest
      names as owned is confirmed stopped; and then nothing else is live exactly when all was accounted for. */
  lemma RecoverEffect(env: Env, plan: Plan, order: seq<Service>, h: Host)
    requires Fresh(h)
    ensures var r := Recover(env, plan, h);
            && Fresh(r.host) && (Ours(plan, order, h) ==> Ours(plan, order, r.host))
            && r.host.visited == h.visited + RecoverVisits(env, plan, h)
            && r.readiness != Blocked(StartError([])) && r.readiness != Blocked(Returned)
            && (r.readiness.Proceed? ==>
                  && r.host.live <= h.live
                  && (h.disk.Some? ==> r.host.live !! Claimed(plan.services, h.disk.value.records))
                  && (r.host.disk.Some? ==> OwnsNothing(r.host.disk.value.records))
                  && (OnlyHelpers(r.host.live) <==> Accounted(plan.services, h)))
            && (r.readiness.Blocked? ==>
                  && h.disk.Some? && r.host.disk.Some? && r.host.disk.value.records == h.disk.value.records
                  && (Accounted(plan.services, h) ==> Accounted(plan.services, r.host)))
            && (r.readiness.Already? ==> r.host == Later(h) && h.disk.value.phase.Running?)
  {
    hide Rollback, Claims, Lookup, ManifestHealthy, OwnedIds;
    if h.disk.Some? && h.disk.value.digest == plan.digest {
      var m := h.disk.value;
      var written := Persist(env, Later(h), m.(phase := RollingBack));
      RollbackEffect(env, plan.services, written.host, m.records);
      ClaimsNoHelper(plan.services, m.records);
      ReleasedOwnsNothing(plan.services, m.records);
    }
  }

  function StopVisits(env: Env, plan: Plan, h: Host): seq<Id> {
    if h.disk.Some? && h.disk.value.digest == plan.digest && env.persists(h.tick)
    then Reversed(OwnedIds(plan.services, h.disk.value.records)) else []
  }

  /** A stop loses track of nothing, and one that returns leaves nothing exactly when all was accounted for. */
  lemma StopEffect(env: Env, plan: Plan, order: seq<Service>, h: Host)
    requires Fresh(h)
    ensures var e := Stop(env, plan, h);
            && Fresh(e.host) && (Ours(plan, order, h) ==> Ours(plan, order, e.host))
            && e.host.visited == h.visited + StopVisits(env, plan, h)
            && (Accounted(plan.services, e.host) <==> Accounted(plan.services, h))
            && e.verdict != StartError([])
            && (e.verdict.Returned? ==> (NothingLeft(e.host) <==> Accounted(plan.services, h)))
  {
    hide Rollback, Claims, Lookup, OwnedIds;
    if h.disk.Some? && h.disk.value.digest == plan.digest {
      var m := h.disk.value;
      var written := Persist(env, h, m.(phase := Stopping));
      RollbackEffect(env, plan.services, written.host, m.records);
      ClaimsNoHelper(plan.services, m.records);
      ReleasedOwnsNothing(plan.services, m.records);
    }
  }

  /** The answers under which a start loses track of something it started. */
  predicate Loses(env: Env, plan: Plan, order: seq<Service>, h: Host) {
    var r := Recover(env, plan, h);
    r.readiness.Proceed? && LaunchForgets(env, plan, order, r.host)
  }

  /** The answers under which a start that does not return leaves nothing behind. */
  predicate Clears(env: Env, plan: Plan, order: seq<Service>, h: Host) {
    var r := Recover(env, plan, h);
    match r.readiness
    case Already => false
    case Blocked(_) => h.disk.Some? && OwnsNothing(h.disk.value.records)
    case Proceed => LaunchClears(env, plan, order, r.host)
  }

  function StartVisits(env: Env, plan: Plan, order: seq<Service>, h: Host): seq<Id> {
    var r := Recover(env, plan, h);
    if r.readiness.Proceed? then LaunchVisits(env, plan, order, r.host) else []
  }

  lemma StartEffect(env: Env, plan: Plan, order: seq<Service>, h: Host)
    requires Fresh(h) && Found(plan.services, order) && UniqueIds(order)
    ensures var e := Start(env, plan, order, h);
            && Fresh(e.host) && (Ours(plan, order, h) ==> Ours(plan, order, e.host))
            && (Accounted(plan.services, h) ==>
                  && (Accounted(plan.services, e.host) <==> !Loses(env, plan, order, h))
                  && (!e.verdict.Returned? ==> (NothingLeft(e.host) <==> Clears(env, plan, order, h)))
                  && (e.verdict == StartError([]) ==> NothingLeft(e.host)))
            && e.host.visited == h.visited + RecoverVisits(env, plan, h) + StartVisits(env, plan, order, h)
  {
    hide Recover, Launch, LaunchForgets, LaunchClears, LaunchVisits, RecoverVisits, Claimed, Found, UniqueIds, Ours,
         Fresh;
    RecoverEffect(env, plan, order, h);
    var r := Recover(env, plan, h);
    match r.readiness
    case Proceed => LaunchEffect(env, plan, order, r.host);
    case Already => LaterHost(plan, order, h);
    case Blocked(_) =>
      if OwnsNothing(h.disk.value.records) {
        OwningNothingClaims(plan.services, h.disk.value.records);
      }
  }

  lemma LaterHost(plan: Plan, order: seq<Service>, h: Host)
    ensures Accounted(plan.services, h) ==> Accounted(plan.services, Later(h))
    ensures Fresh(h) ==> Fresh(Later(h))
    ensures Ours(plan, order, h) ==> Ours(plan, order, Later(h))
  {
  }

  // --- The start order in rollbacks -------------------------------------------------------------------

  lemma {:induction false} LookupOwn(services: seq<Service>, s: Service)
    requires UniqueIds(services) && s in services
    ensures Lookup(services, s.id) == Some(s)
  {
    if services[0] == s {
      LookupMisses(services[1..], s.id);
    } else {
      assert s in services[1..];
      LookupOwn(services[1..], s);
    }
  }

  lemma {:induction false} LookupMisses(services: seq<Service>, id: Id)
    requires forall s :: s in services ==> s.id != id
    ensures Lookup(services, id).None?
  {
    if services != [] {
      LookupMisses(services[1..], id);
    }
  }

  lemma TwiceIn<T>(s: seq<T>, i: nat, j: nat)
    requires i < j < |s| && s[i] == s[j]
    ensures multiset(s)[s[i]] >= 2
  {
    assert s == s[..j] + [s[j]] + s[j + 1..];
    assert s[i] in s[..j];
  }

  lemma OrderIsKnown(services: seq<Service>, order: seq<Service>)
    requires UniqueIds(services) && Ordered(services) == Some(order)
    ensures Found(services, order) && UniqueIds(order) && DependenciesFirst(order)
    ensures forall s :: s in order <==> s in services
  {
    OrderedIsSoundAndComplete(services);
    assert forall s :: s in order <==> s in multiset(order);
    assert forall s :: s in services <==> s in multiset(services);
    forall s | s in order
      ensures Lookup(services, s.id) == Some(s)
    {
      LookupOwn(services, s);
    }
    forall i, j | 0 <= i < j < |order|
      ensures order[i].id != order[j].id
    {
      if order[i].id == order[j].id {
        assert order[i] == order[j] by {
          LookupOwn(services, order[i]);
          LookupOwn(services, order[j]);
        }
        UniqueMultiplicity(services, order[i]);
        TwiceIn(order, i, j);
      }
    }
  }

  /** No dependency is named before a service that depends on it. */
  predicate UndoneInOrder(services: seq<Service>, visits: seq<Id>) {
    forall i, j, s | 0 <= i < j < |visits| && s in services :: s.id == visits[j] ==> visits[i] !in s.dependencies
  }

  lemma {:induction false} ReversedAt<T>(s: seq<T>, k: nat)
    requires k < |s|
    ensures |Reversed(s)| == |s| && Reversed(s)[k] == s[|s| - 1 - k]
  {
    if |s| > 1 {
      ReversedAt(s[..|s| - 1], if k > 0 then k - 1 else 0);
    }
  }

  /** What is owned was started in order: the `k`th owned id names a service started at or after the `k`th. */
  lemma {:induction false} OwnedInOrder(services: seq<Service>, order: seq<Service>, records: seq<Record>)
    requires Follows(records, order) && Found(services, order) && UniqueIds(order) && DependenciesFirst(order)
    ensures forall id :: id in OwnedIds(services, records) ==> exists k :: 0 <= k < |records| && order[k].id == id
    ensures forall i, j | 0 <= i < j < |OwnedIds(services, records)| ::
              forall s :: s in order && s.id == OwnedIds(services, records)[i] ==>
                OwnedIds(services, records)[j] !in s.dependencies
    decreases |records|
  {
    hide Lookup;
    if records != [] {
      var n := |records| - 1;
      var front := records[..n];
      OwnedInOrder(services, order, front);
      var ids, all := OwnedIds(services, front), OwnedIds(services, records);
      forall id | id in all
        ensures exists k :: 0 <= k < |records| && order[k].id == id
      {
        if id in ids {
          var k :| 0 <= k < |front| && order[k].id == id;
          assert order[k].id == id;
        } else {
          assert order[n].id == id;
        }
      }
      forall i, j | 0 <= i < j < |all|
        ensures forall s :: s in order && s.id == all[i] ==> all[j] !in s.dependencies
      {
        if j == |ids| {
          assert all[i] in ids && all[j] == order[n].id;
          var k :| 0 <= k < |front| && order[k].id == all[i];
          LaterIsNoDependency(order, k, n);
        }
      }
    }
  }

  lemma LaterIsNoDependency(order: seq<Service>, i: nat, j: nat)
    requires i < j < |order| && UniqueIds(order) && DependenciesFirst(order)
    ensures forall s :: s in order && s.id == order[i].id ==> order[j].id !in s.dependencies
  {
    assert order[j].id !in Ids(order[..i]);
    forall s | s in order && s.id == order[i].id
      ensures s == order[i]
    {
      var k :| 0 <= k < |order| && order[k] == s;
    }
  }

  lemma RollbackInOrder(services: seq<Service>, order: seq<Service>, records: seq<Record>)
    requires UniqueIds(services) && Ordered(services) == Some(order) && Follows(records, order)
    ensures UndoneInOrder(services, Reversed(OwnedIds(services, records)))
  {
    hide Ordered, UniqueIds, Lookup, OwnedIds, Reversed, DependenciesFirst;
    OrderIsKnown(services, order);
    OwnedInOrder(services, order, records);
    var ids := OwnedIds(services, records);
    forall i, j, s | 0 <= i < j < |Reversed(ids)| && s in services
      ensures s.id == Reversed(ids)[j] ==> Reversed(ids)[i] !in s.dependencies
    {
      if ids == [] {
        NothingReversed<Id>();
      } else {
        ReversedAt(ids, 0);
        ReversedAt(ids, i);
        ReversedAt(ids, j);
      }
    }
  }

  lemma NothingReversed<T>()
    ensures Reversed<T>([]) == []
  {
  }

  // --- Every run ----------------------------------------------------------------------------------------

  /** A call loses track of something: only a start can. */
  predicate CallLoses(env: Env, plan: Plan, order: seq<Service>, h: Host, call: Call) {
    call.StartCall? && Loses(env, plan, order, h)
  }

  predicate NeverLoses(env: Env, plan: Plan, order: seq<Service>, h: Host, calls: seq<Call>)
    decreases |calls|
  {
    calls == []
    || (!CallLoses(env, plan, order, h, calls[0])
        && NeverLoses(env, plan, order, Perform(env, plan, order, h, calls[0]).host, calls[1..]))
  }

  ghost predicate AlwaysAccounted(env: Env, plan: Plan, order: seq<Service>, h: Host, calls: seq<Call>)
    decreases |calls|
  {
    && Accounted(plan.services, h)
    && (calls != [] ==> AlwaysAccounted(env, plan, order, Perform(env, plan, order, h, calls[0]).host, calls[1..]))
  }

  /** One call adds at most two rollbacks to what was visited, and neither undoes a dependency before a service
      that depends on it. */
  ghost predicate UndoesInOrder(services: seq<Service>, before: seq<Id>, after: seq<Id>) {
    exists first, second | UndoneInOrder(services, first) && UndoneInOrder(services, second) ::
      after == before + first + second
  }

  ghost predicate AlwaysInOrder(env: Env, plan: Plan, order: seq<Service>, h: Host, calls: seq<Call>)
    decreases |calls|
  {
    calls == []
    || var next := Perform(env, plan, order, h, calls[0]).host;
       UndoesInOrder(plan.services, h.visited, next.visited) && AlwaysInOrder(env, plan, order, next, calls[1..])
  }

  /** Rolling back visits dependents before what they depend on, in a start that recovers or abandons and in a
      stop alike, whatever was lost before. */
  lemma DependentsUndoneFirst(env: Env, plan: Plan, order: seq<Service>, h: Host, call: Call)
    requires UniqueIds(plan.services) && Ordered(plan.services) == Some(order)
    requires Fresh(h) && Ours(plan, order, h)
    ensures var e := Perform(env, plan, order, h, call);
            Fresh(e.host) && Ours(plan, order, e.host) && UndoesInOrder(plan.services, h.visited, e.host.visited)
  {
    hide Ordered, UniqueIds, Start, Stop, Recover, Begun, OwnedIds, Reversed, UndoneInOrder, Loses, Clears, Found,
         Fresh;
    OrderIsKnown(plan.services, order);
    NothingInOrder(plan.services);
    var visits := h.visited;
    if h.disk.Some? && h.disk.value.digest == plan.digest {
      RollbackInOrder(plan.services, order, h.disk.value.records);
    }
    match call
    case StartCall =>
      StartEffect(env, plan, order, h);
      RecoverEffect(env, plan, order, h);
      var r := Recover(env, plan, h);
      if r.readiness.Proceed? && env.persists(r.host.tick) {
        BegunFollows(env, plan, order, r.host);
        RollbackInOrder(plan.services, order, Begun(env, plan, order, r.host).transaction.records);
      }
      assert UndoneInOrder(plan.services, RecoverVisits(env, plan, h));
      assert UndoneInOrder(plan.services, StartVisits(env, plan, order, h));
    case StopCall =>
      StopEffect(env, plan, order, h);
      var first := StopVisits(env, plan, h);
      assert visits + first == visits + first + [];
      assert UndoneInOrder(plan.services, first);
  }

  lemma NothingInOrder(services: seq<Service>)
    ensures UndoneInOrder(services, [])
  {
  }

  lemma BegunFollows(env: Env, plan: Plan, order: seq<Service>, h: Host)
    requires Fresh(h) && Found(plan.services, order) && UniqueIds(order) && env.persists(h.tick)
    ensures Follows(Begun(env, plan, order, h).transaction.records, order)
  {
    hide Begun, Found, UniqueIds, Progress;
    BegunEffect(env, plan, order, h);
  }

  /** Over every run, dependents are undone first. */
  lemma {:induction false} RunUndoesInOrder(env: Env, plan: Plan, order: seq<Service>, h: Host, calls: seq<Call>)
    requires UniqueIds(plan.services) && Ordered(plan.services) == Some(order)
    requires Fresh(h) && Ours(plan, order, h)
    ensures AlwaysInOrder(env, plan, order, h, calls)
    decreases |calls|
  {
    hide Ordered, UniqueIds, Perform, Fresh, Ours, UndoesInOrder;
    if calls != [] {
      DependentsUndoneFirst(env, plan, order, h, calls[0]);
      RunUndoesInOrder(env, plan, order, Perform(env, plan, order, h, calls[0]).host, calls[1..]);
    }
  }

  /** Over every run: what is live is written down as owned after every call, so that the next one settles it,
      exactly when no start met the answers under which one loses track. */
  lemma {:induction false} RunAccounted(env: Env, plan: Plan, order: seq<Service>, h: Host, calls: seq<Call>)
    requires UniqueIds(plan.services) && Ordered(plan.services) == Some(order)
    requires Fresh(h) && Accounted(plan.services, h)
    ensures AlwaysAccounted(env, plan, order, h, calls) <==> NeverLoses(env, plan, order, h, calls)
    decreases |calls|
  {
    hide Ordered, UniqueIds, Start, Stop, Fresh, Ours, Loses, Clears, Found, Accounted;
    if calls != [] {
      OrderIsKnown(plan.services, order);
      StartEffect(env, plan, order, h);
      StopEffect(env, plan, order, h);
      if !CallLoses(env, plan, order, h, calls[0]) {
        RunAccounted(env, plan, order, Perform(env, plan, order, h, calls[0]).host, calls[1..]);
      } else {
        AccountedFirst(env, plan, order, Perform(env, plan, order, h, calls[0]).host, calls[1..]);
      }
    }
  }

  lemma AccountedFirst(env: Env, plan: Plan, order: seq<Service>, h: Host, calls: seq<Call>)
    ensures AlwaysAccounted(env, plan, order, h, calls) ==> Accounted(plan.services, h)
  {
  }

  // --- The main results ---------------------------------------------------------------------------------

  /** A start that raises StackStartError with no rollback errors leaves nothing owned behind: nothing but start
      commands it could not contain is live, and the manifest on disk owns nothing. Any start that does not
      return does so exactly under the answers that clear everything up. */
  lemma FailedStartLeavesNothing(env: Env, plan: Plan, order: seq<Service>, h: Host)
    requires UniqueIds(plan.services) && Ordered(plan.services) == Some(order)
    requires Fresh(h) && Accounted(plan.services, h)
    ensures var e := Start(env, plan, order, h);
            && (e.verdict == StartError([]) ==> NothingLeft(e.host))
            && (!e.verdict.Returned? ==> (NothingLeft(e.host) <==> Clears(env, plan, order, h)))
            && (Accounted(plan.services, e.host) <==> !Loses(env, plan, order, h))
  {
    hide Start, Ordered, UniqueIds, Loses, Clears, Fresh;
    OrderIsKnown(plan.services, order);
    StartEffect(env, plan, order, h);
  }

  const GAME := Service("game", Daemon, {}, false, false)
  const GAME_PLAN := Plan([GAME], 1)
  const IDLE := Host(None, {}, [], 0)

  // Everything works except what is named: writes at some ticks, and ending processes.
  function Faulty(unwritten: set<nat>, kills: bool): Env {
    Env(t => t !in unwritten, t => false, t => true, t => true, t => true, t => Succeeds, t => true, t => Succeeds,
        t => kills)
  }

  /** The last write of a start lies outside its rollback: when it fails, the start raises with the game running
      and the manifest owning it. */
  lemma FailedLastWrite()
    ensures var e := Start(Faulty({6}, true), GAME_PLAN, [GAME], IDLE);
            && e.verdict == Raised && e.host.live == {Process(2)} && e.host.disk.Some?
            && e.host.disk.value.records == [Record("game", true, Some(2))]
  {
    var env := Faulty({6}, true);
    var t := Transaction(Persist(env, IDLE, Manifest(0, 1, Starting, [])).host, Manifest(0, 1, Starting, []), []);
    var b := StartService(env, t, GAME);
    assert [GAME][1..] == [];
    assert StartServices(env, t, [GAME]) == b;
  }

  lemma GameRemains(env: Env, h: Host)
    requires !env.kills(h.tick)
    ensures var r := Record("game", true, Some(2));
            && Rollback(env, [GAME], h, [r])
               == Undone(Later(h).(visited := h.visited + ["game"]), [ProcessRemains("game")])
            && !Confirms(env, [GAME], h.tick, [r])
  {
    var r := Record("game", true, Some(2));
    assert Lookup([GAME], "game") == Some(GAME);
    assert [r][..0] == [];
    assert Rollback(env, [GAME], Later(h).(visited := h.visited + ["game"]), []).problems == [];
  }

  lemma GameUnannounced(env: Env)
    requires env == Faulty({3, 4, 6}, false)
    ensures var m, r := Manifest(0, 1, Starting, []), Record("game", true, Some(2));
            Begun(env, GAME_PLAN, [GAME], IDLE)
            == Began(Transaction(Host(Some(m), {Process(2)}, [], 4), m.(records := [r]), [r]), false)
  {
    var m := Manifest(0, 1, Starting, []);
    var t := Transaction(Persist(env, IDLE, m).host, m, []);
    assert StartServices(env, t, [GAME]) == StartService(env, t, GAME);
  }

  /** When neither the announcement, nor the rollback, nor the failure can be written, and the game does not end,
      the next start goes ahead beside it, although by then it can write again. */
  lemma ForgottenProcess()
    ensures var env := Faulty({3, 4, 6}, false);
            var h := Start(env, GAME_PLAN, [GAME], IDLE).host;
            && h.live == {Process(2)} && Loses(env, GAME_PLAN, [GAME], IDLE)
            && Recover(env, GAME_PLAN, h).readiness.Proceed?
            && Process(2) in Recover(env, GAME_PLAN, h).host.live
  {
    hide Rollback, Confirms, Begun, StartServices, Lookup;
    var env := Faulty({3, 4, 6}, false);
    var m, r := Manifest(0, 1, Starting, []), Record("game", true, Some(2));
    GameUnannounced(env);
    LaunchUnfolds(env, GAME_PLAN, [GAME], IDLE);
    var t := Transaction(Host(Some(m), {Process(2)}, [], 4), m.(records := [r]), [r]);
    assert [r][..0] == [] && [r][0..] == [r];
    GameRemains(env, Later(t.host));
    NothingUndone(env, Host(Some(m.(phase := RollingBack)), {Process(2)}, ["game"], 9));
    assert Start(env, GAME_PLAN, [GAME], IDLE).host == Host(Some(m), {Process(2)}, ["game"], 7);
  }

  lemma NothingUndone(env: Env, h: Host)
    ensures Rollback(env, [GAME], h, []) == Undone(h, [])
  {
  }

  /** A start that raises without errors adds nothing at all to what is live. */
  ghost predicate Clean(env: Env, plan: Plan, order: seq<Service>, h: Host) {
    Fresh(h) && Accounted(plan.services, h) && Start(env, plan, order, h).verdict == StartError([]) ==>
      Start(env, plan, order, h).host.live <= h.live
  }

  lemma CleanWithoutOneshot(env: Env, plan: Plan, order: seq<Service>, h: Host)
    requires UniqueIds(plan.services) && Ordered(plan.services) == Some(order)
    requires forall s :: s in plan.services ==> !s.mode.Oneshot?
    ensures Clean(env, plan, order, h)
  {
    hide Recover, Launch, Ordered, UniqueIds, Accounted, Fresh, LaunchForgets, LaunchClears, LaunchVisits,
         RecoverVisits;
    OrderIsKnown(plan.services, order);
    if Fresh(h) && Accounted(plan.services, h) {
      RecoverEffect(env, plan, order, h);
      var r := Recover(env, plan, h);
      if r.readiness.Proceed? {
        LaunchEffect(env, plan, order, r.host);
      }
    }
  }

  // Everything works, except that start commands of oneshots hang and cannot be killed.
  function HungStarts(): Env {
    Env(t => true, t => false, t => true, t => true, t => true, t => Overruns, t => false, t => Succeeds, t => true)
  }

  lemma {:induction false} HungStartRemains(t: Transaction, order: seq<Service>)
    requires exists s :: s in order && s.mode.Oneshot?
    ensures var b := StartServices(HungStarts(), t, order);
            !b.ok && exists x :: x in b.transaction.host.live && x.Helper?
    decreases |order|
  {
    var first := StartService(HungStarts(), t, order[0]);
    if order[0].mode.Oneshot? {
      assert Helper(t.host.tick + 1) in first.transaction.host.live;
    } else {
      HungStartRemains(first.transaction, order[1..]);
    }
  }

  lemma {:induction false} SmoothRollback(services: seq<Service>, h: Host, records: seq<Record>)
    requires forall r :: r in records ==> Lookup(services, r.id).Some?
    ensures Rollback(HungStarts(), services, h, records).problems == []
    decreases |records|
  {
    hide Lookup;
    if records != [] {
      SmoothRollback(services, Undo(HungStarts(), services, h, records[|records| - 1]).host, records[..|records| - 1]);
    }
  }

  /** One oneshot is enough: its start command can outlive a start that reports no error. */
  lemma OneshotMayRemain(plan: Plan, order: seq<Service>) returns (h: Host)
    requires UniqueIds(plan.services) && Ordered(plan.services) == Some(order)
    requires exists s :: s in plan.services && s.mode.Oneshot?
    ensures !Clean(HungStarts(), plan, order, h)
  {
    hide Lookup, UniqueIds, Ordered, StartServices, Rollback, Claimed, OwnedIds;
    var env := HungStarts();
    h := Host(None, {}, [], 0);
    OrderIsKnown(plan.services, order);
    var t := Transaction(Persist(env, h, Manifest(0, plan.digest, Starting, [])).host,
                         Manifest(0, plan.digest, Starting, []), []);
    NothingClaimed(plan.services);
    HungStartRemains(t, order);
    StartServicesEffect(env, plan.services, t, order, {});
    var began := StartServices(env, t, order);
    var records := began.transaction.records;
    assert records == records[|t.records|..];
    assert forall r :: r in records ==> Lookup(plan.services, r.id).Some?;
    var manifest := began.transaction.manifest.(phase := RollingBack, records := records);
    var written := Persist(env, began.transaction.host, manifest);
    SmoothRollback(plan.services, written.host, records);
    RollbackEffect(env, plan.services, written.host, records);
    ClaimsNoHelper(plan.services, records);
    var x :| x in began.transaction.host.live && x.Helper?;
    assert x in Start(env, plan, order, h).host.live;
  }

  /** When an unreported start is sure to leave nothing new alive: exactly when no service is a oneshot. */
  lemma CleanIffNoOneshot(plan: Plan, order: seq<Service>)
    requires UniqueIds(plan.services) && Ordered(plan.services) == Some(order)
    ensures (forall env, h :: Clean(env, plan, order, h)) <==> (forall s :: s in plan.services ==> !s.mode.Oneshot?)
  {
    hide Clean, Ordered, UniqueIds;
    if forall s :: s in plan.services ==> !s.mode.Oneshot? {
      forall env, h
        ensures Clean(env, plan, order, h)
      {
        CleanWithoutOneshot(env, plan, order, h);
      }
    } else {
      var h := OneshotMayRemain(plan, order);
    }
  }
}
