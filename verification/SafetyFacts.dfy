/** What every gate call keeps, on every normal and exceptional exit. */
module SafetyFacts {
  import opened Common
  import opened Motor
  import opened SafetyModel

  const MAX_TTL_NS := MAX_TTL_MS * NS_PER_MS

  /** The gate and the backend agree on the live lease; without one, inputs are neutral unless the
      last release was not confirmed. */
  ghost predicate Agreed(g: Gate) {
    && (g.lease.Some? ==> g.backend.open && g.backend.bound == g.lease)
    && (g.lease.None? && g.backend.held != RELEASED ==> !g.backend.neutral)
  }

  // --- A reference monitor over the history of authority ------------------------------------------

  datatype Grant = Grant(lease: Lease, at: int, active: bool)

  /** The authority a history leaves: granted by an issue, prolonged by an extension of the same
      lease, made active by its activation, and ended by any revocation or withdrawal. */
  function Authority(trace: seq<Event>): Option<Grant> {
    if trace == [] then None
    else
      var before := Authority(trace[..|trace| - 1]);
      match trace[|trace| - 1]
      case Issued(lease, at) => Some(Grant(lease, at, false))
      case Extended(lease, at) =>
        if before.Some? && before.value.lease.id == lease.id
        then Some(before.value.(lease := lease, at := at)) else None
      case Activated(id) =>
        if before.Some? && before.value.lease.id == id then Some(before.value.(active := true)) else before
      case Applied(_, _, _) => before
      case Revoked | Withdrawn => None
  }

  /** An action may run under a grant: the live lease, active if it belongs to a runtime, started
      after the grant and before an expiry at most five seconds after it, within the lease's limits. */
  ghost predicate Permits(grant: Option<Grant>, lease: Lease, a: MotorAction, started: int) {
    && grant.Some? && grant.value.lease == lease
    && (lease.target.Instance? ==> grant.value.active)
    && grant.value.at <= started < lease.expires <= grant.value.at + MAX_TTL_NS
    && a.durationMs <= lease.maxDurationMs && Kinds(a) <= lease.allowed
  }

  ghost predicate LawfulAt(trace: seq<Event>, i: nat)
    requires i < |trace|
  {
    trace[i].Applied? ==> Permits(Authority(trace[..i]), trace[i].lease, trace[i].action, trace[i].started)
  }

  ghost predicate Lawful(trace: seq<Event>) { forall i: nat :: i < |trace| ==> LawfulAt(trace, i) }

  /** Sequences grow under one lease, across all of its activations and extensions. */
  ghost predicate InOrder(trace: seq<Event>) {
    forall i, j | 0 <= i < j < |trace| && trace[i].Applied? && trace[j].Applied? ::
      trace[i].lease.id == trace[j].lease.id ==> trace[i].action.sequence < trace[j].action.sequence
  }

  /** Every action ran lawfully and in order, under a lease issued in the past. */
  ghost predicate Recorded(g: Gate) {
    && Lawful(g.trace) && InOrder(g.trace)
    && forall i | 0 <= i < |g.trace| && g.trace[i].Applied? :: g.trace[i].lease.id < g.tick
  }

  /** No action ran under lease `id` beyond `frontier`. */
  ghost predicate Frontier(trace: seq<Event>, id: nat, frontier: int) {
    forall i | 0 <= i < |trace| && trace[i].Applied? ::
      trace[i].lease.id == id ==> trace[i].action.sequence <= frontier
  }

  /** The gate's lease is what the history grants, and its frontier covers what ran under it. */
  ghost predicate Granted(env: Env, g: Gate) {
    && (g.lease.None? <==> Authority(g.trace).None?)
    && (g.lease.Some? ==>
          var grant := Authority(g.trace).value;
          && grant.lease == g.lease.value && g.lease.value.id < g.tick
          && grant.at <= env.now(g.tick) && g.lease.value.expires <= grant.at + MAX_TTL_NS
          && Frontier(g.trace, g.lease.value.id, g.lastSequence))
  }

  ghost predicate Chronicled(env: Env, g: Gate) { Recorded(g) && Granted(env, g) }

  ghost predicate GateOk(env: Env, g: Gate) { Agreed(g) && Chronicled(env, g) }

  /** A runtime lease may act: it has been activated since it was issued. */
  ghost predicate Active(g: Gate) {
    g.lease.Some? && g.lease.value.target.Instance? ==>
      Authority(g.trace).Some? && Authority(g.trace).value.active
  }

  /** What any failing call leaves. */
  ghost predicate Fenced(env: Env, g: Gate) { GateOk(env, g) && g.lease.None? }

  // --- Small steps ---------------------------------------------------------------------------------

  lemma AuthorityAppends(trace: seq<Event>, e: Event)
    ensures (trace + [e])[..|trace|] == trace
    ensures Authority(trace + [e]) == Authority((trace + [e])[..|trace|]) || !e.Applied?
    ensures e.Applied? ==> Authority(trace + [e]) == Authority(trace)
    ensures e.Revoked? || e.Withdrawn? ==> Authority(trace + [e]).None?
    ensures e.Issued? ==> Authority(trace + [e]) == Some(Grant(e.lease, e.at, false))
    ensures e.Extended? && Authority(trace).Some? && Authority(trace).value.lease.id == e.lease.id ==>
              Authority(trace + [e]) == Some(Authority(trace).value.(lease := e.lease, at := e.at))
    ensures e.Activated? && Authority(trace).Some? && Authority(trace).value.lease.id == e.id ==>
              Authority(trace + [e]) == Some(Authority(trace).value.(active := true))
  {
    assert (trace + [e])[..|trace|] == trace;
  }

  lemma LawfulAppends(trace: seq<Event>, e: Event)
    requires Lawful(trace)
    requires e.Applied? ==> Permits(Authority(trace), e.lease, e.action, e.started)
    ensures Lawful(trace + [e])
  {
    var longer := trace + [e];
    forall i: nat | i < |longer|
      ensures LawfulAt(longer, i)
    {
      if i < |trace| {
        assert LawfulAt(trace, i);
        assert longer[..i] == trace[..i];
      } else {
        assert longer[..i] == trace;
      }
    }
  }

  /** Reading the clock or calling the backend only moves time on. */
  lemma TickChronicled(env: Env, g: Gate, g': Gate)
    requires Monotone(env) && Chronicled(env, g) && g.tick <= g'.tick
    requires g' == g.(tick := g'.tick, backend := g'.backend, reason := g'.reason)
    ensures Chronicled(env, g')
  {
    assert env.now(g.tick) <= env.now(g'.tick);
  }

  lemma RecordedAppends(g: Gate, e: Event)
    requires Recorded(g) && !e.Applied?
    ensures Recorded(Log(g, e))
  {
    LawfulAppends(g.trace, e);
  }

  /** Revoking fences the gate however its two backend calls end, and from whatever the gate was. */
  lemma RevokeFences(env: Env, g: Gate, reason: string)
    requires Recorded(g)
    ensures Fenced(env, Revoke(env, g, reason).state)
    ensures Revoke(env, g, reason).state.tick == g.tick + 2
    ensures Revoke(env, g, reason).error != Some(BadArgument)
  {
    hide Lawful, InOrder, Authority;
    RecordedAppends(g, Revoked);
    AuthorityAppends(g.trace, Revoked);
  }

  /** Both halves of a revocation are tried. An open backend that does what it is told ends neutral and
      unbound; clearing does not depend on the release; and the first failure is the one reported. */
  lemma RevokeTriesBoth(env: Env, g: Gate, reason: string)
    ensures var out := Revoke(env, g, reason);
            var release, clearing := env.fate(g.tick), env.fate(g.tick + 1);
            && (g.backend.open && release.Completes? && clearing.Completes? ==>
                  out.error.None? && out.state.backend.held == RELEASED && out.state.backend.neutral)
            && (clearing.Completes? ==> out.state.backend.bound.None?)
            && (g.backend.open && release.Raises? ==> out.error == Some(BackendFault(release.route)))
            && (g.backend.open && release.Completes? && clearing.Raises? ==>
                  out.error == Some(BackendFault(clearing.route)))
  {
  }

  // --- The gate's calls ----------------------------------------------------------------------------

  /** Bad arguments change nothing; a call that raises after they were accepted leaves no lease. */
  ghost predicate Kept(env: Env, valid: bool, g: Gate, out: Outcome<Gate>) {
    && GateOk(env, out.state)
    && (if !valid then out == Outcome(g, Some(BadArgument)) else out.error.Some? ==> out.state.lease.None?)
  }

  /** A grant of `lease` that an extension may prolong. */
  ghost predicate Extensible(g: Gate, lease: Lease) {
    && Authority(g.trace).Some? && Authority(g.trace).value.lease.id == lease.id
    && lease.id < g.tick && Frontier(g.trace, lease.id, g.lastSequence)
  }

  lemma ExtendKept(env: Env, g: Gate, lease: Lease, ttlMs: int, failure: string, reason: string)
    requires Monotone(env) && Recorded(g) && Extensible(g, lease) && ValidTtl(ttlMs)
    ensures var out := Extend(env, g, lease, ttlMs, failure, reason);
            && GateOk(env, out.state) && (out.error.Some? ==> out.state.lease.None?)
            && (out.error.None? ==>
                  && out.state.lease == Some(lease.(expires := out.state.lease.value.expires))
                  && Authority(out.state.trace).value.active == Authority(g.trace).value.active)
  {
    hide Lawful, InOrder, Authority, Revoke;
    var at := env.now(g.tick);
    assert at <= env.now(g.tick + 2);
    var renewed := lease.(expires := at + ttlMs * NS_PER_MS);
    var bound := BindLease(env.fate(g.tick + 1), g.backend, renewed);
    var after := g.(backend := bound.state, tick := g.tick + 2);
    if bound.error.Some? {
      RevokeFences(env, after, failure);
    } else {
      RecordedAppends(after, Extended(renewed, at));
      AuthorityAppends(g.trace, Extended(renewed, at));
    }
  }

  predicate IssueArguments(target: Target, ttlMs: int, maxMs: int, first: int) {
    target != Instance("") && ValidTtl(ttlMs) && 1 <= maxMs <= 1000 && 0 <= first
  }

  lemma IssueKept(env: Env, g: Gate, target: Target, ttlMs: int, allowed: set<ActionKind>, maxMs: int, first: int)
    requires Monotone(env) && GateOk(env, g)
    ensures var out := Issue(env, g, target, ttlMs, allowed, maxMs, first);
            && Kept(env, IssueArguments(target, ttlMs, maxMs, first), g, out)
            && (out.error.None? ==> out.state.lease.Some? && out.state.lease.value.target == target
                                    && !Authority(out.state.trace).value.active)
  {
    hide Lawful, Authority, Revoke;
    RevokeFences(env, g, "lease-issue");
    var r := Revoke(env, g, "lease-issue");
    if r.error.None? {
      var at := env.now(r.state.tick);
      assert at <= env.now(r.state.tick + 2);
      var lease := Lease(r.state.tick, target, at + ttlMs * NS_PER_MS, allowed, maxMs, first);
      var bound := BindLease(env.fate(r.state.tick + 1), r.state.backend, lease);
      var after := r.state.(backend := bound.state, tick := r.state.tick + 2);
      RecordedAppends(after, Issued(lease, at));
      AuthorityAppends(after.trace, Issued(lease, at));
      RevokeFences(env, after, "lease-issue-failed");
    }
  }

  lemma RequireKept(env: Env, g: Gate, id: nat)
    requires Monotone(env) && GateOk(env, g)
    ensures var out := RequireLease(env, g, id);
            && GateOk(env, out.state)
            && (if g.lease.Some? && g.lease.value.id == id then out == Outcome(g, None)
                else out.error == Some(Rejected) && out.state.lease.None?)
  {
    hide Lawful, InOrder, Authority, Revoke;
    RevokeFences(env, g, "invalid-or-missing-lease");
  }

  lemma RejectKept(env: Env, g: Gate, reason: string)
    requires Recorded(g)
    ensures var out := RevokeAndReject(env, g, reason); Fenced(env, out.state) && out.error.Some?
  {
    RevokeFences(env, g, reason);
  }

  lemma RenewKept(env: Env, g: Gate, id: nat, ttlMs: int)
    requires Monotone(env) && GateOk(env, g)
    ensures Kept(env, ValidTtl(ttlMs), g, Renew(env, g, id, ttlMs))
    ensures Active(g) ==> Active(Renew(env, g, id, ttlMs).state)
    ensures var s := Renew(env, g, id, ttlMs).state;
            s.lease.Some? ==> g.lease.Some? && s.lease.value.target == g.lease.value.target
    ensures Renew(env, g, id, ttlMs).error.None? ==> Renew(env, g, id, ttlMs).state.lease.Some?
  {
    hide Lawful, InOrder, Authority, Revoke, Extend, RequireLease, RevokeAndReject;
    RequireKept(env, g, id);
    if ValidTtl(ttlMs) && g.lease.Some? && g.lease.value.id == id {
      RejectKept(env, g.(tick := g.tick + 1), "heartbeat-expired");
      var unpublished := g.(tick := g.tick + 1, lease := None, reason := "lease-renewal");
      ExtendKept(env, unpublished, g.lease.value, ttlMs, "lease-renewal-failed", "active");
    }
  }

  /** Completing an action leaves a lawful, ordered history with the new frontier. */
  lemma AcceptRecorded(env: Env, g: Gate, a: MotorAction, b: Backend)
    requires Monotone(env) && Chronicled(env, g) && g.lease.Some? && Active(g)
    requires Refusal(g.lease.value, g.lastSequence, env.now(g.tick), a).None?
    ensures var next := Log(g.(backend := b, tick := g.tick + 2, lastSequence := a.sequence),
                            Applied(g.lease.value, a, env.now(g.tick)));
            && Chronicled(env, next) && Authority(next.trace) == Authority(g.trace)
            && Extensible(next, g.lease.value)
  {
    var e := Applied(g.lease.value, a, env.now(g.tick));
    assert env.now(g.tick) <= env.now(g.tick + 2);
    LawfulAppends(g.trace, e);
    AuthorityAppends(g.trace, e);
  }

  lemma ApplyKept(env: Env, g: Gate, id: nat, a: MotorAction, refreshMs: Option<int>)
    requires Monotone(env) && GateOk(env, g) && Active(g)
    ensures Kept(env, refreshMs.Some? ==> ValidTtl(refreshMs.value), g, Apply(env, g, id, a, refreshMs))
    ensures Active(Apply(env, g, id, a, refreshMs).state)
    ensures var s := Apply(env, g, id, a, refreshMs).state;
            s.lease.Some? ==> g.lease.Some? && s.lease.value.target == g.lease.value.target
  {
    hide Lawful, InOrder, Authority, Revoke, Extend, RequireLease, RevokeAndReject, Refusal;
    RequireKept(env, g, id);
    if g.lease.Some? && g.lease.value.id == id {
      var refusal := Refusal(g.lease.value, g.lastSequence, env.now(g.tick), a);
      RejectKept(env, g.(tick := g.tick + 1), if refusal.Some? then refusal.value else "");
      if refusal.None? {
        var done := ApplyAction(env.fate(g.tick + 1), g.backend, a);
        RevokeFences(env, g.(backend := done.state, tick := g.tick + 2), "backend-apply-failed");
        AcceptRecorded(env, g, a, done.state);
        if refreshMs.Some? && ValidTtl(refreshMs.value) {
          var accepted := Log(g.(backend := done.state, tick := g.tick + 2, lastSequence := a.sequence),
                              Applied(g.lease.value, a, env.now(g.tick)));
          ExtendKept(env, accepted, g.lease.value, refreshMs.value, "accepted-action-refresh-failed", g.reason);
        }
      }
    }
  }

  lemma ReleaseInputsKept(env: Env, g: Gate, id: nat, refreshMs: int)
    requires Monotone(env) && GateOk(env, g)
    ensures Kept(env, ValidTtl(refreshMs), g, ReleaseInputs(env, g, id, Some(refreshMs)))
    ensures Active(g) ==> Active(ReleaseInputs(env, g, id, Some(refreshMs)).state)
    ensures var s := ReleaseInputs(env, g, id, Some(refreshMs)).state;
            s.lease.Some? ==> g.lease.Some? && s.lease.value.target == g.lease.value.target
  {
    hide Lawful, InOrder, Authority, Revoke, Extend, RequireLease, RevokeAndReject;
    RequireKept(env, g, id);
    if g.lease.Some? && g.lease.value.id == id && ValidTtl(refreshMs) {
      RejectKept(env, g.(tick := g.tick + 1), "lease-expired");
      var done := ReleaseAll(env.fate(g.tick + 1), g.backend);
      var after := g.(backend := done.state, tick := g.tick + 2);
      RevokeFences(env, after, "input-release-failed");
      ExtendKept(env, after, g.lease.value, refreshMs, "accepted-release-refresh-failed", "active");
    }
  }

  /** Without a refresh, a release that a bridge swallows leaves the gate believing in a lease its
      closed backend no longer has: agreement survives exactly when the release was not swallowed. */
  lemma ReleaseWithoutRefresh(env: Env, g: Gate)
    requires Monotone(env) && GateOk(env, g) && g.lease.Some? && env.now(g.tick) < g.lease.value.expires
    requires !env.fate(g.tick + 1).Raises?
    ensures var out := ReleaseInputs(env, g, g.lease.value.id, None);
            out.error.None? && (Agreed(out.state) <==> !env.fate(g.tick + 1).Swallowed?)
  {
  }

  lemma CheckExpiryKept(env: Env, g: Gate)
    requires Monotone(env) && GateOk(env, g)
    ensures var x := CheckExpiry(env, g);
            && GateOk(env, x.outcome.state)
            && (x.expired || x.outcome.error.Some? ==> x.outcome.state.lease.None?)
            && (!x.expired ==> x.outcome.state.lease == g.lease && x.outcome.state.trace == g.trace)
  {
    hide Lawful, InOrder, Authority, Revoke;
    if g.lease.Some? {
      var read := g.(tick := g.tick + 1);
      TickChronicled(env, g, read);
      RevokeFences(env, read, "watchdog-expired");
    }
  }

  // --- Reading the monitor ---------------------------------------------------------------------------

  predicate Ends(e: Event) { e.Revoked? || e.Withdrawn? || e.Issued? }

  /** What a grant means: the lease was issued, and since then nothing has revoked or replaced it; an
      active grant was activated in between; and its current terms come from the last grant event. */
  ghost predicate Earned(trace: seq<Event>, grant: Grant, a: nat, g: nat) {
    && a <= g < |trace|
    && trace[a].Issued? && trace[a].lease.id == grant.lease.id
    && (forall k | a < k < |trace| :: !Ends(trace[k]))
    && (trace[g].Issued? || trace[g].Extended?) && trace[g].lease == grant.lease && trace[g].at == grant.at
    && (forall k | g < k < |trace| :: !trace[k].Extended?)
    && (grant.active ==> exists b | a < b < |trace| :: trace[b] == Activated(grant.lease.id))
  }

  lemma {:induction false} AuthorityIsEarned(trace: seq<Event>) returns (a: nat, g: nat)
    requires Authority(trace).Some?
    ensures Earned(trace, Authority(trace).value, a, g)
  {
    var n := |trace| - 1;
    var before, e := trace[..n], trace[n];
    if e.Issued? {
      a, g := n, n;
    } else {
      a, g := AuthorityIsEarned(before);
      if e.Extended? {
        g := n;
      } else if e.Activated? && Authority(before).value.lease.id == e.id {
        assert trace[n] == Activated(Authority(trace).value.lease.id);
      }
      if Authority(before).value.active {
        var b :| a < b < |before| && before[b] == Activated(Authority(before).value.lease.id);
        assert trace[b] == Activated(Authority(before).value.lease.id);
      }
    }
  }

  /** What a lawful, ordered history says of each action in it: its lease was issued at `a` and, if it is
      a runtime's, activated since; nothing revoked, withdrew or replaced it in between; it started before
      an expiry at most five seconds after the last grant `g`, within the lease's limits, and above every
      earlier sequence under that lease. */
  ghost predicate Authorized(trace: seq<Event>, i: nat, a: nat, g: nat)
    requires i < |trace| && trace[i].Applied?
  {
    var lease := trace[i].lease;
    && a <= g < i
    && trace[a].Issued? && trace[a].lease.id == lease.id
    && (forall k | a < k < i :: !Ends(trace[k]))
    && (lease.target.Instance? ==> exists b | a < b < i :: trace[b] == Activated(lease.id))
    && (trace[g].Issued? || trace[g].Extended?) && trace[g].lease == lease
    && trace[g].at <= trace[i].started < lease.expires <= trace[g].at + MAX_TTL_NS
    && trace[i].action.durationMs <= lease.maxDurationMs && Kinds(trace[i].action) <= lease.allowed
    && forall j | 0 <= j < i && trace[j].Applied? && trace[j].lease.id == lease.id ::
         trace[j].action.sequence < trace[i].action.sequence
  }

  lemma LawfulIsAuthorized(trace: seq<Event>, i: nat) returns (a: nat, g: nat)
    requires Lawful(trace) && InOrder(trace) && i < |trace| && trace[i].Applied?
    ensures Authorized(trace, i, a, g)
  {
    hide Authority;
    assert LawfulAt(trace, i);
    a, g := AuthorityIsEarned(trace[..i]);
    if trace[i].lease.target.Instance? {
      var b :| a < b < i && trace[..i][b] == Activated(trace[i].lease.id);
      assert trace[b] == Activated(trace[i].lease.id);
    }
  }
}
