/** Exactly when each gate call returns without an error, and what it leaves. */
module SafetyLaws {
  import opened Common
  import opened Motor
  import opened SafetyModel
  import opened SafetyFacts

  /** What an action needs to be allowed to do. */
  lemma KindsTold(a: MotorAction)
    ensures KeyboardInput in Kinds(a) <==> a.keysDown != {} || a.keysUp != {}
    ensures ButtonInput in Kinds(a) <==> a.buttonsDown != {} || a.buttonsUp != {}
    ensures MouseInput in Kinds(a) <==> a.dx != 0 || a.dy != 0 || a.cursor.Some?
  {
    assert a.keysDown + a.keysUp == {} <==> a.keysDown == {} && a.keysUp == {};
    assert a.buttonsDown + a.buttonsUp == {} <==> a.buttonsDown == {} && a.buttonsUp == {};
  }

  /** The action constructor admits exactly what these limits admit. */
  lemma LimitsTold(a: MotorAction)
    ensures Admissible(a) <==>
              && a.sequence > -1
              && |a.keysDown| < 17 && |a.keysUp| < 17 && |a.buttonsDown| < 17 && |a.buttonsUp| < 17
              && Abs(a.dx) <= 4096 && Abs(a.dy) <= 4096 && a.durationMs >= 0 && a.durationMs <= 1000
              && match a.cursor
                 case None => true
                 case Some(at) =>
                   && at.0 >= 0.0 && at.0 <= 1.0 && at.1 >= 0.0 && at.1 <= 1.0
                   && a.world == false && Abs(a.dx) + Abs(a.dy) == 0
    ensures forall kb: Keyboard :: Fits(kb) <==> |kb.keys| < 17 && |kb.buttons| < 17
  {
  }

  /** A token is down after an action if it was down or is pressed, and is not let go of. */
  lemma PressTold(kb: Keyboard, a: MotorAction, token: Token)
    ensures token in Press(kb, a).keys <==> (token in a.keysDown || token in kb.keys) && token !in a.keysUp
    ensures token in Press(kb, a).buttons <==> (token in a.buttonsDown || token in kb.buttons) && token !in a.buttonsUp
    ensures WorldPitch(a) != 0 <==> a.world && a.dy != 0
  {
  }

  /** A clock that never runs backwards, tick by tick. */
  lemma MonotoneTold(env: Env)
    ensures Monotone(env) <==> forall i: nat :: env.now(i) <= env.now(i + 1)
  {
    if forall i: nat :: env.now(i) <= env.now(i + 1) {
      forall i: nat, j: nat | i <= j
        ensures env.now(i) <= env.now(j)
      {
        NeverBackwards(env, i, j);
      }
    }
  }

  lemma {:induction false} NeverBackwards(env: Env, i: nat, j: nat)
    requires i <= j && forall k: nat :: env.now(k) <= env.now(k + 1)
    ensures env.now(i) <= env.now(j)
    decreases j
  {
    if i < j {
      NeverBackwards(env, i, j - 1);
      assert env.now(j - 1) <= env.now(j - 1 + 1);
    }
  }

  // --- The backend, field by field ----------------------------------------------------------------------

  /** Of what is held, what a call that does not complete leaves held. */
  function Left(held: Keyboard, kept: Keyboard): Keyboard {
    Keyboard(set k | k in held.keys && k in kept.keys, set k | k in held.buttons && k in kept.buttons)
  }

  lemma LeftIsPart(held: Keyboard, kept: Keyboard)
    ensures Left(held, kept) == Part(held, kept)
  {
    assert Left(held, kept).keys == held.keys * kept.keys && Left(held, kept).buttons == held.buttons * kept.buttons;
  }

  /** Binding never moves a key; it ends bound as offered, or as before or not at all when it raises. */
  lemma BindTold(fate: Fate, b: Backend, lease: Lease)
    ensures var out := BindLease(fate, b, lease);
            if !b.open then out == Outcome(b, Some(BackendFault(false)))
            else if !fate.Raises? then out == Outcome(Backend(Some(lease), b.held, true, b.neutral), None)
            else out == Outcome(
              Backend(if fate.binding.KeepsLease? then b.bound
                      else if fate.binding.DropsLease? then None else Some(lease),
                      Left(b.held, fate.kept), !fate.closes, b.neutral),
              Some(BackendFault(fate.route)))
  {
    if fate.Raises? {
      LeftIsPart(b.held, fate.kept);
    }
  }

  /** Only an open, bound backend acts; one that raises may have pressed some keys and let go of any. */
  lemma ActionTold(fate: Fate, b: Backend, a: MotorAction)
    ensures var out := ApplyAction(fate, b, a);
            if !b.open || b.bound.None? then out == Outcome(b, Some(BackendFault(false)))
            else if !fate.Raises? then out == Outcome(Backend(b.bound, Press(b.held, a), true, b.neutral), None)
            else out == Outcome(
              Backend(if fate.binding.DropsLease? then None else b.bound,
                      Left(Keyboard(b.held.keys + a.keysDown, b.held.buttons + a.buttonsDown), fate.kept),
                      !fate.closes, b.neutral),
              Some(BackendFault(fate.route)))
  {
    if fate.Raises? {
      LeftIsPart(Keyboard(b.held.keys + a.keysDown, b.held.buttons + a.buttonsDown), fate.kept);
    }
  }

  /** A release is confirmed exactly when an open backend completes it. */
  lemma ReleaseTold(fate: Fate, b: Backend)
    ensures var out := ReleaseAll(fate, b);
            if !b.open then out == Outcome(Backend(b.bound, b.held, false, false), None)
            else match fate
              case Completes => out == Outcome(Backend(b.bound, RELEASED, true, true), None)
              case Swallowed(kept) => out == Outcome(Backend(None, Left(b.held, kept), false, false), None)
              case Raises(route, kept, binding, closes) =>
                out == Outcome(Backend(if binding.DropsLease? then None else b.bound, Left(b.held, kept), !closes,
                                       false),
                               Some(BackendFault(route)))
  {
    if !fate.Completes? {
      LeftIsPart(b.held, fate.kept);
    }
  }

  /** Clearing ends unbound unless it raises and keeps the lease; it lets go of nothing unless it raises. */
  lemma ClearTold(fate: Fate, b: Backend)
    ensures var out := ClearLease(fate, b);
            if !b.open then out == Outcome(Backend(None, b.held, false, b.neutral), None)
            else match fate
              case Completes => out == Outcome(Backend(None, b.held, true, b.neutral), None)
              case Swallowed(_) => out == Outcome(Backend(None, b.held, false, b.neutral), None)
              case Raises(route, kept, binding, closes) =>
                out == Outcome(Backend(if binding.KeepsLease? then b.bound else None, Left(b.held, kept), !closes,
                                       b.neutral),
                               Some(BackendFault(route)))
  {
    if !fate.Completes? {
      LeftIsPart(b.held, fate.kept);
    }
  }

  /** A closed backend is unbound, unless closing raised. */
  lemma CloseTold(fate: Fate, b: Backend)
    ensures var out := CloseBackend(fate, b);
            match fate
            case Completes => out == Outcome(Backend(None, b.held, false, b.neutral), None)
            case Swallowed(kept) => out == Outcome(Backend(None, Left(b.held, kept), false, b.neutral), None)
            case Raises(route, kept, binding, closes) =>
              out == Outcome(Backend(if binding.KeepsLease? then b.bound else None, Left(b.held, kept),
                                     b.open && !closes, b.neutral),
                             Some(BackendFault(route)))
  {
    if !fate.Completes? {
      LeftIsPart(b.held, fate.kept);
    }
  }

  // --- Revoking -----------------------------------------------------------------------------------------

  /** A revocation drops the lease and says why; it releases and then clears, whatever the release does, and
      reports the first of the two that raised. Sequence numbers are not forgotten. */
  lemma RevokeTold(env: Env, g: Gate, reason: string)
    ensures var out := Revoke(env, g, reason);
            var released := ReleaseAll(env.fate(g.tick), g.backend);
            var cleared := ClearLease(env.fate(g.tick + 1), released.state);
            && out.state == Gate(None, g.lastSequence, reason, cleared.state, g.tick + 2, g.trace + [Revoked])
            && out.error == if released.error.Some? then released.error else cleared.error
    ensures RevokeAndReject(env, g, reason).state == Revoke(env, g, reason).state
    ensures var error := Revoke(env, g, reason).error;
            RevokeAndReject(env, g, reason).error == if error.None? then Some(Rejected) else error
  {
  }

  // --- Issuing and renewing -----------------------------------------------------------------------------

  /** The calls of an issue, at times `t`, `t + 1` and `t + 3`, that let it through. */
  predicate IssueGoesThrough(env: Env, t: nat, b: Backend) {
    b.open && env.fate(t).Completes? && env.fate(t + 1).Completes? && !env.fate(t + 3).Raises?
  }

  /** A lease as it was asked for, granted at the reading at time `t`. */
  function Granted(env: Env, t: nat, target: Target, ttlMs: int, allowed: set<ActionKind>, maxMs: int, first: int)
    : Lease
  {
    Lease(t, target, env.now(t) + ttlMs * 1_000_000, allowed, maxMs, first)
  }

  /** An issue returns exactly when its arguments are in range, the backend is open, releasing and clearing
      complete, and binding does not raise. The lease then carries the target, kinds, duration and first sequence
      that were asked for and expires one ttl after the reading at which it was granted; nothing is held; and any
      sequence from the first one on is acceptable. */
  lemma IssueTold(env: Env, g: Gate, target: Target, ttlMs: int, allowed: set<ActionKind>, maxMs: int, first: int)
    ensures var out := Issue(env, g, target, ttlMs, allowed, maxMs, first);
            var t := g.tick;
            && (out.error.None? <==>
                  && target != Instance("") && 50 <= ttlMs <= 5000 && 1 <= maxMs <= 1000 && 0 <= first
                  && IssueGoesThrough(env, t, g.backend))
            && (out.error.None? ==>
                  var lease := Granted(env, t + 2, target, ttlMs, allowed, maxMs, first);
                  out.state == Gate(Some(lease), first - 1, "active", Backend(Some(lease), RELEASED, true, true), t + 4,
                                    g.trace + [Revoked] + [Issued(lease, env.now(t + 2))]))
            && (out.error == Some(BadArgument) ==> out.state == g)
            && (out.error.Some? && out.error != Some(BadArgument) ==>
                  && out.state.lease.None? && out.state.lastSequence == g.lastSequence
                  && out.state.reason
                     == (if Revoke(env, g, "lease-issue").error.Some? then "lease-issue" else "lease-issue-failed"))
  {
  }

  /** An extension binds the same lease with a new expiry, one ttl after its own reading. */
  lemma ExtendTold(env: Env, g: Gate, lease: Lease, ttlMs: int, failure: string, reason: string)
    ensures var out := Extend(env, g, lease, ttlMs, failure, reason);
            var longer := Lease(lease.id, lease.target, env.now(g.tick) + ttlMs * 1_000_000, lease.allowed,
                                lease.maxDurationMs, lease.firstSequence);
            var bound := BindLease(env.fate(g.tick + 1), g.backend, longer);
            if g.backend.open && !env.fate(g.tick + 1).Raises? then
              out == Outcome(Gate(Some(longer), g.lastSequence, reason,
                                  Backend(Some(longer), g.backend.held, true, g.backend.neutral), g.tick + 2,
                                  g.trace + [Extended(longer, env.now(g.tick))]), None)
            else out == Outcome(Revoke(env, g.(backend := bound.state, tick := g.tick + 2), failure).state, bound.error)
  {
    hide Revoke;
  }

  /** A renewal returns exactly when the ttl is in range, the live lease is named before it expires, and the
      backend can be bound; anything else that gets past the arguments revokes, and says why. */
  lemma RenewTold(env: Env, g: Gate, id: nat, ttlMs: int)
    ensures var out := Renew(env, g, id, ttlMs);
            var named, t := g.lease.Some? && g.lease.value.id == id, g.tick;
            if ttlMs < 50 || ttlMs > 5000 then out == Outcome(g, Some(BadArgument))
            else if !named then
              out == Outcome(Revoke(env, g, "invalid-or-missing-lease").state, Some(Rejected))
            else if env.now(t) >= g.lease.value.expires then
              out == RevokeAndReject(env, g.(tick := t + 1), "heartbeat-expired")
            else
              out == Extend(env, Gate(None, g.lastSequence, "lease-renewal", g.backend, t + 1, g.trace), g.lease.value,
                            ttlMs, "lease-renewal-failed", "active")
  {
    hide Revoke, Extend, RevokeAndReject;
  }

  /** And then the lease is the same but for its expiry, one ttl after the reading at which it was renewed. */
  lemma RenewReturns(env: Env, g: Gate, id: nat, ttlMs: int)
    ensures var out, t := Renew(env, g, id, ttlMs), g.tick;
            && (out.error.None? <==>
                  && 50 <= ttlMs <= 5000 && g.lease.Some? && g.lease.value.id == id
                  && env.now(t) < g.lease.value.expires
                  && g.backend.open && !env.fate(t + 2).Raises?)
            && (out.error.None? ==>
                  var longer := g.lease.value.(expires := env.now(t + 1) + ttlMs * 1_000_000);
                  out.state == Gate(Some(longer), g.lastSequence, "active", g.backend.(bound := Some(longer)), t + 3,
                                    g.trace + [Extended(longer, env.now(t + 1))]))
  {
    hide Revoke, Extend, RevokeAndReject, BindLease;
    RenewTold(env, g, id, ttlMs);
    if g.lease.Some? {
      ExtendTold(env, Gate(None, g.lastSequence, "lease-renewal", g.backend, g.tick + 1, g.trace), g.lease.value, ttlMs,
                 "lease-renewal-failed", "active");
      BindTold(env.fate(g.tick + 2), g.backend, g.lease.value.(expires := env.now(g.tick + 1) + ttlMs * 1_000_000));
      RejectTold(env, g.(tick := g.tick + 1), "heartbeat-expired");
    }
  }

  lemma RejectTold(env: Env, g: Gate, reason: string)
    ensures RevokeAndReject(env, g, reason).error.Some?
  {
  }

  // --- Acting -------------------------------------------------------------------------------------------

  /** Under the live lease: named, before it expires, with a new sequence number, no longer than it may take, and
      of the kinds that were asked for. */
  predicate InOrderUnder(env: Env, g: Gate, id: nat, a: MotorAction) {
    && g.lease.Some? && g.lease.value.id == id && env.now(g.tick) < g.lease.value.expires
    && g.lastSequence < a.sequence && a.durationMs <= g.lease.value.maxDurationMs
    && (forall kind :: kind in Kinds(a) ==> kind in g.lease.value.allowed)
  }

  /** An action is accepted, and the call returns, exactly when it is in order under the live lease and the backend
      is open and bound, acts, and takes the refreshed lease. Then exactly its presses and releases are made, its
      sequence number is used, and the lease expires one refresh after the reading at which it was refreshed. */
  lemma ApplyReturns(env: Env, g: Gate, id: nat, a: MotorAction, refreshMs: Option<int>)
    ensures var out, t := Apply(env, g, id, a, refreshMs), g.tick;
            && (out.error.None? <==>
                  && (refreshMs.Some? ==> 50 <= refreshMs.value && refreshMs.value <= 5000)
                  && InOrderUnder(env, g, id, a)
                  && g.backend.open && g.backend.bound.Some? && !env.fate(t + 1).Raises?
                  && (refreshMs.Some? ==> !env.fate(t + 3).Raises?))
            && (out.error.None? ==>
                  var lease := g.lease.value;
                  var acted := Gate(g.lease, a.sequence, g.reason,
                                    Backend(g.backend.bound, Press(g.backend.held, a), true, g.backend.neutral), t + 2,
                                    g.trace + [Applied(lease, a, env.now(t))]);
                  out.state
                  == if refreshMs.None? then acted
                     else
                       var longer := lease.(expires := env.now(t + 2) + refreshMs.value * 1_000_000);
                       Gate(Some(longer), a.sequence, g.reason,
                            Backend(Some(longer), Press(g.backend.held, a), true, g.backend.neutral), t + 4,
                            acted.trace + [Extended(longer, env.now(t + 2))]))
  {
    hide Revoke, Extend, RevokeAndReject, ApplyAction, Press;
    if g.lease.Some? && g.lease.value.id == id {
      ActionTold(env.fate(g.tick + 1), g.backend, a);
      ApplyRefuses(env, g, a);
      if refreshMs.Some? {
        var done := ApplyAction(env.fate(g.tick + 1), g.backend, a);
        var accepted := Log(g.(backend := done.state, tick := g.tick + 2, lastSequence := a.sequence),
                            Applied(g.lease.value, a, env.now(g.tick)));
        ExtendTold(env, accepted, g.lease.value, refreshMs.value, "accepted-action-refresh-failed", g.reason);
        BindTold(env.fate(g.tick + 3), done.state,
                 g.lease.value.(expires := env.now(g.tick + 2) + refreshMs.value * 1_000_000));
      }
      var refusal := Refusal(g.lease.value, g.lastSequence, env.now(g.tick), a);
      RejectTold(env, g.(tick := g.tick + 1), if refusal.Some? then refusal.value else "");
    }
  }

  lemma ApplyRefuses(env: Env, g: Gate, a: MotorAction)
    requires g.lease.Some?
    ensures Refusal(g.lease.value, g.lastSequence, env.now(g.tick), a).None?
            <==> InOrderUnder(env, g, g.lease.value.id, a)
  {
  }

  /** What is refused, and why: the first reason that applies is the one the revocation gives. */
  lemma ApplyRefused(env: Env, g: Gate, id: nat, a: MotorAction, refreshMs: Option<int>)
    requires refreshMs.Some? ==> 50 <= refreshMs.value && refreshMs.value <= 5000
    requires g.lease.Some? && g.lease.value.id == id && !InOrderUnder(env, g, id, a)
    ensures var lease, now := g.lease.value, env.now(g.tick);
            Apply(env, g, id, a, refreshMs)
            == RevokeAndReject(env, g.(tick := g.tick + 1),
                 if now >= lease.expires then "lease-expired"
                 else if g.lastSequence >= a.sequence then "replay-or-out-of-order-action"
                 else if lease.maxDurationMs < a.durationMs then "action-duration-limit"
                 else "action-not-allowed")
  {
    hide RevokeAndReject, Extend;
  }

  /** Every other way a call ends early: bad arguments change nothing, another lease or a failing backend revokes. */
  lemma ApplyFails(env: Env, g: Gate, id: nat, a: MotorAction, refreshMs: Option<int>)
    ensures var out, t := Apply(env, g, id, a, refreshMs), g.tick;
            && (refreshMs.Some? && (refreshMs.value < 50 || refreshMs.value > 5000) ==>
                  out == Outcome(g, Some(BadArgument)))
            && ((refreshMs.Some? ==> 50 <= refreshMs.value && refreshMs.value <= 5000) ==>
                  var done := ApplyAction(env.fate(t + 1), g.backend, a);
                  if g.lease.None? || g.lease.value.id != id then
                    out == Outcome(Revoke(env, g, "invalid-or-missing-lease").state, Some(Rejected))
                  else if InOrderUnder(env, g, id, a) && done.error.Some? then
                    out == Outcome(Revoke(env, g.(backend := done.state, tick := t + 2), "backend-apply-failed").state,
                                   done.error)
                  else true)
  {
    hide Revoke, Extend, RevokeAndReject, ApplyAction;
    if g.lease.Some? {
      ApplyRefuses(env, g, a);
    }
  }

  /** A release returns exactly when the live lease is named before it expires and the release does not raise on an
      open backend; with a refresh, the backend must also take the lease, so a swallowed release does not do. */
  lemma ReleaseReturns(env: Env, g: Gate, id: nat, refreshMs: Option<int>)
    ensures var out, t := ReleaseInputs(env, g, id, refreshMs), g.tick;
            var released := ReleaseAll(env.fate(t + 1), g.backend).state;
            && (out.error.None? <==>
                  && (refreshMs.Some? ==> 50 <= refreshMs.value && refreshMs.value <= 5000)
                  && g.lease.Some? && g.lease.value.id == id && env.now(t) < g.lease.value.expires
                  && (g.backend.open ==> !env.fate(t + 1).Raises?)
                  && (refreshMs.Some? ==>
                        g.backend.open && env.fate(t + 1).Completes? && !env.fate(t + 3).Raises?))
            && (out.error.None? ==>
                  out.state
                  == if refreshMs.None? then g.(backend := released, tick := t + 2)
                     else
                       var longer := g.lease.value.(expires := env.now(t + 2) + refreshMs.value * 1_000_000);
                       Gate(Some(longer), g.lastSequence, "active", Backend(Some(longer), RELEASED, true, true), t + 4,
                            g.trace + [Extended(longer, env.now(t + 2))]))
  {
    hide Revoke, Extend, RevokeAndReject, ReleaseAll;
    if g.lease.Some? && g.lease.value.id == id {
      RejectTold(env, g.(tick := g.tick + 1), "lease-expired");
      ReleaseTold(env.fate(g.tick + 1), g.backend);
      if refreshMs.Some? {
        var done := ReleaseAll(env.fate(g.tick + 1), g.backend);
        var after := g.(backend := done.state, tick := g.tick + 2);
        ExtendTold(env, after, g.lease.value, refreshMs.value, "accepted-release-refresh-failed", "active");
        BindTold(env.fate(g.tick + 3), done.state,
                 g.lease.value.(expires := env.now(g.tick + 2) + refreshMs.value * 1_000_000));
      }
    }
  }

  /** How a release fails, and the reason its revocation gives. */
  lemma ReleaseFails(env: Env, g: Gate, id: nat, refreshMs: Option<int>)
    requires refreshMs.Some? ==> 50 <= refreshMs.value && refreshMs.value <= 5000
    ensures var out, t := ReleaseInputs(env, g, id, refreshMs), g.tick;
            var done := ReleaseAll(env.fate(t + 1), g.backend);
            if g.lease.None? || g.lease.value.id != id then
              out == Outcome(Revoke(env, g, "invalid-or-missing-lease").state, Some(Rejected))
            else if env.now(t) >= g.lease.value.expires then
              out == RevokeAndReject(env, g.(tick := t + 1), "lease-expired")
            else if done.error.Some? then
              out == Outcome(Revoke(env, g.(backend := done.state, tick := t + 2), "input-release-failed").state,
                             done.error)
            else
              refreshMs.Some? ==>
                out == Extend(env, g.(backend := done.state, tick := t + 2), g.lease.value, refreshMs.value,
                              "accepted-release-refresh-failed", "active")
  {
    hide Revoke, Extend, RevokeAndReject, ReleaseAll;
  }

  /** The watchdog revokes exactly a live lease whose time is over; otherwise it has read the clock, if that. */
  lemma ExpiryTold(env: Env, g: Gate)
    ensures var x := CheckExpiry(env, g);
            && (x.expired <==> g.lease.Some? && env.now(g.tick) >= g.lease.value.expires)
            && x.outcome == if x.expired then Revoke(env, g.(tick := g.tick + 1), "watchdog-expired")
                            else Outcome(g.(tick := g.tick + (if g.lease.Some? then 1 else 0)), None)
  {
    hide Revoke;
  }
}
