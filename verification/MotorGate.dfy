/** The gate and its backend as the objects they are, each method equal to its specification in
    SafetyModel. An error that Python would raise is returned. */
module MotorGate {
  import opened Common
  import opened Motor
  import opened SafetyModel
  import Spec = SafetyModel

  /** The environment: a clock, two operator latches and the fate of calls that leave the process. */
  class Host {
    const env: Env
    var tick: nat

    constructor (env: Env)
      ensures this.env == env && tick == 0
    {
      this.env, tick := env, 0;
    }

    method Now() returns (now: int)
      modifies this
      ensures tick == old(tick) + 1 && now == env.now(old(tick))
    {
      now := env.now(tick);
      tick := tick + 1;
    }

    method EmergencyStopLatched() returns (latched: bool)
      modifies this
      ensures tick == old(tick) + 1 && latched == env.emergency(old(tick))
    {
      latched := env.emergency(tick);
      tick := tick + 1;
    }

    method OperatorPauseLatched() returns (latched: bool)
      modifies this
      ensures tick == old(tick) + 1 && latched == env.paused(old(tick))
    {
      latched := env.paused(tick);
      tick := tick + 1;
    }

    method Call() returns (fate: Fate)
      modifies this
      ensures tick == old(tick) + 1 && fate == env.fate(old(tick))
    {
      fate := env.fate(tick);
      tick := tick + 1;
    }
  }

  class InputBackend {
    const host: Host
    var heldKeys: set<Token>
    var heldButtons: set<Token>
    var boundLease: Option<Lease>
    var open: bool
    ghost var neutral: bool

    ghost function View(): Backend
      reads this
    {
      Backend(boundLease, Keyboard(heldKeys, heldButtons), open, neutral)
    }

    constructor (host: Host)
      ensures this.host == host && View() == NEW_BACKEND
    {
      this.host, heldKeys, heldButtons, boundLease, open, neutral := host, {}, {}, None, true, true;
    }

    // A call that raises leaves some of what could be held, and any of three bindings.
    method Abandon(fate: Fate, mostKeys: set<Token>, mostButtons: set<Token>, offered: Option<Lease>)
      requires fate.Raises?
      modifies this
      ensures View() == Failed(old(View()), fate, Keyboard(mostKeys, mostButtons), offered).state
    {
      heldKeys, heldButtons := mostKeys * fate.kept.keys, mostButtons * fate.kept.buttons;
      boundLease := Rebound(boundLease, offered, fate.binding);
      open := open && !fate.closes;
    }

    method BindLease(lease: Lease) returns (error: Option<Error>)
      modifies this, host
      ensures host.tick == old(host.tick) + 1
      ensures Outcome(View(), error) == Spec.BindLease(host.env.fate(old(host.tick)), old(View()), lease)
    {
      var fate := host.Call();
      if !open {
        return Some(BackendFault(false));
      }
      if fate.Raises? {
        Abandon(fate, heldKeys, heldButtons, Some(lease));
        return Some(BackendFault(fate.route));
      }
      boundLease := Some(lease);
      return None;
    }

    method Apply(action: MotorAction) returns (error: Option<Error>)
      modifies this, host
      ensures host.tick == old(host.tick) + 1
      ensures Outcome(View(), error) == Spec.ApplyAction(host.env.fate(old(host.tick)), old(View()), action)
    {
      var fate := host.Call();
      if !open || boundLease.None? {
        return Some(BackendFault(false));
      }
      if fate.Raises? {
        Abandon(fate, heldKeys + action.keysDown, heldButtons + action.buttonsDown, boundLease);
        return Some(BackendFault(fate.route));
      }
      heldKeys := heldKeys + action.keysDown;
      heldKeys := heldKeys - action.keysUp;
      heldButtons := heldButtons + action.buttonsDown;
      heldButtons := heldButtons - action.buttonsUp;
      return None;
    }

    method ReleaseAll() returns (error: Option<Error>)
      modifies this, host
      ensures host.tick == old(host.tick) + 1
      ensures Outcome(View(), error) == Spec.ReleaseAll(host.env.fate(old(host.tick)), old(View()))
    {
      var fate := host.Call();
      neutral := false;
      if !open {
        return None;
      }
      match fate
      case Completes =>
        heldKeys, heldButtons, neutral := {}, {}, true;
        error := None;
      case Swallowed(kept) =>
        heldKeys, heldButtons := heldKeys * kept.keys, heldButtons * kept.buttons;
        open, boundLease := false, None;
        error := None;
      case Raises(route, _, _, _) =>
        Abandon(fate, heldKeys, heldButtons, boundLease);
        error := Some(BackendFault(route));
    }

    method ClearLease() returns (error: Option<Error>)
      modifies this, host
      ensures host.tick == old(host.tick) + 1
      ensures Outcome(View(), error) == Spec.ClearLease(host.env.fate(old(host.tick)), old(View()))
    {
      var fate := host.Call();
      error := None;
      if !open || fate.Completes? {
        boundLease := None;
      } else if fate.Swallowed? {
        boundLease, open := None, false;
      } else {
        Abandon(fate, heldKeys, heldButtons, None);
        error := Some(BackendFault(fate.route));
      }
    }

    // Typing presses and releases keys itself; if it raises, any of them may still be held.
    method TypeChat() returns (error: Option<Error>)
      modifies this, host
      ensures host.tick == old(host.tick) + 1
      ensures var fate := host.env.fate(old(host.tick));
              && View() == old(View()).(held := if fate.Raises? then fate.kept else old(View()).held)
              && error == if fate.Raises? then Some(BackendFault(fate.route)) else None
    {
      var fate := host.Call();
      if fate.Raises? {
        heldKeys, heldButtons := fate.kept.keys, fate.kept.buttons;
        return Some(BackendFault(fate.route));
      }
      return None;
    }

    method Close() returns (error: Option<Error>)
      modifies this, host
      ensures host.tick == old(host.tick) + 1
      ensures Outcome(View(), error) == CloseBackend(host.env.fate(old(host.tick)), old(View()))
    {
      var fate := host.Call();
      match fate
      case Completes =>
        open, boundLease := false, None;
        error := None;
      case Swallowed(kept) =>
        heldKeys, heldButtons := heldKeys * kept.keys, heldButtons * kept.buttons;
        open, boundLease := false, None;
        error := None;
      case Raises(route, _, _, _) =>
        Abandon(fate, heldKeys, heldButtons, None);
        error := Some(BackendFault(route));
    }
  }

  class MotorGate {
    const backend: InputBackend
    var lease: Option<Lease>
    var lastSequence: int
    var revocationReason: string
    ghost var trace: seq<Event>

    ghost function View(): Gate
      reads this, backend, backend.host
    {
      Gate(lease, lastSequence, revocationReason, backend.View(), backend.host.tick, trace)
    }

    constructor (backend: InputBackend, ghost trace: seq<Event>)
      ensures this.backend == backend && this.trace == trace
      ensures lease == None && lastSequence == -1 && revocationReason == "not-issued"
    {
      this.backend, this.trace := backend, trace;
      lease, lastSequence, revocationReason := None, -1, "not-issued";
    }

    method Revoke(reason: string) returns (error: Option<Error>)
      modifies this, backend, backend.host
      ensures Outcome(View(), error) == Spec.Revoke(backend.host.env, old(View()), reason)
    {
      hide Spec.ReleaseAll, Spec.ClearLease;
      lease := None;
      revocationReason := reason;
      error := backend.ReleaseAll();
      var clearError := backend.ClearLease();
      if error.None? {
        error := clearError;
      }
      trace := trace + [Revoked];
    }

    // The original failure survives any failure of the cleanup.
    method RevokeAfterFailure(reason: string, error: Error) returns (kept: Option<Error>)
      modifies this, backend, backend.host
      ensures Outcome(View(), kept) == RevokeAfter(backend.host.env, old(View()), reason, error)
    {
      hide Spec.Revoke;
      var _ := Revoke(reason);
      return Some(error);
    }

    method RevokeAndReject(reason: string) returns (error: Option<Error>)
      modifies this, backend, backend.host
      ensures Outcome(View(), error) == Spec.RevokeAndReject(backend.host.env, old(View()), reason)
    {
      hide Spec.Revoke;
      error := Revoke(reason);
      if error.None? {
        error := Some(Rejected);
      }
    }

    method RequireLease(id: nat) returns (error: Option<Error>)
      modifies this, backend, backend.host
      ensures Outcome(View(), error) == Spec.RequireLease(backend.host.env, old(View()), id)
      ensures error.None? <==> old(lease).Some? && old(lease).value.id == id
    {
      hide Spec.Revoke;
      if lease.None? || lease.value.id != id {
        error := RevokeAfterFailure("invalid-or-missing-lease", Rejected);
      } else {
        error := None;
      }
    }

    // Bind the lease with a new expiry, and publish it only once the backend has accepted it.
    method Extend(current: Lease, ttlMs: int, failure: string, reason: string) returns (error: Option<Error>)
      modifies this, backend, backend.host
      ensures Outcome(View(), error)
              == Spec.Extend(backend.host.env, old(View()), current, ttlMs, failure, reason)
    {
      hide RevokeAfter, Spec.BindLease;
      var now := backend.host.Now();
      var renewed := current.(expires := now + ttlMs * NS_PER_MS);
      error := backend.BindLease(renewed);
      if error.Some? {
        error := RevokeAfterFailure(failure, error.value);
        return;
      }
      lease := Some(renewed);
      revocationReason := reason;
      trace := trace + [Extended(renewed, now)];
    }

    method Issue(target: Target, ttlMs: int, allowed: set<ActionKind>, maxDurationMs: int, firstSequence: int)
      returns (error: Option<Error>)
      modifies this, backend, backend.host
      ensures Outcome(View(), error)
              == Spec.Issue(backend.host.env, old(View()), target, ttlMs, allowed, maxDurationMs, firstSequence)
    {
      hide RevokeAfter, Spec.Revoke, Spec.BindLease;
      if target == Instance("") || ttlMs < MIN_TTL_MS || MAX_TTL_MS < ttlMs {
        return Some(BadArgument);
      }
      if maxDurationMs < 1 || 1000 < maxDurationMs || firstSequence < 0 {
        return Some(BadArgument);
      }
      error := Revoke("lease-issue");
      if error.Some? {
        return;
      }
      // The moment of issue stands for the random identity: no two leases share it.
      var id := backend.host.tick;
      var now := backend.host.Now();
      var issued := Lease(id, target, now + ttlMs * NS_PER_MS, allowed, maxDurationMs, firstSequence);
      error := backend.BindLease(issued);
      if error.Some? {
        error := RevokeAfterFailure("lease-issue-failed", error.value);
        return;
      }
      lease := Some(issued);
      lastSequence := firstSequence - 1;
      revocationReason := "active";
      trace := trace + [Issued(issued, now)];
    }

    method Renew(id: nat, ttlMs: int) returns (error: Option<Error>)
      modifies this, backend, backend.host
      ensures Outcome(View(), error) == Spec.Renew(backend.host.env, old(View()), id, ttlMs)
    {
      hide Spec.RevokeAndReject, RevokeAfter, Spec.Extend;
      if !ValidTtl(ttlMs) {
        return Some(BadArgument);
      }
      error := RequireLease(id);
      if error.Some? {
        return;
      }
      var current := lease.value;
      var now := backend.host.Now();
      if now >= current.expires {
        error := RevokeAndReject("heartbeat-expired");
        return;
      }
      lease := None;
      revocationReason := "lease-renewal";
      error := Extend(current, ttlMs, "lease-renewal-failed", "active");
    }

    method Apply(id: nat, action: MotorAction, refreshMs: Option<int>) returns (error: Option<Error>)
      modifies this, backend, backend.host
      ensures Outcome(View(), error) == Spec.Apply(backend.host.env, old(View()), id, action, refreshMs)
    {
      hide Spec.RevokeAndReject, RevokeAfter, Spec.Extend, Spec.ApplyAction;
      if refreshMs.Some? && !ValidTtl(refreshMs.value) {
        return Some(BadArgument);
      }
      error := RequireLease(id);
      if error.Some? {
        return;
      }
      var current := lease.value;
      var started := backend.host.Now();
      if started >= current.expires {
        error := RevokeAndReject("lease-expired");
        return;
      }
      if action.sequence <= lastSequence {
        error := RevokeAndReject("replay-or-out-of-order-action");
        return;
      }
      if action.durationMs > current.maxDurationMs {
        error := RevokeAndReject("action-duration-limit");
        return;
      }
      if !(Kinds(action) <= current.allowed) {
        error := RevokeAndReject("action-not-allowed");
        return;
      }
      error := backend.Apply(action);
      if error.Some? {
        error := RevokeAfterFailure("backend-apply-failed", error.value);
        return;
      }
      lastSequence := action.sequence;
      trace := trace + [Applied(current, action, started)];
      if refreshMs.Some? {
        error := Extend(current, refreshMs.value, "accepted-action-refresh-failed", revocationReason);
      }
    }

    method ReleaseInputs(id: nat, refreshMs: Option<int>) returns (error: Option<Error>)
      modifies this, backend, backend.host
      ensures Outcome(View(), error) == Spec.ReleaseInputs(backend.host.env, old(View()), id, refreshMs)
    {
      hide Spec.RevokeAndReject, RevokeAfter, Spec.Extend, Spec.ReleaseAll;
      if refreshMs.Some? && !ValidTtl(refreshMs.value) {
        return Some(BadArgument);
      }
      error := RequireLease(id);
      if error.Some? {
        return;
      }
      var current := lease.value;
      var now := backend.host.Now();
      if now >= current.expires {
        error := RevokeAndReject("lease-expired");
        return;
      }
      error := backend.ReleaseAll();
      if error.Some? {
        error := RevokeAfterFailure("input-release-failed", error.value);
        return;
      }
      if refreshMs.Some? {
        error := Extend(current, refreshMs.value, "accepted-release-refresh-failed", "active");
      }
    }

    method CheckExpiry() returns (expired: bool, error: Option<Error>)
      modifies this, backend, backend.host
      ensures Expiry(Outcome(View(), error), expired) == Spec.CheckExpiry(backend.host.env, old(View()))
    {
      hide Spec.Revoke;
      expired, error := false, None;
      if lease.None? {
        return;
      }
      var now := backend.host.Now();
      if now >= lease.value.expires {
        error := Revoke("watchdog-expired");
        expired := true;
      }
    }
  }
}
