/** Value-level specification of the motor gate and the backend behind it (safety.py, bridge/client.py).

    The environment is an oracle read once per tick: the clock, the two operator latches, and what
    each backend call does. Quantifying over oracles quantifies over every way the environment can
    behave, including calls that fail half-way and cleanups that fail again. */
module SafetyModel {
  import opened Common
  import opened Motor

  const MIN_TTL_MS := 50
  const MAX_TTL_MS := 5000
  const NS_PER_MS := 1_000_000

  // An instance lease belongs to a runtime; the other two are private to one camera transaction.
  datatype Target = Instance(name: string) | CameraCalibration | CameraProbe

  datatype Lease = Lease(
    id: nat,
    target: Target,
    expires: int,
    allowed: set<ActionKind>,
    maxDurationMs: int,
    firstSequence: int)

  datatype Binding = KeepsLease | TakesLease | DropsLease

  // A call completes; or a bridge loses its connection in it and says nothing; or it raises, with
  // only part of its effect done. `kept` is what stays held of the tokens that could stay held.
  datatype Fate =
    | Completes
    | Swallowed(kept: Keyboard)
    | Raises(route: bool, kept: Keyboard, binding: Binding, closes: bool)

  datatype Env = Env(now: nat -> int, emergency: nat -> bool, paused: nat -> bool, fate: nat -> Fate)

  ghost predicate Monotone(env: Env) { forall i: nat, j: nat :: i <= j ==> env.now(i) <= env.now(j) }

  datatype Error =
    | BadArgument | Rejected | BackendFault(route: bool) | Interlock | WrongState | PersistFault | CleanupFault

  datatype Outcome<+S> = Outcome(state: S, error: Option<Error>)

  // --- The backend -----------------------------------------------------------------------------

  datatype Backend = Backend(
    bound: Option<Lease>,
    held: Keyboard,
    open: bool,
    neutral: bool)  // the last release of all inputs was confirmed

  const NEW_BACKEND := Backend(None, RELEASED, true, true)

  function Part(k: Keyboard, kept: Keyboard): Keyboard {
    Keyboard(k.keys * kept.keys, k.buttons * kept.buttons)
  }

  function Rebound(before: Option<Lease>, offered: Option<Lease>, binding: Binding): Option<Lease> {
    match binding case KeepsLease => before case TakesLease => offered case DropsLease => None
  }

  function Failed(b: Backend, fate: Fate, most: Keyboard, offered: Option<Lease>): Outcome<Backend>
    requires fate.Raises?
  {
    Outcome(b.(bound := Rebound(b.bound, offered, fate.binding), held := Part(most, fate.kept),
               open := b.open && !fate.closes),
            Some(BackendFault(fate.route)))
  }

  function BindLease(fate: Fate, b: Backend, lease: Lease): Outcome<Backend> {
    if !b.open then Outcome(b, Some(BackendFault(false)))
    else if fate.Raises? then Failed(b, fate, b.held, Some(lease))
    else Outcome(b.(bound := Some(lease)), None)
  }

  function ApplyAction(fate: Fate, b: Backend, a: MotorAction): Outcome<Backend> {
    if !b.open || b.bound.None? then Outcome(b, Some(BackendFault(false)))
    else if fate.Raises?
    then Failed(b, fate, Keyboard(b.held.keys + a.keysDown, b.held.buttons + a.buttonsDown), b.bound)
    else Outcome(b.(held := Press(b.held, a)), None)
  }

  function ReleaseAll(fate: Fate, b: Backend): Outcome<Backend> {
    if !b.open then Outcome(b.(neutral := false), None)
    else match fate
      case Completes => Outcome(b.(held := RELEASED, neutral := true), None)
      case Swallowed(kept) =>
        Outcome(b.(held := Part(b.held, kept), neutral := false, open := false, bound := None), None)
      case Raises(_, _, _, _) =>
        var r := Failed(b, fate, b.held, b.bound);
        r.(state := r.state.(neutral := false))
  }

  function ClearLease(fate: Fate, b: Backend): Outcome<Backend> {
    if !b.open then Outcome(b.(bound := None), None)
    else match fate
      case Completes => Outcome(b.(bound := None), None)
      case Swallowed(_) => Outcome(b.(bound := None, open := false), None)
      case Raises(_, _, _, _) => Failed(b, fate, b.held, None)
  }

  /** Closing releases what it can, and may raise on the way. */
  function CloseBackend(fate: Fate, b: Backend): Outcome<Backend> {
    match fate
    case Completes => Outcome(b.(bound := None, open := false), None)
    case Swallowed(kept) => Outcome(b.(bound := None, open := false, held := Part(b.held, kept)), None)
    case Raises(_, _, _, _) => Failed(b, fate, b.held, None)
  }

  // --- The gate --------------------------------------------------------------------------------

  // The history of authority: what was granted and when, what ended it, and what acted under it.
  datatype Event =
    | Issued(lease: Lease, at: int)
    | Extended(lease: Lease, at: int)
    | Activated(id: nat)
    | Applied(lease: Lease, action: MotorAction, started: int)
    | Revoked
    | Withdrawn  // a pause, disarm, failure or stop, whether or not a lease was live

  datatype Gate = Gate(
    lease: Option<Lease>,
    lastSequence: int,
    reason: string,
    backend: Backend,
    tick: nat,
    trace: seq<Event>)

  function Log(g: Gate, e: Event): Gate { g.(trace := g.trace + [e]) }

  function ValidTtl(ttlMs: int): bool { MIN_TTL_MS <= ttlMs <= MAX_TTL_MS }

  /** Drop the lease first, then release, then clear; clearing is tried even if releasing raised. */
  function Revoke(env: Env, g: Gate, reason: string): Outcome<Gate> {
    var released := ReleaseAll(env.fate(g.tick), g.backend);
    var cleared := ClearLease(env.fate(g.tick + 1), released.state);
    Outcome(Log(g.(lease := None, reason := reason, backend := cleared.state, tick := g.tick + 2), Revoked),
            if released.error.Some? then released.error else cleared.error)
  }

  /** Revoke because of `error`, which survives any failure of the cleanup. */
  function RevokeAfter(env: Env, g: Gate, reason: string, error: Error): Outcome<Gate> {
    Outcome(Revoke(env, g, reason).state, Some(error))
  }

  /** Revoke and then reject, unless the cleanup raises first. */
  function RevokeAndReject(env: Env, g: Gate, reason: string): Outcome<Gate> {
    var r := Revoke(env, g, reason);
    Outcome(r.state, if r.error.Some? then r.error else Some(Rejected))
  }

  /** Bind `lease` with a new expiry, and publish it only once the backend has accepted it. */
  function Extend(env: Env, g: Gate, lease: Lease, ttlMs: int, failure: string, reason: string): Outcome<Gate> {
    var at := env.now(g.tick);
    var renewed := lease.(expires := at + ttlMs * NS_PER_MS);
    var bound := BindLease(env.fate(g.tick + 1), g.backend, renewed);
    var after := g.(backend := bound.state, tick := g.tick + 2);
    if bound.error.Some? then RevokeAfter(env, after, failure, bound.error.value)
    else Outcome(Log(after.(lease := Some(renewed), reason := reason), Extended(renewed, at)), None)
  }

  function Issue(env: Env, g: Gate, target: Target, ttlMs: int, allowed: set<ActionKind>,
                 maxDurationMs: int, firstSequence: int): Outcome<Gate>
  {
    if target == Instance("") || !ValidTtl(ttlMs) || !(1 <= maxDurationMs <= 1000) || firstSequence < 0
    then Outcome(g, Some(BadArgument))
    else
      var r := Revoke(env, g, "lease-issue");
      if r.error.Some? then r
      else
        var at := env.now(r.state.tick);
        var lease := Lease(r.state.tick, target, at + ttlMs * NS_PER_MS, allowed, maxDurationMs, firstSequence);
        var bound := BindLease(env.fate(r.state.tick + 1), r.state.backend, lease);
        var after := r.state.(backend := bound.state, tick := r.state.tick + 2);
        if bound.error.Some? then RevokeAfter(env, after, "lease-issue-failed", bound.error.value)
        else Outcome(Log(after.(lease := Some(lease), lastSequence := firstSequence - 1, reason := "active"),
                         Issued(lease, at)), None)
  }

  /** The live lease named `id`; naming any other one revokes. */
  function RequireLease(env: Env, g: Gate, id: nat): Outcome<Gate> {
    if g.lease.Some? && g.lease.value.id == id then Outcome(g, None)
    else RevokeAfter(env, g, "invalid-or-missing-lease", Rejected)
  }

  function Renew(env: Env, g: Gate, id: nat, ttlMs: int): Outcome<Gate> {
    if !ValidTtl(ttlMs) then Outcome(g, Some(BadArgument))
    else
      var r := RequireLease(env, g, id);
      if r.error.Some? then r
      else if env.now(g.tick) >= g.lease.value.expires
      then RevokeAndReject(env, g.(tick := g.tick + 1), "heartbeat-expired")
      else
        var unpublished := g.(tick := g.tick + 1, lease := None, reason := "lease-renewal");
        Extend(env, unpublished, g.lease.value, ttlMs, "lease-renewal-failed", "active")
  }

  /** Why the gate refuses an action under a live lease, if it does. */
  function Refusal(lease: Lease, lastSequence: int, started: int, a: MotorAction): Option<string> {
    if started >= lease.expires then Some("lease-expired")
    else if a.sequence <= lastSequence then Some("replay-or-out-of-order-action")
    else if a.durationMs > lease.maxDurationMs then Some("action-duration-limit")
    else if !(Kinds(a) <= lease.allowed) then Some("action-not-allowed")
    else None
  }

  function Apply(env: Env, g: Gate, id: nat, a: MotorAction, refreshMs: Option<int>): Outcome<Gate> {
    if refreshMs.Some? && !ValidTtl(refreshMs.value) then Outcome(g, Some(BadArgument))
    else
      var r := RequireLease(env, g, id);
      if r.error.Some? then r
      else
        var lease, started := g.lease.value, env.now(g.tick);
        var refusal := Refusal(lease, g.lastSequence, started, a);
        if refusal.Some? then RevokeAndReject(env, g.(tick := g.tick + 1), refusal.value)
        else
          var done := ApplyAction(env.fate(g.tick + 1), g.backend, a);
          var after := g.(backend := done.state, tick := g.tick + 2);
          if done.error.Some? then RevokeAfter(env, after, "backend-apply-failed", done.error.value)
          else
            var accepted := Log(after.(lastSequence := a.sequence), Applied(lease, a, started));
            if refreshMs.None? then Outcome(accepted, None)
            else Extend(env, accepted, lease, refreshMs.value, "accepted-action-refresh-failed", g.reason)
  }

  function ReleaseInputs(env: Env, g: Gate, id: nat, refreshMs: Option<int>): Outcome<Gate> {
    if refreshMs.Some? && !ValidTtl(refreshMs.value) then Outcome(g, Some(BadArgument))
    else
      var r := RequireLease(env, g, id);
      if r.error.Some? then r
      else if env.now(g.tick) >= g.lease.value.expires
      then RevokeAndReject(env, g.(tick := g.tick + 1), "lease-expired")
      else
        var done := ReleaseAll(env.fate(g.tick + 1), g.backend);
        var after := g.(backend := done.state, tick := g.tick + 2);
        if done.error.Some? then RevokeAfter(env, after, "input-release-failed", done.error.value)
        else if refreshMs.None? then Outcome(after, None)
        else Extend(env, after, g.lease.value, refreshMs.value, "accepted-release-refresh-failed", "active")
  }

  datatype Expiry = Expiry(outcome: Outcome<Gate>, expired: bool)

  function CheckExpiry(env: Env, g: Gate): Expiry {
    if g.lease.None? then Expiry(Outcome(g, None), false)
    else
      var read := g.(tick := g.tick + 1);
      if env.now(g.tick) >= g.lease.value.expires
      then Expiry(Revoke(env, read, "watchdog-expired"), true)
      else Expiry(Outcome(read, None), false)
  }
}
