/** Value-level specification of the supervisor around the gate (supervisor.py, Supervisor). */
module SupervisorModel {
  import opened Common
  import opened Motor
  import opened SafetyModel
  import Calibration

  datatype Phase = Stopped | Starting | SafeIdle | Armed | Running | Paused | Stopping | Failsafe

  function AllowedTargets(p: Phase): set<Phase> {
    match p
    case Stopped => {Starting}
    case Starting => {SafeIdle, Failsafe, Stopping}
    case SafeIdle => {Armed, Paused, Stopping, Failsafe}
    case Armed => {Running, Paused, Stopping, Failsafe}
    case Running => {Paused, Stopping, Failsafe}
    case Paused => {SafeIdle, Stopping, Failsafe}
    case Stopping => {Stopped, Failsafe}
    case Failsafe => {Stopped}
  }

  const ALL_KINDS := {KeyboardInput, ButtonInput, MouseInput}
  const CALIBRATION_STEP := 96

  datatype Sup = Sup(
    phase: Phase,
    gate: Gate,
    live: bool,               // the backend is live and bound to a game window
    lastFault: string,
    routeFault: bool,
    pitch: int,
    updates: nat,
    originCalibrated: bool,
    stopSet: bool)

  function NewGate(tick: nat, trace: seq<Event>): Gate {
    Gate(None, -1, "not-issued", NEW_BACKEND, tick, trace)
  }

  function NewSupervisor(): Sup {
    Sup(Stopped, NewGate(0, []), false, "", false, 0, 0, false, false)
  }

  function On(s: Sup, o: Outcome<Gate>): Outcome<Sup> { Outcome(s.(gate := o.state), o.error) }

  function Later(s: Sup, ticks: nat): Sup { s.(gate := s.gate.(tick := s.gate.tick + ticks)) }

  /** Publish the status, also on the way out of a failure; publishing may raise. */
  function Persisted(env: Env, o: Outcome<Sup>): Outcome<Sup> {
    Outcome(Later(o.state, 1),
            if env.fate(o.state.gate.tick).Raises? then Some(PersistFault) else o.error)
  }

  function Revoking(env: Env, s: Sup, reason: string): Outcome<Sup> { On(s, Revoke(env, s.gate, reason)) }

  function Withdraw(s: Sup): Sup { s.(gate := Log(s.gate, Withdrawn)) }

  function Transition(env: Env, s: Sup, target: Phase): Outcome<Sup> {
    if target !in AllowedTargets(s.phase) then Outcome(s, Some(WrongState))
    else Persisted(env, Outcome(s.(phase := target), None))
  }

  /** `error` unless the step before it raised one of its own. */
  function Raising(o: Outcome<Sup>, error: Error): Outcome<Sup> {
    if o.error.Some? then o else Outcome(o.state, Some(error))
  }

  // --- Withdrawing authority ---------------------------------------------------------------------

  function Fail(env: Env, s: Sup, reason: string): Outcome<Sup> {
    var w := Withdraw(s);
    if s.phase.Stopped? then Outcome(w, None)
    else
      var failed := w.(lastFault := reason,
                       phase := if Failsafe in AllowedTargets(s.phase) then Failsafe else s.phase);
      Persisted(env, Revoking(env, failed, reason))
  }

  function Disarm(env: Env, s: Sup, reason: string): Outcome<Sup> {
    var effective := if s.phase.Paused? && env.paused(s.gate.tick) then "operator-pause" else reason;
    var w := Withdraw(Later(s, 1));
    var disarmed := if s.phase.Armed? || s.phase.Running? then w.(phase := Paused) else w;
    Persisted(env, Revoking(env, disarmed, effective))
  }

  function Pause(env: Env, s: Sup): Outcome<Sup> {
    var w := Withdraw(s);
    if s.phase.Paused? || s.phase.Stopped? || s.phase.Stopping? then Outcome(w, None)
    else if !s.phase.Failsafe? && Paused !in AllowedTargets(s.phase) then Outcome(w, Some(WrongState))
    else
      var paused := if s.phase.Failsafe? then w else w.(phase := Paused);
      Persisted(env, Revoking(env, paused, "operator-pause"))
  }

  function Stop(env: Env, s: Sup): Outcome<Sup> {
    Persisted(env, Revoking(env, Withdraw(s).(phase := Stopped, stopSet := true), "operator-stop"))
  }

  /** A motor-facing call first withdraws authority if a latch is set, and then refuses. */
  function Guarded(env: Env, s: Sup): Outcome<Sup> {
    if env.emergency(s.gate.tick) then Raising(Fail(env, Later(s, 1), "emergency-stop-latched"), Interlock)
    else if env.paused(s.gate.tick + 1) then Raising(Disarm(env, Later(s, 2), "operator-pause"), Interlock)
    else Outcome(Later(s, 2), None)
  }

  predicate Permitted(env: Env, s: Sup) { !env.emergency(s.gate.tick) && !env.paused(s.gate.tick + 1) }

  // --- Lifecycle -----------------------------------------------------------------------------------

  function Start(env: Env, s: Sup): Outcome<Sup> {
    if env.emergency(s.gate.tick) then
      var r := Revoking(env, Later(s, 1).(lastFault := "emergency-stop-latched"), "emergency-stop-latched");
      if r.error.Some? then r else Raising(Persisted(env, r), Interlock)
    else
      var starting := Transition(env, Later(s, 1), Starting);
      if starting.error.Some? then starting
      else
        var idle := Transition(env, starting.state, SafeIdle);
        if idle.error.Some? then idle
        else if env.paused(idle.state.gate.tick) then Pause(env, Later(idle.state, 1))
        else Outcome(Later(idle.state, 1), None)
  }

  function Resume(env: Env, s: Sup): Outcome<Sup> {
    var read := Later(s, 1);
    if env.emergency(s.gate.tick) then Outcome(read, Some(Interlock))
    else if s.phase.SafeIdle? then Outcome(read, None)
    else if s.phase.Failsafe? then Stop(env, read)
    else if !s.phase.Paused? then Outcome(read, Some(WrongState))
    else Transition(env, read, SafeIdle)
  }

  /** Closing the old backend is tried even if its last release raises; an error in closing is then the one
      that is raised. */
  function Retired(env: Env, s: Sup): Outcome<Sup> {
    var released := ReleaseAll(env.fate(s.gate.tick), s.gate.backend);
    var closed := CloseBackend(env.fate(s.gate.tick + 1), released.state);
    Outcome(s.(gate := s.gate.(backend := closed.state, tick := s.gate.tick + 2)),
            First(closed.error, released.error))
  }

  function First(error: Option<Error>, otherwise: Option<Error>): Option<Error> {
    if error.Some? then error else otherwise
  }

  function Installed(s: Sup, live: bool, preserve: bool): Sup {
    var replaced := s.(gate := NewGate(s.gate.tick, s.gate.trace), live := live);
    if preserve then replaced else replaced.(pitch := 0, updates := 0, originCalibrated := false)
  }

  function ReplaceBackend(env: Env, s: Sup, live: bool, preserve: bool): Outcome<Sup> {
    if !s.phase.SafeIdle? then Outcome(s, Some(WrongState))
    else
      var r := Revoking(env, s, "backend-replacement");
      if r.error.Some? then r
      else
        var retired := Retired(env, r.state);
        if retired.error.Some? then retired
        else Persisted(env, Outcome(Installed(retired.state, live, preserve), None))
  }

  /** An emergency refuses without touching a lease; a pause revokes. */
  function Arm(env: Env, s: Sup, target: string): Outcome<Sup> {
    if env.emergency(s.gate.tick) then Outcome(Later(s, 1), Some(Interlock))
    else if env.paused(s.gate.tick + 1) then Raising(Revoking(env, Later(s, 2), "operator-pause"), Interlock)
    else if !s.phase.SafeIdle? then Outcome(Later(s, 2), Some(WrongState))
    else
      var issued := On(s, Issue(env, Later(s, 2).gate, Instance(target), 3000, ALL_KINDS, 250, 0));
      if issued.error.Some? then issued
      else Persisted(env, Outcome(issued.state.(phase := Armed), None))
  }

  function Activate(env: Env, s: Sup): Outcome<Sup> {
    var ready := Guarded(env, s);
    if ready.error.Some? then ready
    else if !s.phase.Armed? then Outcome(ready.state, Some(WrongState))
    else
      var now, read := env.now(ready.state.gate.tick), Later(ready.state, 1);
      var lease := read.gate.lease;
      if lease.None? || now >= lease.value.expires then
        var r := Revoking(env, read, "activate-without-live-lease");
        if r.error.Some? then r else Fail(env, r.state, "activate-without-live-lease")
      else
        Persisted(env, Outcome(read.(phase := Running, gate := Log(read.gate, Activated(lease.value.id))), None))
  }

  function RenewLease(env: Env, s: Sup, id: nat, ttlMs: int): Outcome<Sup> {
    var ready := Guarded(env, s);
    if ready.error.Some? then ready
    else if !s.phase.Armed? && !s.phase.Running? then Outcome(ready.state, Some(WrongState))
    else On(ready.state, Renew(env, ready.state.gate, id, ttlMs))
  }

  // --- Acting under the runtime lease ----------------------------------------------------------------

  function RequireRunning(env: Env, s: Sup, id: nat): Outcome<Sup> {
    var ready := Guarded(env, s);
    if ready.error.Some? then ready
    else if !s.phase.Running? then Outcome(ready.state, Some(WrongState))
    else
      var now, read := env.now(ready.state.gate.tick), Later(ready.state, 1);
      var lease := read.gate.lease;
      if lease.None? || lease.value.id != id || now >= lease.value.expires then
        var r := Revoking(env, read, "invalid-runtime-lease");
        if r.error.Some? then r else Raising(Fail(env, r.state, "invalid-runtime-lease"), Rejected)
      else Outcome(read, None)
  }

  function ApplyMotorAction(env: Env, s: Sup, id: nat, a: MotorAction): Outcome<Sup> {
    var ready := RequireRunning(env, s, id);
    if ready.error.Some? then ready
    else if !Admissible(a)
    then Outcome(Fail(env, ready.state, "invalid-motor-action").state, Some(BadArgument))
    else
      var done := On(ready.state, Apply(env, ready.state.gate, id, a, Some(MAX_TTL_MS)));
      if done.error == Some(BackendFault(true))
      then Outcome(Fail(env, done.state.(routeFault := true), "motor-action").state, done.error)
      else if done.error.Some? || !a.world || (a.dx == 0 && a.dy == 0) then done
      else Outcome(done.state.(pitch := done.state.pitch + a.dy, updates := done.state.updates + 1), None)
  }

  function ReleaseInputsCall(env: Env, s: Sup, id: nat): Outcome<Sup> {
    var ready := RequireRunning(env, s, id);
    if ready.error.Some? then ready
    else
      var done := On(ready.state, ReleaseInputs(env, ready.state.gate, id, Some(MAX_TTL_MS)));
      if done.error.Some? then done else Persisted(env, done)
  }

  /** After an exception inside a transaction: the latch that is set, or else the fault, decides. */
  function Aborted(env: Env, o: Outcome<Sup>, disarming: bool, reason: string): Outcome<Sup>
    requires o.error.Some?
  {
    var s := if !disarming && o.error == Some(BackendFault(true)) then o.state.(routeFault := true) else o.state;
    var r :=
      if env.emergency(s.gate.tick) then Fail(env, Later(s, 1), "emergency-stop-latched")
      else if env.paused(s.gate.tick + 1) then
        if disarming then Disarm(env, Later(s, 2), "operator-pause")
        else Revoking(env, Later(s, 2), "operator-pause")
      else Fail(env, Later(s, 2), reason);
    Raising(r, o.error.value)
  }

  // Typing presses and releases keys itself; if it raises, any of them may still be held.
  function Type(env: Env, g: Gate): Outcome<Gate> {
    var fate, after := env.fate(g.tick), g.(tick := g.tick + 1);
    if fate.Raises? then Outcome(after.(backend := g.backend.(held := fate.kept)), Some(BackendFault(fate.route)))
    else Outcome(after, None)
  }

  function Chat(env: Env, s: Sup, id: nat): Outcome<Sup> {
    var extended := On(s, Renew(env, s.gate, id, 5000));
    if extended.error.Some? then extended
    else
      var typed := On(extended.state, Type(env, extended.state.gate));
      if typed.error.Some? then typed
      else if !Permitted(env, typed.state) then Outcome(Later(typed.state, 2), Some(Interlock))
      else On(typed.state, Renew(env, Later(typed.state, 2).gate, id, 3000))
  }

  function SendChat(env: Env, s: Sup, id: nat, validText: bool, canType: bool): Outcome<Sup> {
    var ready := RequireRunning(env, s, id);
    if ready.error.Some? then ready
    else if !validText then Outcome(ready.state, Some(BadArgument))
    else if !canType then Outcome(ready.state, Some(WrongState))
    else
      var chat := Chat(env, ready.state, id);
      if chat.error.None? then chat else Aborted(env, chat, true, "chat-backend-fault")
  }

  // --- Private camera transactions ---------------------------------------------------------------------

  function MouseMove(sequence: nat, dx: int, dy: int): MotorAction { Neutral(sequence).(dx := dx, dy := dy) }

  function ChunkMoved(env: Env, s: Sup, id: nat, sequence: nat, dy: int): Outcome<Sup> {
    var moved := On(s, Apply(env, s.gate, id, MouseMove(sequence, 0, dy), None));
    if moved.error.Some? || sequence % 25 != 24 then moved
    else On(moved.state, Renew(env, moved.state.gate, id, 5000))
  }

  function MoveChunk(env: Env, s: Sup, id: nat, sequence: nat, dy: int, settle: bool): Outcome<Sup> {
    if !Permitted(env, s) then Outcome(Later(s, 2), Some(Interlock))
    else if settle && !Permitted(env, Later(s, 2)) then Outcome(Later(s, 4), Some(Interlock))
    else
      var moved := ChunkMoved(env, Later(s, if settle then 4 else 2), id, sequence, dy);
      if moved.error.Some? then moved
      else Outcome(Later(moved.state, 2), if Permitted(env, moved.state) then None else Some(Interlock))
  }

  function MoveChunks(env: Env, s: Sup, id: nat, sequence: nat, deltas: seq<int>, returning: bool): Outcome<Sup>
    decreases |deltas|
  {
    if deltas == [] then Outcome(s, None)
    else
      var settle := deltas[0] > 0 && !returning;
      var moved := MoveChunk(env, s, id, sequence, deltas[0], settle);
      if moved.error.Some? then moved
      else MoveChunks(env, moved.state, id, sequence + 1, deltas[1..], returning || settle)
  }

  function CalibrationMoves(env: Env, s: Sup, deltas: seq<int>): Outcome<Sup> {
    var issued := On(s, Issue(env, s.gate, CameraCalibration, 5000, {MouseInput}, 50, 0));
    if issued.error.Some? || issued.state.gate.lease.None? then issued
    else MoveChunks(env, issued.state, issued.state.gate.lease.value.id, 0, deltas, false)
  }

  /** The private lease never outlives its transaction, however the transaction ends. `always`: the
      status is published even if this last revocation raises. */
  function Concluded(env: Env, o: Outcome<Sup>, reason: string, always: bool): Outcome<Sup> {
    var handled := if o.error.Some? then Aborted(env, o, false, reason) else o;
    var r := Revoking(env, Later(handled.state, 1),
                      if env.paused(handled.state.gate.tick) then "operator-pause" else reason);
    if r.error.Some? && !always then r
    else Persisted(env, Outcome(r.state, if r.error.Some? then r.error else handled.error))
  }

  function Calibrate(env: Env, s: Sup, gain: real, validId: bool): Outcome<Sup> {
    if !s.phase.SafeIdle? || !s.live then Outcome(s, Some(WrongState))
    else if !validId || !Calibration.Accepted(gain, CALIBRATION_STEP) then Outcome(s, Some(BadArgument))
    else if !Permitted(env, s) then Outcome(Later(s, 2), Some(Interlock))
    else
      var begun := Persisted(env, Outcome(Later(s, 2).(originCalibrated := false), None));
      if begun.error.Some? then begun
      else
        var moves := CalibrationMoves(env, begun.state, Calibration.Deltas(gain, CALIBRATION_STEP));
        var done := Concluded(env, moves, "camera-calibration", true);
        if done.error.Some? then done else Calibrated(env, done.state)
  }

  /** The final settle and cleanup are interruptible too: a latch seen here voids the origin. */
  function Calibrated(env: Env, s: Sup): Outcome<Sup> {
    var read := Later(s, 2);
    if Permitted(env, s)
    then Persisted(env, Outcome(read.(pitch := 0, updates := 0, originCalibrated := true), None))
    else if env.emergency(read.gate.tick)
    then Raising(Fail(env, Later(read, 1), "emergency-stop-latched"), Interlock)
    else if env.paused(read.gate.tick + 1)
    then Raising(Revoking(env, Later(read, 2), "operator-pause"), Interlock)
    else Outcome(Later(read, 2), Some(Interlock))
  }

  predicate ProbeArguments(dx: int, dy: int) { (dx == 0) != (dy == 0) && Abs(dx) <= 128 && Abs(dy) <= 128 }

  function ProbeMove(env: Env, s: Sup, dx: int, dy: int): Outcome<Sup> {
    if s.gate.lease.None? then Outcome(s, None)
    else
      var moved := On(s, Apply(env, s.gate, s.gate.lease.value.id, MouseMove(0, dx, dy), None));
      if moved.error.Some? || Permitted(env, moved.state) then Outcome(Later(moved.state, 2), moved.error)
      else Outcome(Later(moved.state, 2), Some(Interlock))
  }

  function Probe(env: Env, s: Sup, dx: int, dy: int): Outcome<Sup> {
    if !ProbeArguments(dx, dy) then Outcome(s, Some(BadArgument))
    else if !s.phase.SafeIdle? || !s.live then Outcome(s, Some(WrongState))
    else if !Permitted(env, s) then Outcome(Later(s, 2), Some(Interlock))
    else
      var begun := Persisted(env, Outcome(
        Later(s, 2).(pitch := 0, updates := 0, originCalibrated := false), None));
      if begun.error.Some? then begun
      else
        var issued := On(begun.state, Issue(env, begun.state.gate, CameraProbe, 2000, {MouseInput}, 50, 0));
        if issued.error.Some? then issued
        else Concluded(env, ProbeMove(env, issued.state, dx, dy), "camera-probe", false)
  }

  // --- The serve loop -----------------------------------------------------------------------------------

  function WatchExpiry(env: Env, s: Sup): Outcome<Sup> {
    var x := CheckExpiry(env, s.gate);
    var checked := On(s, x.outcome);
    if checked.error.Some? || !x.expired then checked
    else Fail(env, checked.state, "motor-lease-watchdog-expired")
  }

  function Watchdog(env: Env, s: Sup): Outcome<Sup> {
    if env.emergency(s.gate.tick) then
      var failed := Fail(env, Later(s, 1), "emergency-stop-latched");
      if failed.error.Some? then failed else Stop(env, failed.state)
    else
      var read := Later(s, 2);
      if env.paused(s.gate.tick + 1) && (!s.phase.Paused? || s.gate.lease.Some?) then
        var disarmed := Disarm(env, read, "operator-pause");
        if disarmed.error.Some? then disarmed else WatchExpiry(env, disarmed.state)
      else WatchExpiry(env, read)
  }

  function Tried(fate: Fate, error: Error): Option<Error> { if fate.Raises? then Some(error) else None }

  /** Leaving the serve loop attempts every cleanup, past any that raises, and ends stopped: revoke, close the
      control socket, close the backend, publish the status, remove the control file. What is raised is the
      error that ended the loop, or else the first of the cleanups'. */
  function CloseRuntime(env: Env, s: Sup, prior: Option<Error>): Outcome<Sup> {
    var r := Revoking(env, Withdraw(s).(phase := Stopped, stopSet := true), "supervisor-exit");
    var t := r.state.gate.tick;
    var closed := CloseBackend(env.fate(t + 1), r.state.gate.backend);
    var failure := First(First(First(prior, r.error), Tried(env.fate(t), CleanupFault)), closed.error);
    Outcome(r.state.(gate := r.state.gate.(backend := closed.state, tick := t + 4)),
            First(First(failure, Tried(env.fate(t + 2), PersistFault)), Tried(env.fate(t + 3), CleanupFault)))
  }

  // --- Runs ---------------------------------------------------------------------------------------------

  datatype Command =
    | DoStart | DoPause | DoResume | DoStop | DoWatchdog | DoCloseRuntime(prior: Option<Error>)
    | DoFail(reason: string) | DoDisarm(reason: string)
    | DoReplaceBackend(live: bool, preserve: bool)
    | DoArm(target: string) | DoActivate | DoRenew(id: nat, ttlMs: int)
    | DoApply(id: nat, action: MotorAction) | DoRelease(id: nat)
    | DoChat(id: nat, validText: bool, canType: bool)
    | DoCalibrate(gain: real, validId: bool) | DoProbe(dx: int, dy: int)

  function Perform(env: Env, s: Sup, c: Command): Outcome<Sup> {
    match c
    case DoStart => Start(env, s)
    case DoPause => Pause(env, s)
    case DoResume => Resume(env, s)
    case DoStop => Stop(env, s)
    case DoWatchdog => Watchdog(env, s)
    case DoCloseRuntime(prior) => CloseRuntime(env, s, prior)
    case DoFail(reason) => Fail(env, s, reason)
    case DoDisarm(reason) => Disarm(env, s, reason)
    case DoReplaceBackend(live, preserve) => ReplaceBackend(env, s, live, preserve)
    case DoArm(target) => Arm(env, s, target)
    case DoActivate => Activate(env, s)
    case DoRenew(id, ttlMs) => RenewLease(env, s, id, ttlMs)
    case DoApply(id, action) => ApplyMotorAction(env, s, id, action)
    case DoRelease(id) => ReleaseInputsCall(env, s, id)
    case DoChat(id, validText, canType) => SendChat(env, s, id, validText, canType)
    case DoCalibrate(gain, validId) => Calibrate(env, s, gain, validId)
    case DoProbe(dx, dy) => Probe(env, s, dx, dy)
  }

  /** Every command is served, whether the ones before it returned or raised. */
  function Run(env: Env, s: Sup, commands: seq<Command>): Sup
    decreases |commands|
  {
    if commands == [] then s else Run(env, Perform(env, s, commands[0]).state, commands[1..])
  }
}
