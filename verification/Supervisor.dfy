/** The supervisor as the object it is, each method equal to its specification in SupervisorModel. */
module Supervisor {
  import opened Common
  import opened Motor
  import opened SafetyModel
  import opened SupervisorModel
  import Spec = SupervisorModel
  import Gate = MotorGate
  import Calibration

  class Supervisor {
    const host: Gate.Host
    var phase: Phase
    var backend: Gate.InputBackend
    var motor: Gate.MotorGate
    var live: bool
    var lastFault: string
    var routeFault: bool
    var worldCameraPitchUnits: int
    var worldCameraUpdates: nat
    var worldCameraOriginCalibrated: bool
    var stop: bool

    ghost predicate Wired()
      reads this
    {
      motor.backend == backend && backend.host == host
    }

    ghost function View(): Sup
      reads this, motor, motor.backend, motor.backend.host
    {
      Sup(phase, motor.View(), live, lastFault, routeFault, worldCameraPitchUnits, worldCameraUpdates,
          worldCameraOriginCalibrated, stop)
    }

    constructor (host: Gate.Host)
      requires host.tick == 0
      ensures this.host == host && Wired() && fresh(backend) && fresh(motor)
      ensures View() == NewSupervisor()
    {
      this.host := host;
      phase, live, lastFault, routeFault, stop := Stopped, false, "", false, false;
      worldCameraPitchUnits, worldCameraUpdates, worldCameraOriginCalibrated := 0, 0, false;
      var first := new Gate.InputBackend(host);
      backend := first;
      motor := new Gate.MotorGate(first, []);
    }

    // Publish the status; an error in flight survives unless publishing raises one of its own.
    method PersistAfter(error: Option<Error>) returns (kept: Option<Error>)
      requires Wired()
      modifies host
      ensures Outcome(View(), kept) == Persisted(host.env, Outcome(old(View()), error))
    {
      var fate := host.Call();
      kept := if fate.Raises? then Some(PersistFault) else error;
    }

    method RevokeMotor(reason: string) returns (error: Option<Error>)
      requires Wired()
      modifies motor, backend, host
      ensures Outcome(View(), error) == Revoking(host.env, old(View()), reason)
    {
      hide SafetyModel.Revoke;
      error := motor.Revoke(reason);
    }

    method RevokeThenPersist(reason: string) returns (error: Option<Error>)
      requires Wired()
      modifies motor, backend, host
      ensures Outcome(View(), error)
              == Persisted(host.env, Revoking(host.env, old(View()), reason))
    {
      hide Revoking;
      error := RevokeMotor(reason);
      error := PersistAfter(error);
    }

    method Transition(target: Phase) returns (error: Option<Error>)
      requires Wired()
      modifies `phase, host
      ensures Outcome(View(), error) == Spec.Transition(host.env, old(View()), target)
    {
      if target !in AllowedTargets(phase) {
        return Some(WrongState);
      }
      phase := target;
      error := PersistAfter(None);
    }

    method Fail(reason: string) returns (error: Option<Error>)
      requires Wired()
      modifies `phase, `lastFault, motor, backend, host
      ensures Outcome(View(), error) == Spec.Fail(host.env, old(View()), reason)
    {
      hide Revoking, Persisted;
      motor.trace := motor.trace + [Withdrawn];
      if phase.Stopped? {
        return None;
      }
      lastFault := reason;
      if !phase.Failsafe? && Failsafe in AllowedTargets(phase) {
        phase := Failsafe;
      }
      error := RevokeThenPersist(reason);
    }

    method Disarm(reason: string) returns (error: Option<Error>)
      requires Wired()
      modifies `phase, motor, backend, host
      ensures Outcome(View(), error) == Spec.Disarm(host.env, old(View()), reason)
    {
      hide Revoking, Persisted;
      var paused := host.OperatorPauseLatched();
      var effective := if phase.Paused? && paused then "operator-pause" else reason;
      motor.trace := motor.trace + [Withdrawn];
      if phase.Armed? || phase.Running? {
        phase := Paused;
      }
      error := RevokeThenPersist(effective);
    }

    method Pause() returns (error: Option<Error>)
      requires Wired()
      modifies `phase, motor, backend, host
      ensures Outcome(View(), error) == Spec.Pause(host.env, old(View()))
    {
      hide Revoking, Persisted;
      motor.trace := motor.trace + [Withdrawn];
      if phase.Paused? || phase.Stopped? || phase.Stopping? {
        return None;
      }
      if !phase.Failsafe? {
        if Paused !in AllowedTargets(phase) {
          return Some(WrongState);
        }
        phase := Paused;
      }
      error := RevokeThenPersist("operator-pause");
    }

    method Stop() returns (error: Option<Error>)
      requires Wired()
      modifies `phase, `stop, motor, backend, host
      ensures Outcome(View(), error) == Spec.Stop(host.env, old(View()))
    {
      hide Revoking, Persisted;
      motor.trace := motor.trace + [Withdrawn];
      if phase.Failsafe? {
        phase := Stopped;
      } else if !phase.Stopped? {
        if !phase.Stopping? {
          assert Stopping in AllowedTargets(phase);
          phase := Stopping;
        }
        assert Stopped in AllowedTargets(phase);
        phase := Stopped;
      }
      stop := true;
      error := RevokeThenPersist("operator-stop");
    }

    method Guard() returns (error: Option<Error>)
      requires Wired()
      modifies `phase, `lastFault, motor, backend, host
      ensures Outcome(View(), error) == Guarded(host.env, old(View()))
      ensures error.None? ==> View() == Later(old(View()), 2)
    {
      hide Spec.Fail, Spec.Disarm;
      var emergency := host.EmergencyStopLatched();
      if emergency {
        error := Fail("emergency-stop-latched");
        return if error.Some? then error else Some(Interlock);
      }
      var paused := host.OperatorPauseLatched();
      if paused {
        error := Disarm("operator-pause");
        return if error.Some? then error else Some(Interlock);
      }
      return None;
    }

    // Both latches are looked at, one after the other.
    method ActuationPermitted() returns (permitted: bool)
      requires Wired()
      modifies host
      ensures permitted == Permitted(host.env, old(View())) && View() == Later(old(View()), 2)
    {
      var emergency := host.EmergencyStopLatched();
      var paused := host.OperatorPauseLatched();
      permitted := !emergency && !paused;
    }

    method Start() returns (error: Option<Error>)
      requires Wired()
      modifies `phase, `lastFault, motor, backend, host
      ensures Outcome(View(), error) == Spec.Start(host.env, old(View()))
    {
      hide Revoking, Persisted, Spec.Transition, Spec.Pause;
      var emergency := host.EmergencyStopLatched();
      if emergency {
        lastFault := "emergency-stop-latched";
        error := StartLatched();
        return;
      }
      error := Transition(Starting);
      if error.Some? {
        return;
      }
      error := Transition(SafeIdle);
      if error.Some? {
        return;
      }
      var paused := host.OperatorPauseLatched();
      if paused {
        error := Pause();
      }
    }

    method StartLatched() returns (error: Option<Error>)
      requires Wired()
      modifies motor, backend, host
      ensures var r := Revoking(host.env, old(View()), "emergency-stop-latched");
              Outcome(View(), error)
              == if r.error.Some? then r else Raising(Persisted(host.env, r), Interlock)
    {
      hide SafetyModel.Revoke;
      error := motor.Revoke("emergency-stop-latched");
      if error.Some? {
        return;
      }
      error := PersistAfter(None);
      return if error.Some? then error else Some(Interlock);
    }

    method Resume() returns (error: Option<Error>)
      requires Wired()
      modifies `phase, `stop, motor, backend, host
      ensures Outcome(View(), error) == Spec.Resume(host.env, old(View()))
    {
      hide Spec.Stop, Spec.Transition;
      var emergency := host.EmergencyStopLatched();
      if emergency {
        return Some(Interlock);
      }
      if phase.SafeIdle? {
        return None;
      }
      if phase.Failsafe? {
        error := Stop();
        return;
      }
      if !phase.Paused? {
        return Some(WrongState);
      }
      error := Transition(SafeIdle);
    }

    // Let go of the old backend, and try to close it even if its last release raises.
    method RetireBackend() returns (error: Option<Error>)
      requires Wired()
      modifies motor, backend, host
      ensures var r := Revoking(host.env, old(View()), "backend-replacement");
              Outcome(View(), error) == if r.error.Some? then r else Retired(host.env, r.state)
    {
      hide SafetyModel.Revoke, ReleaseAll;
      error := motor.Revoke("backend-replacement");
      if error.Some? {
        return;
      }
      error := backend.ReleaseAll();
      var closing := backend.Close();
      if closing.Some? {
        error := closing;
      }
    }

    method InstallBackend(replacement: Gate.InputBackend, replacementLive: bool, preserve: bool)
      requires Wired() && replacement.host == host && replacement.View() == NEW_BACKEND
      modifies this
      ensures Wired() && fresh(motor) && backend == replacement
      ensures View() == Installed(old(View()), replacementLive, preserve)
    {
      backend, live := replacement, replacementLive;
      motor := new Gate.MotorGate(replacement, motor.trace);
      if !preserve {
        worldCameraPitchUnits, worldCameraUpdates, worldCameraOriginCalibrated := 0, 0, false;
      }
    }

    method ReplaceBackend(replacement: Gate.InputBackend, replacementLive: bool, preserve: bool)
      returns (error: Option<Error>)
      requires Wired() && replacement.host == host && replacement.View() == NEW_BACKEND && replacement != backend
      modifies this, motor, backend, host
      ensures Wired() && (motor == old(motor) || fresh(motor)) && (backend == old(backend) || backend == replacement)
      ensures Outcome(View(), error) == Spec.ReplaceBackend(host.env, old(View()), replacementLive, preserve)
    {
      hide Revoking, Retired, Installed, Persisted;
      if !phase.SafeIdle? {
        return Some(WrongState);
      }
      error := RetireBackend();
      if error.Some? {
        return;
      }
      InstallBackend(replacement, replacementLive, preserve);
      error := PersistAfter(None);
    }

    method Arm(targetInstance: string) returns (error: Option<Error>)
      requires Wired()
      modifies `phase, motor, backend, host
      ensures Outcome(View(), error) == Spec.Arm(host.env, old(View()), targetInstance)
    {
      hide SafetyModel.Revoke, Issue, Persisted;
      var emergency := host.EmergencyStopLatched();
      if emergency {
        return Some(Interlock);
      }
      var paused := host.OperatorPauseLatched();
      if paused {
        error := motor.Revoke("operator-pause");
        return if error.Some? then error else Some(Interlock);
      }
      if !phase.SafeIdle? {
        return Some(WrongState);
      }
      error := motor.Issue(Instance(targetInstance), 3000, ALL_KINDS, 250, 0);
      if error.Some? {
        return;
      }
      phase := Armed;
      error := PersistAfter(None);
    }

    // Whether the named lease, or any lease, is live at this moment.
    method HasLiveLease(id: Option<nat>) returns (holds: bool)
      requires Wired()
      modifies host
      ensures View() == Later(old(View()), 1)
      ensures holds <==> motor.lease.Some? && (id.Some? ==> motor.lease.value.id == id.value)
                         && host.env.now(old(host.tick)) < motor.lease.value.expires
    {
      var now := host.Now();
      holds := motor.lease.Some? && (id.Some? ==> motor.lease.value.id == id.value)
               && now < motor.lease.value.expires;
    }

    method RevokeThenFail(reason: string) returns (error: Option<Error>)
      requires Wired()
      modifies `phase, `lastFault, motor, backend, host
      ensures var r := Revoking(host.env, old(View()), reason);
              Outcome(View(), error) == if r.error.Some? then r else Spec.Fail(host.env, r.state, reason)
    {
      hide SafetyModel.Revoke, Spec.Fail;
      error := motor.Revoke(reason);
      if error.None? {
        error := Fail(reason);
      }
    }

    method Activate() returns (error: Option<Error>)
      requires Wired()
      modifies `phase, `lastFault, motor, backend, host
      ensures Outcome(View(), error) == Spec.Activate(host.env, old(View()))
    {
      hide Guarded, Revoking, Spec.Fail, Persisted;
      error := Guard();
      if error.Some? {
        return;
      }
      if !phase.Armed? {
        return Some(WrongState);
      }
      var holds := HasLiveLease(None);
      if !holds {
        error := RevokeThenFail("activate-without-live-lease");
        return;
      }
      assert Running in AllowedTargets(phase);
      phase := Running;
      motor.trace := motor.trace + [Activated(motor.lease.value.id)];
      error := PersistAfter(None);
    }

    method Renew(id: nat, ttlMs: int) returns (error: Option<Error>)
      requires Wired()
      modifies `phase, `lastFault, motor, backend, host
      ensures Outcome(View(), error) == RenewLease(host.env, old(View()), id, ttlMs)
    {
      hide Guarded, SafetyModel.Renew;
      error := Guard();
      if error.Some? {
        return;
      }
      if !phase.Armed? && !phase.Running? {
        return Some(WrongState);
      }
      error := motor.Renew(id, ttlMs);
    }

    method RequireRunningLease(id: nat) returns (error: Option<Error>)
      requires Wired()
      modifies `phase, `lastFault, motor, backend, host
      ensures Outcome(View(), error) == RequireRunning(host.env, old(View()), id)
    {
      hide Guarded, Revoking, Spec.Fail;
      error := Guard();
      if error.Some? {
        return;
      }
      if !phase.Running? {
        return Some(WrongState);
      }
      var holds := HasLiveLease(Some(id));
      if !holds {
        error := RevokeThenFail("invalid-runtime-lease");
        return if error.Some? then error else Some(Rejected);
      }
    }

    method ApplyMotorAction(id: nat, action: MotorAction) returns (error: Option<Error>)
      requires Wired()
      modifies `phase, `lastFault, `routeFault, `worldCameraPitchUnits, `worldCameraUpdates, motor, backend, host
      ensures Outcome(View(), error) == Spec.ApplyMotorAction(host.env, old(View()), id, action)
    {
      hide RequireRunning, Spec.Fail, Apply, Admissible;
      error := RequireRunningLease(id);
      if error.Some? {
        return;
      }
      if !Admissible(action) {
        var _ := Fail("invalid-motor-action");
        return Some(BadArgument);
      }
      error := motor.Apply(id, action, Some(MAX_TTL_MS));
      if error == Some(BackendFault(true)) {
        routeFault := true;
        var _ := Fail("motor-action");
        return;
      }
      if error.Some? {
        return;
      }
      if action.world && (action.dx != 0 || action.dy != 0) {
        worldCameraPitchUnits := worldCameraPitchUnits + action.dy;
        worldCameraUpdates := worldCameraUpdates + 1;
      }
    }

    method ReleaseInputs(id: nat) returns (error: Option<Error>)
      requires Wired()
      modifies `phase, `lastFault, motor, backend, host
      ensures Outcome(View(), error) == ReleaseInputsCall(host.env, old(View()), id)
    {
      hide RequireRunning, SafetyModel.ReleaseInputs, Persisted;
      error := RequireRunningLease(id);
      if error.Some? {
        return;
      }
      error := motor.ReleaseInputs(id, Some(MAX_TTL_MS));
      if error.None? {
        error := PersistAfter(None);
      }
    }

    // Handle an exception inside a transaction, and raise it again.
    method Abort(cause: Error, disarming: bool, reason: string) returns (error: Option<Error>)
      requires Wired()
      modifies `phase, `lastFault, `routeFault, motor, backend, host
      ensures Outcome(View(), error)
              == Aborted(host.env, Outcome(old(View()), Some(cause)), disarming, reason)
    {
      hide Spec.Fail, Spec.Disarm, Revoking;
      if !disarming && cause == BackendFault(true) {
        routeFault := true;
      }
      var emergency := host.EmergencyStopLatched();
      if emergency {
        error := Fail("emergency-stop-latched");
        return if error.Some? then error else Some(cause);
      }
      var paused := host.OperatorPauseLatched();
      if !paused {
        error := Fail(reason);
      } else if disarming {
        error := Disarm("operator-pause");
      } else {
        error := RevokeMotor("operator-pause");
      }
      return if error.Some? then error else Some(cause);
    }

    // The guarded part of a chat: the lease is prolonged around the typing.
    method TypeUnderLease(id: nat) returns (error: Option<Error>)
      requires Wired()
      modifies motor, backend, host
      ensures Outcome(View(), error) == Chat(host.env, old(View()), id)
    {
      hide SafetyModel.Renew, Permitted;
      error := motor.Renew(id, 5000);
      if error.Some? {
        return;
      }
      error := backend.TypeChat();
      if error.Some? {
        return;
      }
      var permitted := ActuationPermitted();
      if !permitted {
        return Some(Interlock);
      }
      error := motor.Renew(id, 3000);
    }

    method SendChat(id: nat, validText: bool, canType: bool) returns (error: Option<Error>)
      requires Wired()
      modifies `phase, `lastFault, `routeFault, motor, backend, host
      ensures Outcome(View(), error) == Spec.SendChat(host.env, old(View()), id, validText, canType)
    {
      hide RequireRunning, Chat, Aborted;
      error := RequireRunningLease(id);
      if error.Some? {
        return;
      }
      if !validText {
        return Some(BadArgument);
      }
      if !canType {
        return Some(WrongState);
      }
      error := TypeUnderLease(id);
      if error.Some? {
        error := Abort(error.value, true, "chat-backend-fault");
      }
    }

    method MoveChunk(id: nat, sequence: nat, dy: int, settle: bool) returns (error: Option<Error>)
      requires Wired()
      modifies motor, backend, host
      ensures Outcome(View(), error) == Spec.MoveChunk(host.env, old(View()), id, sequence, dy, settle)
    {
      hide ChunkMoved, Permitted;
      var permitted := ActuationPermitted();
      if !permitted {
        return Some(Interlock);
      }
      if settle {
        permitted := ActuationPermitted();
        if !permitted {
          return Some(Interlock);
        }
      }
      error := MoveAndRenew(id, sequence, dy);
      if error.Some? {
        return;
      }
      permitted := ActuationPermitted();
      return if permitted then None else Some(Interlock);
    }

    method MoveAndRenew(id: nat, sequence: nat, dy: int) returns (error: Option<Error>)
      requires Wired()
      modifies motor, backend, host
      ensures Outcome(View(), error) == ChunkMoved(host.env, old(View()), id, sequence, dy)
    {
      hide Apply, SafetyModel.Renew, MouseMove;
      error := motor.Apply(id, MouseMove(sequence, 0, dy), None);
      if error.None? && sequence % 25 == 24 {
        error := motor.Renew(id, 5000);
      }
    }

    method MoveCamera(deltas: seq<int>) returns (error: Option<Error>)
      requires Wired()
      modifies motor, backend, host
      ensures Outcome(View(), error) == CalibrationMoves(host.env, old(View()), deltas)
    {
      hide Issue, Spec.MoveChunk;
      error := motor.Issue(CameraCalibration, 5000, {MouseInput}, 50, 0);
      if error.Some? || motor.lease.None? {
        return;
      }
      var id := motor.lease.value.id;
      ghost var begun := View();
      var sequence, returning := 0, false;
      while sequence < |deltas|
        invariant sequence <= |deltas| && error.None? && Wired()
        invariant MoveChunks(host.env, begun, id, 0, deltas, false)
                  == MoveChunks(host.env, View(), id, sequence, deltas[sequence..], returning)
      {
        var settle := deltas[sequence] > 0 && !returning;
        assert deltas[sequence..][1..] == deltas[sequence + 1..];
        error := MoveChunk(id, sequence, deltas[sequence], settle);
        if error.Some? {
          return;
        }
        returning := returning || settle;
        sequence := sequence + 1;
      }
    }

    // Every way out of a private camera transaction revokes its lease.
    method Conclude(raised: Option<Error>, reason: string, always: bool) returns (error: Option<Error>)
      requires Wired()
      modifies `phase, `lastFault, `routeFault, motor, backend, host
      ensures Outcome(View(), error) == Concluded(host.env, Outcome(old(View()), raised), reason, always)
    {
      hide Aborted, SafetyModel.Revoke, Persisted;
      error := raised;
      if raised.Some? {
        error := Abort(raised.value, false, reason);
      }
      var paused := host.OperatorPauseLatched();
      var cleanup := motor.Revoke(if paused then "operator-pause" else reason);
      if cleanup.Some? {
        error := cleanup;
        if !always {
          return;
        }
      }
      error := PersistAfter(error);
    }

    method PublishOrigin() returns (error: Option<Error>)
      requires Wired()
      modifies `phase, `lastFault, `worldCameraPitchUnits, `worldCameraUpdates, `worldCameraOriginCalibrated,
               motor, backend, host
      ensures Outcome(View(), error) == Calibrated(host.env, old(View()))
    {
      hide Spec.Fail, Revoking, Persisted, Permitted;
      var permitted := ActuationPermitted();
      if !permitted {
        var emergency := host.EmergencyStopLatched();
        if emergency {
          error := Fail("emergency-stop-latched");
          return if error.Some? then error else Some(Interlock);
        }
        var paused := host.OperatorPauseLatched();
        if paused {
          error := RevokeMotor("operator-pause");
          return if error.Some? then error else Some(Interlock);
        }
        return Some(Interlock);
      }
      worldCameraPitchUnits, worldCameraUpdates, worldCameraOriginCalibrated := 0, 0, true;
      error := PersistAfter(None);
    }

    method CalibrateWorldCamera(gain: real, validId: bool) returns (error: Option<Error>)
      requires Wired()
      modifies `phase, `lastFault, `routeFault, `worldCameraPitchUnits, `worldCameraUpdates,
               `worldCameraOriginCalibrated, motor, backend, host
      ensures Outcome(View(), error) == Calibrate(host.env, old(View()), gain, validId)
    {
      hide Persisted, CalibrationMoves, Concluded, Calibrated, Permitted, Calibration.Accepted, Calibration.Deltas;
      if !phase.SafeIdle? || !live {
        return Some(WrongState);
      }
      if !validId {
        return Some(BadArgument);
      }
      var deltas := Calibration.BoundedCameraCalibrationDeltas(gain, CALIBRATION_STEP);
      if deltas.None? {
        return Some(BadArgument);
      }
      var permitted := ActuationPermitted();
      if !permitted {
        return Some(Interlock);
      }
      worldCameraOriginCalibrated := false;
      error := PersistAfter(None);
      if error.Some? {
        return;
      }
      error := MoveCamera(deltas.value);
      error := Conclude(error, "camera-calibration", true);
      if error.None? {
        error := PublishOrigin();
      }
    }

    method ProbeMove(dx: int, dy: int) returns (error: Option<Error>)
      requires Wired()
      modifies motor, backend, host
      ensures Outcome(View(), error) == Spec.ProbeMove(host.env, old(View()), dx, dy)
    {
      hide Apply;
      if motor.lease.None? {
        return None;
      }
      error := motor.Apply(motor.lease.value.id, MouseMove(0, dx, dy), None);
      var permitted := ActuationPermitted();
      if error.None? && !permitted {
        error := Some(Interlock);
      }
    }

    method ProbeWorldCamera(dx: int, dy: int) returns (error: Option<Error>)
      requires Wired()
      modifies `phase, `lastFault, `routeFault, `worldCameraPitchUnits, `worldCameraUpdates,
               `worldCameraOriginCalibrated, motor, backend, host
      ensures Outcome(View(), error) == Probe(host.env, old(View()), dx, dy)
    {
      hide Persisted, Issue, Spec.ProbeMove, Concluded, Permitted;
      if (dx == 0) == (dy == 0) || Abs(dx) > 128 || Abs(dy) > 128 {
        return Some(BadArgument);
      }
      if !phase.SafeIdle? || !live {
        return Some(WrongState);
      }
      var permitted := ActuationPermitted();
      if !permitted {
        return Some(Interlock);
      }
      worldCameraPitchUnits, worldCameraUpdates, worldCameraOriginCalibrated := 0, 0, false;
      error := PersistAfter(None);
      if error.Some? {
        return;
      }
      error := motor.Issue(CameraProbe, 2000, {MouseInput}, 50, 0);
      if error.Some? {
        return;
      }
      error := ProbeMove(dx, dy);
      error := Conclude(error, "camera-probe", false);
    }

    // One turn of the serve loop before it waits for a connection.
    method Watchdog() returns (error: Option<Error>)
      requires Wired()
      modifies `phase, `lastFault, `stop, motor, backend, host
      ensures Outcome(View(), error) == Spec.Watchdog(host.env, old(View()))
    {
      hide Spec.Fail, Spec.Stop, Spec.Disarm, Spec.WatchExpiry;
      var emergency := host.EmergencyStopLatched();
      if emergency {
        error := Fail("emergency-stop-latched");
        if error.None? {
          error := Stop();
        }
        return;
      }
      var paused := host.OperatorPauseLatched();
      if paused && (!phase.Paused? || motor.lease.Some?) {
        error := Disarm("operator-pause");
        if error.Some? {
          return;
        }
      }
      error := WatchExpiry();
    }

    method WatchExpiry() returns (error: Option<Error>)
      requires Wired()
      modifies `phase, `lastFault, motor, backend, host
      ensures Outcome(View(), error) == Spec.WatchExpiry(host.env, old(View()))
    {
      hide Spec.Fail, CheckExpiry;
      var expired;
      expired, error := motor.CheckExpiry();
      if error.None? && expired {
        error := Fail("motor-lease-watchdog-expired");
      }
    }

    // One more cleanup is attempted; the first failure is kept.
    method Cleanup(failure: Option<Error>, raised: Error) returns (error: Option<Error>)
      modifies host
      ensures host.tick == old(host.tick) + 1
      ensures error == First(failure, Tried(host.env.fate(old(host.tick)), raised))
    {
      var fate := host.Call();
      error := if failure.None? && fate.Raises? then Some(raised) else failure;
    }

    // Stop, and take all authority back.
    method RevokeOnExit() returns (error: Option<Error>)
      requires Wired()
      modifies `phase, `stop, motor, backend, host
      ensures Outcome(View(), error)
              == Revoking(host.env, Withdraw(old(View())).(phase := Stopped, stopSet := true), "supervisor-exit")
    {
      hide SafetyModel.Revoke;
      motor.trace := motor.trace + [Withdrawn];
      phase, stop := Stopped, true;
      error := motor.Revoke("supervisor-exit");
    }

    method CloseBackendToo(failure: Option<Error>) returns (error: Option<Error>)
      requires Wired()
      modifies backend, host
      ensures var s := old(View());
              var closed := CloseBackend(host.env.fate(s.gate.tick), s.gate.backend);
              && View() == s.(gate := s.gate.(backend := closed.state, tick := s.gate.tick + 1))
              && error == First(failure, closed.error)
    {
      hide CloseBackend;
      var closing := backend.Close();
      error := if failure.Some? then failure else closing;
    }

    method CloseOwnedRuntime(prior: Option<Error>) returns (error: Option<Error>)
      requires Wired()
      modifies `phase, `stop, motor, backend, host
      ensures Outcome(View(), error) == CloseRuntime(host.env, old(View()), prior)
    {
      hide Revoking, CloseBackend, Tried, First, Withdraw;
      error := RevokeOnExit();
      error := First(prior, error);
      error := Cleanup(error, CleanupFault);
      error := CloseBackendToo(error);
      error := Cleanup(error, PersistFault);
      error := Cleanup(error, CleanupFault);
    }
  }
}
