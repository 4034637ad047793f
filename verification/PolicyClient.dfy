/** The client as the object it is: fields updated step by step, each method equal to its
    specification in PolicyModel. */
module PolicyClient {
  import opened Common
  import opened Motor
  import Model = PolicyModel

  /** Pitch of the one physical camera, shared by every body policy of a view. */
  class WorldCameraState {
    var estimatedPitchUnits: int

    constructor ()
      ensures estimatedPitchUnits == 0
    {
      estimatedPitchUnits := 0;
    }
  }

  // How the guarded part of `act` ends: with an action, past a deadline, or with an exception.
  datatype Ending = Acted(action: MotorAction) | DeadlineExpired | Raised

  class TemporalPolicyClient {
    const config: Model.Config
    const worldCamera: WorldCameraState  // bound before the first call

    var heldKeys: set<Token>
    var heldButtons: set<Token>
    var heldUntilNs: int
    var lastSequence: int
    var pendingRequestId: Option<nat>
    var pendingDeadlineNs: int
    var discardPendingResponse: bool
    var pendingCamera: (int, int)
    var pendingCameraIsWorld: bool
    var predictedCameraX: int
    var emittedCameraX: int
    var lastSighting: Option<nat>
    var nextRequestId: nat
    ghost var droppedCameraX: int
    ghost var inFlight: int

    ghost function View(): Model.Client
      reads this
    {
      Model.Client(
        Keyboard(heldKeys, heldButtons), heldUntilNs, lastSequence,
        if pendingRequestId.Some? then Some(Model.Request(pendingRequestId.value, pendingDeadlineNs)) else None,
        discardPendingResponse,
        Model.Queue(pendingCamera.0, pendingCamera.1, pendingCameraIsWorld), lastSighting,
        Model.Ledger(predictedCameraX, emittedCameraX, droppedCameraX, inFlight, nextRequestId))
    }

    ghost function Pitch(): int
      reads this, worldCamera
    {
      worldCamera.estimatedPitchUnits
    }

    constructor (config: Model.Config, worldCamera: WorldCameraState)
      ensures this.config == config && this.worldCamera == worldCamera
      ensures View() == Model.FRESH
    {
      this.config, this.worldCamera := config, worldCamera;
      heldKeys, heldButtons, heldUntilNs, lastSequence := {}, {}, 0, -1;
      pendingRequestId, pendingDeadlineNs, discardPendingResponse := None, 0, false;
      pendingCamera, pendingCameraIsWorld := (0, 0), true;
      predictedCameraX, emittedCameraX, droppedCameraX := 0, 0, 0;
      lastSighting, nextRequestId, inFlight := None, 0, 0;
    }

    method Act(sequence: int, tick: Model.Tick) returns (action: Option<MotorAction>)
      modifies this, worldCamera
      ensures Model.Step(View(), Pitch(), action) == Model.Act(config, old(View()), old(Pitch()), sequence, tick)
    {
      hide Model.Attempt, Model.Release, Model.Close;
      if sequence <= lastSequence {
        return None;
      }
      lastSequence := sequence;
      if tick.sceneBlocked || !tick.frame {
        action := Release();
        return;
      }
      var ending := Attempt(tick);
      match ending
      case Acted(a) => action := Some(a);
      case DeadlineExpired => action := Release();
      case Raised =>
        Close();
        action := Release();
    }

    ghost function Turn(ending: Ending): Model.Turn
      reads this, worldCamera
    {
      match ending
      case Acted(a) => Model.Emits(View(), Pitch(), a)
      case DeadlineExpired => Model.Late(View(), Pitch())
      case Raised => Model.Fails(View(), Pitch())
    }

    method Attempt(tick: Model.Tick) returns (ending: Ending)
      modifies this, worldCamera
      ensures Turn(ending) == Model.Attempt(config, old(View()), old(Pitch()), tick)
    {
      hide Model.Consume, Model.Settle, Model.Release;
      var started := EnsureStarted(tick);
      if !started {
        return Raised;
      }
      if pendingRequestId.Some? && tick.hung {
        Close();
        ending := Releasing();
        return;
      }
      var reading := ConsumePendingResponse(tick);
      ending := Settle(reading, tick);
    }

    method EnsureStarted(tick: Model.Tick) returns (started: bool)
      modifies this
      ensures started == !tick.worker.Unavailable?
      ensures View() == if tick.worker.Alive? then old(View()) else Model.Close(old(View()))
    {
      if tick.worker.Alive? {
        return true;
      }
      Close();
      return tick.worker.Restarted?;
    }

    method Settle(reading: Model.Reading, tick: Model.Tick) returns (ending: Ending)
      modifies this, worldCamera
      ensures Turn(ending)
              == Model.Settle(config, Model.Consumed(old(View()), reading), old(Pitch()), tick)
    {
      hide Model.Hold, Model.Respond, Model.Release;
      if reading.Broken? {
        return Raised;
      }
      if reading.TooLate? {
        return DeadlineExpired;
      }
      if pendingRequestId.Some? {
        if tick.clock.pending <= pendingDeadlineNs {
          ending := Hold(tick);
        } else {
          ending := Releasing();
        }
        return;
      }
      ending := Respond(reading, tick);
    }

    method Respond(reading: Model.Reading, tick: Model.Tick) returns (ending: Ending)
      requires reading.Answer? || reading.Nothing?
      requires pendingRequestId.None?
      modifies this, worldCamera
      ensures Turn(ending) == Model.Respond(config, old(View()), old(Pitch()), reading, tick)
    {
      hide Model.Hold, Model.Release, Model.Apply, Model.Submit;
      var response := if discardPendingResponse then Model.Nothing else reading;
      discardPendingResponse := false;
      if response.Nothing? {
        if pendingCamera != (0, 0) {
          ending := Hold(tick);
          return;
        }
        if !tick.submitAccepted {
          return Raised;
        }
        Submit(tick);
        ending := Hold(tick);
        return;
      }
      if !response.record.Prediction? {
        return Raised;
      }
      var output := response.record.output;
      if output.latencyNs > config.deadlineNs || 0 < response.deadline <= tick.clock.output {
        ending := Releasing();
        return;
      }
      if !output.admitted {
        return Raised;
      }
      ending := OutputAction(output, tick);
    }

    method ConsumePendingResponse(tick: Model.Tick) returns (reading: Model.Reading)
      modifies this
      ensures Model.Consumed(View(), reading) == Model.Consume(old(View()), tick)
    {
      if pendingRequestId.None? || tick.reply.Silent? {
        return Model.Nothing;
      }
      if tick.reply.Died? {
        return Model.Broken;
      }
      var requestId, deadline := pendingRequestId.value, pendingDeadlineNs;
      pendingRequestId := None;
      pendingDeadlineNs := 0;
      inFlight := inFlight - 1;
      var record := tick.reply.record;
      if tick.reply.id != requestId || record.Malformed? {
        return Model.Broken;
      }
      if discardPendingResponse {
        return Model.Answer(record, deadline);
      }
      if record.Failure? {
        return if record.timedOut && 0 < deadline <= tick.clock.reply then Model.TooLate else Model.Broken;
      }
      return Model.Answer(record, deadline);
    }

    method Submit(tick: Model.Tick)
      modifies this
      ensures View() == Model.Submit(config, old(View()), tick)
    {
      pendingRequestId := Some(nextRequestId);
      pendingDeadlineNs := tick.clock.submit + config.deadlineNs;
      nextRequestId := nextRequestId + 1;
      inFlight := inFlight + 1;
    }

    method Enqueue(output: Model.Output)
      modifies this
      ensures View() == Model.Enqueue(old(View()), output)
    {
      if output.sighting.Some? {
        lastSighting := output.sighting;
      }
      predictedCameraX := predictedCameraX + output.dx;
      if pendingCamera != (0, 0) && output.world != pendingCameraIsWorld {
        droppedCameraX := droppedCameraX + pendingCamera.0;
        pendingCamera := (0, 0);
      }
      pendingCamera := (pendingCamera.0 + output.dx, pendingCamera.1 + output.dy);
      pendingCameraIsWorld := output.world;
    }

    method OutputAction(output: Model.Output, tick: Model.Tick) returns (ending: Ending)
      modifies this, worldCamera
      ensures Turn(ending) == Model.Apply(config, old(View()), old(Pitch()), output, tick)
    {
      hide Model.Drain, Admissible;
      Enqueue(output);
      var dx, dy := DrainCamera();
      var desired := output.held;
      var action := MotorAction(lastSequence, desired.keys - heldKeys, heldKeys - desired.keys,
                                desired.buttons - heldButtons, heldButtons - desired.buttons,
                                dx, dy, None, output.world, 50);
      assert action == Model.Steered(
        Toward(lastSequence, old(View()).held, desired),
        Model.Drain(config, Model.Enqueue(old(View()), output).queue, old(Pitch())), output.world);
      if !Admissible(action) {
        return Raised;
      }
      heldKeys := desired.keys;
      heldButtons := desired.buttons;
      heldUntilNs := tick.clock.hold + tick.horizonNs;
      return Acted(action);
    }

    // Motion farther toward a pitch pole is rejected and forgotten.
    method BoundPitch(slice: int, rest: int) returns (dy: int, remainingY: int)
      modifies worldCamera
      ensures dy == Model.Enveloped(config.pitchLimit, old(Pitch()), slice) && Pitch() == old(Pitch()) + dy
      ensures remainingY == if Abs(old(Pitch())) > config.pitchLimit || dy != slice then 0 else rest
    {
      var limit: int := config.pitchLimit;
      var pitch := worldCamera.estimatedPitchUnits;
      dy, remainingY := slice, rest;
      if pitch > limit {
        dy := Min(0, dy);
        pitch := pitch + dy;
        remainingY := 0;
      } else if pitch < 0 - limit {
        dy := Max(0, dy);
        pitch := pitch + dy;
        remainingY := 0;
      } else {
        var bounded := Max(0 - limit, Min(limit, pitch + dy));
        if bounded - pitch != dy {
          remainingY := 0;
        }
        dy := bounded - pitch;
        pitch := bounded;
      }
      worldCamera.estimatedPitchUnits := pitch;
    }

    method DrainCamera() returns (dx: int, dy: int)
      modifies `pendingCamera, `pendingCameraIsWorld, `emittedCameraX, worldCamera
      ensures var m := Model.Drain(config, old(View()).queue, old(Pitch()));
              View() == Model.Moved(old(View()), m) && Pitch() == m.pitch && dx == m.dx && dy == m.dy
    {
      hide Model.Enveloped;
      var pendingX, pendingY := pendingCamera.0, pendingCamera.1;
      var maxStep: int := config.maxStep;
      if maxStep > 0 {
        dx := Max(0 - maxStep, Min(maxStep, pendingX));
        dy := Max(0 - maxStep, Min(maxStep, pendingY));
      } else {
        dx, dy := pendingX, pendingY;
      }
      var remainingX, remainingY := pendingX - dx, pendingY - dy;
      if config.pitchLimit > 0 && pendingCameraIsWorld {
        dy, remainingY := BoundPitch(dy, remainingY);
      }
      pendingCamera := (remainingX, remainingY);
      if remainingX == 0 && remainingY == 0 {
        pendingCameraIsWorld := true;
      }
      emittedCameraX := emittedCameraX + dx;
    }

    // Renew the hold for a request in flight, or give up what is held once its time is over.
    method RenewOrExpire(tick: Model.Tick) returns (keysUp: set<Token>, buttonsUp: set<Token>)
      modifies `heldKeys, `heldButtons, `heldUntilNs
      ensures var c := old(View());
              var expires := Model.HoldExpires(c, tick);
              && View() == c.(held := if expires then RELEASED else c.held,
                              heldUntil := if expires then 0 else Model.HoldDeadline(c, tick))
              && Keyboard(keysUp, buttonsUp) == if expires then c.held else RELEASED
    {
      var now := tick.clock.hold;
      var hasHeldState := heldKeys != {} || heldButtons != {};
      if hasHeldState && pendingRequestId.Some? && now < pendingDeadlineNs {
        heldUntilNs := Max(heldUntilNs, Min(now + tick.horizonNs, pendingDeadlineNs));
      }
      keysUp, buttonsUp := {}, {};
      if hasHeldState && now >= heldUntilNs {
        keysUp, buttonsUp := heldKeys, heldButtons;
        heldKeys, heldButtons, heldUntilNs := {}, {}, 0;
      }
    }

    method Hold(tick: Model.Tick) returns (ending: Ending)
      modifies this, worldCamera
      ensures Turn(ending) == Model.Hold(config, old(View()), old(Pitch()), tick)
    {
      hide Model.Drain, Admissible, Model.HoldDeadline, Model.HoldExpires;
      var keysUp, buttonsUp := RenewOrExpire(tick);
      var semantics := pendingCameraIsWorld;
      label drained:
      var dx, dy := DrainCamera();
      var action := MotorAction(lastSequence, {}, keysUp, {}, buttonsUp, dx, dy, None, semantics, 50);
      assert action == Model.Steered(
        Toward(lastSequence, old(View()).held, old@drained(View()).held),
        Model.Drain(config, old(View()).queue, old(Pitch())), semantics);
      if !Admissible(action) {
        return Raised;
      }
      return Acted(action);
    }

    method Release() returns (action: Option<MotorAction>)
      modifies this
      ensures Model.Step(View(), Pitch(), action) == Model.Release(old(View()), Pitch())
    {
      var release := Neutral(lastSequence).(keysUp := heldKeys, buttonsUp := heldButtons);
      assert release == Toward(lastSequence, View().held, RELEASED);
      if !Admissible(release) {
        return None;
      }
      ClearInputState();
      return Some(release);
    }

    // A release inside the guarded part: an inadmissible action is one more exception there.
    method Releasing() returns (ending: Ending)
      modifies this
      ensures Turn(ending) == Model.Releasing(old(View()), Pitch())
    {
      var action := Release();
      return if action.Some? then Acted(action.value) else Raised;
    }

    method ClearInputState()
      modifies this
      ensures View() == Model.ClearInput(old(View()))
    {
      heldKeys, heldButtons, heldUntilNs := {}, {}, 0;
      DropCamera();
    }

    // Motion not yet emitted is forgotten.
    method DropCamera()
      modifies `pendingCamera, `pendingCameraIsWorld, `droppedCameraX
      ensures View() == Model.DropQueue(old(View()))
    {
      droppedCameraX := droppedCameraX + pendingCamera.0;
      pendingCamera := (0, 0);
      pendingCameraIsWorld := true;
    }

    method RetirePendingAction()
      modifies this
      ensures View() == Model.RetirePending(old(View()))
    {
      if pendingRequestId.Some? {
        discardPendingResponse := true;
      }
    }

    method NotifyInputsReleased()
      modifies this
      ensures View() == Model.NotifyReleased(old(View()))
    {
      RetirePendingAction();
      ClearInputState();
    }

    method Close()
      modifies this
      ensures View() == Model.Close(old(View()))
    {
      inFlight := 0;
      pendingRequestId := None;
      pendingDeadlineNs := 0;
      discardPendingResponse := false;
      lastSighting := None;
      DropCamera();
    }

    method ResetScope(advanceSequence: bool, write: Model.ResetWrite) returns (action: Option<MotorAction>)
      modifies this
      ensures Model.Step(View(), Pitch(), action)
              == Model.Reset(old(View()), Pitch(), advanceSequence, write)
    {
      var sequence := Max(0, lastSequence + if advanceSequence then 1 else 0);
      RetirePendingAction();
      match write {
        case Written =>
        case Closes => Close();
        case Escapes => return None;
      }
      lastSequence := sequence;
      action := Release();
    }
  }
}
