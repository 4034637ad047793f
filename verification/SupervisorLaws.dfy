/** Exactly when each supervisor call returns without an error, and what it leaves, by the readings and answers of
    the ticks it takes. */
module SupervisorLaws {
  import opened Common
  import opened Motor
  import opened SafetyModel
  import opened SafetyFacts
  import opened SafetyLaws
  import opened SupervisorModel

  /** The same supervisor, with time at tick `t`. */
  function At(s: Sup, t: nat): Sup { s.(gate := s.gate.(tick := t)) }

  /** Neither latch is seen, by the two readings that start at tick `t`. */
  predicate Unlatched(env: Env, t: nat) { !env.emergency(t) && !env.paused(t + 1) }

  /** The lifecycle, by where each phase can be entered from. */
  lemma EnteredFrom(p: Phase)
    ensures Starting in AllowedTargets(p) <==> p.Stopped?
    ensures SafeIdle in AllowedTargets(p) <==> p.Starting? || p.Paused?
    ensures Armed in AllowedTargets(p) <==> p.SafeIdle?
    ensures Running in AllowedTargets(p) <==> p.Armed?
    ensures Paused in AllowedTargets(p) <==> p.SafeIdle? || p.Armed? || p.Running?
    ensures Stopping in AllowedTargets(p) <==> !p.Stopped? && !p.Stopping? && !p.Failsafe?
    ensures Failsafe in AllowedTargets(p) <==> !p.Stopped? && !p.Failsafe?
    ensures Stopped in AllowedTargets(p) <==> p.Stopping? || p.Failsafe?
  {
  }

  /** A new supervisor is stopped: it has no lease, holds nothing, has no fault and no calibrated origin. */
  lemma NewIsStopped()
    ensures var s := NewSupervisor();
            && s.phase.Stopped? && !s.stopSet && !s.live && s.lastFault == "" && !s.routeFault
            && s.pitch == 0 && s.updates == 0 && !s.originCalibrated
            && s.gate.lease.None? && s.gate.lastSequence < 0 && s.gate.trace == [] && s.gate.tick == 0
            && s.gate.backend.held == RELEASED && s.gate.backend.bound.None? && s.gate.backend.open
  {
  }

  // --- Withdrawing authority ----------------------------------------------------------------------------

  /** The gate with its lease revoked at tick `t`, for a reason, after a withdrawal is written down. */
  function Withdrawing(env: Env, g: Gate, t: nat, reason: string): Outcome<Gate> {
    Revoke(env, Gate(g.lease, g.lastSequence, g.reason, g.backend, t, g.trace + [Event.Withdrawn]), reason)
  }

  /** A supervisor that has revoked and then published its status: what publishing raises comes first. */
  function Published(env: Env, s: Sup, r: Outcome<Gate>): Outcome<Sup> {
    Outcome(s.(gate := r.state.(tick := r.state.tick + 1)),
            if env.fate(r.state.tick).Raises? then Some(PersistFault) else r.error)
  }

  /** A failure is recorded, and leads to the fault phase, unless the supervisor is stopped. */
  lemma FailTold(env: Env, s: Sup, reason: string)
    ensures var r := Withdrawing(env, s.gate, s.gate.tick, reason);
            Fail(env, s, reason)
            == if s.phase.Stopped? then Outcome(s.(gate := s.gate.(trace := s.gate.trace + [Event.Withdrawn])), None)
               else Published(env, s.(phase := Failsafe, lastFault := reason), r)
  {
    hide Revoke;
  }

  /** A disarm pauses what was armed or running, and names the operator's pause when that is why it was paused. */
  lemma DisarmTold(env: Env, s: Sup, reason: string)
    ensures var t := s.gate.tick;
            var why := if env.paused(t) && s.phase.Paused? then "operator-pause" else reason;
            var r := Withdrawing(env, s.gate, t + 1, why);
            Disarm(env, s, reason)
            == Published(env, if s.phase.Armed? || s.phase.Running? then s.(phase := Paused) else s, r)
  {
    hide Revoke;
  }

  /** A pause does nothing where there is nothing to pause, is refused while starting, and keeps the fault phase. */
  lemma PauseTold(env: Env, s: Sup)
    ensures var w := s.(gate := s.gate.(trace := s.gate.trace + [Event.Withdrawn]));
            Pause(env, s)
            == match s.phase
               case Paused | Stopped | Stopping => Outcome(w, None)
               case Starting => Outcome(w, Some(WrongState))
               case SafeIdle | Armed | Running =>
                 Published(env, s.(phase := Paused), Withdrawing(env, s.gate, s.gate.tick, "operator-pause"))
               case Failsafe => Published(env, s, Withdrawing(env, s.gate, s.gate.tick, "operator-pause"))
  {
    hide Revoke;
  }

  lemma StopTold(env: Env, s: Sup)
    ensures Stop(env, s)
            == Published(env, s.(phase := Stopped, stopSet := true),
                         Withdrawing(env, s.gate, s.gate.tick, "operator-stop"))
  {
    hide Revoke;
  }

  /** A guarded call goes on exactly when neither latch is set; otherwise it fails or disarms before it refuses. */
  lemma GuardedTold(env: Env, s: Sup)
    ensures var t := s.gate.tick;
            Guarded(env, s)
            == if Unlatched(env, t) then Outcome(At(s, t + 2), None)
               else
                 var r := if env.emergency(t) then Fail(env, At(s, t + 1), "emergency-stop-latched")
                          else Disarm(env, At(s, t + 2), "operator-pause");
                 Outcome(r.state, if r.error.None? then Some(Interlock) else r.error)
    ensures Permitted(env, s) <==> Unlatched(env, s.gate.tick)
  {
    hide Fail, Disarm;
  }

  // --- Lifecycle ----------------------------------------------------------------------------------------

  /** A start returns exactly when no emergency is latched, the supervisor was stopped, both statuses are published
      and, under a pause, the pause gets through; then it is idle, or paused without a lease. */
  lemma StartReturns(env: Env, s: Sup)
    ensures var out, t := Start(env, s), s.gate.tick;
            var idle := At(s, t + 4).(phase := SafeIdle);
            && (env.emergency(t) ==>
                  var r := Revoke(env, s.gate.(tick := t + 1), "emergency-stop-latched");
                  out == if r.error.Some?
                         then Outcome(s.(gate := r.state, lastFault := "emergency-stop-latched"), r.error)
                         else
                           var p := Published(env, s.(lastFault := "emergency-stop-latched"), r);
                           Outcome(p.state, if p.error.Some? then p.error else Some(Interlock)))
            && (!env.emergency(t) && !s.phase.Stopped? ==> out == Outcome(At(s, t + 1), Some(WrongState)))
            && (!env.emergency(t) && s.phase.Stopped? ==>
                  out == if env.fate(t + 1).Raises? then Outcome(At(s, t + 2).(phase := Starting), Some(PersistFault))
                         else if env.fate(t + 2).Raises?
                         then Outcome(At(s, t + 3).(phase := SafeIdle), Some(PersistFault))
                         else if env.paused(t + 3) then Pause(env, idle)
                         else Outcome(idle, None))
  {
    hide Revoke, Pause;
  }

  /** Only a paused supervisor resumes; a faulty one stops; an emergency refuses either. */
  lemma ResumeTold(env: Env, s: Sup)
    ensures var t := s.gate.tick;
            Resume(env, s)
            == if env.emergency(t) then Outcome(At(s, t + 1), Some(Interlock))
               else match s.phase
                 case SafeIdle => Outcome(At(s, t + 1), None)
                 case Failsafe => Stop(env, At(s, t + 1))
                 case Paused => Outcome(At(s, t + 2).(phase := SafeIdle),
                                        if env.fate(t + 1).Raises? then Some(PersistFault) else None)
                 case _ => Outcome(At(s, t + 1), Some(WrongState))
  {
    hide Stop;
  }

  /** A backend is replaced exactly when the supervisor is idle, the old one is revoked, released and closed
      without an error, and the status is published. The new gate starts without a lease; the camera ledger
      survives only if that is asked for. */
  lemma ReplaceReturns(env: Env, s: Sup, live: bool, preserve: bool)
    ensures var out, t := ReplaceBackend(env, s, live, preserve), s.gate.tick;
            var r := Revoke(env, s.gate, "backend-replacement");
            var released := ReleaseAll(env.fate(t + 2), r.state.backend);
            var closed := CloseBackend(env.fate(t + 3), released.state);
            var gate := Gate(None, -1, "not-issued", Backend(None, RELEASED, true, true), t + 5, r.state.trace);
            if !s.phase.SafeIdle? then out == Outcome(s, Some(WrongState))
            else if r.error.Some? then out == Outcome(s.(gate := r.state), r.error)
            else if closed.error.Some? || released.error.Some? then
              out == Outcome(s.(gate := r.state.(backend := closed.state, tick := t + 4)),
                             if closed.error.Some? then closed.error else released.error)
            else
              && out.state == (if preserve then s.(gate := gate, live := live)
                               else s.(gate := gate, live := live, pitch := 0, updates := 0, originCalibrated := false))
              && out.error == if env.fate(t + 4).Raises? then Some(PersistFault) else None
  {
    hide Revoke, ReleaseAll, CloseBackend, Retired;
    RevokeTold(env, s.gate, "backend-replacement");
    RetiredTold(env, s.(gate := Revoke(env, s.gate, "backend-replacement").state));
  }

  /** An old backend is released and closed, whatever the release does. */
  lemma RetiredTold(env: Env, s: Sup)
    ensures var t := s.gate.tick;
            var released := ReleaseAll(env.fate(t), s.gate.backend);
            var closed := CloseBackend(env.fate(t + 1), released.state);
            Retired(env, s) == Outcome(s.(gate := s.gate.(backend := closed.state, tick := t + 2)),
                                       if closed.error.Some? then closed.error else released.error)
  {
    hide ReleaseAll, CloseBackend;
  }

  // --- Arming, activating and renewing --------------------------------------------------------------------

  /** Arming returns exactly when neither latch is set, the supervisor is idle, the target is named, the backend
      calls of the issue go through, and the status is published. The lease allows all three kinds of input, of a
      quarter of a second each and from sequence zero on, for three seconds from the reading at which it was
      granted. */
  lemma ArmReturns(env: Env, s: Sup, target: string)
    ensures var out, t := Arm(env, s, target), s.gate.tick;
            && (out.error.None? <==>
                  && Unlatched(env, t) && s.phase.SafeIdle? && target != ""
                  && IssueGoesThrough(env, t + 2, s.gate.backend) && !env.fate(t + 6).Raises?)
            && (out.error.None? ==>
                  var lease := Lease(t + 4, Instance(target), env.now(t + 4) + 3_000_000_000,
                                     {KeyboardInput, ButtonInput, MouseInput}, 250, 0);
                  out.state
                  == s.(phase := Armed,
                        gate := Gate(Some(lease), -1, "active", Backend(Some(lease), RELEASED, true, true), t + 7,
                                     s.gate.trace + [Revoked] + [Issued(lease, env.now(t + 4))])))
  {
    hide Issue;
    IssueTold(env, s.gate.(tick := s.gate.tick + 2), Instance(target), 3000, ALL_KINDS, 250, 0);
  }

  /** How an arm is refused: only a pause touches the lease; an issue that fails, or a status that is not
      published, reports that. */
  lemma ArmRefused(env: Env, s: Sup, target: string)
    ensures var out, t := Arm(env, s, target), s.gate.tick;
            if env.emergency(t) then out == Outcome(At(s, t + 1), Some(Interlock))
            else if env.paused(t + 1) then
              var r := Revoke(env, s.gate.(tick := t + 2), "operator-pause");
              out == Outcome(s.(gate := r.state), if r.error.None? then Some(Interlock) else r.error)
            else if !s.phase.SafeIdle? then out == Outcome(At(s, t + 2), Some(WrongState))
            else
              var issued := Issue(env, s.gate.(tick := t + 2), Instance(target), 3000,
                                  {KeyboardInput, ButtonInput, MouseInput}, 250, 0);
              issued.error.Some? ==> out == Outcome(s.(gate := issued.state), issued.error)
  {
    hide Issue, Revoke;
  }

  /** Activating returns exactly when neither latch is set, the supervisor is armed with a lease that has not
      expired, and the status is published. */
  lemma ActivateReturns(env: Env, s: Sup)
    ensures var out, t := Activate(env, s), s.gate.tick;
            && (out.error.None? && out.state.phase.Running? <==>
                  && Unlatched(env, t) && s.phase.Armed? && s.gate.lease.Some?
                  && env.now(t + 2) < s.gate.lease.value.expires && !env.fate(t + 3).Raises?)
            && (out.error.None? && out.state.phase.Running? ==>
                  out.state == s.(phase := Running,
                                  gate := s.gate.(tick := t + 4,
                                                  trace := s.gate.trace + [Activated(s.gate.lease.value.id)])))
  {
    hide Revoke, Fail;
    GuardedTold(env, s);
    if s.phase.Armed? && Unlatched(env, s.gate.tick) {
      var read := At(s, s.gate.tick + 3);
      FailTold(env, s.(gate := Revoke(env, read.gate, "activate-without-live-lease").state),
               "activate-without-live-lease");
    }
  }

  /** Without a live lease to activate, the supervisor revokes and then fails. */
  lemma ActivateRefused(env: Env, s: Sup)
    ensures var out, t := Activate(env, s), s.gate.tick;
            if !Unlatched(env, t) then out == Guarded(env, s)
            else if !s.phase.Armed? then out == Outcome(At(s, t + 2), Some(WrongState))
            else if s.gate.lease.None? || env.now(t + 2) >= s.gate.lease.value.expires then
              var r := Revoke(env, s.gate.(tick := t + 3), "activate-without-live-lease");
              out == if r.error.Some? then Outcome(s.(gate := r.state), r.error)
                     else Fail(env, s.(gate := r.state), "activate-without-live-lease")
            else true
  {
    hide Revoke, Fail, Guarded;
    GuardedTold(env, s);
  }

  lemma RenewCallReturns(env: Env, s: Sup, id: nat, ttlMs: int)
    ensures var out, t := RenewLease(env, s, id, ttlMs), s.gate.tick;
            out == if !Unlatched(env, t) then Guarded(env, s)
                   else if s.phase.Armed? || s.phase.Running? then
                     var r := Renew(env, s.gate.(tick := t + 2), id, ttlMs);
                     Outcome(s.(gate := r.state), r.error)
                   else Outcome(At(s, t + 2), Some(WrongState))
  {
    hide Renew, Guarded;
    GuardedTold(env, s);
  }

  // --- Acting under the runtime lease ---------------------------------------------------------------------

  /** A runtime call gets through exactly when neither latch is set, the supervisor runs, and the live lease is
      named before it expires. Without such a lease it revokes and fails. */
  lemma RequireRunningTold(env: Env, s: Sup, id: nat)
    ensures var t := s.gate.tick;
            RequireRunning(env, s, id)
            == if !Unlatched(env, t) then Guarded(env, s)
               else if !s.phase.Running? then Outcome(At(s, t + 2), Some(WrongState))
               else if s.gate.lease.Some? && s.gate.lease.value.id == id && env.now(t + 2) < s.gate.lease.value.expires
               then Outcome(At(s, t + 3), None)
               else
                 var r := Revoke(env, s.gate.(tick := t + 3), "invalid-runtime-lease");
                 if r.error.Some? then Outcome(s.(gate := r.state), r.error)
                 else
                   var f := Fail(env, s.(gate := r.state), "invalid-runtime-lease");
                   Outcome(f.state, if f.error.None? then Some(Rejected) else f.error)
    ensures !Unlatched(env, s.gate.tick) ==> Guarded(env, s).error.Some?
  {
    hide Revoke, Fail, Guarded;
    GuardedTold(env, s);
  }

  /** Everything that must hold for an action to be accepted at tick `t`. */
  predicate Acceptable(env: Env, s: Sup, id: nat, a: MotorAction) {
    var t := s.gate.tick;
    && Unlatched(env, t) && s.phase.Running?
    && s.gate.lease.Some? && s.gate.lease.value.id == id
    && env.now(t + 2) < s.gate.lease.value.expires && env.now(t + 3) < s.gate.lease.value.expires
    && Admissible(a) && a.durationMs <= s.gate.lease.value.maxDurationMs && s.gate.lastSequence < a.sequence
    && (forall kind :: kind in Kinds(a) ==> kind in s.gate.lease.value.allowed)
    && s.gate.backend.open && s.gate.backend.bound.Some? && !env.fate(t + 4).Raises? && !env.fate(t + 6).Raises?
  }

  /** An action is accepted, and the call returns, exactly then. Its presses and releases are made, its sequence
      number used, the lease prolonged by five seconds, and the camera ledger moved if it moves the world camera. */
  lemma ApplyActionReturns(env: Env, s: Sup, id: nat, a: MotorAction)
    ensures var out, t := ApplyMotorAction(env, s, id, a), s.gate.tick;
            && (out.error.None? <==> Acceptable(env, s, id, a))
            && (out.error.None? ==>
                  var lease := s.gate.lease.value;
                  var longer := lease.(expires := env.now(t + 5) + 5_000_000_000);
                  var moves := a.world && !(a.dx == 0 && a.dy == 0);
                  out.state
                  == s.(gate := Gate(Some(longer), a.sequence, s.gate.reason,
                                     Backend(Some(longer), Press(s.gate.backend.held, a), true, s.gate.backend.neutral),
                                     t + 7,
                                     s.gate.trace + [Applied(lease, a, env.now(t + 3))]
                                     + [Extended(longer, env.now(t + 5))]),
                        pitch := if moves then s.pitch + a.dy else s.pitch,
                        updates := if moves then s.updates + 1 else s.updates))
  {
    hide Revoke, Fail, Guarded, RequireRunning, Apply, Admissible, Press;
    RequireRunningTold(env, s, id);
    var ready := RequireRunning(env, s, id);
    if ready.error.None? {
      ApplyReturns(env, s.gate.(tick := s.gate.tick + 3), id, a, Some(5000));
    }
  }

  /** How an action ends that is not accepted: a malformed one fails the supervisor, and so does a backend that has
      lost its route; a refusal or another fault only costs the lease. */
  lemma ApplyActionFails(env: Env, s: Sup, id: nat, a: MotorAction)
    ensures var out, ready := ApplyMotorAction(env, s, id, a), RequireRunning(env, s, id);
            && (ready.error.Some? ==> out == ready)
            && (ready.error.None? && !Admissible(a) ==>
                  out == Outcome(Fail(env, ready.state, "invalid-motor-action").state, Some(BadArgument)))
            && (ready.error.None? && Admissible(a) ==>
                  var done := Apply(env, ready.state.gate, id, a, Some(5000));
                  var after := ready.state.(gate := done.state);
                  done.error.Some? ==>
                    out == if done.error.value == BackendFault(true)
                           then Outcome(Fail(env, after.(routeFault := true), "motor-action").state, done.error)
                           else Outcome(after, done.error))
  {
    hide Fail, RequireRunning, Apply, Admissible;
  }

  /** After an arm and an activation that returned, an action is accepted, and the call returns, if and only if
      neither latch is set, the lease that was granted is named, both readings come less than three seconds after
      the one at which it was granted, the action is well formed and takes at most a quarter of a second, and the
      backend acts on it and takes the refreshed lease. */
  lemma ArmedAndActivatedActs(env: Env, s: Sup, target: string, id: nat, a: MotorAction)
    requires var s1 := Arm(env, s, target);
             s1.error.None? && var s2 := Activate(env, s1.state); s2.error.None? && s2.state.phase.Running?
    ensures var s2, t := Activate(env, Arm(env, s, target).state).state, s.gate.tick;
            var out, expires := ApplyMotorAction(env, s2, id, a), env.now(t + 4) + 3_000_000_000;
            && s2.gate.tick == t + 11
            && (out.error.None? <==>
                  && !env.emergency(t + 11) && !env.paused(t + 12) && id == t + 4
                  && env.now(t + 13) < expires && env.now(t + 14) < expires
                  && Admissible(a) && a.durationMs <= 250
                  && !env.fate(t + 15).Raises? && !env.fate(t + 17).Raises?)
            && (out.error.None? ==> out.state.gate.backend.held == Press(RELEASED, a))
  {
    hide Arm, Activate, ApplyMotorAction, Kinds, Press;
    ArmReturns(env, s, target);
    ActivateReturns(env, Arm(env, s, target).state);
    ApplyActionReturns(env, Activate(env, Arm(env, s, target).state).state, id, a);
    EveryKind(a);
  }

  lemma EveryKind(a: MotorAction)
    ensures forall kind :: kind in Kinds(a) ==> kind in {KeyboardInput, ButtonInput, MouseInput}
  {
  }
}
