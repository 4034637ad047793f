/** Motor authority over every run of supervisor calls, each returning or raising. */
module SupervisorFacts {
  import opened Common
  import opened Motor
  import opened SafetyModel
  import opened SafetyFacts
  import opened SupervisorModel
  import Calibration

  /** Between calls a live lease belongs to an armed or running supervisor, the backend is bound to
      that very lease, and a running one has activated it. Running without a lease is allowed. */
  ghost predicate SupOk(env: Env, s: Sup) {
    && GateOk(env, s.gate)
    && (s.gate.lease.Some? ==>
          (s.phase.Armed? || s.phase.Running?) && s.gate.lease.value.target.Instance?)
    && (s.phase.Running? ==> Active(s.gate))
  }

  /** No authority is left. */
  ghost predicate Quiesced(env: Env, s: Sup) { Fenced(env, s.gate) }

  /** What a run has recorded survives any next event that is not an action. */
  ghost predicate Historic(s: Sup) { Recorded(s.gate) }

  lemma LaterKept(env: Env, s: Sup, ticks: nat)
    requires Monotone(env) && GateOk(env, s.gate)
    ensures GateOk(env, Later(s, ticks).gate) && (Active(s.gate) ==> Active(Later(s, ticks).gate))
  {
    hide Lawful, InOrder, Authority;
    TickChronicled(env, s.gate, Later(s, ticks).gate);
  }

  lemma QuiescedLater(env: Env, s: Sup, ticks: nat)
    requires Monotone(env) && Quiesced(env, s)
    ensures Quiesced(env, Later(s, ticks))
  {
    LaterKept(env, s, ticks);
  }

  lemma PersistedKept(env: Env, o: Outcome<Sup>)
    requires Monotone(env) && GateOk(env, o.state.gate)
    ensures var p := Persisted(env, o);
            && GateOk(env, p.state.gate) && p.state.gate.lease == o.state.gate.lease
            && p.state.phase == o.state.phase && p.state.gate.trace == o.state.gate.trace
  {
    LaterKept(env, o.state, 1);
  }

  lemma RevokingQuiesces(env: Env, s: Sup, reason: string)
    requires Historic(s)
    ensures Quiesced(env, Revoking(env, s, reason).state)
  {
    RevokeFences(env, s.gate, reason);
  }

  lemma WithdrawHistoric(s: Sup)
    requires Historic(s)
    ensures Historic(Withdraw(s))
  {
    RecordedAppends(s.gate, Withdrawn);
  }

  lemma WithdrawQuiesced(env: Env, s: Sup)
    requires Quiesced(env, s)
    ensures Quiesced(env, Withdraw(s))
  {
    hide Lawful, InOrder, Authority;
    RecordedAppends(s.gate, Withdrawn);
    AuthorityAppends(s.gate.trace, Withdrawn);
  }

  /** A failure quiesces from anywhere, except that a stopped supervisor is left as it is. */
  lemma FailQuiesces(env: Env, s: Sup, reason: string)
    requires Monotone(env) && Historic(s) && (s.phase.Stopped? ==> Quiesced(env, s))
    ensures Quiesced(env, Fail(env, s, reason).state)
    ensures Fail(env, s, reason).state.phase == if s.phase.Stopped? then Stopped else Failsafe
    ensures Fail(env, s, reason).state.pitch == s.pitch
  {
    hide Revoking, Fenced, Recorded;
    if s.phase.Stopped? {
      WithdrawQuiesced(env, s);
    } else {
      WithdrawHistoric(s);
      var failed := Withdraw(s).(lastFault := reason,
                                 phase := if Failsafe in AllowedTargets(s.phase) then Failsafe else s.phase);
      RevokingQuiesces(env, failed, reason);
      PersistedQuiesces(env, Revoking(env, failed, reason));
      RevokingKeepsPhase(env, failed, reason);
    }
  }

  lemma RevokingKeepsPhase(env: Env, s: Sup, reason: string)
    ensures Revoking(env, s, reason).state.phase == s.phase
    ensures Revoking(env, s, reason).state.pitch == s.pitch
  {
    hide Revoke;
  }

  lemma PersistedQuiesces(env: Env, o: Outcome<Sup>)
    requires Monotone(env) && Quiesced(env, o.state)
    ensures Quiesced(env, Persisted(env, o).state)
  {
    PersistedKept(env, o);
  }

  lemma DisarmQuiesces(env: Env, s: Sup, reason: string)
    requires Monotone(env) && Historic(s)
    ensures Quiesced(env, Disarm(env, s, reason).state)
    ensures Disarm(env, s, reason).state.pitch == s.pitch
  {
    hide Revoking, Fenced;
    var w := Withdraw(Later(s, 1));
    WithdrawHistoric(Later(s, 1));
    var disarmed := if s.phase.Armed? || s.phase.Running? then w.(phase := Paused) else w;
    var effective := if s.phase.Paused? && env.paused(s.gate.tick) then "operator-pause" else reason;
    RevokingQuiesces(env, disarmed, effective);
    RevokingKeepsPhase(env, disarmed, effective);
    PersistedQuiesces(env, Revoking(env, disarmed, effective));
  }

  lemma PauseQuiesces(env: Env, s: Sup)
    requires Monotone(env) && SupOk(env, s)
    ensures SupOk(env, Pause(env, s).state)
    ensures !s.phase.Starting? ==> Quiesced(env, Pause(env, s).state)
  {
    hide Revoking, Recorded, Authority;
    if s.gate.lease.None? {
      WithdrawQuiesced(env, s);
    }
    WithdrawHistoric(s);
    var w := Withdraw(s);
    var paused := if s.phase.Failsafe? then w else w.(phase := Paused);
    RevokingQuiesces(env, paused, "operator-pause");
    PersistedQuiesces(env, Revoking(env, paused, "operator-pause"));
  }

  lemma StopQuiesces(env: Env, s: Sup)
    requires Monotone(env) && Historic(s)
    ensures Quiesced(env, Stop(env, s).state)
  {
    hide Revoking, Fenced;
    WithdrawHistoric(s);
    var stopped := Withdraw(s).(phase := Stopped, stopSet := true);
    RevokingQuiesces(env, stopped, "operator-stop");
    PersistedQuiesces(env, Revoking(env, stopped, "operator-stop"));
  }

  lemma SupLater(env: Env, s: Sup, ticks: nat)
    requires Monotone(env) && SupOk(env, s)
    ensures SupOk(env, Later(s, ticks))
  {
    LaterKept(env, s, ticks);
  }

  /** The latches are looked at before anything else: a set latch takes all authority away. */
  lemma GuardedKept(env: Env, s: Sup)
    requires Monotone(env) && SupOk(env, s)
    ensures var out := Guarded(env, s);
            && SupOk(env, out.state) && out.state.pitch == s.pitch
            && (if out.error.Some? then Quiesced(env, out.state) else out.state == Later(s, 2))
    ensures Guarded(env, s).error.None? <==> Permitted(env, s)
  {
    hide Fail, Disarm, Fenced, Agreed, Chronicled, Authority;
    SupLater(env, s, 1);
    SupLater(env, s, 2);
    QuiescedIfStopped(env, Later(s, 1));
    FailQuiesces(env, Later(s, 1), "emergency-stop-latched");
    DisarmQuiesces(env, Later(s, 2), "operator-pause");
    QuiescedOk(env, Fail(env, Later(s, 1), "emergency-stop-latched").state);
    QuiescedOk(env, Disarm(env, Later(s, 2), "operator-pause").state);
  }

  lemma QuiescedIfStopped(env: Env, s: Sup)
    requires SupOk(env, s)
    ensures Historic(s) && (s.phase.Stopped? ==> Quiesced(env, s))
  {
  }

  lemma QuiescedOk(env: Env, s: Sup)
    requires Quiesced(env, s)
    ensures SupOk(env, s)
  {
  }

  // --- Lifecycle calls -------------------------------------------------------------------------------

  lemma TransitionKept(env: Env, s: Sup, target: Phase)
    requires Monotone(env) && SupOk(env, s) && s.gate.lease.None?
    ensures SupOk(env, Transition(env, s, target).state) && Transition(env, s, target).state.gate.lease.None?
  {
    hide Persisted, Authority, Agreed;
    PersistedKept(env, Outcome(s.(phase := target), None));
  }

  lemma StartKept(env: Env, s: Sup)
    requires Monotone(env) && SupOk(env, s)
    ensures SupOk(env, Start(env, s).state)
  {
    hide Persisted, Pause, Revoking, Transition, Fenced, GateOk, Active;
    SupLater(env, s, 1);
    var latched := Later(s, 1).(lastFault := "emergency-stop-latched");
    HistoricLater(env, s);
    RevokingQuiesces(env, latched, "emergency-stop-latched");
    PersistedQuiesces(env, Revoking(env, latched, "emergency-stop-latched"));
    QuiescedOk(env, Revoking(env, latched, "emergency-stop-latched").state);
    QuiescedOk(env, Persisted(env, Revoking(env, latched, "emergency-stop-latched")).state);
    if s.phase.Stopped? {
      TransitionKept(env, Later(s, 1), Starting);
      var starting := Transition(env, Later(s, 1), Starting).state;
      TransitionKept(env, starting, SafeIdle);
      SupLater(env, Transition(env, starting, SafeIdle).state, 1);
      PauseQuiesces(env, Later(Transition(env, starting, SafeIdle).state, 1));
    } else {
      OnlyStoppedStarts(env, Later(s, 1));
    }
  }

  lemma HistoricLater(env: Env, s: Sup)
    requires Monotone(env) && SupOk(env, s)
    ensures Historic(Later(s, 1).(lastFault := "emergency-stop-latched"))
  {
    SupLater(env, s, 1);
  }

  lemma OnlyStoppedStarts(env: Env, s: Sup)
    requires !s.phase.Stopped?
    ensures Transition(env, s, Starting) == Outcome(s, Some(WrongState))
  {
  }

  lemma ResumeKept(env: Env, s: Sup)
    requires Monotone(env) && SupOk(env, s)
    ensures SupOk(env, Resume(env, s).state)
  {
    hide Stop, Transition, Fenced, GateOk, Active;
    SupLater(env, s, 1);
    QuiescedIfStopped(env, Later(s, 1));
    StopQuiesces(env, Later(s, 1));
    QuiescedOk(env, Stop(env, Later(s, 1)).state);
    if s.phase.Paused? {
      TransitionKept(env, Later(s, 1), SafeIdle);
    }
  }

  lemma ReplaceBackendKept(env: Env, s: Sup, live: bool, preserve: bool)
    requires Monotone(env) && SupOk(env, s)
    ensures SupOk(env, ReplaceBackend(env, s, live, preserve).state)
  {
    hide Persisted, Revoking, Lawful, InOrder, Authority;
    if s.phase.SafeIdle? {
      RevokingQuiesces(env, s, "backend-replacement");
      var r := Revoking(env, s, "backend-replacement");
      QuiescedOk(env, r.state);
      var retired := Retired(env, r.state).state;
      TickChronicled(env, r.state.gate, retired.gate);
      assert Chronicled(env, NewGate(retired.gate.tick, retired.gate.trace));
      PersistedQuiesces(env, Outcome(Installed(retired, live, preserve), None));
    }
  }

  lemma ArmKept(env: Env, s: Sup, target: string)
    requires Monotone(env) && SupOk(env, s)
    ensures SupOk(env, Arm(env, s, target).state)
  {
    hide Persisted, Revoking, Issue, Lawful, InOrder, Authority, Agreed;
    SupLater(env, s, 1);
    SupLater(env, s, 2);
    RevokingQuiesces(env, Later(s, 2), "operator-pause");
    if s.phase.SafeIdle? {
      IssueKept(env, Later(s, 2).gate, Instance(target), 3000, ALL_KINDS, 250, 0);
      var issued := Issue(env, Later(s, 2).gate, Instance(target), 3000, ALL_KINDS, 250, 0);
      PersistedKept(env, Outcome(Later(s, 2).(gate := issued.state, phase := Armed), None));
    }
  }

  /** Revoking and then failing, stopping at the first of the two that raises. */
  lemma RevokeThenFailQuiesces(env: Env, s: Sup, reason: string)
    requires Monotone(env) && Historic(s)
    ensures var r := Revoking(env, s, reason);
            && Quiesced(env, r.state) && Quiesced(env, Fail(env, r.state, reason).state)
            && r.state.pitch == s.pitch == Fail(env, r.state, reason).state.pitch
  {
    hide Revoking, Fail, Fenced;
    RevokingQuiesces(env, s, reason);
    RevokingKeepsPhase(env, s, reason);
    QuiescedMeans(env, Revoking(env, s, reason).state);
    FailQuiesces(env, Revoking(env, s, reason).state, reason);
  }

  /** Only an armed supervisor with a live lease runs, and then the lease counts as activated. */
  lemma ActivateKept(env: Env, s: Sup)
    requires Monotone(env) && SupOk(env, s)
    ensures SupOk(env, Activate(env, s).state)
  {
    hide Guarded, Persisted, Revoking, Fail, Lawful, InOrder, Authority;
    GuardedKept(env, s);
    var ready := Guarded(env, s);
    if ready.error.None? && s.phase.Armed? {
      var read := Later(ready.state, 1);
      SupLater(env, ready.state, 1);
      RevokeThenFailQuiesces(env, read, "activate-without-live-lease");
      QuiescedOk(env, Revoking(env, read, "activate-without-live-lease").state);
      FailQuiesces(env, Revoking(env, read, "activate-without-live-lease").state, "activate-without-live-lease");
      QuiescedOk(env, Fail(env, Revoking(env, read, "activate-without-live-lease").state,
                           "activate-without-live-lease").state);
      RevokingKeepsPhase(env, read, "activate-without-live-lease");
      if read.gate.lease.Some? {
        var e := Activated(read.gate.lease.value.id);
        RecordedAppends(read.gate, e);
        AuthorityAppends(read.gate.trace, e);
        var running := read.(phase := Running, gate := Log(read.gate, e));
        assert GateOk(env, running.gate);
        PersistedKept(env, Outcome(running, None));
      }
    }
  }

  lemma RenewLeaseKept(env: Env, s: Sup, id: nat, ttlMs: int)
    requires Monotone(env) && SupOk(env, s)
    ensures SupOk(env, RenewLease(env, s, id, ttlMs).state)
  {
    hide Guarded, Renew, Fenced, GateOk, Active;
    GuardedKept(env, s);
    SupLater(env, s, 2);
    RenewKept(env, Later(s, 2).gate, id, ttlMs);
  }

  /** A call for the runtime gets through only with the live lease of a running supervisor. */
  lemma RequireRunningKept(env: Env, s: Sup, id: nat)
    requires Monotone(env) && SupOk(env, s)
    ensures var out := RequireRunning(env, s, id);
            && SupOk(env, out.state) && out.state.pitch == s.pitch
            && (out.error.None? ==>
                  && s.phase.Running? && s.gate.lease.Some? && s.gate.lease.value.id == id
                  && out.state == Later(s, 3) && Active(out.state.gate))
            && (s.phase.Running? && out.error.Some? ==> Quiesced(env, out.state))
  {
    hide Guarded, Revoking, Fail, Fenced, GateOk, Active;
    GuardedKept(env, s);
    var ready := Guarded(env, s);
    if ready.error.None? && s.phase.Running? {
      var read := Later(ready.state, 1);
      SupLater(env, ready.state, 1);
      QuiescedIfStopped(env, read);
      RevokeThenFailQuiesces(env, read, "invalid-runtime-lease");
      QuiescedOk(env, Revoking(env, read, "invalid-runtime-lease").state);
      QuiescedOk(env, Fail(env, Revoking(env, read, "invalid-runtime-lease").state, "invalid-runtime-lease").state);
    }
  }

  /** Failing from a running state, with the facts a caller needs. */
  lemma FailFromOk(env: Env, s: Sup, reason: string)
    requires Monotone(env) && SupOk(env, s)
    ensures var out := Fail(env, s, reason);
            && Quiesced(env, out.state) && SupOk(env, out.state)
            && out.state.gate.lease.None? && out.state.pitch == s.pitch
  {
    hide Fail, Fenced, GateOk, Active;
    QuiescedIfStopped(env, s);
    FailQuiesces(env, s, reason);
    QuiescedOk(env, Fail(env, s, reason).state);
    QuiescedMeans(env, Fail(env, s, reason).state);
  }

  /** A refused, failed or malformed action leaves no lease; an accepted one moves the camera ledger
      by exactly its world motion. */
  lemma ApplyMotorActionKept(env: Env, s: Sup, id: nat, a: MotorAction)
    requires Monotone(env) && SupOk(env, s)
    ensures var out := ApplyMotorAction(env, s, id, a);
            && SupOk(env, out.state)
            && out.state.pitch == s.pitch + (if out.error.None? then WorldPitch(a) else 0)
            && (s.phase.Running? && out.error.Some? ==> out.state.gate.lease.None?)
  {
    hide RequireRunning, Apply, Fail, Fenced, GateOk, Active, Quiesced, Admissible;
    RequireRunningKept(env, s, id);
    var ready := RequireRunning(env, s, id);
    if ready.error.Some? {
      if s.phase.Running? {
        QuiescedMeans(env, ready.state);
      }
    } else {
      FailFromOk(env, ready.state, "invalid-motor-action");
      assert GateOk(env, ready.state.gate);
      ApplyKept(env, ready.state.gate, id, a, Some(MAX_TTL_MS));
      var done := On(ready.state, Apply(env, ready.state.gate, id, a, Some(MAX_TTL_MS)));
      FailFromOk(env, done.state.(routeFault := true), "motor-action");
    }
  }

  lemma QuiescedMeans(env: Env, s: Sup)
    requires Quiesced(env, s)
    ensures s.gate.lease.None? && Historic(s)
  {
  }

  lemma ReleaseInputsCallKept(env: Env, s: Sup, id: nat)
    requires Monotone(env) && SupOk(env, s)
    ensures SupOk(env, ReleaseInputsCall(env, s, id).state)
  {
    hide RequireRunning, ReleaseInputs, Persisted, Fenced, GateOk, Active, Quiesced;
    RequireRunningKept(env, s, id);
    var ready := RequireRunning(env, s, id);
    if ready.error.None? {
      assert GateOk(env, ready.state.gate);
      ReleaseInputsKept(env, ready.state.gate, id, MAX_TTL_MS);
      var done := On(ready.state, ReleaseInputs(env, ready.state.gate, id, Some(MAX_TTL_MS)));
      assert SupOk(env, done.state);
      PersistedOk(env, done);
    }
  }

  lemma PersistedOk(env: Env, o: Outcome<Sup>)
    requires Monotone(env) && SupOk(env, o.state)
    ensures SupOk(env, Persisted(env, o).state)
  {
    LaterKept(env, o.state, 1);
  }

  // --- Transactions --------------------------------------------------------------------------------------

  /** Inside a transaction: the gate is in order, whatever its lease is for. */
  ghost predicate InTransaction(env: Env, s: Sup, phase: Phase) {
    GateOk(env, s.gate) && Active(s.gate) && s.phase == phase
  }

  lemma TransactionLater(env: Env, s: Sup, phase: Phase, ticks: nat)
    requires Monotone(env) && InTransaction(env, s, phase)
    ensures InTransaction(env, Later(s, ticks), phase)
  {
    LaterKept(env, s, ticks);
  }

  /** However a transaction is aborted, the latch or the fault takes all authority away. */
  lemma AbortedQuiesces(env: Env, o: Outcome<Sup>, phase: Phase, disarming: bool, reason: string)
    requires Monotone(env) && InTransaction(env, o.state, phase) && !phase.Stopped? && o.error.Some?
    ensures Quiesced(env, Aborted(env, o, disarming, reason).state)
    ensures Aborted(env, o, disarming, reason).error.Some?
  {
    hide Fail, Disarm, Revoking, Fenced, Agreed, Granted, Active;
    var s := if !disarming && o.error == Some(BackendFault(true)) then o.state.(routeFault := true) else o.state;
    TransactionLater(env, s, phase, 1);
    TransactionLater(env, s, phase, 2);
    FailQuiesces(env, Later(s, 1), "emergency-stop-latched");
    DisarmQuiesces(env, Later(s, 2), "operator-pause");
    RevokingQuiesces(env, Later(s, 2), "operator-pause");
    FailQuiesces(env, Later(s, 2), reason);
  }

  lemma TypeKept(env: Env, g: Gate)
    requires Monotone(env) && GateOk(env, g) && g.lease.Some?
    ensures var out := Type(env, g);
            && GateOk(env, out.state) && out.state.lease == g.lease
            && (Active(g) ==> Active(out.state))
  {
    hide Lawful, InOrder, Authority;
    TickChronicled(env, g, Type(env, g).state);
  }

  /** Typing a chat line keeps the runtime's lease, prolonged, or leaves none. */
  lemma ChatKept(env: Env, s: Sup, id: nat)
    requires Monotone(env) && SupOk(env, s) && s.phase.Running?
    ensures InTransaction(env, Chat(env, s, id).state, Running) && SupOk(env, Chat(env, s, id).state)
  {
    hide Renew, Type, Fenced, GateOk, Active;
    RenewKept(env, s.gate, id, 5000);
    var extended := On(s, Renew(env, s.gate, id, 5000));
    if extended.error.None? {
      TypeKept(env, extended.state.gate);
      var typed := On(extended.state, Type(env, extended.state.gate));
      SupLater(env, typed.state, 2);
      TransactionLater(env, typed.state, Running, 2);
      RenewKept(env, Later(typed.state, 2).gate, id, 3000);
    }
  }

  lemma SendChatKept(env: Env, s: Sup, id: nat, validText: bool, canType: bool)
    requires Monotone(env) && SupOk(env, s)
    ensures SupOk(env, SendChat(env, s, id, validText, canType).state)
  {
    hide RequireRunning, Chat, Aborted, Fenced, GateOk, Active, Quiesced;
    RequireRunningKept(env, s, id);
    var ready := RequireRunning(env, s, id);
    if ready.error.None? {
      ChatKept(env, ready.state, id);
      var chat := Chat(env, ready.state, id);
      if chat.error.Some? {
        AbortedQuiesces(env, chat, Running, true, "chat-backend-fault");
        QuiescedOk(env, Aborted(env, chat, true, "chat-backend-fault").state);
      }
    }
  }

  /** A private lease is not a runtime's. */
  ghost predicate PrivateOk(env: Env, s: Sup) {
    GateOk(env, s.gate) && s.phase.SafeIdle? && (s.gate.lease.Some? ==> !s.gate.lease.value.target.Instance?)
  }

  lemma PrivateInTransaction(env: Env, s: Sup)
    requires PrivateOk(env, s)
    ensures InTransaction(env, s, SafeIdle)
  {
  }

  lemma PrivateLater(env: Env, s: Sup, ticks: nat)
    requires Monotone(env) && PrivateOk(env, s)
    ensures PrivateOk(env, Later(s, ticks))
  {
    LaterKept(env, s, ticks);
  }

  lemma PrivateApply(env: Env, s: Sup, id: nat, a: MotorAction)
    requires Monotone(env) && PrivateOk(env, s)
    ensures PrivateOk(env, On(s, Apply(env, s.gate, id, a, None)).state)
  {
    hide Apply, Fenced, GateOk;
    ApplyKept(env, s.gate, id, a, None);
  }

  lemma ChunkMovedKept(env: Env, s: Sup, id: nat, sequence: nat, dy: int)
    requires Monotone(env) && PrivateOk(env, s)
    ensures PrivateOk(env, ChunkMoved(env, s, id, sequence, dy).state)
  {
    hide Apply, Renew, Fenced, GateOk, MouseMove;
    PrivateApply(env, s, id, MouseMove(sequence, 0, dy));
    var moved := On(s, Apply(env, s.gate, id, MouseMove(sequence, 0, dy), None));
    RenewKept(env, moved.state.gate, id, 5000);
  }

  lemma MoveChunkKept(env: Env, s: Sup, id: nat, sequence: nat, dy: int, settle: bool)
    requires Monotone(env) && PrivateOk(env, s)
    ensures PrivateOk(env, MoveChunk(env, s, id, sequence, dy, settle).state)
  {
    hide ChunkMoved, PrivateOk, Permitted;
    PrivateLater(env, s, 2);
    PrivateLater(env, s, 4);
    var ready := Later(s, if settle then 4 else 2);
    ChunkMovedKept(env, ready, id, sequence, dy);
    PrivateLater(env, ChunkMoved(env, ready, id, sequence, dy).state, 2);
  }

  lemma {:induction false} MoveChunksKept(
    env: Env, s: Sup, id: nat, sequence: nat, deltas: seq<int>, returning: bool)
    requires Monotone(env) && PrivateOk(env, s)
    ensures PrivateOk(env, MoveChunks(env, s, id, sequence, deltas, returning).state)
    decreases |deltas|
  {
    hide MoveChunk, PrivateOk;
    if deltas != [] {
      var settle := deltas[0] > 0 && !returning;
      MoveChunkKept(env, s, id, sequence, deltas[0], settle);
      MoveChunksKept(env, MoveChunk(env, s, id, sequence, deltas[0], settle).state, id, sequence + 1,
                     deltas[1..], returning || settle);
    }
  }

  /** A private lease never outlives its transaction. */
  lemma ConcludedQuiesces(env: Env, o: Outcome<Sup>, reason: string, always: bool)
    requires Monotone(env) && PrivateOk(env, o.state)
    ensures Quiesced(env, Concluded(env, o, reason, always).state)
  {
    hide Aborted, Revoking, Persisted, Fenced, GateOk;
    PrivateInTransaction(env, o.state);
    if o.error.Some? {
      AbortedQuiesces(env, o, SafeIdle, false, reason);
    }
    var handled := if o.error.Some? then Aborted(env, o, false, reason) else o;
    assert GateOk(env, handled.state.gate) by {
      if o.error.Some? {
        QuiescedOk(env, handled.state);
      }
    }
    HistoricAfter(env, handled.state, 1);
    var cause := if env.paused(handled.state.gate.tick) then "operator-pause" else reason;
    RevokingQuiesces(env, Later(handled.state, 1), cause);
    var r := Revoking(env, Later(handled.state, 1), cause);
    PersistedQuiesces(env, Outcome(r.state, if r.error.Some? then r.error else handled.error));
  }

  lemma HistoricAfter(env: Env, s: Sup, ticks: nat)
    requires Monotone(env) && GateOk(env, s.gate)
    ensures Historic(Later(s, ticks))
  {
    LaterKept(env, s, ticks);
  }

  lemma CalibrationMovesKept(env: Env, s: Sup, deltas: seq<int>)
    requires Monotone(env) && SupOk(env, s) && s.phase.SafeIdle?
    ensures PrivateOk(env, CalibrationMoves(env, s, deltas).state)
  {
    hide Issue, MoveChunks, Fenced, GateOk, Active;
    IssueKept(env, s.gate, CameraCalibration, 5000, {MouseInput}, 50, 0);
    var issued := On(s, Issue(env, s.gate, CameraCalibration, 5000, {MouseInput}, 50, 0));
    if issued.error.None? {
      MoveChunksKept(env, issued.state, issued.state.gate.lease.value.id, 0, deltas, false);
    }
  }

  lemma CalibratedKept(env: Env, s: Sup)
    requires Monotone(env) && Quiesced(env, s)
    ensures Quiesced(env, Calibrated(env, s).state)
  {
    hide Fail, Revoking, Persisted, Fenced;
    var read := Later(s, 2);
    QuiescedLater(env, s, 2);
    QuiescedLater(env, read, 1);
    QuiescedLater(env, read, 2);
    QuiescedMeans(env, Later(read, 1));
    QuiescedMeans(env, Later(read, 2));
    PersistedQuiesces(env, Outcome(read.(pitch := 0, updates := 0, originCalibrated := true), None));
    FailQuiesces(env, Later(read, 1), "emergency-stop-latched");
    RevokingQuiesces(env, Later(read, 2), "operator-pause");
  }

  /** A calibration ends with no authority left, whatever happens inside it. */
  lemma CalibrateKept(env: Env, s: Sup, gain: real, validId: bool)
    requires Monotone(env) && SupOk(env, s)
    ensures SupOk(env, Calibrate(env, s, gain, validId).state)
  {
    hide Persisted, CalibrationMoves, Concluded, Calibrated, Permitted, GateOk, Active, Quiesced,
         Calibration.Accepted, Calibration.Deltas;
    SupLater(env, s, 2);
    var begun := Persisted(env, Outcome(Later(s, 2).(originCalibrated := false), None));
    PersistedOk(env, Outcome(Later(s, 2).(originCalibrated := false), None));
    PersistedKept(env, Outcome(Later(s, 2).(originCalibrated := false), None));
    if s.phase.SafeIdle? && Calibration.Accepted(gain, CALIBRATION_STEP) {
      var deltas := Calibration.Deltas(gain, CALIBRATION_STEP);
      CalibrationMovesKept(env, begun.state, deltas);
      var done := Concluded(env, CalibrationMoves(env, begun.state, deltas), "camera-calibration", true);
      ConcludedQuiesces(env, CalibrationMoves(env, begun.state, deltas), "camera-calibration", true);
      CalibratedKept(env, done.state);
      QuiescedOk(env, done.state);
      QuiescedOk(env, Calibrated(env, done.state).state);
    }
  }

  lemma ProbeMoveKept(env: Env, s: Sup, dx: int, dy: int)
    requires Monotone(env) && PrivateOk(env, s)
    ensures PrivateOk(env, ProbeMove(env, s, dx, dy).state)
  {
    hide Apply, GateOk, Permitted;
    if s.gate.lease.Some? {
      var moved := On(s, Apply(env, s.gate, s.gate.lease.value.id, MouseMove(0, dx, dy), None));
      PrivateApply(env, s, s.gate.lease.value.id, MouseMove(0, dx, dy));
      PrivateLater(env, moved.state, 2);
    }
  }

  /** So does a probe. */
  lemma ProbeKept(env: Env, s: Sup, dx: int, dy: int)
    requires Monotone(env) && SupOk(env, s)
    ensures SupOk(env, Probe(env, s, dx, dy).state)
  {
    hide Persisted, Issue, ProbeMove, Concluded, Permitted, GateOk, Active, Quiesced, ProbeArguments;
    SupLater(env, s, 2);
    var begun := Persisted(env, Outcome(Later(s, 2).(pitch := 0, updates := 0, originCalibrated := false), None));
    PersistedOk(env, Outcome(Later(s, 2).(pitch := 0, updates := 0, originCalibrated := false), None));
    PersistedKept(env, Outcome(Later(s, 2).(pitch := 0, updates := 0, originCalibrated := false), None));
    if s.phase.SafeIdle? {
      var issued := On(begun.state, Issue(env, begun.state.gate, CameraProbe, 2000, {MouseInput}, 50, 0));
      IssueKept(env, begun.state.gate, CameraProbe, 2000, {MouseInput}, 50, 0);
      ProbeMoveKept(env, issued.state, dx, dy);
      ConcludedQuiesces(env, ProbeMove(env, issued.state, dx, dy), "camera-probe", false);
      QuiescedOk(env, Concluded(env, ProbeMove(env, issued.state, dx, dy), "camera-probe", false).state);
    }
  }

  // --- The serve loop ------------------------------------------------------------------------------------

  lemma WatchExpiryKept(env: Env, s: Sup)
    requires Monotone(env) && SupOk(env, s)
    ensures SupOk(env, WatchExpiry(env, s).state)
  {
    hide CheckExpiry, Fail, Agreed, Recorded, Authority;
    CheckExpiryKept(env, s.gate);
    var x := CheckExpiry(env, s.gate);
    if x.expired {
      var checked := On(s, x.outcome);
      FailQuiesces(env, checked.state, "motor-lease-watchdog-expired");
      QuiescedOk(env, Fail(env, checked.state, "motor-lease-watchdog-expired").state);
    }
  }

  lemma WatchdogKept(env: Env, s: Sup)
    requires Monotone(env) && SupOk(env, s)
    ensures SupOk(env, Watchdog(env, s).state)
    ensures env.emergency(s.gate.tick) ==> Quiesced(env, Watchdog(env, s).state)
  {
    hide WatchExpiry, Fail, Stop, Disarm, Fenced, GateOk, Active;
    SupLater(env, s, 1);
    SupLater(env, s, 2);
    FailFromOk(env, Later(s, 1), "emergency-stop-latched");
    var failed := Fail(env, Later(s, 1), "emergency-stop-latched");
    QuiescedMeans(env, failed.state);
    StopQuiesces(env, failed.state);
    QuiescedOk(env, Stop(env, failed.state).state);
    QuiescedIfStopped(env, Later(s, 2));
    DisarmQuiesces(env, Later(s, 2), "operator-pause");
    QuiescedOk(env, Disarm(env, Later(s, 2), "operator-pause").state);
    WatchExpiryKept(env, Disarm(env, Later(s, 2), "operator-pause").state);
    WatchExpiryKept(env, Later(s, 2));
  }

  /** Leaving the serve loop ends all authority, whichever cleanups raise and whatever ended the loop. */
  lemma CloseRuntimeKept(env: Env, s: Sup, prior: Option<Error>)
    requires Monotone(env) && SupOk(env, s)
    ensures Quiesced(env, CloseRuntime(env, s, prior).state)
  {
    hide Revoking, Lawful, InOrder, Authority;
    WithdrawHistoric(s);
    RevokingQuiesces(env, Withdraw(s).(phase := Stopped, stopSet := true), "supervisor-exit");
    var r := Revoking(env, Withdraw(s).(phase := Stopped, stopSet := true), "supervisor-exit").state;
    TickChronicled(env, r.gate, CloseRuntime(env, s, prior).state.gate);
  }

  lemma FailKept(env: Env, s: Sup, reason: string)
    requires Monotone(env) && SupOk(env, s)
    ensures Quiesced(env, Fail(env, s, reason).state)
  {
    QuiescedIfStopped(env, s);
    FailQuiesces(env, s, reason);
  }

  // --- Runs ------------------------------------------------------------------------------------------------

  lemma PerformKept(env: Env, s: Sup, c: Command)
    requires Monotone(env) && SupOk(env, s)
    ensures SupOk(env, Perform(env, s, c).state)
  {
    hide Start, Pause, Resume, Stop, Watchdog, CloseRuntime, Fail, Disarm, ReplaceBackend, Arm, Activate, RenewLease,
         ApplyMotorAction, ReleaseInputsCall, SendChat, Calibrate, Probe, GateOk, Active, Quiesced;
    QuiescedIfStopped(env, s);
    match c
    case DoStart => StartKept(env, s);
    case DoPause => PauseQuiesces(env, s);
    case DoResume => ResumeKept(env, s);
    case DoStop => StopQuiesces(env, s); QuiescedOk(env, Stop(env, s).state);
    case DoWatchdog => WatchdogKept(env, s);
    case DoCloseRuntime(prior) => CloseRuntimeKept(env, s, prior); QuiescedOk(env, CloseRuntime(env, s, prior).state);
    case DoFail(reason) => FailKept(env, s, reason); QuiescedOk(env, Fail(env, s, reason).state);
    case DoDisarm(reason) => DisarmQuiesces(env, s, reason); QuiescedOk(env, Disarm(env, s, reason).state);
    case DoReplaceBackend(live, preserve) => ReplaceBackendKept(env, s, live, preserve);
    case DoArm(target) => ArmKept(env, s, target);
    case DoActivate => ActivateKept(env, s);
    case DoRenew(id, ttlMs) => RenewLeaseKept(env, s, id, ttlMs);
    case DoApply(id, action) => ApplyMotorActionKept(env, s, id, action);
    case DoRelease(id) => ReleaseInputsCallKept(env, s, id);
    case DoChat(id, validText, canType) => SendChatKept(env, s, id, validText, canType);
    case DoCalibrate(gain, validId) => CalibrateKept(env, s, gain, validId);
    case DoProbe(dx, dy) => ProbeKept(env, s, dx, dy);
  }

  lemma {:induction false} RunKept(env: Env, s: Sup, commands: seq<Command>)
    requires Monotone(env) && SupOk(env, s)
    ensures SupOk(env, Run(env, s, commands))
    decreases |commands|
  {
    hide Perform, SupOk;
    if commands != [] {
      PerformKept(env, s, commands[0]);
      RunKept(env, Perform(env, s, commands[0]).state, commands[1..]);
    }
  }

  /** Whatever is called and however backends, latches, the clock and publishing behave: a live lease
      means ARMED or RUNNING, and the open backend is bound to that lease, id and expiry included;
      without a lease, a held input means the last release of inputs was not confirmed. */
  lemma AuthorityInvariant(env: Env, commands: seq<Command>)
    requires Monotone(env)
    ensures var s := Run(env, NewSupervisor(), commands);
            && (s.gate.lease.Some? ==>
                  && (s.phase.Armed? || s.phase.Running?)
                  && s.gate.backend.open && s.gate.backend.bound == s.gate.lease)
            && (s.gate.lease.None? && s.gate.backend.held != RELEASED ==> !s.gate.backend.neutral)
  {
    hide Run, Chronicled;
    assert SupOk(env, NewSupervisor()) by {
      NewSupervisorOk(env);
    }
    RunKept(env, NewSupervisor(), commands);
  }

  lemma NewSupervisorOk(env: Env)
    ensures SupOk(env, NewSupervisor())
  {
  }

  /** Every history is lawful and ordered. */
  lemma HistoryIsLawful(env: Env, commands: seq<Command>)
    requires Monotone(env)
    ensures var trace := Run(env, NewSupervisor(), commands).gate.trace; Lawful(trace) && InOrder(trace)
  {
    hide Run, Lawful, InOrder;
    NewSupervisorOk(env);
    RunKept(env, NewSupervisor(), commands);
  }

  /** Every action accepted in a run was authorized when it ran. */
  lemma AcceptedAction(env: Env, commands: seq<Command>, i: nat) returns (a: nat, g: nat)
    requires Monotone(env)
    requires i < |Run(env, NewSupervisor(), commands).gate.trace|
    requires Run(env, NewSupervisor(), commands).gate.trace[i].Applied?
    ensures Authorized(Run(env, NewSupervisor(), commands).gate.trace, i, a, g)
  {
    hide Run, Lawful, InOrder, Authorized;
    HistoryIsLawful(env, commands);
    a, g := LawfulIsAuthorized(Run(env, NewSupervisor(), commands).gate.trace, i);
  }

  // --- A latched emergency ------------------------------------------------------------------------------------

  /** Calls that prepare a runtime or a camera rather than act for one. */
  predicate Prepares(c: Command) {
    c.DoArm? || c.DoResume? || c.DoReplaceBackend? || c.DoCalibrate? || c.DoProbe?
  }

  /** Under a latched emergency no call leaves a live lease, except that a preparing call refuses
      without touching one that was live: that lease waits for the next motor call or the watchdog. */
  lemma LatchedCall(env: Env, s: Sup, c: Command)
    requires Monotone(env) && SupOk(env, s) && env.emergency(s.gate.tick)
    ensures Perform(env, s, c).state.gate.lease.Some? <==> s.gate.lease.Some? && Prepares(c)
    ensures s.gate.lease.Some? && Prepares(c) ==> Perform(env, s, c).state.gate.lease == s.gate.lease
  {
    PerformKept(env, s, c);
    if Prepares(c) {
      LatchedPreparing(env, s, c);
    } else {
      LatchedActing(env, s, c);
    }
  }

  lemma LatchedPreparing(env: Env, s: Sup, c: Command)
    requires Monotone(env) && SupOk(env, s) && env.emergency(s.gate.tick) && Prepares(c)
    ensures Perform(env, s, c).state.gate.lease == s.gate.lease
  {
    hide GateOk, Active, Quiesced, Persisted, Calibration.Accepted, Calibration.Deltas, Revoke;
    if c.DoReplaceBackend? {
      ReplaceBackendDropsLease(env, s, c.live, c.preserve);
    }
  }

  lemma ReplaceBackendDropsLease(env: Env, s: Sup, live: bool, preserve: bool)
    ensures s.phase.SafeIdle? ==> ReplaceBackend(env, s, live, preserve).state.gate.lease.None?
  {
    hide ReleaseAll, ClearLease;
  }

  lemma LatchedStartOrPause(env: Env, s: Sup)
    requires SupOk(env, s)
    ensures env.emergency(s.gate.tick) ==> Start(env, s).state.gate.lease.None?
    ensures Pause(env, s).state.gate.lease.None?
  {
    hide ReleaseAll, ClearLease, Transition, GateOk, Active;
  }

  lemma LatchedActing(env: Env, s: Sup, c: Command)
    requires Monotone(env) && SupOk(env, s) && env.emergency(s.gate.tick) && !Prepares(c)
    ensures Perform(env, s, c).state.gate.lease.None?
  {
    hide Guarded, Start, Stop, Pause, Watchdog, CloseRuntime, Fail, Disarm, ReleaseAll, ClearLease, GateOk, Active,
         Authority;
    GuardedKept(env, s);
    QuiescedIfStopped(env, s);
    match c
    case DoStart => LatchedStartOrPause(env, s);
    case DoPause => LatchedStartOrPause(env, s);
    case DoStop => StopQuiesces(env, s);
    case DoWatchdog => WatchdogKept(env, s);
    case DoCloseRuntime(prior) => CloseRuntimeKept(env, s, prior);
    case DoFail(reason) => FailKept(env, s, reason);
    case DoDisarm(reason) => DisarmQuiesces(env, s, reason);
    case _ =>
  }

  // --- The lifecycle table ---------------------------------------------------------------------------------------

  /** Where one call may take the lifecycle. Only an unlatched `activate` of an armed supervisor runs it,
      only an unlatched `arm` from SAFE_IDLE arms it, a failure is only left by stopping, and a stopped
      supervisor is only left by an unlatched start. */
  ghost predicate Disciplined(env: Env, s: Sup, c: Command, phase: Phase) {
    && (phase.Running? && !s.phase.Running? ==> c.DoActivate? && s.phase.Armed? && Permitted(env, s))
    && (phase.Armed? && !s.phase.Armed? ==> c.DoArm? && s.phase.SafeIdle? && Permitted(env, s))
    && (s.phase.Failsafe? ==> phase.Failsafe? || phase.Stopped?)
    && (s.phase.Stopped? && !phase.Stopped? ==> c.DoStart? && !env.emergency(s.gate.tick))
  }

  lemma FailPhase(env: Env, s: Sup, reason: string)
    ensures Fail(env, s, reason).state.phase == if s.phase.Stopped? then Stopped else Failsafe
  {
    hide Revoke;
  }

  lemma DisarmPhase(env: Env, s: Sup, reason: string)
    ensures Disarm(env, s, reason).state.phase == if s.phase.Armed? || s.phase.Running? then Paused else s.phase
  {
    hide Revoke;
  }

  lemma GuardedPhase(env: Env, s: Sup)
    ensures var out := Guarded(env, s);
            && (out.error.None? <==> Permitted(env, s))
            && (if out.error.None? then out.state == Later(s, 2)
                else out.state.phase == s.phase || out.state.phase.Failsafe? || out.state.phase.Paused?)
            && (s.phase.Stopped? || s.phase.Failsafe? ==> out.state.phase == s.phase)
  {
    hide Fail, Disarm;
    FailPhase(env, Later(s, 1), "emergency-stop-latched");
    DisarmPhase(env, Later(s, 2), "operator-pause");
  }

  lemma RequireRunningPhase(env: Env, s: Sup, id: nat)
    ensures var phase := RequireRunning(env, s, id).state.phase;
            && (phase == s.phase || phase.Failsafe? || phase.Paused?)
            && (s.phase.Stopped? || s.phase.Failsafe? ==> phase == s.phase)
  {
    hide Guarded, Fail, Revoke;
    GuardedPhase(env, s);
    var read := Later(Guarded(env, s).state, 1);
    FailPhase(env, Revoking(env, read, "invalid-runtime-lease").state, "invalid-runtime-lease");
  }

  lemma AbortedPhase(env: Env, o: Outcome<Sup>, disarming: bool, reason: string)
    requires o.error.Some? && !o.state.phase.Stopped?
    ensures var phase := Aborted(env, o, disarming, reason).state.phase;
            phase == o.state.phase || phase.Failsafe? || phase.Paused?
  {
    hide Fail, Disarm, Revoke;
    var s := if !disarming && o.error == Some(BackendFault(true)) then o.state.(routeFault := true) else o.state;
    FailPhase(env, Later(s, 1), "emergency-stop-latched");
    DisarmPhase(env, Later(s, 2), "operator-pause");
    FailPhase(env, Later(s, 2), reason);
  }

  lemma MoveChunkPhase(env: Env, s: Sup, id: nat, sequence: nat, dy: int, settle: bool)
    ensures MoveChunk(env, s, id, sequence, dy, settle).state.phase == s.phase
  {
    hide Apply, Renew, Permitted;
  }

  lemma {:induction false} MoveChunksPhase(
    env: Env, s: Sup, id: nat, sequence: nat, deltas: seq<int>, returning: bool)
    ensures MoveChunks(env, s, id, sequence, deltas, returning).state.phase == s.phase
    decreases |deltas|
  {
    hide MoveChunk;
    if deltas != [] {
      var settle := deltas[0] > 0 && !returning;
      MoveChunkPhase(env, s, id, sequence, deltas[0], settle);
      MoveChunksPhase(env, MoveChunk(env, s, id, sequence, deltas[0], settle).state, id, sequence + 1, deltas[1..],
                      returning || settle);
    }
  }

  lemma ConcludedPhase(env: Env, o: Outcome<Sup>, reason: string, always: bool)
    requires o.state.phase.SafeIdle?
    ensures var phase := Concluded(env, o, reason, always).state.phase;
            phase.SafeIdle? || phase.Failsafe? || phase.Paused?
  {
    hide Aborted, Revoke;
    if o.error.Some? {
      AbortedPhase(env, o, false, reason);
    }
  }

  lemma CalibratePhase(env: Env, s: Sup, gain: real, validId: bool)
    ensures var phase := Calibrate(env, s, gain, validId).state.phase;
            phase == s.phase || (s.phase.SafeIdle? && (phase.Failsafe? || phase.Paused?))
  {
    hide CalibrationMoves, Concluded, Calibrated, Calibration.Accepted, Calibration.Deltas, Permitted;
    if s.phase.SafeIdle? && Calibration.Accepted(gain, CALIBRATION_STEP) {
      var begun := Persisted(env, Outcome(Later(s, 2).(originCalibrated := false), None));
      var deltas := Calibration.Deltas(gain, CALIBRATION_STEP);
      CalibrationMovesPhase(env, begun.state, deltas);
      var moves := CalibrationMoves(env, begun.state, deltas);
      ConcludedPhase(env, moves, "camera-calibration", true);
      CalibratedPhase(env, Concluded(env, moves, "camera-calibration", true).state);
    }
  }

  lemma CalibrationMovesPhase(env: Env, s: Sup, deltas: seq<int>)
    ensures CalibrationMoves(env, s, deltas).state.phase == s.phase
  {
    hide Issue, MoveChunks;
    var issued := On(s, Issue(env, s.gate, CameraCalibration, 5000, {MouseInput}, 50, 0));
    if issued.state.gate.lease.Some? {
      MoveChunksPhase(env, issued.state, issued.state.gate.lease.value.id, 0, deltas, false);
    }
  }

  lemma CalibratedPhase(env: Env, s: Sup)
    ensures var phase := Calibrated(env, s).state.phase; phase == s.phase || phase.Failsafe?
  {
    hide Fail, Revoke;
    FailPhase(env, Later(Later(s, 2), 1), "emergency-stop-latched");
  }

  lemma ProbePhase(env: Env, s: Sup, dx: int, dy: int)
    ensures var phase := Probe(env, s, dx, dy).state.phase;
            phase == s.phase || (s.phase.SafeIdle? && (phase.Failsafe? || phase.Paused?))
  {
    hide Issue, Apply, Concluded, Permitted;
    if s.phase.SafeIdle? {
      var begun := Persisted(env, Outcome(Later(s, 2).(pitch := 0, updates := 0, originCalibrated := false), None));
      var issued := On(begun.state, Issue(env, begun.state.gate, CameraProbe, 2000, {MouseInput}, 50, 0));
      ConcludedPhase(env, ProbeMove(env, issued.state, dx, dy), "camera-probe", false);
    }
  }

  lemma ActingPhase(env: Env, s: Sup, c: Command)
    requires c.DoApply? || c.DoRelease? || c.DoChat? || c.DoRenew? || c.DoActivate?
    ensures Disciplined(env, s, c, Perform(env, s, c).state.phase)
  {
    hide Guarded, RequireRunning, Fail, Activate, Renew, Apply, ReleaseInputs, Chat, Aborted, Permitted, Admissible;
    GuardedPhase(env, s);
    match c
    case DoApply(id, a) =>
      RequireRunningPhase(env, s, id);
      var ready := RequireRunning(env, s, id).state;
      FailPhase(env, ready, "invalid-motor-action");
      var done := On(ready, Apply(env, ready.gate, id, a, Some(MAX_TTL_MS)));
      FailPhase(env, done.state.(routeFault := true), "motor-action");
    case DoRelease(id) => RequireRunningPhase(env, s, id);
    case DoChat(id, validText, canType) =>
      RequireRunningPhase(env, s, id);
      if RequireRunning(env, s, id).error.None? {
        ChatPhase(env, s, id);
      }
    case DoActivate => ActivatePhase(env, s);
    case _ =>
  }

  lemma ActivatePhase(env: Env, s: Sup)
    ensures Disciplined(env, s, DoActivate, Activate(env, s).state.phase)
  {
    hide Guarded, Fail, Revoke, Permitted;
    GuardedPhase(env, s);
    var read := Later(Guarded(env, s).state, 1);
    FailPhase(env, Revoking(env, read, "activate-without-live-lease").state, "activate-without-live-lease");
  }

  lemma ChatPhase(env: Env, s: Sup, id: nat)
    requires RequireRunning(env, s, id).error.None?
    ensures var chat := Chat(env, RequireRunning(env, s, id).state, id);
            && s.phase.Running? && chat.state.phase.Running?
            && (chat.error.Some? ==>
                  var phase := Aborted(env, chat, true, "chat-backend-fault").state.phase;
                  phase.Running? || phase.Failsafe? || phase.Paused?)
  {
    hide Guarded, Fail, Revoke, Renew, Type, Aborted, Permitted;
    GuardedPhase(env, s);
    var chat := Chat(env, RequireRunning(env, s, id).state, id);
    if chat.error.Some? {
      AbortedPhase(env, chat, true, "chat-backend-fault");
    }
  }

  lemma WatchdogPhase(env: Env, s: Sup)
    ensures var phase := Watchdog(env, s).state.phase;
            && (phase == s.phase || phase.Failsafe? || phase.Paused? || phase.Stopped?)
            && (s.phase.Stopped? ==> phase.Stopped?)
            && (s.phase.Failsafe? ==> phase.Failsafe? || phase.Stopped?)
  {
    hide Fail, Disarm, Revoke, CheckExpiry;
    FailPhase(env, Later(s, 1), "emergency-stop-latched");
    DisarmPhase(env, Later(s, 2), "operator-pause");
    var read := Later(s, 2);
    var disarmed := Disarm(env, read, "operator-pause").state;
    FailPhase(env, On(read, CheckExpiry(env, read.gate).outcome).state, "motor-lease-watchdog-expired");
    FailPhase(env, On(disarmed, CheckExpiry(env, disarmed.gate).outcome).state, "motor-lease-watchdog-expired");
  }

  lemma PausePhase(env: Env, s: Sup)
    ensures var phase := Pause(env, s).state.phase;
            phase == s.phase || (phase.Paused? && !s.phase.Failsafe? && !s.phase.Stopped?)
  {
    hide Revoke;
  }

  lemma StopPhase(env: Env, s: Sup, prior: Option<Error>)
    ensures Stop(env, s).state.phase == Stopped
    ensures CloseRuntime(env, s, prior).state.phase == Stopped
  {
    hide Revoke;
  }

  lemma TransitionPhase(env: Env, s: Sup, target: Phase)
    ensures Transition(env, s, target).state.phase == if target in AllowedTargets(s.phase) then target else s.phase
    ensures Transition(env, s, target).error.None? ==> target in AllowedTargets(s.phase)
  {
  }

  lemma ReplacePhase(env: Env, s: Sup, live: bool, preserve: bool)
    ensures ReplaceBackend(env, s, live, preserve).state.phase == s.phase
  {
    hide Revoke, ReleaseAll;
  }

  lemma ArmPhase(env: Env, s: Sup, target: string)
    ensures var phase := Arm(env, s, target).state.phase;
            phase == s.phase || (phase.Armed? && s.phase.SafeIdle? && Permitted(env, s))
  {
    hide Revoke, Issue;
  }

  lemma ResumePhase(env: Env, s: Sup)
    ensures var phase := Resume(env, s).state.phase;
            phase == s.phase || (phase.SafeIdle? && s.phase.Paused?) || (phase.Stopped? && s.phase.Failsafe?)
  {
    hide Stop, Transition;
    StopPhase(env, Later(s, 1), None);
    TransitionPhase(env, Later(s, 1), SafeIdle);
  }

  lemma StartPhase(env: Env, s: Sup)
    ensures var phase := Start(env, s).state.phase;
            phase == s.phase
            || (s.phase.Stopped? && !env.emergency(s.gate.tick)
                && (phase.Starting? || phase.SafeIdle? || phase.Paused?))
  {
    hide Transition, Pause, Revoke, AllowedTargets;
    var read := Later(s, 1);
    TransitionPhase(env, read, Starting);
    OnlyStarting(s.phase);
    var starting := Transition(env, read, Starting).state;
    TransitionPhase(env, starting, SafeIdle);
    var idle := Transition(env, starting, SafeIdle).state;
    PausePhase(env, Later(idle, 1));
  }

  lemma OnlyStarting(phase: Phase)
    ensures Starting in AllowedTargets(phase) <==> phase.Stopped?
  {
  }

  lemma LifecycleFollowsTheTable(env: Env, s: Sup, c: Command)
    ensures Disciplined(env, s, c, Perform(env, s, c).state.phase)
  {
    hide Start, Pause, Resume, Stop, ReplaceBackend, Arm, CloseRuntime, Fail, Disarm, Calibrate, Probe, Watchdog;
    if c.DoApply? || c.DoRelease? || c.DoChat? || c.DoRenew? || c.DoActivate? {
      ActingPhase(env, s, c);
    } else {
      match c
      case DoStart => StartPhase(env, s);
      case DoFail(reason) => FailPhase(env, s, reason);
      case DoDisarm(reason) => DisarmPhase(env, s, reason);
      case DoCalibrate(gain, validId) => CalibratePhase(env, s, gain, validId);
      case DoProbe(dx, dy) => ProbePhase(env, s, dx, dy);
      case DoWatchdog => WatchdogPhase(env, s);
      case DoPause => PausePhase(env, s);
      case DoStop => StopPhase(env, s, None);
      case DoCloseRuntime(prior) => StopPhase(env, s, prior);
      case DoResume => ResumePhase(env, s);
      case DoArm(target) => ArmPhase(env, s, target);
      case DoReplaceBackend(live, preserve) => ReplacePhase(env, s, live, preserve);
    }
  }
}
