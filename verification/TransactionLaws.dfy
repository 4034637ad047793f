/** Exactly when the longer supervisor calls return, and what they do on the way: releases, chat, the private
    camera transactions and the serve loop. */
module TransactionLaws {
  import opened Common
  import opened Motor
  import opened SafetyModel
  import opened SafetyFacts
  import opened SafetyLaws
  import opened SupervisorModel
  import opened SupervisorLaws
  import Calibration

  // --- Releasing and typing ---------------------------------------------------------------------------------

  /** A release of all inputs returns exactly when the call gets through to a live lease, the open backend confirms
      the release and takes the refreshed lease, and the status is published. */
  lemma ReleaseCallReturns(env: Env, s: Sup, id: nat)
    ensures var out, t := ReleaseInputsCall(env, s, id), s.gate.tick;
            && (out.error.None? <==>
                  && Unlatched(env, t) && s.phase.Running? && s.gate.lease.Some? && s.gate.lease.value.id == id
                  && env.now(t + 2) < s.gate.lease.value.expires && env.now(t + 3) < s.gate.lease.value.expires
                  && s.gate.backend.open && env.fate(t + 4).Completes? && !env.fate(t + 6).Raises?
                  && !env.fate(t + 7).Raises?)
            && (out.error.None? ==>
                  var longer := s.gate.lease.value.(expires := env.now(t + 5) + 5_000_000_000);
                  out.state
                  == s.(gate := Gate(Some(longer), s.gate.lastSequence, "active",
                                     Backend(Some(longer), RELEASED, true, true), t + 8,
                                     s.gate.trace + [Extended(longer, env.now(t + 5))])))
  {
    hide Revoke, Fail, Guarded, RequireRunning, ReleaseInputs;
    RequireRunningTold(env, s, id);
    ReleaseReturns(env, s.gate.(tick := s.gate.tick + 3), id, Some(5000));
  }

  /** Otherwise it ends as the check of the lease or the release did. */
  lemma ReleaseCallFails(env: Env, s: Sup, id: nat)
    ensures var out, ready := ReleaseInputsCall(env, s, id), RequireRunning(env, s, id);
            if ready.error.Some? then out == ready
            else
              var done := ReleaseInputs(env, ready.state.gate, id, Some(5000));
              done.error.Some? ==> out == Outcome(ready.state.(gate := done.state), done.error)
  {
    hide RequireRunning, ReleaseInputs;
  }

  /** Chat goes through at ticks `t` to `t + 9`: the lease is renewed before it expires, the text is typed, neither
      latch is set, and the lease is renewed once more before the five seconds are over. */
  predicate Types(env: Env, t: nat, expires: int, open: bool) {
    && open && env.now(t) < expires && !env.fate(t + 2).Raises? && !env.fate(t + 3).Raises? && Unlatched(env, t + 4)
    && env.now(t + 6) < env.now(t + 1) + 5_000_000_000 && !env.fate(t + 8).Raises?
  }

  lemma ChatReturns(env: Env, s: Sup, id: nat)
    requires s.gate.lease.Some? && s.gate.lease.value.id == id
    ensures var out, t := Chat(env, s, id), s.gate.tick;
            && (out.error.None? <==> Types(env, t, s.gate.lease.value.expires, s.gate.backend.open))
            && (out.error.None? ==>
                  var lease := s.gate.lease.value;
                  var first := lease.(expires := env.now(t + 1) + 5_000_000_000);
                  var last := lease.(expires := env.now(t + 7) + 3_000_000_000);
                  out.state == s.(gate := Gate(Some(last), s.gate.lastSequence, "active",
                                               s.gate.backend.(bound := Some(last)), t + 9,
                                               s.gate.trace + [Extended(first, env.now(t + 1))]
                                               + [Extended(last, env.now(t + 7))])))
  {
    hide Renew;
    RenewReturns(env, s.gate, id, 5000);
    var extended := Renew(env, s.gate, id, 5000);
    RenewReturns(env, extended.state.(tick := s.gate.tick + 6), id, 3000);
  }

  /** How chat fails: as the first renewal, the typing, a latch or the second renewal did. Typing that raises may
      leave any key held. */
  lemma ChatFails(env: Env, s: Sup, id: nat)
    ensures var out, first := Chat(env, s, id), Renew(env, s.gate, id, 5000);
            var t := first.state.tick;
            var typed := first.state.(tick := t + 1);
            if first.error.Some? then out == Outcome(s.(gate := first.state), first.error)
            else if env.fate(t).Raises? then
              out == Outcome(s.(gate := typed.(backend := first.state.backend.(held := env.fate(t).kept))),
                             Some(BackendFault(env.fate(t).route)))
            else if !Unlatched(env, t + 1) then
              out == Outcome(s.(gate := typed.(tick := t + 3)), Some(Interlock))
            else
              var last := Renew(env, typed.(tick := t + 3), id, 3000);
              out == Outcome(s.(gate := last.state), last.error)
  {
    hide Renew;
  }

  /** After a failure inside a transaction: a latched emergency fails the supervisor; a pause disarms or revokes;
      and otherwise it fails for a reason of its own. The failure is reported unless publishing it raises. */
  lemma AbortedTold(env: Env, o: Outcome<Sup>, disarming: bool, reason: string)
    requires o.error.Some?
    ensures var t := o.state.gate.tick;
            var routed := !disarming && o.error.value == BackendFault(true);
            var s := if routed then o.state.(routeFault := true) else o.state;
            var r := if env.emergency(t) then Fail(env, At(s, t + 1), "emergency-stop-latched")
                     else if !env.paused(t + 1) then Fail(env, At(s, t + 2), reason)
                     else if disarming then Disarm(env, At(s, t + 2), "operator-pause")
                     else
                       var revoked := Revoke(env, s.gate.(tick := t + 2), "operator-pause");
                       Outcome(s.(gate := revoked.state), revoked.error);
            Aborted(env, o, disarming, reason) == Outcome(r.state, if r.error.Some? then r.error else o.error)
  {
    hide Fail, Disarm, Revoke;
  }

  /** A chat call: it gets through to a live lease, its text is valid and the backend can type, and then the chat
      decides; a failing chat is aborted. */
  lemma SendChatTold(env: Env, s: Sup, id: nat, validText: bool, canType: bool)
    ensures var out, ready := SendChat(env, s, id, validText, canType), RequireRunning(env, s, id);
            if ready.error.Some? then out == ready
            else if !validText then out == Outcome(ready.state, Some(BadArgument))
            else if !canType then out == Outcome(ready.state, Some(WrongState))
            else
              var chat := Chat(env, ready.state, id);
              if chat.error.Some? then out == Aborted(env, chat, true, "chat-backend-fault") else out == chat
  {
    hide RequireRunning, Chat, Aborted;
  }

  /** So a chat call returns exactly when neither latch is set, the supervisor runs, the live lease is named before
      it expires, the text is valid, the backend can type, and the typing goes through. */
  lemma SendChatReturns(env: Env, s: Sup, id: nat, validText: bool, canType: bool)
    ensures var t := s.gate.tick;
            SendChat(env, s, id, validText, canType).error.None? <==>
              && Unlatched(env, t) && s.phase.Running? && s.gate.lease.Some? && s.gate.lease.value.id == id
              && env.now(t + 2) < s.gate.lease.value.expires && validText && canType
              && Types(env, t + 3, s.gate.lease.value.expires, s.gate.backend.open)
  {
    hide RequireRunning, Chat, Aborted, SendChat, Revoke, Fail, Guarded;
    SendChatTold(env, s, id, validText, canType);
    RequireRunningTold(env, s, id);
    var ready := RequireRunning(env, s, id);
    if ready.error.None? {
      ChatReturns(env, ready.state, id);
      if Chat(env, ready.state, id).error.Some? {
        AbortedRaises(env, Chat(env, ready.state, id), true, "chat-backend-fault");
      }
    }
  }

  lemma AbortedRaises(env: Env, o: Outcome<Sup>, disarming: bool, reason: string)
    requires o.error.Some?
    ensures Aborted(env, o, disarming, reason).error.Some?
  {
    hide Fail, Disarm, Revoke;
  }

  // --- Calibrating the camera ---------------------------------------------------------------------------------

  /** One chunk of a calibration: pure vertical motion of the world camera. */
  function Pitching(sequence: nat, dy: int): MotorAction {
    MotorAction(sequence, {}, {}, {}, {}, 0, dy, None, true, 0)
  }

  /** A chunk at tick `t` acts at this tick: the latches are read once, and once more when the camera settles. */
  function ActsAt(t: nat, settle: bool): nat { t + if settle then 4 else 2 }

  /** Every twenty-fifth chunk renews the lease. */
  predicate Renewing(sequence: nat) { sequence % 25 == 24 }

  function LatchesReadAt(t: nat, sequence: nat, settle: bool): nat {
    ActsAt(t, settle) + if Renewing(sequence) then 5 else 2
  }

  /** Until when the lease lives after a chunk. */
  function LivesUntil(env: Env, t: nat, expires: int, sequence: nat, settle: bool): int {
    if Renewing(sequence) then env.now(ActsAt(t, settle) + 3) + 5_000_000_000 else expires
  }

  predicate ChunkGoes(env: Env, t: nat, expires: int, sequence: nat, settle: bool) {
    var u := ActsAt(t, settle);
    && Unlatched(env, t) && (settle ==> Unlatched(env, t + 2))
    && env.now(u) < expires && !env.fate(u + 1).Raises?
    && (Renewing(sequence) ==> env.now(u + 2) < expires && !env.fate(u + 4).Raises?)
    && Unlatched(env, LatchesReadAt(t, sequence, settle))
  }

  /** A private lease for the mouse, and a backend that is bound to it. */
  ghost predicate Private(s: Sup, id: nat, sequence: nat) {
    && s.gate.lease.Some? && s.gate.lease.value.id == id && s.gate.lastSequence < sequence
    && MouseInput in s.gate.lease.value.allowed && 0 <= s.gate.lease.value.maxDurationMs
    && s.gate.backend.open && s.gate.backend.bound.Some?
  }

  /** The actions that were accepted, in order. */
  function Actions(trace: seq<Event>): seq<MotorAction> {
    if trace == [] then []
    else
      var last := trace[|trace| - 1];
      Actions(trace[..|trace| - 1]) + if last.Applied? then [last.action] else []
  }

  lemma ActionsAppend(trace: seq<Event>, e: Event)
    ensures Actions(trace + [e]) == Actions(trace) + if e.Applied? then [e.action] else []
  {
    assert (trace + [e])[..|trace|] == trace;
  }

  lemma RevokeActs(env: Env, g: Gate, reason: string)
    ensures Actions(Revoke(env, g, reason).state.trace) == Actions(g.trace)
  {
    hide ReleaseAll, ClearLease;
    ActionsAppend(g.trace, Revoked);
  }

  lemma RejectActs(env: Env, g: Gate, reason: string)
    ensures Actions(RevokeAndReject(env, g, reason).state.trace) == Actions(g.trace)
  {
    hide Revoke;
    RevokeActs(env, g, reason);
  }

  lemma ExtendActs(env: Env, g: Gate, lease: Lease, ttlMs: int, failure: string, reason: string)
    ensures Actions(Extend(env, g, lease, ttlMs, failure, reason).state.trace) == Actions(g.trace)
  {
    hide Revoke, BindLease;
    var at := env.now(g.tick);
    var renewed := lease.(expires := at + ttlMs * NS_PER_MS);
    var bound := BindLease(env.fate(g.tick + 1), g.backend, renewed);
    RevokeActs(env, g.(backend := bound.state, tick := g.tick + 2), failure);
    ActionsAppend(g.trace, Extended(renewed, at));
  }

  lemma RenewActs(env: Env, g: Gate, id: nat, ttlMs: int)
    ensures Actions(Renew(env, g, id, ttlMs).state.trace) == Actions(g.trace)
  {
    hide Revoke, Extend, RevokeAndReject, Actions;
    RenewTold(env, g, id, ttlMs);
    RevokeActs(env, g, "invalid-or-missing-lease");
    if g.lease.Some? {
      RejectActs(env, g.(tick := g.tick + 1), "heartbeat-expired");
      ExtendActs(env, Gate(None, g.lastSequence, "lease-renewal", g.backend, g.tick + 1, g.trace), g.lease.value, ttlMs,
                 "lease-renewal-failed", "active");
    }
  }

  /** Applying without a refresh accepts that action and no other, exactly if it returns. */
  lemma ApplyActs(env: Env, g: Gate, id: nat, a: MotorAction)
    ensures var out := Apply(env, g, id, a, None);
            Actions(out.state.trace) == Actions(g.trace) + if out.error.None? then [a] else []
  {
    hide Revoke, RevokeAndReject, Actions, ApplyAction;
    RevokeActs(env, g, "invalid-or-missing-lease");
    if g.lease.Some? && g.lease.value.id == id {
      ApplyRefuses(env, g, a);
      if !InOrderUnder(env, g, id, a) {
        ApplyRefused(env, g, id, a, None);
        var refusal := Refusal(g.lease.value, g.lastSequence, env.now(g.tick), a);
        RejectActs(env, g.(tick := g.tick + 1), refusal.value);
        RejectTold(env, g.(tick := g.tick + 1), refusal.value);
      } else {
        var done := ApplyAction(env.fate(g.tick + 1), g.backend, a);
        RevokeActs(env, g.(backend := done.state, tick := g.tick + 2), "backend-apply-failed");
        ActionsAppend(g.trace, Applied(g.lease.value, a, env.now(g.tick)));
      }
    }
  }

  lemma PitchingIsLight(held: Keyboard, sequence: nat, dy: int)
    ensures MouseMove(sequence, 0, dy) == Pitching(sequence, dy) && Press(held, Pitching(sequence, dy)) == held
    ensures forall kind :: kind in Kinds(Pitching(sequence, dy)) ==> kind.MouseInput?
  {
  }

  /** The motion of a chunk at tick `u`, and its renewal. */
  lemma MotionReturns(env: Env, s: Sup, id: nat, sequence: nat, dy: int)
    requires Private(s, id, sequence)
    ensures var out, u := ChunkMoved(env, s, id, sequence, dy), s.gate.tick;
            var lease := s.gate.lease.value;
            var longer := if Renewing(sequence) then lease.(expires := env.now(u + 3) + 5_000_000_000) else lease;
            && (out.error.None? <==>
                  && env.now(u) < lease.expires && !env.fate(u + 1).Raises?
                  && (Renewing(sequence) ==> env.now(u + 2) < lease.expires && !env.fate(u + 4).Raises?))
            && (out.error.None? ==>
                  && out.state == s.(gate := out.state.gate)
                  && out.state.gate.lease == Some(longer) && out.state.gate.lastSequence == sequence
                  && out.state.gate.tick == u + (if Renewing(sequence) then 5 else 2)
                  && out.state.gate.backend.bound.Some?
                  && out.state.gate.backend == s.gate.backend.(bound := out.state.gate.backend.bound))
  {
    hide Apply, Renew, Press, Kinds;
    PitchingIsLight(s.gate.backend.held, sequence, dy);
    ApplyReturns(env, s.gate, id, Pitching(sequence, dy), None);
    RenewReturns(env, Apply(env, s.gate, id, Pitching(sequence, dy), None).state, id, 5000);
  }

  /** A chunk, by its latches: they are read before it moves, twice when the camera settles, and again after. */
  lemma ChunkTold(env: Env, s: Sup, id: nat, sequence: nat, dy: int, settle: bool)
    ensures var out, t := MoveChunk(env, s, id, sequence, dy, settle), s.gate.tick;
            var moved := ChunkMoved(env, At(s, ActsAt(t, settle)), id, sequence, dy);
            if !Unlatched(env, t) then out == Outcome(At(s, t + 2), Some(Interlock))
            else if settle && !Unlatched(env, t + 2) then out == Outcome(At(s, t + 4), Some(Interlock))
            else if moved.error.Some? then out == moved
            else out == Outcome(At(moved.state, moved.state.gate.tick + 2),
                                if Unlatched(env, moved.state.gate.tick) then None else Some(Interlock))
  {
    hide ChunkMoved;
  }

  /** A chunk returns exactly when it goes through at its tick; it moves only the pitch, by its delta, and by one
      action. A chunk that raises may have moved the camera. */
  lemma ChunkReturns(env: Env, s: Sup, id: nat, sequence: nat, dy: int, settle: bool)
    requires Private(s, id, sequence)
    ensures var out, t := MoveChunk(env, s, id, sequence, dy, settle), s.gate.tick;
            && (out.error.None? <==> ChunkGoes(env, t, s.gate.lease.value.expires, sequence, settle))
            && (out.error.None? ==>
                  && out.state == s.(gate := out.state.gate) && Private(out.state, id, sequence + 1)
                  && out.state.gate.tick == LatchesReadAt(t, sequence, settle) + 2
                  && out.state.gate.lease.value
                     == s.gate.lease.value.(expires := LivesUntil(env, t, s.gate.lease.value.expires, sequence, settle))
                  && out.state.gate.backend == s.gate.backend.(bound := out.state.gate.backend.bound))
  {
    hide ChunkMoved, MoveChunk;
    ChunkTold(env, s, id, sequence, dy, settle);
    MotionReturns(env, At(s, ActsAt(s.gate.tick, settle)), id, sequence, dy);
  }

  /** What a chunk does, however it ends: its own motion, or nothing if it was interrupted or refused before. */
  lemma ChunkActs(env: Env, s: Sup, id: nat, sequence: nat, dy: int, settle: bool)
    ensures var out := MoveChunk(env, s, id, sequence, dy, settle);
            && (out.error.None? ==> Actions(out.state.gate.trace) == Actions(s.gate.trace) + [Pitching(sequence, dy)])
            && (Actions(out.state.gate.trace) == Actions(s.gate.trace)
                || Actions(out.state.gate.trace) == Actions(s.gate.trace) + [Pitching(sequence, dy)])
  {
    hide ChunkMoved, MoveChunk, Actions;
    ChunkTold(env, s, id, sequence, dy, settle);
    MotionActs(env, At(s, ActsAt(s.gate.tick, settle)), id, sequence, dy);
  }

  lemma MotionActs(env: Env, s: Sup, id: nat, sequence: nat, dy: int)
    ensures var out := ChunkMoved(env, s, id, sequence, dy);
            && (out.error.None? ==> Actions(out.state.gate.trace) == Actions(s.gate.trace) + [Pitching(sequence, dy)])
            && (Actions(out.state.gate.trace) == Actions(s.gate.trace)
                || Actions(out.state.gate.trace) == Actions(s.gate.trace) + [Pitching(sequence, dy)])
  {
    hide Apply, Renew, Actions;
    assert MouseMove(sequence, 0, dy) == Pitching(sequence, dy);
    ApplyActs(env, s.gate, id, Pitching(sequence, dy));
    RenewActs(env, Apply(env, s.gate, id, Pitching(sequence, dy), None).state, id, 5000);
  }

  /** The camera settles once, before the first chunk that turns it back up from its pole. */
  predicate Settles(deltas: seq<int>, returning: bool)
    requires deltas != []
  {
    deltas[0] > 0 && !returning
  }

  predicate ChunksGo(env: Env, t: nat, expires: int, sequence: nat, deltas: seq<int>, returning: bool)
    decreases |deltas|
  {
    deltas == [] ||
    var settle := Settles(deltas, returning);
    && ChunkGoes(env, t, expires, sequence, settle)
    && ChunksGo(env, LatchesReadAt(t, sequence, settle) + 2, LivesUntil(env, t, expires, sequence, settle),
                sequence + 1, deltas[1..], returning || settle)
  }

  /** The tick after the last chunk. */
  function ChunksEnd(t: nat, sequence: nat, deltas: seq<int>, returning: bool): nat
    decreases |deltas|
  {
    if deltas == [] then t
    else
      var settle := Settles(deltas, returning);
      ChunksEnd(LatchesReadAt(t, sequence, settle) + 2, sequence + 1, deltas[1..], returning || settle)
  }

  function Pitchings(sequence: nat, deltas: seq<int>): (r: seq<MotorAction>)
    ensures |r| == |deltas|
  {
    seq(|deltas|, i requires 0 <= i < |deltas| => Pitching(sequence + i, deltas[i]))
  }

  lemma PitchingsFrom(sequence: nat, deltas: seq<int>, n: nat)
    requires deltas != [] && n < |deltas|
    ensures Pitchings(sequence, deltas)[..n + 1]
            == [Pitching(sequence, deltas[0])] + Pitchings(sequence + 1, deltas[1..])[..n]
  {
  }

  /** All chunks return exactly when each goes through at its tick, under the lease that is then live. */
  lemma {:induction false} ChunksReturn(env: Env, s: Sup, id: nat, sequence: nat, deltas: seq<int>, returning: bool)
    requires Private(s, id, sequence)
    ensures var out := MoveChunks(env, s, id, sequence, deltas, returning);
            && (out.error.None? <==>
                  ChunksGo(env, s.gate.tick, s.gate.lease.value.expires, sequence, deltas, returning))
            && (out.error.None? ==> out.state == s.(gate := out.state.gate)
                                    && Private(out.state, id, sequence + |deltas|)
                                    && out.state.gate.tick == ChunksEnd(s.gate.tick, sequence, deltas, returning)
                                    && out.state.gate.backend.held == s.gate.backend.held)
    decreases |deltas|
  {
    hide MoveChunk, ChunkGoes, LatchesReadAt, LivesUntil;
    if deltas != [] {
      var settle := Settles(deltas, returning);
      ChunkReturns(env, s, id, sequence, deltas[0], settle);
      var moved := MoveChunk(env, s, id, sequence, deltas[0], settle);
      if moved.error.None? {
        ChunksReturn(env, moved.state, id, sequence + 1, deltas[1..], returning || settle);
      }
    }
  }

  /** However it ends, what acted is the first so many of the deltas, in order, each by one motion of the pitch
      axis alone; and all of them if it returns. */
  lemma {:induction false} ChunksAct(env: Env, s: Sup, id: nat, sequence: nat, deltas: seq<int>, returning: bool)
    returns (n: nat)
    ensures var out := MoveChunks(env, s, id, sequence, deltas, returning);
            && n <= |deltas| && (out.error.None? ==> n == |deltas|)
            && Actions(out.state.gate.trace) == Actions(s.gate.trace) + Pitchings(sequence, deltas)[..n]
    decreases |deltas|
  {
    hide MoveChunk, Actions, Pitching, Pitchings;
    n := 0;
    if deltas != [] {
      var settle := Settles(deltas, returning);
      ChunkActs(env, s, id, sequence, deltas[0], settle);
      var moved := MoveChunk(env, s, id, sequence, deltas[0], settle);
      if moved.error.None? {
        var m := ChunksAct(env, moved.state, id, sequence + 1, deltas[1..], returning || settle);
        n := m + 1;
        PitchingsFrom(sequence, deltas, m);
      } else if Actions(moved.state.gate.trace) != Actions(s.gate.trace) {
        n := 1;
        PitchingsFrom(sequence, deltas, 0);
      }
    }
  }

  /** The end of a transaction: what it raised is handled, its lease is revoked whatever came before, and the
      status is published, unless a probe's revocation raised. */
  lemma ConcludedTold(env: Env, o: Outcome<Sup>, reason: string, always: bool)
    ensures var handled := if o.error.None? then o else Aborted(env, o, false, reason);
            var t := handled.state.gate.tick;
            var r := Revoke(env, handled.state.gate.(tick := t + 1),
                            if env.paused(t) then "operator-pause" else reason);
            Concluded(env, o, reason, always)
            == if r.error.Some? && !always then Outcome(handled.state.(gate := r.state), r.error)
               else Outcome(handled.state.(gate := r.state.(tick := t + 4)),
                            if env.fate(t + 3).Raises? then Some(PersistFault)
                            else if r.error.Some? then r.error else handled.error)
  {
    hide Aborted, Revoke;
    var handled := if o.error.None? then o else Aborted(env, o, false, reason);
    RevokeTold(env, handled.state.gate.(tick := handled.state.gate.tick + 1),
               if env.paused(handled.state.gate.tick) then "operator-pause" else reason);
  }

  lemma ConcludedReturns(env: Env, o: Outcome<Sup>, reason: string, always: bool)
    requires o.error.Some? || o.state.gate.backend.open
    ensures var out, t := Concluded(env, o, reason, always), o.state.gate.tick;
            && (o.error.Some? ==> out.error.Some?)
            && (o.error.None? ==>
                  (out.error.None? <==> !env.fate(t + 1).Raises? && !env.fate(t + 3).Raises?
                                        && (env.fate(t + 1).Completes? ==> !env.fate(t + 2).Raises?)))
            && (out.error.None? ==>
                  out.state == o.state.(gate := out.state.gate) && out.state.gate.lease.None?
                  && out.state.gate.tick == t + 4 && out.state.gate.lastSequence == o.state.gate.lastSequence)
  {
    hide Aborted, Revoke;
    ConcludedTold(env, o, reason, always);
    if o.error.Some? {
      AbortedRaises(env, o, false, reason);
    } else {
      RevokeRaises(env, At(o.state, o.state.gate.tick + 1).gate, "operator-pause");
      RevokeRaises(env, At(o.state, o.state.gate.tick + 1).gate, reason);
    }
  }

  /** Revoking on an open backend raises exactly when the release does, or the clearing that follows one that was
      not swallowed. */
  lemma RevokeRaises(env: Env, g: Gate, reason: string)
    requires g.backend.open
    ensures var out := Revoke(env, g, reason);
            && (out.error.None? <==> !env.fate(g.tick).Raises?
                                     && (env.fate(g.tick).Completes? ==> !env.fate(g.tick + 1).Raises?))
            && out.state.lease.None? && out.state.lastSequence == g.lastSequence && out.state.tick == g.tick + 2
  {
    RevokeTold(env, g, reason);
  }

  /** A calibration returns exactly when the supervisor is idle before a live game window, the gain is accepted, no
      latch is seen, every publication and backend call it needs works, and every chunk goes through; the status is
      published before the first motion and after the last. Then the camera is at its origin by the ledger, no
      lease is left, and what acted are the deltas of that gain, in order, each by one motion of the pitch axis
      alone. */
  lemma CalibrateReturns(env: Env, s: Sup, gain: real, validId: bool)
    ensures var out, t := Calibrate(env, s, gain, validId), s.gate.tick;
            out.error.None? <==>
              && s.phase.SafeIdle? && s.live && validId && 0.0 < gain && gain <= 100.0 && Unlatched(env, t)
              && !env.fate(t + 2).Raises? && IssueGoesThrough(env, t + 3, s.gate.backend)
              && var deltas := Calibration.Deltas(gain, 96);
                 var u := ChunksEnd(t + 7, 0, deltas, false);
                 && ChunksGo(env, t + 7, env.now(t + 5) + 5_000_000_000, 0, deltas, false)
                 && !env.fate(u + 1).Raises? && (env.fate(u + 1).Completes? ==> !env.fate(u + 2).Raises?)
                 && !env.fate(u + 3).Raises? && Unlatched(env, u + 4) && !env.fate(u + 6).Raises?
  {
    hide Calibrate, Issue, MoveChunks, Concluded, Calibration.Deltas, ChunksGo, ChunksEnd, Calibrated, CalibrationMoves;
    CalibrateTold(env, s, gain, validId);
    if 0.0 < gain && gain <= 100.0 {
      var t, deltas := s.gate.tick, Calibration.Deltas(gain, 96);
      var begun := At(s, t + 3).(originCalibrated := false);
      MovesReturn(env, begun, deltas);
      var moves := CalibrationMoves(env, begun, deltas);
      ConcludedReturns(env, moves, "camera-calibration", true);
      CalibratedReturns(env, Concluded(env, moves, "camera-calibration", true).state);
    }
  }

  /** A calibration, step by step: it is refused, is not published, or moves, concludes, and looks at the latches. */
  lemma CalibrateTold(env: Env, s: Sup, gain: real, validId: bool)
    ensures var out, t := Calibrate(env, s, gain, validId), s.gate.tick;
            if !s.phase.SafeIdle? || !s.live then out == Outcome(s, Some(WrongState))
            else if !validId || gain <= 0.0 || gain > 100.0 then out == Outcome(s, Some(BadArgument))
            else if !Unlatched(env, t) then out == Outcome(At(s, t + 2), Some(Interlock))
            else
              var begun := At(s, t + 3).(originCalibrated := false);
              if env.fate(t + 2).Raises? then out == Outcome(begun, Some(PersistFault))
              else
                var moves := CalibrationMoves(env, begun, Calibration.Deltas(gain, 96));
                var done := Concluded(env, moves, "camera-calibration", true);
                out == if done.error.Some? then done else Calibrated(env, done.state)
  {
    hide CalibrationMoves, Concluded, Calibrated, Calibration.Deltas;
  }

  /** The moves of a calibration, under a lease for the mouse alone, of a twentieth of a second each. */
  lemma MovesReturn(env: Env, s: Sup, deltas: seq<int>)
    ensures var out, t := CalibrationMoves(env, s, deltas), s.gate.tick;
            && (out.error.None? <==>
                  && IssueGoesThrough(env, t, s.gate.backend)
                  && ChunksGo(env, t + 4, env.now(t + 2) + 5_000_000_000, 0, deltas, false))
            && (out.error.None? ==> out.state == s.(gate := out.state.gate) && out.state.gate.backend.open
                                    && out.state.gate.tick == ChunksEnd(t + 4, 0, deltas, false))
  {
    hide Issue, MoveChunks, ChunksGo, ChunksEnd;
    IssueTold(env, s.gate, CameraCalibration, 5000, {MouseInput}, 50, 0);
    var issued := Issue(env, s.gate, CameraCalibration, 5000, {MouseInput}, 50, 0);
    if issued.error.None? {
      ChunksReturn(env, s.(gate := issued.state), s.gate.tick + 2, 0, deltas, false);
    }
  }

  lemma MovesAct(env: Env, s: Sup, deltas: seq<int>) returns (n: nat)
    ensures var out := CalibrationMoves(env, s, deltas);
            && n <= |deltas| && (out.error.None? ==> n == |deltas|)
            && Actions(out.state.gate.trace) == Actions(s.gate.trace) + Pitchings(0, deltas)[..n]
  {
    hide Issue, MoveChunks, Actions, Pitchings;
    IssueActs(env, s.gate, CameraCalibration, 5000, {MouseInput}, 50, 0);
    IssueTold(env, s.gate, CameraCalibration, 5000, {MouseInput}, 50, 0);
    var issued := Issue(env, s.gate, CameraCalibration, 5000, {MouseInput}, 50, 0);
    n := 0;
    if issued.error.None? {
      n := ChunksAct(env, s.(gate := issued.state), issued.state.lease.value.id, 0, deltas, false);
    }
  }

  lemma IssueActs(env: Env, g: Gate, target: Target, ttlMs: int, allowed: set<ActionKind>, maxMs: int, first: int)
    ensures Actions(Issue(env, g, target, ttlMs, allowed, maxMs, first).state.trace) == Actions(g.trace)
  {
    hide Revoke, BindLease, Actions;
    RevokeActs(env, g, "lease-issue");
    var r := Revoke(env, g, "lease-issue");
    var lease := Lease(r.state.tick, target, env.now(r.state.tick) + ttlMs * NS_PER_MS, allowed, maxMs, first);
    var bound := BindLease(env.fate(r.state.tick + 1), r.state.backend, lease);
    RevokeActs(env, r.state.(backend := bound.state, tick := r.state.tick + 2), "lease-issue-failed");
    ActionsAppend(r.state.trace, Issued(lease, env.now(r.state.tick)));
  }

  /** The last look at the latches, at tick `t`: it publishes the new origin, or voids it and withdraws. */
  lemma CalibratedReturns(env: Env, s: Sup)
    ensures var out, t := Calibrated(env, s), s.gate.tick;
            && (out.error.None? <==> Unlatched(env, t) && !env.fate(t + 2).Raises?)
            && (Unlatched(env, t) ==> out.state == At(s, t + 3).(pitch := 0, updates := 0, originCalibrated := true))
            && (!Unlatched(env, t) ==>
                  var r := if env.emergency(t + 2) then Fail(env, At(s, t + 3), "emergency-stop-latched")
                           else if env.paused(t + 3) then
                             var revoked := Revoke(env, s.gate.(tick := t + 4), "operator-pause");
                             Outcome(s.(gate := revoked.state), revoked.error)
                           else Outcome(At(s, t + 4), None);
                  out == Outcome(r.state, if r.error.Some? then r.error else Some(Interlock)))
  {
    hide Fail, Revoke;
  }

  /** A revocation, a failure or a disarm acts no more, and so does a publication. */
  lemma FailActs(env: Env, s: Sup, reason: string)
    ensures Actions(Fail(env, s, reason).state.gate.trace) == Actions(s.gate.trace)
  {
    hide Revoke, Actions;
    FailTold(env, s, reason);
    ActionsAppend(s.gate.trace, Event.Withdrawn);
    RevokeActs(env, Gate(s.gate.lease, s.gate.lastSequence, s.gate.reason, s.gate.backend, s.gate.tick,
                         s.gate.trace + [Event.Withdrawn]), reason);
  }

  lemma ConcludedActs(env: Env, o: Outcome<Sup>, reason: string, always: bool)
    ensures Actions(Concluded(env, o, reason, always).state.gate.trace) == Actions(o.state.gate.trace)
  {
    hide Revoke, Actions, Aborted, Concluded;
    ConcludedTold(env, o, reason, always);
    if o.error.Some? {
      AbortedActs(env, o, false, reason);
    }
    var handled := if o.error.None? then o else Aborted(env, o, false, reason);
    RevokeActs(env, handled.state.gate.(tick := handled.state.gate.tick + 1),
               if env.paused(handled.state.gate.tick) then "operator-pause" else reason);
  }

  lemma DisarmActs(env: Env, s: Sup, reason: string)
    ensures Actions(Disarm(env, s, reason).state.gate.trace) == Actions(s.gate.trace)
  {
    hide Revoke, Actions, Disarm;
    DisarmTold(env, s, reason);
    ActionsAppend(s.gate.trace, Event.Withdrawn);
    RevokeActs(env, Gate(s.gate.lease, s.gate.lastSequence, s.gate.reason, s.gate.backend, s.gate.tick + 1,
                         s.gate.trace + [Event.Withdrawn]),
               if env.paused(s.gate.tick) && s.phase.Paused? then "operator-pause" else reason);
  }

  lemma AbortedActs(env: Env, o: Outcome<Sup>, disarming: bool, reason: string)
    requires o.error.Some?
    ensures Actions(Aborted(env, o, disarming, reason).state.gate.trace) == Actions(o.state.gate.trace)
  {
    hide Revoke, Actions, Aborted, Fail, Disarm;
    AbortedTold(env, o, disarming, reason);
    var t := o.state.gate.tick;
    var s := if !disarming && o.error.value == BackendFault(true) then o.state.(routeFault := true) else o.state;
    FailActs(env, At(s, t + 1), "emergency-stop-latched");
    FailActs(env, At(s, t + 2), reason);
    DisarmActs(env, At(s, t + 2), "operator-pause");
    RevokeActs(env, s.gate.(tick := t + 2), "operator-pause");
  }

  /** However a calibration ends, what acted is the first so many of the deltas of its gain, in order, each by one
      motion of the pitch axis alone; all of them, if it returns. */
  lemma CalibrateActs(env: Env, s: Sup, gain: real, validId: bool) returns (n: nat)
    ensures var out := Calibrate(env, s, gain, validId);
            if !(0.0 < gain && gain <= 100.0) then Actions(out.state.gate.trace) == Actions(s.gate.trace)
            else
              var deltas := Calibration.Deltas(gain, 96);
              && n <= |deltas| && (out.error.None? ==> n == |deltas|)
              && Actions(out.state.gate.trace) == Actions(s.gate.trace) + Pitchings(0, deltas)[..n]
  {
    hide Calibrate, CalibrationMoves, Concluded, Calibrated, Actions, Calibration.Deltas, Pitchings;
    CalibrateTold(env, s, gain, validId);
    n := 0;
    var t := s.gate.tick;
    if s.phase.SafeIdle? && s.live && validId && 0.0 < gain && gain <= 100.0 && Unlatched(env, t)
       && !env.fate(t + 2).Raises?
    {
      var begun, deltas := At(s, t + 3).(originCalibrated := false), Calibration.Deltas(gain, 96);
      n := MovesAct(env, begun, deltas);
      var moves := CalibrationMoves(env, begun, deltas);
      ConcludedActs(env, moves, "camera-calibration", true);
      ConcludedErrs(env, moves, "camera-calibration", true);
      CalibratedActs(env, Concluded(env, moves, "camera-calibration", true).state);
    }
  }

  lemma ConcludedErrs(env: Env, o: Outcome<Sup>, reason: string, always: bool)
    ensures o.error.Some? ==> Concluded(env, o, reason, always).error.Some?
  {
    hide Aborted, Revoke;
    if o.error.Some? {
      ConcludedReturns(env, o, reason, always);
    }
  }

  lemma CalibratedActs(env: Env, s: Sup)
    ensures Actions(Calibrated(env, s).state.gate.trace) == Actions(s.gate.trace)
  {
    hide Actions, Fail, Revoke;
    CalibratedReturns(env, s);
    FailActs(env, At(s, s.gate.tick + 3), "emergency-stop-latched");
    RevokeActs(env, s.gate.(tick := s.gate.tick + 4), "operator-pause");
  }

  // --- Probing the camera ---------------------------------------------------------------------------------------

  /** A probe moves along one axis, by at most 128 counts. */
  predicate OneAxis(dx: int, dy: int) {
    || (dx == 0 && dy != 0 && -128 <= dy && dy <= 128)
    || (dy == 0 && dx != 0 && -128 <= dx && dx <= 128)
  }

  function Probing(dx: int, dy: int): MotorAction { MotorAction(0, {}, {}, {}, {}, dx, dy, None, true, 0) }

  /** The one motion of a probe, under the lease it has just been issued. */
  lemma ProbeMoveTold(env: Env, s: Sup, dx: int, dy: int)
    requires s.gate.lease.Some?
    ensures var out := ProbeMove(env, s, dx, dy);
            var moved := Apply(env, s.gate, s.gate.lease.value.id, Probing(dx, dy), None);
            out == Outcome(s.(gate := moved.state.(tick := moved.state.tick + 2)),
                           if moved.error.Some? then moved.error
                           else if Unlatched(env, moved.state.tick) then None else Some(Interlock))
  {
    hide Apply;
    assert MouseMove(0, dx, dy) == Probing(dx, dy);
  }

  /** A probe, step by step: it is refused, is not published, gets no lease, or moves and concludes. */
  lemma ProbeTold(env: Env, s: Sup, dx: int, dy: int)
    ensures var out, t := Probe(env, s, dx, dy), s.gate.tick;
            if !OneAxis(dx, dy) then out == Outcome(s, Some(BadArgument))
            else if !s.phase.SafeIdle? || !s.live then out == Outcome(s, Some(WrongState))
            else if !Unlatched(env, t) then out == Outcome(At(s, t + 2), Some(Interlock))
            else
              var begun := At(s, t + 3).(pitch := 0, updates := 0, originCalibrated := false);
              var issued := Issue(env, begun.gate, CameraProbe, 2000, {MouseInput}, 50, 0);
              out == if env.fate(t + 2).Raises? then Outcome(begun, Some(PersistFault))
                     else if issued.error.Some? then Outcome(begun.(gate := issued.state), issued.error)
                     else Concluded(env, ProbeMove(env, begun.(gate := issued.state), dx, dy), "camera-probe", false)
  {
    hide Issue, ProbeMove, Concluded;
  }

  /** A probe returns exactly when it moves along one axis by at most 128 counts, the supervisor is idle before a
      live game window, neither latch is seen before or after the motion, and every publication and backend call it
      needs works; it voids the origin, and what acted is that one motion. */
  lemma ProbeReturns(env: Env, s: Sup, dx: int, dy: int)
    ensures var out, t := Probe(env, s, dx, dy), s.gate.tick;
            && (out.error.None? <==>
                  && OneAxis(dx, dy) && s.phase.SafeIdle? && s.live && Unlatched(env, t) && !env.fate(t + 2).Raises?
                  && IssueGoesThrough(env, t + 3, s.gate.backend)
                  && env.now(t + 7) < env.now(t + 5) + 2_000_000_000 && !env.fate(t + 8).Raises?
                  && Unlatched(env, t + 9)
                  && !env.fate(t + 12).Raises? && (env.fate(t + 12).Completes? ==> !env.fate(t + 13).Raises?)
                  && !env.fate(t + 14).Raises?)
            && (out.error.None? ==>
                  && out.state == s.(gate := out.state.gate, pitch := 0, updates := 0, originCalibrated := false)
                  && out.state.gate.lease.None?
                  && Actions(out.state.gate.trace) == Actions(s.gate.trace) + [Probing(dx, dy)])
  {
    hide Issue, ProbeMove, Concluded, Probe, Apply, Actions;
    ProbeTold(env, s, dx, dy);
    var t := s.gate.tick;
    var begun := At(s, t + 3).(pitch := 0, updates := 0, originCalibrated := false);
    IssueTold(env, begun.gate, CameraProbe, 2000, {MouseInput}, 50, 0);
    IssueActs(env, begun.gate, CameraProbe, 2000, {MouseInput}, 50, 0);
    var issued := Issue(env, begun.gate, CameraProbe, 2000, {MouseInput}, 50, 0);
    if issued.error.None? {
      var ready := begun.(gate := issued.state);
      ProbeMoveTold(env, ready, dx, dy);
      ProbingReturns(env, ready.gate, dx, dy);
      ApplyActs(env, ready.gate, ready.gate.lease.value.id, Probing(dx, dy));
      ConcludedReturns(env, ProbeMove(env, ready, dx, dy), "camera-probe", false);
      ConcludedActs(env, ProbeMove(env, ready, dx, dy), "camera-probe", false);
    }
  }

  lemma ProbingReturns(env: Env, g: Gate, dx: int, dy: int)
    requires g.lease.Some? && g.lease.value.allowed == {MouseInput} && g.lease.value.maxDurationMs == 50
    requires g.lastSequence == -1 && g.backend.open && g.backend.bound.Some?
    ensures var out, t := Apply(env, g, g.lease.value.id, Probing(dx, dy), None), g.tick;
            && (out.error.None? <==> env.now(t) < g.lease.value.expires && !env.fate(t + 1).Raises?)
            && (out.error.None? ==> out.state.backend.open && out.state.tick == t + 2)
  {
    hide Apply, Press;
    ApplyReturns(env, g, g.lease.value.id, Probing(dx, dy), None);
    assert forall kind :: kind in Kinds(Probing(dx, dy)) ==> kind.MouseInput?;
  }

  // --- The serve loop --------------------------------------------------------------------------------------------

  /** A turn of the serve loop: an emergency fails and then stops; a pause disarms unless it has been served; and
      an expired lease fails the supervisor. */
  lemma WatchdogTold(env: Env, s: Sup)
    ensures var out, t := Watchdog(env, s), s.gate.tick;
            if env.emergency(t) then
              var failed := Fail(env, At(s, t + 1), "emergency-stop-latched");
              out == if failed.error.Some? then failed else Stop(env, failed.state)
            else
              var disarms := env.paused(t + 1) && !(s.phase.Paused? && s.gate.lease.None?);
              var d := if disarms then Disarm(env, At(s, t + 2), "operator-pause") else Outcome(At(s, t + 2), None);
              out == if d.error.Some? then d else WatchExpiry(env, d.state)
  {
    hide Fail, Stop, Disarm, WatchExpiry;
  }

  lemma WatchExpiryTold(env: Env, s: Sup)
    ensures var out, t := WatchExpiry(env, s), s.gate.tick;
            if s.gate.lease.None? then out == Outcome(s, None)
            else if env.now(t) < s.gate.lease.value.expires then out == Outcome(At(s, t + 1), None)
            else
              var r := Revoke(env, s.gate.(tick := t + 1), "watchdog-expired");
              out == if r.error.Some? then Outcome(s.(gate := r.state), r.error)
                     else Fail(env, s.(gate := r.state), "motor-lease-watchdog-expired")
  {
    hide Fail, Revoke;
    ExpiryTold(env, s.gate);
  }

  /** Leaving the serve loop: stopped, revoked and closed, whatever raises; and the first error is reported, in the
      order of what ended the loop, the revocation, the control socket, the backend, the status and the control
      file. */
  lemma CloseRuntimeTold(env: Env, s: Sup, prior: Option<Error>)
    ensures var out, t := CloseRuntime(env, s, prior), s.gate.tick;
            var r := Withdrawing(env, s.gate, t, "supervisor-exit");
            var closed := CloseBackend(env.fate(t + 3), r.state.backend);
            && out.state == s.(phase := Stopped, stopSet := true,
                               gate := r.state.(backend := closed.state, tick := t + 6))
            && out.error == if prior.Some? then prior
                            else if r.error.Some? then r.error
                            else if env.fate(t + 2).Raises? then Some(CleanupFault)
                            else if closed.error.Some? then closed.error
                            else if env.fate(t + 4).Raises? then Some(PersistFault)
                            else if env.fate(t + 5).Raises? then Some(CleanupFault)
                            else None
  {
    hide Revoke, CloseBackend;
    RevokeTold(env, Log(s.gate, Event.Withdrawn), "supervisor-exit");
  }

  // --- Runs -----------------------------------------------------------------------------------------------------

  /** Every command of a run is served, by the supervisor that the commands before it left. */
  lemma {:induction false} RunServesAll(env: Env, s: Sup, commands: seq<Command>, last: Command)
    ensures Run(env, s, []) == s && Run(env, s, commands + [last]) == Perform(env, Run(env, s, commands), last).state
    decreases |commands|
  {
    hide Perform;
    if commands == [] {
      assert [last][1..] == [];
    } else {
      assert (commands + [last])[1..] == commands[1..] + [last];
      RunServesAll(env, Perform(env, s, commands[0]).state, commands[1..], last);
    }
  }
}
