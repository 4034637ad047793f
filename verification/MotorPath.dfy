/** The whole motor path: what the router emits, delivered through the supervisor's gate. */
module MotorPath {
  import opened Common
  import opened Motor
  import opened SafetyModel
  import opened SafetyFacts
  import opened SupervisorModel
  import opened SupervisorFacts
  import Router = RouterModel
  import RouterFacts

  /** Deliver what one router call emitted. A physical release comes before the router is told of it. */
  function Deliver<K>(env: Env, s: Sup, id: nat, call: Router.Call<K>, emitted: Option<MotorAction>): Outcome<Sup> {
    if call.ReleasedCall? then ReleaseInputsCall(env, s, id)
    else if emitted.Some? then ApplyMotorAction(env, s, id, emitted.value)
    else Outcome(s, None)
  }

  // What the supervisor's lock serves next: a router call's delivery, a heartbeat, or a watchdog turn.
  datatype Turn<K> = Delivers(call: Router.Call<K>) | Beats(id: nat, ttlMs: int) | Watches

  datatype Session<K> = Session(desk: Router.Desk<K>, sup: Sup, accepted: bool)

  /** Serve the turns, in whatever order the threads take them, until one delivery is refused or fails. */
  ghost function Serve<K>(b: Router.Bodies<K>, cfgs: map<K, RouterFacts.Policy.Config>, env: Env, id: nat,
                          d: Router.Desk<K>, s: Sup, turns: seq<Turn<K>>): Session<K>
    requires RouterFacts.DeskOk(b, cfgs, d)
    decreases |turns|
  {
    if turns == [] then Session(d, s, true)
    else match turns[0]
      case Beats(named, ttlMs) => Serve(b, cfgs, env, id, d, RenewLease(env, s, named, ttlMs).state, turns[1..])
      case Watches => Serve(b, cfgs, env, id, d, Watchdog(env, s).state, turns[1..])
      case Delivers(call) =>
        RouterFacts.StepKept(b, cfgs, d, call);
        var e := Router.Step(b, cfgs, d, call);
        var o := Deliver(env, s, id, call, RouterFacts.Emitted(d, e));
        if o.error.Some? then Session(e, o.state, false) else Serve(b, cfgs, env, id, e, o.state, turns[1..])
  }

  /** The router calls among the turns. */
  function Calls<K>(turns: seq<Turn<K>>): seq<Router.Call<K>>
    decreases |turns|
  {
    if turns == [] then []
    else if turns[0].Delivers? then [turns[0].call] + Calls(turns[1..])
    else Calls(turns[1..])
  }

  // --- What one delivery does ---------------------------------------------------------------------

  lemma GateAccepts(env: Env, g: Gate, id: nat, a: MotorAction, refreshMs: Option<int>)
    requires Apply(env, g, id, a, refreshMs).error.None?
    ensures var t := Apply(env, g, id, a, refreshMs).state;
            t.backend.held == Press(g.backend.held, a) && t.lastSequence == a.sequence && t.lease.Some?
  {
    hide Refusal, Revoke, Press;
  }

  lemma AcceptedEffect(env: Env, s: Sup, id: nat, a: MotorAction)
    requires ApplyMotorAction(env, s, id, a).error.None?
    ensures var t := ApplyMotorAction(env, s, id, a).state;
            && t.gate.backend.held == Press(s.gate.backend.held, a)
            && t.gate.lastSequence == a.sequence && t.pitch == s.pitch + WorldPitch(a)
            && Live(s) && Live(t)
  {
    hide RequireRunning, Apply, Fail, Press, Admissible;
    RequireRunningReads(env, s, id);
    var ready := RequireRunning(env, s, id).state;
    if Apply(env, ready.gate, id, a, Some(MAX_TTL_MS)).error.None? {
      GateAccepts(env, ready.gate, id, a, Some(MAX_TTL_MS));
    }
  }

  lemma GuardedReads(env: Env, s: Sup)
    requires Guarded(env, s).error.None?
    ensures Guarded(env, s).state == Later(s, 2)
  {
    hide Fail, Disarm;
  }

  lemma RequireRunningReads(env: Env, s: Sup, id: nat)
    requires RequireRunning(env, s, id).error.None?
    ensures RequireRunning(env, s, id).state == Later(s, 3) && Live(s)
  {
    hide Guarded, Fail, Revoke;
    if Guarded(env, s).error.None? {
      GuardedReads(env, s);
    }
  }

  lemma ReleasedEffect(env: Env, s: Sup, id: nat)
    requires ReleaseInputsCall(env, s, id).error.None?
    ensures var t := ReleaseInputsCall(env, s, id).state;
            && Live(s) && t.gate.backend.held == RELEASED
            && t.gate.lastSequence == s.gate.lastSequence && t.pitch == s.pitch
  {
    hide Fail, Guarded, Revoke;
    RequireRunningReads(env, s, id);
  }

  /** The supervisor still runs under a lease. */
  predicate Live(s: Sup) { s.phase.Running? && s.gate.lease.Some? }

  /** The two halves agree: the gate has accepted nothing beyond the router's frontier, its camera ledger is
      where the emitted motion leads from `start`, and while the lease lives the backend holds exactly what
      replaying the emitted actions shows. */
  ghost predicate Agree<K>(d: Router.Desk<K>, s: Sup, start: int) {
    && s.gate.lastSequence <= d.router.lastSequence
    && s.pitch == start + Router.World(d.emitted)
    && (Live(s) ==> s.gate.backend.held == d.keyboard)
  }

  /** A turn of another thread changes nothing the two halves agree on, or ends the lease. */
  ghost predicate Aside(s: Sup, t: Sup) {
    && t.gate.lastSequence == s.gate.lastSequence && t.pitch == s.pitch
    && (Live(t) ==> Live(s) && t.gate.backend.held == s.gate.backend.held)
  }

  lemma RevokeAside(env: Env, g: Gate, reason: string)
    ensures var t := Revoke(env, g, reason).state; t.lease.None? && t.lastSequence == g.lastSequence
  {
  }

  lemma FailAside(env: Env, s: Sup, reason: string)
    ensures var t := Fail(env, s, reason).state; Aside(s, t) && !Live(t)
  {
    hide Revoke;
    RevokeAside(env, Withdraw(s).gate, reason);
  }

  lemma DisarmAside(env: Env, s: Sup, reason: string)
    ensures var t := Disarm(env, s, reason).state; Aside(s, t) && !Live(t)
  {
    hide Revoke;
    var effective := if s.phase.Paused? && env.paused(s.gate.tick) then "operator-pause" else reason;
    RevokeAside(env, Withdraw(Later(s, 1)).gate, effective);
  }

  lemma StopAside(env: Env, s: Sup)
    ensures var t := Stop(env, s).state; Aside(s, t) && !Live(t)
  {
    hide Revoke;
    RevokeAside(env, Withdraw(s).gate, "operator-stop");
  }

  lemma GuardedAside(env: Env, s: Sup)
    ensures Aside(s, Guarded(env, s).state)
    ensures Guarded(env, s).error.Some? ==> !Live(Guarded(env, s).state)
  {
    hide Fail, Disarm;
    FailAside(env, Later(s, 1), "emergency-stop-latched");
    DisarmAside(env, Later(s, 2), "operator-pause");
  }

  lemma ExtendAside(env: Env, g: Gate, lease: Lease, ttlMs: int, failure: string, reason: string)
    ensures var t := Extend(env, g, lease, ttlMs, failure, reason).state;
            && t.lastSequence == g.lastSequence && (t.lease.Some? ==> t.backend.held == g.backend.held)
  {
    hide Revoke;
    var renewed := lease.(expires := env.now(g.tick) + ttlMs * NS_PER_MS);
    var bound := BindLease(env.fate(g.tick + 1), g.backend, renewed);
    RevokeAside(env, g.(backend := bound.state, tick := g.tick + 2), failure);
  }

  lemma RenewAside(env: Env, g: Gate, id: nat, ttlMs: int)
    ensures var t := Renew(env, g, id, ttlMs).state;
            && t.lastSequence == g.lastSequence
            && (t.lease.Some? ==> g.lease.Some? && t.backend.held == g.backend.held)
  {
    hide Revoke, Extend;
    RevokeAside(env, g, "invalid-or-missing-lease");
    RevokeAside(env, g.(tick := g.tick + 1), "heartbeat-expired");
    if g.lease.Some? {
      ExtendAside(env, g.(tick := g.tick + 1, lease := None, reason := "lease-renewal"), g.lease.value, ttlMs,
                  "lease-renewal-failed", "active");
    }
  }

  lemma BeatAside(env: Env, s: Sup, id: nat, ttlMs: int)
    ensures Aside(s, RenewLease(env, s, id, ttlMs).state)
  {
    hide Guarded, Renew;
    GuardedAside(env, s);
    RenewAside(env, Guarded(env, s).state.gate, id, ttlMs);
  }

  lemma WatchAside(env: Env, s: Sup)
    ensures Aside(s, Watchdog(env, s).state)
  {
    hide Fail, Disarm, Stop, WatchExpiry;
    var read := Later(s, 2);
    FailAside(env, Later(s, 1), "emergency-stop-latched");
    StopAside(env, Fail(env, Later(s, 1), "emergency-stop-latched").state);
    DisarmAside(env, read, "operator-pause");
    ExpiryAside(env, read);
    ExpiryAside(env, Disarm(env, read, "operator-pause").state);
  }

  lemma ExpiryAside(env: Env, s: Sup)
    ensures Aside(s, WatchExpiry(env, s).state)
  {
    hide Fail, Revoke;
    RevokeAside(env, s.gate.(tick := s.gate.tick + 1), "watchdog-expired");
    FailAside(env, On(s, CheckExpiry(env, s.gate).outcome).state, "motor-lease-watchdog-expired");
  }

  lemma DeliveryAgrees<K>(b: Router.Bodies<K>, cfgs: map<K, RouterFacts.Policy.Config>, env: Env, id: nat,
                          d: Router.Desk<K>, s: Sup, call: Router.Call<K>, start: int)
    requires RouterFacts.DeskOk(b, cfgs, d) && Agree(d, s, start)
    ensures Router.Wired(b, cfgs, d.router)
    ensures var e := Router.Step(b, cfgs, d, call);
            var emitted := RouterFacts.Emitted(d, e);
            var o := Deliver(env, s, id, call, emitted);
            && (emitted.Some? ==> s.gate.lastSequence < emitted.value.sequence)
            && (o.error.None? ==> Agree(e, o.state, start) && (emitted.Some? ==> Live(o.state)))
  {
    hide ApplyMotorAction, ReleaseInputsCall, Press, Router.Step, RouterFacts.Inv, RouterFacts.Moves, Admissible,
         RouterFacts.Loses, RouterFacts.InStep;
    RouterFacts.DeskWired(b, cfgs, d);
    var e := Router.Step(b, cfgs, d, call);
    RouterFacts.StepKept(b, cfgs, d, call);
    var emitted := RouterFacts.Emitted(d, e);
    if call.ReleasedCall? {
      if ReleaseInputsCall(env, s, id).error.None? {
        ReleasedEffect(env, s, id);
      }
    } else if emitted.Some? {
      RouterFacts.Appends(d.emitted, emitted.value);
      if ApplyMotorAction(env, s, id, emitted.value).error.None? {
        AcceptedEffect(env, s, id, emitted.value);
      }
    }
  }

  lemma {:induction false} ServeAgrees<K>(
    b: Router.Bodies<K>, cfgs: map<K, RouterFacts.Policy.Config>, env: Env, id: nat, d: Router.Desk<K>, s: Sup,
    turns: seq<Turn<K>>, start: int)
    requires RouterFacts.DeskOk(b, cfgs, d) && Agree(d, s, start)
    ensures var n := Serve(b, cfgs, env, id, d, s, turns);
            && RouterFacts.DeskOk(b, cfgs, n.desk)
            && (n.accepted ==> Agree(n.desk, n.sup, start) && n.desk == RouterFacts.Run(b, cfgs, d, Calls(turns)))
    decreases |turns|
  {
    hide Deliver, RouterFacts.DeskOk, RouterFacts.Moves, RouterFacts.InStep, RouterFacts.Loses, RouterFacts.Follows,
         Router.Step, Router.World, RenewLease, Watchdog;
    if turns != [] {
      match turns[0]
      case Beats(named, ttlMs) =>
        BeatAside(env, s, named, ttlMs);
        ServeAgrees(b, cfgs, env, id, d, RenewLease(env, s, named, ttlMs).state, turns[1..], start);
      case Watches =>
        WatchAside(env, s);
        ServeAgrees(b, cfgs, env, id, d, Watchdog(env, s).state, turns[1..], start);
      case Delivers(call) =>
        RouterFacts.StepKept(b, cfgs, d, call);
        DeliveryAgrees(b, cfgs, env, id, d, s, call, start);
        var e := Router.Step(b, cfgs, d, call);
        var o := Deliver(env, s, id, call, RouterFacts.Emitted(d, e));
        if o.error.None? {
          ServeAgrees(b, cfgs, env, id, e, o.state, turns[1..], start);
          assert ([call] + Calls(turns[1..]))[1..] == Calls(turns[1..]);
        }
    }
  }

  /** A fresh lease starts from released inputs and an unused sequence. */
  lemma ArmedIsNeutral(env: Env, s: Sup, target: string)
    requires Arm(env, s, target).error.None?
    ensures var t := Arm(env, s, target).state;
            && t.phase.Armed? && t.gate.lease.Some? && t.gate.lastSequence == -1
            && t.gate.backend.held == RELEASED && t.pitch == s.pitch
  {
  }

  lemma ActivatedIsNeutral(env: Env, s: Sup)
    requires Activate(env, s).error.None? && Activate(env, s).state.phase.Running?
    ensures var t := Activate(env, s).state;
            && t.gate.lease == s.gate.lease && t.gate.lastSequence == s.gate.lastSequence
            && t.gate.backend.held == s.gate.backend.held && t.pitch == s.pitch
  {
    hide Guarded, Revoke;
    GuardedReads(env, s);
  }

  /** `running` is what arming and activating `s` leaves. */
  predicate BroughtUp(env: Env, s: Sup, target: string, running: Sup) {
    && Arm(env, s, target).error.None?
    && Activate(env, Arm(env, s, target).state) == Outcome(running, None)
    && running.phase.Running?
  }

  lemma BroughtUpNeutral(env: Env, s: Sup, target: string, running: Sup)
    requires BroughtUp(env, s, target, running)
    ensures && running.gate.lease.Some? && running.gate.lastSequence == -1
            && running.gate.backend.held == RELEASED && running.pitch == s.pitch
  {
    hide Arm, Activate;
    ArmedIsNeutral(env, s, target);
    ActivatedIsNeutral(env, Arm(env, s, target).state);
  }

  /** Whatever the lease and the time, the gate does not refuse `a` as replayed or out of order. */
  ghost predicate NeverReplays(s: Sup, a: Option<MotorAction>) {
    forall lease, t :: a.Some? ==>
      Refusal(lease, s.gate.lastSequence, t, a.value) != Some("replay-or-out-of-order-action")
  }

  /** The two halves of the system agree over every run: arm, activate, start a router at the ledger's pitch,
      and serve any router calls, with heartbeats and watchdog turns in between. As long as every delivery is
      accepted, the supervisor's camera ledger is the router's pitch estimate less what refused actions lost, the
      router's next action can never be refused as a replay, and, while the lease lives, the backend holds what
      the emitted actions show: exactly what the active body holds, when no call loses a hold. */
  lemma RouterAndSupervisorAgree<K>(
    b: Router.Bodies<K>, cfgs: map<K, RouterFacts.Policy.Config>, env: Env, s: Sup, target: string, running: Sup,
    id: nat, turns: seq<Turn<K>>, next: Router.Call<K>)
    requires (set k | k in Router.UniqueBodies(b)) <= cfgs.Keys && BroughtUp(env, s, target, running)
    ensures RouterFacts.DeskOk(b, cfgs, Router.Desk(Router.Start(b, s.pitch), RELEASED, []))
    ensures var start := Router.Desk(Router.Start(b, s.pitch), RELEASED, []);
            var n, calls := Serve(b, cfgs, env, id, start, running, turns), Calls(turns);
            n.accepted ==>
              && n.desk.router.active in n.desk.router.clients && Router.Wired(b, cfgs, n.desk.router)
              && (Live(n.sup) ==> n.sup.gate.backend.held == n.desk.keyboard)
              && (Live(n.sup) && RouterFacts.Lossless(b, cfgs, start, calls) ==>
                    n.sup.gate.backend.held == n.desk.router.clients[n.desk.router.active].held)
              && (RouterFacts.Tracked(b, cfgs) ==>
                    n.sup.pitch == n.desk.router.pitch - RouterFacts.LostYs(b, cfgs, start, calls))
              && NeverReplays(n.sup, RouterFacts.Emitted(n.desk, Router.Step(b, cfgs, n.desk, next)))
  {
    hide Serve, BroughtUp, RouterFacts.DeskOk, Router.Step, RouterFacts.Run, RouterFacts.LostYs, RouterFacts.Lossless,
         RouterFacts.Tracked, RouterFacts.AlwaysInStep, Calls, RouterFacts.TotalX, Deliver;
    BroughtUpNeutral(env, s, target, running);
    RouterFacts.StartOk(b, cfgs, s.pitch);
    var start := Router.Desk(Router.Start(b, s.pitch), RELEASED, []);
    ServeAgrees(b, cfgs, env, id, start, running, turns, s.pitch);
    RouterFacts.RunKept(b, cfgs, start, Calls(turns), 0);
    var n := Serve(b, cfgs, env, id, start, running, turns);
    RouterFacts.DeskWired(b, cfgs, n.desk);
    if n.accepted {
      DeliveryAgrees(b, cfgs, env, id, n.desk, n.sup, next, s.pitch);
    }
  }
}
