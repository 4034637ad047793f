/** Which option is bound, which body acts for it, and what each call does to the other bodies. */
module RouterOptions {
  import opened Common
  import opened Motor
  import Policy = PolicyModel
  import PolicyFacts
  import opened RouterModel
  import opened RouterFacts

  /** The body an option of this level asks for, given the bodies there are. */
  predicate Serves<K(==)>(b: Bodies<K>, level: Level, k: K) {
    if level.GuiLevel? && b.gui.Some? then Some(k) == b.gui
    else if (level.RawLevel? || level.MotionLevel?) && b.rawMotion.Some? then Some(k) == b.rawMotion
    else k == b.primary
  }

  /** While an option is bound, the active body is the one its level asks for. */
  predicate WellBound<K(==)>(b: Bodies<K>, r: Router<K>) {
    r.episode.Some? ==> Serves(b, r.episode.value.level, r.active)
  }

  /** The bodies are visited primary first, then the one for raw motion, then the one for the gui. */
  lemma BodiesInOrder<K>(b: Bodies<K>)
    ensures var ks := UniqueBodies(b);
            && (forall i, j :: 0 <= i < |ks| && 0 <= j < |ks| && ks[i] == ks[j] ==> i == j)
            && Distinct(ks) && (forall k :: k in ks <==> k == b.primary || Some(k) == b.rawMotion || Some(k) == b.gui)
            && ks[0] == b.primary
            && (b.gui.Some? && b.gui.value != b.primary && b.gui != b.rawMotion ==> ks[|ks| - 1] == b.gui.value)
  {
  }

  // --- Acting -------------------------------------------------------------------------------------------

  /** The option that is bound goes on: its body acts, and no other body is touched. */
  lemma ActGoesOn<K>(b: Bodies<K>, cfgs: map<K, Policy.Config>, r: Router<K>, q: Routing<K>)
    requires Wired(b, cfgs, r) && r.episode.Some? && r.episode.value.id == q.episode.id
    ensures var n := if q.sequence > r.lastSequence then q.sequence else r.lastSequence + 1;
            var s := Policy.Act(cfgs[r.active], r.clients[r.active], r.pitch, n, q.tick);
            Act(b, cfgs, r, q) == Routed(Router(r.clients[r.active := s.client], s.pitch, r.active, n, r.episode),
                                         if q.observer.RaisesAfterActing? then None else s.action)
  {
    hide Policy.Act;
  }

  /** The first option of a router without one is bound to the active body, if that is the one it asks for. */
  lemma ActBinds<K>(b: Bodies<K>, cfgs: map<K, Policy.Config>, r: Router<K>, q: Routing<K>)
    requires Wired(b, cfgs, r) && r.episode.None? && q.warmth.Ready? && Serves(b, q.episode.level, r.active)
    ensures var n := if q.sequence > r.lastSequence then q.sequence else r.lastSequence + 1;
            var s := Policy.Act(cfgs[r.active], r.clients[r.active], r.pitch, n, q.tick);
            Act(b, cfgs, r, q)
            == if q.observer.RaisesInBinding? then Routed(r.(lastSequence := n), None)
               else Routed(Router(r.clients[r.active := s.client], s.pitch, r.active, n, Some(q.episode)),
                           if q.observer.RaisesAfterActing? then None else s.action)
  {
    hide Policy.Act;
  }

  /** Any other option takes over: the active body is reset without using a sequence number, and the body that the
      option asks for, which may be the same one, acts and lets go for it. */
  lemma ActTakesOver<K>(b: Bodies<K>, cfgs: map<K, Policy.Config>, r: Router<K>, q: Routing<K>, k: K)
    requires Wired(b, cfgs, r) && q.warmth.Ready? && Serves(b, q.episode.level, k)
    requires if r.episode.Some? then r.episode.value.id != q.episode.id else r.active != k
    ensures k in r.clients && k in cfgs
    ensures var n := if q.sequence > r.lastSequence then q.sequence else r.lastSequence + 1;
            var write := if r.active in q.writes then q.writes[r.active] else Policy.Written;
            var gone := Policy.Reset(r.clients[r.active], r.pitch, false, write);
            var left := r.clients[r.active := gone.client];
            var s := Policy.Act(cfgs[k], left[k], r.pitch, n, q.tick);
            Act(b, cfgs, r, q)
            == if gone.action.None? || q.observer.RaisesInBinding? then
                 Routed(Router(left, r.pitch, r.active, n, r.episode), None)
               else
                 Routed(Router(left[k := s.client], s.pitch, k, n, Some(q.episode)),
                        if q.observer.RaisesAfterActing? then None else Folded(s.action, gone.action.value))
  {
    hide Policy.Act, Policy.Reset, Perform, Folded, UniqueBodies;
    BodiesInOrder(b);
    var n := if q.sequence > r.lastSequence then q.sequence else r.lastSequence + 1;
    var gone := Policy.Reset(r.clients[r.active], r.pitch, false, WriteTo(q.writes, r.active));
    PerformTold(cfgs, Router(r.clients[r.active := gone.client], r.pitch, k, n, Some(q.episode)), gone.action, q.tick,
                q.observer);
  }

  /** The active body acts, and no other; a release goes out with its action. */
  lemma PerformTold<K>(cfgs: map<K, Policy.Config>, r: Router<K>, release: Option<MotorAction>, tick: Policy.Tick,
                       observer: Observer)
    requires r.active in r.clients && r.active in cfgs
    ensures var s := Policy.Act(cfgs[r.active], r.clients[r.active], r.pitch, r.lastSequence, tick);
            Perform(cfgs, r, release, tick, observer)
            == Routed(Router(r.clients[r.active := s.client], s.pitch, r.active, r.lastSequence, r.episode),
                      if observer.RaisesAfterActing? then None
                      else if release.None? then s.action else Folded(s.action, release.value))
  {
    hide Policy.Act, Admissible;
  }

  /** An action that also lets go of what a release lets go of, if one action can carry that. */
  function Folded(action: Option<MotorAction>, release: MotorAction): Option<MotorAction> {
    if action.None? then None
    else
      var a := action.value;
      var folded := MotorAction(a.sequence, a.keysDown, a.keysUp + release.keysUp, a.buttonsDown,
                                a.buttonsUp + release.buttonsUp, a.dx, a.dy, a.cursor, a.world, a.durationMs);
      if Admissible(folded) then Some(folded) else None
  }

  /** An option whose body is not ready unbinds the one before it, and what the active body holds is let go of
      unless that body is the one that is loading. */
  lemma ActWaits<K>(b: Bodies<K>, cfgs: map<K, Policy.Config>, r: Router<K>, q: Routing<K>)
    requires Wired(b, cfgs, r) && !q.warmth.Ready?
    requires r.episode.Some? ==> r.episode.value.id != q.episode.id
    ensures var n := if q.sequence > r.lastSequence then q.sequence else r.lastSequence + 1;
            var write := if r.active in q.writes then q.writes[r.active] else Policy.Written;
            var gone := Policy.Reset(r.clients[r.active], r.pitch, true, write);
            Act(b, cfgs, r, q)
            == match q.warmth
               case WarmupRaises => Routed(r.(lastSequence := n), None)
               case Loading(true) =>
                 if q.observer.RaisesInBinding? then Routed(r.(lastSequence := n), None)
                 else Routed(Router(r.clients, r.pitch, r.active, n, None), Some(Neutral(n)))
               case Loading(false) =>
                 var left := r.clients[r.active := gone.client];
                 var out := if gone.action.None? then None else Folded(Some(Neutral(n)), gone.action.value);
                 if out.None? || q.observer.RaisesInBinding? then
                   Routed(Router(left, r.pitch, r.active, n, r.episode), None)
                 else Routed(Router(left, r.pitch, r.active, n, None), out)
  {
    hide Policy.Reset, Admissible;
  }

  // --- Resetting ----------------------------------------------------------------------------------------

  /** One body after a reset of all: reset, if it is among those that the reset reaches. */
  predicate WasReset<K(==)>(r: Router<K>, writes: map<K, Policy.ResetWrite>, k: K, after: Policy.Client)
    requires k in r.clients
  {
    var write := if k in writes then writes[k] else Policy.Written;
    after == Policy.Reset(r.clients[k], r.pitch, true, write).client
  }

  /** The first `n` bodies are reset and the others are as they were; all are when it returns. */
  ghost predicate Reaches<K>(r: Router<K>, ks: seq<K>, writes: map<K, Policy.ResetWrite>, n: nat, out: Routed<K>)
    requires forall k :: k in ks ==> k in r.clients
  {
    && n <= |ks| && (out.action.Some? ==> n == |ks|)
    && (forall k :: k in ks ==> k in out.router.clients)
    && (forall i :: 0 <= i < n ==> WasReset(r, writes, ks[i], out.router.clients[ks[i]]))
    && (forall i :: n <= i < |ks| ==> out.router.clients[ks[i]] == r.clients[ks[i]])
  }

  lemma ReachesNext<K>(r: Router<K>, ks: seq<K>, writes: map<K, Policy.ResetWrite>, left: Router<K>, n: nat,
                       out: Routed<K>)
    requires Distinct(ks) && ks != [] && forall k :: k in ks ==> k in r.clients
    requires left == r.(clients := left.clients) && ks[0] in left.clients
    requires left.clients == r.clients[ks[0] := left.clients[ks[0]]]
    requires WasReset(r, writes, ks[0], left.clients[ks[0]])
    requires ks[0] in out.router.clients && out.router.clients[ks[0]] == left.clients[ks[0]]
    requires Reaches(left, ks[1..], writes, n, out)
    ensures Reaches(r, ks, writes, n + 1, out)
  {
    assert forall i :: 0 < i < |ks| ==> ks[1..][i - 1] == ks[i];
  }

  /** A reset reaches the bodies in order up to the first that raises; it touches no other, and each in its own way. */
  lemma {:induction false} ResetReaches<K>(r: Router<K>, ks: seq<K>, writes: map<K, Policy.ResetWrite>,
                                           release: MotorAction)
    requires Distinct(ks) && forall k :: k in ks ==> k in r.clients
    ensures var out := ResetBodies(r, ks, writes, release);
            && out.router == r.(clients := out.router.clients) && out.router.clients.Keys == r.clients.Keys
            && (forall k :: k in r.clients && k !in ks ==> out.router.clients[k] == r.clients[k])
            && exists n: nat :: Reaches(r, ks, writes, n, out)
    decreases |ks|
  {
    hide Policy.Reset, Admissible;
    var out := ResetBodies(r, ks, writes, release);
    if ks == [] {
      assert Reaches(r, ks, writes, 0, out);
    } else {
      var rest := ks[1..];
      assert ks == [ks[0]] + rest && ks[0] !in rest;
      var s := Policy.Reset(r.clients[ks[0]], r.pitch, true, WriteTo(writes, ks[0]));
      var left := r.(clients := r.clients[ks[0] := s.client]);
      var merged := if s.action.None? then None else Constructed(Merge(release, s.action.value));
      if merged.None? {
        assert Reaches(r, ks, writes, 1, out);
      } else {
        ResetReaches(left, rest, writes, merged.value);
        var n: nat :| Reaches(left, rest, writes, n, out);
        ReachesNext(r, ks, writes, left, n, out);
      }
    }
  }

  // --- The bound option, over every run -----------------------------------------------------------------

  /** A reset that returns leaves no option bound and the primary body active; a release for observation leaves
      both alone, and so does a reset of either kind that raises. */
  lemma ResetUnbinds<K>(b: Bodies<K>, cfgs: map<K, Policy.Config>, r: Router<K>, how: Resetting<K>)
    requires Wired(b, cfgs, r)
    ensures var out := Reset(b, cfgs, r, how);
            && out.router.episode == (if out.action.Some? then None else r.episode)
            && out.router.active == (if out.action.Some? then b.primary else r.active)
            && out.router.lastSequence == (if out.action.Some? then r.lastSequence + 1 else r.lastSequence)
            && ReleaseForObservation(b, cfgs, r, false, how) == out
    ensures var out := ReleaseForObservation(b, cfgs, r, true, how);
            && out.router.episode == r.episode && out.router.active == r.active
            && out.router.lastSequence == (if out.action.Some? then r.lastSequence + 1 else r.lastSequence)
  {
    hide ResetBodies;
    BodiesInOrder(b);
    ResetReaches(r, UniqueBodies(b), how.writes, Neutral(r.lastSequence + 1));
  }

  lemma ActBound<K>(b: Bodies<K>, cfgs: map<K, Policy.Config>, r: Router<K>, q: Routing<K>)
    requires Wired(b, cfgs, r) && WellBound(b, r)
    ensures WellBound(b, Act(b, cfgs, r, q).router)
  {
    hide Policy.Act, Policy.Reset, Admissible;
  }

  /** Every call leaves the bound option with its body. */
  lemma StepBound<K>(b: Bodies<K>, cfgs: map<K, Policy.Config>, d: Desk<K>, call: Call<K>)
    requires Wired(b, cfgs, d.router) && WellBound(b, d.router)
    ensures WellBound(b, Step(b, cfgs, d, call).router)
  {
    hide Act, Reset, ReleaseForObservation, Press;
    match call
    case ActCall(q) => ActBound(b, cfgs, d.router, q);
    case ResetCall(how) => ResetUnbinds(b, cfgs, d.router, how);
    case ObserveCall(_, how) => ResetUnbinds(b, cfgs, d.router, how);
    case ReleasedCall =>
  }

  lemma {:induction false} RunBound<K>(b: Bodies<K>, cfgs: map<K, Policy.Config>, d: Desk<K>, calls: seq<Call<K>>)
    requires DeskOk(b, cfgs, d) && WellBound(b, d.router)
    ensures WellBound(b, Run(b, cfgs, d, calls).router)
    decreases |calls|
  {
    hide DeskOk, Step, WellBound;
    if calls != [] {
      DeskWired(b, cfgs, d);
      StepKept(b, cfgs, d, calls[0]);
      StepBound(b, cfgs, d, calls[0]);
      RunBound(b, cfgs, Step(b, cfgs, d, calls[0]), calls[1..]);
    }
  }

  /** Over every run of a new router: while an option is bound, the active body is the gui body for an option at
      gui level if there is one, the raw motion body at raw or motion level if there is one, and otherwise the
      primary. */
  lemma BoundBodyServes<K>(b: Bodies<K>, cfgs: map<K, Policy.Config>, pitch: int, calls: seq<Call<K>>)
    requires (set k | k in UniqueBodies(b)) <= cfgs.Keys
    ensures var d := Desk(Start(b, pitch), RELEASED, []);
            && DeskOk(b, cfgs, d)
            && var r := Run(b, cfgs, d, calls).router;
               r.episode.Some? ==>
                 match r.episode.value.level
                 case GuiLevel => r.active == if b.gui.Some? then b.gui.value else b.primary
                 case RawLevel | MotionLevel =>
                   r.active == if b.rawMotion.Some? then b.rawMotion.value else b.primary
                 case LatentLevel | SkillLevel | GroundedLevel => r.active == b.primary
  {
    hide DeskOk;
    StartOk(b, cfgs, pitch);
    RunBound(b, cfgs, Desk(Start(b, pitch), RELEASED, []), calls);
  }

  /** After a reset that returns, the next act whose body is ready binds its option again, whichever was bound
      before, and the body that the option asks for acts: unless the observer is in the way, or the reset of the
      primary body, which goes first if another is asked for, raises. */
  lemma ResetThenActBinds<K>(b: Bodies<K>, cfgs: map<K, Policy.Config>, r: Router<K>, how: Resetting<K>, q: Routing<K>,
                             k: K)
    requires Wired(b, cfgs, r) && q.warmth.Ready? && !q.observer.RaisesInBinding?
    requires Reset(b, cfgs, r, how).action.Some? && Serves(b, q.episode.level, k)
    ensures var r1 := Reset(b, cfgs, r, how).router;
            && Wired(b, cfgs, r1)
            && var gone := Policy.Reset(r1.clients[b.primary], r1.pitch, false, WriteTo(q.writes, b.primary));
               var r2 := Act(b, cfgs, r1, q).router;
               if k == b.primary || gone.action.Some? then r2.episode == Some(q.episode) && r2.active == k
               else r2.episode == None && r2.active == b.primary
  {
    hide Policy.Act, Policy.Reset, ResetBodies, Reset, Act;
    ResetUnbinds(b, cfgs, r, how);
    ResetWired(b, cfgs, r, how);
    var r1 := Reset(b, cfgs, r, how).router;
    if k == b.primary {
      ActBinds(b, cfgs, r1, q);
    } else {
      ActTakesOver(b, cfgs, r1, q, k);
    }
  }

  lemma ResetWired<K>(b: Bodies<K>, cfgs: map<K, Policy.Config>, r: Router<K>, how: Resetting<K>)
    requires Wired(b, cfgs, r)
    ensures Wired(b, cfgs, Reset(b, cfgs, r, how).router)
  {
    hide ResetBodies;
    BodiesInOrder(b);
    ResetReaches(r, UniqueBodies(b), how.writes, Neutral(r.lastSequence + 1));
  }
}
