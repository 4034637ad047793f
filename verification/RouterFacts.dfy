/** The router refines one keyboard and one camera, over every run of its calls. */
module RouterFacts {
  import opened Common
  import opened Motor
  import Policy = PolicyModel
  import PolicyFacts
  import opened RouterModel

  /** Bodies are sound, and only the active one may hold anything or own a live request. */
  ghost predicate BodyOk<K>(cfg: Policy.Config, r: Router<K>, k: K)
    requires k in r.clients
  {
    PolicyFacts.Sound(cfg, r.clients[k]) && (k != r.active ==> PolicyFacts.Quiet(r.clients[k]))
  }

  ghost predicate Inv<K>(b: Bodies<K>, cfgs: map<K, Policy.Config>, r: Router<K>) {
    && Wired(b, cfgs, r)
    && (forall k :: k in r.clients ==> BodyOk(cfgs[k], r, k))
    && -1 <= r.lastSequence
    && (r.episode.Some? ==> 0 <= r.lastSequence)
  }

  /** A keyboard shows exactly what the active body holds. */
  ghost predicate Shows<K>(r: Router<K>, kb: Keyboard)
    requires r.active in r.clients
  {
    kb == r.clients[r.active].held
  }

  function After(kb: Keyboard, action: Option<MotorAction>): Keyboard {
    if action.Some? then Press(kb, action.value) else kb
  }

  /** What every returned action is. */
  ghost predicate Proper(action: Option<MotorAction>, sequence: int) {
    action.Some? ==>
      && Admissible(action.value) && action.value.sequence == sequence
      && action.value.keysDown !! action.value.keysUp && action.value.buttonsDown !! action.value.buttonsUp
  }

  /** No body's sequence number is ahead of the router's. */
  ghost predicate Level<K>(r: Router<K>) {
    forall k :: k in r.clients ==> r.clients[k].lastSequence <= r.lastSequence
  }

  // --- What can be known before a call ---------------------------------------------------------------

  /** The sequence number an act will use. */
  function Next<K>(r: Router<K>, q: Routing<K>): int {
    if q.sequence <= r.lastSequence then r.lastSequence + 1 else q.sequence
  }

  /** The active body goes on without a reset. */
  predicate Alone<K(==)>(b: Bodies<K>, r: Router<K>, q: Routing<K>) {
    if r.episode.Some? then r.episode.value.id == q.episode.id
    else q.warmth.Ready? && BodyForLevel(b, q.episode.level) == r.active
  }

  /** A body has already used this sequence number: a reset that raised advanced it, but not the router. */
  predicate Stale<K>(r: Router<K>, k: K, sequence: int)
    requires k in r.clients
  {
    sequence <= r.clients[k].lastSequence
  }

  function Acting<K>(r: Router<K>, sequence: int): Policy.Client
    requires r.active in r.clients
  {
    PolicyFacts.Facing(r.clients[r.active], sequence)
  }

  /** What the active body holds can be released: it fits, and the reset command does not raise. */
  predicate Releasable<K>(r: Router<K>, writes: map<K, Policy.ResetWrite>)
    requires r.active in r.clients
  {
    Fits(r.clients[r.active].held) && !WriteTo(writes, r.active).Escapes?
  }

  /** A body acting on alone gets to act: no observer is in the way, and the sequence number is new to it. */
  predicate Acts<K>(r: Router<K>, q: Routing<K>)
    requires r.active in r.clients
  {
    !(r.episode.None? && q.observer.RaisesInBinding?) && !Stale(r, r.active, Next(r, q))
  }

  /** The guards under which an act raises: a warm-up or the observer does, what must be let go of cannot be, or
      the body it needs has already used the sequence number. */
  predicate Raises<K(==)>(b: Bodies<K>, cfgs: map<K, Policy.Config>, r: Router<K>, q: Routing<K>)
    requires Wired(b, cfgs, r)
  {
    var n, kb := Next(r, q), r.clients[r.active].held;
    if Alone(b, r, q) then
      || !Acts(r, q) || q.observer.RaisesAfterActing?
      || (PolicyFacts.LetsGo(cfgs[r.active], Acting(r, n), r.pitch, q.tick) && !Fits(kb))
    else match q.warmth
      case WarmupRaises => true
      case Loading(activeBusy) => q.observer.RaisesInBinding? || (!activeBusy && !Releasable(r, q.writes))
      case Ready =>
        !q.observer.Fine? || !Releasable(r, q.writes) || Stale(r, BodyForLevel(b, q.episode.level), n)
  }

  /** The bodies whose sequence a reset of `ks` advances: all before one whose write raises, and no more after
      the active one if what it holds does not fit. */
  function Advanced<K(==)>(active: K, held: Keyboard, ks: seq<K>, writes: map<K, Policy.ResetWrite>): seq<K> {
    if ks == [] || WriteTo(writes, ks[0]).Escapes? then []
    else if ks[0] == active && !Fits(held) then [active]
    else [ks[0]] + Advanced(active, held, ks[1..], writes)
  }

  /** A reset of `ks` gets through all of them. */
  predicate Returns<K(==)>(active: K, held: Keyboard, ks: seq<K>, writes: map<K, Policy.ResetWrite>) {
    forall k :: k in ks ==> !WriteTo(writes, k).Escapes? && (k == active ==> Fits(held))
  }

  /** A reset of all bodies returns; `observed`: it also lets go of the observer. */
  predicate ResetReturns<K(==)>(b: Bodies<K>, r: Router<K>, how: Resetting<K>, observed: bool)
    requires r.active in r.clients
  {
    Returns(r.active, r.clients[r.active].held, UniqueBodies(b), how.writes) && !(observed && how.observerRaises)
  }

  /** It has let go of what the active body held, and then raises. */
  predicate ResetLoses<K(==)>(b: Bodies<K>, r: Router<K>, how: Resetting<K>, observed: bool)
    requires r.active in r.clients
  {
    var kb := r.clients[r.active].held;
    && kb != RELEASED && Fits(kb) && r.active in Advanced(r.active, kb, UniqueBodies(b), how.writes)
    && !ResetReturns(b, r, how, observed)
  }

  /** The guards under which a call lets the keyboard and the active body drift apart: a hold ends that does
      not fit in one release; or something raises after the active body has let go, or has changed what it
      holds: the observer, the reset of a later body, or the act of a body that takes over with a sequence
      number it has already used. */
  predicate Loses<K(==)>(b: Bodies<K>, cfgs: map<K, Policy.Config>, r: Router<K>, call: Call<K>)
    requires Wired(b, cfgs, r)
  {
    match call
    case ReleasedCall => false
    case ResetCall(how) => ResetLoses(b, r, how, true)
    case ObserveCall(observing, how) => ResetLoses(b, r, how, !observing)
    case ActCall(q) =>
      var n, kb := Next(r, q), r.clients[r.active].held;
      if Alone(b, r, q) then
        && Acts(r, q)
        && if q.observer.RaisesAfterActing?
           then PolicyFacts.Holds(cfgs[r.active], Acting(r, n), r.pitch, q.tick) != kb
           else PolicyFacts.Forgets(cfgs[r.active], Acting(r, n), q.tick)
      else
        && kb != RELEASED && Releasable(r, q.writes)
        && match q.warmth
           case WarmupRaises => false
           case Loading(activeBusy) => !activeBusy && q.observer.RaisesInBinding?
           case Ready => !q.observer.Fine? || Stale(r, BodyForLevel(b, q.episode.level), n)
  }

  /** What the active body returns when it acts on alone. */
  function Returned<K>(cfgs: map<K, Policy.Config>, r: Router<K>, q: Routing<K>): Option<MotorAction>
    requires r.active in r.clients && r.active in cfgs
  {
    Policy.Act(cfgs[r.active], r.clients[r.active], r.pitch, Next(r, q), q.tick).action
  }

  /** Motion that a call counts as emitted although its action was refused, or discarded by the observer. */
  function LostX<K(==)>(b: Bodies<K>, cfgs: map<K, Policy.Config>, r: Router<K>, call: Call<K>): int
    requires Wired(b, cfgs, r)
  {
    if call.ActCall? && Alone(b, r, call.routing) && Acts(r, call.routing) then
      PolicyFacts.LostX(cfgs[r.active], Acting(r, Next(r, call.routing)), r.pitch, call.routing.tick)
      + if call.routing.observer.RaisesAfterActing? then Dx(Returned(cfgs, r, call.routing)) else 0
    else 0
  }

  function LostY<K(==)>(b: Bodies<K>, cfgs: map<K, Policy.Config>, r: Router<K>, call: Call<K>): int
    requires Wired(b, cfgs, r)
  {
    if call.ActCall? && Alone(b, r, call.routing) && Acts(r, call.routing) then
      PolicyFacts.LostY(cfgs[r.active], Acting(r, Next(r, call.routing)), r.pitch, call.routing.tick)
      + if call.routing.observer.RaisesAfterActing? then Dy(Returned(cfgs, r, call.routing)) else 0
    else 0
  }

  // --- Counting over the bodies -----------------------------------------------------------------------

  /** Horizontal motion that the bodies `ks` count as emitted. */
  function TotalX<K>(clients: map<K, Policy.Client>, ks: seq<K>): int
    requires forall k :: k in ks ==> k in clients
    decreases |ks|
  {
    if ks == [] then 0 else clients[ks[0]].ledger.emittedX + TotalX(clients, ks[1..])
  }

  lemma {:induction false} TotalUpdate<K>(clients: map<K, Policy.Client>, ks: seq<K>, k: K, c: Policy.Client)
    requires Distinct(ks) && k in clients && forall j :: j in ks ==> j in clients
    ensures TotalX(clients[k := c], ks)
            == TotalX(clients, ks) + if k in ks then c.ledger.emittedX - clients[k].ledger.emittedX else 0
    decreases |ks|
  {
    if ks != [] {
      assert ks == [ks[0]] + ks[1..] && ks[0] !in ks[1..];
      TotalUpdate(clients, ks[1..], k, c);
    }
  }

  lemma {:induction false} TotalSame<K>(clients: map<K, Policy.Client>, clients': map<K, Policy.Client>, ks: seq<K>)
    requires forall k :: k in ks ==>
               k in clients && k in clients' && clients[k].ledger.emittedX == clients'[k].ledger.emittedX
    ensures TotalX(clients, ks) == TotalX(clients', ks)
    decreases |ks|
  {
    if ks != [] {
      TotalSame(clients, clients', ks[1..]);
    }
  }

  /** The camera ledgers move by what an action emits and what a refused one lost. */
  ghost predicate Moves<K>(b: Bodies<K>, cfgs: map<K, Policy.Config>, r: Router<K>, out: Routed<K>, x: int, y: int)
    requires Wired(b, cfgs, r) && Wired(b, cfgs, out.router)
  {
    var ks := UniqueBodies(b);
    && TotalX(out.router.clients, ks) - TotalX(r.clients, ks) == Dx(out.action) + x
    && (Tracked(b, cfgs) ==> out.router.pitch - r.pitch == Dy(out.action) + y)
    && OneSlice(b, cfgs, r.pitch, out.router.pitch)
  }

  function Dx(action: Option<MotorAction>): int { if action.Some? then action.value.dx else 0 }

  function Dy(action: Option<MotorAction>): int { if action.Some? then WorldPitch(action.value) else 0 }

  /** Every body tracks pitch. */
  ghost predicate Tracked<K>(b: Bodies<K>, cfgs: map<K, Policy.Config>) {
    forall k :: k in UniqueBodies(b) && k in cfgs ==> 0 < cfgs[k].pitchLimit
  }

  ghost predicate OneSlice<K>(b: Bodies<K>, cfgs: map<K, Policy.Config>, before: int, after: int) {
    after == before
    || exists k :: k in UniqueBodies(b) && k in cfgs && PolicyFacts.OneSlice(cfgs[k], before, after)
  }

  // --- Acting -----------------------------------------------------------------------------------------

  /** The state between binding and acting. */
  ghost predicate Poised<K>(b: Bodies<K>, cfgs: map<K, Policy.Config>, r: Router<K>) {
    Inv(b, cfgs, r) && 0 <= r.lastSequence
  }

  /** What acting with nothing to fold in does. */
  ghost predicate ActsAlone<K>(
    b: Bodies<K>, cfgs: map<K, Policy.Config>, r: Router<K>, tick: Policy.Tick, observer: Observer, out: Routed<K>)
    requires Wired(b, cfgs, r)
  {
    var n, kb := r.lastSequence, r.clients[r.active].held;
    var cfg, c, stale := cfgs[r.active], Acting(r, n), Stale(r, r.active, n);
    var discards := observer.RaisesAfterActing?;
    var returned := Policy.Act(cfg, r.clients[r.active], r.pitch, n, tick).action;
    && Inv(b, cfgs, out.router) && out.router.lastSequence == n && Proper(out.action, n)
    && (out.action.None? <==> stale || discards || (PolicyFacts.LetsGo(cfg, c, r.pitch, tick) && !Fits(kb)))
    && (Shows(out.router, After(kb, out.action)) <==>
          stale || if discards then PolicyFacts.Holds(cfg, c, r.pitch, tick) == kb
                   else !PolicyFacts.Forgets(cfg, c, tick))
    && Moves(b, cfgs, r, out,
             if stale then 0 else PolicyFacts.LostX(cfg, c, r.pitch, tick) + if discards then Dx(returned) else 0,
             if stale then 0 else PolicyFacts.LostY(cfg, c, r.pitch, tick) + if discards then Dy(returned) else 0)
  }

  lemma PerformAlone<K>(
    b: Bodies<K>, cfgs: map<K, Policy.Config>, r: Router<K>, tick: Policy.Tick, observer: Observer)
    requires Poised(b, cfgs, r)
    ensures ActsAlone(b, cfgs, r, tick, observer, Perform(cfgs, r, None, tick, observer))
  {
    hide Policy.Act, Admissible, PolicyFacts.Sound, Fits, PolicyFacts.LetsGo, PolicyFacts.Forgets, PolicyFacts.LostX,
         PolicyFacts.LostY, Press, PolicyFacts.OneSlice, PolicyFacts.Quiet, UniqueBodies, PolicyFacts.Holds;
    var c, cfg := r.clients[r.active], cfgs[r.active];
    var s := Policy.Act(cfg, c, r.pitch, r.lastSequence, tick);
    UniqueBodiesDistinct(b);
    TotalUpdate(r.clients, UniqueBodies(b), r.active, s.client);
    PolicyFacts.ActMovesOneSlice(cfg, c, r.pitch, r.lastSequence, tick);
    if c.lastSequence < r.lastSequence {
      PolicyFacts.ActOutcome(cfg, c, r.pitch, r.lastSequence, tick);
      PolicyFacts.ActHolds(cfg, c, r.pitch, r.lastSequence, tick);
    } else {
      StaleAct(cfg, c, r.pitch, r.lastSequence, tick);
    }
  }

  lemma StaleAct(cfg: Policy.Config, c: Policy.Client, pitch: int, sequence: int, tick: Policy.Tick)
    requires sequence <= c.lastSequence
    ensures Policy.Act(cfg, c, pitch, sequence, tick) == Policy.Step(c, pitch, None)
  {
  }

  /** A release is exactly what takes `kb` to nothing held. */
  ghost predicate Releases(release: MotorAction, kb: Keyboard) {
    release.keysUp == kb.keys && release.buttonsUp == kb.buttons
  }

  lemma MergeReleases(a: MotorAction, release: MotorAction, kb: Keyboard)
    requires Admissible(a) && a.keysDown == a.keysUp == a.buttonsDown == a.buttonsUp == {}
    requires Releases(release, kb) && Fits(kb)
    ensures Merge(a, release) == a.(keysUp := kb.keys, buttonsUp := kb.buttons)
    ensures Admissible(Merge(a, release)) && Press(kb, Merge(a, release)) == RELEASED
  {
    assert a.keysUp + release.keysUp == kb.keys && a.buttonsUp + release.buttonsUp == kb.buttons;
  }

  /** With a release folded in, the action presses nothing, so no press of its own is cancelled; it is lost
      exactly when the body that takes over has already used the sequence number, or the observer raises. */
  lemma PerformAfterRelease<K>(
    b: Bodies<K>, cfgs: map<K, Policy.Config>, r: Router<K>, release: MotorAction, kb: Keyboard, tick: Policy.Tick,
    observer: Observer)
    requires Poised(b, cfgs, r) && PolicyFacts.Quiet(r.clients[r.active]) && Releases(release, kb) && Fits(kb)
    ensures var out := Perform(cfgs, r, Some(release), tick, observer);
            && Inv(b, cfgs, out.router) && out.router.lastSequence == r.lastSequence
            && Proper(out.action, r.lastSequence)
            && (out.action.None? <==> Stale(r, r.active, r.lastSequence) || observer.RaisesAfterActing?)
            && (out.action.Some? ==> out.action.value.keysDown == {} && out.action.value.buttonsDown == {})
            && (Shows(out.router, After(kb, out.action)) <==> out.action.Some? || kb == RELEASED)
            && Moves(b, cfgs, r, out, 0, 0)
  {
    hide Policy.Act, PolicyFacts.Sound, PolicyFacts.LetsGo, PolicyFacts.Forgets, PolicyFacts.LostX,
         PolicyFacts.LostY, PolicyFacts.OneSlice, UniqueBodies, Merge, Admissible, Press, Fits;
    var c, cfg := r.clients[r.active], cfgs[r.active];
    var s := Policy.Act(cfg, c, r.pitch, r.lastSequence, tick);
    UniqueBodiesDistinct(b);
    TotalUpdate(r.clients, UniqueBodies(b), r.active, s.client);
    if c.lastSequence < r.lastSequence {
      PolicyFacts.ActOutcome(cfg, c, r.pitch, r.lastSequence, tick);
      PolicyFacts.ActQuiet(cfg, c, r.pitch, r.lastSequence, tick);
      MergeReleases(s.action.value, release, kb);
    } else {
      StaleAct(cfg, c, r.pitch, r.lastSequence, tick);
    }
  }

  /** Handing the keyboard over, to another body or to the same one under a new option. */
  lemma BindKept<K>(b: Bodies<K>, cfgs: map<K, Policy.Config>, r: Router<K>, q: Routing<K>)
    requires Poised(b, cfgs, r) && (r.episode.Some? ==> 0 < r.lastSequence)
    requires r.episode.Some? || BodyForLevel(b, q.episode.level) != r.active
    ensures BodyForLevel(b, q.episode.level) in r.clients
    ensures var out, kb := Bind(b, cfgs, r, q), r.clients[r.active].held;
            var fails := !q.observer.Fine? || Stale(r, BodyForLevel(b, q.episode.level), r.lastSequence);
            && Inv(b, cfgs, out.router) && out.router.lastSequence == r.lastSequence
            && Proper(out.action, r.lastSequence)
            && (out.action.None? <==> !Releasable(r, q.writes) || fails)
            && (Shows(out.router, After(kb, out.action)) <==>
                  !(fails && Releasable(r, q.writes) && kb != RELEASED))
            && Moves(b, cfgs, r, out, 0, 0)
  {
    hide Perform, Policy.Reset, Admissible, Fits, PolicyFacts.Sound, PolicyFacts.Quiet, Press, UniqueBodies,
         PolicyFacts.OneSlice, TotalX, WriteTo;
    var selected, kb := BodyForLevel(b, q.episode.level), r.clients[r.active].held;
    SelectedIsBody(b, q.episode.level);
    var bound, write := r.(active := selected, episode := Some(q.episode)), WriteTo(q.writes, r.active);
    PolicyFacts.RetiringQuiets(cfgs[r.active], r.clients[r.active], r.pitch, false, write);
    var s := Policy.Reset(r.clients[r.active], r.pitch, false, write);
    UniqueBodiesDistinct(b);
    TotalUpdate(r.clients, UniqueBodies(b), r.active, s.client);
    if s.action.Some? {
      QuietHoldsNothing(s.client);
      PerformAfterRelease(b, cfgs, bound.(clients := r.clients[r.active := s.client]), s.action.value, kb, q.tick,
                          q.observer);
    }
  }

  lemma SelectedIsBody<K>(b: Bodies<K>, level: Level)
    ensures BodyForLevel(b, level) in UniqueBodies(b)
  {
  }

  lemma QuietHoldsNothing(c: Policy.Client)
    requires PolicyFacts.Quiet(c)
    ensures c.held == RELEASED
  {
  }

  /** Refusing an option whose body is not ready. */
  lemma RefuseKept<K>(b: Bodies<K>, cfgs: map<K, Policy.Config>, r: Router<K>, activeBusy: bool,
                      writes: map<K, Policy.ResetWrite>, observer: Observer)
    requires Poised(b, cfgs, r)
    ensures var out, kb := Refuse(r, activeBusy, writes, observer), r.clients[r.active].held;
            && Inv(b, cfgs, out.router) && out.router.lastSequence == r.lastSequence
            && Proper(out.action, r.lastSequence)
            && (out.action.None? <==> observer.RaisesInBinding? || (!activeBusy && !Releasable(r, writes)))
            && (Shows(out.router, After(kb, out.action)) <==>
                  !(!activeBusy && observer.RaisesInBinding? && Releasable(r, writes) && kb != RELEASED))
            && Moves(b, cfgs, r, out, 0, 0)
  {
    hide Policy.Reset, PolicyFacts.Sound, PolicyFacts.Quiet, Merge, Admissible, Press, Fits, UniqueBodies;
    var kb, write := r.clients[r.active].held, WriteTo(writes, r.active);
    PolicyFacts.RetiringQuiets(cfgs[r.active], r.clients[r.active], r.pitch, true, write);
    var s := Policy.Reset(r.clients[r.active], r.pitch, true, write);
    UniqueBodiesDistinct(b);
    TotalUpdate(r.clients, UniqueBodies(b), r.active, s.client);
    NeutralIsProper(r.lastSequence, kb);
    if s.action.Some? {
      QuietHoldsNothing(s.client);
      MergeReleases(Neutral(r.lastSequence), s.action.value, kb);
    }
  }

  lemma NeutralIsProper(sequence: nat, kb: Keyboard)
    ensures Admissible(Neutral(sequence)) && Press(kb, Neutral(sequence)) == kb
  {
  }

  /** Every act, for any routing: it raises exactly under its guards, every action it returns is proper and
      carries a larger sequence, it keeps the keyboard in step exactly when it does not lose a hold, and it
      moves both camera ledgers by what it emits and what it lost. */
  lemma ActKept<K>(b: Bodies<K>, cfgs: map<K, Policy.Config>, r: Router<K>, q: Routing<K>)
    requires Inv(b, cfgs, r)
    ensures var out, kb := Act(b, cfgs, r, q), r.clients[r.active].held;
            && Inv(b, cfgs, out.router) && r.lastSequence < out.router.lastSequence
            && Proper(out.action, out.router.lastSequence)
            && (out.action.None? <==> Raises(b, cfgs, r, q))
            && (Shows(out.router, After(kb, out.action)) <==> !Loses(b, cfgs, r, ActCall(q)))
            && Moves(b, cfgs, r, out, LostX(b, cfgs, r, ActCall(q)), LostY(b, cfgs, r, ActCall(q)))
  {
    hide Perform, Bind, Refuse, Admissible, Fits, PolicyFacts.Sound, PolicyFacts.Quiet, PolicyFacts.LetsGo,
         PolicyFacts.Forgets, PolicyFacts.LostX, PolicyFacts.LostY, UniqueBodies, PolicyFacts.OneSlice, Press,
         PolicyFacts.Holds, Policy.Act;
    var now := r.(lastSequence := Next(r, q));
    if r.episode.Some? && r.episode.value.id == q.episode.id {
      PerformAlone(b, cfgs, now, q.tick, q.observer);
    } else {
      match q.warmth
      case Loading(activeBusy) => RefuseKept(b, cfgs, now, activeBusy, q.writes, q.observer);
      case WarmupRaises =>
      case Ready =>
        SelectedIsBody(b, q.episode.level);
        if Alone(b, r, q) {
          BindsAlone(b, cfgs, now, q);
          PerformAlone(b, cfgs, now.(episode := Some(q.episode)), q.tick, q.observer);
        } else {
          BindKept(b, cfgs, now, q);
        }
    }
  }

  lemma BindsAlone<K>(b: Bodies<K>, cfgs: map<K, Policy.Config>, r: Router<K>, q: Routing<K>)
    requires Poised(b, cfgs, r) && r.episode.None? && BodyForLevel(b, q.episode.level) == r.active
    ensures Bind(b, cfgs, r, q)
            == if q.observer.RaisesInBinding? then Routed(r, None)
               else Perform(cfgs, r.(episode := Some(q.episode)), None, q.tick, q.observer)
  {
    hide Perform;
    assert r.(active := r.active, episode := Some(q.episode)) == r.(episode := Some(q.episode));
  }

  // --- Resetting every body ----------------------------------------------------------------------------

  /** What a release has gathered: nothing while the active body awaits its reset, all of `kb` after. */
  ghost predicate Gathered(awaiting: bool, kb: Keyboard, release: MotorAction) {
    && Admissible(release) && release.keysDown == {} && release.buttonsDown == {}
    && (if awaiting then release.keysUp == {} && release.buttonsUp == {} else Releases(release, kb))
  }

  /** A body about to be reset: sound, and holding only if it is the active one. */
  ghost predicate Waiting<K>(cfgs: map<K, Policy.Config>, r: Router<K>, k: K, kb: Keyboard)
    requires k in r.clients && k in cfgs
  {
    && PolicyFacts.Sound(cfgs[k], r.clients[k])
    && r.clients[k].held == (if k == r.active then kb else RELEASED)
  }

  /** A body after a reset of all bodies that may have raised: its sequence advanced or not, and what it held let
      go of if it advanced and that fits. */
  ghost predicate Treated(cfg: Policy.Config, before: Policy.Client, after: Policy.Client, advanced: bool) {
    && PolicyFacts.Sound(cfg, after) && (PolicyFacts.Quiet(before) ==> PolicyFacts.Quiet(after))
    && after.lastSequence == (if advanced then Max(0, before.lastSequence + 1) else before.lastSequence)
    && after.held == (if advanced then PolicyFacts.LetGo(before.held) else before.held)
    && (advanced && Fits(before.held) ==> PolicyFacts.Quiet(after))
    && after.ledger.emittedX == before.ledger.emittedX
  }

  /** Motion, sequence and duration of a release stay what they were while it gathers tokens. */
  ghost predicate SameShape(a: MotorAction, a': MotorAction) {
    a' == a.(keysUp := a'.keysUp, buttonsUp := a'.buttonsUp)
  }

  lemma ResetOne<K>(cfgs: map<K, Policy.Config>, r: Router<K>, k: K, awaiting: bool, write: Policy.ResetWrite,
                    release: MotorAction, kb: Keyboard)
    requires k in r.clients && k in cfgs && Waiting(cfgs, r, k, kb) && Gathered(awaiting, kb, release)
    requires k == r.active ==> awaiting
    ensures var s := Policy.Reset(r.clients[k], r.pitch, true, write);
            && (s.action.Some? <==> !write.Escapes? && (k == r.active ==> Fits(kb)))
            && Treated(cfgs[k], r.clients[k], s.client, !write.Escapes?)
            && (s.action.Some? ==>
                  && Admissible(Merge(release, s.action.value))
                  && Gathered(awaiting && k != r.active, kb, Merge(release, s.action.value))
                  && SameShape(release, Merge(release, s.action.value)))
  {
    hide Policy.Reset, PolicyFacts.Sound;
    PolicyFacts.RetiringQuiets(cfgs[k], r.clients[k], r.pitch, true, write);
    PolicyFacts.NothingFits();
    var s := Policy.Reset(r.clients[k], r.pitch, true, write);
    assert release.keysUp + {} == release.keysUp && release.buttonsUp + {} == release.buttonsUp;
    if s.action.Some? {
      assert Merge(release, s.action.value)
             == if k == r.active then release.(keysUp := kb.keys, buttonsUp := kb.buttons) else release;
    }
  }

  /** The first body's part in a reset. */
  lemma AdvancedFirst<K>(active: K, held: Keyboard, ks: seq<K>, writes: map<K, Policy.ResetWrite>)
    requires ks != []
    ensures var first := !WriteTo(writes, ks[0]).Escapes?;
            var goes := first && (ks[0] == active ==> Fits(held));
            && (forall k :: k in Advanced(active, held, ks, writes) <==>
                  (first && k == ks[0]) || (goes && k in Advanced(active, held, ks[1..], writes)))
            && (Returns(active, held, ks, writes) <==> goes && Returns(active, held, ks[1..], writes))
  {
    hide Fits;
    assert ks == [ks[0]] + ks[1..];
  }

  /** Resetting all bodies lets go of exactly what the active one held, or raises because that does not fit or
      writing a command raised; then the bodies that advanced, and no others, have been reset. */
  lemma {:induction false} ResetBodiesRelease<K>(
    cfgs: map<K, Policy.Config>, r: Router<K>, ks: seq<K>, writes: map<K, Policy.ResetWrite>, release: MotorAction,
    kb: Keyboard)
    requires Distinct(ks) && Gathered(r.active in ks, kb, release)
    requires forall k :: k in ks ==> k in r.clients && k in cfgs && Waiting(cfgs, r, k, kb)
    ensures var out := ResetBodies(r, ks, writes, release);
            && (out.action.Some? <==> Returns(r.active, kb, ks, writes))
            && (out.action.Some? ==> Gathered(false, kb, out.action.value) && SameShape(release, out.action.value))
            && out.router == r.(clients := out.router.clients) && out.router.clients.Keys == r.clients.Keys
            && forall k :: k in r.clients ==>
                 if k in ks then
                   Treated(cfgs[k], r.clients[k], out.router.clients[k], k in Advanced(r.active, kb, ks, writes))
                 else out.router.clients[k] == r.clients[k]
    decreases |ks|
  {
    hide Policy.Reset, PolicyFacts.Sound, Merge, Admissible, Gathered, Fits, WriteTo, Treated, Advanced, Returns;
    if ks == [] {
      NothingReturns(r.active, kb, writes);
    } else {
      var k, rest, write := ks[0], ks[1..], WriteTo(writes, ks[0]);
      assert ks == [k] + rest && k !in rest;
      ResetOne(cfgs, r, k, r.active in ks, write, release, kb);
      AdvancedFirst(r.active, kb, ks, writes);
      AdvancedAmong(r.active, kb, rest, writes);
      var s := Policy.Reset(r.clients[k], r.pitch, true, write);
      if s.action.Some? {
        ResetBodiesRelease(cfgs, r.(clients := r.clients[k := s.client]), rest, writes,
                           Merge(release, s.action.value), kb);
      } else {
        Untreated(cfgs, r, rest, kb);
      }
    }
  }

  lemma NothingReturns<K>(active: K, held: Keyboard, writes: map<K, Policy.ResetWrite>)
    ensures Returns(active, held, [], writes)
  {
  }

  lemma Untreated<K>(cfgs: map<K, Policy.Config>, r: Router<K>, ks: seq<K>, kb: Keyboard)
    requires forall k :: k in ks ==> k in r.clients && k in cfgs && Waiting(cfgs, r, k, kb)
    ensures forall k :: k in ks ==> Treated(cfgs[k], r.clients[k], r.clients[k], false)
  {
  }

  lemma {:induction false} AdvancedAmong<K>(active: K, held: Keyboard, ks: seq<K>, writes: map<K, Policy.ResetWrite>)
    ensures forall k :: k in Advanced(active, held, ks, writes) ==> k in ks
    ensures Returns(active, held, ks, writes) ==> Advanced(active, held, ks, writes) == ks
    decreases |ks|
  {
    hide Fits, WriteTo;
    if ks != [] {
      var rest := ks[1..];
      assert ks == [ks[0]] + rest;
      AdvancedAmong(active, held, rest, writes);
      if Returns(active, held, ks, writes) {
        assert ks[0] in ks && forall k :: k in rest ==> k in ks;
        assert Returns(active, held, rest, writes);
        assert Advanced(active, held, ks, writes) == [ks[0]] + rest;
      }
    }
  }

  /** When no write raises, a reset that does raise has advanced the bodies up to and including the active one. */
  lemma {:induction false} AdvancedToActive<K>(active: K, held: Keyboard, ks: seq<K>, writes: map<K, Policy.ResetWrite>,
                                               i: nat)
    requires Distinct(ks) && i < |ks| && ks[i] == active && !Fits(held)
    requires forall k :: k in ks ==> !WriteTo(writes, k).Escapes?
    ensures Advanced(active, held, ks, writes) == ks[..i + 1]
    decreases |ks|
  {
    hide Fits;
    if i > 0 {
      AdvancedToActive(active, held, ks[1..], writes, i - 1);
      assert ks[..i + 1] == [ks[0]] + ks[1..][..i];
    }
  }

  /** The bodies that a reset of all bodies advances. */
  function AdvancedBy<K(==)>(b: Bodies<K>, r: Router<K>, how: Resetting<K>): seq<K>
    requires r.active in r.clients
  {
    Advanced(r.active, r.clients[r.active].held, UniqueBodies(b), how.writes)
  }

  lemma ResetAllKept<K>(b: Bodies<K>, cfgs: map<K, Policy.Config>, r: Router<K>, how: Resetting<K>)
    requires Inv(b, cfgs, r)
    ensures var out := ResetBodies(r, UniqueBodies(b), how.writes, Neutral(r.lastSequence + 1));
            var kb := r.clients[r.active].held;
            && out.router == r.(clients := out.router.clients) && out.router.clients.Keys == r.clients.Keys
            && (out.action.Some? <==> Returns(r.active, kb, UniqueBodies(b), how.writes))
            && (out.action.Some? ==>
                  && Fits(kb) && (forall k :: k in r.clients ==> k in AdvancedBy(b, r, how))
                  && out.action.value == Neutral(r.lastSequence + 1).(keysUp := kb.keys, buttonsUp := kb.buttons)
                  && Admissible(out.action.value) && Press(kb, out.action.value) == RELEASED)
            && (forall k :: k in r.clients ==>
                  Treated(cfgs[k], r.clients[k], out.router.clients[k], k in AdvancedBy(b, r, how)))
            && TotalX(out.router.clients, UniqueBodies(b)) == TotalX(r.clients, UniqueBodies(b))
  {
    hide ResetBodies, PolicyFacts.Sound, UniqueBodies, Advanced, Fits;
    assert r.active in UniqueBodies(b);
    UniqueBodiesDistinct(b);
    var kb := r.clients[r.active].held;
    ResetBodiesRelease(cfgs, r, UniqueBodies(b), how.writes, Neutral(r.lastSequence + 1), kb);
    AdvancedAmong(r.active, kb, UniqueBodies(b), how.writes);
    TotalSame(ResetBodies(r, UniqueBodies(b), how.writes, Neutral(r.lastSequence + 1)).router.clients, r.clients,
              UniqueBodies(b));
  }

  /** A call that resets bodies: it returns exactly the release of what the active body held, or raises because
      that does not fit, a write raised, or the observer did; it keeps the keyboard in step unless it raises after
      the active body has let go; and the camera stays still. */
  ghost predicate ResetsInStep<K>(
    b: Bodies<K>, cfgs: map<K, Policy.Config>, r: Router<K>, how: Resetting<K>, observed: bool, out: Routed<K>)
    requires Wired(b, cfgs, r)
  {
    var kb := r.clients[r.active].held;
    && Inv(b, cfgs, out.router) && (out.action.Some? <==> ResetReturns(b, r, how, observed))
    && Proper(out.action, out.router.lastSequence)
    && out.router.lastSequence == r.lastSequence + (if out.action.Some? then 1 else 0)
    && (Shows(out.router, After(kb, out.action)) <==> !ResetLoses(b, r, how, observed))
    && Moves(b, cfgs, r, out, 0, 0)
    && (forall k :: k in r.clients ==>
          && k in out.router.clients
          && Treated(cfgs[k], r.clients[k], out.router.clients[k], k in AdvancedBy(b, r, how)))
  }

  /** What resetting the bodies leaves, before anything else is changed or raised. */
  lemma BodiesReset<K>(b: Bodies<K>, cfgs: map<K, Policy.Config>, r: Router<K>, how: Resetting<K>)
    requires Inv(b, cfgs, r)
    ensures var out := ResetBodies(r, UniqueBodies(b), how.writes, Neutral(r.lastSequence + 1));
            && (forall k :: k in r.clients ==>
                  && k in out.router.clients && PolicyFacts.Sound(cfgs[k], out.router.clients[k])
                  && (k != r.active || out.action.Some? ==>
                        PolicyFacts.Quiet(out.router.clients[k]) && out.router.clients[k].held == RELEASED))
            && out.router.clients[r.active].held
               == if r.active in AdvancedBy(b, r, how) && Fits(r.clients[r.active].held) then RELEASED
                  else r.clients[r.active].held
  {
    hide ResetBodies, PolicyFacts.Sound, UniqueBodies, AdvancedBy, Fits, Press, Admissible, TotalX, Returns;
    ResetAllKept(b, cfgs, r, how);
    PolicyFacts.NothingFits();
  }

  lemma ResetKept<K>(b: Bodies<K>, cfgs: map<K, Policy.Config>, r: Router<K>, how: Resetting<K>)
    requires Inv(b, cfgs, r)
    ensures ResetsInStep(b, cfgs, r, how, true, Reset(b, cfgs, r, how))
  {
    hide ResetBodies, PolicyFacts.Sound, PolicyFacts.OneSlice, PolicyFacts.Quiet, Press, Admissible, Fits, UniqueBodies,
         Advanced, Treated, TotalX, Returns;
    SelectedIsBody(b, LatentLevel);
    ResetAllKept(b, cfgs, r, how);
    BodiesReset(b, cfgs, r, how);
  }

  lemma ObserveKept<K>(b: Bodies<K>, cfgs: map<K, Policy.Config>, r: Router<K>, observing: bool, how: Resetting<K>)
    requires Inv(b, cfgs, r)
    ensures ResetsInStep(b, cfgs, r, how, !observing, ReleaseForObservation(b, cfgs, r, observing, how))
  {
    hide ResetBodies, Reset, PolicyFacts.Sound, PolicyFacts.OneSlice, PolicyFacts.Quiet, UniqueBodies, Press,
         Admissible, Fits, Advanced, Treated, TotalX, Returns;
    ResetKept(b, cfgs, r, how);
    ResetAllKept(b, cfgs, r, how);
    BodiesReset(b, cfgs, r, how);
  }

  lemma NotifyKept<K>(b: Bodies<K>, cfgs: map<K, Policy.Config>, r: Router<K>)
    requires Inv(b, cfgs, r)
    ensures var after := NotifyInputsReleased(r);
            Inv(b, cfgs, after) && Shows(after, RELEASED)
            && after.lastSequence == r.lastSequence && Moves(b, cfgs, r, Routed(after, None), 0, 0)
  {
    hide PolicyFacts.Sound, Policy.NotifyReleased, UniqueBodies, PolicyFacts.OneSlice;
    var after := NotifyInputsReleased(r);
    forall k | k in r.clients
      ensures BodyOk(cfgs[k], after, k) && after.clients[k].held == RELEASED
              && after.clients[k].ledger.emittedX == r.clients[k].ledger.emittedX
    {
      PolicyFacts.NotifyingQuiets(cfgs[k], r.clients[k]);
    }
    TotalSame(after.clients, r.clients, UniqueBodies(b));
  }

  // --- Every run ----------------------------------------------------------------------------------------

  ghost predicate DeskOk<K>(b: Bodies<K>, cfgs: map<K, Policy.Config>, d: Desk<K>) {
    && Inv(b, cfgs, d.router)
    && (forall i :: 0 <= i < |d.emitted| ==>
          Admissible(d.emitted[i]) && d.emitted[i].sequence <= d.router.lastSequence)
    && (forall i, j :: 0 <= i < j < |d.emitted| ==> d.emitted[i].sequence < d.emitted[j].sequence)
  }

  /** The replayed keyboard shows exactly what the active body holds. */
  ghost predicate InStep<K>(d: Desk<K>) { d.router.active in d.router.clients && Shows(d.router, d.keyboard) }

  lemma DeskWired<K>(b: Bodies<K>, cfgs: map<K, Policy.Config>, d: Desk<K>)
    requires DeskOk(b, cfgs, d)
    ensures Wired(b, cfgs, d.router)
  {
  }

  /** What the last call of a desk emitted. */
  function Emitted<K>(before: Desk<K>, after: Desk<K>): Option<MotorAction> {
    if |before.emitted| < |after.emitted| then Some(after.emitted[|before.emitted|]) else None
  }

  /** A desk after one more call: nothing was emitted, or one proper action with a larger sequence number. */
  ghost predicate Follows<K>(d: Desk<K>, e: Desk<K>, released: bool) {
    var action := Emitted(d, e);
    && d.router.lastSequence <= e.router.lastSequence && Proper(action, e.router.lastSequence)
    && (action.Some? ==> !released && d.router.lastSequence < e.router.lastSequence)
    && e.emitted == (if action.Some? then d.emitted + [action.value] else d.emitted)
    && e.keyboard == (if released then RELEASED else After(d.keyboard, action))
  }

  lemma EmitFollows<K>(b: Bodies<K>, cfgs: map<K, Policy.Config>, d: Desk<K>, out: Routed<K>)
    requires DeskOk(b, cfgs, d) && Inv(b, cfgs, out.router) && Proper(out.action, out.router.lastSequence)
    requires d.router.lastSequence + (if out.action.Some? then 1 else 0) <= out.router.lastSequence
    ensures var e := Emit(d, out);
            && DeskOk(b, cfgs, e) && e.router == out.router && e.keyboard == After(d.keyboard, out.action)
            && Emitted(d, e) == out.action && Follows(d, e, false)
  {
    hide Inv, Press, Admissible;
  }

  /** What one call does to a desk. */
  lemma StepKept<K>(b: Bodies<K>, cfgs: map<K, Policy.Config>, d: Desk<K>, call: Call<K>)
    requires DeskOk(b, cfgs, d)
    ensures var e := Step(b, cfgs, d, call);
            && DeskOk(b, cfgs, e) && Follows(d, e, call.ReleasedCall?)
            && (InStep(d) ==> (InStep(e) <==> !Loses(b, cfgs, d.router, call)))
            && Moves(b, cfgs, d.router, Routed(e.router, Emitted(d, e)),
                     LostX(b, cfgs, d.router, call), LostY(b, cfgs, d.router, call))
  {
    hide Act, Reset, ReleaseForObservation, NotifyInputsReleased, Inv, Press, Moves, Admissible, Fits, Alone, Stale,
         Raises, PolicyFacts.LostX, PolicyFacts.LostY, PolicyFacts.Forgets, Emit, Proper, Follows, ResetReturns,
         ResetLoses, Acts, AdvancedBy, Treated, Releasable;
    DeskWired(b, cfgs, d);
    match call {
      case ActCall(q) =>
        ActKept(b, cfgs, d.router, q);
        EmitFollows(b, cfgs, d, Act(b, cfgs, d.router, q));
      case ResetCall(how) =>
        ResetKept(b, cfgs, d.router, how);
        EmitFollows(b, cfgs, d, Reset(b, cfgs, d.router, how));
      case ObserveCall(observing, how) =>
        ObserveKept(b, cfgs, d.router, observing, how);
        EmitFollows(b, cfgs, d, ReleaseForObservation(b, cfgs, d.router, observing, how));
      case ReleasedCall =>
        NotifyKept(b, cfgs, d.router);
        NotifyFollows(b, cfgs, d);
    }
    DeskWired(b, cfgs, Step(b, cfgs, d, call));
  }

  lemma NotifyFollows<K>(b: Bodies<K>, cfgs: map<K, Policy.Config>, d: Desk<K>)
    requires DeskOk(b, cfgs, d)
    ensures var e := Step(b, cfgs, d, ReleasedCall);
            DeskOk(b, cfgs, e) && Follows(d, e, true) && Emitted(d, e).None?
  {
    hide NotifyInputsReleased, Inv;
    NotifyKept(b, cfgs, d.router);
  }

  /** Run the calls in order. Every call leaves the desk in order, so the next one is defined. */
  ghost function Run<K>(b: Bodies<K>, cfgs: map<K, Policy.Config>, d: Desk<K>, calls: seq<Call<K>>): Desk<K>
    requires DeskOk(b, cfgs, d)
    decreases |calls|
  {
    if calls == [] then d
    else
      StepKept(b, cfgs, d, calls[0]);
      Run(b, cfgs, Step(b, cfgs, d, calls[0]), calls[1..])
  }

  /** In step after every call. */
  ghost predicate AlwaysInStep<K>(b: Bodies<K>, cfgs: map<K, Policy.Config>, d: Desk<K>, calls: seq<Call<K>>)
    requires DeskOk(b, cfgs, d)
    decreases |calls|
  {
    if calls == [] then InStep(d)
    else
      StepKept(b, cfgs, d, calls[0]);
      InStep(d) && AlwaysInStep(b, cfgs, Step(b, cfgs, d, calls[0]), calls[1..])
  }

  /** No call meets the guards under which one loses a hold. */
  ghost predicate Lossless<K>(b: Bodies<K>, cfgs: map<K, Policy.Config>, d: Desk<K>, calls: seq<Call<K>>)
    requires DeskOk(b, cfgs, d)
    decreases |calls|
  {
    if calls == [] then true
    else
      StepKept(b, cfgs, d, calls[0]);
      && !Loses(b, cfgs, d.router, calls[0])
      && Lossless(b, cfgs, Step(b, cfgs, d, calls[0]), calls[1..])
  }

  /** Motion that refused actions lost over a run. */
  ghost function LostXs<K>(b: Bodies<K>, cfgs: map<K, Policy.Config>, d: Desk<K>, calls: seq<Call<K>>): int
    requires DeskOk(b, cfgs, d)
    decreases |calls|
  {
    if calls == [] then 0
    else
      StepKept(b, cfgs, d, calls[0]);
      LostX(b, cfgs, d.router, calls[0]) + LostXs(b, cfgs, Step(b, cfgs, d, calls[0]), calls[1..])
  }

  ghost function LostYs<K>(b: Bodies<K>, cfgs: map<K, Policy.Config>, d: Desk<K>, calls: seq<Call<K>>): int
    requires DeskOk(b, cfgs, d)
    decreases |calls|
  {
    if calls == [] then 0
    else
      StepKept(b, cfgs, d, calls[0]);
      LostY(b, cfgs, d.router, calls[0]) + LostYs(b, cfgs, Step(b, cfgs, d, calls[0]), calls[1..])
  }

  function Horizontal(actions: seq<MotorAction>): int {
    if actions == [] then 0 else Horizontal(actions[..|actions| - 1]) + actions[|actions| - 1].dx
  }

  lemma Appends(actions: seq<MotorAction>, a: MotorAction)
    ensures World(actions + [a]) == World(actions) + WorldPitch(a)
    ensures Horizontal(actions + [a]) == Horizontal(actions) + a.dx
  {
    assert (actions + [a])[..|actions|] == actions;
  }

  /** All bodies' envelopes lie in the range of this extent, and none steps out of it. */
  ghost predicate Confined<K>(b: Bodies<K>, cfgs: map<K, Policy.Config>, extent: nat) {
    forall k :: k in UniqueBodies(b) && k in cfgs ==> PolicyFacts.Confining(cfgs[k], extent)
  }

  /** All bodies' envelopes lie in the range of this extent, and none moves farther outside its own. */
  ghost predicate Enclosed<K>(b: Bodies<K>, cfgs: map<K, Policy.Config>, extent: nat) {
    forall k :: k in UniqueBodies(b) && k in cfgs ==>
      cfgs[k].pitchLimit <= extent && PolicyFacts.Returning(cfgs[k])
  }

  ghost predicate Bounded<K>(b: Bodies<K>, cfgs: map<K, Policy.Config>, before: int, after: int, extent: nat) {
    && (Confined(b, cfgs, extent) && Abs(before) <= extent ==> Abs(after) <= extent)
    && (Enclosed(b, cfgs, extent) ==> Abs(after) <= Max(Abs(before), extent))
  }

  lemma SliceBounded<K>(b: Bodies<K>, cfgs: map<K, Policy.Config>, before: int, after: int, extent: nat)
    requires OneSlice(b, cfgs, before, after)
    ensures Bounded(b, cfgs, before, after, extent)
  {
    hide Policy.Drain, PolicyFacts.Confining, PolicyFacts.Returning;
    if after != before {
      var k :| k in UniqueBodies(b) && k in cfgs && PolicyFacts.OneSlice(cfgs[k], before, after);
      PolicyFacts.StaysInsideIff(cfgs[k], extent);
      PolicyFacts.NoFartherOutsideIff(cfgs[k]);
    }
  }

  /** The camera ledgers of a desk move by what was emitted since and what was lost. */
  ghost predicate Accounts<K>(b: Bodies<K>, cfgs: map<K, Policy.Config>, d: Desk<K>, e: Desk<K>, x: int, y: int)
    requires Wired(b, cfgs, d.router) && Wired(b, cfgs, e.router)
  {
    && TotalX(e.router.clients, UniqueBodies(b)) - TotalX(d.router.clients, UniqueBodies(b))
       == Horizontal(e.emitted) - Horizontal(d.emitted) + x
    && (Tracked(b, cfgs) ==> e.router.pitch - d.router.pitch == World(e.emitted) - World(d.emitted) + y)
  }

  lemma StepAccounts<K>(b: Bodies<K>, cfgs: map<K, Policy.Config>, d: Desk<K>, call: Call<K>, extent: nat)
    requires DeskOk(b, cfgs, d)
    ensures var e := Step(b, cfgs, d, call);
            && Wired(b, cfgs, e.router)
            && Accounts(b, cfgs, d, e, LostX(b, cfgs, d.router, call), LostY(b, cfgs, d.router, call))
            && Bounded(b, cfgs, d.router.pitch, e.router.pitch, extent)
  {
    hide Step, DeskOk, Loses, LostX, LostY, Bounded, TotalX, World, Horizontal, OneSlice, Admissible, Press, InStep;
    DeskWired(b, cfgs, d);
    StepKept(b, cfgs, d, call);
    var e := Step(b, cfgs, d, call);
    DeskWired(b, cfgs, e);
    SliceBounded(b, cfgs, d.router.pitch, e.router.pitch, extent);
    if Emitted(d, e).Some? {
      Appends(d.emitted, Emitted(d, e).value);
    }
  }

  lemma {:induction false} RunKept<K>(
    b: Bodies<K>, cfgs: map<K, Policy.Config>, d: Desk<K>, calls: seq<Call<K>>, extent: nat)
    requires DeskOk(b, cfgs, d)
    ensures var e := Run(b, cfgs, d, calls);
            && DeskOk(b, cfgs, e) && Wired(b, cfgs, d.router)
            && (InStep(d) ==> (AlwaysInStep(b, cfgs, d, calls) <==> Lossless(b, cfgs, d, calls)))
            && (AlwaysInStep(b, cfgs, d, calls) ==> InStep(e))
            && Accounts(b, cfgs, d, e, LostXs(b, cfgs, d, calls), LostYs(b, cfgs, d, calls))
            && Bounded(b, cfgs, d.router.pitch, e.router.pitch, extent)
    decreases |calls|
  {
    hide DeskOk, Step, InStep, Loses, LostX, LostY, TotalX, World, Horizontal, Confined, Enclosed, Tracked;
    DeskWired(b, cfgs, d);
    if calls != [] {
      StepKept(b, cfgs, d, calls[0]);
      StepAccounts(b, cfgs, d, calls[0], extent);
      RunKept(b, cfgs, Step(b, cfgs, d, calls[0]), calls[1..], extent);
    }
  }

  lemma StartOk<K>(b: Bodies<K>, cfgs: map<K, Policy.Config>, pitch: int)
    requires (set k | k in UniqueBodies(b)) <= cfgs.Keys
    ensures var d := Desk(Start(b, pitch), RELEASED, []);
            && DeskOk(b, cfgs, d) && InStep(d) && Level(d.router) && Fitting(d.router)
            && TotalX(d.router.clients, UniqueBodies(b)) == 0
  {
    hide UniqueBodies;
    SelectedIsBody(b, LatentLevel);
    NothingCounted(Start(b, pitch).clients, UniqueBodies(b));
  }

  lemma {:induction false} NothingCounted<K>(clients: map<K, Policy.Client>, ks: seq<K>)
    requires forall k :: k in ks ==> k in clients && clients[k] == Policy.FRESH
    ensures TotalX(clients, ks) == 0
    decreases |ks|
  {
    if ks != [] {
      NothingCounted(clients, ks[1..]);
    }
  }

  // --- The sequence frontier ------------------------------------------------------------------------------

  lemma PerformLevel<K>(b: Bodies<K>, cfgs: map<K, Policy.Config>, r: Router<K>, release: Option<MotorAction>,
                        tick: Policy.Tick, observer: Observer)
    requires Poised(b, cfgs, r) && Level(r)
    ensures Level(Perform(cfgs, r, release, tick, observer).router)
  {
    hide Policy.Act, PolicyFacts.Sound, PolicyFacts.LetsGo, PolicyFacts.Forgets, Admissible, UniqueBodies;
    var c, cfg := r.clients[r.active], cfgs[r.active];
    if c.lastSequence < r.lastSequence {
      PolicyFacts.ActOutcome(cfg, c, r.pitch, r.lastSequence, tick);
    } else {
      StaleAct(cfg, c, r.pitch, r.lastSequence, tick);
    }
  }

  lemma BindLevel<K>(b: Bodies<K>, cfgs: map<K, Policy.Config>, r: Router<K>, q: Routing<K>)
    requires Poised(b, cfgs, r) && Level(r)
    ensures BodyForLevel(b, q.episode.level) in r.clients && Level(Bind(b, cfgs, r, q).router)
  {
    hide Perform, Policy.Reset, Admissible, PolicyFacts.Sound, PolicyFacts.Quiet, UniqueBodies, WriteTo;
    SelectedIsBody(b, q.episode.level);
    var bound := r.(active := BodyForLevel(b, q.episode.level), episode := Some(q.episode));
    if r.episode.None? && bound.active == r.active {
      PerformLevel(b, cfgs, bound, None, q.tick, q.observer);
    } else {
      var write := WriteTo(q.writes, r.active);
      PolicyFacts.RetiringQuiets(cfgs[r.active], r.clients[r.active], r.pitch, false, write);
      var s := Policy.Reset(r.clients[r.active], r.pitch, false, write);
      if s.action.Some? {
        PerformLevel(b, cfgs, bound.(clients := r.clients[r.active := s.client]), s.action, q.tick, q.observer);
      }
    }
  }

  /** Every act keeps all bodies level with the router, and from a level router none meets a used number. */
  lemma ActLevel<K>(b: Bodies<K>, cfgs: map<K, Policy.Config>, r: Router<K>, q: Routing<K>)
    requires Inv(b, cfgs, r) && Level(r)
    ensures Level(Act(b, cfgs, r, q).router) && forall k :: k in r.clients ==> !Stale(r, k, Next(r, q))
  {
    hide Perform, Bind, Policy.Reset, Admissible, PolicyFacts.Sound, PolicyFacts.Quiet, UniqueBodies, WriteTo, Merge;
    var now := r.(lastSequence := Next(r, q));
    if r.episode.Some? && r.episode.value.id == q.episode.id {
      PerformLevel(b, cfgs, now, None, q.tick, q.observer);
    } else {
      match q.warmth
      case Loading(activeBusy) =>
        PolicyFacts.RetiringQuiets(cfgs[r.active], r.clients[r.active], r.pitch, true, WriteTo(q.writes, r.active));
      case WarmupRaises =>
      case Ready => BindLevel(b, cfgs, now, q);
    }
  }

  /** A reset that raises after advancing a body beyond the router, whose own number it leaves as it was. */
  predicate ResetUnlevels<K(==)>(b: Bodies<K>, r: Router<K>, how: Resetting<K>, observed: bool)
    requires r.active in r.clients && forall k :: k in UniqueBodies(b) ==> k in r.clients
  {
    && !ResetReturns(b, r, how, observed)
    && exists k | k in UniqueBodies(b) && k in AdvancedBy(b, r, how) ::
         Max(0, r.clients[k].lastSequence + 1) > r.lastSequence
  }

  predicate Unlevels<K(==)>(b: Bodies<K>, r: Router<K>, call: Call<K>)
    requires r.active in r.clients && forall k :: k in UniqueBodies(b) ==> k in r.clients
  {
    match call
    case ResetCall(how) => ResetUnlevels(b, r, how, true)
    case ObserveCall(observing, how) => ResetUnlevels(b, r, how, !observing)
    case _ => false
  }

  lemma ResetLevelIff<K>(
    b: Bodies<K>, cfgs: map<K, Policy.Config>, r: Router<K>, how: Resetting<K>, observed: bool, out: Routed<K>)
    requires Inv(b, cfgs, r) && Level(r) && ResetsInStep(b, cfgs, r, how, observed, out)
    ensures Level(out.router) <==> !ResetUnlevels(b, r, how, observed)
  {
    hide UniqueBodies, PolicyFacts.Sound, PolicyFacts.Quiet, Advanced, ResetReturns, ResetLoses, Moves, Proper, Fits;
    assert out.router.clients.Keys == r.clients.Keys;
    if !Level(out.router) {
      var k :| k in out.router.clients && out.router.clients[k].lastSequence > out.router.lastSequence;
      assert Treated(cfgs[k], r.clients[k], out.router.clients[k], k in AdvancedBy(b, r, how));
    }
    if ResetUnlevels(b, r, how, observed) {
      var k :| k in UniqueBodies(b) && k in AdvancedBy(b, r, how)
               && Max(0, r.clients[k].lastSequence + 1) > r.lastSequence;
      assert Treated(cfgs[k], r.clients[k], out.router.clients[k], k in AdvancedBy(b, r, how));
    }
  }

  /** From a level router a call leaves a level router, exactly unless it is such a reset. */
  lemma StepLevelIff<K>(b: Bodies<K>, cfgs: map<K, Policy.Config>, d: Desk<K>, call: Call<K>)
    requires DeskOk(b, cfgs, d) && Level(d.router)
    ensures Wired(b, cfgs, d.router)
    ensures Level(Step(b, cfgs, d, call).router) <==> !Unlevels(b, d.router, call)
  {
    hide Act, Reset, ReleaseForObservation, NotifyInputsReleased, ResetUnlevels, ResetsInStep, PolicyFacts.Sound,
         PolicyFacts.Quiet, Press;
    DeskWired(b, cfgs, d);
    var r := d.router;
    match call
    case ActCall(q) =>
      ActLevel(b, cfgs, r, q);
      EmitRouter(d, Act(b, cfgs, r, q));
    case ResetCall(how) =>
      ResetKept(b, cfgs, r, how);
      ResetLevelIff(b, cfgs, r, how, true, Reset(b, cfgs, r, how));
      EmitRouter(d, Reset(b, cfgs, r, how));
    case ObserveCall(observing, how) =>
      ObserveKept(b, cfgs, r, observing, how);
      ResetLevelIff(b, cfgs, r, how, !observing, ReleaseForObservation(b, cfgs, r, observing, how));
      EmitRouter(d, ReleaseForObservation(b, cfgs, r, observing, how));
    case ReleasedCall => NotifyLevel(b, cfgs, r);
  }

  lemma EmitRouter<K>(d: Desk<K>, out: Routed<K>)
    ensures Emit(d, out).router == out.router
  {
  }

  lemma NotifyLevel<K>(b: Bodies<K>, cfgs: map<K, Policy.Config>, r: Router<K>)
    requires Inv(b, cfgs, r) && Level(r)
    ensures Level(NotifyInputsReleased(r))
  {
  }

  /** A reset that raises after it has advanced the active body has not advanced the router, so when the two were
      level that body's next act raises too. */
  lemma FailedResetGoesAhead<K>(
    b: Bodies<K>, cfgs: map<K, Policy.Config>, r: Router<K>, how: Resetting<K>, q: Routing<K>)
    requires Inv(b, cfgs, r) && !ResetReturns(b, r, how, true) && r.active in AdvancedBy(b, r, how)
    requires r.clients[r.active].lastSequence == r.lastSequence >= q.sequence
    ensures var out := Reset(b, cfgs, r, how);
            && out.action.None? && Wired(b, cfgs, out.router) && out.router.active == r.active
            && (Alone(b, out.router, q) ==> Act(b, cfgs, out.router, q).action.None?)
  {
    hide ResetBodies, PolicyFacts.Sound, PolicyFacts.Quiet, Press, Admissible, Fits, UniqueBodies, Perform, Bind,
         Refuse, PolicyFacts.LetsGo, PolicyFacts.Forgets, PolicyFacts.LostX, PolicyFacts.LostY, PolicyFacts.OneSlice,
         Alone, Moves, Advanced, PolicyFacts.Holds, Returns;
    ResetAllKept(b, cfgs, r, how);
    ResetKept(b, cfgs, r, how);
    ActKept(b, cfgs, Reset(b, cfgs, r, how).router, q);
  }

  ghost predicate AlwaysLevel<K>(b: Bodies<K>, cfgs: map<K, Policy.Config>, d: Desk<K>, calls: seq<Call<K>>)
    requires DeskOk(b, cfgs, d)
    decreases |calls|
  {
    if calls == [] then Level(d.router)
    else
      StepKept(b, cfgs, d, calls[0]);
      Level(d.router) && AlwaysLevel(b, cfgs, Step(b, cfgs, d, calls[0]), calls[1..])
  }

  /** No reset meets the guard under which one leaves a body ahead of the router. */
  ghost predicate NeverUnlevels<K>(b: Bodies<K>, cfgs: map<K, Policy.Config>, d: Desk<K>, calls: seq<Call<K>>)
    requires DeskOk(b, cfgs, d)
    decreases |calls|
  {
    if calls == [] then true
    else
      StepKept(b, cfgs, d, calls[0]);
      && !Unlevels(b, d.router, calls[0])
      && NeverUnlevels(b, cfgs, Step(b, cfgs, d, calls[0]), calls[1..])
  }

  /** No act uses a sequence number that any body has already used. */
  ghost predicate NeverStale<K>(b: Bodies<K>, cfgs: map<K, Policy.Config>, d: Desk<K>, calls: seq<Call<K>>)
    requires DeskOk(b, cfgs, d)
    decreases |calls|
  {
    if calls == [] then true
    else
      StepKept(b, cfgs, d, calls[0]);
      && (calls[0].ActCall? ==>
            forall k :: k in d.router.clients ==> !Stale(d.router, k, Next(d.router, calls[0].routing)))
      && NeverStale(b, cfgs, Step(b, cfgs, d, calls[0]), calls[1..])
  }

  lemma {:induction false} LevelRun<K>(b: Bodies<K>, cfgs: map<K, Policy.Config>, d: Desk<K>, calls: seq<Call<K>>)
    requires DeskOk(b, cfgs, d) && Level(d.router)
    ensures AlwaysLevel(b, cfgs, d, calls) <==> NeverUnlevels(b, cfgs, d, calls)
    ensures AlwaysLevel(b, cfgs, d, calls) ==> NeverStale(b, cfgs, d, calls)
    decreases |calls|
  {
    hide Step, Unlevels, Inv, InStep, Moves, Loses, Follows;
    if calls != [] {
      DeskWired(b, cfgs, d);
      StepKept(b, cfgs, d, calls[0]);
      StepLevelIff(b, cfgs, d, calls[0]);
      var e := Step(b, cfgs, d, calls[0]);
      if Level(e.router) {
        LevelRun(b, cfgs, e, calls[1..]);
      } else {
        LevelFirst(b, cfgs, e, calls[1..]);
      }
    }
  }

  lemma LevelFirst<K>(b: Bodies<K>, cfgs: map<K, Policy.Config>, d: Desk<K>, calls: seq<Call<K>>)
    requires DeskOk(b, cfgs, d)
    ensures AlwaysLevel(b, cfgs, d, calls) ==> Level(d.router)
  {
  }

  // --- Runs whose predictions fit in one action -----------------------------------------------------------

  predicate SmallCall<K>(call: Call<K>) { call.ActCall? ==> PolicyFacts.SmallTick(call.routing.tick) }

  ghost predicate SlowCall<K>(b: Bodies<K>, cfgs: map<K, Policy.Config>, call: Call<K>) {
    call.ActCall? ==>
      forall k :: k in UniqueBodies(b) && k in cfgs ==> PolicyFacts.SlowTick(cfgs[k], call.routing.tick)
  }

  predicate NoneEscapes<K>(writes: map<K, Policy.ResetWrite>) { forall k :: k in writes ==> !writes[k].Escapes? }

  /** Neither the observer nor a reset command raises. */
  predicate SmoothCall<K>(call: Call<K>) {
    match call
    case ActCall(q) => q.observer.Fine? && NoneEscapes(q.writes)
    case ResetCall(how) => !how.observerRaises && NoneEscapes(how.writes)
    case ObserveCall(_, how) => !how.observerRaises && NoneEscapes(how.writes)
    case ReleasedCall => true
  }

  /** What is held fits in one release. */
  ghost predicate Fitting<K>(r: Router<K>) { r.active in r.clients && Fits(r.clients[r.active].held) }

  lemma PerformFitting<K>(b: Bodies<K>, cfgs: map<K, Policy.Config>, r: Router<K>, release: Option<MotorAction>,
                          tick: Policy.Tick, observer: Observer)
    requires Poised(b, cfgs, r) && Fitting(r) && PolicyFacts.SmallTick(tick)
    ensures Fitting(Perform(cfgs, r, release, tick, observer).router)
    ensures !Stale(r, r.active, r.lastSequence) ==>
              && !PolicyFacts.Forgets(cfgs[r.active], Acting(r, r.lastSequence), tick)
              && (PolicyFacts.SlowTick(cfgs[r.active], tick) ==>
                    !PolicyFacts.Refused(cfgs[r.active], Acting(r, r.lastSequence), r.pitch, tick))
  {
    hide Policy.Act, PolicyFacts.Sound, Fits, PolicyFacts.SmallTick, PolicyFacts.SlowTick, PolicyFacts.Forgets,
         PolicyFacts.Refused, Admissible;
    var c, cfg := r.clients[r.active], cfgs[r.active];
    if c.lastSequence < r.lastSequence {
      PolicyFacts.SmallActs(cfg, c, r.pitch, r.lastSequence, tick);
    } else {
      StaleAct(cfg, c, r.pitch, r.lastSequence, tick);
    }
  }

  lemma BindFitting<K>(b: Bodies<K>, cfgs: map<K, Policy.Config>, r: Router<K>, q: Routing<K>)
    requires Poised(b, cfgs, r) && Fitting(r) && PolicyFacts.SmallTick(q.tick)
    ensures BodyForLevel(b, q.episode.level) in r.clients && Fitting(Bind(b, cfgs, r, q).router)
  {
    hide Perform, Policy.Reset, Admissible, Fits, PolicyFacts.Sound, PolicyFacts.Quiet, PolicyFacts.SmallTick,
         PolicyFacts.Forgets, PolicyFacts.Refused, UniqueBodies, WriteTo;
    SelectedIsBody(b, q.episode.level);
    PolicyFacts.NothingFits();
    var bound := r.(active := BodyForLevel(b, q.episode.level), episode := Some(q.episode));
    if r.episode.None? && bound.active == r.active {
      PerformFitting(b, cfgs, bound, None, q.tick, q.observer);
    } else {
      var write := WriteTo(q.writes, r.active);
      PolicyFacts.RetiringQuiets(cfgs[r.active], r.clients[r.active], r.pitch, false, write);
      var s := Policy.Reset(r.clients[r.active], r.pitch, false, write);
      if s.action.Some? {
        var next := bound.(clients := r.clients[r.active := s.client]);
        QuietHoldsNothing(s.client);
        QuietHoldsNothing(next.clients[next.active]);
        PerformFitting(b, cfgs, next, s.action, q.tick, q.observer);
      }
    }
  }

  lemma ActFitting<K>(b: Bodies<K>, cfgs: map<K, Policy.Config>, r: Router<K>, q: Routing<K>)
    requires Inv(b, cfgs, r) && Fitting(r) && PolicyFacts.SmallTick(q.tick)
    ensures Fitting(Act(b, cfgs, r, q).router)
  {
    hide Perform, Bind, Policy.Reset, Admissible, Fits, PolicyFacts.Sound, PolicyFacts.Quiet, PolicyFacts.SmallTick,
         PolicyFacts.Forgets, PolicyFacts.Refused, UniqueBodies, Merge, WriteTo;
    var now := r.(lastSequence := Next(r, q));
    PolicyFacts.NothingFits();
    if r.episode.Some? && r.episode.value.id == q.episode.id {
      PerformFitting(b, cfgs, now, None, q.tick, q.observer);
    } else {
      match q.warmth
      case Loading(activeBusy) =>
        var write := WriteTo(q.writes, r.active);
        PolicyFacts.RetiringQuiets(cfgs[r.active], r.clients[r.active], r.pitch, true, write);
        var s := Policy.Reset(r.clients[r.active], r.pitch, true, write);
        if s.action.Some? {
          QuietHoldsNothing(s.client);
        }
      case WarmupRaises =>
      case Ready => BindFitting(b, cfgs, now, q);
    }
  }

  /** A reset leaves what is held, or nothing, and returns when what is held fits and nothing raises. */
  lemma ResetFitting<K>(
    b: Bodies<K>, cfgs: map<K, Policy.Config>, r: Router<K>, how: Resetting<K>, observed: bool, out: Routed<K>)
    requires Inv(b, cfgs, r) && Fitting(r) && ResetsInStep(b, cfgs, r, how, observed, out)
    requires !how.observerRaises && NoneEscapes(how.writes)
    ensures Fitting(out.router) && ResetReturns(b, r, how, observed)
    ensures !ResetLoses(b, r, how, observed) && !ResetUnlevels(b, r, how, observed)
  {
    hide UniqueBodies, PolicyFacts.Sound, Advanced, Moves, Proper, Press, Fits;
    PolicyFacts.NothingFits();
    var k := out.router.active;
    assert BodyOk(cfgs[k], r, k);
    assert Treated(cfgs[k], r.clients[k], out.router.clients[k], k in AdvancedBy(b, r, how));
  }

  /** While predictions fit in one action and nothing else raises: every body stays level with the router, what is
      held fits, no call loses a hold, only a warm-up raises, and no motion is lost. */
  lemma SmallCalls<K>(b: Bodies<K>, cfgs: map<K, Policy.Config>, d: Desk<K>, call: Call<K>)
    requires DeskOk(b, cfgs, d) && Level(d.router) && Fitting(d.router) && SmallCall(call) && SmoothCall(call)
    ensures Wired(b, cfgs, d.router)
    ensures Level(Step(b, cfgs, d, call).router) && Fitting(Step(b, cfgs, d, call).router)
    ensures !Unlevels(b, d.router, call) && !Loses(b, cfgs, d.router, call)
    ensures call.ActCall? && Raises(b, cfgs, d.router, call.routing) ==> call.routing.warmth.WarmupRaises?
    ensures SlowCall(b, cfgs, call) ==> LostX(b, cfgs, d.router, call) == LostY(b, cfgs, d.router, call) == 0
  {
    hide Act, Reset, ReleaseForObservation, NotifyInputsReleased, Fits, PolicyFacts.Sound, PolicyFacts.Quiet,
         PolicyFacts.SmallTick, PolicyFacts.SlowTick, PolicyFacts.Forgets, PolicyFacts.Refused, PolicyFacts.LetsGo,
         UniqueBodies, Press, Emit, ResetsInStep, ResetLoses, ResetUnlevels, ResetReturns, PolicyFacts.Holds,
         Policy.Act;
    DeskWired(b, cfgs, d);
    StepLevelIff(b, cfgs, d, call);
    var r := d.router;
    match call
    case ActCall(q) =>
      ActFitting(b, cfgs, r, q);
      EmitRouter(d, Act(b, cfgs, r, q));
      SelectedIsBody(b, q.episode.level);
      PerformFitting(b, cfgs, r.(lastSequence := Next(r, q)), None, q.tick, q.observer);
    case ResetCall(how) =>
      ResetKept(b, cfgs, r, how);
      ResetFitting(b, cfgs, r, how, true, Reset(b, cfgs, r, how));
      EmitRouter(d, Reset(b, cfgs, r, how));
    case ObserveCall(observing, how) =>
      ObserveKept(b, cfgs, r, observing, how);
      ResetFitting(b, cfgs, r, how, !observing, ReleaseForObservation(b, cfgs, r, observing, how));
      EmitRouter(d, ReleaseForObservation(b, cfgs, r, observing, how));
    case ReleasedCall => NotifyFitting(b, cfgs, r);
  }

  lemma NotifyFitting<K>(b: Bodies<K>, cfgs: map<K, Policy.Config>, r: Router<K>)
    requires Inv(b, cfgs, r)
    ensures Fitting(NotifyInputsReleased(r))
  {
  }

  lemma {:induction false} SmallRun<K>(b: Bodies<K>, cfgs: map<K, Policy.Config>, d: Desk<K>, calls: seq<Call<K>>)
    requires DeskOk(b, cfgs, d) && Level(d.router) && Fitting(d.router)
    requires forall i :: 0 <= i < |calls| ==> SmallCall(calls[i]) && SmoothCall(calls[i])
    ensures Lossless(b, cfgs, d, calls) && NeverUnlevels(b, cfgs, d, calls)
    ensures (forall i :: 0 <= i < |calls| ==> SlowCall(b, cfgs, calls[i])) ==>
              LostXs(b, cfgs, d, calls) == LostYs(b, cfgs, d, calls) == 0
    decreases |calls|
  {
    hide DeskOk, Step, Loses, LostX, LostY, Level, Fitting, SmallCall, SlowCall, SmoothCall, Unlevels;
    if calls != [] {
      DeskWired(b, cfgs, d);
      StepKept(b, cfgs, d, calls[0]);
      SmallCalls(b, cfgs, d, calls[0]);
      SmallRun(b, cfgs, Step(b, cfgs, d, calls[0]), calls[1..]);
    }
  }

  // --- The main results ---------------------------------------------------------------------------------

  /** No prediction asks for more than one action may carry, and neither observer nor reset command raises. */
  ghost predicate Plain<K>(calls: seq<Call<K>>) {
    forall i :: 0 <= i < |calls| ==> SmallCall(calls[i]) && SmoothCall(calls[i])
  }

  /** Whatever the workers do and however calls are mixed: emitted sequence numbers strictly increase, and every
      emitted action is admissible; every body but the active one holds nothing and owns no request whose answer
      could still act; a body has at most one request in flight, none of it on top of leftover motion. After
      every call the replayed keyboard shows exactly the active body's held tokens if and only if no call met a
      guard under which one loses a hold; and no call does while every prediction fits in one action and nothing
      else raises. */
  lemma RouterRefinesOneKeyboard<K>(b: Bodies<K>, cfgs: map<K, Policy.Config>, pitch: int, calls: seq<Call<K>>)
    requires (set k | k in UniqueBodies(b)) <= cfgs.Keys
    ensures DeskOk(b, cfgs, Desk(Start(b, pitch), RELEASED, []))
    ensures var start := Desk(Start(b, pitch), RELEASED, []);
            var d := Run(b, cfgs, start, calls);
            && (AlwaysInStep(b, cfgs, start, calls) <==> Lossless(b, cfgs, start, calls))
            && (Plain(calls) ==> Lossless(b, cfgs, start, calls))
            && d.router.active in d.router.clients
            && (Lossless(b, cfgs, start, calls) ==> d.keyboard == d.router.clients[d.router.active].held)
            && (forall k :: k in d.router.clients && k != d.router.active ==>
                  && d.router.clients[k].held == RELEASED
                  && (d.router.clients[k].pending.None? || d.router.clients[k].discard))
            && (forall i :: 0 <= i < |d.emitted| ==> Admissible(d.emitted[i]))
            && (forall i, j :: 0 <= i < j < |d.emitted| ==> d.emitted[i].sequence < d.emitted[j].sequence)
            && (forall k :: k in d.router.clients ==>
                  && d.router.clients[k].ledger.inFlight <= 1
                  && (d.router.clients[k].pending.Some? ==> Policy.Drained(d.router.clients[k].queue)))
  {
    hide Run, AlwaysInStep, Lossless;
    var start := Desk(Start(b, pitch), RELEASED, []);
    StartOk(b, cfgs, pitch);
    RunKept(b, cfgs, start, calls, 0);
    if Plain(calls) {
      SmallRun(b, cfgs, start, calls);
    }
    var d := Run(b, cfgs, start, calls);
    forall k | k in d.router.clients
      ensures BodyOk(cfgs[k], d.router, k)
    {
    }
  }

  /** Over every run, no body's sequence number is ahead of the router's after any call if and only if no reset
      raised after advancing one beyond it; then no act meets a sequence number that a body has already used. No
      reset does while every prediction fits in one action and nothing else raises. */
  lemma BodiesStayLevel<K>(b: Bodies<K>, cfgs: map<K, Policy.Config>, pitch: int, calls: seq<Call<K>>)
    requires (set k | k in UniqueBodies(b)) <= cfgs.Keys
    ensures DeskOk(b, cfgs, Desk(Start(b, pitch), RELEASED, []))
    ensures var start := Desk(Start(b, pitch), RELEASED, []);
            && (AlwaysLevel(b, cfgs, start, calls) <==> NeverUnlevels(b, cfgs, start, calls))
            && (AlwaysLevel(b, cfgs, start, calls) ==> NeverStale(b, cfgs, start, calls))
            && (Plain(calls) ==> AlwaysLevel(b, cfgs, start, calls))
  {
    hide AlwaysLevel, NeverUnlevels, NeverStale;
    var start := Desk(Start(b, pitch), RELEASED, []);
    StartOk(b, cfgs, pitch);
    LevelRun(b, cfgs, start, calls);
    if Plain(calls) {
      SmallRun(b, cfgs, start, calls);
    }
  }

  /** Over every run, for any number of bodies and any step bounds: what the bodies count as emitted
      horizontally is what was emitted plus what refused or discarded actions lost, and predicted motion is
      emitted, queued or dropped; the pitch estimate is its start plus all emitted world motion plus what was
      lost. Nothing is lost while predictions fit in one action and nothing raises. A range that confines every
      body is never left, and one that encloses every body bounds how far outside the estimate can be. */
  lemma RouterTracksOneCamera<K>(
    b: Bodies<K>, cfgs: map<K, Policy.Config>, pitch: int, calls: seq<Call<K>>, extent: nat)
    requires (set k | k in UniqueBodies(b)) <= cfgs.Keys
    ensures DeskOk(b, cfgs, Desk(Start(b, pitch), RELEASED, []))
    ensures var start := Desk(Start(b, pitch), RELEASED, []);
            var d := Run(b, cfgs, start, calls);
            var lostX, lostY := LostXs(b, cfgs, start, calls), LostYs(b, cfgs, start, calls);
            && Wired(b, cfgs, d.router)
            && TotalX(d.router.clients, UniqueBodies(b)) == Horizontal(d.emitted) + lostX
            && (forall k :: k in d.router.clients ==>
                  && var c := d.router.clients[k];
                     c.ledger.predictedX == c.ledger.emittedX + c.queue.dx + c.ledger.droppedX)
            && (Tracked(b, cfgs) ==> d.router.pitch == pitch + World(d.emitted) + lostY)
            && (Plain(calls) && (forall i :: 0 <= i < |calls| ==> SlowCall(b, cfgs, calls[i])) ==>
                  lostX == lostY == 0)
            && (Confined(b, cfgs, extent) && Abs(pitch) <= extent ==> Abs(d.router.pitch) <= extent)
            && (Enclosed(b, cfgs, extent) ==> Abs(d.router.pitch) <= Max(Abs(pitch), extent))
  {
    hide Run, LostXs, LostYs, SmallCall, SlowCall, SmoothCall, UniqueBodies, Confined, Enclosed, Tracked;
    var start := Desk(Start(b, pitch), RELEASED, []);
    StartOk(b, cfgs, pitch);
    RunKept(b, cfgs, start, calls, extent);
    if Plain(calls) {
      SmallRun(b, cfgs, start, calls);
    }
    var d := Run(b, cfgs, start, calls);
    forall k | k in d.router.clients
      ensures BodyOk(cfgs[k], d.router, k)
    {
    }
  }
}
