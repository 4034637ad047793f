/** Value-level specification of the router that binds one body client per option
    (policy_service.py, GroundedPolicyRouter). Bodies are named by K; the same body may serve
    several routes. */
module RouterModel {
  import opened Common
  import opened Motor
  import Policy = PolicyModel

  datatype Level = RawLevel | MotionLevel | LatentLevel | SkillLevel | GroundedLevel | GuiLevel

  datatype Bodies<K> = Bodies(primary: K, rawMotion: Option<K>, gui: Option<K>)

  function BodyForLevel<K>(b: Bodies<K>, level: Level): K {
    match level
    case GuiLevel => if b.gui.Some? then b.gui.value else b.primary
    case RawLevel | MotionLevel => if b.rawMotion.Some? then b.rawMotion.value else b.primary
    case LatentLevel | SkillLevel | GroundedLevel => b.primary
  }

  function Joined<K(==)>(known: seq<K>, body: Option<K>): seq<K> {
    if body.Some? && body.value !in known then known + [body.value] else known
  }

  /** The bodies in order, each once. */
  function UniqueBodies<K(==)>(b: Bodies<K>): seq<K> {
    Joined(Joined([b.primary], b.rawMotion), b.gui)
  }

  lemma UniqueBodiesDistinct<K>(b: Bodies<K>)
    ensures Distinct(UniqueBodies(b))
  {
  }

  datatype Episode = Episode(id: string, level: Level)

  datatype Router<K> = Router(
    clients: map<K, Policy.Client>,
    pitch: int,
    active: K,
    lastSequence: int,
    episode: Option<Episode>)

  // Whether the body an option needs can be used now; `activeBusy`: the active one is still loading.
  datatype Warmth = Ready | Loading(activeBusy: bool) | WarmupRaises

  // The grounding observer is no body, but an exception of its own leaves the router's call: when it is let go
  // of while an option is bound, or when it is asked or let go of after the body has acted.
  datatype Observer = Fine | RaisesInBinding | RaisesAfterActing

  // `writes` are the bodies whose worker does not simply take the reset command, and how the write ends.
  datatype Routing<K> = Routing(
    sequence: int, episode: Episode, warmth: Warmth, writes: map<K, Policy.ResetWrite>, observer: Observer,
    tick: Policy.Tick)

  function WriteTo<K>(writes: map<K, Policy.ResetWrite>, k: K): Policy.ResetWrite {
    if k in writes then writes[k] else Policy.Written
  }

  /** A router call: the router it leaves and the action, or None when it raises. */
  datatype Routed<K> = Routed(router: Router<K>, action: Option<MotorAction>)

  ghost predicate Wired<K>(b: Bodies<K>, cfgs: map<K, Policy.Config>, r: Router<K>) {
    && r.clients.Keys == (set k | k in UniqueBodies(b)) <= cfgs.Keys
    && r.active in r.clients
  }

  function Merge(a: MotorAction, release: MotorAction): MotorAction {
    a.(keysUp := a.keysUp + release.keysUp, buttonsUp := a.buttonsUp + release.buttonsUp)
  }

  function Constructed(a: MotorAction): Option<MotorAction> {
    if Admissible(a) then Some(a) else None
  }

  /** Let the active body act; then the observer is served, and the release of the body it took over from is
      folded in. */
  function Perform<K>(cfgs: map<K, Policy.Config>, r: Router<K>, release: Option<MotorAction>, tick: Policy.Tick,
                      observer: Observer): Routed<K>
    requires r.active in r.clients && r.active in cfgs
  {
    var s := Policy.Act(cfgs[r.active], r.clients[r.active], r.pitch, r.lastSequence, tick);
    var after := r.(clients := r.clients[r.active := s.client], pitch := s.pitch);
    Routed(after,
           if observer.RaisesAfterActing? then None
           else if s.action.None? || release.None? then s.action
           else Constructed(Merge(s.action.value, release.value)))
  }

  /** End the old option's ownership of the keyboard, even when the same body goes on. */
  function Bind<K(==)>(b: Bodies<K>, cfgs: map<K, Policy.Config>, r: Router<K>, q: Routing<K>): Routed<K>
    requires r.active in r.clients && r.active in cfgs
    requires BodyForLevel(b, q.episode.level) in r.clients && BodyForLevel(b, q.episode.level) in cfgs
  {
    var selected := BodyForLevel(b, q.episode.level);
    var bound := r.(active := selected, episode := Some(q.episode));
    if r.episode.None? && selected == r.active then
      if q.observer.RaisesInBinding? then Routed(r, None) else Perform(cfgs, bound, None, q.tick, q.observer)
    else
      var s := Policy.Reset(r.clients[r.active], r.pitch, false, WriteTo(q.writes, r.active));
      var left := r.clients[r.active := s.client];
      if s.action.None? || q.observer.RaisesInBinding? then Routed(r.(clients := left), None)
      else Perform(cfgs, bound.(clients := left), s.action, q.tick, q.observer)
  }

  /** The needed body is not usable: release, unless the active body is itself loading, and let go of the
      observer. */
  function Refuse<K(==)>(r: Router<K>, activeBusy: bool, writes: map<K, Policy.ResetWrite>, observer: Observer)
    : Routed<K>
    requires r.active in r.clients
  {
    if activeBusy then
      if observer.RaisesInBinding? then Routed(r, None)
      else Routed(r.(episode := None), Some(Neutral(r.lastSequence)))
    else
      var s := Policy.Reset(r.clients[r.active], r.pitch, true, WriteTo(writes, r.active));
      var left := r.(clients := r.clients[r.active := s.client]);
      var merged := if s.action.None? then None else Constructed(Merge(Neutral(r.lastSequence), s.action.value));
      if merged.None? || observer.RaisesInBinding? then Routed(left, None) else Routed(left.(episode := None), merged)
  }

  function Act<K(==)>(b: Bodies<K>, cfgs: map<K, Policy.Config>, r: Router<K>, q: Routing<K>): Routed<K>
    requires Wired(b, cfgs, r)
  {
    var now := r.(lastSequence := if q.sequence <= r.lastSequence then r.lastSequence + 1 else q.sequence);
    if r.episode.Some? && r.episode.value.id == q.episode.id then Perform(cfgs, now, None, q.tick, q.observer)
    else match q.warmth
      case Loading(activeBusy) => Refuse(now, activeBusy, q.writes, q.observer)
      case WarmupRaises => Routed(now, None)
      case Ready => Bind(b, cfgs, now, q)
  }

  /** Reset the bodies `ks` in order, gathering what each lets go of into `release`. */
  function ResetBodies<K(==)>(r: Router<K>, ks: seq<K>, writes: map<K, Policy.ResetWrite>, release: MotorAction)
    : Routed<K>
    requires forall k :: k in ks ==> k in r.clients
    decreases |ks|
  {
    if ks == [] then Routed(r, Some(release))
    else
      var s := Policy.Reset(r.clients[ks[0]], r.pitch, true, WriteTo(writes, ks[0]));
      var left := r.(clients := r.clients[ks[0] := s.client]);
      var merged := if s.action.None? then None else Constructed(Merge(release, s.action.value));
      if merged.None? then Routed(left, None) else ResetBodies(left, ks[1..], writes, merged.value)
  }

  // How a reset goes on the outside: the writes to the workers, and whether letting go of the observer raises.
  datatype Resetting<K> = Resetting(writes: map<K, Policy.ResetWrite>, observerRaises: bool)

  function Reset<K(==)>(b: Bodies<K>, cfgs: map<K, Policy.Config>, r: Router<K>, how: Resetting<K>): Routed<K>
    requires Wired(b, cfgs, r)
  {
    var out := ResetBodies(r, UniqueBodies(b), how.writes, Neutral(r.lastSequence + 1));
    if out.action.None? || how.observerRaises then Routed(out.router, None)
    else Routed(out.router.(lastSequence := r.lastSequence + 1, active := b.primary, episode := None), out.action)
  }

  /** Release the body but keep the option, and the observer, while a grounded target is being observed. */
  function ReleaseForObservation<K(==)>(
    b: Bodies<K>, cfgs: map<K, Policy.Config>, r: Router<K>, observing: bool, how: Resetting<K>): Routed<K>
    requires Wired(b, cfgs, r)
  {
    if !observing then Reset(b, cfgs, r, how)
    else
      var out := ResetBodies(r, UniqueBodies(b), how.writes, Neutral(r.lastSequence + 1));
      if out.action.None? then out
      else Routed(out.router.(lastSequence := r.lastSequence + 1), out.action)
  }

  function NotifyInputsReleased<K>(r: Router<K>): Router<K> {
    r.(clients := map k | k in r.clients :: Policy.NotifyReleased(r.clients[k]))
  }

  // --- Runs ------------------------------------------------------------------------------------

  datatype Call<K> =
    | ActCall(routing: Routing<K>)
    | ResetCall(how: Resetting<K>)
    | ObserveCall(observing: bool, how: Resetting<K>)
    | ReleasedCall  // the keyboard was physically released, and the router is told so

  // The router, the keyboard its actions are replayed on, and everything it has emitted.
  datatype Desk<K> = Desk(router: Router<K>, keyboard: Keyboard, emitted: seq<MotorAction>)

  function Emit<K>(d: Desk<K>, out: Routed<K>): Desk<K> {
    if out.action.None? then d.(router := out.router)
    else Desk(out.router, Press(d.keyboard, out.action.value), d.emitted + [out.action.value])
  }

  function Step<K(==)>(b: Bodies<K>, cfgs: map<K, Policy.Config>, d: Desk<K>, call: Call<K>): Desk<K>
    requires Wired(b, cfgs, d.router)
  {
    match call
    case ActCall(q) => Emit(d, Act(b, cfgs, d.router, q))
    case ResetCall(how) => Emit(d, Reset(b, cfgs, d.router, how))
    case ObserveCall(observing, how) => Emit(d, ReleaseForObservation(b, cfgs, d.router, observing, how))
    case ReleasedCall => d.(router := NotifyInputsReleased(d.router), keyboard := RELEASED)
  }

  /** A router nobody has called yet, at the pitch restored from the supervisor. */
  function Start<K(==)>(b: Bodies<K>, pitch: int): Router<K> {
    Router(map k | k in UniqueBodies(b) :: Policy.FRESH, pitch, b.primary, -1, None)
  }

  function World(actions: seq<MotorAction>): int {
    if actions == [] then 0 else World(actions[..|actions| - 1]) + WorldPitch(actions[|actions| - 1])
  }
}
