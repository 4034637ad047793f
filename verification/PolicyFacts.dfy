/** What one client guarantees, whatever its worker does. */
module PolicyFacts {
  import opened Common
  import opened Motor
  import opened PolicyModel

  /** At most one request is outstanding, and while it is, no camera motion is left over;
      horizontal motion is conserved. */
  ghost predicate Sound(cfg: Config, c: Client) {
    && c.ledger.inFlight == (if c.pending.Some? then 1 else 0)
    && (c.pending.Some? ==> c.pending.value.id < c.ledger.nextId)
    && (c.discard ==> c.pending.Some?)
    && (c.pending.Some? || cfg.maxStep == 0 ==> Drained(c.queue))
    && (Drained(c.queue) ==> c.queue.world)
    && c.ledger.predictedX == c.ledger.emittedX + c.queue.dx + c.ledger.droppedX
  }

  /** Holds nothing, has nothing queued, and owns no request whose answer may still act. */
  ghost predicate Quiet(c: Client) {
    c.held == RELEASED && Drained(c.queue) && (c.pending.None? || c.discard)
  }

  /** Draining empties nothing into thin air: the slice and the rest make up the horizontal queue. */
  lemma DrainBounded(cfg: Config, q: Queue, pitch: int)
    ensures var m := Drain(cfg, q, pitch);
            && m.dx + m.rest.dx == q.dx
            && (cfg.maxStep == 0 ==> Drained(m.rest))
            && (Drained(q) ==> Drained(m.rest) && m.dx == 0 && m.dy == 0 && m.pitch == pitch)
            && (Drained(m.rest) ==> m.rest.world)
            && (cfg.maxStep > 0 || Drained(q) ==> -100 <= m.dx <= 100 && -100 <= m.dy <= 100)
  {
  }

  /** Reading an answer clears the request it answers and touches neither keys nor camera. */
  lemma ConsumeKeeps(cfg: Config, c: Client, tick: Tick)
    requires Sound(cfg, c)
    ensures var k := Consume(c, tick);
            && k.client.held == c.held && k.client.lastSequence == c.lastSequence
            && k.client.queue == c.queue && k.client.ledger.emittedX == c.ledger.emittedX
            && Sound(cfg, k.client.(discard := k.client.discard && k.client.pending.Some?))
            && (k.client.pending.Some? ==> k.client == c)
            && (k.reading.Answer? ==> tick.reply.Line? && k.reading.record == tick.reply.record
                                      && k.client.pending.None?)
            && (k.reading.TooLate? ==> Sound(cfg, k.client))
            && (k.reading.Nothing? ==> k.client == c)
  {
  }

  lemma TowardShape(sequence: int, before: Keyboard, after: Keyboard)
    ensures var a := Toward(sequence, before, after);
            a.sequence == sequence && a.dx == 0 && a.dy == 0 && a.cursor.None? && a.world && a.durationMs == 0
  {
  }

  // --- Which way a call goes ------------------------------------------------------------------------

  // What the guards of an attempt decide, before any action is built. The client is the one the chosen
  // branch continues with.
  datatype Way =
    | Letting(client: Client)                   // release everything
    | Holding(client: Client)                   // hold, or let an expired hold go
    | Applying(client: Client, output: Output)  // apply a prediction
    | Breaking(client: Client)                  // an exception
    | Expiring(client: Client)                  // a deadline reported by the worker

  function AskWay(cfg: Config, c: Client, tick: Tick): Way {
    if !Drained(c.queue) then Holding(c)
    else if !tick.submitAccepted then Breaking(c)
    else Holding(Submit(cfg, c, tick))
  }

  function RespondWay(cfg: Config, c: Client, reading: Reading, tick: Tick): Way
    requires reading.Answer? || reading.Nothing?
  {
    if c.discard || reading.Nothing? then AskWay(cfg, c.(discard := false), tick)
    else if !reading.record.Prediction? then Breaking(c)
    else
      var o := reading.record.output;
      if o.latencyNs > cfg.deadlineNs || 0 < reading.deadline <= tick.clock.output then Letting(c)
      else if !o.admitted then Breaking(c)
      else Applying(c, o)
  }

  function WayOf(cfg: Config, c: Client, tick: Tick): Way {
    if tick.worker.Unavailable? then Breaking(Close(c))
    else
      var ready := if tick.worker.Restarted? then Close(c) else c;
      if ready.pending.Some? && tick.hung then Letting(Close(ready))
      else
        var k := Consume(ready, tick);
        match k.reading
        case Broken => Breaking(k.client)
        case TooLate => Expiring(k.client)
        case _ =>
          if k.client.pending.None? then RespondWay(cfg, k.client, k.reading, tick)
          else if tick.clock.pending <= k.client.pending.value.deadline then Holding(k.client)
          else Letting(k.client)
  }

  /** The turn a way leads to. */
  function Followed(cfg: Config, w: Way, pitch: int, tick: Tick): Turn {
    match w
    case Letting(d) => Releasing(d, pitch)
    case Holding(d) => Hold(cfg, d, pitch, tick)
    case Applying(d, o) => Apply(cfg, d, pitch, o, tick)
    case Breaking(d) => Fails(d, pitch)
    case Expiring(d) => Late(d, pitch)
  }

  lemma AttemptFollows(cfg: Config, c: Client, pitch: int, tick: Tick)
    ensures Attempt(cfg, c, pitch, tick) == Followed(cfg, WayOf(cfg, c, tick), pitch, tick)
  {
    hide Hold, Apply, Release;
    var ready := if tick.worker.Restarted? then Close(c) else c;
    var k := Consume(ready, tick);
    if (k.reading.Answer? || k.reading.Nothing?) && !k.client.discard {
      assert k.client.(discard := false) == k.client;
    }
  }

  /** Asking for a prediction keeps everything that is held or counted. */
  lemma AskWayKeeps(cfg: Config, c: Client, tick: Tick)
    requires Sound(cfg, c) && c.pending.None?
    ensures var w := AskWay(cfg, c, tick);
            && w.client.held == c.held && w.client.lastSequence == c.lastSequence
            && w.client.ledger.emittedX == c.ledger.emittedX
            && Sound(cfg, w.client) && Sound(cfg, Close(w.client)) && !w.Applying?
  {
  }

  /** On the way nothing is let go of, moved or added up; and a holding client is in order. */
  lemma WayKeeps(cfg: Config, c: Client, tick: Tick)
    requires Sound(cfg, c)
    ensures var w := WayOf(cfg, c, tick);
            && w.client.held == c.held && w.client.lastSequence == c.lastSequence
            && w.client.ledger.emittedX == c.ledger.emittedX
            && (if w.Breaking? then Sound(cfg, Close(w.client)) else Sound(cfg, w.client))
            && (w.Applying? ==> w.client.pending.None? && tick.reply == Line(tick.reply.id, Prediction(w.output)))
  {
    hide Consume, AskWay;
    var ready := if tick.worker.Restarted? then Close(c) else c;
    ConsumeKeeps(cfg, ready, tick);
    var k := Consume(ready, tick);
    if k.client.pending.None? && (k.client.discard || k.reading.Nothing?) {
      AskWayKeeps(cfg, k.client.(discard := false), tick);
    }
  }

  // --- The action that is built ----------------------------------------------------------------------

  function Kept(c: Client, tick: Tick): Keyboard { if HoldExpires(c, tick) then RELEASED else c.held }

  function HoldAction(cfg: Config, c: Client, pitch: int, tick: Tick): MotorAction {
    Steered(Toward(c.lastSequence, c.held, Kept(c, tick)), Drain(cfg, c.queue, pitch), c.queue.world)
  }

  function ApplyAction(cfg: Config, c: Client, pitch: int, o: Output): MotorAction {
    Steered(Toward(c.lastSequence, c.held, o.held), Drain(cfg, Enqueue(c, o).queue, pitch), o.world)
  }

  /** The action a call builds by holding or applying, if it comes to that. */
  function Built(cfg: Config, c: Client, pitch: int, tick: Tick): Option<MotorAction> {
    if tick.sceneBlocked || !tick.frame then None
    else match WayOf(cfg, c, tick)
      case Holding(d) => Some(HoldAction(cfg, d, pitch, tick))
      case Applying(d, o) => Some(ApplyAction(cfg, d, pitch, o))
      case _ => None
  }

  /** The action constructor refuses it. */
  predicate Refused(cfg: Config, c: Client, pitch: int, tick: Tick) {
    var a := Built(cfg, c, pitch, tick); a.Some? && !Admissible(a.value)
  }

  /** A hold is over, and what was held does not fit in one release. The held set is cleared first, so the
      retry after the refusal sees nothing held. */
  predicate Forgets(cfg: Config, c: Client, tick: Tick) {
    && !tick.sceneBlocked && tick.frame
    && WayOf(cfg, c, tick).Holding? && HoldExpires(WayOf(cfg, c, tick).client, tick) && !Fits(c.held)
  }

  /** The call ends in a release of everything held. */
  predicate LetsGo(cfg: Config, c: Client, pitch: int, tick: Tick) {
    || tick.sceneBlocked || !tick.frame
    || var w := WayOf(cfg, c, tick);
       w.Letting? || w.Breaking? || w.Expiring? || (w.Applying? && Refused(cfg, c, pitch, tick))
  }

  lemma TowardSizes(sequence: int, before: Keyboard, after: Keyboard, m: Motion, world: bool)
    ensures var a := Steered(Toward(sequence, before, after), m, world);
            && a.sequence == sequence && a.dx == m.dx && a.dy == m.dy && a.world == world
            && Press(before, a) == after && a.keysDown !! a.keysUp && a.buttonsDown !! a.buttonsUp
            && (before == after ==> a.keysDown == a.keysUp == a.buttonsDown == a.buttonsUp == {})
            && (after == RELEASED ==>
                  a.keysDown == a.buttonsDown == {} && a.keysUp == before.keys && a.buttonsUp == before.buttons)
  {
    TowardArrives(sequence, before, after);
  }

  /** A release fits exactly when what is held does. */
  lemma ReleaseOutcome(c: Client, pitch: int)
    requires 0 <= c.lastSequence
    ensures var s := Release(c, pitch);
            if Fits(c.held) then
              && s == Step(ClearInput(c), pitch, s.action)
              && s.action == Some(Neutral(c.lastSequence).(keysUp := c.held.keys, buttonsUp := c.held.buttons))
              && Admissible(s.action.value) && Press(c.held, s.action.value) == RELEASED
            else s == Step(c, pitch, None)
  {
    var a := Toward(c.lastSequence, c.held, RELEASED);
    assert a == Neutral(c.lastSequence).(keysUp := c.held.keys, buttonsUp := c.held.buttons);
  }

  /** A hold is refused only for an expired release that does not fit: its motion is always small. */
  lemma HoldOutcome(cfg: Config, c: Client, pitch: int, tick: Tick)
    requires Sound(cfg, c) && 0 <= c.lastSequence
    ensures var a := HoldAction(cfg, c, pitch, tick);
            var m := Drain(cfg, c.queue, pitch);
            && (Admissible(a) <==> !HoldExpires(c, tick) || Fits(c.held))
            && var t := Hold(cfg, c, pitch, tick);
               && t == (if Admissible(a) then Emits(t.client, m.pitch, a) else Fails(t.client, m.pitch))
               && t.client.held == Kept(c, tick) && t.client.lastSequence == c.lastSequence && Sound(cfg, t.client)
               && t.client.ledger.emittedX == c.ledger.emittedX + m.dx
  {
    hide Drain, HoldExpires, HoldDeadline, Toward;
    DrainBounded(cfg, c.queue, pitch);
    TowardSizes(c.lastSequence, c.held, Kept(c, tick), Drain(cfg, c.queue, pitch), c.queue.world);
    TowardShape(c.lastSequence, c.held, Kept(c, tick));
  }

  lemma ApplyOutcome(cfg: Config, c: Client, pitch: int, o: Output, tick: Tick)
    requires Sound(cfg, c) && c.pending.None? && 0 <= c.lastSequence
    ensures var a := ApplyAction(cfg, c, pitch, o);
            var m := Drain(cfg, Enqueue(c, o).queue, pitch);
            var t := Apply(cfg, c, pitch, o, tick);
            && t == (if Admissible(a) then Emits(t.client, m.pitch, a) else Fails(t.client, m.pitch))
            && t.client.held == (if Admissible(a) then o.held else c.held)
            && t.client.lastSequence == c.lastSequence && Sound(cfg, t.client)
            && t.client.ledger.emittedX == c.ledger.emittedX + m.dx
  {
    hide Drain, Toward, Steered, Admissible;
    DrainBounded(cfg, Enqueue(c, o).queue, pitch);
  }

  // --- What a call does ------------------------------------------------------------------------------

  /** The motion a step emitted on the world camera. */
  function Emitted(s: Step): int { if s.action.Some? then WorldPitch(s.action.value) else 0 }

  function EmittedX(s: Step): int { if s.action.Some? then s.action.value.dx else 0 }

  /** Motion counted as emitted by an action that the constructor then refused. */
  function LostX(cfg: Config, c: Client, pitch: int, tick: Tick): int {
    if Refused(cfg, c, pitch, tick) then Built(cfg, c, pitch, tick).value.dx else 0
  }

  function LostY(cfg: Config, c: Client, pitch: int, tick: Tick): int {
    if Refused(cfg, c, pitch, tick) then WorldPitch(Built(cfg, c, pitch, tick).value) else 0
  }

  /** A client that has taken the sequence number of the call it is in. */
  function Facing(c: Client, sequence: int): Client { c.(lastSequence := sequence) }

  /** A step leaves a sound client at the call's sequence. It raises exactly when everything must be let
      go of and does not fit in one release, and then nothing changes hands; otherwise replaying its action
      takes a keyboard showing the held tokens to the new held tokens, unless a hold was forgotten. */
  ghost predicate Outcome(cfg: Config, c: Client, pitch: int, tick: Tick, s: Step) {
    && Sound(cfg, s.client) && s.client.lastSequence == c.lastSequence
    && (s.action.None? <==> LetsGo(cfg, c, pitch, tick) && !Fits(c.held))
    && (s.action.None? ==> s.client.held == c.held)
    && (s.action.Some? ==>
          && Admissible(s.action.value) && s.action.value.sequence == c.lastSequence
          && s.action.value.keysDown !! s.action.value.keysUp
          && s.action.value.buttonsDown !! s.action.value.buttonsUp
          && (Press(c.held, s.action.value) == s.client.held <==> !Forgets(cfg, c, tick)))
    && (Forgets(cfg, c, tick) ==> s.client.held == RELEASED && s.action.Some?)
  }

  /** The step's ledgers move by what its action emits and what a refused action lost. */
  ghost predicate Accounts(cfg: Config, c: Client, pitch: int, tick: Tick, s: Step) {
    && s.client.ledger.emittedX - c.ledger.emittedX == EmittedX(s) + LostX(cfg, c, pitch, tick)
    && s.pitch - pitch == if cfg.pitchLimit > 0 then Emitted(s) + LostY(cfg, c, pitch, tick) else 0
  }

  lemma ReleaseEnds(cfg: Config, c: Client, d: Client, pitch: int)
    requires Sound(cfg, d) && d.held == c.held && d.lastSequence == c.lastSequence && 0 <= c.lastSequence
    ensures var s := Release(d, pitch);
            && Sound(cfg, s.client) && s.client.lastSequence == c.lastSequence && s.pitch == pitch
            && s.client.ledger.emittedX == d.ledger.emittedX && EmittedX(s) == 0 && Emitted(s) == 0
            && (s.action.None? <==> !Fits(c.held))
            && (s.action.None? ==> s.client.held == c.held)
            && (s.action.Some? ==>
                  && Admissible(s.action.value) && s.action.value.sequence == c.lastSequence
                  && s.action.value.keysDown == {} && s.action.value.buttonsDown == {}
                  && s.client.held == RELEASED && Press(c.held, s.action.value) == RELEASED)
  {
    hide Release, Fits, Admissible, Press;
    ReleaseOutcome(d, pitch);
  }

  lemma HoldEnds(cfg: Config, c: Client, pitch: int, tick: Tick)
    requires Sound(cfg, c) && 0 <= c.lastSequence && !tick.sceneBlocked && tick.frame
    requires WayOf(cfg, c, tick).Holding?
    ensures var s := Concluded(Followed(cfg, WayOf(cfg, c, tick), pitch, tick));
            Outcome(cfg, c, pitch, tick, s) && Accounts(cfg, c, pitch, tick, s)
  {
    hide WayOf, Hold, Release, Drain, Admissible, HoldExpires, Press, Toward, Fits;
    WayKeeps(cfg, c, tick);
    var d := WayOf(cfg, c, tick).client;
    HoldOutcome(cfg, d, pitch, tick);
    HoldTracks(cfg, d, pitch, tick);
    TowardSizes(d.lastSequence, d.held, Kept(d, tick), Drain(cfg, d.queue, pitch), d.queue.world);
    var t := Hold(cfg, d, pitch, tick);
    if t.Fails? {
      CloseSound(cfg, t.client);
      NothingFits();
      ReleaseOutcome(Close(t.client), t.pitch);
      ReleaseEnds(cfg, Close(t.client), Close(t.client), t.pitch);
      LeftPressed(c.held, Release(Close(t.client), t.pitch).action.value);
      OverfullIsSomething(c.held);
    }
  }

  lemma ApplyEnds(cfg: Config, c: Client, pitch: int, tick: Tick)
    requires Sound(cfg, c) && 0 <= c.lastSequence && !tick.sceneBlocked && tick.frame
    requires WayOf(cfg, c, tick).Applying?
    ensures var s := Concluded(Followed(cfg, WayOf(cfg, c, tick), pitch, tick));
            Outcome(cfg, c, pitch, tick, s) && Accounts(cfg, c, pitch, tick, s)
  {
    hide WayOf, Apply, Release, Drain, Admissible, Press, Toward, Fits;
    WayKeeps(cfg, c, tick);
    var d, o := WayOf(cfg, c, tick).client, WayOf(cfg, c, tick).output;
    ApplyOutcome(cfg, d, pitch, o, tick);
    ApplyTracks(cfg, d, pitch, o);
    TowardSizes(d.lastSequence, d.held, o.held, Drain(cfg, Enqueue(d, o).queue, pitch), o.world);
    var t := Apply(cfg, d, pitch, o, tick);
    if t.Fails? {
      CloseSound(cfg, t.client);
      ReleaseEnds(cfg, c, Close(t.client), t.pitch);
    }
  }

  lemma CloseSound(cfg: Config, c: Client)
    requires Sound(cfg, c)
    ensures Sound(cfg, Close(c)) && Close(c).held == c.held && Close(c).lastSequence == c.lastSequence
    ensures Close(c).ledger.emittedX == c.ledger.emittedX
  {
  }

  lemma NothingFits()
    ensures Fits(RELEASED)
  {
  }

  lemma LeftPressed(kb: Keyboard, a: MotorAction)
    requires a.keysDown == a.keysUp == a.buttonsDown == a.buttonsUp == {}
    ensures Press(kb, a) == kb
  {
  }

  lemma OverfullIsSomething(kb: Keyboard)
    ensures !Fits(kb) ==> kb != RELEASED
  {
  }

  /** The pitch moves by the slice that is built into the action. */
  lemma HoldTracks(cfg: Config, c: Client, pitch: int, tick: Tick)
    ensures var m := Drain(cfg, c.queue, pitch);
            var a := HoldAction(cfg, c, pitch, tick);
            a.dx == m.dx && m.pitch - pitch == if cfg.pitchLimit > 0 then WorldPitch(a) else 0
  {
    hide Toward;
  }

  lemma ApplyTracks(cfg: Config, c: Client, pitch: int, o: Output)
    ensures var m := Drain(cfg, Enqueue(c, o).queue, pitch);
            var a := ApplyAction(cfg, c, pitch, o);
            a.dx == m.dx && m.pitch - pitch == if cfg.pitchLimit > 0 then WorldPitch(a) else 0
  {
    hide Toward;
  }

  /** The whole call, for any held set, any prediction and any limits. */
  lemma ActOutcome(cfg: Config, c: Client, pitch: int, sequence: nat, tick: Tick)
    requires Sound(cfg, c) && c.lastSequence < sequence
    ensures var s := Act(cfg, c, pitch, sequence, tick);
            Outcome(cfg, Facing(c, sequence), pitch, tick, s) && Accounts(cfg, Facing(c, sequence), pitch, tick, s)
  {
    hide WayOf, Attempt, Release, Fits, Admissible, Press, Hold, Apply;
    var now := Facing(c, sequence);
    if tick.sceneBlocked || !tick.frame {
      ReleaseEnds(cfg, now, now, pitch);
    } else {
      AttemptFollows(cfg, now, pitch, tick);
      WayKeeps(cfg, now, tick);
      match WayOf(cfg, now, tick)
      case Holding(_) => HoldEnds(cfg, now, pitch, tick);
      case Applying(_, _) => ApplyEnds(cfg, now, pitch, tick);
      case Letting(d) =>
        ReleaseEnds(cfg, now, d, pitch);
        ReleaseOutcome(d, pitch);
        CloseSound(cfg, d);
        ReleaseEnds(cfg, now, Close(d), pitch);
      case Breaking(d) => ReleaseEnds(cfg, now, Close(d), pitch);
      case Expiring(d) => ReleaseEnds(cfg, now, d, pitch);
    }
  }

  // --- Retired requests ----------------------------------------------------------------------

  /** A turn that presses nothing and moves nothing. */
  ghost predicate Idle(c: Client, pitch: int, t: Turn) {
    && t.client.held == RELEASED && t.pitch == pitch && t.client.lastSequence == c.lastSequence
    && t.client.ledger.emittedX == c.ledger.emittedX
    && (t.Emits? ==> t.action == Neutral(c.lastSequence).(durationMs := t.action.durationMs))
  }

  lemma HoldIdle(cfg: Config, c: Client, pitch: int, tick: Tick)
    requires c.held == RELEASED && c.queue == EMPTY && 0 <= c.lastSequence
    ensures Idle(c, pitch, Hold(cfg, c, pitch, tick))
  {
    DrainBounded(cfg, c.queue, pitch);
  }

  lemma AskIdle(cfg: Config, c: Client, pitch: int, tick: Tick)
    requires c.held == RELEASED && c.queue == EMPTY && 0 <= c.lastSequence
    ensures Idle(c, pitch, Ask(cfg, c, pitch, tick))
  {
    hide Hold;
    HoldIdle(cfg, Submit(cfg, c, tick), pitch, tick);
  }

  lemma SettleIdle(cfg: Config, c: Client, pitch: int, tick: Tick)
    requires Sound(cfg, c) && Quiet(c) && 0 <= c.lastSequence
    ensures Idle(c, pitch, Settle(cfg, Consume(c, tick), pitch, tick))
  {
    hide Hold, Ask, Apply;
    HoldIdle(cfg, c, pitch, tick);
    AskIdle(cfg, Consume(c, tick).client.(discard := false), pitch, tick);
  }

  /** A step that presses nothing and moves nothing. */
  ghost predicate StepIdle(c: Client, pitch: int, s: Step) {
    && s.client.held == RELEASED && s.client.lastSequence == c.lastSequence && s.pitch == pitch
    && s.client.ledger.emittedX == c.ledger.emittedX
    && s.action.Some? && s.action.value == Neutral(c.lastSequence).(durationMs := s.action.value.durationMs)
  }

  lemma ReleaseIdle(c: Client, pitch: int)
    requires c.held == RELEASED && 0 <= c.lastSequence
    ensures StepIdle(c, pitch, Release(c, pitch))
  {
  }

  lemma ConcludedIdle(c: Client, pitch: int, t: Turn)
    requires Idle(c, pitch, t) && 0 <= c.lastSequence
    ensures StepIdle(c, pitch, Concluded(t))
  {
    hide Release;
    match t
    case Emits(_, _, _) =>
    case Late(d, p) => ReleaseIdle(d, p);
    case Fails(d, p) => ReleaseIdle(Close(d), p);
  }

  lemma AttemptIdle(cfg: Config, c: Client, pitch: int, tick: Tick)
    requires Sound(cfg, c) && Quiet(c) && 0 <= c.lastSequence
    ensures Idle(c, pitch, Attempt(cfg, c, pitch, tick))
  {
    hide Settle, Release;
    var ready := if tick.worker.Restarted? then Close(c) else c;
    SettleIdle(cfg, ready, pitch, tick);
    ReleaseIdle(Close(ready), pitch);
  }

  /** A quiet client presses nothing and moves nothing in its next call, whatever arrives. */
  lemma ActQuiet(cfg: Config, c: Client, pitch: int, sequence: nat, tick: Tick)
    requires Sound(cfg, c) && Quiet(c) && c.lastSequence < sequence
    ensures StepIdle(Facing(c, sequence), pitch, Act(cfg, c, pitch, sequence, tick))
  {
    hide Attempt, Release, Concluded, StepIdle, Idle;
    var now := c.(lastSequence := sequence);
    AttemptIdle(cfg, now, pitch, tick);
    ConcludedIdle(now, pitch, Attempt(cfg, now, pitch, tick));
    ReleaseIdle(now, pitch);
  }

  /** Replace the content of a prediction, keeping the request it answers. */
  function WithOutput(tick: Tick, o: Output): Tick
    requires tick.reply.Line?
  {
    tick.(reply := Line(tick.reply.id, Prediction(o)))
  }

  lemma HoldIgnoresReply(cfg: Config, c: Client, pitch: int, tick: Tick, reply: Reply)
    ensures Hold(cfg, c, pitch, tick.(reply := reply)) == Hold(cfg, c, pitch, tick)
  {
    hide Drain, Toward, Admissible, Steered;
  }

  lemma AskIgnoresReply(cfg: Config, c: Client, pitch: int, tick: Tick, reply: Reply)
    ensures Ask(cfg, c, pitch, tick.(reply := reply)) == Ask(cfg, c, pitch, tick)
  {
    hide Hold;
    HoldIgnoresReply(cfg, c, pitch, tick, reply);
    HoldIgnoresReply(cfg, Submit(cfg, c, tick), pitch, tick, reply);
  }

  lemma RetiredSettleIsInert(cfg: Config, c: Client, pitch: int, tick: Tick, o: Output)
    requires c.discard == c.pending.Some? && tick.reply.Line? && tick.reply.record.Prediction?
    ensures Settle(cfg, Consume(c, WithOutput(tick, o)), pitch, WithOutput(tick, o))
            == Settle(cfg, Consume(c, tick), pitch, tick)
  {
    hide Ask, Hold, Apply, Releasing;
    HoldIgnoresReply(cfg, c, pitch, tick, WithOutput(tick, o).reply);
    AskIgnoresReply(cfg, c.(discard := false), pitch, tick, WithOutput(tick, o).reply);
    AskIgnoresReply(cfg, Consume(c, tick).client.(discard := false), pitch, tick, WithOutput(tick, o).reply);
  }

  /** Once a request is retired, what the worker predicted for it has no effect at all: the same
      action is returned and the same client and pitch are left, whatever the prediction says. */
  lemma RetiredPredictionIsInert(cfg: Config, c: Client, pitch: int, sequence: int, tick: Tick, o: Output)
    requires Sound(cfg, c) && c.discard && tick.reply.Line? && tick.reply.record.Prediction?
    ensures Act(cfg, c, pitch, sequence, WithOutput(tick, o)) == Act(cfg, c, pitch, sequence, tick)
  {
    hide Settle, Consume, Release;
    var now := c.(lastSequence := sequence);
    RetiredSettleIsInert(cfg, if tick.worker.Restarted? then Close(now) else now, pitch, tick, o);
  }

  /** Resetting returns exactly the release of what was held and leaves the client quiet, or raises because
      the release does not fit or writing the command did, with everything still held. The request is retired
      in any case, and the sequence advanced unless the write raised. */
  lemma RetiringQuiets(cfg: Config, c: Client, pitch: int, advance: bool, write: ResetWrite)
    requires Sound(cfg, c)
    ensures var s := Reset(c, pitch, advance, write);
            && Sound(cfg, s.client) && s.pitch == pitch && s.client.discard == s.client.pending.Some?
            && s.client.lastSequence
               == (if write.Escapes? then c.lastSequence else Max(0, c.lastSequence + if advance then 1 else 0))
            && s.client.ledger.emittedX == c.ledger.emittedX && (Quiet(c) ==> Quiet(s.client))
            && if Fits(c.held) && !write.Escapes? then
                 && Quiet(s.client) && s.action.Some? && Admissible(s.action.value)
                 && s.action.value
                    == Neutral(s.client.lastSequence).(keysUp := c.held.keys, buttonsUp := c.held.buttons)
               else s.action.None? && s.client.held == c.held
  {
    var retired := RetirePending(c);
    var d := if write.Closes? then Close(retired) else retired;
    ReleaseOutcome(d.(lastSequence := Max(0, c.lastSequence + if advance then 1 else 0)), pitch);
  }

  /** An external release leaves the client sound and quiet. */
  lemma NotifyingQuiets(cfg: Config, c: Client)
    requires Sound(cfg, c)
    ensures Sound(cfg, NotifyReleased(c)) && Quiet(NotifyReleased(c))
            && NotifyReleased(c).lastSequence == c.lastSequence
            && NotifyReleased(c).ledger.emittedX == c.ledger.emittedX
  {
  }

  // --- When a built action is refused -----------------------------------------------------------------

  /** Going from one held set to the other presses or lets go of more tokens than one action may. */
  predicate Crowded(before: Keyboard, after: Keyboard) {
    || |after.keys - before.keys| > MAX_TOKENS || |before.keys - after.keys| > MAX_TOKENS
    || |after.buttons - before.buttons| > MAX_TOKENS || |before.buttons - after.buttons| > MAX_TOKENS
  }

  /** Vertical motion of a prediction that no step bound slices. */
  function Vertical(cfg: Config, pitch: int, o: Output): int {
    if cfg.pitchLimit > 0 && o.world then Enveloped(cfg.pitchLimit, pitch, o.dy) else o.dy
  }

  /** Without a step bound, a prediction moves farther than one action may. */
  predicate Hurried(cfg: Config, pitch: int, o: Output) {
    cfg.maxStep == 0 && (Abs(o.dx) > MAX_MOTION || Abs(Vertical(cfg, pitch, o)) > MAX_MOTION)
  }

  /** The exact case in which the action constructor refuses what a call built: an expired hold that does not
      fit in one release, or a prediction that changes too many tokens or moves too far. */
  lemma RefusedWhen(cfg: Config, c: Client, pitch: int, tick: Tick)
    requires Sound(cfg, c) && 0 <= c.lastSequence
    ensures Refused(cfg, c, pitch, tick) <==>
              && !tick.sceneBlocked && tick.frame
              && match WayOf(cfg, c, tick)
                 case Holding(d) => HoldExpires(d, tick) && !Fits(c.held)
                 case Applying(_, o) => Crowded(c.held, o.held) || Hurried(cfg, pitch, o)
                 case _ => false
  {
    hide WayOf, Drain, HoldExpires, Fits, Toward, Crowded, Hurried, Admissible;
    WayKeeps(cfg, c, tick);
    match WayOf(cfg, c, tick)
    case Holding(d) => HoldOutcome(cfg, d, pitch, tick);
    case Applying(d, o) => ApplyRefusedWhen(cfg, d, pitch, o);
    case _ =>
  }

  lemma ApplyRefusedWhen(cfg: Config, c: Client, pitch: int, o: Output)
    requires Sound(cfg, c) && c.pending.None? && 0 <= c.lastSequence
    ensures Admissible(ApplyAction(cfg, c, pitch, o)) <==> !Crowded(c.held, o.held) && !Hurried(cfg, pitch, o)
  {
    hide Enveloped, Enqueue;
    ApplyMotion(cfg, c, pitch, o);
    DrainBounded(cfg, Enqueue(c, o).queue, pitch);
  }

  lemma ApplyMotion(cfg: Config, c: Client, pitch: int, o: Output)
    requires Sound(cfg, c)
    ensures var m := Drain(cfg, Enqueue(c, o).queue, pitch);
            cfg.maxStep == 0 ==> m.dx == o.dx && m.dy == Vertical(cfg, pitch, o)
  {
    hide Enveloped;
  }

  /** The pitch estimate moves by exactly the world motion of the returned action unless a refused action
      turned the camera, and the horizontal ledger by exactly its `dx` unless a refused action moved it. */
  lemma ActTracksCamera(cfg: Config, c: Client, pitch: int, sequence: nat, tick: Tick)
    requires Sound(cfg, c) && c.lastSequence < sequence
    ensures var s, now := Act(cfg, c, pitch, sequence, tick), Facing(c, sequence);
            var a := Built(cfg, now, pitch, tick);
            && (0 < cfg.pitchLimit ==>
                  (s.pitch == pitch + Emitted(s) <==>
                     !(Refused(cfg, now, pitch, tick) && WorldPitch(a.value) != 0)))
            && (s.client.ledger.emittedX == c.ledger.emittedX + EmittedX(s) <==>
                  !(Refused(cfg, now, pitch, tick) && a.value.dx != 0))
  {
    hide Act, Built, WayOf;
    ActOutcome(cfg, c, pitch, sequence, tick);
  }

  // --- Ticks that refuse nothing ----------------------------------------------------------------------

  /** Checkable before the call: a prediction in this tick names no more tokens than one action may. */
  predicate SmallTick(t: Tick) { t.reply.Line? && t.reply.record.Prediction? ==> Fits(t.reply.record.output.held) }

  /** And no more motion, where no step bound slices it. */
  predicate SlowTick(cfg: Config, t: Tick) {
    cfg.maxStep == 0 && t.reply.Line? && t.reply.record.Prediction? ==>
      Abs(t.reply.record.output.dx) <= MAX_MOTION && Abs(t.reply.record.output.dy) <= MAX_MOTION
  }

  lemma FittingIsNotCrowded(before: Keyboard, after: Keyboard)
    requires Fits(before) && Fits(after)
    ensures !Crowded(before, after)
  {
    TowardFits(0, before, after);
  }

  /** An envelope never lengthens a vertical motion. */
  lemma SlowIsNotHurried(cfg: Config, pitch: int, o: Output)
    requires Abs(o.dx) <= MAX_MOTION && Abs(o.dy) <= MAX_MOTION
    ensures !Hurried(cfg, pitch, o)
  {
  }

  /** The call, branch by branch. */
  lemma Takes(cfg: Config, c: Client, pitch: int, sequence: int, tick: Tick)
    requires c.lastSequence < sequence && !tick.sceneBlocked && tick.frame
    ensures Act(cfg, c, pitch, sequence, tick)
            == Concluded(Followed(cfg, WayOf(cfg, Facing(c, sequence), tick), pitch, tick))
  {
    hide WayOf, Followed, Attempt, Concluded;
    AttemptFollows(cfg, Facing(c, sequence), pitch, tick);
  }

  /** What is still held after letting go: everything, if it does not fit in one release. */
  function LetGo(held: Keyboard): Keyboard { if Fits(held) then RELEASED else held }

  /** What a call will hold, by its guards. */
  function Holds(cfg: Config, c: Client, pitch: int, tick: Tick): Keyboard {
    if tick.sceneBlocked || !tick.frame then LetGo(c.held)
    else match WayOf(cfg, c, tick)
      case Holding(d) => Kept(d, tick)
      case Applying(_, o) => if Crowded(c.held, o.held) || Hurried(cfg, pitch, o) then LetGo(c.held) else o.held
      case _ => LetGo(c.held)
  }

  lemma ActHolds(cfg: Config, c: Client, pitch: int, sequence: nat, tick: Tick)
    requires Sound(cfg, c) && c.lastSequence < sequence
    ensures Act(cfg, c, pitch, sequence, tick).client.held == Holds(cfg, Facing(c, sequence), pitch, tick)
  {
    hide WayOf, Attempt, Release, Fits, Hold, Apply, HoldExpires, Crowded, Hurried, Admissible, Drain;
    var now := Facing(c, sequence);
    if tick.sceneBlocked || !tick.frame {
      ReleaseEnds(cfg, now, now, pitch);
    } else {
      Takes(cfg, c, pitch, sequence, tick);
      WayKeeps(cfg, now, tick);
      match WayOf(cfg, now, tick)
      case Holding(d) =>
        HoldOutcome(cfg, d, pitch, tick);
        NothingFits();
        var t := Hold(cfg, d, pitch, tick);
        if t.Fails? {
          CloseSound(cfg, t.client);
          ReleaseEnds(cfg, Close(t.client), Close(t.client), t.pitch);
        }
      case Applying(d, o) =>
        ApplyOutcome(cfg, d, pitch, o, tick);
        ApplyRefusedWhen(cfg, d, pitch, o);
        var t := Apply(cfg, d, pitch, o, tick);
        if t.Fails? {
          CloseSound(cfg, t.client);
          ReleaseEnds(cfg, now, Close(t.client), t.pitch);
        }
      case Letting(d) =>
        ReleaseOutcome(d, pitch);
        ReleaseEnds(cfg, now, d, pitch);
        CloseSound(cfg, d);
        ReleaseEnds(cfg, now, Close(d), pitch);
      case Breaking(d) => ReleaseEnds(cfg, now, Close(d), pitch);
      case Expiring(d) => ReleaseEnds(cfg, now, d, pitch);
    }
  }

  /** While no prediction asks for more than one action may carry, no call raises, none forgets a hold, and
      none is refused its action. */
  lemma SmallActs(cfg: Config, c: Client, pitch: int, sequence: nat, tick: Tick)
    requires Sound(cfg, c) && Fits(c.held) && c.lastSequence < sequence && SmallTick(tick)
    ensures var s, now := Act(cfg, c, pitch, sequence, tick), Facing(c, sequence);
            && s.action.Some? && Fits(s.client.held) && !Forgets(cfg, now, tick)
            && (SlowTick(cfg, tick) ==> !Refused(cfg, now, pitch, tick))
  {
    hide Act, WayOf, Fits, Crowded, Built, Admissible, Refused, Press, HoldExpires, LetsGo, Vertical;
    var now := Facing(c, sequence);
    NothingFits();
    WayKeeps(cfg, now, tick);
    ActOutcome(cfg, c, pitch, sequence, tick);
    RefusedWhen(cfg, now, pitch, tick);
    ActHolds(cfg, c, pitch, sequence, tick);
    if WayOf(cfg, now, tick).Applying? {
      var o := WayOf(cfg, now, tick).output;
      FittingIsNotCrowded(c.held, o.held);
      if Abs(o.dx) <= MAX_MOTION && Abs(o.dy) <= MAX_MOTION {
        SlowIsNotHurried(cfg, pitch, o);
      }
    }
  }

  // --- The viewing envelope ---------------------------------------------------------------------------

  /** A call leaves the pitch alone or moves it as one drained slice does. */
  ghost predicate OneSlice(cfg: Config, before: int, after: int) {
    after == before || exists q :: after == Drain(cfg, q, before).pitch
  }

  lemma ActMovesOneSlice(cfg: Config, c: Client, pitch: int, sequence: int, tick: Tick)
    ensures OneSlice(cfg, pitch, Act(cfg, c, pitch, sequence, tick).pitch)
  {
    hide Attempt, WayOf, Drain, Toward, Steered, Admissible, HoldExpires, HoldDeadline, Enqueue;
    AttemptFollows(cfg, Facing(c, sequence), pitch, tick);
  }

  /** No slice leaves a range of this extent, which may be wider than the body's own envelope. */
  predicate Confining(cfg: Config, extent: nat) {
    || cfg.pitchLimit == 0 || cfg.pitchLimit == extent
    || (cfg.pitchLimit < extent && 0 < cfg.maxStep <= cfg.pitchLimit + extent + 1)
  }

  /** The range of a given extent is never left exactly when the body does not track pitch, has it as its
      envelope, or has a smaller envelope and steps too short to jump across it. */
  lemma StaysInsideIff(cfg: Config, extent: nat)
    ensures Confining(cfg, extent) <==>
              (forall q, pitch :: Abs(pitch) <= extent ==> Abs(Drain(cfg, q, pitch).pitch) <= extent)
  {
    if !Confining(cfg, extent) {
      var far := Queue(0, -20000 - 2 * extent, true);
      if cfg.pitchLimit > extent {
        assert Abs(Drain(cfg, Queue(0, 20000, true), extent).pitch) > extent;
      } else if cfg.maxStep == 0 {
        assert Abs(Drain(cfg, far, extent).pitch) > extent;
      } else {
        assert Abs(Drain(cfg, far, cfg.pitchLimit + 1).pitch) > extent;
      }
    }
  }

  predicate Returning(cfg: Config) { cfg.pitchLimit == 0 || 0 < cfg.maxStep <= 2 * cfg.pitchLimit + 2 }

  /** From outside its envelope a body never moves farther outside exactly when one step cannot jump from one
      side to beyond the same distance on the other. */
  lemma NoFartherOutsideIff(cfg: Config)
    ensures Returning(cfg) <==>
              (forall q, pitch :: Abs(Drain(cfg, q, pitch).pitch) <= Max(Abs(pitch), cfg.pitchLimit))
  {
    if !Returning(cfg) {
      var out := cfg.pitchLimit + 1;
      assert Abs(Drain(cfg, Queue(0, -20000, true), out).pitch) > out;
    }
  }

  // --- Where the limits of one action break these promises, from a new client -------------------------

  /** The keys "a", "b", ... */
  function Letters(n: nat): (keys: set<Token>)
    requires n <= 26
    ensures |keys| == n
    ensures forall k :: k in keys ==> |k| == 1 && k[0] < ('a' as int + n) as char
  {
    if n == 0 then {} else Letters(n - 1) + {[('a' as int + n - 1) as char]}
  }

  const EXAMPLE: Config := Settings(12, 300, 1000)

  /** A quiet tick: nothing arrives, and a request can be written. */
  const WAITS := Tick(false, true, Alive, false, Silent, true, Clock(0, 0, 0, 0, 0), 10)

  function Predicts(id: nat, keys: set<Token>, dx: int, dy: int): Tick {
    WAITS.(reply := Line(id, Prediction(Output(Keyboard(keys, {}), dx, dy, true, 0, true, None))))
  }

  /** A client that has applied `n` predictions, holds `held`, and last acted at `at`. */
  function Applied(n: nat, held: set<Token>, at: int): Client {
    FRESH.(held := Keyboard(held, {}), heldUntil := if n == 0 then 0 else 10, lastSequence := at,
           ledger := Ledger(0, 0, 0, 0, n))
  }

  /** The same client after a call that asked for another prediction. */
  function Asked(n: nat, held: set<Token>, at: int): Client {
    Applied(n, held, at).(pending := Some(Request(n, 1000)), ledger := Ledger(0, 0, 0, 1, n + 1))
  }

  lemma Asks(cfg: Config, n: nat, held: set<Token>, last: int, at: nat)
    requires cfg.deadlineNs == 1000 && (n == 0 ==> held == {}) && last < at
    ensures Act(cfg, Applied(n, held, last), 0, at, WAITS)
            == Step(Asked(n, held, at), 0, Some(Neutral(at).(durationMs := 50)))
  {
    hide Act, WayOf, Hold, Release;
    Takes(cfg, Applied(n, held, last), 0, at, WAITS);
    assert Facing(Applied(n, held, last), at) == Applied(n, held, at);
    AsksNext(cfg, n, held, at);
    HoldsOn(cfg, n, held, at);
  }

  lemma AsksNext(cfg: Config, n: nat, held: set<Token>, at: nat)
    ensures var c := Applied(n, held, at); WayOf(cfg, c, WAITS) == Holding(Submit(cfg, c, WAITS))
  {
    var c := Applied(n, held, at);
    assert c.(discard := false) == c;
  }

  lemma HoldsOn(cfg: Config, n: nat, held: set<Token>, at: nat)
    requires cfg.deadlineNs == 1000 && (n == 0 ==> held == {})
    ensures Hold(cfg, Submit(cfg, Applied(n, held, at), WAITS), 0, WAITS)
            == Emits(Asked(n, held, at), 0, Neutral(at).(durationMs := 50))
  {
    var c := Applied(n, held, at);
    assert Toward(at, c.held, c.held) == Neutral(at);
    assert Drain(cfg, EMPTY, 0) == Motion(EMPTY, 0, 0, 0);
  }

  lemma Applies(n: nat, held: set<Token>, keys: set<Token>, dx: nat, last: int, at: nat)
    requires |keys - held| <= 16 && |held - keys| <= 16 && dx <= 24 && last < at
    ensures var s := Act(EXAMPLE, Asked(n, held, last), 0, at, Predicts(n, keys, dx, 0));
            && s.client == Applied(n + 1, keys, at).(queue := Queue(dx - Min(dx, 12), 0, true),
                                                     ledger := Ledger(dx, Min(dx, 12), 0, 0, n + 1))
            && s.pitch == 0 && s.action.Some? && s.action.value.dx == Min(dx, 12)
            && Press(Keyboard(held, {}), s.action.value) == Keyboard(keys, {})
  {
    var c := Facing(Asked(n, held, last), at);
    var d := c.(pending := None, ledger := c.ledger.(inFlight := 0));
    var o := Output(Keyboard(keys, {}), dx, 0, true, 0, true, None);
    TowardArrives(at, c.held, o.held);
    assert Consume(c, Predicts(n, keys, dx, 0)) == Consumed(d, Answer(Prediction(o), 1000));
    assert Apply(EXAMPLE, d, 0, o, Predicts(n, keys, dx, 0)).Emits?;
  }

  /** A client after two predictions, of sixteen keys and then of seventeen. */
  function Overfull(): Client {
    Applied(2, Letters(17), 3).(queue := Queue(8, 0, true), ledger := Ledger(20, 12, 0, 0, 2))
  }

  /** Four calls take a new client there; each prediction changes no more than sixteen keys. */
  lemma OverfullIsReached()
    ensures var c1 := Act(EXAMPLE, FRESH, 0, 0, WAITS).client;
            var c2 := Act(EXAMPLE, c1, 0, 1, Predicts(0, Letters(16), 0, 0)).client;
            var c3 := Act(EXAMPLE, c2, 0, 2, WAITS).client;
            var s := Act(EXAMPLE, c3, 0, 3, Predicts(1, Letters(17), 20, 0));
            && s.client == Overfull() && s.action.Some?
            && Press(Keyboard(Letters(16), {}), s.action.value) == Keyboard(Letters(17), {})
  {
    hide Act, Letters, Press;
    LettersAdded();
    assert Applied(0, {}, -1) == FRESH;
    Asks(EXAMPLE, 0, {}, -1, 0);
    Applies(0, {}, Letters(16), 0, 0, 1);
    Asks(EXAMPLE, 1, Letters(16), 1, 2);
    Applies(1, Letters(16), Letters(17), 20, 2, 3);
  }

  /** What the two predictions change. */
  lemma LettersAdded()
    ensures |Letters(16) - {}| == 16 && {} - Letters(16) == {}
    ensures |Letters(17) - Letters(16)| == 1 && Letters(16) - Letters(17) == {}
  {
    hide Letters;
    assert Letters(16) - {} == Letters(16);
    OneMoreLetter();
  }

  lemma OneMoreLetter()
    ensures |Letters(17) - Letters(16)| == 1 && Letters(16) - Letters(17) == {}
  {
    assert Letters(17) - Letters(16) == {[('a' as int + 16) as char]};
  }

  /** From there, the hold's end is forgotten: the call lets go of nothing and emits no motion, but the client
      holds nothing any more and counts eight as emitted. No later call can release the seventeen keys. */
  lemma OverfullHoldIsForgotten()
    ensures var s := Act(EXAMPLE, Overfull(), 0, 4, WAITS.(clock := Clock(0, 0, 0, 0, 20)));
            && s.client.held == RELEASED && s.client.ledger.emittedX == 20
            && s.action == Some(Neutral(4))
            && Press(Keyboard(Letters(17), {}), s.action.value) == Keyboard(Letters(17), {})
  {
    hide Act, WayOf, Hold, Release, Letters, Toward, Press, Admissible;
    var tick := WAITS.(clock := Clock(0, 0, 0, 0, 20));
    var c := Facing(Overfull(), 4);
    Takes(EXAMPLE, Overfull(), 0, 4, tick);
    OverfullHolds(c, tick);
    OverfullHoldFails(c, tick);
    ReleaseOutcome(Close(Hold(EXAMPLE, c, 0, tick).client), 0);
    assert Neutral(4).(keysUp := {}, buttonsUp := {}) == Neutral(4);
    LeftPressed(Keyboard(Letters(17), {}), Neutral(4));
  }

  lemma OverfullHolds(c: Client, tick: Tick)
    requires c.pending.None? && !c.discard && !Drained(c.queue) && tick.reply.Silent? && tick.worker.Alive?
    ensures WayOf(EXAMPLE, c, tick) == Holding(c)
  {
    assert c.(discard := false) == c;
  }

  lemma OverfullHoldFails(c: Client, tick: Tick)
    requires c == Facing(Overfull(), 4) && tick.clock.hold == 20
    ensures Hold(EXAMPLE, c, 0, tick)
            == Fails(c.(held := RELEASED, heldUntil := 0, queue := EMPTY, ledger := Ledger(20, 20, 0, 0, 2)), 0)
  {
    hide Letters;
    assert Toward(4, c.held, RELEASED).keysUp == Letters(17);
    assert c.held != RELEASED by {
      assert c.held.keys == Letters(17);
    }
    assert Drain(EXAMPLE, c.queue, 0) == Motion(EMPTY, 0, 8, 0);
  }

  /** And a blocked scene makes the call raise, with everything still held. */
  lemma OverfullReleaseRaises()
    ensures Act(EXAMPLE, Overfull(), 0, 4, WAITS.(sceneBlocked := true))
            == Step(Overfull().(lastSequence := 4), 0, None)
  {
    hide Letters, Release;
    ReleaseOutcome(Facing(Overfull(), 4), 0);
  }

  /** Without a step bound, one prediction moves both ledgers although its action is refused. */
  lemma HurriedMotionIsLost()
    ensures var cfg: Config := Settings(0, 300, 1000);
            var c := Act(cfg, FRESH, 0, 0, WAITS).client;
            var s := Act(cfg, c, 0, 1, Predicts(0, {}, 5000, 10));
            && s.pitch == 10 && s.client.ledger.emittedX == 5000 && s.action == Some(Neutral(1))
  {
    hide Act, WayOf, Followed, Concluded;
    var cfg: Config := Settings(0, 300, 1000);
    assert Applied(0, {}, -1) == FRESH;
    Asks(cfg, 0, {}, -1, 0);
    Takes(cfg, Asked(0, {}, 0), 0, 1, Predicts(0, {}, 5000, 10));
    HurriedApplies(cfg, Asked(0, {}, 0));
  }

  lemma HurriedApplies(cfg: Config, c: Client)
    requires cfg == Settings(0, 300, 1000)
    requires c == Asked(0, {}, 0)
    ensures var tick := Predicts(0, {}, 5000, 10);
            var s := Concluded(Followed(cfg, WayOf(cfg, Facing(c, 1), tick), 0, tick));
            s.pitch == 10 && s.client.ledger.emittedX == 5000 && s.action == Some(Neutral(1))
  {
    hide Apply, Release;
    var tick := Predicts(0, {}, 5000, 10);
    var now := Facing(c, 1);
    var d := now.(pending := None, ledger := now.ledger.(inFlight := 0));
    assert WayOf(cfg, now, tick) == Applying(d, tick.reply.record.output);
    HurriedFails(cfg, d);
    ReleaseOutcome(Close(Apply(cfg, d, 0, tick.reply.record.output, tick).client), 10);
    assert Neutral(1).(keysUp := {}, buttonsUp := {}) == Neutral(1);
  }

  lemma HurriedFails(cfg: Config, d: Client)
    requires cfg == Settings(0, 300, 1000)
    requires d == FRESH.(lastSequence := 1, ledger := Ledger(0, 0, 0, 0, 1))
    ensures var tick := Predicts(0, {}, 5000, 10);
            var t := Apply(cfg, d, 0, tick.reply.record.output, tick);
            && t.Fails? && t.pitch == 10 && t.client.held == RELEASED && t.client.lastSequence == 1
            && t.client.ledger.emittedX == 5000
  {
    hide Toward;
    TowardShape(1, RELEASED, RELEASED);
  }
}
