/** One call of a client, field by field, from the clock readings and answers of its tick. */
module PolicyLaws {
  import opened Common
  import opened Motor
  import opened PolicyModel
  import opened PolicyFacts

  // --- Which way a call goes, from its guards ---------------------------------------------------------

  /** The client without its worker: no request, no sighting, no motion. */
  function Cut(c: Client): Client {
    Client(c.held, c.heldUntil, c.lastSequence, None, false, EMPTY, None,
           Ledger(c.ledger.predictedX, c.ledger.emittedX, c.ledger.droppedX + c.queue.dx, 0, c.ledger.nextId))
  }

  /** The client once its outstanding request is answered. */
  function Served(c: Client): Client {
    c.(pending := None,
       ledger := Ledger(c.ledger.predictedX, c.ledger.emittedX, c.ledger.droppedX, c.ledger.inFlight - 1,
                        c.ledger.nextId))
  }

  /** The client once it has written a request, due one deadline after the reading at which it was written. */
  function Asked(cfg: Config, c: Client, t: Tick): Client {
    c.(pending := Some(Request(c.ledger.nextId, t.clock.submit + cfg.deadlineNs)), discard := false,
       ledger := Ledger(c.ledger.predictedX, c.ledger.emittedX, c.ledger.droppedX, c.ledger.inFlight + 1,
                        c.ledger.nextId + 1))
  }

  /** The line read answers the outstanding request. */
  predicate Answers(c: Client, t: Tick) {
    && t.worker.Alive? && !t.hung && c.pending.Some? && t.reply.Line? && t.reply.id == c.pending.value.id
    && !t.reply.record.Malformed?
  }

  /** An answer that came too late to be used, or took too long. */
  predicate Overdue(cfg: Config, c: Client, t: Tick, o: Output)
    requires c.pending.Some?
  {
    o.latencyNs > cfg.deadlineNs || (c.pending.value.deadline > 0 && t.clock.output >= c.pending.value.deadline)
  }

  /** A request that nobody waits for any more is answered and another written in its place. */
  lemma AnsweredInVain(cfg: Config, c: Client, t: Tick)
    requires Sound(cfg, c) && Answers(c, t) && c.discard
    ensures WayOf(cfg, c, t)
            == if t.submitAccepted then Holding(Asked(cfg, Served(c), t)) else Breaking(Served(c).(discard := false))
  {
  }

  /** A prediction is applied, judged late, or breaks what the client was promised. */
  lemma AnsweredWithPrediction(cfg: Config, c: Client, t: Tick, o: Output)
    requires Sound(cfg, c) && Answers(c, t) && !c.discard && t.reply.record == Prediction(o)
    ensures WayOf(cfg, c, t) == if Overdue(cfg, c, t, o) then Letting(Served(c))
                                else if o.admitted then Applying(Served(c), o)
                                else Breaking(Served(c))
  {
  }

  /** A worker may report that it was too slow; any other failure breaks. */
  lemma AnsweredWithFailure(cfg: Config, c: Client, t: Tick)
    requires Sound(cfg, c) && Answers(c, t) && !c.discard && !t.reply.record.Prediction?
    ensures var due := c.pending.value.deadline;
            WayOf(cfg, c, t)
            == if t.reply.record == Failure(true) && 0 < due && due <= t.clock.reply then Expiring(Served(c))
               else Breaking(Served(c))
  {
  }

  /** A worker that says nothing is waited for until the request is due. */
  lemma NotAnswered(cfg: Config, c: Client, t: Tick)
    requires t.worker.Alive? && !t.hung && c.pending.Some? && !Answers(c, t)
    ensures WayOf(cfg, c, t)
            == match t.reply
               case Silent => if t.clock.pending <= c.pending.value.deadline then Holding(c) else Letting(c)
               case Died => Breaking(c)
               case Line(_, _) => Breaking(Served(c))
  {
  }

  /** With nothing outstanding, motion drains before the next request is written. */
  lemma NotAsked(cfg: Config, c: Client, t: Tick)
    requires Sound(cfg, c) && t.worker.Alive? && c.pending.None?
    ensures WayOf(cfg, c, t) == if !Drained(c.queue) then Holding(c)
                                else if t.submitAccepted then Holding(Asked(cfg, c, t)) else Breaking(c)
  {
    assert c.(discard := false) == c;
  }

  /** A worker that is gone or hangs takes its request, and what it was predicting, with it. */
  lemma Cutting(cfg: Config, c: Client, t: Tick)
    ensures t.worker.Unavailable? ==> WayOf(cfg, c, t) == Breaking(Cut(c))
    ensures t.worker.Restarted? ==>
              WayOf(cfg, c, t) == if t.submitAccepted then Holding(Asked(cfg, Cut(c), t)) else Breaking(Cut(c))
    ensures t.worker.Alive? && t.hung && c.pending.Some? ==> WayOf(cfg, c, t) == Letting(Cut(c))
  {
  }

  // --- The camera queue -------------------------------------------------------------------------------

  /** A slice is the part of the motion nearest to all of it that the step bound allows. */
  lemma SliceIsNearest(maxStep: nat, motion: int, other: int)
    requires maxStep == 0 || Abs(other) <= maxStep
    ensures var s := Slice(maxStep, motion);
            (maxStep == 0 || Abs(s) <= maxStep) && Abs(motion - s) <= Abs(motion - other)
  {
  }

  /** Within the envelope a slice is followed as far as the envelope reaches; outside, only inwards, and in full. */
  lemma EnvelopedIsNearest(limit: nat, pitch: int, dy: int, other: int)
    ensures var e := Enveloped(limit, pitch, dy);
            && (Abs(pitch) <= limit ==> Abs(pitch + e) <= limit)
            && (Abs(pitch) <= limit && Abs(pitch + other) <= limit ==> Abs(dy - e) <= Abs(dy - other))
            && (pitch > limit ==> e == if dy < 0 then dy else 0)
            && (pitch < 0 - limit ==> e == if dy > 0 then dy else 0)
  {
  }

  /** What is drained: a slice each way, cut by the envelope when it turns a camera that has one. What the envelope
      cuts is forgotten, and so is the rest of a motion that began outside it. */
  lemma DrainTold(cfg: Config, q: Queue, pitch: int)
    ensures var m := Drain(cfg, q, pitch);
            var whole := Slice(cfg.maxStep, q.dy);
            var inside := 0 - cfg.pitchLimit <= pitch && pitch <= cfg.pitchLimit;
            && m.dx == Slice(cfg.maxStep, q.dx) && m.rest.dx == q.dx - m.dx
            && m.dy == (if cfg.pitchLimit == 0 || !q.world then whole else Enveloped(cfg.pitchLimit, pitch, whole))
            && m.pitch == pitch + (if cfg.pitchLimit == 0 || !q.world then 0 else m.dy)
            && m.rest.dy == (if cfg.pitchLimit == 0 || !q.world || (inside && m.dy == whole) then q.dy - whole else 0)
            && m.rest.world == (q.world || Drained(m.rest))
  {
  }

  /** A prediction adds to the motion that is left over, unless that is of the other kind: then it is dropped. */
  lemma EnqueueTold(c: Client, o: Output)
    ensures var d := Enqueue(c, o);
            var other := (c.queue.dx != 0 || c.queue.dy != 0) && c.queue.world != o.world;
            && d.queue == (if other then Queue(o.dx, o.dy, o.world)
                           else Queue(c.queue.dx + o.dx, c.queue.dy + o.dy, o.world))
            && d.ledger.droppedX == c.ledger.droppedX + (if other then c.queue.dx else 0)
            && d.ledger.predictedX == c.ledger.predictedX + o.dx && d.ledger.emittedX == c.ledger.emittedX
  {
  }

  // --- What each way leaves ---------------------------------------------------------------------------

  /** The client once everything is let go of. */
  function Emptied(c: Client): Client {
    c.(held := RELEASED, heldUntil := 0, queue := EMPTY,
       ledger := Ledger(c.ledger.predictedX, c.ledger.emittedX, c.ledger.droppedX + c.queue.dx, c.ledger.inFlight,
                        c.ledger.nextId))
  }

  /** The action that lets go of everything. */
  function LettingGo(sequence: int, held: Keyboard): MotorAction {
    MotorAction(sequence, {}, held.keys, {}, held.buttons, 0, 0, None, true, 0)
  }

  /** What is held fits in one release, which is returned; or the call raises with everything still held. */
  function Ended(emptied: Client, kept: Client, pitch: int): Step {
    if Fits(kept.held) then Step(emptied, pitch, Some(LettingGo(kept.lastSequence, kept.held)))
    else Step(kept, pitch, None)
  }

  lemma ReleaseTold(c: Client, pitch: int)
    requires 0 <= c.lastSequence
    ensures Release(c, pitch) == Ended(Emptied(c), c, pitch)
  {
    ReleaseOutcome(c, pitch);
  }

  lemma RefusesStale(cfg: Config, c: Client, pitch: int, sequence: int, t: Tick)
    ensures sequence <= c.lastSequence ==> Act(cfg, c, pitch, sequence, t) == Step(c, pitch, None)
  {
  }

  /** While the scene is blocked, or without a frame, everything is let go of and the request stays outstanding. */
  lemma ActBlocked(cfg: Config, c: Client, pitch: int, n: nat, t: Tick)
    requires c.lastSequence < n && (t.sceneBlocked || !t.frame)
    ensures var now := c.(lastSequence := n); Act(cfg, c, pitch, n, t) == Ended(Emptied(now), now, pitch)
  {
    hide Release;
    ReleaseTold(c.(lastSequence := n), pitch);
  }

  /** A late answer, a hung worker or a request past due costs the hold, an answer reported late no more than that,
      and anything broken costs the worker too. */
  lemma ActEnds(cfg: Config, c: Client, pitch: int, n: nat, t: Tick)
    requires c.lastSequence < n && !t.sceneBlocked && t.frame
    requires Sound(cfg, c)
    ensures var s := Act(cfg, c, pitch, n, t);
            match WayOf(cfg, c.(lastSequence := n), t)
            case Letting(d) => s == Ended(Emptied(d), if Fits(d.held) then d else Cut(d), pitch)
            case Expiring(d) => s == Ended(Emptied(d), d, pitch)
            case Breaking(d) => s == Ended(Emptied(Cut(d)), Cut(d), pitch)
            case _ => true
  {
    hide Release, WayOf;
    var now := Facing(c, n);
    Takes(cfg, c, pitch, n, t);
    WayKeeps(cfg, now, t);
    match WayOf(cfg, now, t)
    case Letting(d) =>
      ReleaseTold(d, pitch);
      ReleaseTold(Close(d), pitch);
    case Expiring(d) => ReleaseTold(d, pitch);
    case Breaking(d) => ReleaseTold(Close(d), pitch);
    case _ =>
  }

  /** Until when the keys of a client that holds something are held. */
  function Until(c: Client, t: Tick): int {
    if c.held == RELEASED || c.pending.None? || t.clock.hold >= c.pending.value.deadline then c.heldUntil
    else Max(c.heldUntil, Min(t.clock.hold + t.horizonNs, c.pending.value.deadline))
  }

  /** A hold: the client and the action built. */
  lemma HoldTold(cfg: Config, c: Client, pitch: int, t: Tick)
    requires Sound(cfg, c) && 0 <= c.lastSequence
    ensures var m, ends := Drain(cfg, c.queue, pitch), c.held != RELEASED && t.clock.hold >= Until(c, t);
            var kept := if ends then RELEASED else c.held;
            var moved := c.(queue := m.rest, held := kept, heldUntil := if ends then 0 else Until(c, t),
                            ledger := Ledger(c.ledger.predictedX, c.ledger.emittedX + m.dx, c.ledger.droppedX,
                                             c.ledger.inFlight, c.ledger.nextId));
            Hold(cfg, c, pitch, t)
            == if ends && !Fits(c.held) then Fails(moved, m.pitch)
               else Emits(moved, m.pitch, LettingGo(c.lastSequence, if ends then c.held else RELEASED)
                                          .(dx := m.dx, dy := m.dy, world := c.queue.world, durationMs := 50))
  {
    hide Drain, Fits, Admissible;
    HoldOutcome(cfg, c, pitch, t);
    var kept := if HoldExpires(c, t) then RELEASED else c.held;
    var m := Drain(cfg, c.queue, pitch);
    assert Steered(Toward(c.lastSequence, c.held, kept), m, c.queue.world)
           == LettingGo(c.lastSequence, if HoldExpires(c, t) then c.held else RELEASED)
              .(dx := m.dx, dy := m.dy, world := c.queue.world, durationMs := 50);
  }

  /** A hold: motion drains, and the keys stay down until their time is over. A hold that ends and does not fit in
      one release costs the worker, and its action. */
  lemma ActHoldsOn(cfg: Config, c: Client, pitch: int, n: nat, t: Tick)
    requires c.lastSequence < n && !t.sceneBlocked && t.frame && Sound(cfg, c)
    requires WayOf(cfg, c.(lastSequence := n), t).Holding?
    ensures var d := WayOf(cfg, c.(lastSequence := n), t).client;
            var m, ends := Drain(cfg, d.queue, pitch), d.held != RELEASED && t.clock.hold >= Until(d, t);
            var kept := if ends then RELEASED else d.held;
            var moved := d.(queue := m.rest, held := kept, heldUntil := if ends then 0 else Until(d, t),
                            ledger := Ledger(d.ledger.predictedX, d.ledger.emittedX + m.dx, d.ledger.droppedX,
                                             d.ledger.inFlight, d.ledger.nextId));
            Act(cfg, c, pitch, n, t)
            == if ends && !Fits(d.held) then Step(Emptied(Cut(moved)), m.pitch, Some(LettingGo(n, RELEASED)))
               else Step(moved, m.pitch, Some(LettingGo(n, if ends then d.held else RELEASED)
                                              .(dx := m.dx, dy := m.dy, world := d.queue.world, durationMs := 50)))
  {
    hide Release, WayOf, Drain, Fits, Admissible, Hold, Until;
    var now := Facing(c, n);
    Takes(cfg, c, pitch, n, t);
    WayKeeps(cfg, now, t);
    var d := WayOf(cfg, now, t).client;
    HoldTold(cfg, d, pitch, t);
    NothingFits();
    ReleaseTold(Close(Hold(cfg, d, pitch, t).client), Drain(cfg, d.queue, pitch).pitch);
  }

  /** An applied prediction: the client and the action built. */
  lemma ApplyTold(cfg: Config, c: Client, pitch: int, o: Output, t: Tick)
    requires Sound(cfg, c) && c.pending.None? && Drained(c.queue) && 0 <= c.lastSequence
    ensures var m := Drain(cfg, Queue(o.dx, o.dy, o.world), pitch);
            var moved := c.(queue := m.rest, sighting := if o.sighting.Some? then o.sighting else c.sighting,
                            ledger := Ledger(c.ledger.predictedX + o.dx, c.ledger.emittedX + m.dx, c.ledger.droppedX,
                                             c.ledger.inFlight, c.ledger.nextId));
            var u := Apply(cfg, c, pitch, o, t);
            if Crowded(c.held, o.held) || Hurried(cfg, pitch, o) then u == Fails(moved, m.pitch)
            else && u == Emits(moved.(held := o.held, heldUntil := t.clock.hold + t.horizonNs), m.pitch, u.action)
                 && u.action == Toward(c.lastSequence, c.held, o.held)
                                .(dx := m.dx, dy := m.dy, world := o.world, durationMs := 50)
  {
    hide Drain, Crowded, Hurried, Admissible, Toward;
    ApplyRefusedWhen(cfg, c, pitch, o);
  }

  /** An applied prediction: its keys are held for the horizon, its motion is drained from the queue, and a
      sighting it carries replaces the last one. One that does not fit in an action costs the hold and the worker. */
  lemma ActApplies(cfg: Config, c: Client, pitch: int, n: nat, t: Tick, o: Output)
    requires c.lastSequence < n && !t.sceneBlocked && t.frame && Sound(cfg, c) && c.pending.Some?
    requires var now := c.(lastSequence := n); WayOf(cfg, now, t) == Applying(Served(now), o)
    ensures var d := Served(c.(lastSequence := n));
            var m := Drain(cfg, Queue(o.dx, o.dy, o.world), pitch);
            var moved := d.(queue := m.rest, sighting := if o.sighting.Some? then o.sighting else d.sighting,
                            ledger := Ledger(d.ledger.predictedX + o.dx, d.ledger.emittedX + m.dx, d.ledger.droppedX,
                                             d.ledger.inFlight, d.ledger.nextId));
            var s := Act(cfg, c, pitch, n, t);
            if Crowded(d.held, o.held) || Hurried(cfg, pitch, o)
            then s == Ended(Emptied(Cut(moved)), Cut(moved), m.pitch)
            else && s.client == moved.(held := o.held, heldUntil := t.clock.hold + t.horizonNs) && s.pitch == m.pitch
                 && s.action.Some? && Press(d.held, s.action.value) == o.held && s.action.value.sequence == n
                 && s.action.value.dx == m.dx && s.action.value.dy == m.dy && s.action.value.world == o.world
                 && s.action.value.cursor.None? && s.action.value.durationMs == 50
  {
    hide Release, WayOf, Drain, Fits, Apply, Crowded, Hurried;
    var now := Facing(c, n);
    Takes(cfg, c, pitch, n, t);
    WayKeeps(cfg, now, t);
    var d := Served(now);
    ApplyTold(cfg, d, pitch, o, t);
    TowardArrives(d.lastSequence, d.held, o.held);
    ReleaseTold(Close(Apply(cfg, d, pitch, o, t).client), Drain(cfg, Queue(o.dx, o.dy, o.world), pitch).pitch);
  }

  // --- Calls from outside -----------------------------------------------------------------------------

  /** A reset retires the outstanding request, takes the next sequence number or at least zero, and lets go of what
      is held; a write that fails costs the worker, and one that raises leaves everything but the retirement. */
  lemma ResetTold(c: Client, pitch: int, advance: bool, write: ResetWrite)
    ensures var retired := c.(discard := c.discard || c.pending.Some?);
            var d := (if write.Closes? then Cut(retired) else retired)
                     .(lastSequence := Max(0, c.lastSequence + if advance then 1 else 0));
            Reset(c, pitch, advance, write) == if write.Escapes? then Step(retired, pitch, None)
                                               else Ended(Emptied(d), d, pitch)
  {
    hide Release;
    var retired := c.(discard := c.discard || c.pending.Some?);
    ReleaseTold((if write.Closes? then Cut(retired) else retired)
                .(lastSequence := Max(0, c.lastSequence + if advance then 1 else 0)), pitch);
  }

  lemma NotifyTold(c: Client)
    ensures NotifyReleased(c) == Emptied(c.(discard := c.discard || c.pending.Some?))
  {
  }
}
