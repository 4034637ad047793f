/** What the next calls of a client do, told from the clock readings and answers of its ticks. */
module PolicyTiming {
  import opened Common
  import opened Motor
  import opened PolicyModel
  import opened PolicyFacts
  import opened PolicyLaws

  /** A tick in which nothing keeps the client from its worker. */
  predicate Clear(t: Tick) { !t.sceneBlocked && t.frame && t.worker.Alive? && !t.hung }

  /** Nothing is outstanding and no motion is left over. */
  predicate Unasked(c: Client) { c.pending.None? && Drained(c.queue) }

  /** When a request written in this tick is due. */
  function Due(cfg: Config, t: Tick): int { t.clock.submit + cfg.deadlineNs }

  /** Until when keys are held that were to be let go of at `until`, while a request due at `due` is outstanding. */
  function Prolonged(until: int, due: int, t: Tick): int {
    if t.clock.hold < due then Max(until, Min(t.clock.hold + t.horizonNs, due)) else until
  }

  /** Keys that are let go of at `until`. */
  function HeldTill(held: Keyboard, until: int, t: Tick): Keyboard { if t.clock.hold < until then held else RELEASED }

  /** A client with nothing outstanding asks, if it can: its request is due one deadline after it was written, and
      its keys are held on until then at most. */
  lemma Asking(cfg: Config, c: Client, pitch: int, n: nat, t: Tick)
    requires Sound(cfg, c) && Unasked(c) && Clear(t) && c.lastSequence < n
    ensures var s := Act(cfg, c, pitch, n, t).client;
            var until := Prolonged(c.heldUntil, Due(cfg, t), t);
            && Sound(cfg, s) && s.lastSequence == n
            && if t.submitAccepted && (c.held == HeldTill(c.held, until, t) || Fits(c.held)) then
                 && s.pending == Some(Request(c.ledger.nextId, Due(cfg, t))) && s.ledger.nextId == c.ledger.nextId + 1
                 && s.held == HeldTill(c.held, until, t) && !s.discard && Drained(s.queue)
                 && (s.held != RELEASED ==> s.heldUntil == until) && s.sighting == c.sighting
               else
                 && s.pending.None? && s.sighting.None?
                 && s.held == if t.submitAccepted then RELEASED else LetGo(c.held)
  {
    hide Act, WayOf, Drain, Fits;
    var now := Facing(c, n);
    ActOutcome(cfg, c, pitch, n, t);
    DrainBounded(cfg, c.queue, pitch);
    NotAsked(cfg, now, t);
    ActEnds(cfg, c, pitch, n, t);
    if t.submitAccepted {
      ActHoldsOn(cfg, c, pitch, n, t);
    }
  }

  /** Its answer, whenever it comes: a prediction that one action can carry is applied exactly when it is read
      before the request is due and took no longer than the deadline; otherwise everything is let go of. What is
      applied is held for the horizon from the reading at output. */
  lemma Answered(cfg: Config, c: Client, pitch: int, n: nat, t: Tick, o: Output)
    requires Sound(cfg, c) && c.pending.Some? && !c.discard && Clear(t) && c.lastSequence < n
    requires t.reply == Line(c.pending.value.id, Prediction(o)) && o.admitted
    requires !Crowded(c.held, o.held) && !Hurried(cfg, pitch, o)
    ensures var s := Act(cfg, c, pitch, n, t).client;
            var due := c.pending.value.deadline;
            && Sound(cfg, s) && s.pending.None?
            && if o.latencyNs <= cfg.deadlineNs && (due <= 0 || t.clock.output < due) then
                 s.held == o.held && s.heldUntil == t.clock.hold + t.horizonNs
               else s.held == LetGo(c.held)
  {
    hide Act, WayOf, Drain, Fits, Crowded, Hurried;
    var now := Facing(c, n);
    ActOutcome(cfg, c, pitch, n, t);
    AnsweredWithPrediction(cfg, now, t, o);
    ActEnds(cfg, c, pitch, n, t);
    if !Overdue(cfg, now, t, o) {
      ActApplies(cfg, c, pitch, n, t, o);
    }
  }

  /** While it does not come, the keys are held until their time is over and no longer than the request is due. */
  lemma Unanswered(cfg: Config, c: Client, pitch: int, n: nat, t: Tick)
    requires Sound(cfg, c) && c.pending.Some? && Clear(t) && c.lastSequence < n && t.reply.Silent?
    ensures var s := Act(cfg, c, pitch, n, t).client;
            var due := c.pending.value.deadline;
            var until := Prolonged(c.heldUntil, due, t);
            && Sound(cfg, s)
            && (s.held == if t.clock.pending > due then LetGo(c.held) else HeldTill(c.held, until, t))
            && (t.clock.pending <= due && s.held != RELEASED ==> s.heldUntil == until)
            && (Fits(c.held) ==> s.pending == c.pending && s.discard == c.discard)
  {
    hide Act, WayOf, Drain, Fits;
    var now := Facing(c, n);
    ActOutcome(cfg, c, pitch, n, t);
    NotAnswered(cfg, now, t);
    ActEnds(cfg, c, pitch, n, t);
    if t.clock.pending <= c.pending.value.deadline {
      ActHoldsOn(cfg, c, pitch, n, t);
    }
  }

  // --- Two calls -----------------------------------------------------------------------------------------

  /** A request and its answer: what the prediction holds is held exactly when the reading at output is less than
      one deadline after the reading at which the request was written. */
  lemma AskedAndAnswered(cfg: Config, c: Client, p1: int, n1: nat, t1: Tick, p2: int, n2: nat, t2: Tick, o: Output)
    requires Sound(cfg, c) && Unasked(c) && Clear(t1) && Clear(t2) && c.lastSequence < n1 < n2
    requires var c1 := Act(cfg, c, p1, n1, t1).client;
             && c1.pending.Some? && t2.reply == Line(c1.pending.value.id, Prediction(o)) && o.admitted
             && !Crowded(c1.held, o.held) && !Hurried(cfg, p2, o)
    ensures var c1 := Act(cfg, c, p1, n1, t1).client;
            var due := t1.clock.submit + cfg.deadlineNs;
            Act(cfg, c1, p2, n2, t2).client.held
            == if o.latencyNs <= cfg.deadlineNs && (due <= 0 || t2.clock.output < due) then o.held
               else LetGo(c1.held)
  {
    hide Act, Crowded, Hurried, Fits;
    Asking(cfg, c, p1, n1, t1);
    Answered(cfg, Act(cfg, c, p1, n1, t1).client, p2, n2, t2, o);
  }

  /** A request and no answer: keys that are held stay held exactly while the reading is at most one deadline after
      the reading at which the request was written, and their own time is not over. */
  lemma AskedAndUnanswered(cfg: Config, c: Client, p1: int, n1: nat, t1: Tick, p2: int, n2: nat, t2: Tick)
    requires Sound(cfg, c) && Unasked(c) && Clear(t1) && Clear(t2) && c.lastSequence < n1 < n2
    requires Act(cfg, c, p1, n1, t1).client.pending.Some? && t2.reply.Silent?
    ensures var c1 := Act(cfg, c, p1, n1, t1).client;
            var due := t1.clock.submit + cfg.deadlineNs;
            var until := Prolonged(Prolonged(c.heldUntil, due, t1), due, t2);
            c1.held != RELEASED && Fits(c1.held) ==>
              (Act(cfg, c1, p2, n2, t2).client.held == c1.held <==> t2.clock.pending <= due && t2.clock.hold < until)
  {
    hide Act, Fits;
    Asking(cfg, c, p1, n1, t1);
    Unanswered(cfg, Act(cfg, c, p1, n1, t1).client, p2, n2, t2);
  }

  /** With one reading per tick and a horizon, that is: before the request is due. */
  lemma HeldUntilDue(cfg: Config, c: Client, p1: int, n1: nat, t1: Tick, p2: int, n2: nat, t2: Tick)
    requires Sound(cfg, c) && Unasked(c) && Clear(t1) && Clear(t2) && c.lastSequence < n1 < n2
    requires Act(cfg, c, p1, n1, t1).client.pending.Some? && t2.reply.Silent?
    requires t2.clock.hold == t2.clock.pending && t2.horizonNs > 0 && c.heldUntil <= t1.clock.submit + cfg.deadlineNs
    ensures var c1 := Act(cfg, c, p1, n1, t1).client;
            c1.held != RELEASED && Fits(c1.held) ==>
              (Act(cfg, c1, p2, n2, t2).client.held == c1.held <==> t2.clock.hold < t1.clock.submit + cfg.deadlineNs)
  {
    hide Act, Fits;
    AskedAndUnanswered(cfg, c, p1, n1, t1, p2, n2, t2);
  }

  /** The end of a hold: a prediction read at output is held, if no motion is left over, until its horizon is over
      or the next request has prolonged it, and if motion is left over, until its horizon is over. */
  lemma AnsweredAndHeld(cfg: Config, c: Client, p1: int, n1: nat, t1: Tick, o: Output, p2: int, n2: nat, t2: Tick)
    requires Sound(cfg, c) && c.pending.Some? && !c.discard && Clear(t1) && Clear(t2) && c.lastSequence < n1 < n2
    requires t1.reply == Line(c.pending.value.id, Prediction(o)) && o.admitted
    requires !Crowded(c.held, o.held) && !Hurried(cfg, p1, o) && Fits(o.held) && o.held != RELEASED
    requires o.latencyNs <= cfg.deadlineNs
    requires c.pending.value.deadline <= 0 || t1.clock.output < c.pending.value.deadline
    ensures var c1 := Act(cfg, c, p1, n1, t1).client;
            var over := t1.clock.hold + t1.horizonNs;
            Act(cfg, c1, p2, n2, t2).client.held == o.held <==>
              if !Drained(c1.queue) then t2.clock.hold < over
              else t2.submitAccepted && t2.clock.hold < Prolonged(over, t2.clock.submit + cfg.deadlineNs, t2)
  {
    hide Act, Fits, Crowded, Hurried;
    Answered(cfg, c, p1, n1, t1, o);
    ActOutcome(cfg, c, p1, n1, t1);
    var c1 := Act(cfg, c, p1, n1, t1).client;
    if Drained(c1.queue) {
      Asking(cfg, c1, p2, n2, t2);
    } else {
      Draining(cfg, c1, p2, n2, t2);
    }
  }

  /** A client with motion left over asks for nothing, and holds its keys until their time is over. */
  lemma Draining(cfg: Config, c: Client, pitch: int, n: nat, t: Tick)
    requires Sound(cfg, c) && c.pending.None? && !Drained(c.queue) && Clear(t) && c.lastSequence < n
    ensures var s := Act(cfg, c, pitch, n, t).client;
            && Sound(cfg, s) && s.pending.None? && s.ledger.nextId == c.ledger.nextId
            && s.held == HeldTill(c.held, c.heldUntil, t) && (s.held != RELEASED ==> s.heldUntil == c.heldUntil)
  {
    hide Act, WayOf, Drain, Fits;
    var now := Facing(c, n);
    ActOutcome(cfg, c, pitch, n, t);
    NotAsked(cfg, now, t);
    ActHoldsOn(cfg, c, pitch, n, t);
  }
}
