/** Value-level specification of one learned-policy client (policy_service.py, TemporalPolicyClient).

    A client talks to one worker process. Everything the worker, the clock and the pipe may do in
    one tick is an argument (`Tick`), so a statement about all ticks is a statement about every
    worker: one that answers late, never, wrongly, or dies. */
module PolicyModel {
  import opened Common
  import opened Motor

  // camera_max_step and camera_pitch_limit (0 switches a bound off), and deadline_ms in nanoseconds.
  datatype Settings = Settings(maxStep: nat, pitchLimit: nat, deadlineNs: nat)

  type Config = s: Settings | s.maxStep <= 100 && s.pitchLimit <= 5000
    witness Settings(12, 300, 48_000_000)

  datatype Output = Output(
    held: Keyboard,
    dx: int,
    dy: int,
    world: bool,
    latencyNs: nat,
    admitted: bool,          // model identity and external-output rules are satisfied
    sighting: Option<nat>)   // the target or scene belief it carries, if any

  datatype Record =
    | Prediction(output: Output)
    | BadPrediction
    | Failure(timedOut: bool)
    | Malformed

  datatype Reply = Silent | Died | Line(id: nat, record: Record)

  datatype Worker = Alive | Restarted | Unavailable

  // The separate readings of the monotonic clock taken along one call.
  datatype Clock = Clock(reply: int, pending: int, output: int, submit: int, hold: int)

  datatype Tick = Tick(
    sceneBlocked: bool,
    frame: bool,
    worker: Worker,
    hung: bool,
    reply: Reply,
    submitAccepted: bool,
    clock: Clock,
    horizonNs: nat)

  datatype Request = Request(id: nat, deadline: int)

  // Camera motion not yet emitted; `world` says whether it turns the camera or moves a cursor.
  datatype Queue = Queue(dx: int, dy: int, world: bool)

  const EMPTY := Queue(0, 0, true)

  // Horizontal motion predicted and emitted, and two histories the source does not store: motion
  // dropped before it was emitted, and requests written and not yet answered.
  datatype Ledger = Ledger(predictedX: int, emittedX: int, droppedX: int, inFlight: int, nextId: nat)

  datatype Client = Client(
    held: Keyboard,
    heldUntil: int,
    lastSequence: int,
    pending: Option<Request>,
    discard: bool,
    queue: Queue,
    sighting: Option<nat>,
    ledger: Ledger)

  const FRESH := Client(RELEASED, 0, -1, None, false, EMPTY, None, Ledger(0, 0, 0, 0, 0))

  predicate Drained(q: Queue) { q.dx == 0 && q.dy == 0 }

  /** A client step: the client and shared pitch it leaves, and the action, or None when it raises. */
  datatype Step = Step(client: Client, pitch: int, action: Option<MotorAction>)

  function RetirePending(c: Client): Client { c.(discard := c.discard || c.pending.Some?) }

  function DropQueue(c: Client): Client {
    c.(queue := EMPTY, ledger := c.ledger.(droppedX := c.ledger.droppedX + c.queue.dx))
  }

  function ClearInput(c: Client): Client { DropQueue(c).(held := RELEASED, heldUntil := 0) }

  function Close(c: Client): Client {
    var d := DropQueue(c);
    d.(pending := None, discard := false, sighting := None, ledger := d.ledger.(inFlight := 0))
  }

  function Release(c: Client, pitch: int): Step {
    var a := Toward(c.lastSequence, c.held, RELEASED);
    if Admissible(a) then Step(ClearInput(c), pitch, Some(a)) else Step(c, pitch, None)
  }

  // --- The bounded camera queue --------------------------------------------------------------

  function Slice(maxStep: nat, motion: int): int {
    if maxStep > 0 then Clamp(0 - maxStep, maxStep, motion) else motion
  }

  /** The vertical slice the viewing envelope lets through. */
  function Enveloped(limit: nat, pitch: int, dy: int): int {
    if pitch > limit then Min(0, dy)
    else if pitch < 0 - limit then Max(0, dy)
    else Clamp(0 - limit, limit, pitch + dy) - pitch
  }

  datatype Motion = Motion(rest: Queue, pitch: int, dx: int, dy: int)

  function Drain(cfg: Config, q: Queue, pitch: int): Motion {
    var dx, sliced := Slice(cfg.maxStep, q.dx), Slice(cfg.maxStep, q.dy);
    var tracked := cfg.pitchLimit > 0 && q.world;
    var dy := if tracked then Enveloped(cfg.pitchLimit, pitch, sliced) else sliced;
    var outside := pitch > cfg.pitchLimit || pitch < 0 - cfg.pitchLimit;
    var restX, restY := q.dx - dx, if tracked && (outside || dy != sliced) then 0 else q.dy - sliced;
    Motion(Queue(restX, restY, q.world || (restX == 0 && restY == 0)),
           if tracked then pitch + dy else pitch, dx, dy)
  }

  function Moved(c: Client, m: Motion): Client {
    c.(queue := m.rest, ledger := c.ledger.(emittedX := c.ledger.emittedX + m.dx))
  }

  // --- One attempt to act ---------------------------------------------------------------------

  datatype Turn = Emits(client: Client, pitch: int, action: MotorAction)
                | Late(client: Client, pitch: int)
                | Fails(client: Client, pitch: int)

  function Releasing(c: Client, pitch: int): Turn {
    var s := Release(c, pitch);
    if s.action.Some? then Emits(s.client, s.pitch, s.action.value) else Fails(s.client, s.pitch)
  }

  function HoldDeadline(c: Client, tick: Tick): int {
    if c.held != RELEASED && c.pending.Some? && tick.clock.hold < c.pending.value.deadline
    then Max(c.heldUntil, Min(tick.clock.hold + tick.horizonNs, c.pending.value.deadline))
    else c.heldUntil
  }

  predicate HoldExpires(c: Client, tick: Tick) {
    c.held != RELEASED && tick.clock.hold >= HoldDeadline(c, tick)
  }

  function Steered(a: MotorAction, m: Motion, world: bool): MotorAction {
    a.(dx := m.dx, dy := m.dy, world := world, durationMs := 50)
  }

  /** Keep the last keys while a successor is inferred, or let them go once their time is over. */
  function Hold(cfg: Config, c: Client, pitch: int, tick: Tick): Turn {
    var expires := HoldExpires(c, tick);
    var kept := if expires then RELEASED else c.held;
    var m := Drain(cfg, c.queue, pitch);
    var a := Steered(Toward(c.lastSequence, c.held, kept), m, c.queue.world);
    var d := Moved(c, m).(held := kept, heldUntil := if expires then 0 else HoldDeadline(c, tick));
    if Admissible(a) then Emits(d, m.pitch, a) else Fails(d, m.pitch)
  }

  function Enqueue(c: Client, o: Output): Client {
    var base := if !Drained(c.queue) && o.world != c.queue.world then DropQueue(c) else c;
    base.(sighting := if o.sighting.Some? then o.sighting else c.sighting,
          queue := Queue(base.queue.dx + o.dx, base.queue.dy + o.dy, o.world),
          ledger := base.ledger.(predictedX := base.ledger.predictedX + o.dx))
  }

  /** Apply a prediction: its keys become the held keys, its motion goes through the queue. */
  function Apply(cfg: Config, c: Client, pitch: int, o: Output, tick: Tick): Turn {
    var q := Enqueue(c, o);
    var m := Drain(cfg, q.queue, pitch);
    var a := Steered(Toward(c.lastSequence, c.held, o.held), m, o.world);
    var d := Moved(q, m);
    if Admissible(a)
    then Emits(d.(held := o.held, heldUntil := tick.clock.hold + tick.horizonNs), m.pitch, a)
    else Fails(d, m.pitch)
  }

  datatype Reading = Nothing | Answer(record: Record, deadline: int) | Broken | TooLate

  datatype Consumed = Consumed(client: Client, reading: Reading)

  function Consume(c: Client, tick: Tick): Consumed {
    if c.pending.None? || tick.reply.Silent? then Consumed(c, Nothing)
    else if tick.reply.Died? then Consumed(c, Broken)
    else
      var read := c.(pending := None, ledger := c.ledger.(inFlight := c.ledger.inFlight - 1));
      var record, deadline := tick.reply.record, c.pending.value.deadline;
      if tick.reply.id != c.pending.value.id || record.Malformed? then Consumed(read, Broken)
      else if c.discard || !record.Failure? then Consumed(read, Answer(record, deadline))
      else if record.timedOut && 0 < deadline <= tick.clock.reply then Consumed(read, TooLate)
      else Consumed(read, Broken)
  }

  function Submit(cfg: Config, c: Client, tick: Tick): Client {
    c.(pending := Some(Request(c.ledger.nextId, tick.clock.submit + cfg.deadlineNs)),
       ledger := c.ledger.(nextId := c.ledger.nextId + 1, inFlight := c.ledger.inFlight + 1))
  }

  /** No usable answer: first let earlier camera motion drain, then ask for the next prediction. */
  function Ask(cfg: Config, c: Client, pitch: int, tick: Tick): Turn {
    if !Drained(c.queue) then Hold(cfg, c, pitch, tick)
    else if !tick.submitAccepted then Fails(c, pitch)
    else Hold(cfg, Submit(cfg, c, tick), pitch, tick)
  }

  function Respond(cfg: Config, c: Client, pitch: int, reading: Reading, tick: Tick): Turn
    requires reading.Answer? || reading.Nothing?
  {
    if c.discard then Ask(cfg, c.(discard := false), pitch, tick)
    else if reading.Nothing? then Ask(cfg, c, pitch, tick)
    else if !reading.record.Prediction? then Fails(c, pitch)
    else
      var o := reading.record.output;
      if o.latencyNs > cfg.deadlineNs || 0 < reading.deadline <= tick.clock.output
      then Releasing(c, pitch)
      else if !o.admitted then Fails(c, pitch)
      else Apply(cfg, c, pitch, o, tick)
  }

  function Settle(cfg: Config, k: Consumed, pitch: int, tick: Tick): Turn {
    match k.reading
    case Broken => Fails(k.client, pitch)
    case TooLate => Late(k.client, pitch)
    case _ =>
      if k.client.pending.None? then Respond(cfg, k.client, pitch, k.reading, tick)
      else if tick.clock.pending <= k.client.pending.value.deadline
      then Hold(cfg, k.client, pitch, tick)
      else Releasing(k.client, pitch)
  }

  function Attempt(cfg: Config, c: Client, pitch: int, tick: Tick): Turn {
    if tick.worker.Unavailable? then Fails(Close(c), pitch)
    else
      var ready := if tick.worker.Restarted? then Close(c) else c;
      if ready.pending.Some? && tick.hung then Releasing(Close(ready), pitch)
      else Settle(cfg, Consume(ready, tick), pitch, tick)
  }

  /** What becomes of an attempt: a late or failed one ends in a release of everything held. */
  function Concluded(t: Turn): Step {
    match t
    case Emits(d, p, a) => Step(d, p, Some(a))
    case Late(d, p) => Release(d, p)
    case Fails(d, p) => Release(Close(d), p)
  }

  function Act(cfg: Config, c: Client, pitch: int, sequence: int, tick: Tick): Step {
    if sequence <= c.lastSequence then Step(c, pitch, None)
    else
      var now := c.(lastSequence := sequence);
      if tick.sceneBlocked || !tick.frame then Release(now, pitch)
      else Concluded(Attempt(cfg, now, pitch, tick))
  }

  // Writing the reset command to a live worker: it works (or there is none); it fails, which closes the
  // worker; or it raises something else, which leaves the reset before it advances or releases anything.
  datatype ResetWrite = Written | Closes | Escapes

  /** End an option. */
  function Reset(c: Client, pitch: int, advance: bool, write: ResetWrite): Step {
    var retired := RetirePending(c);
    if write.Escapes? then Step(retired, pitch, None)
    else
      var d := if write.Closes? then Close(retired) else retired;
      Release(d.(lastSequence := Max(0, c.lastSequence + if advance then 1 else 0)), pitch)
  }

  function NotifyReleased(c: Client): Client { ClearInput(RetirePending(c)) }
}
