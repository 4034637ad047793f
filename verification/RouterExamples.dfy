/** Two runs of a new router in which a body's sequence number gets ahead of the router's. */
module RouterExamples {
  import opened Common
  import opened Motor
  import Policy = PolicyModel
  import opened PolicyFacts
  import opened RouterModel
  import R = RouterFacts

  // --- Following a run call by call -----------------------------------------------------------------

  /** Where a run leads. */
  ghost predicate Reaches<K>(b: Bodies<K>, cfgs: map<K, Policy.Config>, start: Desk<K>, calls: seq<Call<K>>,
                             r: Router<K>, kb: Keyboard)
  {
    && R.DeskOk(b, cfgs, start)
    && var d := R.Run(b, cfgs, start, calls); d.router == r && d.keyboard == kb
  }

  lemma {:induction false} RunAppends<K>(
    b: Bodies<K>, cfgs: map<K, Policy.Config>, d: Desk<K>, calls: seq<Call<K>>, call: Call<K>)
    requires R.DeskOk(b, cfgs, d)
    ensures R.DeskOk(b, cfgs, R.Run(b, cfgs, d, calls)) && Wired(b, cfgs, R.Run(b, cfgs, d, calls).router)
    ensures R.Run(b, cfgs, d, calls + [call]) == Step(b, cfgs, R.Run(b, cfgs, d, calls), call)
    decreases |calls|
  {
    hide R.DeskOk, Step, R.Moves, R.Loses, R.InStep, R.Follows;
    R.DeskWired(b, cfgs, d);
    if calls == [] {
      R.StepKept(b, cfgs, d, call);
      assert ([] + [call])[1..] == [];
    } else {
      R.StepKept(b, cfgs, d, calls[0]);
      RunAppends(b, cfgs, Step(b, cfgs, d, calls[0]), calls[1..], call);
      assert (calls + [call])[1..] == calls[1..] + [call];
    }
  }

  lemma ThenActs<K>(b: Bodies<K>, cfgs: map<K, Policy.Config>, start: Desk<K>, calls: seq<Call<K>>,
                    r: Router<K>, kb: Keyboard, q: Routing<K>)
    requires Reaches(b, cfgs, start, calls, r, kb) && Wired(b, cfgs, r)
    ensures var out := Act(b, cfgs, r, q);
            Reaches(b, cfgs, start, calls + [ActCall(q)], out.router, R.After(kb, out.action))
  {
    hide R.DeskOk, R.Run, Act, Press, Wired;
    RunAppends(b, cfgs, start, calls, ActCall(q));
  }

  lemma ThenResets<K>(b: Bodies<K>, cfgs: map<K, Policy.Config>, start: Desk<K>, calls: seq<Call<K>>,
                      r: Router<K>, kb: Keyboard, how: Resetting<K>)
    requires Reaches(b, cfgs, start, calls, r, kb) && Wired(b, cfgs, r)
    ensures var out := Reset(b, cfgs, r, how);
            Reaches(b, cfgs, start, calls + [ResetCall(how)], out.router, R.After(kb, out.action))
  {
    hide R.DeskOk, R.Run, Reset, Press, Wired;
    RunAppends(b, cfgs, start, calls, ResetCall(how));
  }

  lemma ThenReleased<K>(b: Bodies<K>, cfgs: map<K, Policy.Config>, start: Desk<K>, calls: seq<Call<K>>,
                        r: Router<K>, kb: Keyboard)
    requires Reaches(b, cfgs, start, calls, r, kb)
    ensures Reaches(b, cfgs, start, calls + [ReleasedCall], NotifyInputsReleased(r), RELEASED)
  {
    hide R.DeskOk, R.Run, NotifyInputsReleased, Wired;
    RunAppends(b, cfgs, start, calls, ReleasedCall);
  }

  // --- Two bodies ------------------------------------------------------------------------------------

  datatype Name = Semantic | Menu

  function Two(): Bodies<Name> { Bodies(Semantic, None, Some(Menu)) }

  function Configs(): map<Name, Policy.Config> { map[Semantic := EXAMPLE, Menu := EXAMPLE] }

  function New(): Desk<Name> { Desk(Start(Two(), 0), RELEASED, []) }

  function Both(semantic: Policy.Client, menu: Policy.Client, active: Name, last: int, episode: Option<Episode>)
    : Router<Name>
  {
    Router(map[Semantic := semantic, Menu := menu], 0, active, last, episode)
  }

  lemma BothWired(r: Router<Name>)
    requires r.clients.Keys == {Semantic, Menu}
    ensures Wired(Two(), Configs(), r) && UniqueBodies(Two()) == [Semantic, Menu]
  {
    assert UniqueBodies(Two()) == [Semantic, Menu];
    assert (set k | k in [Semantic, Menu]) == {Semantic, Menu};
    match r.active {
      case Semantic => assert Semantic in r.clients.Keys;
      case Menu => assert Menu in r.clients.Keys;
    }
  }

  lemma StartsBoth()
    ensures New().router == Both(Policy.FRESH, Policy.FRESH, Semantic, -1, None)
    ensures R.DeskOk(Two(), Configs(), New())
    ensures Reaches(Two(), Configs(), New(), [], Both(Policy.FRESH, Policy.FRESH, Semantic, -1, None), RELEASED)
  {
    hide R.DeskOk;
    assert UniqueBodies(Two()) == [Semantic, Menu];
    assert Start(Two(), 0).clients == map[Semantic := Policy.FRESH, Menu := Policy.FRESH];
    R.StartOk(Two(), Configs(), 0);
  }

  function Routes(sequence: int, episode: Episode, tick: Policy.Tick): Routing<Name> {
    Routing(sequence, episode, Ready, map[], Fine, tick)
  }

  /** The active body acts on under its option, or as the first body under its first one. */
  lemma ActsOn(r: Router<Name>, n: nat, episode: Episode, tick: Policy.Tick)
    requires r.clients.Keys == {Semantic, Menu} && n == r.lastSequence + 1 && Wired(Two(), Configs(), r)
    requires r.episode == Some(episode) || (r.episode.None? && BodyForLevel(Two(), episode.level) == r.active)
    ensures var s := Policy.Act(EXAMPLE, r.clients[r.active], r.pitch, n, tick);
            Act(Two(), Configs(), r, Routes(n, episode, tick))
            == Routed(Router(r.clients[r.active := s.client], s.pitch, r.active, n, Some(episode)), s.action)
  {
    hide Policy.Act;
  }

  /** Another option hands the keyboard over. */
  lemma HandsOver(r: Router<Name>, n: nat, episode: Episode, tick: Policy.Tick)
    requires r.clients.Keys == {Semantic, Menu} && n == r.lastSequence + 1 && Wired(Two(), Configs(), r)
    requires r.episode.Some? && r.episode.value.id != episode.id
    ensures var selected := BodyForLevel(Two(), episode.level);
            var reset := Policy.Reset(r.clients[r.active], r.pitch, false, Policy.Written);
            var left := r.clients[r.active := reset.client];
            var s := Policy.Act(EXAMPLE, left[selected], r.pitch, n, tick);
            reset.action.Some? ==>
              Act(Two(), Configs(), r, Routes(n, episode, tick))
              == Routed(Router(left[selected := s.client], s.pitch, selected, n, Some(episode)),
                        if s.action.None? then None else Constructed(Merge(s.action.value, reset.action.value)))
  {
    hide Policy.Act, Policy.Reset, Constructed, Merge;
  }

  /** A reset whose first body cannot let go reaches no other. */
  lemma ResetRaises(r: Router<Name>)
    requires r.clients.Keys == {Semantic, Menu} && Wired(Two(), Configs(), r)
    ensures var reset := Policy.Reset(r.clients[Semantic], r.pitch, true, Policy.Written);
            reset.action.None? ==>
              Reset(Two(), Configs(), r, Resetting(map[], false))
              == Routed(r.(clients := r.clients[Semantic := reset.client]), None)
  {
    hide Policy.Reset;
    BothWired(r);
  }

  // --- A hold that does not fit ------------------------------------------------------------------------

  const MINE := Episode("mine", SkillLevel)
  const CRAFT := Episode("craft", GuiLevel)
  const WALK := Episode("walk", SkillLevel)

  function Acts(sequence: int, episode: Episode, tick: Policy.Tick): Call<Name> {
    ActCall(Routes(sequence, episode, tick))
  }

  function Resets(): Call<Name> { ResetCall(Resetting(map[], false)) }

  /** The semantic body applies two predictions, of sixteen keys and then of seventeen. */
  function Overfills(): seq<Call<Name>> {
    [Acts(0, MINE, WAITS), Acts(1, MINE, Predicts(0, Letters(16), 0, 0)),
     Acts(2, MINE, WAITS), Acts(3, MINE, Predicts(1, Letters(17), 20, 0))]
  }

  ghost predicate Leads(calls: seq<Call<Name>>, r: Router<Name>, kb: Keyboard) {
    Reaches(Two(), Configs(), New(), calls, r, kb)
  }

  lemma StillPressed(kb: Keyboard, sequence: int)
    ensures Press(kb, Neutral(sequence).(durationMs := 50)) == kb
  {
  }

  /** A client that has applied its `n`th prediction, which moved by `dx`. */
  function Moved(n: nat, keys: set<Token>, dx: nat, at: int): Policy.Client {
    Applied(n, keys, at).(queue := Policy.Queue(dx - Min(dx, 12), 0, true),
                          ledger := Policy.Ledger(dx, Min(dx, 12), 0, 0, n))
  }

  lemma MovedNothing(n: nat, keys: set<Token>, at: int)
    ensures Moved(n, keys, 0, at) == Applied(n, keys, at)
  {
  }

  lemma NewIsApplied()
    ensures Applied(0, {}, -1) == Policy.FRESH
  {
  }

  lemma MovedIsOverfull()
    ensures Moved(2, Letters(17), 20, 3) == Overfull()
  {
    hide Letters;
  }

  /** A body asks for its first prediction, or its next one. */
  lemma LeadsToAsking(calls: seq<Call<Name>>, n: nat, held: set<Token>, last: int, at: nat, r: Router<Name>,
                      kb: Keyboard, episode: Episode)
    requires Leads(calls, r, kb) && r.clients.Keys == {Semantic, Menu} && at == r.lastSequence + 1 && last < at
    requires r.active in r.clients && r.clients[r.active] == Applied(n, held, last) && (n == 0 ==> held == {})
    requires r.pitch == 0
    requires r.episode == Some(episode) || (r.episode.None? && BodyForLevel(Two(), episode.level) == r.active)
    ensures Leads(calls + [Acts(at, episode, WAITS)],
                  Router(r.clients[r.active := Asked(n, held, at)], 0, r.active, at, Some(episode)), kb)
  {
    hide Policy.Act, Act, Wired, Reaches, Press, Applied, Asked;
    BothWired(r);
    Asks(EXAMPLE, n, held, last, at);
    ActsOn(r, at, episode, WAITS);
    ThenActs(Two(), Configs(), New(), calls, r, kb, Routes(at, episode, WAITS));
    StillPressed(kb, at);
  }

  /** The answer arrives and is applied. */
  lemma LeadsToApplying(calls: seq<Call<Name>>, n: nat, held: set<Token>, keys: set<Token>, dx: nat, last: int,
                        at: nat, r: Router<Name>, episode: Episode)
    requires Leads(calls, r, Keyboard(held, {})) && r.clients.Keys == {Semantic, Menu} && at == r.lastSequence + 1
    requires r.active in r.clients && r.clients[r.active] == Asked(n, held, last) && last < at
    requires |keys - held| <= 16 && |held - keys| <= 16 && dx <= 24 && r.pitch == 0 && r.episode == Some(episode)
    ensures Leads(calls + [Acts(at, episode, Predicts(n, keys, dx, 0))],
                  Router(r.clients[r.active := Moved(n + 1, keys, dx, at)], 0, r.active, at, Some(episode)),
                  Keyboard(keys, {}))
  {
    hide Policy.Act, Act, Wired, Reaches, Press, Applied, Asked, Predicts;
    BothWired(r);
    Applies(n, held, keys, dx, last, at);
    ActsOn(r, at, episode, Predicts(n, keys, dx, 0));
    ThenActs(Two(), Configs(), New(), calls, r, Keyboard(held, {}), Routes(at, episode, Predicts(n, keys, dx, 0)));
  }

  /** The semantic body asks under its option, or under its first one. */
  lemma SemanticAsks(calls: seq<Call<Name>>, n: nat, held: set<Token>, last: int, at: nat, bound: Option<Episode>,
                     kb: Keyboard, episode: Episode)
    requires Leads(calls, Both(Applied(n, held, last), Policy.FRESH, Semantic, at - 1, bound), kb)
    requires last < at && (n == 0 ==> held == {})
    requires bound == Some(episode) || (bound.None? && episode.level.SkillLevel?)
    ensures Leads(calls + [Acts(at, episode, WAITS)],
                  Both(Asked(n, held, at), Policy.FRESH, Semantic, at, Some(episode)), kb)
  {
    hide Leads, Applied, Asked;
    var r := Both(Applied(n, held, last), Policy.FRESH, Semantic, at - 1, bound);
    LeadsToAsking(calls, n, held, last, at, r, kb, episode);
    assert r.clients[Semantic := Asked(n, held, at)] == map[Semantic := Asked(n, held, at), Menu := Policy.FRESH];
  }

  lemma SemanticApplies(calls: seq<Call<Name>>, n: nat, held: set<Token>, keys: set<Token>, dx: nat, last: int,
                        at: nat, episode: Episode)
    requires Leads(calls, Both(Asked(n, held, last), Policy.FRESH, Semantic, at - 1, Some(episode)),
                   Keyboard(held, {}))
    requires last < at && |keys - held| <= 16 && |held - keys| <= 16 && dx <= 24
    ensures Leads(calls + [Acts(at, episode, Predicts(n, keys, dx, 0))],
                  Both(Moved(n + 1, keys, dx, at), Policy.FRESH, Semantic, at, Some(episode)), Keyboard(keys, {}))
  {
    hide Leads, Asked, Moved, Predicts;
    var r := Both(Asked(n, held, last), Policy.FRESH, Semantic, at - 1, Some(episode));
    LeadsToApplying(calls, n, held, keys, dx, last, at, r, episode);
    var c := Moved(n + 1, keys, dx, at);
    assert r.clients[Semantic := c] == map[Semantic := c, Menu := Policy.FRESH];
  }

  lemma OverfullRun()
    ensures Leads(Overfills(), Both(Overfull(), Policy.FRESH, Semantic, 3, Some(MINE)), Keyboard(Letters(17), {}))
  {
    hide Letters, Predicts, Overfull, Applied, Asked, Leads, Moved, Both;
    LettersAdded();
    NewIsApplied();
    MovedIsOverfull();
    MovedNothing(1, Letters(16), 1);
    var c0, c1 := Acts(0, MINE, WAITS), Acts(1, MINE, Predicts(0, Letters(16), 0, 0));
    var c2, c3 := Acts(2, MINE, WAITS), Acts(3, MINE, Predicts(1, Letters(17), 20, 0));
    LeadsAtStart();
    SemanticAsks([], 0, {}, -1, 0, None, RELEASED, MINE);
    assert [] + [c0] == [c0];
    SemanticApplies([c0], 0, {}, Letters(16), 0, 0, 1, MINE);
    assert [c0] + [c1] == [c0, c1];
    SemanticAsks([c0, c1], 1, Letters(16), 1, 2, Some(MINE), Keyboard(Letters(16), {}), MINE);
    assert [c0, c1] + [c2] == [c0, c1, c2];
    SemanticApplies([c0, c1, c2], 1, Letters(16), Letters(17), 20, 2, 3, MINE);
    assert [c0, c1, c2] + [c3] == Overfills();
  }

  lemma LeadsAtStart()
    ensures Leads([], Both(Policy.FRESH, Policy.FRESH, Semantic, -1, None), RELEASED)
  {
    hide Reaches;
    StartsBoth();
  }

  // --- Resets that raise -----------------------------------------------------------------------------------

  /** The overfull client after resets have raised. */
  function Stuck(at: int): Policy.Client { Overfull().(lastSequence := at) }

  lemma StuckReset(at: nat)
    ensures Policy.Reset(Stuck(at), 0, true, Policy.Written) == Policy.Step(Stuck(at + 1), 0, None)
  {
    hide Letters, Policy.Release;
    ReleaseOutcome(Stuck(at + 1), 0);
  }

  lemma ResetFails(calls: seq<Call<Name>>, at: nat, kb: Keyboard)
    requires Leads(calls, Both(Stuck(at), Policy.FRESH, Semantic, 3, Some(MINE)), kb)
    ensures Leads(calls + [Resets()], Both(Stuck(at + 1), Policy.FRESH, Semantic, 3, Some(MINE)), kb)
  {
    hide Letters, Policy.Reset, Stuck, Reset, Reaches;
    var r := Both(Stuck(at), Policy.FRESH, Semantic, 3, Some(MINE));
    BothWired(r);
    StuckReset(at);
    ResetRaises(r);
    ThenResets(Two(), Configs(), New(), calls, r, kb, Resetting(map[], false));
    assert r.clients[Semantic := Stuck(at + 1)] == map[Semantic := Stuck(at + 1), Menu := Policy.FRESH];
  }

  lemma OverfullIsStuck()
    ensures Overfull() == Stuck(3)
  {
    hide Letters;
  }

  /** A router reset that cannot let go advances the body but not the router, so the next act raises: from a new
      router, after five calls. */
  lemma ResetThenActRaises()
    ensures R.DeskOk(Two(), Configs(), New())
    ensures var r := R.Run(Two(), Configs(), New(), Overfills() + [Resets()]).router;
            && Wired(Two(), Configs(), r) && !R.Level(r)
            && R.Stale(r, Semantic, 4) && Act(Two(), Configs(), r, Routes(4, MINE, WAITS)).action.None?
  {
    hide Letters, Leads, Overfills, Policy.Act, Act, R.Run, R.DeskOk;
    StartsBoth();
    OverfullRun();
    OverfullIsStuck();
    ResetFails(Overfills(), 3, Keyboard(Letters(17), {}));
    var r := Both(Stuck(4), Policy.FRESH, Semantic, 3, Some(MINE));
    LeadsMeans(Overfills() + [Resets()], r, Keyboard(Letters(17), {}));
    BothWired(r);
    ActsOn(r, 4, MINE, WAITS);
    R.StaleAct(EXAMPLE, Stuck(4), 0, 4, WAITS);
  }

  lemma LeadsMeans(calls: seq<Call<Name>>, r: Router<Name>, kb: Keyboard)
    requires Leads(calls, r, kb)
    ensures R.DeskOk(Two(), Configs(), New())
    ensures var d := R.Run(Two(), Configs(), New(), calls); d.router == r && d.keyboard == kb
  {
  }

  // --- A stuck key ---------------------------------------------------------------------------------------

  /** The semantic client once the keyboard was physically released. */
  function Freed(at: int): Policy.Client {
    Policy.FRESH.(lastSequence := at, ledger := Policy.Ledger(20, 12, 8, 0, 2))
  }

  lemma Frees(at: int)
    ensures Policy.NotifyReleased(Stuck(at)) == Freed(at) && Policy.NotifyReleased(Policy.FRESH) == Policy.FRESH
  {
    hide Letters;
  }

  lemma FreedReset(at: nat)
    ensures Policy.Reset(Freed(at), 0, false, Policy.Written) == Policy.Step(Freed(at), 0, Some(Neutral(at)))
  {
    hide Policy.Release;
    ReleaseOutcome(Freed(at), 0);
    NothingFits();
    assert Neutral(at).(keysUp := {}, buttonsUp := {}) == Neutral(at);
  }

  lemma LeadsToFreed(calls: seq<Call<Name>>, at: nat, kb: Keyboard)
    requires Leads(calls, Both(Stuck(at), Policy.FRESH, Semantic, 3, Some(MINE)), kb)
    ensures Leads(calls + [ReleasedCall], Both(Freed(at), Policy.FRESH, Semantic, 3, Some(MINE)), RELEASED)
  {
    hide Stuck, Freed, Reaches, Policy.NotifyReleased;
    var r := Both(Stuck(at), Policy.FRESH, Semantic, 3, Some(MINE));
    Frees(at);
    ThenReleased(Two(), Configs(), New(), calls, r, kb);
    assert NotifyInputsReleased(r).clients == map[Semantic := Freed(at), Menu := Policy.FRESH];
  }

  lemma NothingMerged(sequence: nat, at: int)
    ensures var a := Neutral(sequence).(durationMs := 50); Constructed(Merge(a, Neutral(at))) == Some(a)
  {
  }

  /** A new body takes over from one that holds nothing, and asks. */
  lemma TakesOver(calls: seq<Call<Name>>, r: Router<Name>, at: nat)
    requires Leads(calls, r, RELEASED) && r.clients.Keys == {Semantic, Menu}
    requires r.clients[Semantic] == Freed(at) && r.clients[Menu] == Applied(0, {}, -1)
    requires r.active == Semantic && r.pitch == 0 && r.lastSequence == 3 && r.episode == Some(MINE)
    ensures Leads(calls + [Acts(4, CRAFT, WAITS)],
                  Router(r.clients[Semantic := Freed(at)][Menu := Asked(0, {}, 4)], 0, Menu, 4, Some(CRAFT)), RELEASED)
  {
    hide Policy.Act, Policy.Reset, Act, Reaches, Freed, Asked, Applied, Constructed, Merge, Press, Wired;
    BothWired(r);
    FreedReset(at);
    Asks(EXAMPLE, 0, {}, -1, 4);
    HandsOver(r, 4, CRAFT, WAITS);
    NothingMerged(4, at);
    ThenActs(Two(), Configs(), New(), calls, r, RELEASED, Routes(4, CRAFT, WAITS));
    StillPressed(RELEASED, 4);
  }

  lemma MenuAsks(calls: seq<Call<Name>>, at: nat)
    requires Leads(calls, Both(Freed(at), Policy.FRESH, Semantic, 3, Some(MINE)), RELEASED)
    ensures Leads(calls + [Acts(4, CRAFT, WAITS)], Both(Freed(at), Asked(0, {}, 4), Menu, 4, Some(CRAFT)), RELEASED)
  {
    hide Leads, Freed, Asked, Applied;
    NewIsApplied();
    var r := Both(Freed(at), Policy.FRESH, Semantic, 3, Some(MINE));
    TakesOver(calls, r, at);
    assert r.clients[Semantic := Freed(at)][Menu := Asked(0, {}, 4)]
           == map[Semantic := Freed(at), Menu := Asked(0, {}, 4)];
  }

  lemma OneKey()
    ensures |{"a"} - {}| <= 16 && |{} - {"a"}| <= 16
  {
    var key: set<Token> := {"a"};
    assert key - {} == key && {} - key == {};
  }

  /** Its prediction presses a key. */
  lemma MenuApplies(calls: seq<Call<Name>>, at: nat)
    requires Leads(calls, Both(Freed(at), Asked(0, {}, 4), Menu, 4, Some(CRAFT)), RELEASED)
    ensures Leads(calls + [Acts(5, CRAFT, Predicts(0, {"a"}, 0, 0))],
                  Both(Freed(at), Applied(1, {"a"}, 5), Menu, 5, Some(CRAFT)), Keyboard({"a"}, {}))
  {
    hide Leads, Asked, Applied, Moved, Predicts, Freed, Letters;
    var r := Both(Freed(at), Asked(0, {}, 4), Menu, 4, Some(CRAFT));
    OneKey();
    LeadsToApplying(calls, 0, {}, {"a"}, 0, 4, 5, r, CRAFT);
    MovedNothing(1, {"a"}, 5);
    assert r.clients[Menu := Applied(1, {"a"}, 5)] == map[Semantic := Freed(at), Menu := Applied(1, {"a"}, 5)];
  }

  /** A client that held one key and was reset. */
  function Let(keys: set<Token>): Policy.Client { Policy.ClearInput(Applied(1, keys, 5)) }

  lemma MenuReset(keys: set<Token>)
    requires |keys| <= 16
    ensures var s := Policy.Reset(Applied(1, keys, 5), 0, false, Policy.Written);
            s.client == Let(keys) && s.pitch == 0 && s.action.Some?
    ensures Let(keys).held == RELEASED
  {
    hide Policy.Release;
    ReleaseOutcome(Applied(1, keys, 5), 0);
  }

  /** A body is bound again with a sequence number it has already used: the other body's release is dropped. */
  lemma TakesOverStale(calls: seq<Call<Name>>, r: Router<Name>, keys: set<Token>, kb: Keyboard)
    requires Leads(calls, r, kb) && r.clients.Keys == {Semantic, Menu} && |keys| <= 16
    requires r.clients[Semantic] == Freed(6) && r.clients[Menu] == Applied(1, keys, 5)
    requires r.active == Menu && r.pitch == 0 && r.lastSequence == 5 && r.episode == Some(CRAFT)
    ensures Leads(calls + [Acts(6, WALK, WAITS)],
                  Router(r.clients[Menu := Let(keys)][Semantic := Freed(6)], 0, Semantic, 6, Some(WALK)), kb)
  {
    hide Policy.Act, Policy.Reset, Act, Reaches, Applied, Let, Constructed, Merge, Press, Wired;
    BothWired(r);
    MenuReset(keys);
    R.StaleAct(EXAMPLE, Freed(6), 0, 6, WAITS);
    HandsOver(r, 6, WALK, WAITS);
    ThenActs(Two(), Configs(), New(), calls, r, kb, Routes(6, WALK, WAITS));
  }

  lemma SemanticRaises(calls: seq<Call<Name>>)
    requires Leads(calls, Both(Freed(6), Applied(1, {"a"}, 5), Menu, 5, Some(CRAFT)), Keyboard({"a"}, {}))
    ensures Leads(calls + [Acts(6, WALK, WAITS)],
                  Both(Freed(6), Let({"a"}), Semantic, 6, Some(WALK)), Keyboard({"a"}, {}))
  {
    hide Leads, Freed, Applied, Let;
    var r := Both(Freed(6), Applied(1, {"a"}, 5), Menu, 5, Some(CRAFT));
    TakesOverStale(calls, r, {"a"}, Keyboard({"a"}, {}));
    assert r.clients[Menu := Let({"a"})][Semantic := Freed(6)] == map[Semantic := Freed(6), Menu := Let({"a"})];
  }

  /** The overfull hold, three resets that raise, and a physical release. */
  function Frontier(): seq<Call<Name>> { Overfills() + [Resets()] + [Resets()] + [Resets()] + [ReleasedCall] }

  lemma FrontierRun()
    ensures Leads(Frontier(), Both(Freed(6), Policy.FRESH, Semantic, 3, Some(MINE)), RELEASED)
  {
    hide Letters, Leads, Overfills, Stuck, Freed, Overfull, Both;
    OverfullRun();
    OverfullIsStuck();
    var kb, c := Keyboard(Letters(17), {}), Overfills();
    ResetFails(c, 3, kb);
    ResetFails(c + [Resets()], 4, kb);
    ResetFails(c + [Resets()] + [Resets()], 5, kb);
    LeadsToFreed(c + [Resets()] + [Resets()] + [Resets()], 6, kb);
  }

  /** Then a key is pressed under the other body, and the first body is bound again. */
  function StuckKey(): seq<Call<Name>> {
    Frontier() + [Acts(4, CRAFT, WAITS)] + [Acts(5, CRAFT, Predicts(0, {"a"}, 0, 0))] + [Acts(6, WALK, WAITS)]
  }

  /** From a new router, in eleven calls: a key stays down that no body holds. */
  lemma KeyStaysDown()
    ensures R.DeskOk(Two(), Configs(), New())
    ensures var d := R.Run(Two(), Configs(), New(), StuckKey());
            && d.keyboard == Keyboard({"a"}, {})
            && forall k :: k in d.router.clients ==> d.router.clients[k].held == RELEASED
  {
    hide Leads, Frontier, R.Run, R.DeskOk, Applied, Asked, Let, Predicts;
    FrontierRun();
    MenuAsks(Frontier(), 6);
    MenuApplies(Frontier() + [Acts(4, CRAFT, WAITS)], 6);
    SemanticRaises(Frontier() + [Acts(4, CRAFT, WAITS)] + [Acts(5, CRAFT, Predicts(0, {"a"}, 0, 0))]);
    LeadsMeans(StuckKey(), Both(Freed(6), Let({"a"}), Semantic, 6, Some(WALK)), Keyboard({"a"}, {}));
    MenuReset({"a"});
  }

  // --- A release that the observer drops ------------------------------------------------------------------

  /** A key is pressed, and the reset that lets go of it raises after that, in the observer. */
  function Dropped(): seq<Call<Name>> {
    [Acts(0, MINE, WAITS), Acts(1, MINE, Predicts(0, {"a"}, 0, 0)), ResetCall(Resetting(map[], true))]
  }

  lemma OneKeyHeld()
    ensures Leads(Dropped()[..2], Both(Applied(1, {"a"}, 1), Policy.FRESH, Semantic, 1, Some(MINE)),
                  Keyboard({"a"}, {}))
  {
    hide Leads, Predicts, Applied, Asked, Moved, Both;
    NewIsApplied();
    MovedNothing(1, {"a"}, 1);
    OneKey();
    var c0, c1 := Acts(0, MINE, WAITS), Acts(1, MINE, Predicts(0, {"a"}, 0, 0));
    LeadsAtStart();
    SemanticAsks([], 0, {}, -1, 0, None, RELEASED, MINE);
    assert [] + [c0] == [c0];
    SemanticApplies([c0], 0, {}, {"a"}, 0, 0, 1, MINE);
    assert [c0] + [c1] == Dropped()[..2];
  }

  /** From a new router, in three calls: the key stays down, no body holds it, and a body is ahead of the router. */
  lemma ObserverDropsRelease()
    ensures R.DeskOk(Two(), Configs(), New())
    ensures var d := R.Run(Two(), Configs(), New(), Dropped()); !R.InStep(d) && !R.Level(d.router)
  {
    hide Leads, R.DeskOk, R.Run, Predicts, Step, R.Moves, R.Follows, Reset;
    OneKeyHeld();
    var r := Both(Applied(1, {"a"}, 1), Policy.FRESH, Semantic, 1, Some(MINE));
    LeadsMeans(Dropped()[..2], r, Keyboard({"a"}, {}));
    var d, call := R.Run(Two(), Configs(), New(), Dropped()[..2]), ResetCall(Resetting(map[], true));
    assert Dropped() == Dropped()[..2] + [call];
    RunAppends(Two(), Configs(), New(), Dropped()[..2], call);
    BothWired(r);
    OneKeyLoses(r);
    R.StepKept(Two(), Configs(), d, call);
    OneKeyLevel();
    R.StepLevelIff(Two(), Configs(), d, call);
  }

  lemma OneKeyLevel()
    ensures R.Level(Both(Applied(1, {"a"}, 1), Policy.FRESH, Semantic, 1, Some(MINE)))
  {
  }

  lemma OneKeyLoses(r: Router<Name>)
    requires r == Both(Applied(1, {"a"}, 1), Policy.FRESH, Semantic, 1, Some(MINE)) && Wired(Two(), Configs(), r)
    ensures var call := ResetCall(Resetting(map[], true));
            R.Loses(Two(), Configs(), r, call) && R.Unlevels(Two(), r, call)
  {
    var kb := Keyboard({"a"}, {});
    BothWired(r);
    assert r.clients[Semantic].held == kb && "a" in kb.keys;
    assert R.Advanced(Semantic, kb, [Semantic, Menu], map[])[0] == Semantic;
  }
}
