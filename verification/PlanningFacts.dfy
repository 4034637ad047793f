/** Sorting, depth-independence and shape of the expansion, and the schedule flattened from it. */
module PlanningFacts {
  import opened Common
  import opened PlanningModel

  // --- Sorting ------------------------------------------------------------------------------------

  predicate Ordered(s: seq<Acquisition>) {
    forall i, j :: 0 <= i < j < |s| ==> !Before(KeyOf(s[j]), KeyOf(s[i]))
  }

  /** The options with one key, in order. */
  function WithKey(s: seq<Acquisition>, key: Key): seq<Acquisition> {
    if s == [] then [] else (if KeyOf(s[0]) == key then [s[0]] else []) + WithKey(s[1..], key)
  }

  lemma BeforeIsWeakOrder(a: Key, b: Key, c: Key)
    ensures Before(a, b) ==> !Before(b, a)
    ensures !Before(a, b) && !Before(b, c) ==> !Before(a, c)
  {
  }

  lemma {:induction false} InsertMembers(a: Acquisition, s: seq<Acquisition>)
    ensures forall x :: x in Insert(a, s) <==> x == a || x in s
  {
    if s != [] && Before(KeyOf(s[0]), KeyOf(a)) {
      InsertMembers(a, s[1..]);
      assert s == [s[0]] + s[1..];
    }
  }

  lemma OrderedFrom(first: Acquisition, s: seq<Acquisition>)
    requires Ordered(s) && forall x :: x in s ==> !Before(KeyOf(x), KeyOf(first))
    ensures Ordered([first] + s)
  {
    hide Before;
  }

  lemma {:induction false} InsertOrdered(a: Acquisition, s: seq<Acquisition>)
    requires Ordered(s)
    ensures Ordered(Insert(a, s))
  {
    hide Before, KeyOf;
    if s != [] && Before(KeyOf(s[0]), KeyOf(a)) {
      InsertOrdered(a, s[1..]);
      InsertMembers(a, s[1..]);
      BeforeIsWeakOrder(KeyOf(s[0]), KeyOf(a), KeyOf(a));
      forall x | x in Insert(a, s[1..])
        ensures !Before(KeyOf(x), KeyOf(s[0]))
      {
        if x in s[1..] {
          var k :| 0 <= k < |s| - 1 && s[1..][k] == x;
          assert s[k + 1] == x;
        }
      }
      OrderedFrom(s[0], Insert(a, s[1..]));
    } else {
      forall x | x in s
        ensures !Before(KeyOf(x), KeyOf(a))
      {
        BeforeIsWeakOrder(KeyOf(x), KeyOf(s[0]), KeyOf(a));
        BeforeIsWeakOrder(KeyOf(s[0]), KeyOf(s[0]), KeyOf(s[0]));
        var k :| 0 <= k < |s| && s[k] == x;
      }
      OrderedFrom(a, s);
    }
  }

  lemma {:induction false} InsertStable(a: Acquisition, s: seq<Acquisition>, key: Key)
    ensures WithKey(Insert(a, s), key) == WithKey([a] + s, key)
  {
    if s != [] && Before(KeyOf(s[0]), KeyOf(a)) {
      InsertStable(a, s[1..], key);
      assert KeyOf(s[0]) != KeyOf(a);
      assert ([a] + s)[1..] == s;
      assert ([a] + s[1..])[1..] == s[1..];
      assert ([s[0]] + Insert(a, s[1..]))[1..] == Insert(a, s[1..]);
    }
  }

  /** Sorting orders by key and keeps the options of each key as they were: a stable permutation. */
  lemma {:induction false} SortIsStable(s: seq<Acquisition>, key: Key)
    ensures Ordered(Sort(s)) && WithKey(Sort(s), key) == WithKey(s, key)
    ensures forall x :: x in Sort(s) <==> x in s
  {
    if s != [] {
      SortIsStable(s[1..], key);
      InsertOrdered(s[0], Sort(s[1..]));
      InsertMembers(s[0], Sort(s[1..]));
      InsertStable(s[0], Sort(s[1..]), key);
      assert s == [s[0]] + s[1..];
      assert ([s[0]] + Sort(s[1..]))[1..] == Sort(s[1..]);
    }
  }

  /** The best option of a sorted slot is its first, so costs add up over heads. */
  lemma {:induction false} BestOfOrdered(s: seq<Acquisition>)
    requires s != [] && Ordered(s)
    ensures Best(s) == s[0]
  {
    if |s| > 1 {
      BestOfOrdered(s[1..]);
      assert s[1] == s[1..][0];
    }
  }

  /** Any other order of looking gives the same: the best option is the head of the sorted options. */
  lemma {:induction false} BestIsHeadOfSort(s: seq<Acquisition>)
    requires s != []
    ensures Sort(s) != [] && Best(s) == Sort(s)[0]
  {
    if |s| > 1 {
      BestIsHeadOfSort(s[1..]);
    } else {
      assert s == [s[0]];
    }
  }

  // --- Depth ------------------------------------------------------------------------------------------

  /** Every call at this path is as deep as the path is long, and the limits lie beyond all targets
      that have methods. */
  ghost predicate Deep(k: Knowledge, path: set<Node>, depth: nat, m: nat, n: nat) {
    path <= Craftable(k) && depth == |path| && |Craftable(k)| < m && |Craftable(k)| < n
  }

  lemma PathFits(k: Knowledge, path: set<Node>)
    requires path <= Craftable(k)
    ensures |path| <= |Craftable(k)|
  {
    var rest := Craftable(k) - path;
    assert Craftable(k) == path + rest;
    assert |path + rest| == |path| + |rest|;
  }

  lemma {:induction false} ExpandIgnoresLimit(
    k: Knowledge, target: Node, q: real, available: set<Node>, path: set<Node>, depth: nat, m: nat, n: nat)
    requires Deep(k, path, depth, m, n)
    ensures Expand(k, target, q, available, path, depth, m) == Expand(k, target, q, available, path, depth, n)
    decreases Unexpanded(k, path), 0, 0
  {
    PathFits(k, path);
    if target !in available && target !in path && MethodsOf(k, target) != [] {
      PathShrinks(k, path, target);
      MethodsIgnoreLimit(k, MethodsOf(k, target), q, available, path + {target}, depth + 1, m, n);
    }
  }

  lemma {:induction false} MethodsIgnoreLimit(
    k: Knowledge, methods: seq<Method>, q: real, available: set<Node>, path: set<Node>, depth: nat, m: nat, n: nat)
    requires Deep(k, path, depth, m, n)
    ensures ExpandMethods(k, methods, q, available, path, depth, m)
            == ExpandMethods(k, methods, q, available, path, depth, n)
    decreases Unexpanded(k, path), 4, |methods|
  {
    if methods != [] {
      SlotsIgnoreLimit(k, methods[0].process, methods[0].requirements, Batches(methods[0], q), available, path, depth,
                       m, n);
      MethodsIgnoreLimit(k, methods[1..], q, available, path, depth, m, n);
    }
  }

  lemma {:induction false} SlotsIgnoreLimit(
    k: Knowledge, process: string, requirements: seq<Requirement>, batches: real, available: set<Node>,
    path: set<Node>, depth: nat, m: nat, n: nat)
    requires Deep(k, path, depth, m, n)
    ensures ExpandSlots(k, process, requirements, batches, available, path, depth, m)
            == ExpandSlots(k, process, requirements, batches, available, path, depth, n)
    decreases Unexpanded(k, path), 2, |requirements|
  {
    if requirements != [] {
      SlotIgnoresLimit(k, process, requirements[0], batches, available, path, depth, m, n);
      SlotsIgnoreLimit(k, process, requirements[1..], batches, available, path, depth, m, n);
    }
  }

  lemma {:induction false} SlotIgnoresLimit(
    k: Knowledge, process: string, r: Requirement, batches: real, available: set<Node>,
    path: set<Node>, depth: nat, m: nat, n: nat)
    requires Deep(k, path, depth, m, n)
    ensures ExpandSlot(k, process, r, batches, available, path, depth, m)
            == ExpandSlot(k, process, r, batches, available, path, depth, n)
    decreases Unexpanded(k, path), 2, 0
  {
    AlternativesIgnoreLimit(k, r.alternatives, Needed(r, batches), available, path, depth, m, n);
  }

  lemma {:induction false} AlternativesIgnoreLimit(
    k: Knowledge, alternatives: seq<Node>, q: real, available: set<Node>, path: set<Node>, depth: nat, m: nat, n: nat)
    requires Deep(k, path, depth, m, n)
    ensures ExpandAlternatives(k, alternatives, q, available, path, depth, m)
            == ExpandAlternatives(k, alternatives, q, available, path, depth, n)
    decreases Unexpanded(k, path), 1, |alternatives|
  {
    if alternatives != [] {
      ExpandIgnoresLimit(k, alternatives[0], q, available, path, depth, m, n);
      AlternativesIgnoreLimit(k, alternatives[1..], q, available, path, depth, m, n);
    }
  }

  /** Any two depth limits above the number of targets that have methods give the same options. */
  lemma DepthIndependence(k: Knowledge, target: Node, q: real, available: set<Node>, m: nat, n: nat)
    requires |Craftable(k)| < m && |Craftable(k)| < n
    ensures Options(k, target, q, available, m) == Options(k, target, q, available, n)
  {
    ExpandIgnoresLimit(k, target, RMax(1.0, q), available, {}, 0, m, n);
  }

  /** One less is not enough: a limit equal to that number loses the cost of a raw ingredient. */
  lemma DepthBoundIsTight()
    ensures var k := Knowledge({"plank", "log"}, map["plank" := [SAW]]);
            && |Craftable(k)| == 1
            && Options(k, "plank", 1.0, {}, 1) != Options(k, "plank", 1.0, {}, 2)
  {
    var k := Knowledge({"plank", "log"}, map["plank" := [SAW]]);
    assert Craftable(k) == {"plank"};
    Plank(k, 1);
    Plank(k, 2);
  }

  const SAW := Method("saw", "plank", 1.0, [Requirement(1.0, ["log"])])

  lemma LogSlot(k: Knowledge, m: nat)
    requires k.methods == map["plank" := [SAW]] && 1 <= m <= 2
    ensures var slot := ExpandSlot(k, "saw", Requirement(1.0, ["log"]), 1.0, {}, {"plank"}, 1, m);
            |slot.options| == 1 && slot.options[0].leafCost == if m == 1 then 0.0 else 1.0
  {
    var q := Needed(Requirement(1.0, ["log"]), 1.0);
    assert q == 1.0;
    assert MethodsOf(k, "log") == [];
    var log := Expand(k, "log", q, {}, {"plank"}, 1, m);
    assert |log| == 1;
    assert ["log"][1..] == [];
    assert ExpandAlternatives(k, ["log"], q, {}, {"plank"}, 1, m) == log;
    assert log[1..] == [];
    assert Sort(log) == log;
  }

  lemma Plank(k: Knowledge, m: nat)
    requires k.methods == map["plank" := [SAW]] && "plank" in k.nodes && 1 <= m <= 2
    ensures var options := Options(k, "plank", 1.0, {}, m);
            options.Some? && |options.value| == 1 && options.value[0].leafCost == if m == 1 then 0.0 else 1.0
  {
    hide ExpandSlot;
    var path := {} + {"plank"};
    assert path == {"plank"};
    LogSlot(k, m);
    var r := Requirement(1.0, ["log"]);
    var slot := ExpandSlot(k, "saw", r, 1.0, {}, path, 1, m);
    assert [r][1..] == [];
    assert ExpandSlots(k, "saw", [r], 1.0, {}, path, 1, m) == [slot];
    assert [slot][..0] == [];
    assert HeadCost([slot]) == slot.options[0].leafCost;
    assert Batches(SAW, 1.0) == 1.0;
    var plank := ExpandMethod(k, SAW, 1.0, {}, path, 1, m);
    assert plank.leafCost == slot.options[0].leafCost;
    assert [SAW][1..] == [];
    assert ExpandMethods(k, [SAW], 1.0, {}, path, 1, m) == [plank];
    assert [plank][1..] == [];
    assert Sort([plank]) == [plank];
    assert MethodsOf(k, "plank") == [SAW];
  }

  // --- The shape of a tree --------------------------------------------------------------------------

  /** What the knowledge graph guarantees: a method yields its own target, and needs positive amounts. */
  ghost predicate WellFormed(k: Knowledge) {
    forall t, m | t in k.methods && m in k.methods[t] ::
      m.target == t && forall r :: r in m.requirements ==> 0.0 < r.quantity
  }

  /** A tree below `path`: no target with a method is expanded twice on a branch, a repeat is marked
      cyclic, leaves are what they say they are, and every expanded node costs what the cheapest,
      first option of each slot costs. */
  ghost predicate Shaped(k: Knowledge, available: set<Node>, path: set<Node>, t: Acquisition)
    decreases t
  {
    && 0.0 < t.quantity && 0.0 <= t.leafCost
    && if t.process.None? then
         && t.requirements == []
         && (t.available ==> t.target in available && !t.cyclic && !t.unresolved && t.leafCost == 0.0)
         && (t.cyclic ==> t.target in path && t.target !in available && !t.unresolved && t.leafCost == 0.0)
         && (t.available || t.cyclic || t.unresolved)
       else
         && !t.available && !t.cyclic && !t.unresolved
         && t.target in Craftable(k) && t.target !in path && t.target !in available
         && t.leafCost == HeadCost(t.requirements)
         && forall i | 0 <= i < |t.requirements| :: SlotShaped(k, available, path + {t.target}, t.requirements[i])
  }

  ghost predicate SlotShaped(k: Knowledge, available: set<Node>, path: set<Node>, s: Slot)
    decreases s
  {
    && s.options != [] && Ordered(s.options)
    && forall j | 0 <= j < |s.options| :: Shaped(k, available, path, s.options[j])
  }

  ghost predicate AllShaped(k: Knowledge, available: set<Node>, path: set<Node>, s: seq<Acquisition>) {
    forall t :: t in s ==> Shaped(k, available, path, t)
  }

  lemma SortShaped(k: Knowledge, available: set<Node>, path: set<Node>, s: seq<Acquisition>)
    requires AllShaped(k, available, path, s)
    ensures Ordered(Sort(s)) && AllShaped(k, available, path, Sort(s)) && (Sort(s) == [] <==> s == [])
  {
    hide Shaped, Ordered, Sort;
    SortIsStable(s, Key(false, false, false, 0.0, 0));
    if s != [] {
      assert s[0] in Sort(s);
    }
    if Sort(s) != [] {
      assert Sort(s)[0] in s;
    }
  }

  lemma {:induction false} ExpandShaped(
    k: Knowledge, target: Node, q: real, available: set<Node>, path: set<Node>, depth: nat, m: nat)
    requires WellFormed(k) && 0.0 < q
    ensures AllShaped(k, available, path, Expand(k, target, q, available, path, depth, m))
    decreases Unexpanded(k, path), 0, 0
  {
    if target !in available && target !in path && depth < m && MethodsOf(k, target) != [] {
      hide Shaped, Sort;
      PathShrinks(k, path, target);
      MethodsShaped(k, target, MethodsOf(k, target), q, available, path, depth + 1, m);
      SortShaped(k, available, path,
                 ExpandMethods(k, MethodsOf(k, target), q, available, path + {target}, depth + 1, m));
    }
  }

  lemma {:induction false} MethodsShaped(
    k: Knowledge, target: Node, methods: seq<Method>, q: real, available: set<Node>, path: set<Node>,
    depth: nat, m: nat)
    requires WellFormed(k) && 0.0 < q && target in Craftable(k) && target !in path && target !in available
    requires forall x :: x in methods ==> x in k.methods[target]
    ensures AllShaped(k, available, path, ExpandMethods(k, methods, q, available, path + {target}, depth, m))
    decreases Unexpanded(k, path + {target}), 4, |methods|
  {
    if methods != [] {
      var x, below := methods[0], path + {target};
      var batches := Batches(x, q);
      SlotsShaped(k, x.process, x.requirements, batches, available, below, depth, m);
      var slots := ExpandSlots(k, x.process, x.requirements, batches, available, below, depth, m);
      assert Shaped(k, available, path, ExpandMethod(k, x, q, available, below, depth, m));
      MethodsShaped(k, target, methods[1..], q, available, path, depth, m);
      hide Shaped;
    }
  }

  lemma {:induction false} HeadCostAppends(slot: Slot, slots: seq<Slot>)
    ensures HeadCost([slot] + slots) == (if slot.options == [] then 0.0 else slot.options[0].leafCost) + HeadCost(slots)
  {
    if slots == [] {
      assert ([slot] + slots)[..0] == [];
    } else {
      HeadCostAppends(slot, slots[..|slots| - 1]);
      assert ([slot] + slots)[..|slots|] == [slot] + slots[..|slots| - 1];
    }
  }

  lemma {:induction false} SlotsShaped(
    k: Knowledge, process: string, requirements: seq<Requirement>, batches: real, available: set<Node>,
    path: set<Node>, depth: nat, m: nat)
    requires WellFormed(k) && 0.0 < batches && forall r :: r in requirements ==> 0.0 < r.quantity
    ensures var slots := ExpandSlots(k, process, requirements, batches, available, path, depth, m);
            0.0 <= HeadCost(slots) && forall i | 0 <= i < |slots| :: SlotShaped(k, available, path, slots[i])
    decreases Unexpanded(k, path), 2, |requirements|
  {
    if requirements != [] {
      hide Ordered;
      SlotIsShaped(k, process, requirements[0], batches, available, path, depth, m);
      SlotsShaped(k, process, requirements[1..], batches, available, path, depth, m);
      HeadCostAppends(ExpandSlot(k, process, requirements[0], batches, available, path, depth, m),
                      ExpandSlots(k, process, requirements[1..], batches, available, path, depth, m));
    }
  }

  lemma NeededPositive(r: Requirement, batches: real)
    requires 0.0 < r.quantity && 0.0 < batches
    ensures 0.0 < Needed(r, batches)
  {
  }

  lemma {:induction false} SlotIsShaped(
    k: Knowledge, process: string, r: Requirement, batches: real, available: set<Node>, path: set<Node>,
    depth: nat, m: nat)
    requires WellFormed(k) && 0.0 < batches && 0.0 < r.quantity
    ensures SlotShaped(k, available, path, ExpandSlot(k, process, r, batches, available, path, depth, m))
    decreases Unexpanded(k, path), 2, 0
  {
    NeededPositive(r, batches);
    var alternatives := ExpandAlternatives(k, r.alternatives, Needed(r, batches), available, path, depth, m);
    AlternativesShaped(k, r.alternatives, Needed(r, batches), available, path, depth, m);
    SortShaped(k, available, path, alternatives);
    if alternatives != [] {
      hide Shaped, Ordered, Sort;
      assert ExpandSlot(k, process, r, batches, available, path, depth, m) == Slot(Sort(alternatives));
    }
  }

  lemma {:induction false} AlternativesShaped(
    k: Knowledge, alternatives: seq<Node>, q: real, available: set<Node>, path: set<Node>, depth: nat, m: nat)
    requires WellFormed(k) && 0.0 < q
    ensures AllShaped(k, available, path, ExpandAlternatives(k, alternatives, q, available, path, depth, m))
    decreases Unexpanded(k, path), 1, |alternatives|
  {
    hide Shaped;
    if alternatives != [] {
      ExpandShaped(k, alternatives[0], q, available, path, depth, m);
      AlternativesShaped(k, alternatives[1..], q, available, path, depth, m);
    }
  }

  /** A target the graph does not have is refused; every option offered for any other has this shape, sorted best
      first, at any depth limit, and the first is the best plan. */
  lemma OptionsShaped(k: Knowledge, target: Node, q: real, available: set<Node>, m: nat)
    requires WellFormed(k)
    ensures var options, best := Options(k, target, q, available, m), BestPlan(k, target, q, available, m);
            if target !in k.nodes then options.None? && best.None?
            else
              && options.Some? && options.value != [] && Ordered(options.value)
              && AllShaped(k, available, {}, options.value) && best == Some(options.value[0])
  {
    hide Shaped, Before;
    ExpandShaped(k, target, RMax(1.0, q), available, {}, 0, m);
    ExpandOrdered(k, target, RMax(1.0, q), available, {}, 0, m);
    BestOfOrdered(Expand(k, target, RMax(1.0, q), available, {}, 0, m));
  }

  lemma ExpandOrdered(k: Knowledge, target: Node, q: real, available: set<Node>, path: set<Node>, depth: nat, m: nat)
    ensures var options := Expand(k, target, q, available, path, depth, m); options != [] && Ordered(options)
  {
    if target !in available && target !in path && depth < m && MethodsOf(k, target) != [] {
      hide Before;
      PathShrinks(k, path, target);
      var plans := ExpandMethods(k, MethodsOf(k, target), q, available, path + {target}, depth + 1, m);
      assert plans != [] && plans[0] in plans;
      SortIsStable(plans, Key(false, false, false, 0.0, 0));
    }
  }

  // --- The flattened schedule ---------------------------------------------------------------------------

  /** Steps numbered from `counter` on, each after everything it needs. */
  predicate Scheduled(steps: seq<PlanStep>, counter: nat) {
    forall i :: 0 <= i < |steps| ==>
      steps[i].id == counter + i && forall p :: p in steps[i].prerequisites ==> counter <= p < counter + i
  }

  lemma ScheduledConcat(a: seq<PlanStep>, b: seq<PlanStep>, counter: nat)
    requires Scheduled(a, counter) && Scheduled(b, counter + |a|)
    ensures Scheduled(a + b, counter)
  {
  }

  lemma {:induction false} FlattenScheduled(t: Acquisition, counter: nat)
    ensures Scheduled(Flatten(t, counter), counter)
    decreases t, 1, 0
  {
    SlotsScheduled(t, |t.requirements|, counter);
    var below := FlattenSlots(t, |t.requirements|, counter);
    ScheduledConcat(below.steps, [PlanStep(counter + |below.steps|, t.target, [], t.leafCost)], counter);
  }

  lemma {:induction false} SlotsScheduled(t: Acquisition, n: nat, counter: nat)
    requires n <= |t.requirements|
    ensures var below := FlattenSlots(t, n, counter);
            && Scheduled(below.steps, counter)
            && forall p :: p in below.ids ==> counter <= p < counter + |below.steps|
    decreases t, 0, n
  {
    if n > 0 {
      hide Best, Flatten;
      SlotsScheduled(t, n - 1, counter);
      var front := FlattenSlots(t, n - 1, counter);
      var options := t.requirements[n - 1].options;
      if options != [] {
        BestIn(options);
        FlattenScheduled(Best(options), counter + |front.steps|);
        ScheduledConcat(front.steps, Flatten(Best(options), counter + |front.steps|), counter);
      }
    }
  }

  lemma {:induction false} ReadyHolds(steps: seq<PlanStep>, completed: set<nat>)
    ensures forall s :: s in Ready(steps, completed) <==>
              s in steps && s.id !in completed && forall p :: p in s.prerequisites ==> p in completed
  {
    if steps != [] {
      ReadyHolds(steps[1..], completed);
      assert steps == [steps[0]] + steps[1..];
    }
  }

  lemma {:induction false} InvalidHolds(steps: seq<PlanStep>, ids: set<nat>)
    ensures forall s :: s in Invalid(steps, ids) <==> s in steps && exists p :: p in s.prerequisites && p !in ids
  {
    if steps != [] {
      InvalidHolds(steps[1..], ids);
      assert steps == [steps[0]] + steps[1..];
    }
  }

  /** The first step not done has everything it needs. */
  lemma {:induction false} FirstIncomplete(steps: seq<PlanStep>, completed: set<nat>, n: nat)
    requires Scheduled(steps, 0) && n < |steps| && steps[n].id !in completed
    ensures exists s :: s in steps && s.id !in completed && forall p :: p in s.prerequisites ==> p in completed
    decreases n
  {
    if p :| p in steps[n].prerequisites && p !in completed {
      assert steps[p].id == p;
      FirstIncomplete(steps, completed, p);
    } else {
      assert steps[n] in steps;
    }
  }

  lemma HeadIn<T>(s: seq<T>)
    ensures s == [] || s[0] in s
  {
  }

  lemma ScheduleIsValid(steps: seq<PlanStep>)
    requires Scheduled(steps, 0)
    ensures Invalid(steps, Ids(steps)) == []
  {
    hide Invalid;
    InvalidHolds(steps, Ids(steps));
    forall s, p | s in steps && p in s.prerequisites
      ensures p in Ids(steps)
    {
      var i :| 0 <= i < |steps| && steps[i] == s;
      assert steps[p] in steps && steps[p].id == p;
    }
    HeadIn(Invalid(steps, Ids(steps)));
  }

  lemma ScheduleProgresses(steps: seq<PlanStep>, completed: set<nat>)
    requires Scheduled(steps, 0)
    ensures Ready(steps, completed) == [] <==> Ids(steps) <= completed
  {
    hide Ready;
    ReadyHolds(steps, completed);
    if !(Ids(steps) <= completed) {
      var s :| s in steps && s.id !in completed;
      var n :| 0 <= n < |steps| && steps[n] == s;
      FirstIncomplete(steps, completed, n);
      var r :| r in steps && r.id !in completed && forall p :: p in r.prerequisites ==> p in completed;
      assert r in Ready(steps, completed);
    } else {
      HeadIn(Ready(steps, completed));
    }
  }

  /** A flattened tree is an executable schedule: step numbers are unique, prerequisites name earlier
      steps of the plan, and whatever has been completed, some step is ready until all are. */
  lemma FlatteningIsASchedule(t: Acquisition, completed: set<nat>)
    ensures var steps := Flatten(t, 0);
            && (forall i, j :: 0 <= i < j < |steps| ==> steps[i].id != steps[j].id)
            && (forall i :: 0 <= i < |steps| ==> forall p :: p in steps[i].prerequisites ==> p < steps[i].id)
            && Invalid(steps, Ids(steps)) == []
            && (Ready(steps, completed) == [] <==> Ids(steps) <= completed)
  {
    hide Flatten, Ready, Invalid, Ids;
    FlattenScheduled(t, 0);
    ScheduleIsValid(Flatten(t, 0));
    ScheduleProgresses(Flatten(t, 0), completed);
  }

  // --- The schedule costs what the tree promised ----------------------------------------------------------

  /** What the steps that wait for nothing cost together. */
  function LeafCost(steps: seq<PlanStep>): real {
    if steps == [] then 0.0
    else
      var last := steps[|steps| - 1];
      LeafCost(steps[..|steps| - 1]) + if last.prerequisites == [] then last.cost else 0.0
  }

  lemma {:induction false} LeafCostConcat(a: seq<PlanStep>, b: seq<PlanStep>)
    ensures LeafCost(a + b) == LeafCost(a) + LeafCost(b)
    decreases |b|
  {
    if b == [] {
      assert a + b == a;
    } else {
      LeafCostConcat(a, b[..|b| - 1]);
      assert (a + b)[..|a + b| - 1] == a + b[..|b| - 1];
    }
  }

  /** Along the chosen branch: slots are filled and sorted, and expanded nodes cost what their heads do. */
  ghost predicate Priced(t: Acquisition)
    decreases t
  {
    && (t.requirements != [] ==> t.leafCost == HeadCost(t.requirements))
    && forall i | 0 <= i < |t.requirements| ::
         && t.requirements[i].options != [] && Ordered(t.requirements[i].options)
         && Priced(t.requirements[i].options[0])
  }

  lemma {:induction false} ShapedIsPriced(k: Knowledge, available: set<Node>, path: set<Node>, t: Acquisition)
    requires Shaped(k, available, path, t)
    ensures Priced(t)
    decreases t
  {
    hide Ordered;
    forall i | 0 <= i < |t.requirements|
      ensures t.requirements[i].options != [] && Ordered(t.requirements[i].options)
      ensures Priced(t.requirements[i].options[0])
    {
      assert SlotShaped(k, available, path + {t.target}, t.requirements[i]);
      ShapedIsPriced(k, available, path + {t.target}, t.requirements[i].options[0]);
    }
  }

  lemma {:induction false} FlattenPriced(t: Acquisition, counter: nat)
    requires Priced(t)
    ensures LeafCost(Flatten(t, counter)) == t.leafCost
    decreases t, 1, 0
  {
    hide Ordered;
    SlotsPriced(t, |t.requirements|, counter);
    var below := FlattenSlots(t, |t.requirements|, counter);
    var last := PlanStep(counter + |below.steps|, t.target, below.ids, t.leafCost);
    assert (below.steps + [last])[..|below.steps|] == below.steps;
    assert t.requirements[..|t.requirements|] == t.requirements;
  }

  lemma PricedSlot(t: Acquisition, i: nat)
    requires Priced(t) && i < |t.requirements|
    ensures var options := t.requirements[i].options;
            options != [] && Best(options) == options[0] && Priced(options[0])
  {
    BestOfOrdered(t.requirements[i].options);
  }

  lemma HeadCostOfPrefix(slots: seq<Slot>, n: nat)
    requires 0 < n <= |slots| && slots[n - 1].options != []
    ensures HeadCost(slots[..n]) == HeadCost(slots[..n - 1]) + slots[n - 1].options[0].leafCost
  {
    assert slots[..n][..n - 1] == slots[..n - 1];
  }

  lemma NoSlots(t: Acquisition, counter: nat)
    ensures FlattenSlots(t, 0, counter) == Flattened([], []) && LeafCost([]) == HeadCost(t.requirements[..0]) == 0.0
  {
    assert t.requirements[..0] == [];
  }

  lemma FlattenSlotsStep(t: Acquisition, n: nat, counter: nat)
    requires 0 < n <= |t.requirements| && t.requirements[n - 1].options != []
    ensures var front := FlattenSlots(t, n - 1, counter);
            var steps := Flatten(Best(t.requirements[n - 1].options), counter + |front.steps|);
            FlattenSlots(t, n, counter) == Flattened(front.steps + steps, front.ids + [steps[|steps| - 1].id])
  {
    hide Best, Flatten;
  }

  lemma {:induction false} SlotsPriced(t: Acquisition, n: nat, counter: nat)
    requires Priced(t) && n <= |t.requirements|
    ensures var below := FlattenSlots(t, n, counter);
            && LeafCost(below.steps) == HeadCost(t.requirements[..n]) && (below.ids == [] <==> n == 0)
            && (n == 0 ==> below.steps == [])
    decreases t, 0, n
  {
    hide Priced, Best, Flatten, LeafCost, HeadCost, FlattenSlots;
    if n == 0 {
      NoSlots(t, counter);
    } else {
      SlotsPriced(t, n - 1, counter);
      var front := FlattenSlots(t, n - 1, counter);
      var options := t.requirements[n - 1].options;
      PricedSlot(t, n - 1);
      FlattenSlotsStep(t, n, counter);
      var best, at := Best(options), counter + |front.steps|;
      FlattenPriced(best, at);
      var steps := Flatten(best, at);
      LeafCostConcat(front.steps, steps);
      HeadCostOfPrefix(t.requirements, n);
      assert FlattenSlots(t, n, counter).steps == front.steps + steps;
      assert LeafCost(front.steps + steps) == HeadCost(t.requirements[..n - 1]) + best.leafCost;
    }
  }

  /** The steps that need nothing first cost, together, exactly what the chosen tree estimated. */
  lemma ScheduleCostsItsEstimate(k: Knowledge, target: Node, q: real, available: set<Node>, m: nat)
    requires WellFormed(k)
    ensures var tree := BestPlan(k, target, q, available, m);
            tree.Some? ==> LeafCost(Flatten(tree.value, 0)) == tree.value.leafCost
  {
    hide Flatten, Shaped, Priced, BestPlan, Options, LeafCost;
    OptionsShaped(k, target, q, available, m);
    var tree := BestPlan(k, target, q, available, m);
    if tree.Some? {
      assert tree.value in Options(k, target, q, available, m).value;
      ShapedIsPriced(k, available, {}, tree.value);
      FlattenPriced(tree.value, 0);
    }
  }

  lemma FlattenEnds(t: Acquisition, counter: nat)
    ensures var steps := Flatten(t, counter); steps != [] && steps[|steps| - 1].target == t.target
  {
  }

  /** Every option for a target is an option for that target. */
  lemma ExpandTargets(k: Knowledge, target: Node, q: real, available: set<Node>, path: set<Node>, depth: nat, m: nat)
    requires WellFormed(k)
    ensures var options := Expand(k, target, q, available, path, depth, m);
            options != [] && forall t :: t in options ==> t.target == target
  {
    ExpandOrdered(k, target, q, available, path, depth, m);
    if target !in available && target !in path && depth < m && MethodsOf(k, target) != [] {
      PathShrinks(k, path, target);
      var methods := MethodsOf(k, target);
      MethodsTarget(k, target, methods, q, available, path, depth + 1, m);
      SortIsStable(ExpandMethods(k, methods, q, available, path + {target}, depth + 1, m),
                   Key(false, false, false, 0.0, 0));
    }
  }

  lemma {:induction false} MethodsTarget(
    k: Knowledge, target: Node, methods: seq<Method>, q: real, available: set<Node>, path: set<Node>, depth: nat,
    m: nat)
    requires forall x :: x in methods ==> x.target == target
    requires target in Craftable(k) && target !in path
    ensures forall t :: t in ExpandMethods(k, methods, q, available, path + {target}, depth, m) ==> t.target == target
    decreases |methods|
  {
    if methods != [] {
      MethodsTarget(k, target, methods[1..], q, available, path, depth, m);
    }
  }

  /** The plan for a goal exists unless the goal names an unknown target; it is empty exactly for a goal without
      one, and otherwise ends with the target's own step. */
  lemma DependencyPlanEnds(k: Knowledge, target: Option<Node>)
    ensures var steps := DependencySteps(k, target);
            && (steps.None? <==> target.Some? && target.value !in k.nodes)
            && (steps.Some? ==> (steps.value == [] <==> target.None?))
            && (steps.Some? && target.Some? && WellFormed(k) ==> steps.value[|steps.value| - 1].target == target.value)
  {
    hide Before, Expand;
    if target.Some? && target.value in k.nodes {
      var tree := BestPlan(k, target.value, 1.0, {}, 24).value;
      FlattenEnds(tree, 0);
      if WellFormed(k) {
        ExpandTargets(k, target.value, RMax(1.0, 1.0), {}, {}, 0, 24);
        BestIn(Expand(k, target.value, RMax(1.0, 1.0), {}, {}, 0, 24));
      }
    }
  }
}
