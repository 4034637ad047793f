/** The planner as the source runs it: recursion with local accumulators, and a plan and a counter that
    flattening updates. Each method equals its specification in PlanningModel. */
module Planner {
  import opened Common
  import opened PlanningModel
  import opened PlanningFacts
  import Spec = PlanningModel

  // --- Expansion ---------------------------------------------------------------------------------

  method Expand(k: Knowledge, target: Node, quantity: real, available: set<Node>, path: set<Node>,
                depth: nat, maxDepth: nat) returns (options: seq<Acquisition>)
    ensures options == Spec.Expand(k, target, quantity, available, path, depth, maxDepth)
    decreases Unexpanded(k, path), 0
  {
    hide Sort;
    if target in available {
      return [Leaf(target, quantity).(available := true)];
    }
    if target in path {
      return [Leaf(target, quantity).(cyclic := true)];
    }
    if depth >= maxDepth {
      return [Leaf(target, quantity).(unresolved := true)];
    }
    var methods := MethodsOf(k, target);
    if methods == [] {
      return [Leaf(target, quantity).(unresolved := true, leafCost := quantity)];
    }
    PathShrinks(k, path, target);
    var below := path + {target};
    var expanded := [];
    for i := 0 to |methods|
      invariant expanded + ExpandMethods(k, methods[i..], quantity, available, below, depth + 1, maxDepth)
                == ExpandMethods(k, methods, quantity, available, below, depth + 1, maxDepth)
    {
      var plan := ExpandMethod(k, methods[i], quantity, available, below, depth + 1, maxDepth);
      assert methods[i..][0] == methods[i] && methods[i..][1..] == methods[i + 1..];
      ghost var rest := ExpandMethods(k, methods[i + 1..], quantity, available, below, depth + 1, maxDepth);
      assert expanded + ([plan] + rest) == (expanded + [plan]) + rest;
      expanded := expanded + [plan];
    }
    assert expanded + [] == expanded;
    return Sort(expanded);
  }

  method ExpandMethod(k: Knowledge, m: Method, quantity: real, available: set<Node>, path: set<Node>,
                      depth: nat, maxDepth: nat) returns (plan: Acquisition)
    ensures plan == Spec.ExpandMethod(k, m, quantity, available, path, depth, maxDepth)
    decreases Unexpanded(k, path), 3
  {
    hide Batches, HeadCost, ExpandSlots, ExpandSlot;
    NoSlotsCostNothing();
    var batches := Batches(m, quantity);
    var slots, leafCost := [], 0.0;
    var requirements := m.requirements;
    assert requirements[0..] == requirements;
    for i := 0 to |requirements|
      invariant leafCost == HeadCost(slots)
      invariant slots + ExpandSlots(k, m.process, requirements[i..], batches, available, path, depth, maxDepth)
                == ExpandSlots(k, m.process, requirements, batches, available, path, depth, maxDepth)
    {
      var slot := ExpandRequirement(k, m.process, requirements[i], batches, available, path, depth, maxDepth);
      SlotsFrom(k, m.process, requirements, i, batches, available, path, depth, maxDepth);
      ghost var rest :=
        ExpandSlots(k, m.process, requirements[i + 1..], batches, available, path, depth, maxDepth);
      assert slots + ([slot] + rest) == (slots + [slot]) + rest;
      HeadCostPush(slots, slot);
      slots := slots + [slot];
      leafCost := leafCost + slot.options[0].leafCost;
    }
    SlotsFrom(k, m.process, requirements, |requirements|, batches, available, path, depth, maxDepth);
    assert slots + [] == slots;
    plan := Acquisition(m.target, quantity, Some(m.process), m.output, slots, false, false, false, leafCost);
  }

  lemma SlotsFrom(k: Knowledge, process: string, requirements: seq<Requirement>, i: nat, batches: real,
                  available: set<Node>, path: set<Node>, depth: nat, maxDepth: nat)
    requires i <= |requirements|
    ensures ExpandSlots(k, process, requirements[i..], batches, available, path, depth, maxDepth)
            == if i == |requirements| then []
               else [ExpandSlot(k, process, requirements[i], batches, available, path, depth, maxDepth)]
                    + ExpandSlots(k, process, requirements[i + 1..], batches, available, path, depth, maxDepth)
  {
    if i < |requirements| {
      assert requirements[i..][0] == requirements[i] && requirements[i..][1..] == requirements[i + 1..];
    }
  }

  lemma NoSlotsCostNothing()
    ensures HeadCost([]) == 0.0
  {
  }

  lemma HeadCostPush(slots: seq<Slot>, slot: Slot)
    requires slot.options != []
    ensures HeadCost(slots + [slot]) == HeadCost(slots) + slot.options[0].leafCost
  {
    assert (slots + [slot])[..|slots|] == slots;
  }

  method ExpandRequirement(k: Knowledge, process: string, r: Requirement, batches: real, available: set<Node>,
                           path: set<Node>, depth: nat, maxDepth: nat) returns (slot: Slot)
    ensures slot == ExpandSlot(k, process, r, batches, available, path, depth, maxDepth)
    ensures slot.options != []
    decreases Unexpanded(k, path), 2
  {
    hide Sort, Needed;
    var quantity := Needed(r, batches);
    var options := [];
    for i := 0 to |r.alternatives|
      invariant options + ExpandAlternatives(k, r.alternatives[i..], quantity, available, path, depth, maxDepth)
                == ExpandAlternatives(k, r.alternatives, quantity, available, path, depth, maxDepth)
    {
      var found := Expand(k, r.alternatives[i], quantity, available, path, depth, maxDepth);
      assert r.alternatives[i..][0] == r.alternatives[i] && r.alternatives[i..][1..] == r.alternatives[i + 1..];
      ghost var rest :=
        ExpandAlternatives(k, r.alternatives[i + 1..], quantity, available, path, depth, maxDepth);
      assert options + (found + rest) == (options + found) + rest;
      options := options + found;
    }
    assert options + [] == options;
    options := Sort(options);
    slot := Slot(if options == [] then [Placeholder(process, quantity)] else options);
  }

  // --- Choosing ------------------------------------------------------------------------------------

  function Pick(a: Acquisition, b: Acquisition): Acquisition { if Before(KeyOf(b), KeyOf(a)) then b else a }

  lemma PickAssociates(a: Acquisition, b: Acquisition, c: Acquisition)
    ensures Pick(a, Pick(b, c)) == Pick(Pick(a, b), c)
  {
    hide Before;
    BeforeIsWeakOrder(KeyOf(a), KeyOf(b), KeyOf(c));
    BeforeIsWeakOrder(KeyOf(c), KeyOf(b), KeyOf(a));
    BeforeIsWeakOrder(KeyOf(b), KeyOf(c), KeyOf(a));
    BeforeIsWeakOrder(KeyOf(c), KeyOf(a), KeyOf(b));
    BeforeIsWeakOrder(KeyOf(b), KeyOf(a), KeyOf(c));
  }

  /** The first of the least options, in one pass. */
  method Minimum(options: seq<Acquisition>) returns (best: Acquisition)
    requires options != []
    ensures best == Best(options)
  {
    hide Before;
    best := options[0];
    for i := 1 to |options|
      invariant Best(options) == if i < |options| then Pick(best, Best(options[i..])) else best
    {
      assert options[i..][0] == options[i] && options[i..][1..] == options[i + 1..];
      if i + 1 < |options| {
        PickAssociates(best, options[i], Best(options[i + 1..]));
      }
      if Before(KeyOf(options[i]), KeyOf(best)) {
        best := options[i];
      }
    }
  }

  // --- The plan -------------------------------------------------------------------------------------

  class Counter {
    var value: nat

    constructor ()
      ensures value == 0
    {
      value := 0;
    }
  }

  class Plan {
    var steps: seq<PlanStep>

    constructor ()
      ensures steps == []
    {
      steps := [];
    }

    /** Adding a step number again is an error. */
    method Add(step: PlanStep) returns (added: bool)
      modifies this
      ensures added <==> step.id !in Ids(old(steps))
      ensures steps == if added then old(steps) + [step] else old(steps)
    {
      for i := 0 to |steps|
        invariant unchanged(this)
        invariant forall j :: 0 <= j < i ==> steps[j].id != step.id
      {
        if steps[i].id == step.id {
          assert steps[i] in steps;
          return false;
        }
      }
      steps := steps + [step];
      return true;
    }

    method ReadySteps(completed: set<nat>) returns (ready: seq<PlanStep>)
      ensures ready == Ready(steps, completed)
    {
      ready := [];
      for i := 0 to |steps|
        invariant ready + Ready(steps[i..], completed) == Ready(steps, completed)
      {
        var step := steps[i];
        assert steps[i..][0] == step && steps[i..][1..] == steps[i + 1..];
        ghost var rest := Ready(steps[i + 1..], completed);
        if step.id !in completed && forall p :: p in step.prerequisites ==> p in completed {
          assert ready + ([step] + rest) == (ready + [step]) + rest;
          ready := ready + [step];
        }
      }
      assert ready + [] == ready;
    }
  }

  /** Add the steps of a tree to the plan, children first. No step number is ever taken. */
  method FlattenTree(t: Acquisition, plan: Plan, counter: Counter) returns (id: nat)
    requires forall s :: s in plan.steps ==> s.id < counter.value
    modifies plan, counter
    ensures var steps := Flatten(t, old(counter.value));
            && plan.steps == old(plan.steps) + steps
            && counter.value == old(counter.value) + |steps| && id == counter.value - 1
    ensures forall s :: s in plan.steps ==> s.id < counter.value
    decreases t
  {
    hide Flatten, FlattenSlots, Best;
    ghost var start := counter.value;
    NoSlots(t, start);
    var childIds := [];
    for i := 0 to |t.requirements|
      invariant Flattening(old(plan.steps), FlattenSlots(t, i, start), start, plan, counter)
      invariant childIds == FlattenSlots(t, i, start).ids
    {
      var options := t.requirements[i].options;
      if options == [] {
        SlotSkipped(t, i + 1, start);
        continue;
      }
      var best := Minimum(options);
      BestIn(options);
      FlattenSlotsStep(t, i + 1, start);
      ghost var at := counter.value;
      var child := FlattenTree(best, plan, counter);
      LastId(best, at);
      childIds := childIds + [child];
    }
    FlattenIs(t, start);
    id := counter.value;
    counter.value := counter.value + 1;
    var added := plan.Add(PlanStep(id, t.target, childIds, t.leafCost));
  }

  /** What has been flattened so far has been added, and its numbers used up. */
  ghost predicate Flattening(before: seq<PlanStep>, below: Flattened, start: nat, plan: Plan, counter: Counter)
    reads plan, counter
  {
    && plan.steps == before + below.steps && counter.value == start + |below.steps|
    && forall s :: s in plan.steps ==> s.id < counter.value
  }

  lemma SlotSkipped(t: Acquisition, n: nat, counter: nat)
    requires 0 < n <= |t.requirements| && t.requirements[n - 1].options == []
    ensures FlattenSlots(t, n, counter) == FlattenSlots(t, n - 1, counter)
  {
  }

  lemma LastId(t: Acquisition, counter: nat)
    ensures var steps := Flatten(t, counter); steps != [] && steps[|steps| - 1].id == counter + |steps| - 1
  {
  }

  lemma FlattenIs(t: Acquisition, counter: nat)
    ensures var below := FlattenSlots(t, |t.requirements|, counter);
            Flatten(t, counter)
            == below.steps + [PlanStep(counter + |below.steps|, t.target, below.ids, t.leafCost)]
  {
  }

  /** Flatten the best acquisition of a goal's target into a plan of its own. A goal without a target gets an empty
      plan, and one with an unknown target a KeyError: None here. */
  method MakeDependencyPlan(k: Knowledge, target: Option<Node>) returns (made: Option<Plan>)
    ensures made.Some? <==> DependencySteps(k, target).Some?
    ensures made.Some? ==> fresh(made.value) && made.value.steps == DependencySteps(k, target).value
  {
    hide Flatten, Best;
    var plan := new Plan();
    if target.None? {
      return Some(plan);
    }
    if target.value !in k.nodes {
      return None;
    }
    var options := Expand(k, target.value, RMax(1.0, 1.0), {}, {}, 0, 24);
    var tree := Leaf(target.value, 1.0).(unresolved := true);
    if options != [] {
      tree := Minimum(options);
    }
    var counter := new Counter();
    var _ := FlattenTree(tree, plan, counter);
    return Some(plan);
  }
}
