/** AND/OR expansion of an acquisition target and the step plan flattened from it (planning.py).
    Quantities and costs are real numbers. */
module PlanningModel {
  import opened Common

  type Node = string

  datatype Requirement = Requirement(quantity: real, alternatives: seq<Node>)

  datatype Method = Method(process: string, target: Node, output: real, requirements: seq<Requirement>)

  // What the knowledge graph answers: the nodes it has, and the methods that yield a target, for finitely many
  // targets. What a method needs is always a node of the graph.
  datatype Knowledge = Knowledge(nodes: set<Node>, methods: map<Node, seq<Method>>)

  datatype Acquisition = Acquisition(
    target: Node,
    quantity: real,
    process: Option<string>,
    output: real,
    requirements: seq<Slot>,
    available: bool,
    unresolved: bool,
    cyclic: bool,
    leafCost: real)

  // One requirement: any of its options will do.
  datatype Slot = Slot(options: seq<Acquisition>)

  function Leaf(target: Node, quantity: real): Acquisition {
    Acquisition(target, quantity, None, 1.0, [], false, false, false, 0.0)
  }

  function RMax(a: real, b: real): real { if a >= b then a else b }

  // --- The order among options --------------------------------------------------------------------

  datatype Key = Key(cyclic: bool, unresolved: bool, missing: bool, cost: real, requirements: nat)

  function KeyOf(a: Acquisition): Key {
    Key(a.cyclic, a.unresolved, !a.available, a.leafCost, |a.requirements|)
  }

  predicate Before(a: Key, b: Key) {
    if a.cyclic != b.cyclic then b.cyclic
    else if a.unresolved != b.unresolved then b.unresolved
    else if a.missing != b.missing then b.missing
    else if a.cost != b.cost then a.cost < b.cost
    else a.requirements < b.requirements
  }

  function Insert(a: Acquisition, s: seq<Acquisition>): seq<Acquisition> {
    if s == [] || !Before(KeyOf(s[0]), KeyOf(a)) then [a] + s else [s[0]] + Insert(a, s[1..])
  }

  /** Sorting by key, keeping the order of equal keys. */
  function Sort(s: seq<Acquisition>): seq<Acquisition> {
    if s == [] then [] else Insert(s[0], Sort(s[1..]))
  }

  /** The first option with the least key. */
  function Best(s: seq<Acquisition>): (best: Acquisition)
    requires s != []
  {
    if |s| == 1 then s[0]
    else
      var rest := Best(s[1..]);
      if Before(KeyOf(rest), KeyOf(s[0])) then rest else s[0]
  }

  // --- Expansion ------------------------------------------------------------------------------------

  function MethodsOf(k: Knowledge, target: Node): seq<Method> {
    if target in k.methods then k.methods[target] else []
  }

  /** The targets that have a method. */
  function Craftable(k: Knowledge): set<Node> { set t | t in k.methods && k.methods[t] != [] }

  function Unexpanded(k: Knowledge, path: set<Node>): nat { |Craftable(k) - path| }

  lemma PathShrinks(k: Knowledge, path: set<Node>, target: Node)
    requires target in Craftable(k) && target !in path
    ensures Unexpanded(k, path + {target}) == Unexpanded(k, path) - 1
  {
    assert Craftable(k) - (path + {target}) == (Craftable(k) - path) - {target};
  }

  function Expand(k: Knowledge, target: Node, quantity: real, available: set<Node>, path: set<Node>,
                  depth: nat, maxDepth: nat): seq<Acquisition>
    decreases Unexpanded(k, path), 0, 0
  {
    if target in available then [Leaf(target, quantity).(available := true)]
    else if target in path then [Leaf(target, quantity).(cyclic := true)]
    else if depth >= maxDepth then [Leaf(target, quantity).(unresolved := true)]
    else if MethodsOf(k, target) == [] then [Leaf(target, quantity).(unresolved := true, leafCost := quantity)]
    else
      PathShrinks(k, path, target);
      Sort(ExpandMethods(k, MethodsOf(k, target), quantity, available, path + {target}, depth + 1, maxDepth))
  }

  function ExpandMethods(k: Knowledge, methods: seq<Method>, quantity: real, available: set<Node>, path: set<Node>,
                         depth: nat, maxDepth: nat): seq<Acquisition>
    decreases Unexpanded(k, path), 4, |methods|
  {
    if methods == [] then []
    else [ExpandMethod(k, methods[0], quantity, available, path, depth, maxDepth)]
         + ExpandMethods(k, methods[1..], quantity, available, path, depth, maxDepth)
  }

  function Batches(m: Method, quantity: real): real { RMax(1.0, quantity / RMax(1.0, m.output)) }

  function ExpandMethod(k: Knowledge, m: Method, quantity: real, available: set<Node>, path: set<Node>,
                        depth: nat, maxDepth: nat): Acquisition
    decreases Unexpanded(k, path), 3, 0
  {
    var slots := ExpandSlots(k, m.process, m.requirements, Batches(m, quantity), available, path, depth, maxDepth);
    Acquisition(m.target, quantity, Some(m.process), m.output, slots, false, false, false, HeadCost(slots))
  }

  /** What the cheapest option of every slot costs together. */
  function HeadCost(slots: seq<Slot>): real {
    if slots == [] then 0.0
    else HeadCost(slots[..|slots| - 1])
         + if slots[|slots| - 1].options == [] then 0.0 else slots[|slots| - 1].options[0].leafCost
  }

  function ExpandSlots(k: Knowledge, process: string, requirements: seq<Requirement>, batches: real,
                       available: set<Node>, path: set<Node>, depth: nat, maxDepth: nat): seq<Slot>
    decreases Unexpanded(k, path), 2, |requirements|
  {
    if requirements == [] then []
    else [ExpandSlot(k, process, requirements[0], batches, available, path, depth, maxDepth)]
         + ExpandSlots(k, process, requirements[1..], batches, available, path, depth, maxDepth)
  }

  function Placeholder(process: string, quantity: real): Acquisition {
    Leaf("unresolved:" + process, quantity).(unresolved := true, leafCost := quantity)
  }

  function Needed(r: Requirement, batches: real): real { r.quantity * batches }

  function ExpandSlot(k: Knowledge, process: string, r: Requirement, batches: real,
                      available: set<Node>, path: set<Node>, depth: nat, maxDepth: nat): Slot
    decreases Unexpanded(k, path), 2, 0
  {
    var quantity := Needed(r, batches);
    var options := Sort(ExpandAlternatives(k, r.alternatives, quantity, available, path, depth, maxDepth));
    Slot(if options == [] then [Placeholder(process, quantity)] else options)
  }

  function ExpandAlternatives(k: Knowledge, alternatives: seq<Node>, quantity: real,
                              available: set<Node>, path: set<Node>, depth: nat, maxDepth: nat): seq<Acquisition>
    decreases Unexpanded(k, path), 1, |alternatives|
  {
    if alternatives == [] then []
    else Expand(k, alternatives[0], quantity, available, path, depth, maxDepth)
         + ExpandAlternatives(k, alternatives[1..], quantity, available, path, depth, maxDepth)
  }

  /** A target the graph does not have is a KeyError: None here. */
  function Options(k: Knowledge, target: Node, quantity: real, available: set<Node>, maxDepth: nat)
    : Option<seq<Acquisition>>
  {
    if target !in k.nodes then None else Some(Expand(k, target, RMax(1.0, quantity), available, {}, 0, maxDepth))
  }

  function BestPlan(k: Knowledge, target: Node, quantity: real, available: set<Node>, maxDepth: nat)
    : Option<Acquisition>
  {
    var options := Options(k, target, quantity, available, maxDepth);
    if options.None? then None
    else Some(if options.value == [] then Leaf(target, quantity).(unresolved := true) else Best(options.value))
  }

  // --- Flattening -------------------------------------------------------------------------------------

  // The source writes step numbers as text, four digits and more; different numbers, different texts.
  datatype PlanStep = PlanStep(id: nat, target: Node, prerequisites: seq<nat>, cost: real)

  /** The steps of a tree numbered from `counter`; the last one is the tree's own. */
  function Flatten(t: Acquisition, counter: nat): (steps: seq<PlanStep>)
    ensures steps != [] && steps[|steps| - 1].id == counter + |steps| - 1
    decreases t, 1, 0
  {
    var below := FlattenSlots(t, |t.requirements|, counter);
    below.steps + [PlanStep(counter + |below.steps|, t.target, below.ids, t.leafCost)]
  }

  datatype Flattened = Flattened(steps: seq<PlanStep>, ids: seq<nat>)

  /** The first `n` slots of a tree: the best option of each, in order. */
  function FlattenSlots(t: Acquisition, n: nat, counter: nat): Flattened
    requires n <= |t.requirements|
    decreases t, 0, n
  {
    if n == 0 then Flattened([], [])
    else
      var front := FlattenSlots(t, n - 1, counter);
      var options := t.requirements[n - 1].options;
      if options == [] then front
      else
        BestIn(options);
        var steps := Flatten(Best(options), counter + |front.steps|);
        Flattened(front.steps + steps, front.ids + [steps[|steps| - 1].id])
  }

  lemma {:induction false} BestIn(s: seq<Acquisition>)
    requires s != []
    ensures Best(s) in s
  {
    if |s| > 1 {
      BestIn(s[1..]);
    }
  }

  /** The steps of the plan for a goal: none without a target, and a KeyError for an unknown one. */
  function DependencySteps(k: Knowledge, target: Option<Node>): Option<seq<PlanStep>> {
    if target.None? then Some([])
    else
      var tree := BestPlan(k, target.value, 1.0, {}, 24);
      if tree.None? then None else Some(Flatten(tree.value, 0))
  }

  // --- Plans ----------------------------------------------------------------------------------------------

  function Ids(steps: seq<PlanStep>): set<nat> { set s | s in steps :: s.id }

  /** The steps not done whose prerequisites all are. */
  function Ready(steps: seq<PlanStep>, completed: set<nat>): seq<PlanStep> {
    if steps == [] then []
    else
      var rest := Ready(steps[1..], completed);
      if steps[0].id !in completed && (forall p :: p in steps[0].prerequisites ==> p in completed)
      then [steps[0]] + rest else rest
  }

  /** The steps that name a prerequisite the plan does not have. */
  function Invalid(steps: seq<PlanStep>, ids: set<nat>): seq<PlanStep> {
    if steps == [] then []
    else
      var rest := Invalid(steps[1..], ids);
      if exists p :: p in steps[0].prerequisites && p !in ids then [steps[0]] + rest else rest
  }
}
