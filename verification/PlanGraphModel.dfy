/** Value-level specification of the runtime plan and its local repair (plan_graph.py). */
module PlanGraphModel {
  import opened Common

  // The source spells these "n07" and "n07:alt:skill".
  datatype NodeId = Base(index: nat) | Alt(parent: NodeId, skill: string)

  datatype NodeState = Ready | Running | Succeeded | Blocked | Failed | Suspended

  datatype Node = Node(
    id: NodeId,
    objective: string,
    skill: Option<string>,
    parent: Option<NodeId>,
    alternatives: seq<NodeId>,
    state: NodeState,
    attempts: nat,
    failures: nat,
    reason: Option<string>)

  datatype Graph = Graph(nodes: map<NodeId, Node>, order: seq<NodeId>, cursor: nat)

  datatype Spec = Spec(id: string, effects: set<string>, recovery: set<string>, retired: bool)

  // Text handling is a parameter: how labels are normalised, and what skill a label names without a library.
  datatype Naming = Naming(normal: string -> string, plain: string -> Option<string>)

  // --- Alternative skills --------------------------------------------------------------------------

  datatype Candidate = Candidate(rank: nat, id: string)

  function Find(specs: seq<Spec>, id: string): Option<Spec> {
    if specs == [] then None else if specs[0].id == id then Some(specs[0]) else Find(specs[1..], id)
  }

  /** Skills that share an effect come before those only named for recovery. */
  function RankOf(spec: Spec, other: Spec): Option<nat> {
    if other.id == spec.id || other.retired then None
    else if spec.effects * other.effects != {} then Some(0)
    else if other.id in spec.recovery then Some(1)
    else None
  }

  predicate TextBefore(a: string, b: string) {
    b != [] && (a == [] || a[0] < b[0] || (a[0] == b[0] && TextBefore(a[1..], b[1..])))
  }

  predicate CandidateBefore(a: Candidate, b: Candidate) {
    a.rank < b.rank || (a.rank == b.rank && TextBefore(a.id, b.id))
  }

  function Place(c: Candidate, s: seq<Candidate>): seq<Candidate> {
    if s == [] || !CandidateBefore(s[0], c) then [c] + s else [s[0]] + Place(c, s[1..])
  }

  function Ranked(spec: Spec, others: seq<Spec>): seq<Candidate> {
    if others == [] then []
    else
      var rest := Ranked(spec, others[1..]);
      var rank := RankOf(spec, others[0]);
      if rank.None? then rest else Place(Candidate(rank.value, others[0].id), rest)
  }

  function Names(s: seq<Candidate>): seq<string> { seq(|s|, i requires 0 <= i < |s| => s[i].id) }

  const MAX_ALTERNATIVES := 4

  function AlternativeSkillIds(specs: seq<Spec>, skill: string): seq<string> {
    var spec := Find(specs, skill);
    if spec.None? then []
    else
      var ranked := Ranked(spec.value, specs);
      Names(ranked[..Min(|ranked|, MAX_ALTERNATIVES)])
  }

  // --- The graph --------------------------------------------------------------------------------------

  function Fresh(id: NodeId, objective: string, skill: Option<string>, parent: Option<NodeId>,
                 alternatives: seq<NodeId>): Node
  {
    Node(id, objective, skill, parent, alternatives, Ready, 0, 0, None)
  }

  /** The skill a step names: the first with the same normal text. */
  function FirstNamed(naming: Naming, specs: seq<Spec>, text: string): Option<string> {
    if specs == [] then None
    else if naming.normal(specs[0].id) == naming.normal(text) then Some(specs[0].id)
    else FirstNamed(naming, specs[1..], text)
  }

  function BindPlanStepSkill(naming: Naming, text: string, skills: Option<seq<Spec>>): Option<string> {
    if skills.None? then naming.plain(text) else FirstNamed(naming, skills.value, text)
  }

  function AlternativesOf(skills: Option<seq<Spec>>, skill: Option<string>): seq<string> {
    if skills.None? || skill.None? then [] else AlternativeSkillIds(skills.value, skill.value)
  }

  function AltIds(parent: NodeId, skills: seq<string>): seq<NodeId> {
    seq(|skills|, i requires 0 <= i < |skills| => Alt(parent, skills[i]))
  }

  function WithAlternatives(nodes: map<NodeId, Node>, parent: NodeId, skills: seq<string>): map<NodeId, Node> {
    if skills == [] then nodes
    else
      var n := |skills| - 1;
      WithAlternatives(nodes, parent, skills[..n])[
        Alt(parent, skills[n]) := Fresh(Alt(parent, skills[n]), skills[n], Some(skills[n]), Some(parent), [])]
  }

  function WithStep(naming: Naming, skills: Option<seq<Spec>>, nodes: map<NodeId, Node>, i: nat, text: string)
    : map<NodeId, Node>
  {
    var skill := BindPlanStepSkill(naming, text, skills);
    var others := AlternativesOf(skills, skill);
    WithAlternatives(nodes, Base(i), others)[
      Base(i) := Fresh(Base(i), text, skill, None, AltIds(Base(i), others))]
  }

  function NodesFrom(naming: Naming, skills: Option<seq<Spec>>, labels: seq<string>): map<NodeId, Node> {
    if labels == [] then map[]
    else
      var n := |labels| - 1;
      WithStep(naming, skills, NodesFrom(naming, skills, labels[..n]), n, labels[n])
  }

  function PlanGraphFromSteps(naming: Naming, skills: Option<seq<Spec>>, labels: seq<string>): Graph {
    Graph(NodesFrom(naming, skills, labels), seq(|labels|, i requires 0 <= i => Base(i)), 0)
  }

  function Current(g: Graph): Option<Node> {
    if g.cursor < |g.order| && g.order[g.cursor] in g.nodes then Some(g.nodes[g.order[g.cursor]]) else None
  }

  predicate SameSkill(naming: Naming, node: Node, skill: string) {
    node.skill == Some(skill) || naming.normal(node.objective) == naming.normal(skill)
  }

  function Put(g: Graph, node: Node): Graph { g.(nodes := g.nodes[node.id := node]) }

  function MarkRunning(g: Graph, skill: string): Graph {
    var node := Current(g);
    if node.None? || node.value.skill != Some(skill) then g else Put(g, node.value.(state := Running))
  }

  datatype Did = Did(graph: Graph, done: bool)

  function MarkSucceeded(naming: Naming, g: Graph, skill: string, allowUnbound: bool): Did {
    var node := Current(g);
    if node.None? || !(SameSkill(naming, node.value, skill) || (allowUnbound && node.value.skill.None?))
    then Did(g, false)
    else
      var succeeded := Put(g, node.value.(state := Succeeded, failures := 0, reason := None));
      Did(succeeded.(cursor := g.cursor + 1), true)
  }

  /** The first alternative that is neither over nor the node itself. */
  function Sibling(g: Graph, node: Node, ids: seq<NodeId>): Option<Node> {
    if ids == [] then None
    else if ids[0] in g.nodes && !Over(g.nodes[ids[0]]) && ids[0] != node.id then Some(g.nodes[ids[0]])
    else Sibling(g, node, ids[1..])
  }

  predicate Over(n: Node) { n.state.Blocked? || n.state.Failed? || n.state.Succeeded? }

  function UsedSkills(g: Graph): set<string> {
    set id | id in g.nodes && g.nodes[id].skill.Some? && (g.nodes[id].state.Blocked? || g.nodes[id].state.Failed?)
      :: g.nodes[id].skill.value
  }

  function FirstUnused(skills: seq<string>, used: set<string>): Option<string> {
    if skills == [] then None else if skills[0] !in used then Some(skills[0]) else FirstUnused(skills[1..], used)
  }

  function NextAlternative(g: Graph, node: Node, skills: Option<seq<Spec>>): Option<Node> {
    var sibling := Sibling(g, node, node.alternatives);
    if sibling.Some? then sibling
    else if skills.None? || node.skill.None? then None
    else
      var used := UsedSkills(g) + {node.skill.value};
      var other := FirstUnused(AlternativeSkillIds(skills.value, node.skill.value), used);
      if other.None? then None
      else Some(Fresh(Alt(node.id, other.value), other.value, other, Some(node.id), node.alternatives))
  }

  function BlockCurrentMethod(naming: Naming, g: Graph, skill: string, reason: string, skills: Option<seq<Spec>>): Did {
    var node := Current(g);
    if node.None? || !SameSkill(naming, node.value, skill) then Did(g, false)
    else
      var blocked := node.value.(state := Blocked, attempts := node.value.attempts + 1,
                                 failures := node.value.failures + 1, reason := Some(reason));
      var marked := Put(g, blocked);
      var sibling := NextAlternative(marked, blocked, skills);
      if sibling.None? then Did(marked.(cursor := g.cursor + 1), true)
      else
        var parent := if node.value.parent.Some? then node.value.parent else Some(node.value.id);
        var replacement := sibling.value.(state := Ready, parent := parent);
        Did(Put(marked, replacement).(order := g.order[g.cursor := replacement.id]), true)
  }

  // --- Runs ---------------------------------------------------------------------------------------------

  datatype Call =
    | RunningCall(skill: string)
    | SucceededCall(skill: string, allowUnbound: bool)
    | BlockCall(skill: string, reason: string, skills: Option<seq<Spec>>)

  function Perform(naming: Naming, g: Graph, call: Call): Did {
    match call
    case RunningCall(skill) => Did(MarkRunning(g, skill), false)
    case SucceededCall(skill, allowUnbound) => MarkSucceeded(naming, g, skill, allowUnbound)
    case BlockCall(skill, reason, skills) => BlockCurrentMethod(naming, g, skill, reason, skills)
  }

  // How many calls of each kind did something.
  datatype Ran = Ran(graph: Graph, succeeded: nat, blocked: nat)

  function Run(naming: Naming, g: Graph, calls: seq<Call>): Ran
    decreases |calls|
  {
    if calls == [] then Ran(g, 0, 0)
    else
      var did := Perform(naming, g, calls[0]);
      var rest := Run(naming, did.graph, calls[1..]);
      rest.(succeeded := rest.succeeded + (if did.done && calls[0].SucceededCall? then 1 else 0),
            blocked := rest.blocked + (if did.done && calls[0].BlockCall? then 1 else 0))
  }
}
