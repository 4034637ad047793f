/** The runtime plan as the object it is; each method equal to its specification in PlanGraphModel. */
module PlanGraph {
  import opened Common
  import opened PlanGraphModel
  import Spec = PlanGraphModel

  class PlanGraph {
    const naming: Naming
    var nodes: map<NodeId, Node>
    var order: seq<NodeId>
    var cursor: nat

    ghost function View(): Graph
      reads this
    {
      Graph(nodes, order, cursor)
    }

    // Build the nodes of every step, its alternatives before it.
    constructor (naming: Naming, labels: seq<string>, skills: Option<seq<Spec.Spec>>)
      ensures this.naming == naming && View() == PlanGraphFromSteps(naming, skills, labels)
    {
      this.naming, nodes, order, cursor := naming, map[], [], 0;
      new;
      hide BindPlanStepSkill, AlternativesOf, WithAlternatives;
      for index := 0 to |labels|
        invariant nodes == NodesFrom(naming, skills, labels[..index]) && cursor == 0
        invariant order == seq(index, i requires 0 <= i => Base(i))
      {
        assert labels[..index + 1][..index] == labels[..index];
        AddStep(index, labels[index], skills);
      }
      assert labels[..|labels|] == labels;
    }

    method AddStep(index: nat, text: string, skills: Option<seq<Spec.Spec>>)
      modifies this
      ensures nodes == WithStep(naming, skills, old(nodes), index, text)
      ensures order == old(order) + [Base(index)] && cursor == old(cursor)
    {
      hide BindPlanStepSkill, AlternativesOf;
      var skill := BindPlanStepSkill(naming, text, skills);
      var others := AlternativesOf(skills, skill);
      for i := 0 to |others|
        invariant nodes == WithAlternatives(old(nodes), Base(index), others[..i])
        invariant order == old(order) && cursor == old(cursor)
      {
        assert others[..i + 1][..i] == others[..i];
        var id := Alt(Base(index), others[i]);
        nodes := nodes[id := Fresh(id, others[i], Some(others[i]), Some(Base(index)), [])];
      }
      assert others[..|others|] == others;
      nodes := nodes[Base(index) := Fresh(Base(index), text, skill, None, AltIds(Base(index), others))];
      order := order + [Base(index)];
    }

    method MarkRunning(skill: string)
      modifies this
      ensures View() == Spec.MarkRunning(old(View()), skill)
    {
      var node := Current(Graph(nodes, order, cursor));
      if node.None? || node.value.skill != Some(skill) {
        return;
      }
      nodes := nodes[node.value.id := node.value.(state := Running)];
    }

    method MarkSucceeded(skill: string, allowUnbound: bool) returns (done: bool)
      modifies this
      ensures Did(View(), done) == Spec.MarkSucceeded(naming, old(View()), skill, allowUnbound)
    {
      var node := Current(Graph(nodes, order, cursor));
      if node.None? {
        return false;
      }
      if !SameSkill(naming, node.value, skill) && !(allowUnbound && node.value.skill.None?) {
        return false;
      }
      nodes := nodes[node.value.id := node.value.(state := Succeeded, failures := 0, reason := None)];
      cursor := cursor + 1;
      return true;
    }

    method BlockCurrentMethod(skill: string, reason: string, skills: Option<seq<Spec.Spec>>) returns (done: bool)
      modifies this
      ensures Did(View(), done) == Spec.BlockCurrentMethod(naming, old(View()), skill, reason, skills)
    {
      hide Spec.NextAlternative, SameSkill;
      var node := Current(Graph(nodes, order, cursor));
      if node.None? || !SameSkill(naming, node.value, skill) {
        return false;
      }
      var blocked := node.value.(state := Blocked, attempts := node.value.attempts + 1,
                                 failures := node.value.failures + 1, reason := Some(reason));
      nodes := nodes[blocked.id := blocked];
      var sibling := NextAlternative(blocked, skills);
      if sibling.None? {
        cursor := cursor + 1;
        return true;
      }
      var parent := if node.value.parent.Some? then node.value.parent else Some(node.value.id);
      var replacement := sibling.value.(state := Ready, parent := parent);
      nodes := nodes[replacement.id := replacement];
      order := order[cursor := replacement.id];
      return true;
    }

    method NextAlternative(node: Node, skills: Option<seq<Spec.Spec>>) returns (next: Option<Node>)
      ensures next == Spec.NextAlternative(View(), node, skills)
    {
      hide AlternativeSkillIds;
      for i := 0 to |node.alternatives|
        invariant Sibling(View(), node, node.alternatives) == Sibling(View(), node, node.alternatives[i..])
      {
        var id := node.alternatives[i];
        assert node.alternatives[i..][0] == id && node.alternatives[i..][1..] == node.alternatives[i + 1..];
        if id in nodes && !Over(nodes[id]) && id != node.id {
          return Some(nodes[id]);
        }
      }
      if skills.None? || node.skill.None? {
        return None;
      }
      var used := UsedSkills(Graph(nodes, order, cursor)) + {node.skill.value};
      next := FirstUnusedSkill(node, AlternativeSkillIds(skills.value, node.skill.value), used);
    }

    method FirstUnusedSkill(node: Node, names: seq<string>, used: set<string>) returns (next: Option<Node>)
      ensures var other := FirstUnused(names, used);
              next == if other.None? then None
                      else Some(Fresh(Alt(node.id, other.value), other.value, other, Some(node.id), node.alternatives))
    {
      for i := 0 to |names|
        invariant FirstUnused(names, used) == FirstUnused(names[i..], used)
      {
        assert names[i..][0] == names[i] && names[i..][1..] == names[i + 1..];
        if names[i] !in used {
          return Some(Fresh(Alt(node.id, names[i]), names[i], Some(names[i]), Some(node.id), node.alternatives));
        }
      }
      return None;
    }
  }
}
