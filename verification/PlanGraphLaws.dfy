/** What each call on a plan does, told from the plan, the texts and the library it is given. */
module PlanGraphLaws {
  import opened Common
  import opened PlanGraphModel
  import opened PlanGraphFacts

  // --- Ranking other skills -------------------------------------------------------------------------------------

  /** Another skill that is not retired may stand in if it shares an effect, or else if it is named for recovery. */
  lemma RankTold(spec: Spec, other: Spec)
    ensures var shares := exists e :: e in spec.effects && e in other.effects;
            RankOf(spec, other) == if other.retired || other.id == spec.id then None
                                   else if shares then Some(0)
                                   else if other.id in spec.recovery then Some(1) else None
  {
    if e :| e in spec.effects && e in other.effects {
      assert e in spec.effects * other.effects;
    } else {
      assert spec.effects * other.effects == {};
    }
  }

  /** Texts compare letter by letter, and a text comes before any that it starts. */
  lemma {:induction false} TextBeforeTold(a: string, b: string)
    ensures TextBefore(a, b) <==> exists k: nat :: FirstDifference(a, b, k)
  {
    if a != [] && b != [] && a[0] == b[0] {
      TextBeforeTold(a[1..], b[1..]);
      forall k: nat | FirstDifference(a[1..], b[1..], k)
        ensures FirstDifference(a, b, k + 1)
      {
        assert a[..k + 1] == [a[0]] + a[1..][..k] && b[..k + 1] == [b[0]] + b[1..][..k];
      }
      forall k: nat | FirstDifference(a, b, k)
        ensures k > 0 && FirstDifference(a[1..], b[1..], k - 1)
      {
        if k > 0 {
          assert a[1..][..k - 1] == a[..k][1..] && b[1..][..k - 1] == b[..k][1..];
        }
      }
    } else if TextBefore(a, b) {
      assert FirstDifference(a, b, 0);
    } else {
      forall k: nat
        ensures !FirstDifference(a, b, k)
      {
        SameStart(a, b, k);
      }
    }
  }

  lemma SameStart(a: string, b: string, k: nat)
    ensures 0 < k <= |a| && k <= |b| && a[..k] == b[..k] ==> a[0] == b[0]
  {
    if 0 < k <= |a| && k <= |b| {
      assert a[..k][0] == a[0] && b[..k][0] == b[0];
    }
  }

  /** The texts agree up to `k`, where the first ends or has the smaller letter. */
  predicate FirstDifference(a: string, b: string, k: nat) {
    k <= |a| && k < |b| && a[..k] == b[..k] && (k == |a| || a[k] < b[k])
  }

  /** Candidates go by rank, and those of one rank by their names. */
  lemma CandidatesByRank(spec: Spec, others: seq<Spec>, i: nat, j: nat)
    requires i < j < |Ranked(spec, others)|
    ensures var a, b := Ranked(spec, others)[i], Ranked(spec, others)[j];
            a.rank < b.rank || (a.rank == b.rank && !TextBefore(b.id, a.id))
  {
    RankedInOrder(spec, others);
  }

  /** As many candidates as there are usable skills. */
  lemma {:induction false} CandidatesCounted(spec: Spec, others: seq<Spec>)
    ensures |Ranked(spec, others)| == |Usable(spec, others)|
  {
    hide RankOf, CandidateBefore, InOrder;
    if others != [] {
      CandidatesCounted(spec, others[1..]);
      RankedInOrder(spec, others[1..]);
      var rank := RankOf(spec, others[0]);
      if rank.Some? {
        PlaceKeeps(Candidate(rank.value, others[0].id), Ranked(spec, others[1..]));
        assert |multiset(Ranked(spec, others))| == |multiset(Ranked(spec, others[1..]))| + 1;
      }
    }
  }

  function Usable(spec: Spec, others: seq<Spec>): seq<Spec> {
    if others == [] then []
    else (if RankOf(spec, others[0]).Some? then [others[0]] else []) + Usable(spec, others[1..])
  }

  /** The skill's own entry is the first with its name, and the alternatives are the first four candidates or fewer. */
  lemma AlternativesTold(specs: seq<Spec>, skill: string, k: nat)
    ensures (forall s :: s in specs ==> s.id != skill) ==> AlternativeSkillIds(specs, skill) == []
    ensures k < |specs| && specs[k].id == skill && (forall i :: 0 <= i < k ==> specs[i].id != skill) ==>
              var names, ranked := AlternativeSkillIds(specs, skill), Ranked(specs[k], specs);
              && |names| == (if |ranked| < 4 then |ranked| else 4)
              && forall i :: 0 <= i < |names| ==> names[i] == ranked[i].id
  {
    hide Ranked;
    FindIsFirst(specs, skill, k);
  }

  lemma {:induction false} FindIsFirst(specs: seq<Spec>, id: string, k: nat)
    ensures (forall s :: s in specs ==> s.id != id) ==> Find(specs, id).None?
    ensures k < |specs| && specs[k].id == id && (forall i :: 0 <= i < k ==> specs[i].id != id) ==>
              Find(specs, id) == Some(specs[k])
    decreases k
  {
    if specs != [] {
      assert specs == [specs[0]] + specs[1..];
      if k > 0 {
        FindIsFirst(specs[1..], id, k - 1);
      } else if forall s :: s in specs ==> s.id != id {
        FindsNone(specs, id);
      }
    }
  }

  lemma {:induction false} FindsNone(specs: seq<Spec>, id: string)
    requires forall s :: s in specs ==> s.id != id
    ensures Find(specs, id).None?
  {
    if specs != [] {
      assert specs[0] in specs;
      FindsNone(specs[1..], id);
    }
  }

  // --- Building a plan --------------------------------------------------------------------------------------------

  /** With a library, a step names the first skill whose name reads the same; without one, what its label says. */
  lemma BindingTold(naming: Naming, text: string, specs: seq<Spec>, k: nat)
    ensures BindPlanStepSkill(naming, text, None) == naming.plain(text)
    ensures (forall s :: s in specs ==> naming.normal(s.id) != naming.normal(text)) ==>
              BindPlanStepSkill(naming, text, Some(specs)).None?
    ensures k < |specs| && naming.normal(specs[k].id) == naming.normal(text)
            && (forall i :: 0 <= i < k ==> naming.normal(specs[i].id) != naming.normal(text)) ==>
              BindPlanStepSkill(naming, text, Some(specs)) == Some(specs[k].id)
  {
    FirstNamedTold(naming, text, specs, k);
    if forall s :: s in specs ==> naming.normal(s.id) != naming.normal(text) {
      NoneNamed(naming, text, specs);
    }
  }

  lemma {:induction false} FirstNamedTold(naming: Naming, text: string, specs: seq<Spec>, k: nat)
    ensures k < |specs| && naming.normal(specs[k].id) == naming.normal(text)
            && (forall i :: 0 <= i < k ==> naming.normal(specs[i].id) != naming.normal(text)) ==>
              FirstNamed(naming, specs, text) == Some(specs[k].id)
    decreases k
  {
    if k > 0 && specs != [] {
      FirstNamedTold(naming, text, specs[1..], k - 1);
    }
  }

  lemma {:induction false} NoneNamed(naming: Naming, text: string, specs: seq<Spec>)
    requires forall s :: s in specs ==> naming.normal(s.id) != naming.normal(text)
    ensures FirstNamed(naming, specs, text).None?
  {
    if specs != [] {
      assert specs[0] in specs;
      NoneNamed(naming, text, specs[1..]);
    }
  }

  /** The alternatives a step's skill has in the library. */
  function Others(naming: Naming, skills: Option<seq<Spec>>, text: string): seq<string> {
    var skill := BindPlanStepSkill(naming, text, skills);
    if skills.Some? && skill.Some? then AlternativeSkillIds(skills.value, skill.value) else []
  }

  /** A node nobody has worked on. */
  predicate New(n: Node, id: NodeId, objective: string, skill: Option<string>, parent: Option<NodeId>) {
    && n.id == id && n.objective == objective && n.skill == skill && n.parent == parent
    && n.state == Ready && n.attempts == 0 && n.failures == 0 && n.reason == None
  }

  /** The nodes of one step: its own, which lists its alternatives in order, and theirs. */
  ghost predicate StepNodes(naming: Naming, skills: Option<seq<Spec>>, nodes: map<NodeId, Node>, i: nat, text: string) {
    var others := Others(naming, skills, text);
    && Base(i) in nodes
    && New(nodes[Base(i)], Base(i), text, BindPlanStepSkill(naming, text, skills), None)
    && |nodes[Base(i)].alternatives| == |others|
    && (forall k :: 0 <= k < |others| ==> nodes[Base(i)].alternatives[k] == Alt(Base(i), others[k]))
    && (forall s :: Alt(Base(i), s) in nodes <==> s in others)
    && (forall s :: s in others ==>
          New(nodes[Alt(Base(i), s)], Alt(Base(i), s), s, Some(s), Some(Base(i)))
          && nodes[Alt(Base(i), s)].alternatives == [])
  }

  /** There are nodes for the first `n` steps only. */
  ghost predicate Filed(nodes: map<NodeId, Node>, n: nat) {
    forall id :: id in nodes ==>
      match id
      case Base(i) => i < n
      case Alt(parent, _) => parent.Base? && parent.index < n
  }

  /** A new plan has a node for each label and one for each of its alternatives, and no others. */
  lemma {:induction false} NodesTold(naming: Naming, skills: Option<seq<Spec>>, labels: seq<string>)
    ensures Filed(NodesFrom(naming, skills, labels), |labels|)
    ensures forall i: nat :: i < |labels| ==> StepNodes(naming, skills, NodesFrom(naming, skills, labels), i, labels[i])
  {
    hide NodesFrom, WithStep, StepNodes, Filed, Adds;
    if labels == [] {
      NoNodes(naming, skills);
    } else {
      var n := |labels| - 1;
      NodesTold(naming, skills, labels[..n]);
      NodesStep(naming, skills, labels);
      var nodes := NodesFrom(naming, skills, labels[..n]);
      StepAdded(naming, skills, nodes, n, labels[n]);
      forall i: nat | i < n
        ensures StepNodes(naming, skills, NodesFrom(naming, skills, labels), i, labels[i])
      {
        assert labels[..n][i] == labels[i];
        StepStays(naming, skills, nodes, NodesFrom(naming, skills, labels), n, i, labels[i]);
      }
    }
  }

  lemma NoNodes(naming: Naming, skills: Option<seq<Spec>>)
    ensures Filed(NodesFrom(naming, skills, []), 0)
  {
  }

  /** The nodes of step `n` are added, and nothing else changes. */
  ghost predicate Adds(nodes: map<NodeId, Node>, more: map<NodeId, Node>, n: nat) {
    && (forall id :: id in nodes ==> id in more && more[id] == nodes[id])
    && (forall id :: id in more && id !in nodes ==> id == Base(n) || (id.Alt? && id.parent == Base(n)))
  }

  lemma StepStays(naming: Naming, skills: Option<seq<Spec>>, nodes: map<NodeId, Node>, more: map<NodeId, Node>, n: nat,
                  i: nat, text: string)
    requires i < n && StepNodes(naming, skills, nodes, i, text)
    requires Adds(nodes, more, n)
    ensures StepNodes(naming, skills, more, i, text)
  {
    hide Others, BindPlanStepSkill, New;
    assert forall s :: Alt(Base(i), s) in more <==> Alt(Base(i), s) in nodes;
  }

  lemma NodesStep(naming: Naming, skills: Option<seq<Spec>>, labels: seq<string>)
    requires labels != []
    ensures var n := |labels| - 1;
            NodesFrom(naming, skills, labels)
            == WithStep(naming, skills, NodesFrom(naming, skills, labels[..n]), n, labels[n])
  {
  }

  lemma StepAdded(naming: Naming, skills: Option<seq<Spec>>, nodes: map<NodeId, Node>, n: nat, text: string)
    requires Filed(nodes, n)
    ensures var more := WithStep(naming, skills, nodes, n, text);
            StepNodes(naming, skills, more, n, text) && Adds(nodes, more, n) && Filed(more, n + 1)
  {
    hide BindPlanStepSkill, AlternativeSkillIds, WithAlternatives;
    WithAlternativesHolds(nodes, Base(n), Others(naming, skills, text));
  }

  lemma PlanTold(naming: Naming, skills: Option<seq<Spec>>, labels: seq<string>)
    ensures var g := PlanGraphFromSteps(naming, skills, labels);
            && g.cursor == 0 && |g.order| == |labels| && (forall i: nat :: i < |labels| ==> g.order[i] == Base(i))
            && forall i: nat :: i < |labels| ==> StepNodes(naming, skills, g.nodes, i, labels[i])
  {
    hide StepNodes;
    NodesTold(naming, skills, labels);
  }

  // --- Calls on a plan ----------------------------------------------------------------------------------------------

  /** The plan is at a node. */
  predicate AtNode(g: Graph, n: Node) {
    g.cursor < |g.order| && g.order[g.cursor] in g.nodes && g.nodes[g.order[g.cursor]] == n
  }

  /** A skill is a node's own if the node names it, or if its name reads like the node's objective. */
  predicate Means(naming: Naming, n: Node, skill: string) {
    n.skill == Some(skill) || naming.normal(skill) == naming.normal(n.objective)
  }

  lemma CurrentTold(g: Graph, n: Node)
    ensures Current(g) == Some(n) <==> AtNode(g, n)
  {
  }

  /** A call that finds the plan at a node of another skill, or at none, does nothing. */
  lemma NothingDone(naming: Naming, g: Graph, skill: string, allowUnbound: bool, reason: string,
                    skills: Option<seq<Spec>>)
    requires forall n :: AtNode(g, n) ==> !Means(naming, n, skill)
    ensures BlockCurrentMethod(naming, g, skill, reason, skills) == Did(g, false)
    ensures MarkRunning(g, skill) == g
    ensures !(allowUnbound && exists n :: AtNode(g, n) && n.skill.None?) ==>
              MarkSucceeded(naming, g, skill, allowUnbound) == Did(g, false)
  {
    if Current(g).Some? {
      CurrentTold(g, Current(g).value);
    }
  }

  /** Running marks exactly a node that names the skill itself. */
  lemma RunningTold(g: Graph, skill: string, n: Node)
    requires AtNode(g, n) && n.id == g.order[g.cursor]
    ensures MarkRunning(g, skill)
            == if n.skill == Some(skill) then
                 Graph(g.nodes[n.id := Node(n.id, n.objective, n.skill, n.parent, n.alternatives, Running, n.attempts,
                                            n.failures, n.reason)], g.order, g.cursor)
               else g
  {
  }

  /** A success marks the node whose skill it is, or, where that is allowed, one that names none, and moves on. */
  lemma SucceededTold(naming: Naming, g: Graph, skill: string, allowUnbound: bool, n: Node)
    requires AtNode(g, n)
    ensures MarkSucceeded(naming, g, skill, allowUnbound)
            == if Means(naming, n, skill) || (n.skill == None && allowUnbound) then
                 Did(Graph(g.nodes[n.id := Node(n.id, n.objective, n.skill, n.parent, n.alternatives, Succeeded,
                                                n.attempts, 0, None)], g.order, g.cursor + 1), true)
               else Did(g, false)
  {
  }

  /** A node that was blocked once more. */
  function BlockedNode(n: Node, reason: string): Node {
    Node(n.id, n.objective, n.skill, n.parent, n.alternatives, Blocked, n.attempts + 1, n.failures + 1, Some(reason))
  }

  /** A listed alternative is still usable. */
  predicate Open(g: Graph, n: Node, id: NodeId) {
    && id in g.nodes && id != n.id
    && (g.nodes[id].state == Ready || g.nodes[id].state == Running || g.nodes[id].state == Suspended)
  }

  /** The first listed alternative that is usable. */
  lemma {:induction false} FirstOpen(g: Graph, n: Node, ids: seq<NodeId>, k: nat)
    ensures (forall id :: id in ids ==> !Open(g, n, id)) ==> Sibling(g, n, ids).None?
    ensures k < |ids| && Open(g, n, ids[k]) && (forall i :: 0 <= i < k ==> !Open(g, n, ids[i])) ==>
              Sibling(g, n, ids) == Some(g.nodes[ids[k]])
    decreases |ids|
  {
    if ids != [] {
      assert ids == [ids[0]] + ids[1..] && ids[0] in ids;
      assert Open(g, n, ids[0]) <==> ids[0] in g.nodes && !Over(g.nodes[ids[0]]) && ids[0] != n.id;
      FirstOpen(g, n, ids[1..], if k > 0 then k - 1 else 0);
    }
  }

  /** A skill of a method that was given up. */
  predicate GivenUp(g: Graph, skill: string) {
    exists id :: id in g.nodes && g.nodes[id].skill == Some(skill)
                 && (g.nodes[id].state == Blocked || g.nodes[id].state == Failed)
  }

  lemma GivenUpTold(g: Graph, skill: string)
    ensures skill in UsedSkills(g) <==> GivenUp(g, skill)
  {
  }

  /** The first skill that has not been used. */
  lemma {:induction false} FirstUnusedTold(skills: seq<string>, used: set<string>, k: nat)
    ensures (forall s :: s in skills ==> s in used) ==> FirstUnused(skills, used).None?
    ensures k < |skills| && skills[k] !in used && (forall i :: 0 <= i < k ==> skills[i] in used) ==>
              FirstUnused(skills, used) == Some(skills[k])
    decreases |skills|
  {
    if skills != [] {
      assert skills == [skills[0]] + skills[1..];
      FirstUnusedTold(skills[1..], used, if k > 0 then k - 1 else 0);
    }
  }

  /** What takes the place of a node: its first usable alternative; or else, with a library, the first alternative
      of its skill there that has not been given up, as a new node beside it; or nothing. */
  lemma NextTold(g: Graph, n: Node, skills: Option<seq<Spec>>, k: nat)
    ensures k < |n.alternatives| && Open(g, n, n.alternatives[k])
            && (forall i :: 0 <= i < k ==> !Open(g, n, n.alternatives[i])) ==>
              NextAlternative(g, n, skills) == Some(g.nodes[n.alternatives[k]])
    ensures (forall id :: id in n.alternatives ==> !Open(g, n, id)) ==>
              if skills.None? || n.skill.None? then NextAlternative(g, n, skills).None?
              else
                var names := AlternativeSkillIds(skills.value, n.skill.value);
                && ((forall s :: s in names ==> GivenUp(g, s) || s == n.skill.value) ==>
                      NextAlternative(g, n, skills).None?)
                && (k < |names| && !GivenUp(g, names[k]) && names[k] != n.skill.value
                    && (forall i :: 0 <= i < k ==> GivenUp(g, names[i]) || names[i] == n.skill.value) ==>
                      NextAlternative(g, n, skills)
                      == Some(Node(Alt(n.id, names[k]), names[k], Some(names[k]), Some(n.id), n.alternatives, Ready, 0,
                                   0, None)))
  {
    hide AlternativeSkillIds, UsedSkills, Sibling, FirstUnused, GivenUp, Open;
    FirstOpen(g, n, n.alternatives, k);
    if skills.Some? && n.skill.Some? {
      var names, used := AlternativeSkillIds(skills.value, n.skill.value), UsedSkills(g) + {n.skill.value};
      forall s
        ensures s in used <==> GivenUp(g, s) || s == n.skill.value
      {
        GivenUpTold(g, s);
      }
      FirstUnusedTold(names, used, k);
    }
  }

  /** A block of a node's own skill: the node is blocked, and what takes its place is ready at the same position,
      under the same parent; or, if nothing does, the plan moves on. */
  lemma BlockTold(naming: Naming, g: Graph, skill: string, reason: string, skills: Option<seq<Spec>>, n: Node)
    requires AtNode(g, n) && Means(naming, n, skill)
    ensures var d := BlockCurrentMethod(naming, g, skill, reason, skills);
            var marked := Graph(g.nodes[n.id := BlockedNode(n, reason)], g.order, g.cursor);
            var next := NextAlternative(marked, BlockedNode(n, reason), skills);
            && d.done
            && d.graph
               == match next
                  case None => Graph(marked.nodes, g.order, g.cursor + 1)
                  case Some(m) =>
                    var r := Node(m.id, m.objective, m.skill, if n.parent.Some? then n.parent else Some(n.id),
                                  m.alternatives, Ready, m.attempts, m.failures, m.reason);
                    Graph(marked.nodes[m.id := r], g.order[g.cursor := m.id], g.cursor)
  {
    hide NextAlternative;
  }

  /** Every call of a run is made and counted. */
  lemma {:induction false} RunCountsAll(naming: Naming, g: Graph, calls: seq<Call>, last: Call)
    ensures Run(naming, g, []) == Ran(g, 0, 0)
    ensures var before := Run(naming, g, calls);
            var did := Perform(naming, before.graph, last);
            Run(naming, g, calls + [last])
            == Ran(did.graph, before.succeeded + (if did.done && last.SucceededCall? then 1 else 0),
                   before.blocked + (if did.done && last.BlockCall? then 1 else 0))
    decreases |calls|
  {
    hide Perform;
    if calls == [] {
      assert [last][1..] == [];
    } else {
      assert (calls + [last])[1..] == calls[1..] + [last];
      RunCountsAll(naming, Perform(naming, g, calls[0]).graph, calls[1..], last);
    }
  }
}
