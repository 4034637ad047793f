/** Repairing a plan keeps it in order and always comes to an end. */
module PlanGraphFacts {
  import opened Common
  import opened PlanGraphModel

  // --- Alternative skills --------------------------------------------------------------------------

  lemma {:induction false} TextOrder(a: string, b: string, c: string)
    ensures TextBefore(a, b) ==> !TextBefore(b, a)
    ensures !TextBefore(a, b) && !TextBefore(b, c) ==> !TextBefore(a, c)
  {
    if a != [] && b != [] && c != [] {
      TextOrder(a[1..], b[1..], c[1..]);
    } else if a != [] && b != [] {
      TextOrder(a[1..], b[1..], []);
    }
  }

  lemma CandidateOrder(a: Candidate, b: Candidate, c: Candidate)
    ensures CandidateBefore(a, b) ==> !CandidateBefore(b, a)
    ensures !CandidateBefore(a, b) && !CandidateBefore(b, c) ==> !CandidateBefore(a, c)
  {
    TextOrder(a.id, b.id, c.id);
  }

  predicate InOrder(s: seq<Candidate>) {
    forall i, j :: 0 <= i < j < |s| ==> !CandidateBefore(s[j], s[i])
  }

  lemma {:induction false} PlaceKeeps(c: Candidate, s: seq<Candidate>)
    requires InOrder(s)
    ensures InOrder(Place(c, s)) && multiset(Place(c, s)) == multiset(s) + multiset{c}
  {
    hide CandidateBefore;
    if s != [] && CandidateBefore(s[0], c) {
      PlaceKeeps(c, s[1..]);
      CandidateOrder(s[0], c, c);
      var r := Place(c, s[1..]);
      assert s == [s[0]] + s[1..];
      forall x | x in r
        ensures !CandidateBefore(x, s[0])
      {
        assert x in multiset(r);
        if x in s[1..] {
          var k :| 0 <= k < |s| - 1 && s[1..][k] == x;
          assert s[k + 1] == x;
        }
      }
      FirstInOrder(s[0], r);
    } else {
      forall x | x in s
        ensures !CandidateBefore(x, c)
      {
        CandidateOrder(s[0], s[0], c);
        var k :| 0 <= k < |s| && s[k] == x;
        CandidateOrder(x, s[0], c);
      }
      FirstInOrder(c, s);
    }
  }

  lemma FirstInOrder(first: Candidate, s: seq<Candidate>)
    requires InOrder(s) && forall x :: x in s ==> !CandidateBefore(x, first)
    ensures InOrder([first] + s)
  {
    hide CandidateBefore;
  }

  lemma {:induction false} RankedInOrder(spec: Spec, others: seq<Spec>)
    ensures InOrder(Ranked(spec, others))
  {
    hide InOrder, RankOf;
    if others != [] {
      RankedInOrder(spec, others[1..]);
      var rank := RankOf(spec, others[0]);
      if rank.Some? {
        PlaceKeeps(Candidate(rank.value, others[0].id), Ranked(spec, others[1..]));
      }
    } else {
      NothingInOrder();
    }
  }

  lemma NothingInOrder()
    ensures InOrder([])
  {
  }

  lemma PlaceMembers(c: Candidate, s: seq<Candidate>)
    requires InOrder(s)
    ensures forall x :: x in Place(c, s) <==> x == c || x in s
  {
    PlaceKeeps(c, s);
    assert forall x :: x in Place(c, s) <==> x in multiset(Place(c, s));
  }

  ghost predicate IsRanked(c: Candidate, spec: Spec, others: seq<Spec>) {
    exists o | o in others :: RankOf(spec, o) == Some(c.rank) && o.id == c.id
  }

  /** The candidates are exactly the usable other skills with their ranks. */
  lemma {:induction false} RankedHolds(spec: Spec, others: seq<Spec>, c: Candidate)
    ensures c in Ranked(spec, others) <==> IsRanked(c, spec, others)
  {
    if others != [] {
      hide InOrder, RankOf, Place;
      RankedHolds(spec, others[1..], c);
      assert others == [others[0]] + others[1..];
      var rank := RankOf(spec, others[0]);
      if rank.Some? {
        RankedInOrder(spec, others[1..]);
        PlaceMembers(Candidate(rank.value, others[0].id), Ranked(spec, others[1..]));
      }
    }
  }

  function Library(skills: Option<seq<Spec>>): set<string> {
    if skills.None? then {} else set s | s in skills.value :: s.id
  }

  lemma {:induction false} FindFinds(specs: seq<Spec>, id: string)
    ensures Find(specs, id).Some? ==> Find(specs, id).value in specs && Find(specs, id).value.id == id
  {
    if specs != [] {
      FindFinds(specs[1..], id);
    }
  }

  /** The alternatives are skills of the library, not the skill itself, and at most four. */
  lemma AlternativesAreSkills(specs: seq<Spec>, skill: string)
    ensures var names := AlternativeSkillIds(specs, skill);
            && |names| <= MAX_ALTERNATIVES
            && forall i :: 0 <= i < |names| ==> names[i] in Library(Some(specs)) && names[i] != skill
  {
    hide InOrder;
    var spec := Find(specs, skill);
    if spec.Some? {
      FindFinds(specs, skill);
      var ranked := Ranked(spec.value, specs);
      forall i | 0 <= i < |AlternativeSkillIds(specs, skill)|
        ensures ranked[i].id in Library(Some(specs)) && ranked[i].id != skill
      {
        RankedHolds(spec.value, specs, ranked[i]);
      }
    }
  }

  /** A usable skill left out means that four better or equal ones were found. */
  lemma AlternativesAreTheBest(specs: seq<Spec>, skill: string, spec: Spec, other: Spec)
    requires Find(specs, skill) == Some(spec) && other in specs && RankOf(spec, other).Some?
    requires other.id !in AlternativeSkillIds(specs, skill)
    ensures var names, ranked := AlternativeSkillIds(specs, skill), Ranked(spec, specs);
            && |names| == MAX_ALTERNATIVES <= |ranked|
            && forall i :: 0 <= i < MAX_ALTERNATIVES ==>
                 names[i] == ranked[i].id && !CandidateBefore(Candidate(RankOf(spec, other).value, other.id), ranked[i])
  {
    hide RankOf, CandidateBefore;
    var ranked, names := Ranked(spec, specs), AlternativeSkillIds(specs, skill);
    var c := Candidate(RankOf(spec, other).value, other.id);
    RankedHolds(spec, specs, c);
    RankedInOrder(spec, specs);
    var k :| 0 <= k < |ranked| && ranked[k] == c;
    assert forall i :: 0 <= i < |names| ==> names[i] == ranked[i].id && names[i] in names;
  }

  // --- What a plan keeps -------------------------------------------------------------------------------

  /** Nodes are filed under their own names, and only steps of the original plan list alternatives. */
  ghost predicate Named(g: Graph, originals: set<NodeId>) {
    && originals <= g.nodes.Keys
    && forall id | id in g.nodes :: NodeNamed(g.nodes[id], id, originals)
  }

  ghost predicate NodeNamed(n: Node, id: NodeId, originals: set<NodeId>) {
    && n.id == id
    && (id.Alt? ==> n.skill == Some(id.skill) && n.alternatives == [])
    && (id.Base? ==> forall a | a in n.alternatives :: a in originals && a.Alt? && a.parent == id)
  }

  /** An alternative is untouched, and listed, until the method it stands in for is blocked. */
  ghost predicate Reserved(g: Graph) { forall id | id in g.nodes && id.Alt? :: NodeReserved(g, id) }

  ghost predicate NodeReserved(g: Graph, id: NodeId)
    requires id in g.nodes && id.Alt?
  {
    && id.parent in g.nodes
    && (g.nodes[id.parent].state.Blocked? || (g.nodes[id].state.Ready? && id in g.nodes[id.parent].alternatives))
  }

  /** Behind the cursor everything succeeded or was blocked; ahead of it the plan is untouched. */
  ghost predicate Lined(g: Graph, originals: set<NodeId>) {
    && g.cursor <= |g.order|
    && (forall j | 0 <= j < g.cursor ::
          g.order[j] in g.nodes && (g.nodes[g.order[j]].state.Succeeded? || g.nodes[g.order[j]].state.Blocked?))
    && (forall j: nat | g.cursor < j < |g.order| :: g.order[j] == Base(j))
    && (forall j: nat | g.cursor < j < |g.order| ::
          Base(j) in originals && Base(j) in g.nodes && g.nodes[Base(j)].state.Ready?)
    && (g.cursor < |g.order| ==>
          var id := g.order[g.cursor];
          && id in g.nodes && !Over(g.nodes[id])
          && (id.Base? ==> id == Base(g.cursor))
          && (id.Alt? ==> id.parent in g.nodes && g.nodes[id.parent].state.Blocked?))
  }

  /** A current node that is not of the original plan uses a skill of the library not used up yet. */
  ghost predicate Supplied(g: Graph, originals: set<NodeId>, library: set<string>) {
    g.cursor < |g.order| && g.order[g.cursor] !in originals ==>
      && g.order[g.cursor].Alt?
      && g.order[g.cursor].skill in library && g.order[g.cursor].skill !in UsedSkills(g)
  }

  ghost predicate Inv(g: Graph, originals: set<NodeId>, library: set<string>) {
    Named(g, originals) && Reserved(g) && Lined(g, originals) && Supplied(g, originals, library)
  }

  // --- The measure ---------------------------------------------------------------------------------------

  function Unfinished(g: Graph, originals: set<NodeId>): set<NodeId> {
    set id | id in originals && id in g.nodes && !Over(g.nodes[id])
  }

  function Unused(g: Graph, library: set<string>): set<string> { library - UsedSkills(g) }

  /** The methods left to try. */
  function Left(g: Graph, originals: set<NodeId>, library: set<string>): nat {
    |Unfinished(g, originals)| + |Unused(g, library)|
  }

  /** Marking the current node blocked uses up an original node or a skill. */
  lemma BlockingUsesUp(g: Graph, originals: set<NodeId>, library: set<string>, blocked: Node)
    requires Inv(g, originals, library) && g.cursor < |g.order|
    requires blocked.id == g.order[g.cursor] && blocked.state.Blocked? && blocked.skill == g.nodes[blocked.id].skill
    ensures Left(Put(g, blocked), originals, library) < Left(g, originals, library)
  {
    var c, marked := blocked.id, Put(g, blocked);
    assert NodeNamed(g.nodes[c], c, originals);
    assert Unfinished(marked, originals) == Unfinished(g, originals) - {c};
    forall s | s in UsedSkills(g)
      ensures s in UsedSkills(marked)
    {
      var id :| id in g.nodes && g.nodes[id].skill.Some? && (g.nodes[id].state.Blocked? || g.nodes[id].state.Failed?)
                && g.nodes[id].skill.value == s;
      assert marked.nodes[id] == g.nodes[id];
    }
    SubsetSize(Unfinished(marked, originals), Unfinished(g, originals));
    SubsetSize(Unused(marked, library), Unused(g, library));
    if c !in originals {
      assert marked.nodes[c] == blocked;
      assert c.skill in UsedSkills(marked);
    }
  }

  // --- What blocking leads to -------------------------------------------------------------------------------

  /** The node taken up after the current one was blocked: an alternative of it, ready and still to try. */
  ghost predicate Replaces(marked: Graph, c: NodeId, n: Node, originals: set<NodeId>, library: set<string>) {
    && n.id.Alt? && n.id.parent == c
    && n.skill == Some(n.id.skill) && n.alternatives == []
    && (n.id in marked.nodes ==> !Over(marked.nodes[n.id]))
    && (n.id !in originals ==>
          n.id !in marked.nodes && n.id.skill in library && n.id.skill !in UsedSkills(marked))
  }

  /** The first listed alternative of a step is free, if there is one. */
  lemma SiblingIsFirst(g: Graph, originals: set<NodeId>, blocked: Node)
    requires Named(g, originals) && Reserved(g) && blocked.id in g.nodes && !Over(g.nodes[blocked.id])
    requires blocked == g.nodes[blocked.id].(state := Blocked, attempts := blocked.attempts,
                                             failures := blocked.failures, reason := blocked.reason)
    ensures var sibling := Sibling(Put(g, blocked), blocked, blocked.alternatives);
            if blocked.alternatives == [] then sibling.None?
            else
              && blocked.alternatives[0] in g.nodes && blocked.alternatives[0] in originals
              && blocked.id.Base? && blocked.alternatives[0].Alt? && blocked.alternatives[0].parent == blocked.id
              && g.nodes[blocked.alternatives[0]].state.Ready?
              && sibling == Some(g.nodes[blocked.alternatives[0]])
  {
    assert NodeNamed(g.nodes[blocked.id], blocked.id, originals);
    if blocked.alternatives != [] {
      var a := blocked.alternatives[0];
      assert a in blocked.alternatives;
      assert NodeNamed(g.nodes[a], a, originals) && NodeReserved(g, a);
    }
  }

  lemma {:induction false} FirstUnusedHolds(skills: seq<string>, used: set<string>)
    ensures var s := FirstUnused(skills, used); s.Some? ==> s.value in skills && s.value !in used
  {
    if skills != [] {
      FirstUnusedHolds(skills[1..], used);
    }
  }

  lemma NextReplaces(g: Graph, originals: set<NodeId>, skills: Option<seq<Spec>>, library: set<string>, blocked: Node)
    requires Inv(g, originals, library) && Library(skills) <= library
    requires g.cursor < |g.order| && blocked.id == g.order[g.cursor]
    requires blocked == g.nodes[blocked.id].(state := Blocked, attempts := blocked.attempts,
                                             failures := blocked.failures, reason := blocked.reason)
    ensures var next := NextAlternative(Put(g, blocked), blocked, skills);
            next.Some? ==> Replaces(Put(g, blocked), blocked.id, next.value, originals, library)
  {
    hide UsedSkills, AlternativeSkillIds, Sibling, FirstUnused;
    var marked, c := Put(g, blocked), blocked.id;
    SiblingIsFirst(g, originals, blocked);
    if blocked.alternatives != [] {
      var a := blocked.alternatives[0];
      assert NodeNamed(g.nodes[a], a, originals);
    } else if skills.Some? && blocked.skill.Some? {
      var used := UsedSkills(marked) + {blocked.skill.value};
      var names := AlternativeSkillIds(skills.value, blocked.skill.value);
      AlternativesAreSkills(skills.value, blocked.skill.value);
      FirstUnusedHolds(names, used);
      var other := FirstUnused(names, used);
      if other.Some? {
        assert Alt(c, other.value) in g.nodes ==> NodeReserved(g, Alt(c, other.value));
      }
    }
  }

  // --- Blocking keeps the plan --------------------------------------------------------------------------

  /** The current node of `g`, marked blocked. */
  ghost predicate Marks(g: Graph, blocked: Node) {
    && g.cursor < |g.order| && blocked.id == g.order[g.cursor] && blocked.id in g.nodes
    && blocked.state.Blocked?
    && blocked == g.nodes[blocked.id].(state := Blocked, attempts := blocked.attempts,
                                       failures := blocked.failures, reason := blocked.reason)
  }

  function Taken(g: Graph, blocked: Node, r: Node): Graph
    requires g.cursor < |g.order|
  {
    Put(Put(g, blocked), r).(order := g.order[g.cursor := r.id])
  }

  /** `n` is the current node in another state. */
  ghost predicate Restates(g: Graph, n: Node) {
    && g.cursor < |g.order| && n.id == g.order[g.cursor] && n.id in g.nodes
    && n.skill == g.nodes[n.id].skill && n.alternatives == g.nodes[n.id].alternatives && g.nodes[n.id].id == n.id
  }

  lemma RestatedNamed(g: Graph, originals: set<NodeId>, n: Node)
    requires Named(g, originals) && Restates(g, n)
    ensures Named(Put(g, n), originals)
  {
    forall id | id in g.nodes
      ensures NodeNamed(Put(g, n).nodes[id], id, originals)
    {
      assert NodeNamed(g.nodes[id], id, originals);
    }
  }

  /** Whatever becomes of the current node: its own method was blocked, and its alternatives untouched. */
  lemma RestatedReserved(g: Graph, originals: set<NodeId>, n: Node)
    requires Reserved(g) && Lined(g, originals) && Restates(g, n)
    ensures Reserved(Put(g, n))
  {
    var c := n.id;
    assert c.Alt? ==> g.nodes[c.parent].state.Blocked? && c.parent != c;
    assert !g.nodes[c].state.Blocked?;
    hide Lined, Over;
    forall id | id in g.nodes && id.Alt?
      ensures NodeReserved(Put(g, n), id)
    {
      assert NodeReserved(g, id);
    }
  }

  lemma TakenNamed(g: Graph, originals: set<NodeId>, library: set<string>, blocked: Node, r: Node)
    requires Inv(g, originals, library) && Marks(g, blocked)
    requires Replaces(Put(g, blocked), blocked.id, r, originals, library)
    ensures Named(Taken(g, blocked, r), originals)
  {
    hide Lined, Reserved, Supplied;
    var t := Taken(g, blocked, r);
    forall id | id in t.nodes
      ensures NodeNamed(t.nodes[id], id, originals)
    {
      if id in g.nodes {
        assert NodeNamed(g.nodes[id], id, originals);
      }
    }
  }

  /** A node not over has no children: only an original step has any before it is blocked. */
  lemma TakenReserved(g: Graph, originals: set<NodeId>, library: set<string>, blocked: Node, r: Node)
    requires Named(g, originals) && Reserved(Put(g, blocked)) && Marks(g, blocked) && r.state.Ready?
    requires Replaces(Put(g, blocked), blocked.id, r, originals, library)
    ensures Reserved(Taken(g, blocked, r))
  {
    var marked, t := Put(g, blocked), Taken(g, blocked, r);
    ParentDiffers(r.id);
    assert r.id in g.nodes ==> NodeNamed(g.nodes[r.id], r.id, originals);
    hide Named;
    forall id | id in t.nodes && id.Alt?
      ensures NodeReserved(t, id)
    {
      assert id != r.id ==> NodeReserved(marked, id);
    }
  }

  lemma ParentDiffers(id: NodeId)
    ensures id.Alt? ==> id.parent != id
  {
  }

  lemma TakenLined(g: Graph, originals: set<NodeId>, library: set<string>, blocked: Node, r: Node)
    requires Inv(g, originals, library) && Marks(g, blocked) && r.state.Ready?
    requires Replaces(Put(g, blocked), blocked.id, r, originals, library)
    ensures Lined(Taken(g, blocked, r), originals)
  {
    hide Supplied, Named, Reserved;
  }

  lemma SameUsed(g: Graph, t: Graph)
    requires g.nodes.Keys <= t.nodes.Keys
    requires forall id | id in g.nodes :: t.nodes[id].skill == g.nodes[id].skill
    requires forall id | id in t.nodes ::
               (t.nodes[id].state.Blocked? || t.nodes[id].state.Failed?)
               <==> id in g.nodes && (g.nodes[id].state.Blocked? || g.nodes[id].state.Failed?)
    ensures UsedSkills(t) == UsedSkills(g)
  {
    assert forall id | id in g.nodes :: id in t.nodes;
  }

  lemma TakenUsed(g: Graph, originals: set<NodeId>, library: set<string>, blocked: Node, r: Node)
    requires Inv(g, originals, library) && Marks(g, blocked) && r.state.Ready?
    requires Replaces(Put(g, blocked), blocked.id, r, originals, library)
    ensures UsedSkills(Taken(g, blocked, r)) == UsedSkills(Put(g, blocked))
    ensures Unfinished(Taken(g, blocked, r), originals) == Unfinished(Put(g, blocked), originals)
  {
    hide UsedSkills, Lined, Supplied, Reserved;
    if r.id in g.nodes {
      assert NodeNamed(g.nodes[r.id], r.id, originals);
    }
    ParentDiffers(r.id);
    SameUsed(Put(g, blocked), Taken(g, blocked, r));
  }

  lemma BlockTakesNext(g: Graph, originals: set<NodeId>, library: set<string>, blocked: Node, r: Node)
    requires Inv(g, originals, library) && Marks(g, blocked) && r.state.Ready?
    requires Replaces(Put(g, blocked), blocked.id, r, originals, library)
    ensures Inv(Taken(g, blocked, r), originals, library)
    ensures Left(Taken(g, blocked, r), originals, library) < Left(g, originals, library)
  {
    RestatedReserved(g, originals, blocked);
    TakenNamed(g, originals, library, blocked, r);
    TakenReserved(g, originals, library, blocked, r);
    TakenLined(g, originals, library, blocked, r);
    TakenUsed(g, originals, library, blocked, r);
    BlockingUsesUp(g, originals, library, blocked);
    hide Named, Reserved, Lined, UsedSkills, Unfinished;
  }

  lemma MovedOnLined(g: Graph, originals: set<NodeId>, n: Node)
    requires Lined(g, originals) && Restates(g, n) && (n.state.Blocked? || n.state.Succeeded?)
    ensures var t := Put(g, n).(cursor := g.cursor + 1);
            Lined(t, originals) && (t.cursor < |t.order| ==> t.order[t.cursor] in originals)
  {
  }

  /** The plan goes on with its next original step. */
  lemma MovedOn(g: Graph, originals: set<NodeId>, library: set<string>, n: Node)
    requires Inv(g, originals, library) && Restates(g, n) && (n.state.Blocked? || n.state.Succeeded?)
    ensures Inv(Put(g, n).(cursor := g.cursor + 1), originals, library)
  {
    RestatedNamed(g, originals, n);
    RestatedReserved(g, originals, n);
    MovedOnLined(g, originals, n);
    hide NodeNamed, NodeReserved, Lined, UsedSkills, Over;
  }

  /** What one call may do: keep the plan, and use up methods or move on, never the other way. */
  ghost predicate Kept(g: Graph, d: Did, originals: set<NodeId>, library: set<string>) {
    && Inv(d.graph, originals, library) && |d.graph.order| == |g.order| && g.cursor <= d.graph.cursor
    && Left(d.graph, originals, library) <= Left(g, originals, library)
  }

  lemma CurrentIs(g: Graph, originals: set<NodeId>, library: set<string>)
    requires Inv(g, originals, library)
    ensures if g.cursor < |g.order| then
              && g.order[g.cursor] in g.nodes && Current(g) == Some(g.nodes[g.order[g.cursor]])
              && g.nodes[g.order[g.cursor]].id == g.order[g.cursor] && !Over(g.nodes[g.order[g.cursor]])
            else Current(g).None?
  {
    if g.cursor < |g.order| {
      var id := g.order[g.cursor];
      assert NodeNamed(g.nodes[id], id, originals);
    }
  }

  lemma BlockKept(naming: Naming, g: Graph, skill: string, reason: string, skills: Option<seq<Spec>>,
                  originals: set<NodeId>, library: set<string>)
    requires Inv(g, originals, library) && Library(skills) <= library
    ensures var d := BlockCurrentMethod(naming, g, skill, reason, skills);
            && Kept(g, d, originals, library)
            && (d.done ==> Left(d.graph, originals, library) < Left(g, originals, library))
            && (d.done <==> g.cursor < |g.order| && g.order[g.cursor] in g.nodes
                            && SameSkill(naming, g.nodes[g.order[g.cursor]], skill))
            && (!d.done ==> d.graph == g)
  {
    hide NextAlternative, Left, Inv, SameSkill, Replaces, Current, Over;
    CurrentIs(g, originals, library);
    if g.cursor < |g.order| && SameSkill(naming, g.nodes[g.order[g.cursor]], skill) {
      var node := g.nodes[g.order[g.cursor]];
      var blocked := node.(state := Blocked, attempts := node.attempts + 1, failures := node.failures + 1,
                           reason := Some(reason));
      NextReplaces(g, originals, skills, library, blocked);
      var next := NextAlternative(Put(g, blocked), blocked, skills);
      if next.None? {
        MovedOn(g, originals, library, blocked);
        LeftAfterBlock(g, originals, library, blocked);
      } else {
        var parent := if node.parent.Some? then node.parent else Some(node.id);
        var r := next.value.(state := Ready, parent := parent);
        ReplacesStill(Put(g, blocked), blocked.id, next.value, r, originals, library);
        BlockTakesNext(g, originals, library, blocked, r);
      }
    }
  }

  lemma LeftAfterBlock(g: Graph, originals: set<NodeId>, library: set<string>, blocked: Node)
    requires Inv(g, originals, library) && Marks(g, blocked)
    ensures Left(Put(g, blocked).(cursor := g.cursor + 1), originals, library) < Left(g, originals, library)
  {
    BlockingUsesUp(g, originals, library, blocked);
  }

  lemma ReplacesStill(marked: Graph, c: NodeId, n: Node, r: Node, originals: set<NodeId>, library: set<string>)
    requires Replaces(marked, c, n, originals, library) && r == n.(state := Ready, parent := r.parent)
    ensures Replaces(marked, c, r, originals, library)
  {
  }

  // --- Succeeding and running -------------------------------------------------------------------------------

  lemma RestatedUsed(g: Graph, originals: set<NodeId>, library: set<string>, n: Node)
    requires Lined(g, originals) && Restates(g, n) && !n.state.Blocked? && !n.state.Failed?
    ensures UsedSkills(Put(g, n)) == UsedSkills(g)
    ensures Unfinished(Put(g, n), originals) <= Unfinished(g, originals)
  {
    hide UsedSkills;
    assert !Over(g.nodes[n.id]);
    SameUsed(g, Put(g, n));
  }

  lemma RestatedLeft(g: Graph, originals: set<NodeId>, library: set<string>, n: Node, cursor: nat)
    requires Inv(g, originals, library) && Restates(g, n) && !n.state.Blocked? && !n.state.Failed?
    ensures Left(Put(g, n).(cursor := cursor), originals, library) <= Left(g, originals, library)
  {
    RestatedUsed(g, originals, library, n);
    SubsetSize(Unfinished(Put(g, n), originals), Unfinished(g, originals));
  }

  lemma SucceedKept(naming: Naming, g: Graph, skill: string, allowUnbound: bool, originals: set<NodeId>,
                    library: set<string>)
    requires Inv(g, originals, library)
    ensures var d := MarkSucceeded(naming, g, skill, allowUnbound);
            Kept(g, d, originals, library) && (d.done ==> d.graph.cursor == g.cursor + 1)
  {
    hide Inv, Left, Over, SameSkill;
    CurrentIs(g, originals, library);
    if MarkSucceeded(naming, g, skill, allowUnbound).done {
      var n := g.nodes[g.order[g.cursor]].(state := Succeeded, failures := 0, reason := None);
      MovedOn(g, originals, library, n);
      RestatedLeft(g, originals, library, n, g.cursor + 1);
    }
  }

  lemma RunningLined(g: Graph, originals: set<NodeId>, n: Node)
    requires Lined(g, originals) && Restates(g, n) && n.state.Running?
    ensures Lined(Put(g, n), originals)
  {
  }

  lemma RunningKept(g: Graph, skill: string, originals: set<NodeId>, library: set<string>)
    requires Inv(g, originals, library)
    ensures Kept(g, Did(MarkRunning(g, skill), false), originals, library)
  {
    CurrentIs(g, originals, library);
    if g.cursor < |g.order| {
      var n := g.nodes[g.order[g.cursor]].(state := Running);
      RestatedNamed(g, originals, n);
      RestatedReserved(g, originals, n);
      RunningLined(g, originals, n);
      RestatedUsed(g, originals, library, n);
      RestatedLeft(g, originals, library, n, g.cursor);
      hide Named, Reserved, Lined, UsedSkills, Over, Left;
    }
  }

  // --- The graph a plan starts from ---------------------------------------------------------------------------

  /** All nodes of the first `n` steps: untouched, filed under their names, alternatives below their step. */
  ghost predicate Built(nodes: map<NodeId, Node>, n: nat) {
    && (forall i: nat :: Base(i) in nodes <==> i < n)
    && (forall id | id in nodes :: nodes[id].id == id && nodes[id].state.Ready?)
    && (forall id | id in nodes && id.Alt? ::
          && nodes[id].skill == Some(id.skill) && nodes[id].alternatives == []
          && id.parent.Base? && id.parent.index < n && id in nodes[id.parent].alternatives)
    && (forall id | id in nodes && id.Base? ::
          forall a | a in nodes[id].alternatives :: a.Alt? && a.parent == id && a in nodes)
  }

  lemma {:induction false} WithAlternativesHolds(nodes: map<NodeId, Node>, parent: NodeId, skills: seq<string>)
    ensures var more := WithAlternatives(nodes, parent, skills);
            && (forall id: NodeId :: id in more <==>
                  id in nodes || (id.Alt? && id.parent == parent && id.skill in skills))
            && (forall id | id in more :: more[id] ==
                  if id.Alt? && id.parent == parent && id.skill in skills
                  then Fresh(id, id.skill, Some(id.skill), Some(parent), [])
                  else nodes[id])
    decreases |skills|
  {
    if skills != [] {
      var n := |skills| - 1;
      WithAlternativesHolds(nodes, parent, skills[..n]);
      assert skills == skills[..n] + [skills[n]];
    }
  }

  lemma AltIdsHolds(parent: NodeId, skills: seq<string>)
    ensures forall a: NodeId :: a in AltIds(parent, skills) <==> a.Alt? && a.parent == parent && a.skill in skills
  {
    forall a: NodeId | a.Alt? && a.parent == parent && a.skill in skills
      ensures a in AltIds(parent, skills)
    {
      var k :| 0 <= k < |skills| && skills[k] == a.skill;
      assert AltIds(parent, skills)[k] == a;
    }
  }

  /** `more` is `nodes` with one step and its alternatives added. */
  ghost predicate Extends(nodes: map<NodeId, Node>, more: map<NodeId, Node>, step: Node, skills: seq<string>) {
    && step.id in more && more[step.id] == step && step.state.Ready?
    && (forall id: NodeId :: id in more <==>
          id in nodes || id == step.id || (id.Alt? && id.parent == step.id && id.skill in skills))
    && (forall id | id in more && id != step.id ::
          if id.Alt? && id.parent == step.id && id.skill in skills
          then more[id] == Fresh(id, id.skill, Some(id.skill), Some(step.id), [])
          else id in nodes && more[id] == nodes[id])
    && (forall a: NodeId :: a in step.alternatives <==> a.Alt? && a.parent == step.id && a.skill in skills)
  }

  lemma ExtendsBuilt(nodes: map<NodeId, Node>, more: map<NodeId, Node>, step: Node, skills: seq<string>, n: nat)
    requires Built(nodes, n) && step.id == Base(n) && Extends(nodes, more, step, skills)
    ensures Built(more, n + 1)
  {
    forall id | id in more && id.Alt?
      ensures more[id].skill == Some(id.skill) && more[id].alternatives == []
      ensures id.parent.Base? && id.parent.index < n + 1 && id in more[id.parent].alternatives
    {
    }
  }

  lemma StepBuilt(naming: Naming, skills: Option<seq<Spec>>, nodes: map<NodeId, Node>, n: nat, text: string)
    requires Built(nodes, n)
    ensures Built(WithStep(naming, skills, nodes, n, text), n + 1)
  {
    hide AlternativesOf, BindPlanStepSkill, Built, WithAlternatives, AltIds;
    var skill := BindPlanStepSkill(naming, text, skills);
    var others := AlternativesOf(skills, skill);
    WithAlternativesHolds(nodes, Base(n), others);
    AltIdsHolds(Base(n), others);
    var step := Fresh(Base(n), text, skill, None, AltIds(Base(n), others));
    ExtendsBuilt(nodes, WithStep(naming, skills, nodes, n, text), step, others, n);
  }

  lemma {:induction false} NodesBuilt(naming: Naming, skills: Option<seq<Spec>>, labels: seq<string>)
    ensures Built(NodesFrom(naming, skills, labels), |labels|)
    decreases |labels|
  {
    if labels != [] {
      hide Built, WithStep;
      var n := |labels| - 1;
      NodesBuilt(naming, skills, labels[..n]);
      StepBuilt(naming, skills, NodesFrom(naming, skills, labels[..n]), n, labels[n]);
    }
  }

  lemma StartsKept(naming: Naming, skills: Option<seq<Spec>>, labels: seq<string>, library: set<string>)
    ensures var g := PlanGraphFromSteps(naming, skills, labels); Inv(g, g.nodes.Keys, library)
  {
    hide NodesFrom;
    NodesBuilt(naming, skills, labels);
  }

  // --- Runs ------------------------------------------------------------------------------------------------------

  /** The skills a call may draw on: every block brings its own library. */
  function Offered(call: Call): set<string> { if call.BlockCall? then Library(call.skills) else {} }

  function Seen(calls: seq<Call>): set<string>
    decreases |calls|
  {
    if calls == [] then {} else Offered(calls[0]) + Seen(calls[1..])
  }

  lemma PerformKept(naming: Naming, g: Graph, call: Call, originals: set<NodeId>, library: set<string>)
    requires Inv(g, originals, library) && Offered(call) <= library
    ensures var d := Perform(naming, g, call);
            && Kept(g, d, originals, library)
            && (d.done && call.BlockCall? ==> Left(d.graph, originals, library) < Left(g, originals, library))
            && (d.done && call.SucceededCall? ==> d.graph.cursor == g.cursor + 1)
  {
    hide Inv, Left, MarkRunning, MarkSucceeded, BlockCurrentMethod;
    match call
    case RunningCall(skill) => RunningKept(g, skill, originals, library);
    case SucceededCall(skill, allowUnbound) => SucceedKept(naming, g, skill, allowUnbound, originals, library);
    case BlockCall(skill, reason, skills) => BlockKept(naming, g, skill, reason, skills, originals, library);
  }

  lemma {:induction false} RunKept(naming: Naming, g: Graph, calls: seq<Call>, originals: set<NodeId>,
                                   library: set<string>)
    requires Inv(g, originals, library) && Seen(calls) <= library
    ensures var r := Run(naming, g, calls);
            && Inv(r.graph, originals, library) && |r.graph.order| == |g.order|
            && r.blocked + Left(r.graph, originals, library) <= Left(g, originals, library)
            && g.cursor + r.succeeded <= r.graph.cursor
    decreases |calls|
  {
    hide Inv, Left, Perform, Offered;
    if calls != [] {
      PerformKept(naming, g, calls[0], originals, library);
      RunKept(naming, Perform(naming, g, calls[0]).graph, calls[1..], originals, library);
    }
  }

  lemma LeftBound(g: Graph, library: set<string>)
    ensures Left(g, g.nodes.Keys, library) <= |g.nodes| + |library|
  {
    SubsetSize(Unfinished(g, g.nodes.Keys), g.nodes.Keys);
    SubsetSize(Unused(g, library), library);
    assert |g.nodes.Keys| == |g.nodes|;
  }

  /** Over every run on a fresh plan, whichever library each block brings: the order names existing nodes,
      everything behind the cursor succeeded or was blocked, and calls that did something are bounded: blocks by the
      nodes there were and the skills that were offered, successes by the steps. */
  lemma RepairIsBounded(naming: Naming, skills: Option<seq<Spec>>, labels: seq<string>, calls: seq<Call>)
    ensures var g := PlanGraphFromSteps(naming, skills, labels);
            var r := Run(naming, g, calls);
            && |r.graph.order| == |labels| && r.graph.cursor <= |labels|
            && (forall j :: 0 <= j < |labels| ==> r.graph.order[j] in r.graph.nodes)
            && (forall j :: 0 <= j < r.graph.cursor ==>
                  var state := r.graph.nodes[r.graph.order[j]].state; state.Succeeded? || state.Blocked?)
            && r.blocked <= |g.nodes| + |Seen(calls)| && r.succeeded <= |labels|
  {
    hide Run, Left, NodesFrom, Inv, Seen;
    var g := PlanGraphFromSteps(naming, skills, labels);
    StartsKept(naming, skills, labels, Seen(calls));
    RunKept(naming, g, calls, g.nodes.Keys, Seen(calls));
    LeftBound(g, Seen(calls));
    InvMeans(Run(naming, g, calls).graph, g.nodes.Keys, Seen(calls));
  }

  lemma InvMeans(g: Graph, originals: set<NodeId>, library: set<string>)
    requires Inv(g, originals, library)
    ensures && g.cursor <= |g.order|
            && (forall j :: 0 <= j < |g.order| ==> g.order[j] in g.nodes)
            && (forall j :: 0 <= j < g.cursor ==>
                  var state := g.nodes[g.order[j]].state; state.Succeeded? || state.Blocked?)
  {
    forall j: nat | j < |g.order|
      ensures g.order[j] in g.nodes
    {
      if g.cursor < j {
        assert g.order[j] == Base(j);
      }
    }
  }

  /** Keep blocking whatever the current method is, by its own objective, with one library after the other. */
  function BlockOn(naming: Naming, g: Graph, libraries: seq<Option<seq<Spec>>>): Graph
    decreases |libraries|
  {
    if libraries == [] || Current(g).None? then g
    else
      var did := BlockCurrentMethod(naming, g, Current(g).value.objective, "", libraries[0]);
      BlockOn(naming, did.graph, libraries[1..])
  }

  function AllSkills(libraries: seq<Option<seq<Spec>>>): set<string> {
    if libraries == [] then {} else Library(libraries[0]) + AllSkills(libraries[1..])
  }

  lemma {:induction false} BlockingEnds(naming: Naming, g: Graph, libraries: seq<Option<seq<Spec>>>,
                                        originals: set<NodeId>, library: set<string>)
    requires Inv(g, originals, library) && AllSkills(libraries) <= library
    requires Left(g, originals, library) <= |libraries|
    ensures var t := BlockOn(naming, g, libraries);
            t.cursor == |t.order| == |g.order| && Inv(t, originals, library)
    decreases |libraries|
  {
    hide Inv, Left, BlockCurrentMethod, Over, Library;
    CurrentIs(g, originals, library);
    CursorFits(g, originals, library);
    if Current(g).Some? {
      var skill := Current(g).value.objective;
      if libraries == [] {
        LeftWhileCurrent(naming, g, originals, library);
      } else {
        BlockKept(naming, g, skill, "", libraries[0], originals, library);
        var d := BlockCurrentMethod(naming, g, skill, "", libraries[0]);
        BlockingEnds(naming, d.graph, libraries[1..], originals, library);
      }
    }
  }

  /** A plan not at its end has a method left. */
  lemma LeftWhileCurrent(naming: Naming, g: Graph, originals: set<NodeId>, library: set<string>)
    requires Inv(g, originals, library) && Current(g).Some?
    ensures Left(g, originals, library) > 0
  {
    hide Inv, Left, BlockCurrentMethod, Over;
    CurrentIs(g, originals, library);
    BlockKept(naming, g, Current(g).value.objective, "", None, originals, library);
  }

  lemma CursorFits(g: Graph, originals: set<NodeId>, library: set<string>)
    requires Inv(g, originals, library)
    ensures g.cursor <= |g.order|
  {
  }

  /** Repair always finishes: however the methods fail and whichever library each block brings, after at most as
      many blocks as the plan had nodes and the libraries have skills, the plan is at its end. */
  lemma RepairFinishes(naming: Naming, skills: Option<seq<Spec>>, labels: seq<string>,
                       libraries: seq<Option<seq<Spec>>>)
    requires |PlanGraphFromSteps(naming, skills, labels).nodes| + |AllSkills(libraries)| <= |libraries|
    ensures var t := BlockOn(naming, PlanGraphFromSteps(naming, skills, labels), libraries);
            t.cursor == |t.order| == |labels|
  {
    hide Left, NodesFrom, BlockOn, Inv, AllSkills;
    var g := PlanGraphFromSteps(naming, skills, labels);
    StartsKept(naming, skills, labels, AllSkills(libraries));
    LeftBound(g, AllSkills(libraries));
    BlockingEnds(naming, g, libraries, g.nodes.Keys, AllSkills(libraries));
  }
}
