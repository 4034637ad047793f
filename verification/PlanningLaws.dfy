/** What an option for a target is, by itself: told from the knowledge graph, without expanding it. */
module PlanningLaws {
  import opened Common
  import opened PlanningModel
  import opened PlanningFacts

  // --- Quantities -----------------------------------------------------------------------------------------------

  /** The batches of a method are the fewest, but at least one, that yield the quantity, where a batch per at least
      one; part of a batch counts as that part. */
  lemma BatchesSuffice(m: Method, quantity: real)
    ensures var b, per := Batches(m, quantity), if m.output > 1.0 then m.output else 1.0;
            b >= 1.0 && b * per >= quantity && (b > 1.0 ==> b * per == quantity)
  {
    var per := if m.output > 1.0 then m.output else 1.0;
    assert quantity / per * per == quantity;
    if quantity / per <= 1.0 {
      Product(quantity / per, 1.0, per);
    }
  }

  lemma Product(a: real, b: real, c: real)
    requires a <= b && 0.0 < c
    ensures a * c <= b * c
  {
  }

  lemma Larger(a: real, b: real, c: real)
    requires a < b && 0.0 < c
    ensures a * c < b * c
  {
  }

  function Times(a: real, b: real): real { a * b }

  /** The same, computed. */
  function Runs(m: Method, q: real): real {
    var per := if m.output > 1.0 then m.output else 1.0;
    if q <= per then 1.0 else q / per
  }

  lemma RunsAreBatches(m: Method, q: real)
    ensures Runs(m, q) == Batches(m, q)
  {
    var per := if m.output > 1.0 then m.output else 1.0;
    assert q / per * per == q;
    if q / per > 1.0 {
      Larger(1.0, q / per, per);
    } else {
      Product(q / per, 1.0, per);
    }
  }

  /** Which of two options comes first: one that is not cyclic, that is resolved, that is available, that costs
      less, or that needs less, in this order. */
  lemma BeforeTold(a: Acquisition, b: Acquisition)
    ensures Before(KeyOf(a), KeyOf(b)) <==>
              || (!a.cyclic && b.cyclic)
              || (a.cyclic == b.cyclic &&
                    (|| (!a.unresolved && b.unresolved)
                     || (a.unresolved == b.unresolved &&
                           (|| (a.available && !b.available)
                            || (a.available == b.available &&
                                  (|| a.leafCost < b.leafCost
                                   || (a.leafCost == b.leafCost && |a.requirements| < |b.requirements|)))))))
  {
  }

  // --- Options --------------------------------------------------------------------------------------------------

  /** What the first options of these slots cost together. */
  function FirstsCost(slots: seq<Slot>): real {
    if slots == [] then 0.0
    else (if slots[0].options == [] then 0.0 else slots[0].options[0].leafCost) + FirstsCost(slots[1..])
  }

  /** An option for so much of a target below `path`, with `room` more targets to go through: at hand, a repeat,
      too deep, without a method and then as costly as it is much, or made by one of its methods. */
  ghost predicate IsOption(k: Knowledge, target: Node, q: real, available: set<Node>, path: set<Node>, room: nat,
                           t: Acquisition)
    decreases Unexpanded(k, path), 0
  {
    if target in available then t == Acquisition(target, q, None, 1.0, [], true, false, false, 0.0)
    else if target in path then t == Acquisition(target, q, None, 1.0, [], false, false, true, 0.0)
    else if room == 0 then t == Acquisition(target, q, None, 1.0, [], false, true, false, 0.0)
    else if target !in k.methods || |k.methods[target]| == 0 then
      t == Acquisition(target, q, None, 1.0, [], false, true, false, q)
    else
      PathShrinks(k, path, target);
      exists m :: m in k.methods[target] && Made(k, m, q, available, path + {target}, room - 1, t)
  }

  /** What one method makes: a slot for each requirement, in order, at the cost of the first option of each. */
  ghost predicate Made(k: Knowledge, m: Method, q: real, available: set<Node>, path: set<Node>, room: nat,
                       t: Acquisition)
    decreases Unexpanded(k, path), 2
  {
    && t.target == m.target && t.quantity == q && t.process == Some(m.process) && t.output == m.output
    && !t.available && !t.unresolved && !t.cyclic && t.leafCost == FirstsCost(t.requirements)
    && |t.requirements| == |m.requirements|
    && forall i :: 0 <= i < |m.requirements| ==>
         Offers(k, m.process, m.requirements[i], Times(m.requirements[i].quantity, Runs(m, q)), available, path, room,
                t.requirements[i])
  }

  /** The options of a requirement: some for each alternative, no others, best first; or a placeholder if there are
      no alternatives. */
  ghost predicate Offers(k: Knowledge, process: string, r: Requirement, need: real, available: set<Node>,
                         path: set<Node>, room: nat, slot: Slot)
    decreases Unexpanded(k, path), 1
  {
    if r.alternatives == [] then
      slot.options == [Acquisition("unresolved:" + process, need, None, 1.0, [], false, true, false, need)]
    else
      && Ordered(slot.options)
      && (forall o :: o in slot.options ==>
            exists a :: a in r.alternatives && IsOption(k, a, need, available, path, room, o))
      && (forall a :: a in r.alternatives ==>
            exists o :: o in slot.options && IsOption(k, a, need, available, path, room, o))
  }

  function Room(depth: nat, limit: nat): nat { if depth < limit then limit - depth else 0 }

  /** Expanding gives options, and nothing else, best first; one for every method of a target that has them. */
  lemma {:induction false} ExpandGivesOptions(
    k: Knowledge, target: Node, q: real, available: set<Node>, path: set<Node>, depth: nat, m: nat)
    ensures var options := Expand(k, target, q, available, path, depth, m);
            && options != [] && Ordered(options)
            && (forall t :: t in options ==> IsOption(k, target, q, available, path, Room(depth, m), t))
            && (target in k.methods && target !in available && target !in path && depth < m ==>
                  && |options| == (if |k.methods[target]| == 0 then 1 else |k.methods[target]|)
                  && forall x :: x in k.methods[target] ==>
                       exists t :: t in options && Made(k, x, q, available, path + {target}, Room(depth + 1, m), t))
    decreases Unexpanded(k, path), 0, 0
  {
    hide Sort, Made, Before, Ordered, ExpandMethods;
    ExpandOrdered(k, target, q, available, path, depth, m);
    if target !in available && target !in path && depth < m && MethodsOf(k, target) != [] {
      PathShrinks(k, path, target);
      var methods := MethodsOf(k, target);
      MethodsGiveOptions(k, methods, q, available, path + {target}, depth + 1, m);
      var made := ExpandMethods(k, methods, q, available, path + {target}, depth + 1, m);
      SortIsStable(made, Key(false, false, false, 0.0, 0));
      SortLength(made);
      forall x | x in k.methods[target]
        ensures exists t :: t in Sort(made) && Made(k, x, q, available, path + {target}, Room(depth + 1, m), t)
      {
        var i :| 0 <= i < |methods| && methods[i] == x;
        assert made[i] in Sort(made);
      }
      forall t | t in Expand(k, target, q, available, path, depth, m)
        ensures IsOption(k, target, q, available, path, Room(depth, m), t)
      {
        var i :| 0 <= i < |made| && made[i] == t;
        assert methods[i] in k.methods[target] && Room(depth + 1, m) == Room(depth, m) - 1;
      }
    }
  }

  lemma {:induction false} SortLength(s: seq<Acquisition>)
    ensures |Sort(s)| == |s|
  {
    if s != [] {
      SortLength(s[1..]);
      InsertLength(s[0], Sort(s[1..]));
    }
  }

  lemma {:induction false} InsertLength(a: Acquisition, s: seq<Acquisition>)
    ensures |Insert(a, s)| == |s| + 1
  {
    if s != [] {
      InsertLength(a, s[1..]);
    }
  }

  lemma {:induction false} MethodsGiveOptions(
    k: Knowledge, methods: seq<Method>, q: real, available: set<Node>, path: set<Node>, depth: nat, m: nat)
    ensures var made := ExpandMethods(k, methods, q, available, path, depth, m);
            && |made| == |methods|
            && forall i :: 0 <= i < |methods| ==> Made(k, methods[i], q, available, path, Room(depth, m), made[i])
    decreases Unexpanded(k, path), 4, |methods|
  {
    if methods != [] {
      hide Made, ExpandMethod;
      MethodGivesOption(k, methods[0], q, available, path, depth, m);
      MethodsGiveOptions(k, methods[1..], q, available, path, depth, m);
    }
  }

  lemma {:induction false} MethodGivesOption(
    k: Knowledge, x: Method, q: real, available: set<Node>, path: set<Node>, depth: nat, m: nat)
    ensures Made(k, x, q, available, path, Room(depth, m), ExpandMethod(k, x, q, available, path, depth, m))
    decreases Unexpanded(k, path), 3, 0
  {
    hide Offers, Batches, Runs, ExpandSlots, FirstsCost, HeadCost, Times;
    RunsAreBatches(x, q);
    SlotsOffer(k, x.process, x.requirements, Batches(x, q), available, path, depth, m);
    FirstsCostTheSame(ExpandSlots(k, x.process, x.requirements, Batches(x, q), available, path, depth, m));
  }

  lemma {:induction false} FirstsCostTheSame(slots: seq<Slot>)
    ensures HeadCost(slots) == FirstsCost(slots)
  {
    if slots != [] {
      FirstsCostTheSame(slots[1..]);
      HeadCostAppends(slots[0], slots[1..]);
      assert slots == [slots[0]] + slots[1..];
    }
  }

  lemma {:induction false} SlotsOffer(
    k: Knowledge, process: string, requirements: seq<Requirement>, batches: real, available: set<Node>,
    path: set<Node>, depth: nat, m: nat)
    ensures var slots := ExpandSlots(k, process, requirements, batches, available, path, depth, m);
            && |slots| == |requirements|
            && forall i :: 0 <= i < |requirements| ==>
                 Offers(k, process, requirements[i], Times(requirements[i].quantity, batches), available, path,
                        Room(depth, m), slots[i])
    decreases Unexpanded(k, path), 2, |requirements|
  {
    if requirements != [] {
      hide Offers, ExpandSlot, Times;
      SlotOffers(k, process, requirements[0], batches, available, path, depth, m);
      SlotsOffer(k, process, requirements[1..], batches, available, path, depth, m);
    }
  }

  lemma NeededTold(r: Requirement, batches: real)
    ensures Needed(r, batches) == Times(r.quantity, batches)
  {
  }

  lemma {:induction false} SlotOffers(
    k: Knowledge, process: string, r: Requirement, batches: real, available: set<Node>, path: set<Node>, depth: nat,
    m: nat)
    ensures Offers(k, process, r, Times(r.quantity, batches), available, path, Room(depth, m),
                   ExpandSlot(k, process, r, batches, available, path, depth, m))
    decreases Unexpanded(k, path), 2, 0
  {
    hide IsOption, Sort, Ordered, Times, Needed, ExpandAlternatives, Expand;
    NeededTold(r, batches);
    var need := Times(r.quantity, batches);
    AlternativesGiveOptions(k, r.alternatives, need, available, path, depth, m);
    var all := ExpandAlternatives(k, r.alternatives, need, available, path, depth, m);
    SortIsStable(all, Key(false, false, false, 0.0, 0));
    SortLength(all);
    forall o
      ensures o in all <==> exists a :: a in r.alternatives && o in Expand(k, a, need, available, path, depth, m)
    {
      AlternativesComplete(k, r.alternatives, need, available, path, depth, m, o);
    }
    if r.alternatives == [] {
      NoAlternatives(k, need, available, path, depth, m);
    } else {
      forall a | a in r.alternatives
        ensures exists o :: o in all && IsOption(k, a, need, available, path, Room(depth, m), o)
      {
        var o := Expand(k, a, need, available, path, depth, m)[0];
        assert o in all;
      }
      assert r.alternatives[0] in r.alternatives;
    }
  }

  lemma NoAlternatives(k: Knowledge, q: real, available: set<Node>, path: set<Node>, depth: nat, m: nat)
    ensures ExpandAlternatives(k, [], q, available, path, depth, m) == []
  {
  }

  /** Every option of every alternative is in the slot, and no others are. */
  lemma {:induction false} AlternativesComplete(
    k: Knowledge, alternatives: seq<Node>, q: real, available: set<Node>, path: set<Node>, depth: nat, m: nat,
    o: Acquisition)
    ensures o in ExpandAlternatives(k, alternatives, q, available, path, depth, m) <==>
              exists a :: a in alternatives && o in Expand(k, a, q, available, path, depth, m)
    decreases |alternatives|
  {
    hide Expand, ExpandAlternatives;
    if alternatives == [] {
      NoAlternatives(k, q, available, path, depth, m);
    } else {
      var rest := alternatives[1..];
      assert alternatives == [alternatives[0]] + rest;
      AlternativesStep(k, alternatives, q, available, path, depth, m);
      AlternativesComplete(k, rest, q, available, path, depth, m, o);
      if a :| a in alternatives && o in Expand(k, a, q, available, path, depth, m) {
        assert a == alternatives[0] || a in rest;
      }
    }
  }

  lemma AlternativesStep(k: Knowledge, alternatives: seq<Node>, q: real, available: set<Node>, path: set<Node>,
                         depth: nat, m: nat)
    requires alternatives != []
    ensures ExpandAlternatives(k, alternatives, q, available, path, depth, m)
            == Expand(k, alternatives[0], q, available, path, depth, m)
               + ExpandAlternatives(k, alternatives[1..], q, available, path, depth, m)
  {
  }

  lemma {:induction false} AlternativesGiveOptions(
    k: Knowledge, alternatives: seq<Node>, q: real, available: set<Node>, path: set<Node>, depth: nat, m: nat)
    ensures forall a :: a in alternatives ==>
              && Expand(k, a, q, available, path, depth, m) != []
              && forall o :: o in Expand(k, a, q, available, path, depth, m) ==>
                   IsOption(k, a, q, available, path, Room(depth, m), o)
    decreases Unexpanded(k, path), 1, |alternatives|
  {
    if alternatives != [] {
      hide IsOption, Made, Ordered, Expand;
      assert alternatives == [alternatives[0]] + alternatives[1..];
      ExpandGivesOptions(k, alternatives[0], q, available, path, depth, m);
      AlternativesGiveOptions(k, alternatives[1..], q, available, path, depth, m);
    }
  }

  /** The options offered for a known target, and the plan that is chosen: an option that no other one comes before. */
  lemma PlanIsBestOption(k: Knowledge, target: Node, q: real, available: set<Node>, limit: nat)
    ensures var options, best := Options(k, target, q, available, limit), BestPlan(k, target, q, available, limit);
            if target !in k.nodes then options == None && best == None
            else
              && options.Some? && best.Some? && best.value in options.value
              && (forall t :: t in options.value ==>
                    && IsOption(k, target, if q > 1.0 then q else 1.0, available, {}, limit, t)
                    && !Before(KeyOf(t), KeyOf(best.value)))
  {
    hide IsOption, Made, Before, Expand;
    ExpandGivesOptions(k, target, RMax(1.0, q), available, {}, 0, limit);
    var options := Expand(k, target, RMax(1.0, q), available, {}, 0, limit);
    BestOfOrdered(options);
    FirstIsLeast(options);
  }

  lemma FirstIsLeast(s: seq<Acquisition>)
    requires s != [] && Ordered(s)
    ensures forall t :: t in s ==> !Before(KeyOf(t), KeyOf(s[0]))
  {
    hide Before;
    BeforeIsWeakOrder(KeyOf(s[0]), KeyOf(s[0]), KeyOf(s[0]));
  }

  // --- Flattening -------------------------------------------------------------------------------------------------

  /** The steps of a tree: those of the best option of each slot that has one, in order, and then its own, which
      waits for the last step of each of them. */
  ghost predicate IsSchedule(t: Acquisition, counter: nat, steps: seq<PlanStep>)
    decreases t, 1, 0
  {
    && steps != []
    && var n := |steps| - 1;
       && steps[n].id == counter + n && steps[n].target == t.target && steps[n].cost == t.leafCost
       && Below(t, |t.requirements|, counter, steps[..n], steps[n].prerequisites)
  }

  ghost predicate Below(t: Acquisition, n: nat, counter: nat, steps: seq<PlanStep>, ids: seq<nat>)
    requires n <= |t.requirements|
    decreases t, 0, n
  {
    if n == 0 then steps == [] && ids == []
    else
      var options := t.requirements[n - 1].options;
      if options == [] then Below(t, n - 1, counter, steps, ids)
      else exists i: nat, best: Acquisition ::
             && i < |steps| && best in options && BestOf(options, best) && ids != []
             && Below(t, n - 1, counter, steps[..i], ids[..|ids| - 1])
             && IsSchedule(best, counter + i, steps[i..]) && ids[|ids| - 1] == steps[|steps| - 1].id
  }

  ghost predicate BestOf(options: seq<Acquisition>, best: Acquisition) {
    best in options && forall o :: o in options ==> !Before(KeyOf(o), KeyOf(best))
  }

  lemma {:induction false} BestIsBest(s: seq<Acquisition>)
    requires s != []
    ensures BestOf(s, Best(s))
  {
    hide Before, KeyOf;
    BestIn(s);
    assert s == [s[0]] + s[1..];
    BeforeIsWeakOrder(KeyOf(s[0]), KeyOf(s[0]), KeyOf(s[0]));
    if |s| > 1 {
      BestIsBest(s[1..]);
      var rest := Best(s[1..]);
      forall o | o in s
        ensures !Before(KeyOf(o), KeyOf(Best(s)))
      {
        BeforeIsWeakOrder(KeyOf(rest), KeyOf(s[0]), KeyOf(s[0]));
        if o in s[1..] {
          BeforeIsWeakOrder(KeyOf(o), KeyOf(rest), KeyOf(s[0]));
        }
      }
    }
  }

  lemma {:induction false} FlattenIsSchedule(t: Acquisition, counter: nat)
    ensures IsSchedule(t, counter, Flatten(t, counter))
    decreases t, 1, 0
  {
    hide Below, Best;
    SlotsAreBelow(t, |t.requirements|, counter);
    var below := FlattenSlots(t, |t.requirements|, counter);
    assert Flatten(t, counter)[..|below.steps|] == below.steps;
  }

  lemma {:induction false} SlotsAreBelow(t: Acquisition, n: nat, counter: nat)
    requires n <= |t.requirements|
    ensures var below := FlattenSlots(t, n, counter); Below(t, n, counter, below.steps, below.ids)
    decreases t, 0, n
  {
    if n > 0 {
      hide IsSchedule, Best, BestOf, Flatten, Below, FlattenSlots;
      SlotsAreBelow(t, n - 1, counter);
      var options := t.requirements[n - 1].options;
      if options == [] {
        EmptySlot(t, n, counter);
      } else {
        var front := FlattenSlots(t, n - 1, counter);
        BestIn(options);
        BestIsBest(options);
        FlattenSlotsStep(t, n, counter);
        FlattenIsSchedule(Best(options), counter + |front.steps|);
        BelowStep(t, n, counter, front, Best(options), Flatten(Best(options), counter + |front.steps|));
      }
    } else {
      EmptySlot(t, 0, counter);
    }
  }

  lemma EmptySlot(t: Acquisition, n: nat, counter: nat)
    requires n <= |t.requirements| && (n > 0 ==> t.requirements[n - 1].options == [])
    ensures n == 0 ==> Below(t, 0, counter, [], []) && FlattenSlots(t, 0, counter) == Flattened([], [])
    ensures n > 0 ==>
              var front := FlattenSlots(t, n - 1, counter);
              && FlattenSlots(t, n, counter) == front
              && (Below(t, n - 1, counter, front.steps, front.ids) ==> Below(t, n, counter, front.steps, front.ids))
  {
  }

  lemma BelowStep(t: Acquisition, n: nat, counter: nat, front: Flattened, best: Acquisition, steps: seq<PlanStep>)
    requires 0 < n <= |t.requirements|
    requires best in t.requirements[n - 1].options && BestOf(t.requirements[n - 1].options, best)
    requires Below(t, n - 1, counter, front.steps, front.ids) && steps != []
    requires IsSchedule(best, counter + |front.steps|, steps)
    ensures Below(t, n, counter, front.steps + steps, front.ids + [steps[|steps| - 1].id])
  {
    hide IsSchedule, BestOf;
    var i, all, ids := |front.steps|, front.steps + steps, front.ids + [steps[|steps| - 1].id];
    assert all[..i] == front.steps && all[i..] == steps && ids[..|ids| - 1] == front.ids;
    assert all[|all| - 1] == steps[|steps| - 1];
  }

  /** The plan for a goal: nothing without a target, and otherwise the schedule of the best option for one of the
      target with nothing at hand, no deeper than twenty-four targets. */
  lemma DependencyPlanTold(k: Knowledge, target: Option<Node>)
    ensures var steps := DependencySteps(k, target);
            match target
            case None => steps == Some([])
            case Some(node) =>
              if node !in k.nodes then steps == None
              else
                var options := Expand(k, node, 1.0, {}, {}, 0, 24);
                && steps.Some?
                && exists best :: BestOf(options, best) && IsSchedule(best, 0, steps.value)
  {
    hide Expand, Flatten, IsSchedule, BestOf, Best;
    if target.Some? && target.value in k.nodes {
      var options := Expand(k, target.value, 1.0, {}, {}, 0, 24);
      ExpandOrdered(k, target.value, 1.0, {}, {}, 0, 24);
      BestIsBest(options);
      FlattenIsSchedule(Best(options), 0);
    }
  }
}
