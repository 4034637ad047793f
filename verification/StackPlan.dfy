/** The service plan and its start order (stack_lifecycle.py, StackPlan.ordered_services). */
module StackPlan {
  import opened Common

  type Id = string

  datatype Mode = Daemon | Oneshot | External

  datatype Service = Service(
    id: Id,
    mode: Mode,
    dependencies: set<Id>,
    hasStop: bool,  // an inverse command is declared
    reuseIfHealthy: bool)

  function Ids(services: seq<Service>): set<Id> { set s | s in services :: s.id }

  predicate UniqueIds(services: seq<Service>) {
    forall i, j :: 0 <= i < j < |services| ==> services[i].id != services[j].id
  }

  // --- What a start order is --------------------------------------------------------------------

  /** Every service exactly once, each after everything it depends on. */
  ghost predicate StartOrder(services: seq<Service>, order: seq<Service>) {
    && multiset(order) == multiset(services)
    && DependenciesFirst(order)
  }

  predicate DependenciesFirst(order: seq<Service>) {
    forall i :: 0 <= i < |order| ==> order[i].dependencies <= Ids(order[..i])
  }

  // --- The order the plan computes ----------------------------------------------------------------

  /** The services not started yet whose dependencies all are, in plan order. */
  function Ready(services: seq<Service>, started: set<Id>): (ready: seq<Service>)
    ensures forall s :: s in ready <==> s in services && s.id !in started && s.dependencies <= started
    ensures UniqueIds(services) ==> UniqueIds(ready)
  {
    if services == [] then []
    else
      var rest := Ready(services[1..], started);
      if services[0].id !in started && services[0].dependencies <= started then [services[0]] + rest else rest
  }

  function Order(services: seq<Service>, emitted: seq<Service>): Option<seq<Service>>
    decreases Ids(services) - Ids(emitted)
  {
    if Ids(services) <= Ids(emitted) then Some(emitted)
    else
      var ready := Ready(services, Ids(emitted));
      if ready == [] then None
      else
        assert ready[0] in services && ready[0].id in Ids(services) - Ids(emitted);
        assert ready[0] in emitted + ready && ready[0].id in Ids(emitted + ready);
        Order(services, emitted + ready)
  }

  function Ordered(services: seq<Service>): Option<seq<Service>> { Order(services, []) }

  lemma IdsAppend(a: seq<Service>, b: seq<Service>)
    ensures Ids(a + b) == Ids(a) + Ids(b)
  {
    forall id | id in Ids(a) + Ids(b)
      ensures id in Ids(a + b)
    {
      var s :| s in a + b && s.id == id;
    }
  }

  /** The loop of the source: rounds of ready services, until none remain or none are ready. */
  method OrderedServices(services: seq<Service>) returns (order: Option<seq<Service>>)
    requires UniqueIds(services)
    ensures order == Ordered(services)
  {
    var remaining, emitted, emittedIds := Ids(services), [], {};
    while remaining != {}
      invariant remaining == Ids(services) - emittedIds && emittedIds == Ids(emitted)
      invariant Order(services, emitted) == Ordered(services)
      decreases remaining
    {
      var ready := Ready(services, emittedIds);
      if ready == [] {
        return None;
      }
      ghost var before := emitted;
      assert ready[0] in services && ready[0].id in remaining;
      emitted, emittedIds, remaining := EmitRound(ready, emitted, emittedIds, remaining);
      IdsAppend(before, ready);
      assert ready[0].id in Ids(ready);
    }
    return Some(emitted);
  }

  method EmitRound(ready: seq<Service>, emitted: seq<Service>, emittedIds: set<Id>, remaining: set<Id>)
    returns (longer: seq<Service>, longerIds: set<Id>, fewer: set<Id>)
    ensures longer == emitted + ready && longerIds == emittedIds + Ids(ready) && fewer == remaining - Ids(ready)
  {
    hide Ids;
    longer, longerIds, fewer := emitted, emittedIds, remaining;
    NoIds();
    assert ready[..0] == [];
    for i := 0 to |ready|
      invariant longer == emitted + ready[..i]
      invariant longerIds == emittedIds + Ids(ready[..i]) && fewer == remaining - Ids(ready[..i])
    {
      assert ready[..i + 1] == ready[..i] + [ready[i]];
      IdsAppend(ready[..i], [ready[i]]);
      OneId(ready[i]);
      longer := longer + [ready[i]];
      longerIds := longerIds + {ready[i].id};
      fewer := fewer - {ready[i].id};
    }
    assert ready[..|ready|] == ready;
  }

  lemma NoIds()
    ensures Ids([]) == {}
  {
  }

  lemma OneId(s: Service)
    ensures Ids([s]) == {s.id}
  {
    assert s in [s];
  }

  // --- It is a start order whenever there is one ----------------------------------------------------

  /** A round-by-round prefix of a start order. */
  ghost predicate Prefix(services: seq<Service>, emitted: seq<Service>) {
    UniqueIds(emitted) && DependenciesFirst(emitted) && forall s :: s in emitted ==> s in services
  }

  lemma RoundKeepsPrefix(services: seq<Service>, emitted: seq<Service>)
    requires UniqueIds(services) && Prefix(services, emitted)
    ensures Prefix(services, emitted + Ready(services, Ids(emitted)))
  {
    var ready := Ready(services, Ids(emitted));
    RoundDependenciesFirst(emitted, ready);
    forall i, j | 0 <= i < j < |emitted + ready|
      ensures (emitted + ready)[i].id != (emitted + ready)[j].id
    {
      if i < |emitted| <= j {
        assert ready[j - |emitted|] in ready && emitted[i] in emitted;
      }
    }
  }

  lemma RoundDependenciesFirst(emitted: seq<Service>, ready: seq<Service>)
    requires DependenciesFirst(emitted) && forall s :: s in ready ==> s.dependencies <= Ids(emitted)
    ensures DependenciesFirst(emitted + ready)
  {
    hide Ids;
    var longer := emitted + ready;
    forall i | 0 <= i < |longer|
      ensures longer[i].dependencies <= Ids(longer[..i])
    {
      if i < |emitted| {
        assert longer[..i] == emitted[..i];
      } else {
        assert longer[..i] == emitted + ready[..i - |emitted|];
        IdsAppend(emitted, ready[..i - |emitted|]);
        assert longer[i] in ready;
      }
    }
  }

  /** All ids covered by a prefix: it is the plan, reordered. */
  lemma CoveringPrefixIsPermutation(services: seq<Service>, emitted: seq<Service>)
    requires UniqueIds(services) && Prefix(services, emitted) && Ids(services) <= Ids(emitted)
    ensures multiset(emitted) == multiset(services)
  {
    forall s
      ensures multiset(emitted)[s] == multiset(services)[s]
    {
      UniqueMultiplicity(services, s);
      UniqueMultiplicity(emitted, s);
      if s in services {
        assert s.id in Ids(emitted);
        var e :| e in emitted && e.id == s.id;
        assert e == s;
      }
    }
  }

  lemma {:induction false} UniqueMultiplicity(services: seq<Service>, s: Service)
    requires UniqueIds(services)
    ensures multiset(services)[s] == if s in services then 1 else 0
  {
    if services != [] {
      assert services == [services[0]] + services[1..];
      UniqueMultiplicity(services[1..], s);
    }
  }

  /** While services remain, a start order's first remaining service is ready. */
  lemma SomeServiceIsReady(services: seq<Service>, emitted: seq<Service>, order: seq<Service>)
    requires StartOrder(services, order) && !(Ids(services) <= Ids(emitted))
    ensures Ready(services, Ids(emitted)) != []
  {
    assert forall s :: s in order <==> s in multiset(order);
    assert forall s :: s in services <==> s in multiset(services);
    var missing :| missing in services && missing.id !in Ids(emitted);
    var k := FirstOutside(order, Ids(emitted), missing);
    forall d | d in order[k].dependencies
      ensures d in Ids(emitted)
    {
      var s :| s in order[..k] && s.id == d;
    }
    assert order[k] in Ready(services, Ids(emitted));
  }

  lemma {:induction false} FirstOutside(order: seq<Service>, done: set<Id>, missing: Service) returns (k: nat)
    requires missing in order && missing.id !in done
    ensures k < |order| && order[k].id !in done && forall s :: s in order[..k] ==> s.id in done
  {
    if order[0].id !in done {
      k := 0;
    } else {
      k := FirstOutside(order[1..], done, missing);
      assert order[..k + 1] == [order[0]] + order[1..][..k];
      k := k + 1;
    }
  }

  lemma {:induction false} OrderIsStartOrder(services: seq<Service>, emitted: seq<Service>)
    requires UniqueIds(services) && Prefix(services, emitted)
    ensures var order := Order(services, emitted);
            if order.Some? then StartOrder(services, order.value)
            else forall o :: !StartOrder(services, o)
    decreases Ids(services) - Ids(emitted)
  {
    if Ids(services) <= Ids(emitted) {
      CoveringPrefixIsPermutation(services, emitted);
    } else {
      var ready := Ready(services, Ids(emitted));
      forall o | StartOrder(services, o)
        ensures ready != []
      {
        SomeServiceIsReady(services, emitted, o);
      }
      if ready != [] {
        RoundKeepsPrefix(services, emitted);
        assert ready[0] in services && ready[0].id in Ids(services) - Ids(emitted);
        assert ready[0] in emitted + ready && ready[0].id in Ids(emitted + ready);
        OrderIsStartOrder(services, emitted + ready);
      }
    }
  }

  /** The plan's order starts every service once and after its dependencies, and the plan is refused
      exactly when no order at all could do that. */
  lemma OrderedIsSoundAndComplete(services: seq<Service>)
    requires UniqueIds(services)
    ensures Ordered(services).Some? ==> StartOrder(services, Ordered(services).value)
    ensures Ordered(services).None? <==> forall o :: !StartOrder(services, o)
  {
    OrderIsStartOrder(services, []);
  }
}
