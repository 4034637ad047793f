/** The single-worker executor as atomic steps of its clients and its worker thread
    (agent/daemon_executor.py). Items are numbered in the order they were accepted. */
module ExecutorModel {
  datatype Status = Pending | Running | Settled(returned: bool) | Cancelled

  // Where the worker thread is. `Clearing`: the item is over but the worker still counts as active.
  datatype Worker = Waiting | Holding(item: nat) | Executing(item: nat) | Clearing | Exited

  datatype State = State(
    work: seq<nat>,
    closed: bool,
    active: bool,
    worker: Worker,
    futures: seq<Status>,
    started: seq<nat>)  // the items whose callback was called, in order

  const NEW := State([], false, false, Waiting, [], [])

  datatype Step =
    | Submit | Cancel(item: nat) | Shutdown(cancelFutures: bool)
    | Take | Begin | Finish(returned: bool) | Clear | Exit

  /** Cancelling works until the item starts; the item itself stays queued. */
  function Cancelling(futures: seq<Status>, item: nat): seq<Status> {
    if item < |futures| && futures[item].Pending? then futures[item := Cancelled] else futures
  }

  function CancelAll(futures: seq<Status>, items: seq<nat>): seq<Status>
    decreases |items|
  {
    if items == [] then futures else CancelAll(Cancelling(futures, items[0]), items[1..])
  }

  predicate Enabled(s: State, step: Step) {
    match step
    case Submit | Cancel(_) | Shutdown(_) => true
    case Take => s.worker.Waiting? && s.work != []
    case Exit => s.worker.Waiting? && s.work == [] && s.closed
    case Begin => s.worker.Holding? && s.worker.item < |s.futures|
    case Finish(_) => s.worker.Executing? && s.worker.item < |s.futures|
    case Clear => s.worker.Clearing?
  }

  function Next(s: State, step: Step): State
    requires Enabled(s, step)
  {
    match step
    case Submit =>
      if s.closed then s else s.(work := s.work + [|s.futures|], futures := s.futures + [Pending])
    case Cancel(item) => s.(futures := Cancelling(s.futures, item))
    case Shutdown(cancelFutures) =>
      if cancelFutures then s.(closed := true, work := [], futures := CancelAll(s.futures, s.work))
      else s.(closed := true)
    case Take => s.(worker := Holding(s.work[0]), work := s.work[1..], active := true)
    case Exit => s.(worker := Exited)
    case Begin =>
      if s.futures[s.worker.item].Cancelled? then s.(worker := Clearing)
      else s.(worker := Executing(s.worker.item), futures := s.futures[s.worker.item := Running],
              started := s.started + [s.worker.item])
    case Finish(returned) => s.(worker := Clearing, futures := s.futures[s.worker.item := Settled(returned)])
    case Clear => s.(worker := Waiting, active := false)
  }

  /** Run an interleaving; steps that are not enabled when their turn comes do not happen. */
  function Run(s: State, steps: seq<Step>): State
    decreases |steps|
  {
    if steps == [] then s
    else Run(if Enabled(s, steps[0]) then Next(s, steps[0]) else s, steps[1..])
  }
}

module ExecutorFacts {
  import opened ExecutorModel

  predicate Increasing(s: seq<nat>) { forall i, j :: 0 <= i < j < |s| ==> s[i] < s[j] }

  predicate Called(f: Status) { f.Running? || f.Settled? }

  /** Every item before this one has left the queue. */
  function Frontier(s: State): int { |s.futures| - |s.work| }

  /** The queue holds exactly the items from the frontier on, in order, and the worker an earlier one. */
  ghost predicate Queued(s: State) {
    && 0 <= Frontier(s) && (forall k :: 0 <= k < |s.work| ==> s.work[k] == Frontier(s) + k)
    && (s.active <==> !s.worker.Waiting? && !s.worker.Exited?)
    && (s.worker.Exited? ==> s.work == [] && s.closed)
    && (s.worker.Holding? || s.worker.Executing? ==> s.worker.item < Frontier(s))
  }

  /** Where an item is and what its future says determine each other. */
  ghost predicate ItemOk(s: State, i: nat)
    requires i < |s.futures|
  {
    && (s.futures[i].Pending? ==> Frontier(s) <= i || s.worker == Holding(i))
    && (s.futures[i].Running? <==> s.worker == Executing(i))
    && (Frontier(s) <= i || s.worker == Holding(i) ==> s.futures[i].Pending? || s.futures[i].Cancelled?)
  }

  ghost predicate Placed(s: State) { forall i: nat :: i < |s.futures| ==> ItemOk(s, i) }

  /** The callbacks called so far are those of the running and the settled items, in order. */
  ghost predicate Logged(s: State) {
    && Increasing(s.started)
    && (forall k :: 0 <= k < |s.started| ==> s.started[k] < |s.futures| && Called(s.futures[s.started[k]]))
    && (forall i: nat :: i < |s.futures| && Called(s.futures[i]) ==> i in s.started)
    && (s.worker.Holding? ==> forall k :: 0 <= k < |s.started| ==> s.started[k] < s.worker.item)
  }

  ghost predicate Inv(s: State) { Queued(s) && Placed(s) && Logged(s) }

  lemma {:induction false} CancelAllEffect(futures: seq<Status>, items: seq<nat>)
    ensures var after := CancelAll(futures, items);
            && |after| == |futures|
            && forall i :: 0 <= i < |futures| ==>
                 after[i] == if i in items && futures[i].Pending? then Cancelled else futures[i]
    decreases |items|
  {
    if items != [] {
      CancelAllEffect(Cancelling(futures, items[0]), items[1..]);
    }
  }

  lemma QueuedKept(s: State, step: Step)
    requires Queued(s) && Enabled(s, step)
    ensures Queued(Next(s, step))
  {
    if step.Shutdown? {
      CancelAllEffect(s.futures, s.work);
    }
  }

  lemma PlacedKept(s: State, step: Step)
    requires Queued(s) && Placed(s) && Enabled(s, step)
    ensures Placed(Next(s, step))
  {
    var t := Next(s, step);
    if step.Shutdown? {
      CancelAllEffect(s.futures, s.work);
    }
    forall i: nat | i < |t.futures|
      ensures ItemOk(t, i)
    {
      if i < |s.futures| {
        assert ItemOk(s, i);
        if Frontier(s) <= i {
          assert s.work[i - Frontier(s)] == i;
        }
      }
    }
  }

  /** Items are taken in order, so the one in hand comes after all that were called. */
  lemma TakenComesLast(s: State)
    requires Queued(s) && Placed(s) && Logged(s) && Enabled(s, Take)
    ensures Logged(Next(s, Take))
  {
    forall k | 0 <= k < |s.started|
      ensures s.started[k] < s.work[0]
    {
      assert ItemOk(s, s.started[k]);
    }
  }

  /** A log survives any change of futures that neither starts nor forgets a call. */
  lemma SameCallsLogged(s: State, t: State)
    requires Logged(s) && t.started == s.started && |s.futures| <= |t.futures|
    requires forall i: nat :: i < |t.futures| ==> (Called(t.futures[i]) <==> i < |s.futures| && Called(s.futures[i]))
    requires t.worker.Holding? ==> t.worker == s.worker
    ensures Logged(t)
  {
  }

  lemma CalledNextLogged(s: State)
    requires Placed(s) && Logged(s) && Enabled(s, Begin) && !s.futures[s.worker.item].Cancelled?
    ensures Logged(Next(s, Begin))
  {
    var t := Next(s, Begin);
    forall i: nat | i < |t.futures| && Called(t.futures[i])
      ensures i in t.started
    {
      if i == s.worker.item {
        assert t.started[|s.started|] == i;
      }
    }
  }

  lemma LoggedKept(s: State, step: Step)
    requires Queued(s) && Placed(s) && Logged(s) && Enabled(s, step)
    ensures Logged(Next(s, step))
  {
    if step.Take? {
      TakenComesLast(s);
    } else if step.Begin? && !s.futures[s.worker.item].Cancelled? {
      CalledNextLogged(s);
    } else {
      hide Logged;
      if step.Shutdown? {
        CancelAllEffect(s.futures, s.work);
      } else if step.Finish? {
        assert ItemOk(s, s.worker.item);
      }
      SameCallsLogged(s, Next(s, step));
    }
  }

  lemma StepKept(s: State, step: Step)
    requires Inv(s) && Enabled(s, step)
    ensures Inv(Next(s, step))
  {
    hide Next, Queued, Placed, Logged;
    QueuedKept(s, step);
    PlacedKept(s, step);
    LoggedKept(s, step);
  }

  /** What one step may do to an item, wherever it is. */
  predicate Moves(before: Status, after: Status) {
    || after == before
    || (before.Pending? && (after.Running? || after.Cancelled?))
    || (before.Running? && after.Settled?)
  }

  lemma StepMoves(s: State, step: Step)
    requires Inv(s) && Enabled(s, step)
    ensures var t := Next(s, step);
            && |s.futures| <= |t.futures| && (s.closed ==> |t.futures| == |s.futures| && t.closed)
            && (forall i :: 0 <= i < |s.futures| ==> Moves(s.futures[i], t.futures[i]))
            && s.started <= t.started
  {
    if step.Shutdown? {
      CancelAllEffect(s.futures, s.work);
    } else if step.Begin? {
      assert ItemOk(s, s.worker.item);
    } else if step.Finish? {
      assert ItemOk(s, s.worker.item);
    }
  }

  lemma {:induction false} RunKept(s: State, steps: seq<Step>)
    requires Inv(s)
    ensures Inv(Run(s, steps)) && s.started <= Run(s, steps).started
    ensures s.closed ==> |Run(s, steps).futures| == |s.futures|
    decreases |steps|
  {
    hide Inv, Next;
    if steps != [] {
      var t := if Enabled(s, steps[0]) then Next(s, steps[0]) else s;
      if Enabled(s, steps[0]) {
        StepMoves(s, steps[0]);
        StepKept(s, steps[0]);
      }
      RunKept(t, steps[1..]);
    }
  }

  /** Every interleaving: items start at most once and in the order they were accepted; an accepted
      item is still queued or in the worker's hands, or running, or over; only the running item runs. */
  lemma ItemsRunOnceInOrder(steps: seq<Step>)
    ensures var s := Run(NEW, steps);
            && Increasing(s.started) && Increasing(s.work)
            && (forall i: nat :: i < |s.futures| ==>
                  && (s.futures[i].Pending? ==> i in s.work || s.worker == Holding(i))
                  && (s.futures[i].Running? <==> s.worker == Executing(i))
                  && (Called(s.futures[i]) <==> i in s.started))
  {
    hide Run;
    RunKept(NEW, steps);
    var s := Run(NEW, steps);
    forall i: nat | i < |s.futures|
      ensures ItemOk(s, i) && (Frontier(s) <= i ==> i in s.work)
    {
      if Frontier(s) <= i {
        assert s.work[i - Frontier(s)] == i;
      }
    }
  }

  /** Nothing is accepted once shutdown was called. */
  lemma NothingAfterShutdown(s: State, cancelFutures: bool, steps: seq<Step>)
    requires Inv(s)
    ensures |Run(Next(s, Shutdown(cancelFutures)), steps).futures| == |s.futures|
  {
    hide Run, Inv;
    StepKept(s, Shutdown(cancelFutures));
    StepMoves(s, Shutdown(cancelFutures));
    RunKept(Next(s, Shutdown(cancelFutures)), steps);
    if cancelFutures {
      CancelAllEffect(s.futures, s.work);
    }
  }

  // --- Being idle -------------------------------------------------------------------------------

  predicate Idle(s: State) { !s.active && s.work == [] }

  /** No accepted item is waiting to run or running. */
  predicate NothingToRun(s: State) { forall f :: f in s.futures ==> !f.Pending? && !f.Running? }

  /** Idle is exactly: nothing to run, no cancelled item left in the queue, and the worker is not still
      between taking its last item and saying that it is over. */
  lemma IdleExactly(s: State)
    requires Inv(s)
    ensures Idle(s) <==>
            && NothingToRun(s)
            && s.work == []
            && !s.worker.Clearing?
            && (s.worker.Holding? ==> !s.futures[s.worker.item].Cancelled?)
  {
    if Idle(s) {
      forall f | f in s.futures
        ensures !f.Pending? && !f.Running?
      {
        var i :| 0 <= i < |s.futures| && s.futures[i] == f;
        assert ItemOk(s, i);
      }
    } else if s.worker.Holding? || s.worker.Executing? {
      assert ItemOk(s, s.worker.item);
      assert s.futures[s.worker.item] in s.futures;
    }
  }

  /** A cancelled item keeps the executor from being idle although nothing is left to run. */
  lemma CancelledIsNotIdle()
    ensures var s := Run(NEW, [Submit, Cancel(0)]);
            Inv(s) && NothingToRun(s) && !Idle(s)
  {
    RunKept(NEW, [Submit, Cancel(0)]);
    hide Inv;
    var submitted := State([0], false, false, Waiting, [Pending], []);
    assert Run(NEW, [Submit, Cancel(0)]) == Run(submitted, [Cancel(0)]) by {
      assert [Submit, Cancel(0)][1..] == [Cancel(0)];
    }
    assert [Cancel(0)][1..] == [];
    assert Run(submitted, [Cancel(0)]) == submitted.(futures := [Cancelled]);
  }

  // --- Running dry --------------------------------------------------------------------------------

  /** The one thing the worker can do next. */
  function WorkerStep(s: State, returned: bool): Step {
    match s.worker
    case Waiting => if s.work == [] then Exit else Take
    case Holding(_) => Begin
    case Executing(_) => Finish(returned)
    case Clearing => Clear
    case Exited => Exit
  }

  function Remaining(s: State): nat {
    4 * |s.work| + match s.worker
                   case Exited => 0
                   case Waiting => 1
                   case Clearing => 2
                   case Executing(_) => 3
                   case Holding(_) => 4
  }

  /** After shutdown the worker can always go on until it exits, and gets closer to it with each step. */
  lemma WorkerProgress(s: State, returned: bool)
    requires Inv(s) && s.closed && !s.worker.Exited?
    ensures Enabled(s, WorkerStep(s, returned))
    ensures Remaining(Next(s, WorkerStep(s, returned))) < Remaining(s)
  {
  }

  /** Let the worker run alone; `returned` says how each item ends. */
  ghost function Drained(s: State, returned: nat -> bool): (t: State)
    requires Inv(s) && s.closed
    ensures Inv(t) && t.worker.Exited? && |t.futures| == |s.futures|
    decreases Remaining(s)
  {
    if s.worker.Exited? then s
    else
      var step := WorkerStep(s, returned(|s.started|));
      WorkerProgress(s, returned(|s.started|));
      StepKept(s, step);
      StepMoves(s, step);
      Drained(Next(s, step), returned)
  }

  /** A closed executor runs dry: left alone, its worker settles every accepted item that was not
      cancelled, and exits. */
  lemma ClosedRunsDry(s: State, returned: nat -> bool)
    requires Inv(s) && s.closed
    ensures var t := Drained(s, returned);
            Idle(t) && forall i :: 0 <= i < |t.futures| ==> t.futures[i].Settled? || t.futures[i].Cancelled?
  {
    hide Drained;
    var t := Drained(s, returned);
    forall i | 0 <= i < |t.futures|
      ensures t.futures[i].Settled? || t.futures[i].Cancelled?
    {
      assert ItemOk(t, i);
    }
  }
}

/** The executor as the object it is: a deque, two flags and a worker, each critical section a method. */
module DaemonExecutor {
  import opened ExecutorModel
  import Spec = ExecutorModel

  class SingleWorkerDaemonExecutor {
    var work: seq<nat>
    var shutdown: bool
    var active: bool
    var worker: Worker
    var futures: seq<Status>
    ghost var started: seq<nat>

    ghost function View(): State
      reads this
    {
      State(work, shutdown, active, worker, futures, started)
    }

    constructor ()
      ensures View() == NEW
    {
      work, shutdown, active, worker, futures, started := [], false, false, Waiting, [], [];
    }

    method Submit() returns (accepted: bool, item: nat)
      modifies this
      ensures View() == Next(old(View()), Step.Submit)
      ensures accepted == !old(shutdown) && (accepted ==> item == |old(futures)|)
    {
      item := |futures|;
      if shutdown {
        return false, item;
      }
      futures := futures + [Pending];
      work := work + [item];
      accepted := true;
    }

    method Cancel(item: nat) returns (cancelled: bool)
      requires item < |futures|
      modifies this
      ensures View() == Next(old(View()), Step.Cancel(item))
      ensures cancelled <==> futures[item].Cancelled?
    {
      if futures[item].Pending? {
        futures := futures[item := Cancelled];
      }
      return futures[item].Cancelled?;
    }

    method Shutdown(cancelFutures: bool)
      modifies this
      ensures View() == Next(old(View()), Step.Shutdown(cancelFutures))
    {
      shutdown := true;
      if cancelFutures {
        while work != []
          invariant CancelAll(futures, work) == CancelAll(old(futures), old(work))
          invariant View() == old(View()).(closed := true, work := work, futures := futures)
          decreases |work|
        {
          var item := work[0];
          work := work[1..];
          if item < |futures| && futures[item].Pending? {
            futures := futures[item := Cancelled];
          }
        }
      }
    }

    method IsIdle() returns (idle: bool)
      ensures idle <==> !active && work == []
    {
      return !active && work == [];
    }

    // The worker's first critical section: wait, and take an item or leave. `false`: keep waiting.
    method TakeOrExit() returns (proceeds: bool)
      requires worker.Waiting?
      modifies this
      ensures proceeds <==> old(work) != [] || old(shutdown)
      ensures View() == if !proceeds then old(View())
                        else Next(old(View()), if old(work) == [] then Step.Exit else Step.Take)
    {
      if work == [] {
        if shutdown {
          worker := Exited;
        }
        return shutdown;
      }
      var item := work[0];
      work := work[1..];
      active := true;
      worker := Holding(item);
      return true;
    }

    // A cancelled item is not run.
    method SetRunningOrNotifyCancel() returns (runs: bool)
      requires Enabled(View(), Step.Begin)
      modifies this
      ensures View() == Next(old(View()), Step.Begin) && (runs <==> worker.Executing?)
    {
      var item := worker.item;
      if futures[item].Cancelled? {
        worker := Clearing;
        return false;
      }
      futures := futures[item := Running];
      started := started + [item];
      worker := Executing(item);
      return true;
    }

    method Settle(returned: bool)
      requires Enabled(View(), Step.Finish(returned))
      modifies this
      ensures View() == Next(old(View()), Step.Finish(returned))
    {
      futures := futures[worker.item := Settled(returned)];
      worker := Clearing;
    }

    method MarkInactive()
      requires Enabled(View(), Step.Clear)
      modifies this
      ensures View() == Next(old(View()), Step.Clear)
    {
      active := false;
      worker := Waiting;
    }
  }
}
