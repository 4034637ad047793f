/** What the futures and the flags of the executor say about the run so far. */
module ExecutorLaws {
  import opened ExecutorModel
  import opened ExecutorFacts

  function Performed(s: State, step: Step): State { if Enabled(s, step) then Next(s, step) else s }

  /** The state when step `k` of a run has its turn. */
  function Before(steps: seq<Step>, k: nat): State
    requires k <= |steps|
  {
    Run(NEW, steps[..k])
  }

  // --- One step ---------------------------------------------------------------------------------------------

  /** A step lets an item start, ends it with the outcome of its callback, or cancels it: at a client's request
      while it is pending, or at a shutdown that cancels, while it is queued. Nothing else happens to any item. */
  lemma StepTold(s: State, step: Step, i: nat)
    requires Inv(s) && Enabled(s, step) && i < |s.futures|
    ensures var t := Next(s, step);
            && i < |t.futures|
            && t.futures[i]
               == (if step == Finish(true) && s.worker == Executing(i) then Settled(true)
                   else if step == Finish(false) && s.worker == Executing(i) then Settled(false)
                   else if step == Begin && s.worker == Holding(i) && s.futures[i].Pending? then Running
                   else if s.futures[i].Pending? && (step == Cancel(i) || (step == Shutdown(true) && i in s.work))
                   then Cancelled else s.futures[i])
  {
    CancelAllEffect(s.futures, s.work);
    assert ItemOk(s, i);
  }

  /** The queue, the flags and the worker: a shutdown empties the queue exactly if it cancels; an item leaves it
      from the front; a cancelled one is not run; and the worker is active from taking an item until it says that
      it is over. */
  lemma StepMovesOn(s: State, step: Step)
    requires Inv(s) && Enabled(s, step)
    ensures var t := Next(s, step);
            && t.closed == (s.closed || step.Shutdown?)
            && |t.futures| == |s.futures| + (if step.Submit? && !s.closed then 1 else 0)
            && (|t.futures| > |s.futures| ==> t.futures[|s.futures|] == Pending)
            && t.work == (if step.Submit? && !s.closed then s.work + [|s.futures|]
                          else if step == Shutdown(true) then []
                          else if step.Take? then s.work[1..] else s.work)
            && t.active == ((s.active || step.Take?) && !step.Clear?)
            && t.worker == (match step
                            case Take => Holding(s.work[0])
                            case Exit => Exited
                            case Begin =>
                              if s.futures[s.worker.item] == Pending then Executing(s.worker.item) else Clearing
                            case Finish(_) => Clearing
                            case Clear => Waiting
                            case _ => s.worker)
            && t.started == (if step.Begin? && s.futures[s.worker.item] == Pending then s.started + [s.worker.item]
                             else s.started)
  {
    CancelAllEffect(s.futures, s.work);
    if step.Begin? {
      assert ItemOk(s, s.worker.item);
    }
  }

  /** When each step can happen. */
  lemma EnabledTold(s: State, step: Step)
    requires Inv(s)
    ensures Enabled(s, step) <==>
              match step
              case Submit | Cancel(_) | Shutdown(_) => true
              case Take => s.worker == Waiting && |s.work| > 0
              case Exit => s.worker == Waiting && |s.work| == 0 && s.closed
              case Begin => exists i: nat :: s.worker == Holding(i)
              case Finish(_) => exists i: nat :: s.worker == Executing(i)
              case Clear => s.worker == Clearing
  {
  }

  // --- Every run --------------------------------------------------------------------------------------------

  lemma {:induction false} RunAppends(s: State, steps: seq<Step>, step: Step)
    ensures Run(s, steps + [step]) == Performed(Run(s, steps), step)
    decreases |steps|
  {
    hide Next, Enabled;
    if steps != [] {
      assert (steps + [step])[1..] == steps[1..] + [step];
      RunAppends(Performed(s, steps[0]), steps[1..], step);
    } else {
      assert [step][1..] == [];
    }
  }

  lemma BeforeNext(steps: seq<Step>, k: nat)
    requires k < |steps|
    ensures Before(steps, k + 1) == Performed(Before(steps, k), steps[k])
  {
    assert steps[..k + 1] == steps[..k] + [steps[k]];
    RunAppends(NEW, steps[..k], steps[k]);
  }

  lemma BeforeKept(steps: seq<Step>, k: nat)
    requires k <= |steps|
    ensures Inv(Before(steps, k))
  {
    hide Run, Next;
    RunKept(NEW, steps[..k]);
  }

  /** Step `k` ends item `i` with this outcome. */
  ghost predicate Ends(steps: seq<Step>, k: nat, i: nat, returned: bool)
    requires k < |steps|
  {
    steps[k] == Finish(returned) && Before(steps, k).worker == Executing(i)
  }

  /** Step `k` cancels item `i`. */
  ghost predicate Cancels(steps: seq<Step>, k: nat, i: nat)
    requires k < |steps|
  {
    var s := Before(steps, k);
    && i < |s.futures| && s.futures[i].Pending?
    && (steps[k] == Cancel(i) || (steps[k] == Shutdown(true) && i in s.work))
  }

  predicate SettledAs(s: State, i: nat, returned: bool) { i < |s.futures| && s.futures[i] == Settled(returned) }

  predicate IsCancelled(s: State, i: nat) { i < |s.futures| && s.futures[i] == Cancelled }

  /** One more step of a run settles or cancels an item exactly if it ends or cancels it. */
  lemma StepTells(steps: seq<Step>, k: nat, i: nat)
    requires k < |steps|
    ensures forall r ::
              SettledAs(Before(steps, k + 1), i, r) <==> SettledAs(Before(steps, k), i, r) || Ends(steps, k, i, r)
    ensures IsCancelled(Before(steps, k + 1), i) <==> IsCancelled(Before(steps, k), i) || Cancels(steps, k, i)
  {
    hide Run, Next, Inv, ItemOk;
    BeforeKept(steps, k);
    BeforeNext(steps, k);
    var s := Before(steps, k);
    EnabledTold(s, steps[k]);
    ExecutesOld(s);
    if Enabled(s, steps[k]) {
      StepMovesOn(s, steps[k]);
    }
    if i < |s.futures| {
      ItemPlaced(s, i);
      if Enabled(s, steps[k]) {
        StepTold(s, steps[k], i);
      }
    }
  }

  /** Over every run, an item's future is settled with an outcome exactly if its callback ended with it, and
      cancelled exactly if it was cancelled while it was pending, by itself or by a shutdown. */
  lemma {:induction false} FuturesTell(steps: seq<Step>, n: nat, i: nat, returned: bool)
    requires n <= |steps|
    ensures var s := Before(steps, n);
            && (SettledAs(s, i, returned) <==> exists k :: 0 <= k < n && Ends(steps, k, i, returned))
            && (IsCancelled(s, i) <==> exists k :: 0 <= k < n && Cancels(steps, k, i))
    decreases n
  {
    hide Before, SettledAs, IsCancelled, Ends, Cancels;
    if n == 0 {
      NothingYet(steps, i);
    } else {
      FuturesTell(steps, n - 1, i, returned);
      StepTells(steps, n - 1, i);
    }
  }

  lemma NothingYet(steps: seq<Step>, i: nat)
    ensures !IsCancelled(Before(steps, 0), i) && forall r :: !SettledAs(Before(steps, 0), i, r)
  {
    assert steps[..0] == [];
  }

  lemma ItemPlaced(s: State, i: nat)
    requires Inv(s) && i < |s.futures|
    ensures s.futures[i].Running? <==> s.worker == Executing(i)
  {
    assert ItemOk(s, i);
  }

  lemma ExecutesOld(s: State)
    requires Inv(s)
    ensures s.worker.Executing? ==> s.worker.item < |s.futures|
  {
  }

  /** How many items are accepted: those submitted before the first shutdown. */
  function Accepted(steps: seq<Step>): nat {
    if steps == [] || steps[0].Shutdown? then 0 else (if steps[0].Submit? then 1 else 0) + Accepted(steps[1..])
  }

  predicate ShutDown(steps: seq<Step>) { exists k :: 0 <= k < |steps| && steps[k].Shutdown? }

  lemma {:induction false} AcceptedBefore(s: State, steps: seq<Step>)
    requires Inv(s)
    ensures var t := Run(s, steps);
            && |t.futures| == |s.futures| + (if s.closed then 0 else Accepted(steps))
            && (t.closed <==> s.closed || ShutDown(steps))
    decreases |steps|
  {
    hide Inv, Next;
    if steps != [] {
      assert steps == [steps[0]] + steps[1..];
      EnabledTold(s, steps[0]);
      if Enabled(s, steps[0]) {
        StepKept(s, steps[0]);
        StepMovesOn(s, steps[0]);
      }
      AcceptedBefore(Performed(s, steps[0]), steps[1..]);
    }
  }
}
