/** The request lifecycle as the object it is. Its lock is re-entrant: a publication callback may call
    the object again while `Accept` is still running. */
module RequestLifecycle {
  import opened Common
  import opened RequestModel
  import Spec = RequestModel

  class ModelRequestLifecycle {
    const binding: Binding
    var attempts: seq<Attempt>
    var computationCompletedNs: Option<int>
    var disposition: Disposition
    var dispositionNs: Option<int>
    var reason: Option<string>
    var selectedAttempt: Option<nat>
    var finalDecision: Option<string>
    var publishing: bool
    var discardNoticeTaken: bool
    ghost var history: seq<Event>

    ghost function View(): Lifecycle
      reads this
    {
      Lifecycle(attempts, computationCompletedNs, disposition, dispositionNs, reason, selectedAttempt,
                finalDecision, publishing, discardNoticeTaken, history)
    }

    constructor (binding: Binding)
      ensures this.binding == binding && View() == FRESH
    {
      this.binding, attempts, computationCompletedNs := binding, [], None;
      disposition, dispositionNs, reason := Pending, None, None;
      selectedAttempt, finalDecision, publishing, discardNoticeTaken, history := None, None, false, false, [];
    }

    method StartAttempt(name: string, reading: Option<int>) returns (answer: Answer)
      modifies this
      ensures Out(View(), answer) == Spec.Start(binding, old(View()), name, reading)
    {
      if !Text(name) || !disposition.Pending? || computationCompletedNs.Some? {
        return Raised;
      }
      var now := Now(binding, reading);
      if now.None? || now.value >= binding.deadline {
        return Raised;
      }
      answer := AttemptId(|attempts|);
      attempts := attempts + [Attempt(now.value, None, None)];
    }

    method FinishAttempt(id: nat, errorType: Option<string>, reading: Option<int>) returns (answer: Answer)
      modifies this
      ensures Out(View(), answer) == Spec.Finish(binding, old(View()), id, errorType, reading)
    {
      if errorType.Some? && !Text(errorType.value) {
        return Raised;
      }
      if |attempts| <= id {
        return Raised;
      }
      var attempt := attempts[id];
      if attempt.finished.Some? {
        return if attempt.errorType != errorType then Raised else Done;
      }
      var now := Now(binding, reading);
      if now.None? || now.value < attempt.started {
        return Raised;
      }
      attempts := attempts[id := attempt.(finished := now, errorType := errorType)];
      return Done;
    }

    method MarkComputationComplete(reading: Option<int>) returns (answer: Answer)
      modifies this
      ensures Out(View(), answer) == Spec.Complete(binding, old(View()), reading)
    {
      if computationCompletedNs.Some? {
        return Done;
      }
      for i := 0 to |attempts|
        invariant unchanged(this)
        invariant forall k :: 0 <= k < i ==> Finished(attempts[k])
      {
        if attempts[i].finished.None? {
          assert attempts[i] in attempts && !Finished(attempts[i]);
          return Raised;
        }
      }
      var now := Now(binding, reading);
      if now.None? {
        return Raised;
      }
      for i := 0 to |attempts|
        invariant unchanged(this)
        invariant forall k :: 0 <= k < i ==> attempts[k].finished.value <= now.value
      {
        if now.value < attempts[i].finished.value {
          assert attempts[i] in attempts;
          return Raised;
        }
      }
      computationCompletedNs := now;
      return Done;
    }

    method Reject(why: string, reading: Option<int>) returns (answer: Answer)
      modifies this
      ensures Out(View(), answer) == Spec.Refuse(binding, old(View()), why, reading)
    {
      if !Text(why) {
        return Raised;
      }
      if !disposition.Pending? || publishing {
        return Verdict(false);
      }
      var now := Now(binding, reading);
      if now.None? {
        return Raised;
      }
      dispositionNs := now;
      disposition, reason := Rejected, Some(why);
      return Verdict(true);
    }

    method TakeDiscardNotice() returns (answer: Answer)
      modifies this
      ensures Out(View(), answer) == Spec.Discard(old(View()))
    {
      if discardNoticeTaken || computationCompletedNs.None? {
        return Notice(None);
      }
      if !disposition.Rejected? && !disposition.PublicationFailed? {
        return Notice(None);
      }
      discardNoticeTaken := true;
      if reason.Some? {
        history := history + [Noticed(reason.value)];
      }
      return Notice(reason);
    }

    method Accept(selected: nat, decision: string, callback: Callback, reading: Option<int>) returns (answer: Answer)
      modifies this
      ensures Out(View(), answer)
              == Spec.Step(binding, old(View()), Op.Accept(selected, decision, callback, reading))
      decreases callback
    {
      hide Sha256;
      if !Sha256(decision) || publishing {
        return Raised;
      }
      if disposition.Accepted? {
        return Verdict(selectedAttempt == Some(selected) && finalDecision == Some(decision));
      }
      if !disposition.Pending? {
        return Verdict(false);
      }
      if computationCompletedNs.None? || |attempts| <= selected {
        return Raised;
      }
      if attempts[selected].finished.None? || attempts[selected].errorType.Some? {
        return Raised;
      }
      ghost var before := attempts;
      selectedAttempt, finalDecision := Some(selected), Some(decision);
      publishing := true;
      RunCallback(callback);
      if callback.raises {
        disposition, reason := PublicationFailed, Some("publication_failed");
        answer := Raised;
      } else {
        disposition := Accepted;
        answer := Verdict(true);
      }
      publishing := false;
      dispositionNs := Now(binding, reading);
      history := history + [Published(before, selected, callback.raises)];
    }

    // The callback is foreign code: it may call anything, and what those calls raise is its own affair.
    method RunCallback(callback: Callback)
      modifies this
      ensures View() == Spec.Steps(binding, old(View()), callback.calls)
      decreases callback, 0
    {
      for i := 0 to |callback.calls|
        invariant Spec.Steps(binding, View(), callback.calls[i..])
                  == Spec.Steps(binding, old(View()), callback.calls)
      {
        assert callback.calls[i..][1..] == callback.calls[i + 1..];
        var _ := Perform(callback.calls[i]);
      }
    }

    method Perform(op: Op) returns (answer: Answer)
      modifies this
      ensures Out(View(), answer) == Spec.Step(binding, old(View()), op)
      decreases op
    {
      match op
      case StartAttempt(name, reading) => answer := StartAttempt(name, reading);
      case FinishAttempt(id, errorType, reading) => answer := FinishAttempt(id, errorType, reading);
      case MarkComplete(reading) => answer := MarkComputationComplete(reading);
      case Reject(why, reading) => answer := Reject(why, reading);
      case TakeDiscardNotice => answer := TakeDiscardNotice();
      case Accept(selected, decision, callback, reading) => answer := Accept(selected, decision, callback, reading);
    }
  }
}
