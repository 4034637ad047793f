/** Value-level specification of one model request (model_requests.py, ModelRequestLifecycle). */
module RequestModel {
  import opened Common

  datatype Binding = Binding(submitted: nat, deadline: nat)

  // Attempts are named by their position: the source numbers them in order.
  datatype Attempt = Attempt(started: int, finished: Option<int>, errorType: Option<string>)

  datatype Disposition = Pending | Accepted | Rejected | PublicationFailed

  // What happened to the outside: a publication callback ran over these attempts, or a discard was noted.
  datatype Event = Published(attempts: seq<Attempt>, selected: nat, raised: bool) | Noticed(reason: string)

  datatype Lifecycle = Lifecycle(
    attempts: seq<Attempt>,
    completed: Option<int>,
    disposition: Disposition,
    dispositionNs: Option<int>,
    reason: Option<string>,
    selected: Option<nat>,
    decision: Option<string>,
    publishing: bool,
    noticeTaken: bool,
    history: seq<Event>)

  const FRESH := Lifecycle([], None, Pending, None, None, None, None, false, false, [])

  // A call, with the clock reading it would get; None if the clock raises. A publication callback may
  // call the lifecycle again before it returns or raises.
  datatype Op =
    | StartAttempt(name: string, reading: Option<int>)
    | FinishAttempt(id: nat, errorType: Option<string>, reading: Option<int>)
    | MarkComplete(reading: Option<int>)
    | Reject(reason: string, reading: Option<int>)
    | Accept(selected: nat, decision: string, callback: Callback, reading: Option<int>)
    | TakeDiscardNotice

  datatype Callback = Callback(calls: seq<Op>, raises: bool)

  datatype Answer = Raised | Done | AttemptId(id: nat) | Verdict(holds: bool) | Notice(reason: Option<string>)

  datatype Out = Out(state: Lifecycle, answer: Answer)

  /** White space, as the source's text type strips it. */
  predicate Blank(c: char) {
    var n := c as int;
    9 <= n <= 13 || 28 <= n <= 32 || n == 0x85 || n == 0xa0 || n == 0x1680 || 0x2000 <= n <= 0x200a
    || 0x2028 <= n <= 0x2029 || n == 0x202f || n == 0x205f || n == 0x3000
  }

  predicate Text(s: string) { |s| <= 256 && exists i :: 0 <= i < |s| && !Blank(s[i]) }

  predicate Sha256(s: string) {
    |s| == 64 && forall i :: 0 <= i < |s| ==> '0' <= s[i] <= '9' || 'a' <= s[i] <= 'f'
  }

  /** The clock is checked: it must not precede the submission. */
  function Now(b: Binding, reading: Option<int>): Option<int> {
    if reading.Some? && b.submitted <= reading.value then reading else None
  }

  predicate Finished(a: Attempt) { a.finished.Some? }

  function Start(b: Binding, s: Lifecycle, name: string, reading: Option<int>): Out {
    if !Text(name) || !s.disposition.Pending? || s.completed.Some? then Out(s, Raised)
    else
      var now := Now(b, reading);
      if now.None? || now.value >= b.deadline then Out(s, Raised)
      else Out(s.(attempts := s.attempts + [Attempt(now.value, None, None)]), AttemptId(|s.attempts|))
  }

  function Finish(b: Binding, s: Lifecycle, id: nat, errorType: Option<string>, reading: Option<int>): Out {
    if (errorType.Some? && !Text(errorType.value)) || |s.attempts| <= id then Out(s, Raised)
    else
      var attempt := s.attempts[id];
      if Finished(attempt) then Out(s, if attempt.errorType == errorType then Done else Raised)
      else
        var now := Now(b, reading);
        if now.None? || now.value < attempt.started then Out(s, Raised)
        else Out(s.(attempts := s.attempts[id := Attempt(attempt.started, now, errorType)]), Done)
  }

  function Complete(b: Binding, s: Lifecycle, reading: Option<int>): Out {
    if s.completed.Some? then Out(s, Done)
    else if exists a :: a in s.attempts && !Finished(a) then Out(s, Raised)
    else
      var now := Now(b, reading);
      if now.None? || exists a :: a in s.attempts && now.value < a.finished.value then Out(s, Raised)
      else Out(s.(completed := now), Done)
  }

  function Refuse(b: Binding, s: Lifecycle, reason: string, reading: Option<int>): Out {
    if !Text(reason) then Out(s, Raised)
    else if !s.disposition.Pending? || s.publishing then Out(s, Verdict(false))
    else
      var now := Now(b, reading);
      if now.None? then Out(s, Raised)
      else Out(s.(dispositionNs := now, disposition := Rejected, reason := Some(reason)), Verdict(true))
  }

  function Discard(s: Lifecycle): Out {
    if s.noticeTaken || s.completed.None? || !(s.disposition.Rejected? || s.disposition.PublicationFailed?)
    then Out(s, Notice(None))
    else
      var noted := s.(noticeTaken := true);
      Out(if s.reason.Some? then noted.(history := s.history + [Noticed(s.reason.value)]) else noted, Notice(s.reason))
  }

  /** Why an acceptance ends without publishing anything, if it does. */
  function Unpublished(s: Lifecycle, selected: nat, decision: string): Option<Answer> {
    if !Sha256(decision) || s.publishing then Some(Raised)
    else if s.disposition.Accepted? then Some(Verdict(s.selected == Some(selected) && s.decision == Some(decision)))
    else if !s.disposition.Pending? then Some(Verdict(false))
    else if s.completed.None? || |s.attempts| <= selected then Some(Raised)
    else if !Finished(s.attempts[selected]) || s.attempts[selected].errorType.Some? then Some(Raised)
    else None
  }

  function Opened(s: Lifecycle, selected: nat, decision: string): Lifecycle {
    s.(selected := Some(selected), decision := Some(decision), publishing := true)
  }

  /** The callback has ended. It was run over the attempts `before` saw. */
  function Closed(b: Binding, before: Lifecycle, s: Lifecycle, selected: nat, raises: bool, reading: Option<int>): Out {
    var done := s.(publishing := false, dispositionNs := Now(b, reading),
                   history := s.history + [Published(before.attempts, selected, raises)]);
    if raises then Out(done.(disposition := PublicationFailed, reason := Some("publication_failed")), Raised)
    else Out(done.(disposition := Accepted), Verdict(true))
  }

  function Step(b: Binding, s: Lifecycle, op: Op): Out
    decreases op
  {
    match op
    case StartAttempt(name, reading) => Start(b, s, name, reading)
    case FinishAttempt(id, errorType, reading) => Finish(b, s, id, errorType, reading)
    case MarkComplete(reading) => Complete(b, s, reading)
    case Reject(reason, reading) => Refuse(b, s, reason, reading)
    case TakeDiscardNotice => Discard(s)
    case Accept(selected, decision, callback, reading) =>
      var refusal := Unpublished(s, selected, decision);
      if refusal.Some? then Out(s, refusal.value)
      else
        var called := Steps(b, Opened(s, selected, decision), callback.calls);
        Closed(b, s, called, selected, callback.raises, reading)
  }

  function Steps(b: Binding, s: Lifecycle, ops: seq<Op>): Lifecycle
    decreases ops
  {
    if ops == [] then s else Steps(b, Step(b, s, ops[0]).state, ops[1..])
  }
}

/** At most one publication, in every sequence of calls, however publication callbacks call back. */
module RequestFacts {
  import opened Common
  import opened RequestModel

  predicate AllFinished(attempts: seq<Attempt>) { forall a :: a in attempts ==> Finished(a) }

  predicate Successful(attempts: seq<Attempt>, selected: nat) {
    selected < |attempts| && Finished(attempts[selected]) && attempts[selected].errorType.None?
  }

  function Publications(history: seq<Event>): nat {
    if history == [] then 0
    else Publications(history[..|history| - 1]) + if history[|history| - 1].Published? then 1 else 0
  }

  function Notices(history: seq<Event>): nat {
    if history == [] then 0
    else Notices(history[..|history| - 1]) + if history[|history| - 1].Noticed? then 1 else 0
  }

  /** The request was published, and the callback ended in the given way. */
  predicate Ran(history: seq<Event>, raised: bool) {
    exists i :: 0 <= i < |history| && history[i].Published? && history[i].raised == raised
  }

  predicate Earned(e: Event) { e.Published? ==> AllFinished(e.attempts) && Successful(e.attempts, e.selected) }

  ghost predicate Inv(s: Lifecycle) {
    && (s.completed.Some? ==> AllFinished(s.attempts))
    && (s.publishing ==> s.disposition.Pending? && s.completed.Some?)
    && (s.reason.Some? <==> s.disposition.Rejected? || s.disposition.PublicationFailed?)
    && (forall e :: e in s.history ==> Earned(e))
    && Publications(s.history) == (if s.disposition.Accepted? || s.disposition.PublicationFailed? then 1 else 0)
    && (s.disposition.Accepted? <==> Ran(s.history, false))
    && (s.disposition.PublicationFailed? <==> Ran(s.history, true))
    && Notices(s.history) == (if s.noticeTaken then 1 else 0)
    && (s.noticeTaken ==> (s.disposition.Rejected? || s.disposition.PublicationFailed?) && s.completed.Some?)
  }

  lemma HistoryAppends(history: seq<Event>, e: Event)
    ensures Publications(history + [e]) == Publications(history) + if e.Published? then 1 else 0
    ensures Notices(history + [e]) == Notices(history) + if e.Noticed? then 1 else 0
    ensures forall r :: Ran(history + [e], r) <==> Ran(history, r) || (e.Published? && e.raised == r)
  {
    assert (history + [e])[..|history|] == history;
    forall r
      ensures Ran(history + [e], r) <==> Ran(history, r) || (e.Published? && e.raised == r)
    {
      if Ran(history, r) {
        var i :| 0 <= i < |history| && history[i].Published? && history[i].raised == r;
        assert (history + [e])[i] == history[i];
      }
      if e.Published? && e.raised == r {
        assert (history + [e])[|history|] == e;
      }
    }
  }

  /** While a publication is running, nothing its callback calls has any effect. */
  lemma {:induction false} PublishingIsInert(b: Binding, s: Lifecycle, op: Op)
    requires Inv(s) && s.publishing
    ensures Step(b, s, op).state == s
  {
    hide Publications, Notices, Ran, Text, Sha256;
    if op.FinishAttempt? && op.id < |s.attempts| {
      assert s.attempts[op.id] in s.attempts;
    }
  }

  lemma {:induction false} CallbackIsInert(b: Binding, s: Lifecycle, ops: seq<Op>)
    requires Inv(s) && s.publishing
    ensures Steps(b, s, ops) == s
  {
    hide Inv, Step;
    if ops != [] {
      PublishingIsInert(b, s, ops[0]);
      CallbackIsInert(b, s, ops[1..]);
    }
  }

  /** What a call may do to a request that already has its outcome: note its discard, once, and
      account for attempts still running. */
  ghost predicate SameOutcome(s: Lifecycle, s': Lifecycle) {
    && s'.disposition == s.disposition && s'.dispositionNs == s.dispositionNs && s'.reason == s.reason
    && s'.selected == s.selected && s'.decision == s.decision && |s'.attempts| == |s.attempts|
    && Publications(s'.history) == Publications(s.history)
  }

  lemma AcceptKept(b: Binding, s: Lifecycle, op: Op)
    requires Inv(s) && !s.publishing && op.Accept?
    ensures Inv(Step(b, s, op).state) && !Step(b, s, op).state.publishing
    ensures !s.disposition.Pending? ==> Step(b, s, op).state == s
    ensures Step(b, s, op).answer == Verdict(true) ==>
              var t := Step(b, s, op).state;
              t.disposition.Accepted? && t.selected == Some(op.selected) && t.decision == Some(op.decision)
  {
    hide Publications, Notices, Ran, Sha256;
    if Unpublished(s, op.selected, op.decision).None? {
      CallbackIsInert(b, Opened(s, op.selected, op.decision), op.callback.calls);
      HistoryAppends(s.history, Published(s.attempts, op.selected, op.callback.raises));
    }
  }

  lemma StepKept(b: Binding, s: Lifecycle, op: Op)
    requires Inv(s) && !s.publishing
    ensures Inv(Step(b, s, op).state) && !Step(b, s, op).state.publishing
    ensures !s.disposition.Pending? ==> SameOutcome(s, Step(b, s, op).state)
  {
    hide Publications, Notices, Ran, Text, Sha256;
    match op
    case Accept(_, _, _, _) => AcceptKept(b, s, op);
    case TakeDiscardNotice =>
      if s.reason.Some? {
        HistoryAppends(s.history, Noticed(s.reason.value));
      }
    case _ =>
  }

  lemma {:induction false} StepsKept(b: Binding, s: Lifecycle, ops: seq<Op>)
    requires Inv(s) && !s.publishing
    ensures Inv(Steps(b, s, ops)) && !Steps(b, s, ops).publishing
    ensures !s.disposition.Pending? ==> SameOutcome(s, Steps(b, s, ops))
    decreases |ops|
  {
    hide Inv, Step;
    if ops != [] {
      StepKept(b, s, ops[0]);
      StepsKept(b, Step(b, s, ops[0]).state, ops[1..]);
    }
  }

  /** Over every sequence of calls: the callback runs at most once, only over finished attempts and a
      successful selection; the request is accepted exactly when it ran and returned; a discard is
      noticed at most once, after the work ended, and never for an accepted request. */
  lemma AtMostOncePublication(b: Binding, ops: seq<Op>)
    ensures var s := Steps(b, FRESH, ops);
            && Publications(s.history) <= 1 && Notices(s.history) <= 1
            && (s.disposition.Accepted? <==> Ran(s.history, false))
            && (s.disposition.PublicationFailed? <==> Ran(s.history, true))
            && (forall e :: e in s.history && e.Published? ==>
                  AllFinished(e.attempts) && Successful(e.attempts, e.selected))
            && (0 < Notices(s.history) ==> !s.disposition.Accepted? && s.completed.Some?)
  {
    hide Steps, Publications, Notices;
    assert Inv(FRESH) by {
      NoHistory();
    }
    StepsKept(b, FRESH, ops);
    forall e | e in Steps(b, FRESH, ops).history && e.Published?
      ensures AllFinished(e.attempts) && Successful(e.attempts, e.selected)
    {
      assert Earned(e);
    }
  }

  lemma NoHistory()
    ensures Publications([]) == 0 && Notices([]) == 0
  {
  }

  /** An outcome is final: whatever is called afterwards, it is neither changed nor published again. */
  lemma OutcomeIsFinal(b: Binding, before: seq<Op>, after: seq<Op>)
    ensures var s := Steps(b, FRESH, before);
            !s.disposition.Pending? ==> SameOutcome(s, Steps(b, FRESH, before + after))
  {
    hide Step, Publications, Notices, SameOutcome;
    NoHistory();
    StepsKept(b, FRESH, before);
    StepsKept(b, Steps(b, FRESH, before), after);
    StepsConcat(b, FRESH, before, after);
  }

  lemma {:induction false} StepsConcat(b: Binding, s: Lifecycle, first: seq<Op>, second: seq<Op>)
    ensures Steps(b, s, first + second) == Steps(b, Steps(b, s, first), second)
    decreases |first|
  {
    hide Step;
    if first == [] {
      assert first + second == second;
    } else {
      assert (first + second)[1..] == first[1..] + second;
      StepsConcat(b, Step(b, s, first[0]).state, first[1..], second);
    }
  }

  /** Repeating an acceptance says yes to the very same selection and decision, and to nothing else,
      without calling back. */
  lemma RepeatedAcceptance(b: Binding, s: Lifecycle, op: Op)
    requires Inv(s) && s.disposition.Accepted? && op.Accept? && Sha256(op.decision)
    ensures Step(b, s, op)
            == Out(s, Verdict(s.selected == Some(op.selected) && s.decision == Some(op.decision)))
  {
  }
}
