/** What a request answers, told from the calls and answers before alone: a caller who keeps the log knows every
    answer in advance, without looking into the request. */
module RequestHistory {
  import opened Common
  import opened RequestModel
  import opened RequestFacts

  // --- Reading a log ------------------------------------------------------------------------------------

  /** What the `k`th call of a run answered. */
  function AnswerAt(b: Binding, ops: seq<Op>, k: nat): Answer
    requires k < |ops|
  {
    Step(b, Steps(b, FRESH, ops[..k]), ops[k]).answer
  }

  /** The first call with an answer of some kind. */
  function FirstCall(b: Binding, ops: seq<Op>, p: (Op, Answer) -> bool): Option<Op>
    decreases |ops|
  {
    if ops == [] then None
    else
      var n := |ops| - 1;
      var earlier := FirstCall(b, ops[..n], p);
      if earlier.Some? then earlier else if p(ops[n], AnswerAt(b, ops, n)) then Some(ops[n]) else None
  }

  function Starts(i: nat): (Op, Answer) -> bool { (op: Op, a: Answer) => op.StartAttempt? && a == AttemptId(i) }

  function Finishes(i: nat): (Op, Answer) -> bool {
    (op: Op, a: Answer) => op.FinishAttempt? && op.id == i && a.Done?
  }

  function Completes(): (Op, Answer) -> bool { (op: Op, a: Answer) => op.MarkComplete? && a.Done? }

  function Rejects(): (Op, Answer) -> bool { (op: Op, a: Answer) => op.Reject? && a == Verdict(true) }

  function Accepts(): (Op, Answer) -> bool { (op: Op, a: Answer) => op.Accept? && a == Verdict(true) }

  function Notes(): (Op, Answer) -> bool { (op: Op, a: Answer) => op.TakeDiscardNotice? && a != Notice(None) }

  /** A usable reading of the request's clock. */
  predicate Usable(b: Binding, reading: Option<int>) { reading.Some? && b.submitted <= reading.value }

  const SPACES: set<int> := {
    9, 10, 11, 12, 13, 28, 29, 30, 31, 32, 133, 160, 5760, 8192, 8193, 8194, 8195, 8196, 8197, 8198, 8199, 8200, 8201,
    8202, 8232, 8233, 8239, 8287, 12288
  }

  lemma BlankTold(c: char)
    ensures Blank(c) <==> c as int in SPACES
  {
  }

  /** A name or a reason is at most 256 characters, not all of them white space. */
  lemma TextTold(s: string)
    ensures Text(s) <==> |s| < 257 && exists i :: 0 <= i < |s| && s[i] as int !in SPACES
  {
    hide Blank;
    forall i | 0 <= i < |s|
      ensures Blank(s[i]) <==> s[i] as int in SPACES
    {
      BlankTold(s[i]);
    }
  }

  /** A digest is 64 hexadecimal digits in lower case. */
  lemma ShaTold(s: string)
    ensures Sha256(s) <==> |s| == 64 && forall i :: 0 <= i < |s| ==> s[i] in "0123456789abcdef"
  {
  }

  // --- The request is what its log says ------------------------------------------------------------------

  /** Attempt `i` was started by the call that was given its number, before the deadline, and ended as the first
      call that reported its end said. */
  ghost predicate AttemptTold(b: Binding, ops: seq<Op>, s: Lifecycle, i: nat) {
    var started, finished := FirstCall(b, ops, Starts(i)), FirstCall(b, ops, Finishes(i));
    && (i < |s.attempts| <==> started.Some?)
    && (i < |s.attempts| ==>
          && started.value.StartAttempt? && Usable(b, started.value.reading)
          && s.attempts[i].started == started.value.reading.value < b.deadline
          && (finished.None? ==> s.attempts[i].finished.None? && s.attempts[i].errorType.None?)
          && (finished.Some? ==>
                && finished.value.FinishAttempt? && Usable(b, finished.value.reading)
                && s.attempts[i].finished == finished.value.reading
                && s.attempts[i].started <= finished.value.reading.value
                && s.attempts[i].errorType == finished.value.errorType))
    && (|s.attempts| <= i ==> finished.None?)
  }

  /** The request ended as the first call that ended it said. */
  ghost predicate OutcomeTold(b: Binding, ops: seq<Op>, s: Lifecycle) {
    var completed, rejected := FirstCall(b, ops, Completes()), FirstCall(b, ops, Rejects());
    var accepted, noticed := FirstCall(b, ops, Accepts()), FirstCall(b, ops, Notes());
    && s.completed == (if completed.Some? && completed.value.MarkComplete? then completed.value.reading else None)
    && (completed.Some? ==> completed.value.MarkComplete? && Usable(b, completed.value.reading))
    && (s.disposition.Rejected? <==> rejected.Some?)
    && (rejected.Some? ==>
          && rejected.value.Reject? && Usable(b, rejected.value.reading)
          && s.reason == Some(rejected.value.reason) && s.dispositionNs == rejected.value.reading)
    && (s.disposition.Accepted? <==> accepted.Some?)
    && (accepted.Some? ==>
          && accepted.value.Accept?
          && s.selected == Some(accepted.value.selected) && s.decision == Some(accepted.value.decision)
          && s.dispositionNs == if Usable(b, accepted.value.reading) then accepted.value.reading else None)
    && (s.disposition.PublicationFailed? ==> s.reason == Some("publication_failed"))
    && (s.noticeTaken <==> noticed.Some?)
    && (s.disposition.Pending? ==> s.dispositionNs.None? && s.reason.None? && s.selected.None? && s.decision.None?)
  }

  /** A publication was over the attempts as they still are. */
  ghost predicate PublicationsTold(s: Lifecycle) {
    forall e :: e in s.history && e.Published? ==> e.attempts == s.attempts
  }

  ghost predicate Told(b: Binding, ops: seq<Op>, s: Lifecycle) {
    && (forall i: nat :: AttemptTold(b, ops, s, i)) && OutcomeTold(b, ops, s) && PublicationsTold(s)
  }

  lemma {:induction false} StepsLast(b: Binding, ops: seq<Op>)
    requires ops != []
    ensures Steps(b, FRESH, ops) == Step(b, Steps(b, FRESH, ops[..|ops| - 1]), ops[|ops| - 1]).state
  {
    hide Step;
    var n := |ops| - 1;
    assert ops == ops[..n] + [ops[n]];
    StepsConcat(b, FRESH, ops[..n], [ops[n]]);
    var s := Steps(b, FRESH, ops[..n]);
    assert [ops[n]][1..] == [];
  }

  lemma FirstCallLast(b: Binding, front: seq<Op>, op: Op, p: (Op, Answer) -> bool)
    ensures FirstCall(b, front + [op], p)
            == if FirstCall(b, front, p).Some? then FirstCall(b, front, p)
               else if p(op, Step(b, Steps(b, FRESH, front), op).answer) then Some(op) else None
  {
    hide Step, Steps;
    assert (front + [op])[..|front|] == front;
  }

  /** One more call: what changes is what the call answered for. */
  lemma AttemptTells(b: Binding, front: seq<Op>, op: Op, i: nat)
    requires var s := Steps(b, FRESH, front); Inv(s) && !s.publishing && AttemptTold(b, front, s, i)
    ensures AttemptTold(b, front + [op], Step(b, Steps(b, FRESH, front), op).state, i)
  {
    hide Steps, FirstCall, Publications, Notices, Ran, Text, Sha256;
    var s := Steps(b, FRESH, front);
    FirstCallLast(b, front, op, Starts(i));
    FirstCallLast(b, front, op, Finishes(i));
    if op.Accept? && Unpublished(s, op.selected, op.decision).None? {
      CallbackIsInert(b, Opened(s, op.selected, op.decision), op.callback.calls);
    }
  }

  lemma OutcomeTells(b: Binding, front: seq<Op>, op: Op)
    requires var s := Steps(b, FRESH, front); Inv(s) && !s.publishing && OutcomeTold(b, front, s)
    ensures OutcomeTold(b, front + [op], Step(b, Steps(b, FRESH, front), op).state)
  {
    hide Steps, FirstCall, Publications, Notices, Ran, Text, Sha256;
    var s := Steps(b, FRESH, front);
    FirstCallLast(b, front, op, Completes());
    FirstCallLast(b, front, op, Rejects());
    FirstCallLast(b, front, op, Accepts());
    FirstCallLast(b, front, op, Notes());
    if op.Accept? && Unpublished(s, op.selected, op.decision).None? {
      CallbackIsInert(b, Opened(s, op.selected, op.decision), op.callback.calls);
    }
  }

  lemma PublicationsTell(b: Binding, s: Lifecycle, op: Op)
    requires Inv(s) && !s.publishing && PublicationsTold(s)
    ensures PublicationsTold(Step(b, s, op).state)
  {
    hide Publications, Notices, Text, Sha256;
    if op.Accept? && Unpublished(s, op.selected, op.decision).None? {
      CallbackIsInert(b, Opened(s, op.selected, op.decision), op.callback.calls);
    }
  }

  /** Over every run the request is what its log says. */
  lemma {:induction false} HistoryTells(b: Binding, ops: seq<Op>)
    ensures var s := Steps(b, FRESH, ops); Inv(s) && !s.publishing && Told(b, ops, s)
    decreases |ops|
  {
    hide Step, Inv, AttemptTold, OutcomeTold, PublicationsTold, Publications, Notices;
    assert Inv(FRESH) by {
      NewInv();
    }
    StepsKept(b, FRESH, ops);
    if ops == [] {
      NewTold(b);
    } else {
      var front, op := ops[..|ops| - 1], ops[|ops| - 1];
      assert ops == front + [op];
      HistoryTells(b, front);
      StepsLast(b, ops);
      forall i: nat
        ensures AttemptTold(b, ops, Steps(b, FRESH, ops), i)
      {
        AttemptTells(b, front, op, i);
      }
      OutcomeTells(b, front, op);
      PublicationsTell(b, Steps(b, FRESH, front), op);
    }
  }

  lemma NewInv()
    ensures Inv(FRESH) && !FRESH.publishing
  {
    NoHistory();
  }

  lemma NewTold(b: Binding)
    ensures Told(b, [], FRESH)
  {
  }

  // --- Every answer, from the log ---------------------------------------------------------------------------

  function Started(b: Binding, ops: seq<Op>, i: nat): Option<Op> { FirstCall(b, ops, Starts(i)) }

  function Ended(b: Binding, ops: seq<Op>, i: nat): Option<Op> { FirstCall(b, ops, Finishes(i)) }

  function Rejection(b: Binding, ops: seq<Op>): Option<Op> { FirstCall(b, ops, Rejects()) }

  function Acceptance(b: Binding, ops: seq<Op>): Option<Op> { FirstCall(b, ops, Accepts()) }

  function Completion(b: Binding, ops: seq<Op>): Option<Op> { FirstCall(b, ops, Completes()) }

  /** What a call answers after the calls before it, and whether it ran its callback. */
  function Answers(b: Binding, ops: seq<Op>, op: Op): Answer { Step(b, Steps(b, FRESH, ops), op).answer }

  predicate Publishes(b: Binding, ops: seq<Op>, op: Op) {
    Publications(Step(b, Steps(b, FRESH, ops), op).state.history) > Publications(Steps(b, FRESH, ops).history)
  }

  /** No rejection was answered yet and no callback has run. */
  predicate Undecided(b: Binding, ops: seq<Op>) {
    Rejection(b, ops).None? && Publications(Steps(b, FRESH, ops).history) == 0
  }

  lemma UndecidedIsPending(b: Binding, ops: seq<Op>)
    ensures var s := Steps(b, FRESH, ops);
            && (Undecided(b, ops) <==> s.disposition.Pending?)
            && !s.publishing && Inv(s) && OutcomeTold(b, ops, s) && forall i: nat :: AttemptTold(b, ops, s, i)
  {
    hide Steps, FirstCall, Publications, Notices, Ran;
    HistoryTells(b, ops);
  }

  /** An attempt starts, under the next number, exactly in an undecided and uncompleted request and before the
      deadline; otherwise the call raises. */
  lemma StartAnswers(b: Binding, ops: seq<Op>, name: string, reading: Option<int>)
    ensures var a := Answers(b, ops, StartAttempt(name, reading));
            if Text(name) && Undecided(b, ops) && Completion(b, ops).None?
               && Usable(b, reading) && reading.value < b.deadline
            then a.AttemptId? && Started(b, ops, a.id).None? && forall i: nat :: i < a.id ==> Started(b, ops, i).Some?
            else a.Raised?
  {
    hide Steps, FirstCall, Publications, Notices, Ran, Text;
    UndecidedIsPending(b, ops);
    var s := Steps(b, FRESH, ops);
    forall i: nat
      ensures i < |s.attempts| <==> Started(b, ops, i).Some?
    {
      assert AttemptTold(b, ops, s, i);
    }
  }

  /** An end is reported normally exactly for a started attempt: the first time with a reading not before its
      start, and afterwards with the same error again. */
  lemma FinishAnswers(b: Binding, ops: seq<Op>, i: nat, errorType: Option<string>, reading: Option<int>)
    ensures var a := Answers(b, ops, FinishAttempt(i, errorType, reading));
            var started, ended := Started(b, ops, i), Ended(b, ops, i);
            if (errorType.Some? ==> Text(errorType.value)) && started.Some? && started.value.StartAttempt?
               && if ended.Some? && ended.value.FinishAttempt? then ended.value.errorType == errorType
                  else Usable(b, reading) && Usable(b, started.value.reading)
                       && started.value.reading.value <= reading.value
            then a.Done? else a.Raised?
  {
    hide Steps, FirstCall, Publications, Notices, Ran, Text;
    UndecidedIsPending(b, ops);
    assert AttemptTold(b, ops, Steps(b, FRESH, ops), i);
  }

  /** Completion is answered normally exactly once every started attempt has ended, with a reading not before any
      end; and again ever after. */
  lemma CompleteAnswers(b: Binding, ops: seq<Op>, reading: Option<int>)
    ensures var a := Answers(b, ops, MarkComplete(reading));
            if Completion(b, ops).Some?
               || (Usable(b, reading)
                   && forall i: nat :: Started(b, ops, i).Some? ==>
                        && Ended(b, ops, i).Some? && Ended(b, ops, i).value.FinishAttempt?
                        && Usable(b, Ended(b, ops, i).value.reading)
                        && Ended(b, ops, i).value.reading.value <= reading.value)
            then a.Done? else a.Raised?
  {
    hide Steps, FirstCall, Publications, Notices, Ran;
    UndecidedIsPending(b, ops);
    var s := Steps(b, FRESH, ops);
    forall i: nat
      ensures i < |s.attempts| <==> Started(b, ops, i).Some?
      ensures i < |s.attempts| ==> s.attempts[i] in s.attempts
      ensures AttemptTold(b, ops, s, i)
    {
      assert AttemptTold(b, ops, s, i);
    }
    if Completion(b, ops).None? && Answers(b, ops, MarkComplete(reading)).Raised? && Usable(b, reading) {
      var x :| x in s.attempts && (!Finished(x) || reading.value < x.finished.value);
      var i: nat :| i < |s.attempts| && s.attempts[i] == x;
      assert AttemptTold(b, ops, s, i);
    }
  }

  /** A rejection is answered yes exactly for an undecided request and a usable reading, no for a decided one. */
  lemma RejectAnswers(b: Binding, ops: seq<Op>, reason: string, reading: Option<int>)
    ensures Answers(b, ops, Reject(reason, reading))
            == if !Text(reason) then Raised
               else if !Undecided(b, ops) then Verdict(false)
               else if Usable(b, reading) then Verdict(true) else Raised
  {
    hide Steps, FirstCall, Publications, Notices, Ran, Text;
    UndecidedIsPending(b, ops);
  }

  /** The callback runs exactly when an undecided, completed request is asked for an attempt whose end was reported
      without an error; then the answer is yes, or the callback's exception. Otherwise the very identity accepted
      before is answered yes, any other one for a decided request no, and the rest raises. */
  lemma AcceptAnswers(b: Binding, ops: seq<Op>, selected: nat, decision: string, callback: Callback,
                      reading: Option<int>)
    ensures var op := Accept(selected, decision, callback, reading);
            var accepted, ended := Acceptance(b, ops), Ended(b, ops, selected);
            && (Publishes(b, ops, op) <==>
                  && Sha256(decision) && Undecided(b, ops) && Completion(b, ops).Some?
                  && ended.Some? && ended.value.FinishAttempt? && ended.value.errorType.None?)
            && Step(b, Steps(b, FRESH, ops), op).state.history
               == Steps(b, FRESH, ops).history
                  + (if Publishes(b, ops, op)
                     then [Published(Steps(b, FRESH, ops).attempts, selected, callback.raises)] else [])
            && Answers(b, ops, op)
               == if Publishes(b, ops, op) then if callback.raises then Raised else Verdict(true)
                  else if !Sha256(decision) || Undecided(b, ops) then Raised
                  else if accepted.Some? && accepted.value.Accept?
                  then Verdict(accepted.value.selected == selected && accepted.value.decision == decision)
                  else Verdict(false)
  {
    hide Steps, FirstCall, Publications, Notices, Ran, Sha256;
    UndecidedIsPending(b, ops);
    var s := Steps(b, FRESH, ops);
    assert AttemptTold(b, ops, s, selected);
    if Unpublished(s, selected, decision).None? {
      CallbackIsInert(b, Opened(s, selected, decision), callback.calls);
      HistoryAppends(s.history, Published(s.attempts, selected, callback.raises));
    }
  }

  /** The reason of a discard is handed out exactly once, for a completed request that was rejected or whose
      publication failed. */
  lemma NoticeAnswers(b: Binding, ops: seq<Op>)
    ensures Answers(b, ops, TakeDiscardNotice)
            == if Completion(b, ops).None? || Undecided(b, ops) || Acceptance(b, ops).Some?
                  || FirstCall(b, ops, Notes()).Some?
               then Notice(None)
               else if Rejection(b, ops).Some? && Rejection(b, ops).value.Reject?
               then Notice(Some(Rejection(b, ops).value.reason))
               else Notice(Some("publication_failed"))
  {
    hide Steps, FirstCall, Publications, Notices, Ran;
    UndecidedIsPending(b, ops);
  }

  /** A publication is over the attempts of its request as they ever after are, each ended, and selects one whose
      end was reported without an error. */
  lemma PublicationsAreEarned(b: Binding, ops: seq<Op>, e: Event)
    requires e in Steps(b, FRESH, ops).history && e.Published?
    ensures e.attempts == Steps(b, FRESH, ops).attempts
    ensures var ended := Ended(b, ops, e.selected);
            ended.Some? && ended.value.FinishAttempt? && ended.value.errorType.None?
    ensures forall i: nat :: Started(b, ops, i).Some? ==> Ended(b, ops, i).Some?
  {
    hide Steps, FirstCall, Publications, Notices, Ran;
    HistoryTells(b, ops);
    var s := Steps(b, FRESH, ops);
    assert Earned(e) && AttemptTold(b, ops, s, e.selected);
    forall i: nat | Started(b, ops, i).Some?
      ensures Ended(b, ops, i).Some?
    {
      assert AttemptTold(b, ops, s, i);
      assert s.attempts[i] in e.attempts;
    }
  }
}
