/** The inductive invariant of a case: what its log, attempts, approvals and
    state say about each other after any run of commands. */
module CaseInvariant {
  import opened Kernel
  import opened CaseFacts
  import opened CaseModel

  predicate ValidAttempt(a: Attempt) {
    && a.kind != KindUnset
    && PositiveLimits(a.budget)
    && a.brief != ""
    && (a.run.Some? ==> ValidRun(a.run.value))
    && (a.outcome.Some? ==> a.outcome.value.kind != OutcomeKindUnset && a.outcome.value.summary != "")
  }

  /** Attempts are numbered 1..n and only the last may be open. */
  ghost predicate AttemptsOk(attempts: seq<Attempt>) {
    && (forall i | 0 <= i < |attempts| :: attempts[i].ordinal == i + 1 && ValidAttempt(attempts[i]))
    && (forall i | 0 <= i < |attempts| - 1 :: !attempts[i].Open())
  }

  /** The transition table. */
  predicate Listed(from: CaseState, to: CaseState, cause: Cause) {
    match cause
    case CauseTriageSmall => from == Received && to == Queued
    case CauseTriageLarge => from == Received && to == AwaitingApproval
    case CauseApproval => from in {Gated, AwaitingApproval, Failed} && to == Queued
    case CauseAttemptStarted => from == Queued && to == Attempting
    case CausePullRequestOpened => from == Attempting && to == Done
    case CauseBudgetExhausted => from == Attempting && to == AwaitingApproval
    case CauseFailed => from == Attempting && to == Failed
    case CauseOperatorStop => from == Attempting && to == AwaitingApproval
    case CauseRestartRequeue => from == Attempting && to == Queued
    case CauseRestartFailed => from == Attempting && to == Failed
    case CauseClosed => !from.Terminal() && to == Closed
  }

  function StateAfter(log: seq<Transition>, trust: Trust): CaseState {
    if log == [] then InitialState(trust) else log[|log| - 1].to
  }

  /** A chain of listed transitions from the state the requester's trust puts
      the case in. */
  ghost predicate LogOk(log: seq<Transition>, trust: Trust) {
    forall i | 0 <= i < |log| ::
      log[i].from == StateAfter(log[..i], trust) && Listed(log[i].from, log[i].to, log[i].cause)
  }

  /** The entries that queue a case. */
  function Queueings(log: seq<Transition>): nat {
    CountCause(log, CauseTriageSmall) + CountCause(log, CauseApproval) + CountCause(log, CauseRestartRequeue)
  }

  function One(b: bool): nat {
    if b then 1 else 0
  }

  /** The log counted against the facts: starts name the attempts, each start
      spends a queueing, triage is logged once and by size, and a queueing by
      approval has an approval behind it. */
  ghost predicate LogCounts(c: Case) {
    && |c.attempts| == CountCause(c.transitions, CauseAttemptStarted)
    && CountCause(c.transitions, CauseAttemptStarted) + One(c.state == Queued) <= Queueings(c.transitions)
    && CountCause(c.transitions, CauseTriageSmall) == One(c.triage.Some? && c.triage.value.size == Small)
    && CountCause(c.transitions, CauseTriageLarge) == One(c.triage.Some? && c.triage.value.size == Large)
    && CountCause(c.transitions, CauseApproval) <= |c.approvals|
    && |c.transitions| + One(c.state == Attempting) <= One(c.triage.Some?) + |c.approvals| + 2 * |c.attempts| + One(c.closure.Some?)
  }

  ghost predicate AnyOpen(attempts: seq<Attempt>) {
    attempts != [] && attempts[|attempts| - 1].Open()
  }

  ghost predicate FactsMatchState(c: Case) {
    && c.state == StateAfter(c.transitions, c.requester.trust)
    && (c.state == Attempting ==> AnyOpen(c.attempts))
    && (AnyOpen(c.attempts) ==> c.state in {Attempting, Closed})
    && (c.state in {Received, Gated} ==> c.transitions == [] && c.triage.None?)
    && (c.triage.Some? ==> c.triage.value.size != SizeUnset && c.triage.value.rationale != "" && c.triage.value.model != "")
    && (c.closure.Some? <==> c.state == Closed)
    && (c.closure.Some? ==> c.closure.value.deliveryId != "")
  }

  ghost predicate ValidIdentity(c: Case) {
    && c.key.repository != "" && c.key.number >= 1 && c.requester.login != ""
    && (forall i | 0 <= i < |c.approvals| :: ValidApproval(c.approvals[i]))
  }

  ghost predicate Inv(c: Case) {
    ValidIdentity(c) && AttemptsOk(c.attempts) && LogOk(c.transitions, c.requester.trust) && FactsMatchState(c) && LogCounts(c)
  }

  // ----- Preservation -----

  lemma CountAppend(log: seq<Transition>, tr: Transition, cause: Cause)
    ensures CountCause(log + [tr], cause) == CountCause(log, cause) + One(tr.cause == cause)
  {
    assert (log + [tr])[..|log|] == log;
  }

  /** A listed move extends the chain and counts once, for its own cause. */
  lemma MoveKeepsLog(t: Tracked, to: CaseState, cause: Cause, at: Time)
    requires LogOk(t.subject.transitions, t.subject.requester.trust)
    requires t.subject.state == StateAfter(t.subject.transitions, t.subject.requester.trust)
    requires Listed(t.subject.state, to, cause)
    ensures var u := Move(t, to, cause, at).subject;
      && LogOk(u.transitions, u.requester.trust) && u.state == StateAfter(u.transitions, u.requester.trust)
      && |u.transitions| == |t.subject.transitions| + 1
      && (forall k :: CountCause(u.transitions, k) == CountCause(t.subject.transitions, k) + One(k == cause))
  {
    var log, more := t.subject.transitions, Move(t, to, cause, at).subject.transitions;
    var trust := t.subject.requester.trust;
    forall i | 0 <= i < |more|
      ensures more[i].from == StateAfter(more[..i], trust) && Listed(more[i].from, more[i].to, more[i].cause)
    {
      assert more[..i] == log[..i];
      assert log[..|log|] == log;
    }
    forall k
      ensures CountCause(more, k) == CountCause(log, k) + One(k == cause)
    {
      CountAppend(log, more[|log|], k);
    }
  }

  lemma NewCaseInv(key: CaseKey, requester: Requester, at: Time)
    requires NewCase(key, requester, at).Ok?
    ensures Inv(NewCase(key, requester, at).value)
  {}

  /** A case triaged and still to be moved to where its size takes it. */
  lemma SizedKeepsInv(t: Tracked, v: Triage, to: CaseState, cause: Cause)
    requires Inv(t.subject) && t.subject.state == Received && v.size != SizeUnset && v.rationale != "" && v.model != ""
    requires if v.size == Small then to == Queued && cause == CauseTriageSmall else to == AwaitingApproval && cause == CauseTriageLarge
    ensures Inv(Move(Tracked(t.subject.(triage := Some(v)), t.changes.(triage := Some(v))), to, cause, v.triagedAt).subject)
  {
    MoveKeepsLog(Tracked(t.subject.(triage := Some(v)), t.changes.(triage := Some(v))), to, cause, v.triagedAt);
  }

  lemma TriageKeepsInv(t: Tracked, v: Triage)
    requires Inv(t.subject) && StepTriage(t, v).Ok?
    ensures Inv(StepTriage(t, v).value.subject)
  {
    if v.size == Small {
      SizedKeepsInv(t, v, Queued, CauseTriageSmall);
    } else {
      SizedKeepsInv(t, v, AwaitingApproval, CauseTriageLarge);
    }
  }

  /** An approval alone changes nothing the invariant relates to the log. */
  lemma ApprovalAppended(c: Case, a: Approval)
    requires Inv(c) && ValidApproval(a)
    ensures Inv(c.(approvals := c.approvals + [a]))
  {
    var u := c.(approvals := c.approvals + [a]);
    assert ValidIdentity(u);
    assert FactsMatchState(u) && LogCounts(u);
  }

  lemma QueuedByApproval(t: Tracked, at: Time)
    requires Inv(t.subject) && t.subject.state in {Gated, AwaitingApproval, Failed}
    requires CountCause(t.subject.transitions, CauseApproval) < |t.subject.approvals|
    requires |t.subject.transitions| < One(t.subject.triage.Some?) + |t.subject.approvals| + 2 * |t.subject.attempts| + One(t.subject.closure.Some?)
    ensures Inv(Move(t, Queued, CauseApproval, at).subject)
  {
    MoveKeepsLog(t, Queued, CauseApproval, at);
  }

  lemma ApprovalKeepsInv(t: Tracked, a: Approval)
    requires Inv(t.subject) && StepApproval(t, a).Ok?
    ensures Inv(StepApproval(t, a).value.subject)
  {
    ApprovalAppended(t.subject, a);
    if t.subject.state in {Gated, AwaitingApproval, Failed} {
      QueuedByApproval(
        Tracked(t.subject.(approvals := t.subject.approvals + [a]), t.changes.(approvals := t.changes.approvals + [a])), a.approvedAt);
    }
  }

  lemma StartKeepsInv(t: Tracked, kind: AttemptKind, budget: Budget, brief: string, at: Time)
    requires Inv(t.subject) && StepStart(t, kind, budget, brief, at).Ok?
    ensures Inv(StepStart(t, kind, budget, brief, at).value.subject)
  {
    var a := NextAttempt(t.subject, kind, budget, brief, at);
    var u := Tracked(t.subject.(attempts := t.subject.attempts + [a]), t.changes.(attempts := t.changes.attempts + [a]));
    assert AttemptsOk(u.subject.attempts);
    MoveKeepsLog(u, Attempting, CauseAttemptStarted, at);
  }

  lemma RunKeepsInv(t: Tracked, attemptId: Id, r: Run)
    requires Inv(t.subject) && StepRun(t, attemptId, r).Ok?
    ensures Inv(StepRun(t, attemptId, r).value.subject)
  {
    assert AttemptsOk(StepRun(t, attemptId, r).value.subject.attempts);
  }

  /** Ending the open attempt leaves every attempt closed and the rest alone. */
  lemma EndAttemptKeepsFacts(t: Tracked, o: Outcome)
    requires Inv(t.subject) && o.kind != OutcomeKindUnset && o.summary != ""
    requires FirstOpen(t.subject.attempts) < |t.subject.attempts|
    ensures var i := FirstOpen(t.subject.attempts);
      var u := EndAttempt(t, i, o).subject;
      && i == |t.subject.attempts| - 1 && t.subject.state in {Attempting, Closed}
      && AttemptsOk(u.attempts) && !AnyOpen(u.attempts) && |u.attempts| == |t.subject.attempts|
      && u == t.subject.(attempts := u.attempts)
  {}

  lemma OutcomeMoveIsListed(c: Case, ordinal: nat, o: Outcome)
    requires OutcomeMove(c, ordinal, o).Some?
    ensures var e := OutcomeMove(c, ordinal, o).value;
      && Listed(Attempting, e.to, e.cause) && e.to in {Done, AwaitingApproval, Failed, Queued}
      && (e.to == Queued <==> e.cause == CauseRestartRequeue)
  {}

  /** A case whose running attempt has just ended and that still has to move. */
  ghost predicate AttemptJustEnded(c: Case) {
    && ValidIdentity(c) && AttemptsOk(c.attempts) && LogOk(c.transitions, c.requester.trust) && LogCounts(c)
    && c.state == Attempting && c.state == StateAfter(c.transitions, c.requester.trust)
    && !AnyOpen(c.attempts) && c.closure.None?
    && (c.triage.Some? ==> c.triage.value.size != SizeUnset && c.triage.value.rationale != "" && c.triage.value.model != "")
  }

  lemma EndingKeepsInv(t: Tracked, e: Ending, at: Time)
    requires AttemptJustEnded(t.subject) && Listed(Attempting, e.to, e.cause) && e.to in {Done, AwaitingApproval, Failed, Queued}
    requires e.to == Queued <==> e.cause == CauseRestartRequeue
    ensures Inv(Move(t, e.to, e.cause, at).subject)
  {
    MoveKeepsLog(t, e.to, e.cause, at);
  }

  lemma OutcomeKeepsInv(t: Tracked, attemptId: Id, o: Outcome)
    requires Inv(t.subject) && StepOutcome(t, attemptId, o).Ok?
    ensures Inv(StepOutcome(t, attemptId, o).value.subject)
  {
    var i := FirstOpen(t.subject.attempts);
    EndAttemptKeepsFacts(t, o);
    if t.subject.state != Closed {
      OutcomeMoveIsListed(t.subject, t.subject.attempts[i].ordinal, o);
      EndingKeepsInv(EndAttempt(t, i, o), OutcomeMove(t.subject, t.subject.attempts[i].ordinal, o).value, o.endedAt);
    }
  }

  lemma CloseKeepsInv(t: Tracked, cl: Closure)
    requires Inv(t.subject) && StepClose(t, cl).Ok?
    ensures Inv(StepClose(t, cl).value.subject)
  {
    var u := Tracked(t.subject.(closure := Some(cl)), t.changes.(closure := Some(cl)));
    MoveKeepsLog(u, Closed, CauseClosed, cl.closedAt);
  }

  /** Every accepted command keeps the invariant. */
  lemma StepKeepsInv(t: Tracked, c: Command)
    requires Inv(t.subject) && Step(t, c).Ok?
    ensures Inv(Step(t, c).value.subject)
  {
    match c
    case RecordTriage(v) => TriageKeepsInv(t, v);
    case RecordApproval(a) => ApprovalKeepsInv(t, a);
    case StartAttempt(kind, budget, brief, at) => StartKeepsInv(t, kind, budget, brief, at);
    case RecordRun(attemptId, r) => RunKeepsInv(t, attemptId, r);
    case RecordOutcome(attemptId, o) => OutcomeKeepsInv(t, attemptId, o);
    case Close(cl) => CloseKeepsInv(t, cl);
  }

  lemma AfterKeepsInv(c: Case, cmd: Command)
    requires Inv(c)
    ensures Inv(After(c, cmd))
  {
    if Step(Clean(c), cmd).Ok? {
      StepKeepsInv(Clean(c), cmd);
    }
  }

  /** Every case a run can reach satisfies the invariant. */
  lemma {:induction false} ReachableInv(c: Case, cmds: seq<Command>)
    requires Inv(c)
    ensures Inv(Exec(c, cmds))
    decreases |cmds|
  {
    if cmds != [] {
      AfterKeepsInv(c, cmds[0]);
      ReachableInv(After(c, cmds[0]), cmds[1..]);
    }
  }
}
