/** What each command on a case is for, told from the case it meets and the case it
    leaves: when it is taken, and everything it changes. */
module CaseLaws {
  import opened Kernel
  import opened CaseFacts
  import opened CaseModel
  import opened CaseInvariant

  /** The log gained one entry, from the old state to the new. */
  ghost predicate Logged(c: Case, u: Case, cause: Cause, at: Time) {
    u.transitions == c.transitions + [Transition(c.state, u.state, cause, at)]
  }

  // ----- A new case -----

  /** Owners, members and collaborators are trusted, nobody else. */
  lemma TrustIsByAssociation(login: string, association: Association)
    ensures var r := NewRequester(login, association);
      && (r.Ok? <==> login != "" && association != AssociationUnset)
      && (r.Ok? ==>
            && r.value.login == login && r.value.association == association
            && (r.value.trust == Trusted <==> association == Owner || association == Member || association == Collaborator))
  {}

  /** A trusted requester's case is received, any other waits at the gate. */
  lemma NewCaseIs(key: CaseKey, requester: Requester, receivedAt: Time)
    ensures var r := NewCase(key, requester, receivedAt);
      && (r.Ok? <==> key.repository != "" && key.number >= 1 && requester.login != "")
      && (r.Ok? ==>
            && r.value.state == (if requester.trust == Trusted then Received else Gated)
            && r.value.key == key && r.value.requester == requester && r.value.receivedAt == receivedAt && r.value.id == 0
            && r.value.triage.None? && r.value.approvals == [] && r.value.attempts == [] && r.value.transitions == [] && r.value.closure.None?)
  {}

  // ----- Triage and approvals -----

  lemma TriageIsTakenExactly(t: Tracked, v: Triage)
    ensures Step(t, RecordTriage(v)) == Err(Invalid) <==> v.size == SizeUnset || v.rationale == "" || v.model == ""
    ensures Step(t, RecordTriage(v)).Ok? <==>
      v.size != SizeUnset && v.rationale != "" && v.model != "" && t.subject.state == Received && t.subject.triage.None?
  {}

  /** A small issue is queued at once, a large one waits for approval. */
  lemma TriageDecides(t: Tracked, v: Triage)
    requires Step(t, RecordTriage(v)).Ok?
    ensures var c, u := t.subject, Step(t, RecordTriage(v)).value.subject;
      && u == c.(triage := Some(v), state := u.state, transitions := u.transitions)
      && (if v.size == Small then u.state == Queued && Logged(c, u, CauseTriageSmall, v.triagedAt)
          else u.state == AwaitingApproval && Logged(c, u, CauseTriageLarge, v.triagedAt))
  {}

  /** An approval is taken in every state that is not final. */
  lemma ApprovalIsTakenExactly(t: Tracked, a: Approval)
    ensures Step(t, RecordApproval(a)) == Err(Invalid) <==>
      a.approver.login == "" || a.source == SourceUnset || (a.source == SourceLabel) != (a.deliveryId != "")
    ensures Step(t, RecordApproval(a)).Ok? <==>
      && a.approver.login != "" && a.source != SourceUnset && (a.source == SourceLabel <==> a.deliveryId != "")
      && t.subject.state !in {Done, Closed}
  {}

  /** It is kept in every one of them, and queues a case that waits for it. */
  lemma ApprovalIsKept(t: Tracked, a: Approval)
    requires Step(t, RecordApproval(a)).Ok?
    ensures var c, u := t.subject, Step(t, RecordApproval(a)).value.subject;
      && u == c.(approvals := c.approvals + [a], state := u.state, transitions := u.transitions)
      && (if c.state in {Gated, AwaitingApproval, Failed} then u.state == Queued && Logged(c, u, CauseApproval, a.approvedAt)
          else u.state == c.state && u.transitions == c.transitions)
  {}

  // ----- Attempts -----

  lemma {:induction false} NothingOpenExactly(attempts: seq<Attempt>)
    ensures FirstOpen(attempts) == |attempts| <==> forall i | 0 <= i < |attempts| :: attempts[i].outcome.Some?
  {
    if attempts != [] {
      NothingOpenExactly(attempts[1..]);
    }
  }

  lemma AttemptStartsExactly(t: Tracked, kind: AttemptKind, budget: Budget, brief: string, at: Time)
    ensures Step(t, StartAttempt(kind, budget, brief, at)) == Err(Invalid) <==> kind == KindUnset || budget.maxTurns == 0 || brief == ""
    ensures Step(t, StartAttempt(kind, budget, brief, at)).Ok? <==>
      && kind != KindUnset && budget.maxTurns != 0 && brief != "" && t.subject.state == Queued
      && forall i | 0 <= i < |t.subject.attempts| :: t.subject.attempts[i].outcome.Some?
  {
    NothingOpenExactly(t.subject.attempts);
  }

  lemma AttemptIsAppended(t: Tracked, kind: AttemptKind, budget: Budget, brief: string, at: Time)
    requires Step(t, StartAttempt(kind, budget, brief, at)).Ok?
    ensures var c, u := t.subject, Step(t, StartAttempt(kind, budget, brief, at)).value.subject;
      && u == c.(state := Attempting, attempts := u.attempts, transitions := u.transitions)
      && u.attempts == c.attempts + [Attempt(0, |c.attempts| + 1, kind, budget, brief, at, None, None)]
      && Logged(c, u, CauseAttemptStarted, at)
  {}

  /** An approval that no attempt has answered: it came no earlier than the latest
      start, or nothing ran yet. */
  predicate Unanswered(c: Case, a: Approval) {
    c.attempts != [] ==> a.approvedAt >= c.attempts[|c.attempts| - 1].startedAt
  }

  lemma KindIsByApprovals(c: Case)
    ensures NextAttemptKind(c) == Approved <==> exists a | a in c.approvals :: Unanswered(c, a)
    ensures NextAttemptKind(c) != Approved ==> NextAttemptKind(c) == Auto
  {
    if NextAttemptKind(c) == Approved {
      var i :| 0 <= i < |c.approvals| && Unanswered(c, c.approvals[i]);
      assert c.approvals[i] in c.approvals;
    }
  }

  /** The open attempt is the last one; a command names it by id when both know one. */
  ghost predicate Names(c: Case, id: Id) {
    && c.attempts != [] && c.attempts[|c.attempts| - 1].outcome.None?
    && (id == 0 || c.attempts[|c.attempts| - 1].id == 0 || c.attempts[|c.attempts| - 1].id == id)
  }

  lemma TargetIsLast(c: Case, id: Id)
    requires AttemptsOk(c.attempts)
    ensures Target(c, id).Ok? <==> Names(c, id)
    ensures Target(c, id).Ok? ==> Target(c, id).value == |c.attempts| - 1
    ensures Target(c, id).Err? ==> Target(c, id).error == Refused
  {
    NothingOpenExactly(c.attempts);
  }

  lemma RunIsTakenExactly(t: Tracked, id: Id, r: Run)
    requires AttemptsOk(t.subject.attempts)
    ensures Step(t, RecordRun(id, r)) == Err(Invalid) <==> r.runId == "" || r.model == "" || !ValidSha(r.baseSha)
    ensures Step(t, RecordRun(id, r)).Ok? <==>
      && r.runId != "" && r.model != "" && ValidSha(r.baseSha)
      && Names(t.subject, id) && t.subject.attempts[|t.subject.attempts| - 1].run.None?
  {
    TargetIsLast(t.subject, id);
  }

  lemma RunIsRecorded(t: Tracked, id: Id, r: Run)
    requires AttemptsOk(t.subject.attempts) && Step(t, RecordRun(id, r)).Ok?
    ensures var c, u, n := t.subject, Step(t, RecordRun(id, r)).value.subject, |t.subject.attempts| - 1;
      n >= 0 && u == c.(attempts := c.attempts[n := c.attempts[n].(run := Some(r))])
  {
    TargetIsLast(t.subject, id);
  }

  // ----- Outcomes -----

  /** An outcome is taken while its attempt is open, except for an abort that only
      a closed case explains; a closed case takes any. */
  lemma OutcomeIsTakenExactly(t: Tracked, id: Id, o: Outcome)
    requires AttemptsOk(t.subject.attempts)
    ensures Step(t, RecordOutcome(id, o)) == Err(Invalid) <==> o.kind == OutcomeKindUnset || o.summary == ""
    ensures Step(t, RecordOutcome(id, o)).Ok? <==>
      && o.kind != OutcomeKindUnset && o.summary != "" && Names(t.subject, id)
      && (t.subject.state != Closed && o.kind == Aborted ==> o.reason in {AbortOperatorStop, AbortDaemonRestart})
  {
    TargetIsLast(t.subject, id);
  }

  /** An attempt before the open one was ended by a restart of the daemon. */
  ghost predicate RestartedEarlier(c: Case) {
    exists i | 0 <= i < |c.attempts| - 1 ::
      c.attempts[i].outcome.Some? && c.attempts[i].outcome.value.kind == Aborted && c.attempts[i].outcome.value.reason == AbortDaemonRestart
  }

  lemma RestartedEarlierIsSeen(c: Case)
    requires AttemptsOk(c.attempts) && c.attempts != []
    ensures RestartedEarlier(c) <==> RestartedBefore(c.attempts, c.attempts[|c.attempts| - 1].ordinal)
  {
    if RestartedEarlier(c) {
      var i :| 0 <= i < |c.attempts| - 1 && c.attempts[i].outcome.Some?
        && c.attempts[i].outcome.value.kind == Aborted && c.attempts[i].outcome.value.reason == AbortDaemonRestart;
      assert c.attempts[i].ordinal < c.attempts[|c.attempts| - 1].ordinal && c.attempts[i].Restarted();
    }
  }

  /** Where an outcome takes a case, kind by kind: the state and the cause it logs. */
  ghost predicate Leads(c: Case, o: Outcome, to: CaseState, cause: Cause) {
    && (to == Done <==> o.kind == PullRequestOpened) && (cause == CausePullRequestOpened <==> o.kind == PullRequestOpened)
    && (to == AwaitingApproval <==> o.kind == BudgetExhausted || (o.kind == Aborted && o.reason == AbortOperatorStop))
    && (cause == CauseBudgetExhausted <==> o.kind == BudgetExhausted)
    && (cause == CauseOperatorStop <==> o.kind == Aborted && o.reason == AbortOperatorStop)
    && (to == Queued <==> o.kind == Aborted && o.reason == AbortDaemonRestart && !RestartedEarlier(c))
    && (cause == CauseRestartRequeue <==> o.kind == Aborted && o.reason == AbortDaemonRestart && !RestartedEarlier(c))
    && (to == Failed <==> o.kind == FailedOutcome || (o.kind == Aborted && o.reason == AbortDaemonRestart && RestartedEarlier(c)))
    && (cause == CauseFailed <==> o.kind == FailedOutcome)
    && (cause == CauseRestartFailed <==> o.kind == Aborted && o.reason == AbortDaemonRestart && RestartedEarlier(c))
  }

  /** The attempt is over. A closed case stays as it is; any other goes where the
      outcome leads, told by the outcome and the earlier attempts alone. */
  lemma OutcomeDecides(t: Tracked, id: Id, o: Outcome)
    requires AttemptsOk(t.subject.attempts) && Step(t, RecordOutcome(id, o)).Ok?
    ensures var c, u, n := t.subject, Step(t, RecordOutcome(id, o)).value.subject, |t.subject.attempts| - 1;
      && n >= 0
      && u == c.(attempts := u.attempts, state := u.state, transitions := u.transitions)
      && u.attempts == c.attempts[n := c.attempts[n].(outcome := Some(o))]
      && (c.state == Closed ==> u.state == Closed && u.transitions == c.transitions)
      && (c.state != Closed ==>
            && |u.transitions| == |c.transitions| + 1
            && Logged(c, u, u.transitions[|c.transitions|].cause, o.endedAt)
            && Leads(c, o, u.state, u.transitions[|c.transitions|].cause))
  {
    TargetIsLast(t.subject, id);
    if t.subject.attempts != [] {
      RestartedEarlierIsSeen(t.subject);
    }
  }

  // ----- Closing -----

  lemma ClosureIsTakenExactly(t: Tracked, cl: Closure)
    ensures Step(t, Close(cl)) == Err(Invalid) <==> cl.deliveryId == ""
    ensures Step(t, Close(cl)).Ok? <==> cl.deliveryId != "" && t.subject.state !in {Done, Closed}
  {}

  lemma ClosureCloses(t: Tracked, cl: Closure)
    requires Step(t, Close(cl)).Ok?
    ensures var c, u := t.subject, Step(t, Close(cl)).value.subject;
      && u == c.(state := Closed, closure := Some(cl), transitions := u.transitions)
      && Logged(c, u, CauseClosed, cl.closedAt)
  {}
}
