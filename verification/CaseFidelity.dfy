/** What a case is after a write and a load, told fact by fact: nothing is lost but
    the part of a time below a microsecond. */
module CaseFidelity {
  import opened Kernel
  import opened CaseFacts
  import opened CaseModel
  import opened CaseInvariant
  import opened CaseTables
  import opened CasePersistence
  import D = CaseDatabase

  predicate SameApproval(a: Approval, s: Approval) {
    && s.approver == a.approver && s.source == a.source && Cut(a.approvedAt, s.approvedAt)
    && (a.source == SourceLabel ==> s.deliveryId == a.deliveryId)
  }

  predicate SameTriage(v: Triage, s: Triage) {
    s.size == v.size && s.rationale == v.rationale && s.model == v.model && Cut(v.triagedAt, s.triagedAt)
  }

  /** The fields its kind calls for are kept, with an exhaustion's pull request if it
      has one. */
  predicate SameOutcome(o: Outcome, s: Outcome) {
    && s.kind == o.kind && s.summary == o.summary && Cut(o.endedAt, s.endedAt) && SameUsage(o.usage, s.usage)
    && (o.kind == PullRequestOpened ==> s.prNumber == o.prNumber && s.headSha == o.headSha)
    && (o.kind == BudgetExhausted ==> s.limit == o.limit && s.prNumber == o.prNumber && (o.prNumber != 0 ==> s.headSha == o.headSha))
    && (o.kind == FailedOutcome ==> s.failureClass == o.failureClass && s.message == o.message)
    && (o.kind == Aborted ==> s.reason == o.reason)
  }

  predicate SameAttempt(a: Attempt, s: Attempt) {
    && s.ordinal == a.ordinal && s.kind == a.kind && s.brief == a.brief && Cut(a.startedAt, s.startedAt)
    && s.budget.maxTurns == a.budget.maxTurns && s.budget.maxDiffLines == a.budget.maxDiffLines
    && s.budget.maxWallClock > 0 && CutDuration(a.budget.maxWallClock, s.budget.maxWallClock)
    && (s.run.Some? <==> a.run.Some?) && (a.run.Some? ==> SameRun(a.run.value, s.run.value))
    && (s.outcome.Some? <==> a.outcome.Some?) && (a.outcome.Some? ==> SameOutcome(a.outcome.value, s.outcome.value))
  }

  predicate SameEntry(tr: Transition, s: Transition) {
    s.from == tr.from && s.to == tr.to && s.cause == tr.cause && Cut(tr.occurredAt, s.occurredAt)
  }

  predicate SameClosure(cl: Closure, s: Closure) {
    s.deliveryId == cl.deliveryId && Cut(cl.closedAt, s.closedAt)
  }

  ghost predicate SameApprovals(given: seq<Approval>, ws: seq<Approval>) {
    && |ws| == |given|
    && (forall a | a in given :: exists w :: w in ws && SameApproval(a, w))
    && (forall w | w in ws :: exists a :: a in given && SameApproval(a, w))
  }

  predicate SameAttempts(attempts: seq<Attempt>, kept: seq<Attempt>) {
    |kept| == |attempts| && forall i | 0 <= i < |attempts| :: SameAttempt(attempts[i], kept[i])
  }

  predicate SameLog(log: seq<Transition>, kept: seq<Transition>) {
    |kept| == |log| && forall i | 0 <= i < |log| :: SameEntry(log[i], kept[i])
  }

  /** The same case: attempts and log in order, approvals in any order. */
  ghost predicate SameCase(c: Case, s: Case) {
    && s.id == c.id && s.key == c.key && s.requester == c.requester && s.receivedAt == c.receivedAt && s.state == c.state
    && (s.triage.Some? <==> c.triage.Some?) && (c.triage.Some? ==> SameTriage(c.triage.value, s.triage.value))
    && SameApprovals(c.approvals, s.approvals) && SameAttempts(c.attempts, s.attempts) && SameLog(c.transitions, s.transitions)
    && (s.closure.Some? <==> c.closure.Some?) && (c.closure.Some? ==> SameClosure(c.closure.value, s.closure.value))
  }

  lemma OutcomeIsSame(o: Outcome)
    ensures SameOutcome(o, StoredOutcome(o))
  {}

  lemma AttemptIsSame(a: Attempt, id: Id)
    requires StorableBudget(a.budget)
    ensures SameAttempt(a, StoredAttempt(a, id))
  {
    if a.outcome.Some? { OutcomeIsSame(a.outcome.value); }
  }

  lemma ApprovalsAreSame(given: seq<Approval>, loaded: seq<Approval>, p0: nat, id: Id)
    requires multiset(loaded) == multiset(KeptApprovals(given, p0, id))
    ensures SameApprovals(given, loaded)
  {
    var kept := KeptApprovals(given, p0, id);
    assert |multiset(loaded)| == |multiset(kept)|;
    assert forall i | 0 <= i < |given| :: SameApproval(given[i], kept[i]);
    forall a | a in given ensures exists w :: w in loaded && SameApproval(a, w) {
      var i :| 0 <= i < |given| && given[i] == a;
      assert kept[i] in multiset(kept);
      assert kept[i] in loaded && SameApproval(a, kept[i]);
    }
    forall w | w in loaded ensures exists a :: a in given && SameApproval(a, w) {
      assert w in multiset(loaded);
      var i :| 0 <= i < |kept| && kept[i] == w;
      assert given[i] in given && SameApproval(given[i], w);
    }
  }

  lemma AttemptsAreSame(attempts: seq<Attempt>, a0: nat, id: Id)
    requires BudgetsStorable(attempts)
    ensures SameAttempts(attempts, KeptAttempts(attempts, a0, id))
  {
    forall i | 0 <= i < |attempts| ensures SameAttempt(attempts[i], KeptAttempts(attempts, a0, id)[i]) {
      AttemptIsSame(attempts[i], NewId(i, a0, attempts[i].id, id));
    }
  }

  lemma KeptIsSame(c: Case, loaded: Case, p0: nat, a0: nat, id: Id)
    requires BudgetsStorable(c.attempts) && p0 <= |c.approvals| && SameUpToApprovalOrder(loaded, Kept(c, p0, a0, id))
    ensures SameCase(c, loaded)
  {
    var k := Kept(c, p0, a0, id);
    assert loaded.(approvals := []).attempts == k.attempts && loaded.(approvals := []).transitions == k.transitions;
    ApprovalsAreSame(c.approvals, loaded.approvals, p0, id);
    AttemptsAreSame(c.attempts, a0, id + (|c.approvals| - p0));
  }

  /** A committed update is loaded as the very case the command left in memory. */
  lemma UpdateLosesOnlyFractions(db: D.Database, key: CaseKey, c: Command)
    requires D.DatabaseOk(db) && D.Update(db, key, c).Committed?
    ensures key in D.Update(db, key, c).value.cases
    ensures SameCase(After(Load(key, db.cases[key]), c), Load(key, D.Update(db, key, c).value.cases[key]))
  {
    var b, next := Load(key, db.cases[key]), D.Update(db, key, c).value;
    D.UpdateRoundTrip(db, key, c);
    KeptIsSame(After(b, c), Load(key, next.cases[key]), |b.approvals|, |b.attempts|, db.nextId);
  }
}
