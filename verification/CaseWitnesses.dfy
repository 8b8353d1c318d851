/** Concrete runs of a case that meet the bounds exactly, and one the store tells
    otherwise than memory does. */
module CaseWitnesses {
  import opened Kernel
  import opened CaseFacts
  import opened CaseModel
  import opened CaseRuns
  import P = CasePersistence
  import D = CaseDatabase

  const AUTHOR := Requester("octocat", Owner, Trusted)
  const LIMITS: Budget := BudgetLimits(10, 1000, 100)
  const NO_USAGE := Usage(0, 0, 0, 0, 0)
  const RESTART := Ended(Aborted, "restarted", NO_USAGE, 3).(reason := AbortDaemonRestart)
  const SECOND := Ended(Aborted, "restarted", NO_USAGE, 6).(reason := AbortDaemonRestart)
  const APPROVAL := Approval(0, AUTHOR, SourceOperator, 1, "")

  function Start(): Case {
    Case(0, CaseKey("o/r", 7), AUTHOR, Received, 0, None, [], [], [], None)
  }

  function Triaged(): Case {
    After(Start(), RecordTriage(Triage(Small, "one file", "m", 1)))
  }

  function Running(): Case {
    After(After(Triaged(), RecordApproval(APPROVAL)), StartAttempt(Auto, LIMITS, "b", 2))
  }

  function Requeued(): Case {
    After(Running(), RecordOutcome(0, RESTART))
  }

  function Failing(): Case {
    After(After(Requeued(), StartAttempt(Auto, LIMITS, "b", 5)), RecordOutcome(0, SECOND))
  }

  lemma RunningRuns()
    ensures var c := Running();
      && c.state == Attempting && |c.attempts| == 1 && FirstOpen(c.attempts) == 0 && c.approvals == [APPROVAL]
      && c.attempts[0].startedAt == 2 && c.attempts[0].ordinal == 1 && c.attempts[0].id == 0
  {
    assert Triaged().state == Queued && Triaged().approvals == [];
  }

  lemma RequeuedRuns()
    ensures var c := Requeued();
      && c.state == Queued && |c.attempts| == 1 && c.approvals == [APPROVAL]
      && c.attempts[0].startedAt == 2 && c.attempts[0].ordinal == 1 && c.attempts[0].Restarted()
  {
    RunningRuns();
  }

  lemma FailingRuns(c: Case)
    requires c.state == Queued && |c.attempts| == 1 && c.attempts[0].ordinal == 1 && c.attempts[0].Restarted()
    ensures var u := After(After(c, StartAttempt(Auto, LIMITS, "b", 5)), RecordOutcome(0, SECOND));
      u.state == Failed && |u.attempts| == 2
  {
    var again := After(c, StartAttempt(Auto, LIMITS, "b", 5));
    assert again.state == Attempting && |again.attempts| == 2;
    assert again.attempts[0].Restarted() && again.attempts[0].ordinal < again.attempts[1].ordinal;
    assert FirstOpen(again.attempts) == 1;
  }

  /** A small case restarted once runs again as auto although it was approved
      before its first attempt, and a second restart fails it. */
  lemma SecondRestartFails()
    ensures Requeued().state == Queued && NextAttemptKind(Requeued()) == Auto && |Requeued().approvals| == 1
    ensures Failing().state == Failed && |Failing().attempts| == 2
  {
    RequeuedRuns();
    FailingRuns(Requeued());
  }

  /** Without the approval the same run still has two attempts: one for the
      triage and one for the restart. */
  lemma AttemptBoundIsTight()
    ensures var c := After(After(After(Triaged(), StartAttempt(Auto, LIMITS, "b", 2)), RecordOutcome(0, RESTART)), StartAttempt(Auto, LIMITS, "b", 5));
      |c.attempts| == AttemptsAllowed(c)
  {
    assert Triaged().state == Queued && Triaged().attempts == [];
    var first := After(Triaged(), StartAttempt(Auto, LIMITS, "b", 2));
    assert first.state == Attempting && |first.attempts| == 1 && FirstOpen(first.attempts) == 0;
    var again := After(first, RecordOutcome(0, RESTART));
    assert again.state == Queued && |again.attempts| == 1;
  }

  const APPROVED_AT := 5_000
  const STARTED_AT := 5_500

  /** Approved, started half a microsecond later, and requeued by a restart. */
  function RestartedAtOnce(): Case {
    var approved := After(Triaged(), RecordApproval(APPROVAL.(approvedAt := APPROVED_AT)));
    After(After(approved, StartAttempt(Approved, LIMITS, "b", STARTED_AT)), RecordOutcome(0, RESTART))
  }

  lemma RestartedAtOnceRuns()
    ensures var c := RestartedAtOnce();
      && c.state == Queued && |c.attempts| == 1 && |c.approvals| == 1
      && c.attempts[0].startedAt == STARTED_AT && c.attempts[0].budget == LIMITS && c.approvals[0].approvedAt == APPROVED_AT
  {
    var approved := After(Triaged(), RecordApproval(APPROVAL.(approvedAt := APPROVED_AT)));
    assert Triaged().state == Queued && Triaged().approvals == [] && Triaged().attempts == [];
    var running := After(approved, StartAttempt(Approved, LIMITS, "b", STARTED_AT));
    assert running.state == Attempting && |running.attempts| == 1 && FirstOpen(running.attempts) == 0;
    assert running.attempts[0].id == 0 && running.attempts[0].ordinal == 1;
  }

  lemma HalfAMicrosecondApart(c: Case)
    requires |c.attempts| == 1 && |c.approvals| == 1
    requires c.attempts[0].startedAt == STARTED_AT && c.attempts[0].budget == LIMITS && c.approvals[0].approvedAt == APPROVED_AT
    ensures NextAttemptKind(c) == Auto && D.SharesMicrosecond(c) && P.BudgetsStorable(c.attempts)
  {
    assert c.approvals[0].approvedAt < c.attempts[0].startedAt;
    assert StoredTime(c.approvals[0].approvedAt) == StoredTime(c.attempts[0].startedAt);
  }

  /** In memory this case runs on as auto, the approval having bought the attempt
      that was cut off; however it is loaded again, it runs as approved. */
  lemma StoredApprovalBuysAnother(id: Id)
    ensures var c := RestartedAtOnce();
      && c.state == Queued && NextAttemptKind(c) == Auto && P.BudgetsStorable(c.attempts)
      && forall loaded | P.SameUpToApprovalOrder(loaded, P.Kept(c, 0, 0, id)) :: NextAttemptKind(loaded) == Approved
  {
    RestartedAtOnceRuns();
    var c := RestartedAtOnce();
    HalfAMicrosecondApart(c);
    forall loaded | P.SameUpToApprovalOrder(loaded, P.Kept(c, 0, 0, id)) ensures NextAttemptKind(loaded) == Approved {
      D.KindAfterReload(c, loaded, 0, 0, id);
    }
  }
}
