/** The issue pipeline's decisions: what each step's answer makes of the attempt. */
module AttemptRun {
  import opened Kernel
  import opened AgentRun
  import opened CaseFacts
  import C = CaseModel
  import CI = CaseInvariant
  import CR = CaseRuns

  datatype Setup = Ready | FailedAt(step: string, cancelled: bool, reason: Option<AbortReason>, shutdown: bool)

  /** Everything the steps answered. `pullRequest` is the number GitHub gave for a
      new pull request or for the one already on the branch, if it gave any. */
  datatype Answers = Answers(
    setup: Setup,
    shutdownBefore: bool, report: Report, shutdownAfter: bool,
    push: Push, reasonThen: Option<AbortReason>, reasonLater: Option<AbortReason>,
    markers: Markers, pullRequest: Option<int>, now: Time)

  predicate ReasonsOk(a: Answers) {
    && (a.reasonThen.Some? ==> a.reasonLater.Some? && a.reasonThen.value != AbortUnset)
    && (a.reasonLater.Some? ==> a.reasonLater.value != AbortUnset)
    && (a.setup.FailedAt? && a.setup.reason.Some? ==> a.setup.reason.value != AbortUnset)
  }

  const NO_USAGE := Usage(0, 0, 0, 0, 0)

  predicate ShutDown(a: Answers) {
    if a.setup.FailedAt? then a.setup.cancelled && a.setup.reason.None? && a.setup.shutdown
    else (a.shutdownBefore || (a.report.stop == StopCancelled && a.shutdownAfter)) && a.reasonThen.None?
  }

  /** The branch is on the remote, past its base and free of conflict markers. */
  predicate Reviewable(baseSha: Sha, a: Answers) {
    a.push.pushed && a.push.head != baseSha && a.markers == Clean
  }

  function Failed(failureClass: FailureClass, message: string, u: Usage, now: Time): Outcome {
    Ended(FailedOutcome, message, u, now).(failureClass := failureClass, message := message)
  }

  /** What a constructor returned, or an infra failure saying it refused. */
  function Settled(r: Result<Outcome>, u: Usage, now: Time): Outcome {
    if r.Ok? then r.value else Failed(FailureInfra, "outcome refused", u, now)
  }

  /** The agent ran and its branch reached the remote. */
  predicate Landed(a: Answers) {
    a.setup.Ready? && !ShutDown(a) && a.push.pushed
  }

  /** Why an attempt failed: the machinery, the model, or the agent's own work. */
  function Blame(baseSha: Sha, a: Answers): FailureClass {
    if !Landed(a) then FailureInfra
    else if a.report.stop == StopModelErr then FailureModel
    else if a.report.stop == StopNone && (a.push.head == baseSha || a.markers == Marked) then FailureAgent
    else FailureInfra
  }

  /** A pull request the pipeline records goes with work that can be reviewed. */
  predicate PullRequestEarned(baseSha: Sha, a: Answers, o: Outcome) {
    o.prNumber != 0 ==>
      && a.setup.Ready? && Reviewable(baseSha, a)
      && a.pullRequest == Some(o.prNumber) && o.prNumber >= 1 && o.headSha == a.push.head
  }

  /** What becomes of a run whose branch is on the remote. */
  method Conclude(baseSha: Sha, a: Answers) returns (o: Outcome)
    requires Landed(a) && ReasonsOk(a)
    ensures WellBuilt(o) && PullRequestEarned(baseSha, a, o) && o.endedAt == a.now && o.usage == a.report.usage
    ensures o.kind != FailedOutcome ==> o.summary == SummaryOf(a.report)
    ensures o.kind == PullRequestOpened <==>
      Reviewable(baseSha, a) && a.report.stop == StopNone && a.pullRequest.Some? && a.pullRequest.value >= 1
    ensures o.kind == BudgetExhausted <==>
      a.report.stop in {StopTurns, StopWallClock, StopDiffLines} && !(Reviewable(baseSha, a) && a.pullRequest.Some? && a.pullRequest.value < 0)
    ensures o.kind == BudgetExhausted ==>
      && LimitNamed(a.report.stop, o.limit)
      && (o.prNumber != 0 <==> Reviewable(baseSha, a) && a.pullRequest.Some? && a.pullRequest.value != 0)
    ensures o.kind == Aborted <==> a.report.stop == StopCancelled
    ensures o.kind == Aborted ==> o.reason == if a.reasonLater.Some? then a.reasonLater.value else AbortOperatorStop
    ensures o.kind == FailedOutcome ==> o.failureClass == Blame(baseSha, a)
  {
    var summary, u := SummaryOf(a.report), a.report.usage;
    var head := a.push.head;
    match a.report.stop {
      case StopModelErr =>
        return Failed(FailureModel, "model failure\n\n" + summary, u, a.now);
      case StopCancelled =>
        var reason := if a.reasonLater.Some? then a.reasonLater.value else AbortOperatorStop;
        return Settled(OutcomeAborted(reason, summary, u, a.now), u, a.now);
      case StopNone =>
      case _ =>
        var pr := 0;
        if head != baseSha {
          if a.markers == Clean && a.pullRequest.Some? {
            pr := a.pullRequest.value;
          }
        }
        if pr != 0 {
          return Settled(OutcomeExhaustedWithPullRequest(a.report.stop.Limit(), pr, head, summary, u, a.now), u, a.now);
        }
        return Settled(OutcomeExhausted(a.report.stop.Limit(), summary, u, a.now), u, a.now);
    }
    if head == baseSha {
      return Failed(FailureAgent, summary, u, a.now);
    }
    match a.markers {
      case Unreadable => return Failed(FailureInfra, InfraMessage("conflict check", summary), u, a.now);
      case Marked => return Failed(FailureAgent, "left unresolved conflict markers\n\n" + summary, u, a.now);
      case Clean =>
    }
    if a.pullRequest.None? {
      return Failed(FailureInfra, InfraMessage("open pull request", summary), u, a.now);
    }
    return Settled(OutcomePullRequest(a.pullRequest.value, head, summary, u, a.now), u, a.now);
  }

  /** The attempt's outcome, or none when the daemon shut down under it. */
  method Execute(baseSha: Sha, a: Answers) returns (o: Option<Outcome>)
    requires ReasonsOk(a)
    ensures o.None? <==> ShutDown(a)
    ensures o.Some? ==> WellBuilt(o.value) && PullRequestEarned(baseSha, a, o.value) && o.value.endedAt == a.now
    ensures o.Some? && a.setup.Ready? ==> o.value.usage == a.report.usage
    ensures o.Some? && a.setup.FailedAt? ==> o.value.usage == Usage(0, 0, 0, 0, 0)
    ensures o.Some? && a.setup.Ready? && o.value.kind != FailedOutcome ==> o.value.summary == SummaryOf(a.report)
    ensures o.Some? && o.value.kind == PullRequestOpened <==>
      Landed(a) && Reviewable(baseSha, a) && a.report.stop == StopNone && a.pullRequest.Some? && a.pullRequest.value >= 1
    ensures o.Some? && o.value.kind == BudgetExhausted <==>
      Landed(a) && a.report.stop in {StopTurns, StopWallClock, StopDiffLines} && !(Reviewable(baseSha, a) && a.pullRequest.Some? && a.pullRequest.value < 0)
    ensures o.Some? && o.value.kind == BudgetExhausted ==>
      && LimitNamed(a.report.stop, o.value.limit)
      && (o.value.prNumber != 0 <==> Reviewable(baseSha, a) && a.pullRequest.Some? && a.pullRequest.value != 0)
    ensures o.Some? && o.value.kind == Aborted <==>
      (a.setup.FailedAt? && a.setup.cancelled && a.setup.reason.Some?) || (Landed(a) && a.report.stop == StopCancelled)
    ensures o.Some? && o.value.kind == Aborted ==>
      o.value.reason == if a.setup.FailedAt? then a.setup.reason.value else if a.reasonLater.Some? then a.reasonLater.value else AbortOperatorStop
    ensures o.Some? && o.value.kind == FailedOutcome ==> o.value.failureClass == Blame(baseSha, a)
  {
    if a.setup.FailedAt? {
      if a.setup.cancelled {
        if a.setup.reason.Some? {
          return Some(Settled(OutcomeAborted(a.setup.reason.value, "The attempt was stopped during " + a.setup.step, NO_USAGE, a.now), NO_USAGE, a.now));
        }
        if a.setup.shutdown { return None; }
      }
      return Some(Failed(FailureInfra, InfraMessage(a.setup.step, ""), NO_USAGE, a.now));
    }
    var callerDone := a.shutdownBefore;
    if a.report.stop == StopCancelled {
      callerDone := callerDone || a.shutdownAfter;
    }
    if callerDone && a.reasonThen.None? { return None; }
    if !a.push.pushed {
      return Some(Failed(FailureInfra, InfraMessage("push", SummaryOf(a.report)), a.report.usage, a.now));
    }
    var concluded := Conclude(baseSha, a);
    return Some(concluded);
  }

  // ----- The outcome meets the case -----

  lemma TakenOn(c: C.Case, attemptId: Id, o: Outcome)
    requires CI.Inv(c) && WellBuilt(o) && CI.AnyOpen(c.attempts) && attemptId == c.attempts[|c.attempts| - 1].id
    requires o.kind == Aborted && o.reason == AbortIssueClosed ==> c.state == Closed
    ensures C.StepOutcome(C.Clean(c), attemptId, o).Ok?
  {
    assert C.FirstOpen(c.attempts) == |c.attempts| - 1;
  }

  lemma StaysClosed(seen: C.Case, cmds: seq<C.Command>)
    requires CI.Inv(seen)
    ensures CI.Inv(C.Exec(seen, cmds)) && (seen.state == Closed ==> C.Exec(seen, cmds).state == Closed)
  {
    CI.ReachableInv(seen, cmds);
    if seen.state == Closed { CR.TerminalIsFinal(seen, cmds); }
  }

  /** What execute returns is taken by the attempt it ran for, as long as it is
      still open: the closing reason is only asked for on a case already closed,
      and closed is final. */
  lemma OutcomeIsTaken(seen: C.Case, cmds: seq<C.Command>, attemptId: Id, o: Outcome)
    requires CI.Inv(seen) && WellBuilt(o)
    requires CI.AnyOpen(C.Exec(seen, cmds).attempts)
    requires attemptId == C.Exec(seen, cmds).attempts[|C.Exec(seen, cmds).attempts| - 1].id
    requires o.kind == Aborted && o.reason == AbortIssueClosed ==> seen.state == Closed
    ensures C.StepOutcome(C.Clean(C.Exec(seen, cmds)), attemptId, o).Ok?
  {
    StaysClosed(seen, cmds);
    TakenOn(C.Exec(seen, cmds), attemptId, o);
  }
}
