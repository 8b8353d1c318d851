/** The repair pipeline's decisions: what each step's answer makes of the round. */
module RepairRun {
  import opened Kernel
  import opened AgentRun
  import opened UpkeepFacts
  import B = BumpModel

  /** A step before the agent ran that failed, and what was known at that moment:
      whether the round's context was done, the reason asked for, and whether the
      daemon was going down. */
  datatype Setup = Ready | FailedAt(step: string, cancelled: bool, reason: Option<RepairAbortReason>, shutdown: bool)

  /** Everything the steps answered. The reason is read twice, once to tell a
      shutdown from a stop and once for the outcome, and may be set in between. */
  datatype Answers = Answers(
    setup: Setup,
    shutdownBefore: bool, report: Report, shutdownAfter: bool,
    push: Push, reasonThen: Option<RepairAbortReason>, reasonLater: Option<RepairAbortReason>,
    markers: Markers, now: Time)

  /** Reasons are only ever set, and only to one of the vocabulary. */
  predicate ReasonsOk(a: Answers) {
    && (a.reasonThen.Some? ==> a.reasonLater.Some? && a.reasonThen.value != AbortUnset)
    && (a.reasonLater.Some? ==> a.reasonLater.value != AbortUnset)
    && (a.setup.FailedAt? && a.setup.reason.Some? ==> a.setup.reason.value != AbortUnset)
  }

  function Ended(kind: RepairOutcomeKind, summary: string, u: Usage, now: Time): RepairOutcome {
    RepairOutcome(kind, now, u, summary, "", LimitUnset, FailureUnset, "", AbortUnset)
  }

  function FailedRound(failureClass: FailureClass, message: string, u: Usage, now: Time): RepairOutcome {
    Ended(RepairFailed, message, u, now).(failureClass := failureClass, message := message)
  }

  const NO_USAGE := Usage(0, 0, 0, 0, 0)

  /** The daemon was going down, the run was cut short or never began, and nobody
      had asked for this round to stop. */
  predicate ShutDown(a: Answers) {
    if a.setup.FailedAt? then a.setup.cancelled && a.setup.reason.None? && a.setup.shutdown
    else (a.shutdownBefore || (a.report.stop == StopCancelled && a.shutdownAfter)) && a.reasonThen.None?
  }

  /** The agent ran and its branch reached the remote. */
  predicate Landed(a: Answers) {
    a.setup.Ready? && !ShutDown(a) && a.push.pushed
  }

  /** Why a round failed: the machinery, the model, or the agent's own work. */
  function Blame(a: Answers): FailureClass {
    if !Landed(a) then FailureInfra
    else if a.report.stop == StopModelErr then FailureModel
    else if a.markers == Marked then FailureAgent
    else FailureInfra
  }

  /** The round's outcome, or none when the daemon shut down under it. */
  method Execute(baseSha: Sha, a: Answers) returns (o: Option<RepairOutcome>)
    requires ReasonsOk(a)
    ensures o.None? <==> ShutDown(a)
    ensures o.Some? ==> ValidOutcome(o.value) && o.value.endedAt == a.now
    ensures o.Some? && a.setup.Ready? ==> o.value.usage == a.report.usage
    ensures o.Some? && a.setup.FailedAt? ==> o.value.usage == Usage(0, 0, 0, 0, 0)
    ensures o.Some? && a.setup.Ready? && o.value.kind != RepairFailed ==> o.value.summary == SummaryOf(a.report)
    ensures o.Some? && o.value.kind == RepairFailed ==> o.value.summary == o.value.message
    ensures o.Some? && o.value.kind == Pushed <==>
      Landed(a) && a.report.stop == StopNone && a.push.head != baseSha && a.markers == Clean
    ensures o.Some? && o.value.kind == Pushed ==> o.value.headSha == a.push.head
    ensures o.Some? && o.value.kind == NoChange <==> Landed(a) && a.report.stop == StopNone && a.push.head == baseSha
    ensures o.Some? && o.value.kind == BudgetExhausted <==> Landed(a) && a.report.stop in {StopTurns, StopWallClock, StopDiffLines}
    ensures o.Some? && o.value.kind == BudgetExhausted ==> LimitNamed(a.report.stop, o.value.limit)
    ensures o.Some? && o.value.kind == RepairAborted <==>
      (a.setup.FailedAt? && a.setup.cancelled && a.setup.reason.Some?) || (Landed(a) && a.report.stop == StopCancelled)
    ensures o.Some? && o.value.kind == RepairAborted ==>
      o.value.reason == if a.setup.FailedAt? then a.setup.reason.value else if a.reasonLater.Some? then a.reasonLater.value else AbortOperatorStop
    ensures o.Some? && o.value.kind == RepairFailed ==> o.value.failureClass == Blame(a)
  {
    if a.setup.FailedAt? {
      if a.setup.cancelled {
        if a.setup.reason.Some? {
          return Some(Ended(RepairAborted, "The round was stopped during " + a.setup.step, NO_USAGE, a.now).(reason := a.setup.reason.value));
        }
        if a.setup.shutdown { return None; }
      }
      return Some(FailedRound(FailureInfra, InfraMessage(a.setup.step, ""), NO_USAGE, a.now));
    }
    var callerDone := a.shutdownBefore;
    if a.report.stop == StopCancelled {
      callerDone := callerDone || a.shutdownAfter;
    }
    var summary := SummaryOf(a.report);
    if callerDone && a.reasonThen.None? { return None; }
    if !a.push.pushed {
      return Some(FailedRound(FailureInfra, InfraMessage("push", summary), a.report.usage, a.now));
    }
    match a.report.stop {
      case StopModelErr =>
        return Some(FailedRound(FailureModel, "model failure\n\n" + summary, a.report.usage, a.now));
      case StopCancelled =>
        var reason := if a.reasonLater.Some? then a.reasonLater.value else AbortOperatorStop;
        return Some(Ended(RepairAborted, summary, a.report.usage, a.now).(reason := reason));
      case StopNone =>
      case _ =>
        return Some(Ended(BudgetExhausted, summary, a.report.usage, a.now).(limit := a.report.stop.Limit()));
    }
    if a.push.head == baseSha {
      return Some(Ended(NoChange, summary, a.report.usage, a.now));
    }
    match a.markers {
      case Unreadable =>
        return Some(FailedRound(FailureInfra, InfraMessage("conflict check", summary), a.report.usage, a.now));
      case Marked =>
        return Some(FailedRound(FailureAgent, "left unresolved conflict markers\n\n" + summary, a.report.usage, a.now));
      case Clean =>
        return Some(Ended(Pushed, summary, a.report.usage, a.now).(headSha := a.push.head));
    }
  }

  // ----- The outcome meets the bump -----

  lemma {:induction false} ClosedIsFinal(b: B.Bump, cmds: seq<B.Command>)
    requires b.state == Closed
    ensures B.Exec(b, cmds).state == Closed
    decreases |cmds|
  {
    if cmds != [] {
      StaysClosed(b, cmds[0]);
      ClosedIsFinal(B.After(b, cmds[0]), cmds[1..]);
    }
  }

  lemma StaysClosed(b: B.Bump, c: B.Command)
    requires b.state == Closed
    ensures B.After(b, c).state == Closed
  {}

  ghost predicate OpenOn(b: B.Bump, repairId: Id, baseSha: Sha) {
    && B.FirstOpen(b.attempts) < |b.attempts|
    && b.attempts[B.FirstOpen(b.attempts)].id == repairId
    && b.attempts[B.FirstOpen(b.attempts)].baseSha == baseSha
  }

  /** What execute returns is taken by the round it ran for, whatever has happened
      to the bump meanwhile, as long as that round is still open. The closing
      reason is only asked for on a bump already closed, and closed is final. */
  lemma OutcomeIsTaken(seen: B.Bump, cmds: seq<B.Command>, repairId: Id, baseSha: Sha, o: RepairOutcome, maxRounds: int)
    requires OpenOn(B.Exec(seen, cmds), repairId, baseSha)
    requires ValidOutcome(o) && (o.kind == Pushed ==> o.headSha != baseSha)
    requires o.kind == RepairAborted && o.reason == AbortPullRequestClosed ==> seen.state == Closed
    ensures B.StepOutcome(B.Clean(B.Exec(seen, cmds)), repairId, o, maxRounds).Ok?
  {
    if o.kind == RepairAborted && o.reason == AbortPullRequestClosed {
      ClosedIsFinal(seen, cmds);
    }
  }
}
