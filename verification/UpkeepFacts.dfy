/** The facts a bump owns and the closed vocabularies they use. */
module UpkeepFacts {
  import opened Kernel

  datatype BumpState = AwaitingChecks | Queued | Repairing | Green | Abandoned | Closed

  datatype CheckConclusion = CheckSuccess | CheckFailure | ConclusionUnset

  datatype RepairOutcomeKind = Pushed | NoChange | BudgetExhausted | RepairFailed | RepairAborted | OutcomeKindUnset

  datatype RepairAbortReason = AbortOperatorStop | AbortDaemonRestart | AbortPullRequestClosed | AbortUnset

  datatype AbandonReason =
    | AbandonRoundsExhausted
    | AbandonBudgetExhausted
    | AbandonRepairFailed
    | AbandonNoChange
    | AbandonChecksNeverConcluded
    | AbandonOperatorStop
    | AbandonRestartFailed
    | AbandonUnset

  datatype ClosureKind = Merged | Discarded | ClosureUnset

  datatype BumpCause =
    | CauseVerdictSuccess
    | CauseVerdictFailure
    | CauseVerdictFailureCapReached
    | CauseChecksNeverConcluded
    | CauseRepairStarted
    | CauseRepairPushed
    | CauseRepairNoChange
    | CauseRepairBudgetExhausted
    | CauseRepairFailedInfraRequeued
    | CauseRepairRequeueCapped
    | CauseRepairFailedAbandoned
    | CauseRepairAbortedOperatorStop
    | CauseRepairAbortedRestartRequeue
    | CauseRepairAbortedRestartAbandon
    | CauseHeadAdvanced
    | CauseOperatorRetry
    | CauseBumpClosed

  /** The conclusive rollup for one head. */
  datatype CheckVerdict = CheckVerdict(
    id: Id, headSha: Sha, conclusion: CheckConclusion, failingContexts: string, detailsUrl: string, concludedAt: Time)

  /** How a round ended. The kind says which of the last five fields mean anything. */
  datatype RepairOutcome = RepairOutcome(
    kind: RepairOutcomeKind, endedAt: Time, usage: Usage, summary: string,
    headSha: Sha, limit: Limit, failureClass: FailureClass, message: string, reason: RepairAbortReason)

  /** One budgeted round on dependabot's branch. */
  datatype RepairAttempt = RepairAttempt(
    id: Id, round: nat, baseSha: Sha, budget: Budget, brief: string, startedAt: Time,
    run: Option<Run>, outcome: Option<RepairOutcome>)
  {
    predicate Open() {
      outcome.None?
    }

    predicate Restarted() {
      outcome.Some? && outcome.value.kind == RepairAborted && outcome.value.reason == AbortDaemonRestart
    }
  }

  datatype BumpAbandonment = BumpAbandonment(reason: AbandonReason, detail: string, abandonedAt: Time)

  datatype BumpClosure = BumpClosure(kind: ClosureKind, deliveryId: string, closedAt: Time)

  datatype BumpTransition = BumpTransition(from: BumpState, to: BumpState, cause: BumpCause, occurredAt: Time)

  function ReasonText(r: AbandonReason): (s: string)
    ensures s != ""
  {
    match r
    case AbandonRoundsExhausted => "rounds_exhausted"
    case AbandonBudgetExhausted => "budget_exhausted"
    case AbandonRepairFailed => "repair_failed"
    case AbandonNoChange => "no_change"
    case AbandonChecksNeverConcluded => "checks_never_concluded"
    case AbandonOperatorStop => "operator_stop"
    case AbandonRestartFailed => "restart_failed"
    case AbandonUnset => "unset"
  }

  /** The shape a verdict must have whatever the bump's state: failing contexts
      are named exactly for a failure. */
  predicate ValidVerdict(v: CheckVerdict) {
    && v.conclusion != ConclusionUnset
    && ValidSha(v.headSha)
    && (v.conclusion == CheckSuccess <==> v.failingContexts == "")
  }

  /** The common fields and the variant ones the kind says are meaningful. */
  predicate ValidOutcome(o: RepairOutcome) {
    && o.kind != OutcomeKindUnset
    && o.summary != ""
    && (o.kind == Pushed ==> ValidSha(o.headSha))
    && (o.kind == BudgetExhausted ==> o.limit != LimitUnset)
    && (o.kind == RepairFailed ==> o.failureClass != FailureUnset && o.message != "")
    && (o.kind == RepairAborted ==> o.reason != AbortUnset)
  }
}
