/** The facts a case owns and their closed vocabularies. Every string outside a
    vocabulary is the one value marked Unset. */
module CaseFacts {
  import opened Kernel

  datatype CaseState = Received | Gated | Queued | Attempting | AwaitingApproval | Failed | Done | Closed
  {
    predicate Terminal() {
      this == Done || this == Closed
    }
  }

  datatype Trust = Trusted | Untrusted

  datatype Association =
    | Owner | Member | Collaborator | Contributor | FirstTimeContributor | FirstTimer | Mannequin | NoAssociation | AssociationUnset

  datatype Size = Small | Large | SizeUnset

  datatype AttemptKind = Auto | Approved | KindUnset

  datatype OutcomeKind = PullRequestOpened | BudgetExhausted | FailedOutcome | Aborted | OutcomeKindUnset

  datatype AbortReason = AbortIssueClosed | AbortOperatorStop | AbortDaemonRestart | AbortUnset

  datatype ApprovalSource = SourceLabel | SourceOperator | SourceUnset

  datatype Cause =
    | CauseTriageSmall | CauseTriageLarge | CauseApproval | CauseAttemptStarted
    | CausePullRequestOpened | CauseBudgetExhausted | CauseFailed | CauseOperatorStop
    | CauseRestartRequeue | CauseRestartFailed | CauseClosed

  datatype Requester = Requester(login: string, association: Association, trust: Trust)

  /** Trust is computed once, from the association alone. */
  function NewRequester(login: string, association: Association): Result<Requester> {
    if login == "" || association == AssociationUnset then Err(Invalid)
    else Ok(Requester(login, association, if association in {Owner, Member, Collaborator} then Trusted else Untrusted))
  }

  datatype Triage = Triage(size: Size, rationale: string, model: string, triagedAt: Time)

  datatype Approval = Approval(id: Id, approver: Requester, source: ApprovalSource, approvedAt: Time, deliveryId: string)

  datatype Closure = Closure(deliveryId: string, closedAt: Time)

  datatype Transition = Transition(from: CaseState, to: CaseState, cause: Cause, occurredAt: Time)

  /** Kind says which of the last six fields mean anything; the pull request
      fields also accompany an exhaustion whose partial work was opened. */
  datatype Outcome = Outcome(
    kind: OutcomeKind, endedAt: Time, usage: Usage, summary: string,
    prNumber: int, headSha: Sha, limit: Limit, failureClass: FailureClass, message: string, reason: AbortReason)

  datatype Attempt = Attempt(
    id: Id, ordinal: nat, kind: AttemptKind, budget: Budget, brief: string, startedAt: Time,
    run: Option<Run>, outcome: Option<Outcome>)
  {
    predicate Open() {
      outcome.None?
    }

    predicate Restarted() {
      outcome.Some? && outcome.value.kind == Aborted && outcome.value.reason == AbortDaemonRestart
    }
  }

  // ----- The constructors every outcome comes from -----

  function Ended(kind: OutcomeKind, summary: string, u: Usage, at: Time): Outcome {
    Outcome(kind, at, u, summary, 0, "", LimitUnset, FailureUnset, "", AbortUnset)
  }

  function OutcomePullRequest(pr: int, headSha: Sha, summary: string, u: Usage, at: Time): Result<Outcome> {
    if pr < 1 || !ValidSha(headSha) || summary == "" then Err(Invalid)
    else Ok(Ended(PullRequestOpened, summary, u, at).(prNumber := pr, headSha := headSha))
  }

  function OutcomeExhausted(limit: Limit, summary: string, u: Usage, at: Time): Result<Outcome> {
    if limit == LimitUnset || summary == "" then Err(Invalid)
    else Ok(Ended(BudgetExhausted, summary, u, at).(limit := limit))
  }

  function OutcomeExhaustedWithPullRequest(limit: Limit, pr: int, headSha: Sha, summary: string, u: Usage, at: Time): Result<Outcome> {
    if limit == LimitUnset || pr < 1 || !ValidSha(headSha) || summary == "" then Err(Invalid)
    else Ok(Ended(BudgetExhausted, summary, u, at).(limit := limit, prNumber := pr, headSha := headSha))
  }

  function OutcomeFailed(failureClass: FailureClass, message: string, u: Usage, at: Time): Result<Outcome> {
    if failureClass == FailureUnset || message == "" then Err(Invalid)
    else Ok(Ended(FailedOutcome, message, u, at).(failureClass := failureClass, message := message))
  }

  function OutcomeAborted(reason: AbortReason, summary: string, u: Usage, at: Time): Result<Outcome> {
    if reason == AbortUnset || summary == "" then Err(Invalid)
    else Ok(Ended(Aborted, summary, u, at).(reason := reason))
  }

  /** What the constructors guarantee of the outcomes they build: the fields of
      the kind are filled in and every other field is empty. */
  predicate WellBuilt(o: Outcome) {
    && o.summary != ""
    && match o.kind
       case PullRequestOpened =>
         o.prNumber >= 1 && ValidSha(o.headSha) && o == Ended(o.kind, o.summary, o.usage, o.endedAt).(prNumber := o.prNumber, headSha := o.headSha)
       case BudgetExhausted =>
         && o.limit != LimitUnset
         && (if o.prNumber == 0 then o.headSha == "" else o.prNumber >= 1 && ValidSha(o.headSha))
         && o == Ended(o.kind, o.summary, o.usage, o.endedAt).(limit := o.limit, prNumber := o.prNumber, headSha := o.headSha)
       case FailedOutcome =>
         && o.failureClass != FailureUnset && o.message == o.summary
         && o == Ended(o.kind, o.summary, o.usage, o.endedAt).(failureClass := o.failureClass, message := o.message)
       case Aborted =>
         o.reason != AbortUnset && o == Ended(o.kind, o.summary, o.usage, o.endedAt).(reason := o.reason)
       case OutcomeKindUnset => false
  }

  /** An outcome some constructor returns. */
  ghost predicate Constructed(o: Outcome) {
    || OutcomePullRequest(o.prNumber, o.headSha, o.summary, o.usage, o.endedAt) == Ok(o)
    || OutcomeExhausted(o.limit, o.summary, o.usage, o.endedAt) == Ok(o)
    || OutcomeExhaustedWithPullRequest(o.limit, o.prNumber, o.headSha, o.summary, o.usage, o.endedAt) == Ok(o)
    || OutcomeFailed(o.failureClass, o.message, o.usage, o.endedAt) == Ok(o)
    || OutcomeAborted(o.reason, o.summary, o.usage, o.endedAt) == Ok(o)
  }

  /** Well built is exactly what the five constructors can return. */
  lemma WellBuiltExactlyConstructed(o: Outcome)
    ensures WellBuilt(o) <==> Constructed(o)
  {}
}
