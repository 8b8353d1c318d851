/** The case aggregate as a value and its commands as functions. The class in
    CaseAggregate is proved against these functions. */
module CaseModel {
  import opened Kernel
  import opened CaseFacts

  datatype CaseKey = CaseKey(repository: string, number: int)

  datatype Case = Case(
    id: Id,
    key: CaseKey,
    requester: Requester,
    state: CaseState,
    receivedAt: Time,
    triage: Option<Triage>,
    approvals: seq<Approval>,
    attempts: seq<Attempt>,
    transitions: seq<Transition>,
    closure: Option<Closure>)

  /** What happened since the case was loaded. Runs and outcomes are keyed by
      attempt ordinal. */
  datatype Changes = Changes(
    triage: Option<Triage>,
    approvals: seq<Approval>,
    attempts: seq<Attempt>,
    runs: map<nat, Run>,
    outcomes: map<nat, Outcome>,
    closure: Option<Closure>,
    transitions: seq<Transition>,
    state: CaseState)

  datatype Tracked = Tracked(subject: Case, changes: Changes)

  function NoChanges(c: Case): Changes {
    Changes(None, [], [], map[], map[], None, [], c.state)
  }

  function Clean(c: Case): Tracked {
    Tracked(c, NoChanges(c))
  }

  datatype Command =
    | RecordTriage(triage: Triage)
    | RecordApproval(approval: Approval)
    | StartAttempt(kind: AttemptKind, budget: Budget, brief: string, at: Time)
    | RecordRun(attemptId: Id, run: Run)
    | RecordOutcome(attemptId: Id, outcome: Outcome)
    | Close(closure: Closure)

  // ----- Derived facts -----

  function CountCause(log: seq<Transition>, cause: Cause): nat {
    if log == [] then 0
    else CountCause(log[..|log| - 1], cause) + if log[|log| - 1].cause == cause then 1 else 0
  }

  function FirstOpen(attempts: seq<Attempt>): (i: nat)
    ensures i <= |attempts|
    ensures i < |attempts| ==> attempts[i].Open()
    ensures forall j | 0 <= j < i :: !attempts[j].Open()
  {
    if attempts == [] || attempts[0].Open() then 0 else 1 + FirstOpen(attempts[1..])
  }

  predicate RestartedBefore(attempts: seq<Attempt>, ordinal: nat) {
    exists i | 0 <= i < |attempts| :: attempts[i].ordinal < ordinal && attempts[i].Restarted()
  }

  /** Approved when an approval is no older than the latest attempt's start, or
      when there is an approval and no attempt. */
  function NextAttemptKind(c: Case): AttemptKind {
    if c.approvals == [] then Auto
    else if c.attempts == [] then Approved
    else if exists i | 0 <= i < |c.approvals| :: c.approvals[i].approvedAt >= c.attempts[|c.attempts| - 1].startedAt then Approved
    else Auto
  }

  function Target(c: Case, attemptId: Id): Result<nat> {
    var i := FirstOpen(c.attempts);
    if i == |c.attempts| then Err(Refused)
    else if attemptId != 0 && c.attempts[i].id != 0 && c.attempts[i].id != attemptId then Err(Refused)
    else Ok(i)
  }

  // ----- Commands -----

  function Move(t: Tracked, to: CaseState, cause: Cause, at: Time): Tracked {
    var tr := Transition(t.subject.state, to, cause, at);
    Tracked(
      t.subject.(state := to, transitions := t.subject.transitions + [tr]),
      t.changes.(transitions := t.changes.transitions + [tr], state := to))
  }

  function StepTriage(t: Tracked, v: Triage): Result<Tracked> {
    if v.size == SizeUnset || v.rationale == "" || v.model == "" then Err(Invalid)
    else if t.subject.state != Received then Err(Refused)
    else if t.subject.triage.Some? then Err(Refused)
    else
      var u := Tracked(t.subject.(triage := Some(v)), t.changes.(triage := Some(v)));
      Ok(if v.size == Small then Move(u, Queued, CauseTriageSmall, v.triagedAt)
         else Move(u, AwaitingApproval, CauseTriageLarge, v.triagedAt))
  }

  predicate ValidApproval(a: Approval) {
    a.approver.login != "" && a.source != SourceUnset && (a.source == SourceLabel <==> a.deliveryId != "")
  }

  function StepApproval(t: Tracked, a: Approval): Result<Tracked> {
    if !ValidApproval(a) then Err(Invalid)
    else if t.subject.state.Terminal() then Err(Refused)
    else
      var u := Tracked(t.subject.(approvals := t.subject.approvals + [a]), t.changes.(approvals := t.changes.approvals + [a]));
      Ok(if t.subject.state in {Gated, AwaitingApproval, Failed} then Move(u, Queued, CauseApproval, a.approvedAt) else u)
  }

  function NextAttempt(c: Case, kind: AttemptKind, budget: Budget, brief: string, at: Time): Attempt {
    Attempt(0, |c.attempts| + 1, kind, budget, brief, at, None, None)
  }

  function StepStart(t: Tracked, kind: AttemptKind, budget: Budget, brief: string, at: Time): Result<Tracked> {
    if kind == KindUnset || budget.maxTurns == 0 || brief == "" then Err(Invalid)
    else if t.subject.state != Queued then Err(Refused)
    else if FirstOpen(t.subject.attempts) < |t.subject.attempts| then Err(Refused)
    else
      var a := NextAttempt(t.subject, kind, budget, brief, at);
      var u := Tracked(t.subject.(attempts := t.subject.attempts + [a]), t.changes.(attempts := t.changes.attempts + [a]));
      Ok(Move(u, Attempting, CauseAttemptStarted, at))
  }

  function StepRun(t: Tracked, attemptId: Id, r: Run): Result<Tracked> {
    if !ValidRun(r) then Err(Invalid)
    else
      match Target(t.subject, attemptId)
      case Err(e) => Err(e)
      case Ok(i) =>
        var a := t.subject.attempts[i];
        if a.run.Some? then Err(Refused)
        else
          Ok(Tracked(
            t.subject.(attempts := t.subject.attempts[i := a.(run := Some(r))]),
            t.changes.(runs := t.changes.runs[a.ordinal := r])))
  }

  datatype Ending = Ending(to: CaseState, cause: Cause)

  /** Where an outcome takes a case that is not closed; None for an abort only a
      closed case takes. */
  function OutcomeMove(c: Case, ordinal: nat, o: Outcome): Option<Ending> {
    match o.kind
    case PullRequestOpened => Some(Ending(Done, CausePullRequestOpened))
    case BudgetExhausted => Some(Ending(AwaitingApproval, CauseBudgetExhausted))
    case FailedOutcome => Some(Ending(Failed, CauseFailed))
    case _ =>
      match o.reason
      case AbortOperatorStop => Some(Ending(AwaitingApproval, CauseOperatorStop))
      case AbortDaemonRestart =>
        if RestartedBefore(c.attempts, ordinal) then Some(Ending(Failed, CauseRestartFailed))
        else Some(Ending(Queued, CauseRestartRequeue))
      case _ => None
  }

  function EndAttempt(t: Tracked, i: nat, o: Outcome): Tracked
    requires i < |t.subject.attempts|
  {
    var a := t.subject.attempts[i];
    Tracked(
      t.subject.(attempts := t.subject.attempts[i := a.(outcome := Some(o))]),
      t.changes.(outcomes := t.changes.outcomes[a.ordinal := o]))
  }

  function StepOutcome(t: Tracked, attemptId: Id, o: Outcome): Result<Tracked> {
    if o.kind == OutcomeKindUnset || o.summary == "" then Err(Invalid)
    else
      match Target(t.subject, attemptId)
      case Err(e) => Err(e)
      case Ok(i) =>
        if t.subject.state == Closed then Ok(EndAttempt(t, i, o))
        else
          match OutcomeMove(t.subject, t.subject.attempts[i].ordinal, o)
          case None => Err(Refused)
          case Some(e) => Ok(Move(EndAttempt(t, i, o), e.to, e.cause, o.endedAt))
  }

  function StepClose(t: Tracked, cl: Closure): Result<Tracked> {
    if cl.deliveryId == "" then Err(Invalid)
    else if t.subject.state.Terminal() then Err(Refused)
    else
      var u := Tracked(t.subject.(closure := Some(cl)), t.changes.(closure := Some(cl)));
      Ok(Move(u, Closed, CauseClosed, cl.closedAt))
  }

  function Step(t: Tracked, c: Command): Result<Tracked> {
    match c
    case RecordTriage(v) => StepTriage(t, v)
    case RecordApproval(a) => StepApproval(t, a)
    case StartAttempt(kind, budget, brief, at) => StepStart(t, kind, budget, brief, at)
    case RecordRun(attemptId, r) => StepRun(t, attemptId, r)
    case RecordOutcome(attemptId, o) => StepOutcome(t, attemptId, o)
    case Close(cl) => StepClose(t, cl)
  }

  // ----- Runs -----

  /** A refused command leaves the case as it found it. */
  function After(c: Case, cmd: Command): Case {
    match Step(Clean(c), cmd)
    case Ok(t) => t.subject
    case Err(_) => c
  }

  function Exec(c: Case, cmds: seq<Command>): Case
    decreases |cmds|
  {
    if cmds == [] then c else Exec(After(c, cmds[0]), cmds[1..])
  }

  function InitialState(trust: Trust): CaseState {
    if trust == Trusted then Received else Gated
  }

  /** The only way a case begins. */
  function NewCase(key: CaseKey, requester: Requester, receivedAt: Time): Result<Case> {
    if key.repository == "" || key.number < 1 || requester.login == "" then Err(Invalid)
    else Ok(Case(0, key, requester, InitialState(requester.trust), receivedAt, None, [], [], [], None))
  }
}
