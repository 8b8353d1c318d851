/** The bump aggregate as a value and its commands as functions. The class in
    BumpAggregate is proved against these functions; everything said about
    whole runs is said about them. */
module BumpModel {
  import opened Kernel
  import opened UpkeepFacts

  datatype BumpKey = BumpKey(repository: string, number: int)

  datatype Bump = Bump(
    id: Id,
    key: BumpKey,
    branch: string,
    baseBranch: string,
    openedAt: Time,
    headSha: Sha,
    state: BumpState,
    verdicts: seq<CheckVerdict>,
    attempts: seq<RepairAttempt>,
    transitions: seq<BumpTransition>,
    abandonment: Option<BumpAbandonment>,
    closure: Option<BumpClosure>)

  /** What happened since the bump was loaded. Runs and outcomes are keyed by round. */
  datatype Changes = Changes(
    verdicts: seq<CheckVerdict>,
    attempts: seq<RepairAttempt>,
    runs: map<nat, Run>,
    outcomes: map<nat, RepairOutcome>,
    abandonment: Option<BumpAbandonment>,
    dropAbandon: bool,
    closure: Option<BumpClosure>,
    transitions: seq<BumpTransition>,
    headSha: Sha,
    state: BumpState)

  /** A bump together with its change set. */
  datatype Tracked = Tracked(bump: Bump, changes: Changes)

  function NoChanges(b: Bump): Changes {
    Changes([], [], map[], map[], None, false, None, [], b.headSha, b.state)
  }

  /** A bump as the store hands it out: nothing changed yet. */
  function Clean(b: Bump): Tracked {
    Tracked(b, NoChanges(b))
  }

  datatype Command =
    | RecordVerdict(verdict: CheckVerdict, maxRounds: int)
    | AdvanceHead(sha: Sha, at: Time)
    | StartRepair(budget: Budget, brief: string, at: Time, maxRounds: int)
    | RecordRun(attemptId: Id, run: Run)
    | RecordOutcome(attemptId: Id, outcome: RepairOutcome, maxRounds: int)
    | Abandon(abandonment: BumpAbandonment)
    | Retry(at: Time)
    | Close(closure: BumpClosure)

  // ----- Derived facts -----

  function Rounds(b: Bump): nat {
    |b.attempts|
  }

  function CountCause(log: seq<BumpTransition>, cause: BumpCause): nat {
    if log == [] then 0
    else CountCause(log[..|log| - 1], cause) + if log[|log| - 1].cause == cause then 1 else 0
  }

  /** The configured cap plus one round per operator retry in the log. */
  function Cap(b: Bump, maxRounds: int): int {
    maxRounds + CountCause(b.transitions, CauseOperatorRetry)
  }

  function FirstOpen(rounds: seq<RepairAttempt>): (i: nat)
    ensures i <= |rounds|
    ensures i < |rounds| ==> rounds[i].Open()
    ensures forall j | 0 <= j < i :: !rounds[j].Open()
  {
    if rounds == [] || rounds[0].Open() then 0 else 1 + FirstOpen(rounds[1..])
  }

  function FindVerdict(verdicts: seq<CheckVerdict>, sha: Sha): Option<CheckVerdict> {
    if verdicts == [] then None
    else if verdicts[0].headSha == sha then Some(verdicts[0])
    else FindVerdict(verdicts[1..], sha)
  }

  function CurrentVerdict(b: Bump): Option<CheckVerdict> {
    FindVerdict(b.verdicts, b.headSha)
  }

  predicate RestartedBefore(rounds: seq<RepairAttempt>, round: nat) {
    exists i | 0 <= i < |rounds| :: rounds[i].round < round && rounds[i].Restarted()
  }

  /** The open round a command names, when the ids known on both sides agree. */
  function Target(b: Bump, attemptId: Id): Result<nat> {
    var i := FirstOpen(b.attempts);
    if i == |b.attempts| then Err(Refused)
    else if attemptId != 0 && b.attempts[i].id != 0 && b.attempts[i].id != attemptId then Err(Refused)
    else Ok(i)
  }

  // ----- Effects shared by the commands -----

  function Move(t: Tracked, to: BumpState, cause: BumpCause, at: Time): Tracked {
    var tr := BumpTransition(t.bump.state, to, cause, at);
    Tracked(
      t.bump.(state := to, transitions := t.bump.transitions + [tr]),
      t.changes.(transitions := t.changes.transitions + [tr], state := to))
  }

  function SetHead(t: Tracked, sha: Sha): Tracked {
    Tracked(t.bump.(headSha := sha), t.changes.(headSha := sha))
  }

  function SetAbandonment(t: Tracked, reason: AbandonReason, detail: string, at: Time): Tracked {
    var a := BumpAbandonment(reason, if detail == "" then ReasonText(reason) else detail, at);
    Tracked(t.bump.(abandonment := Some(a)), t.changes.(abandonment := Some(a), dropAbandon := false))
  }

  function DropAbandonment(t: Tracked): Tracked {
    if t.bump.abandonment.None? then t
    else Tracked(t.bump.(abandonment := None), t.changes.(abandonment := None, dropAbandon := true))
  }

  /** Where a verdict or the end of a round takes the bump, what the log says
      and what abandonment, if any, is recorded. */
  datatype Ending = Ending(to: BumpState, cause: BumpCause, reason: Option<AbandonReason>)

  function Finish(t: Tracked, e: Ending, detail: string, at: Time): Tracked {
    var u := if e.reason.Some? then SetAbandonment(t, e.reason.value, detail, at) else t;
    Move(u, e.to, e.cause, at)
  }

  // ----- Commands -----

  function VerdictMove(b: Bump, v: CheckVerdict, maxRounds: int): Ending {
    if v.conclusion == CheckSuccess then Ending(Green, CauseVerdictSuccess, None)
    else if Rounds(b) < Cap(b, maxRounds) then Ending(Queued, CauseVerdictFailure, None)
    else Ending(Abandoned, CauseVerdictFailureCapReached, Some(AbandonRoundsExhausted))
  }

  function StepVerdict(t: Tracked, v: CheckVerdict, maxRounds: int): Result<Tracked> {
    if !ValidVerdict(v) then Err(Invalid)
    else if t.bump.state != AwaitingChecks then Err(Refused)
    else if v.headSha != t.bump.headSha then Err(Refused)
    else if FindVerdict(t.bump.verdicts, v.headSha).Some? then Err(Refused)
    else
      var u := Tracked(t.bump.(verdicts := t.bump.verdicts + [v]), t.changes.(verdicts := t.changes.verdicts + [v]));
      Ok(Finish(u, VerdictMove(t.bump, v, maxRounds), v.failingContexts, v.concludedAt))
  }

  function StepAdvance(t: Tracked, sha: Sha, at: Time): Result<Tracked> {
    if !ValidSha(sha) then Err(Invalid)
    else if t.bump.state == Closed || t.bump.state == Abandoned then Err(Refused)
    else if sha == t.bump.headSha then Err(Refused)
    else
      var u := SetHead(t, sha);
      Ok(if t.bump.state == AwaitingChecks then u else Move(u, AwaitingChecks, CauseHeadAdvanced, at))
  }

  function NextRound(b: Bump, budget: Budget, brief: string, at: Time): RepairAttempt {
    RepairAttempt(0, Rounds(b) + 1, b.headSha, budget, brief, at, None, None)
  }

  function StepStart(t: Tracked, budget: Budget, brief: string, at: Time, maxRounds: int): Result<Tracked> {
    if budget.maxTurns == 0 then Err(Invalid)
    else if brief == "" then Err(Invalid)
    else if t.bump.state != Queued then Err(Refused)
    else if FirstOpen(t.bump.attempts) < |t.bump.attempts| then Err(Refused)
    else if Rounds(t.bump) >= Cap(t.bump, maxRounds) then Err(Refused)
    else
      var a := NextRound(t.bump, budget, brief, at);
      var u := Tracked(t.bump.(attempts := t.bump.attempts + [a]), t.changes.(attempts := t.changes.attempts + [a]));
      Ok(Move(u, Repairing, CauseRepairStarted, at))
  }

  function StepRun(t: Tracked, attemptId: Id, r: Run): Result<Tracked> {
    if !ValidRun(r) then Err(Invalid)
    else
      match Target(t.bump, attemptId)
      case Err(e) => Err(e)
      case Ok(i) =>
        var a := t.bump.attempts[i];
        if a.run.Some? then Err(Refused)
        else
          Ok(Tracked(
            t.bump.(attempts := t.bump.attempts[i := a.(run := Some(r))]),
            t.changes.(runs := t.changes.runs[a.round := r])))
  }

  /** A requeue, unless the cap would never let the bump run again. */
  function Requeue(b: Bump, cause: BumpCause, maxRounds: int): Ending {
    if Rounds(b) < Cap(b, maxRounds) then Ending(Queued, cause, None)
    else Ending(Abandoned, CauseRepairRequeueCapped, Some(AbandonRoundsExhausted))
  }

  function OutcomeMove(b: Bump, round: nat, o: RepairOutcome, maxRounds: int): Ending {
    match o.kind
    case Pushed => Ending(AwaitingChecks, CauseRepairPushed, None)
    case NoChange => Ending(Abandoned, CauseRepairNoChange, Some(AbandonNoChange))
    case BudgetExhausted => Ending(Abandoned, CauseRepairBudgetExhausted, Some(AbandonBudgetExhausted))
    case RepairFailed =>
      if o.failureClass == FailureInfra then Requeue(b, CauseRepairFailedInfraRequeued, maxRounds)
      else Ending(Abandoned, CauseRepairFailedAbandoned, Some(AbandonRepairFailed))
    case _ =>
      match o.reason
      case AbortOperatorStop => Ending(Abandoned, CauseRepairAbortedOperatorStop, Some(AbandonOperatorStop))
      case AbortDaemonRestart =>
        if RestartedBefore(b.attempts, round) then
          Ending(Abandoned, CauseRepairAbortedRestartAbandon, Some(AbandonRestartFailed))
        else
          Requeue(b, CauseRepairAbortedRestartRequeue, maxRounds)
      case _ => Ending(Closed, CauseBumpClosed, None)
  }

  /** The outcome written on round `i` and nothing moved yet. */
  function EndRound(t: Tracked, i: nat, o: RepairOutcome): Tracked
    requires i < |t.bump.attempts|
  {
    var a := t.bump.attempts[i];
    var u := Tracked(
      t.bump.(attempts := t.bump.attempts[i := a.(outcome := Some(o))]),
      t.changes.(outcomes := t.changes.outcomes[a.round := o]));
    if o.kind == Pushed then SetHead(u, o.headSha) else u
  }

  function StepOutcome(t: Tracked, attemptId: Id, o: RepairOutcome, maxRounds: int): Result<Tracked> {
    if !ValidOutcome(o) then Err(Invalid)
    else
      match Target(t.bump, attemptId)
      case Err(e) => Err(e)
      case Ok(i) =>
        var a := t.bump.attempts[i];
        if o.kind == Pushed && o.headSha == a.baseSha then Err(Invalid)
        else if o.kind == RepairAborted && o.reason == AbortPullRequestClosed && t.bump.state != Closed then Err(Refused)
        else
          var u := EndRound(t, i, o);
          if t.bump.state != Repairing then Ok(u)
          else
            Ok(Finish(u, OutcomeMove(t.bump, a.round, o, maxRounds), o.summary, o.endedAt))
  }

  function StepAbandon(t: Tracked, a: BumpAbandonment): Result<Tracked> {
    if a.reason == AbandonUnset || a.detail == "" then Err(Invalid)
    else if a.reason != AbandonChecksNeverConcluded then Err(Refused)
    else if t.bump.state == Closed || t.bump.state == Abandoned then Err(Refused)
    else Ok(Finish(t, Ending(Abandoned, CauseChecksNeverConcluded, Some(a.reason)), a.detail, a.abandonedAt))
  }

  function StepRetry(t: Tracked, at: Time): Result<Tracked> {
    if t.bump.state != Abandoned && t.bump.state != Green then Err(Refused)
    else
      match CurrentVerdict(t.bump)
      case None => Ok(Move(DropAbandonment(t), AwaitingChecks, CauseOperatorRetry, at))
      case Some(v) =>
        if v.conclusion == CheckSuccess then Err(Refused)
        else Ok(Move(DropAbandonment(t), Queued, CauseOperatorRetry, at))
  }

  function StepClose(t: Tracked, cl: BumpClosure): Result<Tracked> {
    if cl.kind == ClosureUnset || cl.deliveryId == "" then Err(Invalid)
    else if t.bump.state == Closed then Err(Refused)
    else
      var u := Tracked(t.bump.(closure := Some(cl)), t.changes.(closure := Some(cl)));
      Ok(Move(u, Closed, CauseBumpClosed, cl.closedAt))
  }

  function Step(t: Tracked, c: Command): Result<Tracked> {
    match c
    case RecordVerdict(v, maxRounds) => StepVerdict(t, v, maxRounds)
    case AdvanceHead(sha, at) => StepAdvance(t, sha, at)
    case StartRepair(budget, brief, at, maxRounds) => StepStart(t, budget, brief, at, maxRounds)
    case RecordRun(attemptId, r) => StepRun(t, attemptId, r)
    case RecordOutcome(attemptId, o, maxRounds) => StepOutcome(t, attemptId, o, maxRounds)
    case Abandon(a) => StepAbandon(t, a)
    case Retry(at) => StepRetry(t, at)
    case Close(cl) => StepClose(t, cl)
  }

  // ----- Runs -----

  /** A refused command leaves the bump as it found it. */
  function After(b: Bump, c: Command): Bump {
    match Step(Clean(b), c)
    case Ok(t) => t.bump
    case Err(_) => b
  }

  function Exec(b: Bump, cmds: seq<Command>): Bump
    decreases |cmds|
  {
    if cmds == [] then b else Exec(After(b, cmds[0]), cmds[1..])
  }

  /** A dependabot pull request as it is first received. */
  function NewBump(key: BumpKey, branch: string, baseBranch: string, headSha: Sha, openedAt: Time): Result<Bump> {
    if key.repository == "" || key.number < 1 || branch == "" || baseBranch == "" || !ValidSha(headSha) then Err(Invalid)
    else Ok(Bump(0, key, branch, baseBranch, openedAt, headSha, AwaitingChecks, [], [], [], None, None))
  }

  /** The cap argument of a command, for the commands that read it. */
  function CapOf(c: Command): Option<int> {
    match c
    case RecordVerdict(_, maxRounds) => Some(maxRounds)
    case StartRepair(_, _, _, maxRounds) => Some(maxRounds)
    case RecordOutcome(_, _, maxRounds) => Some(maxRounds)
    case _ => None
  }
}
