/** What each command is for, told from the bump it meets and the bump it leaves:
    when it is taken, and everything it changes. */
module BumpLaws {
  import opened Kernel
  import opened UpkeepFacts
  import opened BumpModel
  import opened BumpInvariant

  // ----- The cap, counted off the log -----

  /** How many entries of the log have a cause. */
  function HowMany(log: seq<BumpTransition>, cause: BumpCause): nat {
    |set i | 0 <= i < |log| && log[i].cause == cause|
  }

  lemma {:induction false} CountIsHowMany(log: seq<BumpTransition>, cause: BumpCause)
    ensures CountCause(log, cause) == HowMany(log, cause)
  {
    if log != [] {
      CountIsHowMany(log[..|log| - 1], cause);
      OneEntryMore(log[..|log| - 1], log[|log| - 1], cause);
      assert log[..|log| - 1] + [log[|log| - 1]] == log;
    }
  }

  lemma OneEntryMore(log: seq<BumpTransition>, tr: BumpTransition, cause: BumpCause)
    ensures HowMany(log + [tr], cause) == HowMany(log, cause) + if tr.cause == cause then 1 else 0
  {
    var before := set i | 0 <= i < |log| && log[i].cause == cause;
    var all := set i | 0 <= i < |log + [tr]| && (log + [tr])[i].cause == cause;
    assert all == if tr.cause == cause then before + {|log|} else before;
    assert |log| !in before;
  }

  /** Another round may still start: one per configured round, and one more for
      each retry an operator asked for. */
  predicate RoundLeft(b: Bump, maxRounds: int) {
    |b.attempts| < maxRounds + HowMany(b.transitions, CauseOperatorRetry)
  }

  lemma RoundLeftIsBelowCap(b: Bump, maxRounds: int)
    ensures RoundLeft(b, maxRounds) <==> Rounds(b) < Cap(b, maxRounds)
  {
    CountIsHowMany(b.transitions, CauseOperatorRetry);
  }

  /** The log gained one entry, from the old state to the new. */
  ghost predicate Logged(b: Bump, u: Bump, cause: BumpCause, at: Time) {
    u.transitions == b.transitions + [BumpTransition(b.state, u.state, cause, at)]
  }

  // ----- A new bump -----

  lemma NewBumpIs(key: BumpKey, branch: string, baseBranch: string, headSha: Sha, openedAt: Time)
    ensures var r := NewBump(key, branch, baseBranch, headSha, openedAt);
      && (r.Ok? <==> key.repository != "" && key.number >= 1 && branch != "" && baseBranch != "" && ValidSha(headSha))
      && (r.Ok? ==>
            && r.value.state == AwaitingChecks && r.value.headSha == headSha && r.value.key == key
            && r.value.branch == branch && r.value.baseBranch == baseBranch && r.value.openedAt == openedAt && r.value.id == 0
            && r.value.verdicts == [] && r.value.attempts == [] && r.value.transitions == []
            && r.value.abandonment.None? && r.value.closure.None?)
  {}

  // ----- Verdicts -----

  /** A verdict is taken by a bump waiting for one on that very head. */
  lemma VerdictIsTakenExactly(t: Tracked, v: CheckVerdict, maxRounds: int)
    ensures Step(t, RecordVerdict(v, maxRounds)) == Err(Invalid) <==>
      v.conclusion == ConclusionUnset || !ValidSha(v.headSha) || (v.conclusion == CheckSuccess) != (v.failingContexts == "")
    ensures Step(t, RecordVerdict(v, maxRounds)).Ok? <==>
      && v.conclusion != ConclusionUnset && ValidSha(v.headSha) && (v.conclusion == CheckSuccess <==> v.failingContexts == "")
      && t.bump.state == AwaitingChecks && v.headSha == t.bump.headSha
      && forall i | 0 <= i < |t.bump.verdicts| :: t.bump.verdicts[i].headSha != v.headSha
  {
    FindVerdictFinds(t.bump.verdicts, v.headSha);
  }

  /** It is recorded whatever follows: green on success, another round while one is
      left, and otherwise the end, with the contexts as the detail. */
  lemma VerdictDecides(t: Tracked, v: CheckVerdict, maxRounds: int)
    requires Step(t, RecordVerdict(v, maxRounds)).Ok?
    ensures var b, u := t.bump, Step(t, RecordVerdict(v, maxRounds)).value.bump;
      && u == b.(verdicts := b.verdicts + [v], state := u.state, transitions := u.transitions, abandonment := u.abandonment)
      && (u.state == Green <==> v.conclusion == CheckSuccess)
      && (u.state == Queued <==> v.conclusion == CheckFailure && RoundLeft(b, maxRounds))
      && (u.state == Abandoned <==> v.conclusion == CheckFailure && !RoundLeft(b, maxRounds))
      && (u.state == Green ==> Logged(b, u, CauseVerdictSuccess, v.concludedAt) && u.abandonment == b.abandonment)
      && (u.state == Queued ==> Logged(b, u, CauseVerdictFailure, v.concludedAt) && u.abandonment == b.abandonment)
      && (u.state == Abandoned ==>
            && Logged(b, u, CauseVerdictFailureCapReached, v.concludedAt)
            && u.abandonment == Some(BumpAbandonment(AbandonRoundsExhausted, v.failingContexts, v.concludedAt)))
  {
    RoundLeftIsBelowCap(t.bump, maxRounds);
  }

  // ----- Heads -----

  /** A moved head is taken unless the bump is over, and only if it did move. */
  lemma HeadIsTakenExactly(t: Tracked, sha: Sha, at: Time)
    ensures Step(t, AdvanceHead(sha, at)) == Err(Invalid) <==> !ValidSha(sha)
    ensures Step(t, AdvanceHead(sha, at)).Ok? <==> ValidSha(sha) && t.bump.state !in {Closed, Abandoned} && sha != t.bump.headSha
  {}

  /** The bump waits for the new head's checks, and says so in the log if it was
      not waiting already. */
  lemma HeadMoves(t: Tracked, sha: Sha, at: Time)
    requires Step(t, AdvanceHead(sha, at)).Ok?
    ensures var b, u := t.bump, Step(t, AdvanceHead(sha, at)).value.bump;
      && u == b.(headSha := sha, state := AwaitingChecks, transitions := u.transitions)
      && (if b.state == AwaitingChecks then u.transitions == b.transitions else Logged(b, u, CauseHeadAdvanced, at))
  {}

  // ----- Rounds -----

  lemma {:induction false} NothingOpenExactly(rounds: seq<RepairAttempt>)
    ensures FirstOpen(rounds) == |rounds| <==> forall i | 0 <= i < |rounds| :: rounds[i].outcome.Some?
  {
    if rounds != [] {
      NothingOpenExactly(rounds[1..]);
    }
  }

  lemma RoundStartsExactly(t: Tracked, budget: Budget, brief: string, at: Time, maxRounds: int)
    ensures Step(t, StartRepair(budget, brief, at, maxRounds)) == Err(Invalid) <==> budget.maxTurns == 0 || brief == ""
    ensures Step(t, StartRepair(budget, brief, at, maxRounds)).Ok? <==>
      && budget.maxTurns != 0 && brief != "" && t.bump.state == Queued && RoundLeft(t.bump, maxRounds)
      && forall i | 0 <= i < |t.bump.attempts| :: t.bump.attempts[i].outcome.Some?
  {
    RoundLeftIsBelowCap(t.bump, maxRounds);
    NothingOpenExactly(t.bump.attempts);
  }

  lemma RoundRunsOnHead(t: Tracked, budget: Budget, brief: string, at: Time, maxRounds: int)
    requires Step(t, StartRepair(budget, brief, at, maxRounds)).Ok?
    ensures var b, u := t.bump, Step(t, StartRepair(budget, brief, at, maxRounds)).value.bump;
      && u == b.(state := Repairing, attempts := u.attempts, transitions := u.transitions)
      && u.attempts == b.attempts + [RepairAttempt(0, |b.attempts| + 1, b.headSha, budget, brief, at, None, None)]
      && Logged(b, u, CauseRepairStarted, at)
  {}

  /** The open round is the last one; a command names it by id when both know one. */
  ghost predicate Names(b: Bump, id: Id) {
    && b.attempts != [] && b.attempts[|b.attempts| - 1].outcome.None?
    && (id == 0 || b.attempts[|b.attempts| - 1].id == 0 || b.attempts[|b.attempts| - 1].id == id)
  }

  lemma TargetIsLast(b: Bump, id: Id)
    requires RoundsOk(b.attempts)
    ensures Target(b, id).Ok? <==> Names(b, id)
    ensures Target(b, id).Ok? ==> Target(b, id).value == |b.attempts| - 1
    ensures Target(b, id).Err? ==> Target(b, id).error == Refused
  {
    NothingOpenExactly(b.attempts);
  }

  lemma RunIsTakenExactly(t: Tracked, id: Id, r: Run)
    requires RoundsOk(t.bump.attempts)
    ensures Step(t, RecordRun(id, r)) == Err(Invalid) <==> r.runId == "" || r.model == "" || !ValidSha(r.baseSha)
    ensures Step(t, RecordRun(id, r)).Ok? <==>
      && r.runId != "" && r.model != "" && ValidSha(r.baseSha)
      && Names(t.bump, id) && t.bump.attempts[|t.bump.attempts| - 1].run.None?
  {
    TargetIsLast(t.bump, id);
  }

  lemma RunIsRecorded(t: Tracked, id: Id, r: Run)
    requires RoundsOk(t.bump.attempts) && Step(t, RecordRun(id, r)).Ok?
    ensures var b, u, n := t.bump, Step(t, RecordRun(id, r)).value.bump, |t.bump.attempts| - 1;
      n >= 0 && u == b.(attempts := b.attempts[n := b.attempts[n].(run := Some(r))])
  {
    TargetIsLast(t.bump, id);
  }

  // ----- Outcomes -----

  /** The fields the kind calls for are there. */
  predicate Complete(o: RepairOutcome) {
    && o.kind in {Pushed, NoChange, BudgetExhausted, RepairFailed, RepairAborted} && o.summary != ""
    && (o.kind == Pushed ==> ValidSha(o.headSha))
    && (o.kind == BudgetExhausted ==> o.limit in {LimitTurns, LimitWallClock, LimitDiffLines})
    && (o.kind == RepairFailed ==> o.failureClass in {FailureInfra, FailureModel, FailureAgent} && o.message != "")
    && (o.kind == RepairAborted ==> o.reason in {AbortOperatorStop, AbortDaemonRestart, AbortPullRequestClosed})
  }

  /** An outcome is taken in every state while its round is open, as long as a push
      moved the head and a closing reason finds the bump closed. */
  lemma OutcomeIsTakenExactly(t: Tracked, id: Id, o: RepairOutcome, maxRounds: int)
    requires RoundsOk(t.bump.attempts)
    ensures Step(t, RecordOutcome(id, o, maxRounds)).Ok? <==>
      && Complete(o) && Names(t.bump, id)
      && (o.kind == Pushed ==> o.headSha != t.bump.attempts[|t.bump.attempts| - 1].baseSha)
      && (o.kind == RepairAborted && o.reason == AbortPullRequestClosed ==> t.bump.state == Closed)
    ensures Step(t, RecordOutcome(id, o, maxRounds)) == Err(Invalid) <==>
      !Complete(o) || (Names(t.bump, id) && o.kind == Pushed && o.headSha == t.bump.attempts[|t.bump.attempts| - 1].baseSha)
  {
    TargetIsLast(t.bump, id);
  }

  /** The round is over, and a push moved the head, whatever the bump's state. */
  lemma OutcomeEndsRound(t: Tracked, id: Id, o: RepairOutcome, maxRounds: int)
    requires RoundsOk(t.bump.attempts) && Step(t, RecordOutcome(id, o, maxRounds)).Ok?
    ensures var b, u, n := t.bump, Step(t, RecordOutcome(id, o, maxRounds)).value.bump, |t.bump.attempts| - 1;
      && n >= 0
      && u == b.(attempts := u.attempts, headSha := u.headSha, state := u.state, transitions := u.transitions, abandonment := u.abandonment)
      && u.attempts == b.attempts[n := b.attempts[n].(outcome := Some(o))]
      && u.headSha == (if o.kind == Pushed then o.headSha else b.headSha)
      && (b.state != Repairing ==> u.state == b.state && u.transitions == b.transitions && u.abandonment == b.abandonment)
  {
    TargetIsLast(t.bump, id);
  }

  /** A round before the open one was ended by a restart of the daemon. */
  ghost predicate RestartedEarlier(b: Bump) {
    exists i | 0 <= i < |b.attempts| - 1 ::
      && b.attempts[i].outcome.Some?
      && b.attempts[i].outcome.value.kind == RepairAborted && b.attempts[i].outcome.value.reason == AbortDaemonRestart
  }

  lemma RestartedEarlierIsSeen(b: Bump)
    requires RoundsOk(b.attempts) && b.attempts != []
    ensures RestartedEarlier(b) <==> RestartedBefore(b.attempts, b.attempts[|b.attempts| - 1].round)
  {
    if RestartedEarlier(b) {
      var i :| 0 <= i < |b.attempts| - 1 && b.attempts[i].outcome.Some?
        && b.attempts[i].outcome.value.kind == RepairAborted && b.attempts[i].outcome.value.reason == AbortDaemonRestart;
      assert b.attempts[i].round < b.attempts[|b.attempts| - 1].round && b.attempts[i].Restarted();
    }
  }

  /** The two ends no round of the bump's is to blame for: the machinery failed, or
      the daemon restarted for the first time. */
  ghost predicate AsksAgain(b: Bump, o: RepairOutcome) {
    || (o.kind == RepairFailed && o.failureClass == FailureInfra)
    || (o.kind == RepairAborted && o.reason == AbortDaemonRestart && !RestartedEarlier(b))
  }

  /** What the log says of the end of a running round, kind by kind. */
  ghost predicate CauseIs(b: Bump, o: RepairOutcome, left: bool, cause: BumpCause) {
    && (cause == CauseRepairPushed <==> o.kind == Pushed)
    && (cause == CauseRepairNoChange <==> o.kind == NoChange)
    && (cause == CauseRepairBudgetExhausted <==> o.kind == BudgetExhausted)
    && (cause == CauseRepairFailedInfraRequeued <==> o.kind == RepairFailed && o.failureClass == FailureInfra && left)
    && (cause == CauseRepairFailedAbandoned <==> o.kind == RepairFailed && o.failureClass != FailureInfra)
    && (cause == CauseRepairAbortedOperatorStop <==> o.kind == RepairAborted && o.reason == AbortOperatorStop)
    && (cause == CauseRepairAbortedRestartRequeue <==>
          o.kind == RepairAborted && o.reason == AbortDaemonRestart && !RestartedEarlier(b) && left)
    && (cause == CauseRepairAbortedRestartAbandon <==> o.kind == RepairAborted && o.reason == AbortDaemonRestart && RestartedEarlier(b))
    && (cause == CauseRepairRequeueCapped <==> AsksAgain(b, o) && !left)
  }

  /** Why a running round's end gives the bump up, kind by kind. */
  ghost predicate ReasonIs(b: Bump, o: RepairOutcome, left: bool, reason: AbandonReason) {
    && (reason == AbandonRoundsExhausted <==> AsksAgain(b, o) && !left)
    && (reason == AbandonNoChange <==> o.kind == NoChange)
    && (reason == AbandonBudgetExhausted <==> o.kind == BudgetExhausted)
    && (reason == AbandonRepairFailed <==> o.kind == RepairFailed && o.failureClass != FailureInfra)
    && (reason == AbandonOperatorStop <==> o.kind == RepairAborted && o.reason == AbortOperatorStop)
    && (reason == AbandonRestartFailed <==> o.kind == RepairAborted && o.reason == AbortDaemonRestart && RestartedEarlier(b))
    && reason !in {AbandonChecksNeverConcluded, AbandonUnset}
  }

  lemma EndingFits(b: Bump, o: RepairOutcome, maxRounds: int)
    requires RoundsOk(b.attempts) && b.attempts != [] && Complete(o) && !(o.kind == RepairAborted && o.reason == AbortPullRequestClosed)
    ensures var e, left := OutcomeMove(b, b.attempts[|b.attempts| - 1].round, o, maxRounds), RoundLeft(b, maxRounds);
      && (e.to == AwaitingChecks <==> o.kind == Pushed)
      && (e.to == Queued <==> AsksAgain(b, o) && left)
      && (e.to == Abandoned <==> o.kind != Pushed && !(AsksAgain(b, o) && left))
      && (e.reason.Some? <==> e.to == Abandoned) && (e.reason.Some? ==> ReasonIs(b, o, left, e.reason.value))
      && CauseIs(b, o, left, e.cause)
  {
    RestartedEarlierIsSeen(b);
    RoundLeftIsBelowCap(b, maxRounds);
  }

  lemma RunningRoundFinishes(t: Tracked, id: Id, o: RepairOutcome, maxRounds: int)
    requires RoundsOk(t.bump.attempts) && t.bump.state == Repairing && t.bump.abandonment.None?
    requires Step(t, RecordOutcome(id, o, maxRounds)).Ok?
    ensures t.bump.attempts != [] && Complete(o) && !(o.kind == RepairAborted && o.reason == AbortPullRequestClosed)
    ensures var b, u := t.bump, Step(t, RecordOutcome(id, o, maxRounds)).value.bump;
      var e := OutcomeMove(b, b.attempts[|b.attempts| - 1].round, o, maxRounds);
      && u.state == e.to && Logged(b, u, e.cause, o.endedAt)
      && u.abandonment == if e.reason.Some? then Some(BumpAbandonment(e.reason.value, o.summary, o.endedAt)) else None
  {
    TargetIsLast(t.bump, id);
  }

  /** Where the end of a running round takes a bump, told by the outcome and the
      bump alone: a push waits for checks, a blameless end is tried again while a
      round is left, and everything else gives the bump up, for its own reason. */
  lemma RunningRoundDecides(t: Tracked, id: Id, o: RepairOutcome, maxRounds: int)
    requires Inv(t.bump, maxRounds) && t.bump.state == Repairing && Step(t, RecordOutcome(id, o, maxRounds)).Ok?
    ensures var b, u := t.bump, Step(t, RecordOutcome(id, o, maxRounds)).value.bump;
      var left := RoundLeft(b, maxRounds);
      && (u.state == AwaitingChecks <==> o.kind == Pushed)
      && (u.state == Queued <==> AsksAgain(b, o) && left)
      && (u.state == Abandoned <==> o.kind != Pushed && !(AsksAgain(b, o) && left))
      && (u.abandonment.Some? <==> u.state == Abandoned)
      && (u.abandonment.Some? ==>
            && ReasonIs(b, o, left, u.abandonment.value.reason)
            && u.abandonment.value.detail == o.summary && u.abandonment.value.abandonedAt == o.endedAt)
      && |u.transitions| == |b.transitions| + 1
      && Logged(b, u, u.transitions[|b.transitions|].cause, o.endedAt)
      && CauseIs(b, o, left, u.transitions[|b.transitions|].cause)
  {
    RunningRoundFinishes(t, id, o, maxRounds);
    EndingFits(t.bump, o, maxRounds);
  }

  // ----- Giving up, retrying, closing -----

  lemma GivingUpIsTakenExactly(t: Tracked, a: BumpAbandonment)
    ensures Step(t, Abandon(a)) == Err(Invalid) <==> a.reason == AbandonUnset || a.detail == ""
    ensures Step(t, Abandon(a)).Ok? <==>
      a.reason == AbandonChecksNeverConcluded && a.detail != "" && t.bump.state in {AwaitingChecks, Queued, Repairing, Green}
  {}

  lemma GivingUpAbandons(t: Tracked, a: BumpAbandonment)
    requires Step(t, Abandon(a)).Ok?
    ensures var b, u := t.bump, Step(t, Abandon(a)).value.bump;
      && u == b.(state := Abandoned, abandonment := Some(a), transitions := u.transitions)
      && Logged(b, u, CauseChecksNeverConcluded, a.abandonedAt)
  {}

  /** The verdict on the current head, if one was recorded. */
  ghost predicate HeadHas(b: Bump, conclusion: CheckConclusion) {
    exists i | 0 <= i < |b.verdicts| :: b.verdicts[i].headSha == b.headSha && b.verdicts[i].conclusion == conclusion
  }

  lemma HeadHasIsCurrent(b: Bump)
    requires VerdictsOk(b.verdicts)
    ensures CurrentVerdict(b).None? <==> !HeadHas(b, CheckSuccess) && !HeadHas(b, CheckFailure)
    ensures CurrentVerdict(b).Some? ==> HeadHas(b, CurrentVerdict(b).value.conclusion)
    ensures !(HeadHas(b, CheckSuccess) && HeadHas(b, CheckFailure)) && !HeadHas(b, ConclusionUnset)
  {
    FindVerdictFinds(b.verdicts, b.headSha);
  }

  lemma RetryIsTakenExactly(t: Tracked, at: Time)
    requires VerdictsOk(t.bump.verdicts)
    ensures Step(t, Retry(at)).Ok? <==> t.bump.state in {Abandoned, Green} && !HeadHas(t.bump, CheckSuccess)
    ensures Step(t, Retry(at)) != Err(Invalid)
  {
    HeadHasIsCurrent(t.bump);
  }

  /** A retry undoes the abandonment and goes where the head's checks say. */
  lemma RetryResumes(t: Tracked, at: Time)
    requires VerdictsOk(t.bump.verdicts) && Step(t, Retry(at)).Ok?
    ensures var b, u := t.bump, Step(t, Retry(at)).value.bump;
      && u == b.(state := if HeadHas(b, CheckFailure) then Queued else AwaitingChecks, abandonment := None, transitions := u.transitions)
      && Logged(b, u, CauseOperatorRetry, at)
  {
    HeadHasIsCurrent(t.bump);
  }

  lemma ClosureIsTakenExactly(t: Tracked, cl: BumpClosure)
    ensures Step(t, Close(cl)) == Err(Invalid) <==> cl.kind == ClosureUnset || cl.deliveryId == ""
    ensures Step(t, Close(cl)).Ok? <==> cl.kind != ClosureUnset && cl.deliveryId != "" && t.bump.state != Closed
  {}

  lemma ClosureCloses(t: Tracked, cl: BumpClosure)
    requires Step(t, Close(cl)).Ok?
    ensures var b, u := t.bump, Step(t, Close(cl)).value.bump;
      && u == b.(state := Closed, closure := Some(cl), transitions := u.transitions)
      && Logged(b, u, CauseBumpClosed, cl.closedAt)
  {}
}
