/** The one inductive invariant every reachable bump satisfies. */
module BumpInvariant {
  import opened Kernel
  import opened UpkeepFacts
  import opened BumpModel

  // ----- The invariant -----

  predicate ValidRound(a: RepairAttempt) {
    && ValidSha(a.baseSha)
    && PositiveLimits(a.budget)
    && a.brief != ""
    && (a.run.Some? ==> ValidRun(a.run.value))
    && (a.outcome.Some? ==>
      && ValidOutcome(a.outcome.value)
      && (a.outcome.value.kind == Pushed ==> a.outcome.value.headSha != a.baseSha))
  }

  /** Rounds are numbered 1..n and only the last may be open. */
  ghost predicate RoundsOk(rounds: seq<RepairAttempt>) {
    && (forall i | 0 <= i < |rounds| :: rounds[i].round == i + 1 && ValidRound(rounds[i]))
    && (forall i | 0 <= i < |rounds| - 1 :: !rounds[i].Open())
  }

  /** Every verdict is valid and no head has two. */
  ghost predicate VerdictsOk(verdicts: seq<CheckVerdict>) {
    && (forall i | 0 <= i < |verdicts| :: ValidVerdict(verdicts[i]))
    && (forall i, j | 0 <= i < j < |verdicts| :: verdicts[i].headSha != verdicts[j].headSha)
  }

  /** The transition table: which causes connect which states. */
  predicate Listed(from: BumpState, to: BumpState, cause: BumpCause) {
    match cause
    case CauseVerdictSuccess => from == AwaitingChecks && to == Green
    case CauseVerdictFailure => from == AwaitingChecks && to == Queued
    case CauseVerdictFailureCapReached => from == AwaitingChecks && to == Abandoned
    case CauseChecksNeverConcluded => from != Abandoned && from != Closed && to == Abandoned
    case CauseRepairStarted => from == Queued && to == Repairing
    case CauseRepairPushed => from == Repairing && to == AwaitingChecks
    case CauseRepairNoChange => from == Repairing && to == Abandoned
    case CauseRepairBudgetExhausted => from == Repairing && to == Abandoned
    case CauseRepairFailedInfraRequeued => from == Repairing && to == Queued
    case CauseRepairRequeueCapped => from == Repairing && to == Abandoned
    case CauseRepairFailedAbandoned => from == Repairing && to == Abandoned
    case CauseRepairAbortedOperatorStop => from == Repairing && to == Abandoned
    case CauseRepairAbortedRestartRequeue => from == Repairing && to == Queued
    case CauseRepairAbortedRestartAbandon => from == Repairing && to == Abandoned
    case CauseHeadAdvanced => from in {Queued, Repairing, Green} && to == AwaitingChecks
    case CauseOperatorRetry => from in {Abandoned, Green} && to in {AwaitingChecks, Queued}
    case CauseBumpClosed => from != Closed && to == Closed
  }

  function StateAfter(log: seq<BumpTransition>): BumpState {
    if log == [] then AwaitingChecks else log[|log| - 1].to
  }

  /** A chain of listed transitions from AwaitingChecks with no self-loop. */
  ghost predicate LogOk(log: seq<BumpTransition>) {
    forall i | 0 <= i < |log| ::
      && log[i].from == StateAfter(log[..i])
      && log[i].from != log[i].to
      && Listed(log[i].from, log[i].to, log[i].cause)
  }

  ghost predicate FactsMatchState(b: Bump) {
    && b.state == StateAfter(b.transitions)
    && (b.state == Repairing ==>
      b.attempts != [] && b.attempts[|b.attempts| - 1].Open() && b.attempts[|b.attempts| - 1].baseSha == b.headSha)
    && (b.state == Abandoned ==> b.abandonment.Some?)
    && (b.abandonment.Some? ==> b.state in {Abandoned, Closed})
    && (b.closure.Some? <==> b.state == Closed)
  }

  ghost predicate ValidIdentity(b: Bump) {
    && b.key.repository != "" && b.key.number >= 1 && b.branch != "" && b.baseBranch != "" && ValidSha(b.headSha)
    && (b.abandonment.Some? ==> b.abandonment.value.detail != "" && b.abandonment.value.reason != AbandonUnset)
    && (b.closure.Some? ==> b.closure.value.deliveryId != "" && b.closure.value.kind != ClosureUnset)
  }

  /** The rounds spent never exceed the cap, and the log names each of them. */
  ghost predicate WithinCap(b: Bump, maxRounds: int) {
    && Rounds(b) <= Cap(b, maxRounds)
    && Rounds(b) == CountCause(b.transitions, CauseRepairStarted)
  }

  ghost predicate Inv(b: Bump, maxRounds: int) {
    && ValidIdentity(b)
    && RoundsOk(b.attempts)
    && VerdictsOk(b.verdicts)
    && LogOk(b.transitions)
    && FactsMatchState(b)
    && WithinCap(b, maxRounds)
  }

  /** A command that reads the cap reads one no larger than `maxRounds`. */
  predicate CapAtMost(c: Command, maxRounds: int) {
    CapOf(c).Some? ==> CapOf(c).value <= maxRounds
  }

  predicate CapExactly(c: Command, maxRounds: int) {
    CapOf(c).Some? ==> CapOf(c).value == maxRounds
  }

  ghost predicate CapsAtMost(cmds: seq<Command>, maxRounds: int) {
    forall i | 0 <= i < |cmds| :: CapAtMost(cmds[i], maxRounds)
  }

  ghost predicate CapsExactly(cmds: seq<Command>, maxRounds: int) {
    forall i | 0 <= i < |cmds| :: CapExactly(cmds[i], maxRounds)
  }

  // ----- Small facts -----

  lemma CountAppend(log: seq<BumpTransition>, tr: BumpTransition, cause: BumpCause)
    ensures CountCause(log + [tr], cause) == CountCause(log, cause) + if tr.cause == cause then 1 else 0
  {
    assert (log + [tr])[..|log|] == log;
  }

  /** `FindVerdict` returns a recorded verdict for the sha, and none only when
      there is none. */
  lemma {:induction false} FindVerdictFinds(verdicts: seq<CheckVerdict>, sha: Sha)
    ensures FindVerdict(verdicts, sha).Some? ==>
      FindVerdict(verdicts, sha).value in verdicts && FindVerdict(verdicts, sha).value.headSha == sha
    ensures FindVerdict(verdicts, sha).None? ==> forall v | v in verdicts :: v.headSha != sha
  {
    if verdicts != [] {
      FindVerdictFinds(verdicts[1..], sha);
      assert verdicts == [verdicts[0]] + verdicts[1..];
    }
  }

  lemma {:induction false} FindVerdictAppend(verdicts: seq<CheckVerdict>, v: CheckVerdict, sha: Sha)
    ensures FindVerdict(verdicts + [v], sha) ==
      if FindVerdict(verdicts, sha).Some? then FindVerdict(verdicts, sha)
      else if v.headSha == sha then Some(v) else None
  {
    if verdicts != [] {
      FindVerdictAppend(verdicts[1..], v, sha);
      assert (verdicts + [v])[1..] == verdicts[1..] + [v];
    } else {
      assert verdicts + [v] == [v];
    }
  }

  /** Which log entries a command appends: at most one, from the old state to
      the new, and none exactly when the state stays. */
  lemma StepLogsOnce(t: Tracked, c: Command)
    requires Step(t, c).Ok?
    ensures var u := Step(t, c).value.bump;
      || (u.transitions == t.bump.transitions && u.state == t.bump.state)
      || (|u.transitions| == |t.bump.transitions| + 1
          && u.transitions[..|t.bump.transitions|] == t.bump.transitions
          && u.transitions[|t.bump.transitions|].from == t.bump.state
          && u.transitions[|t.bump.transitions|].to == u.state)
  {}

  /** A listed move keeps the log a chain that ends in the bump's state, and
      adds itself to the count of its cause. */
  lemma MoveKeepsLog(t: Tracked, to: BumpState, cause: BumpCause, at: Time)
    requires LogOk(t.bump.transitions) && t.bump.state == StateAfter(t.bump.transitions)
    requires t.bump.state != to && Listed(t.bump.state, to, cause)
    ensures var u := Move(t, to, cause, at).bump;
      && LogOk(u.transitions) && u.state == StateAfter(u.transitions)
      && (forall c :: CountCause(u.transitions, c) == CountCause(t.bump.transitions, c) + if c == cause then 1 else 0)
  {
    var log, more := t.bump.transitions, Move(t, to, cause, at).bump.transitions;
    forall i | 0 <= i < |more|
      ensures more[i].from == StateAfter(more[..i]) && more[i].from != more[i].to
      ensures Listed(more[i].from, more[i].to, more[i].cause)
    {
      assert more[..i] == log[..i];
      assert log[..|log|] == log;
    }
    forall c
      ensures CountCause(more, c) == CountCause(log, c) + if c == cause then 1 else 0
    {
      CountAppend(log, more[|log|], c);
    }
  }

  // ----- Preservation, command by command -----

  lemma VerdictAppendOk(verdicts: seq<CheckVerdict>, v: CheckVerdict)
    requires VerdictsOk(verdicts) && ValidVerdict(v) && FindVerdict(verdicts, v.headSha).None?
    ensures VerdictsOk(verdicts + [v])
  {
    FindVerdictFinds(verdicts, v.headSha);
  }

  /** What must hold just before a bump is moved to a state that neither runs
      a round nor closes. */
  ghost predicate Movable(b: Bump, e: Ending, maxRounds: int) {
    && ValidIdentity(b) && RoundsOk(b.attempts) && VerdictsOk(b.verdicts) && LogOk(b.transitions) && WithinCap(b, maxRounds)
    && b.state == StateAfter(b.transitions)
    && b.abandonment.None? && b.closure.None?
    && Listed(b.state, e.to, e.cause) && b.state != e.to
    && e.to in {AwaitingChecks, Queued, Green, Abandoned}
    && e.cause != CauseRepairStarted
    && (e.reason.Some? <==> e.to == Abandoned)
    && (e.reason.Some? ==> e.reason.value != AbandonUnset)
  }

  lemma FinishKeepsInv(t: Tracked, e: Ending, detail: string, at: Time, maxRounds: int)
    requires Movable(t.bump, e, maxRounds)
    ensures Inv(Finish(t, e, detail, at).bump, maxRounds)
  {
    var u := if e.reason.Some? then SetAbandonment(t, e.reason.value, detail, at) else t;
    MoveKeepsLog(u, e.to, e.cause, at);
  }

  lemma VerdictKeepsInv(t: Tracked, v: CheckVerdict, cap: int, maxRounds: int)
    requires Inv(t.bump, maxRounds) && cap <= maxRounds
    requires StepVerdict(t, v, cap).Ok?
    ensures Inv(StepVerdict(t, v, cap).value.bump, maxRounds)
  {
    VerdictAppendOk(t.bump.verdicts, v);
    var u := Tracked(t.bump.(verdicts := t.bump.verdicts + [v]), t.changes.(verdicts := t.changes.verdicts + [v]));
    FinishKeepsInv(u, VerdictMove(t.bump, v, cap), v.failingContexts, v.concludedAt, maxRounds);
  }

  lemma AdvanceKeepsInv(t: Tracked, sha: Sha, at: Time, maxRounds: int)
    requires Inv(t.bump, maxRounds)
    requires StepAdvance(t, sha, at).Ok?
    ensures Inv(StepAdvance(t, sha, at).value.bump, maxRounds)
  {
    if t.bump.state != AwaitingChecks {
      FinishKeepsInv(SetHead(t, sha), Ending(AwaitingChecks, CauseHeadAdvanced, None), "", at, maxRounds);
    }
  }

  lemma StartKeepsInv(t: Tracked, budget: Budget, brief: string, at: Time, cap: int, maxRounds: int)
    requires Inv(t.bump, maxRounds) && cap <= maxRounds
    requires StepStart(t, budget, brief, at, cap).Ok?
    ensures Inv(StepStart(t, budget, brief, at, cap).value.bump, maxRounds)
  {
    var a := NextRound(t.bump, budget, brief, at);
    var u := Tracked(t.bump.(attempts := t.bump.attempts + [a]), t.changes.(attempts := t.changes.attempts + [a]));
    assert RoundsOk(u.bump.attempts);
    MoveKeepsLog(u, Repairing, CauseRepairStarted, at);
  }

  lemma RunKeepsInv(t: Tracked, attemptId: Id, r: Run, maxRounds: int)
    requires Inv(t.bump, maxRounds)
    requires StepRun(t, attemptId, r).Ok?
    ensures Inv(StepRun(t, attemptId, r).value.bump, maxRounds)
  {}

  /** Writing the outcome of the open round closes every round and leaves the
      state, the log and the number of rounds alone. */
  lemma EndRoundKeepsFacts(t: Tracked, o: RepairOutcome, maxRounds: int)
    requires Inv(t.bump, maxRounds) && ValidOutcome(o)
    requires FirstOpen(t.bump.attempts) < |t.bump.attempts|
    requires o.kind == Pushed ==> o.headSha != t.bump.attempts[FirstOpen(t.bump.attempts)].baseSha
    ensures var i := FirstOpen(t.bump.attempts);
      var u := EndRound(t, i, o).bump;
      && i == |t.bump.attempts| - 1
      && RoundsOk(u.attempts) && (forall j | 0 <= j < |u.attempts| :: !u.attempts[j].Open())
      && ValidIdentity(u)
      && u == t.bump.(attempts := u.attempts, headSha := u.headSha)
      && |u.attempts| == |t.bump.attempts|
  {}

  lemma OutcomeKeepsInv(t: Tracked, attemptId: Id, o: RepairOutcome, cap: int, maxRounds: int)
    requires Inv(t.bump, maxRounds) && cap <= maxRounds
    requires StepOutcome(t, attemptId, o, cap).Ok?
    ensures Inv(StepOutcome(t, attemptId, o, cap).value.bump, maxRounds)
  {
    var i := FirstOpen(t.bump.attempts);
    EndRoundKeepsFacts(t, o, maxRounds);
    var u := EndRound(t, i, o);
    if t.bump.state == Repairing {
      EndingIsListed(t.bump, t.bump.attempts[i].round, o, cap);
      FinishKeepsInv(u, OutcomeMove(t.bump, t.bump.attempts[i].round, o, cap), o.summary, o.endedAt, maxRounds);
    }
  }

  /** A repairing bump's round ends along a listed transition, and records an
      abandonment exactly when that transition abandons. */
  lemma EndingIsListed(b: Bump, round: nat, o: RepairOutcome, maxRounds: int)
    requires ValidOutcome(o) && !(o.kind == RepairAborted && o.reason == AbortPullRequestClosed)
    ensures var e := OutcomeMove(b, round, o, maxRounds);
      && Listed(Repairing, e.to, e.cause) && e.to in {AwaitingChecks, Queued, Abandoned}
      && (e.reason.Some? <==> e.to == Abandoned)
      && (e.reason.Some? ==> e.reason.value != AbandonUnset)
      && e.cause != CauseRepairStarted && e.cause != CauseOperatorRetry
  {}

  lemma AbandonKeepsInv(t: Tracked, a: BumpAbandonment, maxRounds: int)
    requires Inv(t.bump, maxRounds)
    requires StepAbandon(t, a).Ok?
    ensures Inv(StepAbandon(t, a).value.bump, maxRounds)
  {
    FinishKeepsInv(t, Ending(Abandoned, CauseChecksNeverConcluded, Some(a.reason)), a.detail, a.abandonedAt, maxRounds);
  }

  lemma RetryKeepsInv(t: Tracked, at: Time, maxRounds: int)
    requires Inv(t.bump, maxRounds)
    requires StepRetry(t, at).Ok?
    ensures Inv(StepRetry(t, at).value.bump, maxRounds)
  {
    var to := if CurrentVerdict(t.bump).None? then AwaitingChecks else Queued;
    FinishKeepsInv(DropAbandonment(t), Ending(to, CauseOperatorRetry, None), "", at, maxRounds);
  }

  lemma CloseKeepsInv(t: Tracked, cl: BumpClosure, maxRounds: int)
    requires Inv(t.bump, maxRounds)
    requires StepClose(t, cl).Ok?
    ensures Inv(StepClose(t, cl).value.bump, maxRounds)
  {
    var u := Tracked(t.bump.(closure := Some(cl)), t.changes.(closure := Some(cl)));
    MoveKeepsLog(u, Closed, CauseBumpClosed, cl.closedAt);
  }

  /** Every accepted command keeps the invariant. */
  lemma StepKeepsInv(t: Tracked, c: Command, maxRounds: int)
    requires Inv(t.bump, maxRounds) && CapAtMost(c, maxRounds)
    requires Step(t, c).Ok?
    ensures Inv(Step(t, c).value.bump, maxRounds)
  {
    match c
    case RecordVerdict(v, cap) => VerdictKeepsInv(t, v, cap, maxRounds);
    case AdvanceHead(sha, at) => AdvanceKeepsInv(t, sha, at, maxRounds);
    case StartRepair(budget, brief, at, cap) => StartKeepsInv(t, budget, brief, at, cap, maxRounds);
    case RecordRun(attemptId, r) => RunKeepsInv(t, attemptId, r, maxRounds);
    case RecordOutcome(attemptId, o, cap) => OutcomeKeepsInv(t, attemptId, o, cap, maxRounds);
    case Abandon(a) => AbandonKeepsInv(t, a, maxRounds);
    case Retry(at) => RetryKeepsInv(t, at, maxRounds);
    case Close(cl) => CloseKeepsInv(t, cl, maxRounds);
  }

  lemma AfterKeepsInv(b: Bump, c: Command, maxRounds: int)
    requires Inv(b, maxRounds) && CapAtMost(c, maxRounds)
    ensures Inv(After(b, c), maxRounds)
  {
    if Step(Clean(b), c).Ok? {
      StepKeepsInv(Clean(b), c, maxRounds);
    }
  }

  /** Every bump a run can reach satisfies the invariant, whatever mix of
      accepted and refused commands the run is. */
  lemma {:induction false} ReachableInv(b: Bump, cmds: seq<Command>, maxRounds: int)
    requires Inv(b, maxRounds) && CapsAtMost(cmds, maxRounds)
    ensures Inv(Exec(b, cmds), maxRounds)
    decreases |cmds|
  {
    if cmds != [] {
      AfterKeepsInv(b, cmds[0], maxRounds);
      ReachableInv(After(b, cmds[0]), cmds[1..], maxRounds);
    }
  }

  lemma NewBumpInv(key: BumpKey, branch: string, baseBranch: string, headSha: Sha, openedAt: Time, maxRounds: nat)
    ensures var r := NewBump(key, branch, baseBranch, headSha, openedAt);
      r.Ok? ==> Inv(r.value, maxRounds)
  {}
}
