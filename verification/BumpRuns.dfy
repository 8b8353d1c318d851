/** What holds over whole runs of a bump: the repair cycle terminates, a restart
    requeues once, a queued bump can be repaired, and state and current verdict
    agree except after a stray push. */
module BumpRuns {
  import opened Kernel
  import opened UpkeepFacts
  import opened BumpModel
  import opened BumpInvariant
  import opened RepairBrief

  // ----- Termination of the push, check, push cycle -----

  function Rank(s: BumpState): nat {
    match s
    case Repairing => 4
    case AwaitingChecks => 3
    case Queued => 2
    case Green => 2
    case Abandoned => 1
    case Closed => 0
  }

  /** What a bump may still do: three per round left under the cap, plus its rank. */
  function Potential(b: Bump, maxRounds: int): int {
    3 * (Cap(b, maxRounds) - Rounds(b)) + Rank(b.state)
  }

  function Retries(b: Bump): nat {
    CountCause(b.transitions, CauseOperatorRetry)
  }

  function HeadAdvances(b: Bump): nat {
    CountCause(b.transitions, CauseHeadAdvanced)
  }

  /** The count of every cause after a command, from the entry it appended. */
  lemma StepCounts(t: Tracked, c: Command, cause: BumpCause)
    requires Step(t, c).Ok?
    ensures var b, u := t.bump, Step(t, c).value.bump;
      CountCause(u.transitions, cause) == CountCause(b.transitions, cause) +
        if |u.transitions| > |b.transitions| && u.transitions[|b.transitions|].cause == cause then 1 else 0
  {
    StepLogsOnce(t, c);
    var b, u := t.bump, Step(t, c).value.bump;
    if u.transitions != b.transitions {
      assert u.transitions == b.transitions + [u.transitions[|b.transitions|]];
      CountAppend(b.transitions, u.transitions[|b.transitions|], cause);
    }
  }

  /** `u` is `b` after at most one more logged transition. */
  ghost predicate Extends(b: Bump, u: Bump) {
    || (u.transitions == b.transitions && u.state == b.state)
    || (|u.transitions| == |b.transitions| + 1
        && u.transitions[..|b.transitions|] == b.transitions
        && u.transitions[|b.transitions|].from == b.state
        && u.transitions[|b.transitions|].to == u.state)
  }

  lemma AfterExtends(b: Bump, c: Command)
    ensures Extends(b, After(b, c))
  {
    if Step(Clean(b), c).Ok? {
      StepLogsOnce(Clean(b), c);
    }
  }

  /** What the transition table charges: three for a round it starts, three for a
      retry on top of the three the retry grants, two for a head advance. */
  lemma CauseIsPaidFor(from: BumpState, to: BumpState, cause: BumpCause)
    requires Listed(from, to, cause) && from != to
    ensures 1 + Rank(to) - Rank(from) <=
      (if cause == CauseRepairStarted then 3 else 0) + (if cause == CauseOperatorRetry then 3 else 0) + (if cause == CauseHeadAdvanced then 2 else 0)
  {}

  /** Every logged transition is paid for: by the potential, by an operator
      retry (six each) or by a head advance (two each). The transition table
      and the count of rounds in the log are all it takes. */
  lemma TransitionIsPaidFor(b: Bump, u: Bump, maxRounds: int)
    requires Inv(b, maxRounds) && Inv(u, maxRounds) && Extends(b, u)
    ensures |u.transitions| - |b.transitions| + Potential(u, maxRounds)
        <= Potential(b, maxRounds) + 6 * (Retries(u) - Retries(b)) + 2 * (HeadAdvances(u) - HeadAdvances(b))
  {
    if u.transitions != b.transitions {
      var tr := u.transitions[|b.transitions|];
      assert u.transitions == b.transitions + [tr];
      CountAppend(b.transitions, tr, CauseOperatorRetry);
      CountAppend(b.transitions, tr, CauseHeadAdvanced);
      CountAppend(b.transitions, tr, CauseRepairStarted);
      CauseIsPaidFor(tr.from, tr.to, tr.cause);
    }
  }

  lemma {:induction false} RunSpendsPotential(b: Bump, cmds: seq<Command>, maxRounds: int)
    requires Inv(b, maxRounds) && CapsAtMost(cmds, maxRounds)
    ensures var u := Exec(b, cmds);
      |u.transitions| - |b.transitions| + Potential(u, maxRounds)
        <= Potential(b, maxRounds) + 6 * (Retries(u) - Retries(b)) + 2 * (HeadAdvances(u) - HeadAdvances(b))
    decreases |cmds|
  {
    if cmds != [] {
      AfterKeepsInv(b, cmds[0], maxRounds);
      AfterExtends(b, cmds[0]);
      TransitionIsPaidFor(b, After(b, cmds[0]), maxRounds);
      RunSpendsPotential(After(b, cmds[0]), cmds[1..], maxRounds);
    }
  }

  /** However verdicts, pushes, outcomes and refusals are mixed, the log of a
      new bump stays within a bound set by the cap, the operator's retries and
      the head advances the log itself shows. */
  lemma LogIsBounded(key: BumpKey, branch: string, baseBranch: string, headSha: Sha, openedAt: Time,
                     cmds: seq<Command>, maxRounds: nat)
    requires NewBump(key, branch, baseBranch, headSha, openedAt).Ok?
    requires CapsAtMost(cmds, maxRounds)
    ensures var u := Exec(NewBump(key, branch, baseBranch, headSha, openedAt).value, cmds);
      |u.transitions| <= 3 * maxRounds + 3 + 6 * Retries(u) + 2 * HeadAdvances(u)
  {
    var b := NewBump(key, branch, baseBranch, headSha, openedAt).value;
    NewBumpInv(key, branch, baseBranch, headSha, openedAt, maxRounds);
    RunSpendsPotential(b, cmds, maxRounds);
    ReachableInv(b, cmds, maxRounds);
  }

  // ----- One restart requeue in a bump's whole life -----

  ghost predicate AnyRestarted(rounds: seq<RepairAttempt>) {
    exists i | 0 <= i < |rounds| :: rounds[i].Restarted()
  }

  ghost predicate RestartedOnce(b: Bump) {
    && CountCause(b.transitions, CauseRepairAbortedRestartRequeue) <= 1
    && (CountCause(b.transitions, CauseRepairAbortedRestartRequeue) == 1 ==> AnyRestarted(b.attempts))
  }

  lemma RestartsPersist(before: seq<RepairAttempt>, after: seq<RepairAttempt>)
    requires |before| <= |after|
    requires forall i | 0 <= i < |before| :: before[i].outcome.Some? ==> after[i].outcome == before[i].outcome
    ensures AnyRestarted(before) ==> AnyRestarted(after)
  {
    if i :| 0 <= i < |before| && before[i].Restarted() {
      assert after[i].Restarted();
    }
  }

  /** The open round is the last, so every restarted round is before it. */
  lemma RestartedBeforeOpenRound(rounds: seq<RepairAttempt>)
    requires RoundsOk(rounds) && rounds != [] && rounds[|rounds| - 1].Open()
    ensures RestartedBefore(rounds, rounds[|rounds| - 1].round) <==> AnyRestarted(rounds)
  {}

  /** Commands other than an outcome leave every recorded outcome alone and
      log no restart. */
  lemma OutcomesChangeOnlyByOutcome(t: Tracked, c: Command)
    requires Step(t, c).Ok? && !c.RecordOutcome?
    ensures var b, u := t.bump, Step(t, c).value.bump;
      && |u.attempts| == |b.attempts| + (if c.StartRepair? then 1 else 0)
      && (forall i | 0 <= i < |b.attempts| :: u.attempts[i].outcome == b.attempts[i].outcome && u.attempts[i].round == b.attempts[i].round)
      && (|u.transitions| > |b.transitions| ==> u.transitions[|b.transitions|].cause != CauseRepairAbortedRestartRequeue)
  {}

  /** What an outcome that logs a restart requeue says about the rounds. */
  lemma RequeueIsFirstRestart(t: Tracked, attemptId: Id, o: RepairOutcome, cap: int, maxRounds: int)
    requires Inv(t.bump, maxRounds) && StepOutcome(t, attemptId, o, cap).Ok?
    requires var b, u := t.bump, StepOutcome(t, attemptId, o, cap).value.bump;
      |u.transitions| > |b.transitions| && u.transitions[|b.transitions|].cause == CauseRepairAbortedRestartRequeue
    ensures !AnyRestarted(t.bump.attempts) && AnyRestarted(StepOutcome(t, attemptId, o, cap).value.bump.attempts)
  {
    var n := |t.bump.attempts| - 1;
    RestartedBeforeOpenRound(t.bump.attempts);
    assert StepOutcome(t, attemptId, o, cap).value.bump.attempts[n].Restarted();
  }

  lemma OutcomeRestartsOnce(t: Tracked, attemptId: Id, o: RepairOutcome, cap: int, maxRounds: int)
    requires Inv(t.bump, maxRounds) && RestartedOnce(t.bump)
    requires StepOutcome(t, attemptId, o, cap).Ok?
    ensures RestartedOnce(StepOutcome(t, attemptId, o, cap).value.bump)
  {
    var b, u := t.bump, StepOutcome(t, attemptId, o, cap).value.bump;
    RestartsPersist(b.attempts, u.attempts);
    if b.state == Repairing {
      CountAppend(b.transitions, u.transitions[|b.transitions|], CauseRepairAbortedRestartRequeue);
      if u.transitions[|b.transitions|].cause == CauseRepairAbortedRestartRequeue {
        RequeueIsFirstRestart(t, attemptId, o, cap, maxRounds);
      }
    }
  }

  lemma OthersRestartOnce(t: Tracked, c: Command)
    requires RestartedOnce(t.bump) && Step(t, c).Ok? && !c.RecordOutcome?
    ensures RestartedOnce(Step(t, c).value.bump)
  {
    OutcomesChangeOnlyByOutcome(t, c);
    StepCounts(t, c, CauseRepairAbortedRestartRequeue);
    RestartsPersist(t.bump.attempts, Step(t, c).value.bump.attempts);
  }

  lemma StepRestartsOnce(b: Bump, c: Command, maxRounds: int)
    requires Inv(b, maxRounds) && RestartedOnce(b)
    ensures RestartedOnce(After(b, c))
  {
    if Step(Clean(b), c).Ok? {
      if c.RecordOutcome? {
        OutcomeRestartsOnce(Clean(b), c.attemptId, c.outcome, c.maxRounds, maxRounds);
      } else {
        OthersRestartOnce(Clean(b), c);
      }
    }
  }

  /** A daemon restart requeues a bump at most once in its life, operator
      retries included. */
  lemma {:induction false} RestartRequeuesOnce(b: Bump, cmds: seq<Command>, maxRounds: int)
    requires Inv(b, maxRounds) && RestartedOnce(b) && CapsAtMost(cmds, maxRounds)
    ensures RestartedOnce(Exec(b, cmds))
    decreases |cmds|
  {
    if cmds != [] {
      StepRestartsOnce(b, cmds[0], maxRounds);
      AfterKeepsInv(b, cmds[0], maxRounds);
      RestartRequeuesOnce(After(b, cmds[0]), cmds[1..], maxRounds);
    }
  }

  // ----- A queued bump is below its cap -----

  ghost predicate QueuedBelowCap(b: Bump, maxRounds: int) {
    b.state == Queued ==> Rounds(b) < Cap(b, maxRounds)
  }

  /** Short of an operator retry, a bump is queued only while a round is left. */
  lemma QueueingNeedsARound(t: Tracked, c: Command)
    requires Step(t, c).Ok? && Step(t, c).value.bump.state == Queued && t.bump.state != Queued && !c.Retry?
    ensures CapOf(c).Some? && Rounds(t.bump) < Cap(t.bump, CapOf(c).value)
  {}

  lemma RetryLogsRetry(t: Tracked, at: Time)
    requires StepRetry(t, at).Ok?
    ensures var u := StepRetry(t, at).value.bump;
      u.attempts == t.bump.attempts && CountCause(u.transitions, CauseOperatorRetry) == CountCause(t.bump.transitions, CauseOperatorRetry) + 1
  {
    var u := StepRetry(t, at).value.bump;
    CountAppend(t.bump.transitions, u.transitions[|t.bump.transitions|], CauseOperatorRetry);
  }

  /** Queued stays below the cap: the log says how many rounds and grants the
      two bumps have. */
  lemma QueuedStaysBelowCap(b: Bump, u: Bump, maxRounds: int)
    requires Inv(b, maxRounds) && Inv(u, maxRounds) && Extends(b, u) && QueuedBelowCap(b, maxRounds)
    requires b.state != Queued && u.state == Queued ==> Rounds(b) < Cap(b, maxRounds)
    ensures QueuedBelowCap(u, maxRounds)
  {
    if u.transitions != b.transitions {
      var tr := u.transitions[|b.transitions|];
      assert u.transitions == b.transitions + [tr];
      CountAppend(b.transitions, tr, CauseOperatorRetry);
      CountAppend(b.transitions, tr, CauseRepairStarted);
      assert Listed(tr.from, tr.to, tr.cause);
    }
  }

  lemma StepQueuesBelowCap(b: Bump, c: Command, maxRounds: int)
    requires Inv(b, maxRounds) && QueuedBelowCap(b, maxRounds) && CapExactly(c, maxRounds)
    ensures QueuedBelowCap(After(b, c), maxRounds)
  {
    if Step(Clean(b), c).Ok? {
      if c.Retry? {
        RetryLogsRetry(Clean(b), c.at);
      } else {
        if b.state != Queued && After(b, c).state == Queued {
          QueueingNeedsARound(Clean(b), c);
        }
        AfterKeepsInv(b, c, maxRounds);
        AfterExtends(b, c);
        QueuedStaysBelowCap(b, After(b, c), maxRounds);
      }
    }
  }

  lemma {:induction false} QueuedIsBelowCap(b: Bump, cmds: seq<Command>, maxRounds: int)
    requires Inv(b, maxRounds) && QueuedBelowCap(b, maxRounds) && CapsExactly(cmds, maxRounds)
    ensures QueuedBelowCap(Exec(b, cmds), maxRounds)
    decreases |cmds|
  {
    if cmds != [] {
      StepQueuesBelowCap(b, cmds[0], maxRounds);
      AfterKeepsInv(b, cmds[0], maxRounds);
      QueuedIsBelowCap(After(b, cmds[0]), cmds[1..], maxRounds);
    }
  }

  // ----- The current head's verdict agrees with the state -----

  predicate Judged(b: Bump, sha: Sha, conclusion: CheckConclusion) {
    FindVerdict(b.verdicts, sha).Some? && FindVerdict(b.verdicts, sha).value.conclusion == conclusion
  }

  /** A bump that is queued or repairing has a failing verdict for its head, a
      green one a success, and every round started from a head that failed. */
  ghost predicate HeadJudged(b: Bump) {
    && StateJudged(b)
    && (forall i | 0 <= i < |b.attempts| :: Judged(b, b.attempts[i].baseSha, CheckFailure))
  }

  /** A push that lands after its round stopped being the bump's business, on
      a queued or green bump, and takes the head to a sha that has no verdict
      saying the same. */
  predicate StrayPush(b: Bump, c: Command) {
    && c.RecordOutcome? && c.outcome.kind == Pushed
    && ((b.state == Queued && !Judged(b, c.outcome.headSha, CheckFailure))
        || (b.state == Green && !Judged(b, c.outcome.headSha, CheckSuccess)))
  }

  lemma StepKeepsJudgements(b: Bump, c: Command, sha: Sha, conclusion: CheckConclusion)
    requires Step(Clean(b), c).Ok?
    requires Judged(b, sha, conclusion)
    ensures Judged(After(b, c), sha, conclusion)
  {
    if c.RecordVerdict? {
      FindVerdictAppend(b.verdicts, c.verdict, sha);
    }
  }

  /** Only a start adds a round, on the head of a queued bump. */
  lemma StartRecordsBase(t: Tracked, budget: Budget, brief: string, at: Time, cap: int)
    requires StepStart(t, budget, brief, at, cap).Ok?
    ensures var b, u := t.bump, StepStart(t, budget, brief, at, cap).value.bump;
      b.state == Queued && |u.attempts| == |b.attempts| + 1 && u.attempts[..|b.attempts|] == b.attempts && u.attempts[|b.attempts|].baseSha == b.headSha
  {}

  lemma OthersKeepBases(t: Tracked, c: Command)
    requires Step(t, c).Ok? && !c.StartRepair?
    ensures var b, u := t.bump, Step(t, c).value.bump;
      |u.attempts| == |b.attempts| && forall i | 0 <= i < |b.attempts| :: u.attempts[i].baseSha == b.attempts[i].baseSha
  {}

  /** Rounds already recorded keep their base; a new one takes the head. */
  lemma BasesAreRecorded(t: Tracked, c: Command)
    requires Step(t, c).Ok?
    ensures var b, u := t.bump, Step(t, c).value.bump;
      && |b.attempts| <= |u.attempts|
      && (forall i | 0 <= i < |b.attempts| :: u.attempts[i].baseSha == b.attempts[i].baseSha)
      && (forall i | |b.attempts| <= i < |u.attempts| :: u.attempts[i].baseSha == b.headSha && b.state == Queued)
  {
    if c.StartRepair? {
      StartRecordsBase(t, c.budget, c.brief, c.at, c.maxRounds);
      var u := StepStart(t, c.budget, c.brief, c.at, c.maxRounds).value.bump;
      forall i | 0 <= i < |t.bump.attempts| ensures u.attempts[i].baseSha == t.bump.attempts[i].baseSha {
        assert u.attempts[..|t.bump.attempts|][i] == u.attempts[i];
      }
    } else {
      OthersKeepBases(t, c);
    }
  }

  lemma StepKeepsBasesJudged(b: Bump, c: Command)
    requires HeadJudged(b) && Step(Clean(b), c).Ok?
    ensures forall i | 0 <= i < |After(b, c).attempts| :: Judged(After(b, c), After(b, c).attempts[i].baseSha, CheckFailure)
  {
    BasesAreRecorded(Clean(b), c);
    var u := After(b, c);
    forall i | 0 <= i < |u.attempts| ensures Judged(u, u.attempts[i].baseSha, CheckFailure) {
      StepKeepsJudgements(b, c, u.attempts[i].baseSha, CheckFailure);
    }
  }

  /** State and current verdict agree; the part of `HeadJudged` a move can break. */
  predicate StateJudged(b: Bump) {
    && (b.state in {Queued, Repairing} ==> Judged(b, b.headSha, CheckFailure))
    && (b.state == Green ==> Judged(b, b.headSha, CheckSuccess))
  }

  lemma VerdictJudgesHead(t: Tracked, v: CheckVerdict, cap: int)
    requires StepVerdict(t, v, cap).Ok?
    ensures StateJudged(StepVerdict(t, v, cap).value.bump)
  {
    FindVerdictAppend(t.bump.verdicts, v, v.headSha);
  }

  lemma OutcomeJudgesHead(t: Tracked, attemptId: Id, o: RepairOutcome, cap: int, maxRounds: int)
    requires Inv(t.bump, maxRounds) && StateJudged(t.bump)
    requires StepOutcome(t, attemptId, o, cap).Ok?
    ensures StateJudged(StepOutcome(t, attemptId, o, cap).value.bump) <==> !StrayPush(t.bump, RecordOutcome(attemptId, o, cap))
  {
    var i := FirstOpen(t.bump.attempts);
    if t.bump.state == Repairing {
      EndingIsListed(t.bump, t.bump.attempts[i].round, o, cap);
    }
  }

  lemma RetryJudgesHead(t: Tracked, at: Time, maxRounds: int)
    requires Inv(t.bump, maxRounds) && StepRetry(t, at).Ok?
    ensures StateJudged(StepRetry(t, at).value.bump)
  {
    VerdictsAreConclusive(t.bump, maxRounds);
  }

  lemma OthersJudgeHead(t: Tracked, c: Command)
    requires StateJudged(t.bump)
    requires Step(t, c).Ok? && !c.RecordVerdict? && !c.RecordOutcome? && !c.Retry?
    ensures StateJudged(Step(t, c).value.bump)
  {}

  /** The stray push is exactly what breaks the agreement. */
  lemma StepJudgesHead(b: Bump, c: Command, maxRounds: int)
    requires Inv(b, maxRounds) && HeadJudged(b)
    requires Step(Clean(b), c).Ok?
    ensures HeadJudged(After(b, c)) <==> !StrayPush(b, c)
  {
    StepKeepsBasesJudged(b, c);
    match c
    case RecordVerdict(v, cap) => VerdictJudgesHead(Clean(b), v, cap);
    case RecordOutcome(attemptId, o, cap) => OutcomeJudgesHead(Clean(b), attemptId, o, cap, maxRounds);
    case Retry(at) => RetryJudgesHead(Clean(b), at, maxRounds);
    case _ => OthersJudgeHead(Clean(b), c);
  }

  lemma VerdictsAreConclusive(b: Bump, maxRounds: int)
    requires Inv(b, maxRounds)
    ensures CurrentVerdict(b).Some? ==> CurrentVerdict(b).value.conclusion != ConclusionUnset
  {
    FindVerdictFinds(b.verdicts, b.headSha);
  }

  ghost predicate JudgedThroughout(b: Bump, cmds: seq<Command>)
    decreases |cmds|
  {
    HeadJudged(b) && (cmds != [] ==> JudgedThroughout(After(b, cmds[0]), cmds[1..]))
  }

  ghost predicate NoStrayPush(b: Bump, cmds: seq<Command>)
    decreases |cmds|
  {
    cmds != [] ==>
      && (Step(Clean(b), cmds[0]).Ok? ==> !StrayPush(b, cmds[0]))
      && NoStrayPush(After(b, cmds[0]), cmds[1..])
  }

  /** Over any run, state and current verdict agree at every point exactly when
      no stray push was accepted along the way. */
  lemma {:induction false} JudgedExactlyWithoutStrayPush(b: Bump, cmds: seq<Command>, maxRounds: int)
    requires Inv(b, maxRounds) && HeadJudged(b) && CapsAtMost(cmds, maxRounds)
    ensures JudgedThroughout(b, cmds) <==> NoStrayPush(b, cmds)
    decreases |cmds|
  {
    if cmds != [] {
      var b' := After(b, cmds[0]);
      if Step(Clean(b), cmds[0]).Ok? {
        StepJudgesHead(b, cmds[0], maxRounds);
      }
      AfterKeepsInv(b, cmds[0], maxRounds);
      if HeadJudged(b') {
        JudgedExactlyWithoutStrayPush(b', cmds[1..], maxRounds);
      }
    }
  }

  /** A queued bump with no round open is one the scheduler can start exactly
      when its head has a failing verdict, given a real budget and a title. */
  lemma QueuedCanBeScheduled(b: Bump, budget: Budget, title: string, brief: string, at: Time, maxRounds: int)
    requires Inv(b, maxRounds) && QueuedBelowCap(b, maxRounds)
    requires b.state == Queued && FirstOpen(b.attempts) == |b.attempts|
    requires budget.maxTurns > 0 && title != "" && brief != ""
    ensures ScheduleRound(b, budget, title, brief, at, maxRounds).Ok? <==> Judged(b, b.headSha, CheckFailure)
  {}

  /** An operator retry of a green bump is refused exactly when the current
      head's checks passed. */
  lemma GreenRetryIsRefused(b: Bump, at: Time, maxRounds: int)
    requires Inv(b, maxRounds) && b.state == Green
    ensures Step(Clean(b), Retry(at)) == Err(Refused) <==> Judged(b, b.headSha, CheckSuccess)
  {
    VerdictsAreConclusive(b, maxRounds);
  }
}
