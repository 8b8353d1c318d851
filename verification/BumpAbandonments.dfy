/** Why autophage gave a bump up, and whether the facts agree: what the rounds,
    the cap and the log say about each recorded reason. */
module BumpAbandonments {
  import opened Kernel
  import opened UpkeepFacts
  import opened BumpModel
  import opened BumpInvariant
  import opened BumpRuns

  // ----- What the rounds say -----

  ghost predicate LastOutcome(b: Bump, kind: RepairOutcomeKind) {
    && b.attempts != [] && b.attempts[|b.attempts| - 1].outcome.Some?
    && b.attempts[|b.attempts| - 1].outcome.value.kind == kind
    && b.abandonment.Some? && b.abandonment.value.detail == b.attempts[|b.attempts| - 1].outcome.value.summary
  }

  /** Why autophage stopped, read back from the rounds and the cap. Checks that
      never concluded are no round's doing: `GaveUpWaiting` is about them. */
  ghost predicate RoundsBearOut(b: Bump, maxRounds: int) {
    b.abandonment.Some? ==>
      match b.abandonment.value.reason
      case AbandonRoundsExhausted => Rounds(b) == Cap(b, maxRounds)
      case AbandonNoChange => LastOutcome(b, NoChange)
      case AbandonBudgetExhausted => LastOutcome(b, BudgetExhausted)
      case AbandonRepairFailed =>
        LastOutcome(b, RepairFailed) && b.attempts[|b.attempts| - 1].outcome.value.failureClass in {FailureModel, FailureAgent}
      case AbandonOperatorStop =>
        LastOutcome(b, RepairAborted) && b.attempts[|b.attempts| - 1].outcome.value.reason == AbortOperatorStop
      case AbandonRestartFailed =>
        LastOutcome(b, RepairAborted) && b.attempts[|b.attempts| - 1].Restarted() && RestartedBefore(b.attempts, |b.attempts|)
      case AbandonChecksNeverConcluded => true
      case AbandonUnset => false
  }

  /** Outcomes, grants and the abandonment are all the support looks at. */
  lemma SupportFrame(b: Bump, u: Bump, maxRounds: int)
    requires RoundsBearOut(b, maxRounds)
    requires u.abandonment == b.abandonment && |u.attempts| == |b.attempts| && Retries(u) == Retries(b)
    requires forall i | 0 <= i < |b.attempts| :: u.attempts[i].outcome == b.attempts[i].outcome && u.attempts[i].round == b.attempts[i].round
    ensures RoundsBearOut(u, maxRounds)
  {
    if RestartedBefore(b.attempts, |b.attempts|) {
      var i :| 0 <= i < |b.attempts| && b.attempts[i].round < |b.attempts| && b.attempts[i].Restarted();
      assert u.attempts[i].Restarted();
    }
  }

  /** A verdict gives a bump up only when it has no round left. */
  lemma VerdictAbandonsAtCap(b: Bump, v: CheckVerdict, maxRounds: int)
    requires WithinCap(b, maxRounds)
    ensures var e := VerdictMove(b, v, maxRounds);
      && e.cause != CauseOperatorRetry
      && (e.reason.Some? ==> e.reason.value == AbandonRoundsExhausted && Rounds(b) == Cap(b, maxRounds))
  {}

  lemma VerdictIsSupported(t: Tracked, v: CheckVerdict, maxRounds: int)
    requires Inv(t.bump, maxRounds) && StepVerdict(t, v, maxRounds).Ok?
    ensures RoundsBearOut(StepVerdict(t, v, maxRounds).value.bump, maxRounds)
  {
    var b, e := t.bump, VerdictMove(t.bump, v, maxRounds);
    var added := Tracked(b.(verdicts := b.verdicts + [v]), t.changes.(verdicts := t.changes.verdicts + [v]));
    VerdictAbandonsAtCap(b, v, maxRounds);
    FinishIsSupported(added, e, v.failingContexts, v.concludedAt, maxRounds);
  }

  lemma FinishIsSupported(t: Tracked, e: Ending, detail: string, at: Time, maxRounds: int)
    requires t.bump.abandonment.None? && e.cause != CauseOperatorRetry
    requires e.reason.Some? ==> e.reason.value == AbandonRoundsExhausted && Rounds(t.bump) == Cap(t.bump, maxRounds)
    ensures RoundsBearOut(Finish(t, e, detail, at).bump, maxRounds)
  {
    var u := Finish(t, e, detail, at).bump;
    CountAppend(t.bump.transitions, u.transitions[|t.bump.transitions|], CauseOperatorRetry);
  }

  /** What an abandonment at the end of a round has to find in the outcome it came from. */
  ghost predicate ReasonFits(b: Bump, o: RepairOutcome, reason: AbandonReason, maxRounds: int) {
    match reason
    case AbandonRoundsExhausted => Rounds(b) == Cap(b, maxRounds)
    case AbandonNoChange => o.kind == NoChange
    case AbandonBudgetExhausted => o.kind == BudgetExhausted
    case AbandonRepairFailed => o.kind == RepairFailed && o.failureClass in {FailureModel, FailureAgent}
    case AbandonOperatorStop => o.kind == RepairAborted && o.reason == AbortOperatorStop
    case AbandonRestartFailed => o.kind == RepairAborted && o.reason == AbortDaemonRestart && AnyRestarted(b.attempts)
    case _ => false
  }

  lemma EndingReason(b: Bump, o: RepairOutcome, maxRounds: int)
    requires Inv(b, maxRounds) && b.state == Repairing && ValidOutcome(o)
    ensures var e := OutcomeMove(b, b.attempts[|b.attempts| - 1].round, o, maxRounds);
      e.reason.Some? ==> ReasonFits(b, o, e.reason.value, maxRounds)
  {
    RestartedBeforeOpenRound(b.attempts);
  }

  lemma EarlierRestart(before: seq<RepairAttempt>, after: seq<RepairAttempt>)
    requires RoundsOk(before) && AnyRestarted(before) && before[|before| - 1].Open()
    requires |after| == |before| && forall i | 0 <= i < |before| - 1 :: after[i] == before[i]
    ensures RestartedBefore(after, |after|)
  {
    var i :| 0 <= i < |before| && before[i].Restarted();
    assert after[i].round < |after| && after[i].Restarted();
  }

  /** The bump after its running round ended, told by its parts. */
  ghost predicate EndedWith(b: Bump, u: Bump, o: RepairOutcome, e: Ending) {
    && b.attempts != []
    && u.attempts == b.attempts[|b.attempts| - 1 := b.attempts[|b.attempts| - 1].(outcome := Some(o))]
    && Retries(u) == Retries(b)
    && (e.reason.Some? ==> u.abandonment.Some? && u.abandonment.value.reason == e.reason.value && u.abandonment.value.detail == o.summary)
    && (e.reason.None? ==> u.abandonment.None?)
  }

  lemma EndingSupports(b: Bump, u: Bump, o: RepairOutcome, e: Ending, maxRounds: int)
    requires RoundsOk(b.attempts) && EndedWith(b, u, o, e) && b.attempts[|b.attempts| - 1].Open()
    requires e.reason.Some? ==> ReasonFits(b, o, e.reason.value, maxRounds)
    ensures RoundsBearOut(u, maxRounds)
  {
    assert u.attempts[|b.attempts| - 1].outcome == Some(o);
    if e.reason == Some(AbandonRestartFailed) {
      EarlierRestart(b.attempts, u.attempts);
    }
  }

  lemma RunningRoundEnds(t: Tracked, attemptId: Id, o: RepairOutcome, maxRounds: int)
    requires RoundsOk(t.bump.attempts) && t.bump.attempts != [] && t.bump.state == Repairing && t.bump.abandonment.None?
    requires StepOutcome(t, attemptId, o, maxRounds).Ok?
    ensures ValidOutcome(o) && t.bump.attempts[|t.bump.attempts| - 1].Open()
    ensures EndedWith(t.bump, StepOutcome(t, attemptId, o, maxRounds).value.bump, o,
      OutcomeMove(t.bump, t.bump.attempts[|t.bump.attempts| - 1].round, o, maxRounds))
  {
    var b, u := t.bump, StepOutcome(t, attemptId, o, maxRounds).value.bump;
    assert FirstOpen(b.attempts) == |b.attempts| - 1;
    EndingIsListed(b, b.attempts[|b.attempts| - 1].round, o, maxRounds);
    CountAppend(b.transitions, u.transitions[|b.transitions|], CauseOperatorRetry);
  }

  /** The end of a repairing bump's round is what the abandonment quotes. */
  lemma EndingIsSupported(t: Tracked, attemptId: Id, o: RepairOutcome, maxRounds: int)
    requires Inv(t.bump, maxRounds) && t.bump.state == Repairing
    requires StepOutcome(t, attemptId, o, maxRounds).Ok?
    ensures RoundsBearOut(StepOutcome(t, attemptId, o, maxRounds).value.bump, maxRounds)
  {
    RunningRoundEnds(t, attemptId, o, maxRounds);
    EndingReason(t.bump, o, maxRounds);
    EndingSupports(t.bump, StepOutcome(t, attemptId, o, maxRounds).value.bump, o,
      OutcomeMove(t.bump, t.bump.attempts[|t.bump.attempts| - 1].round, o, maxRounds), maxRounds);
  }

  /** A round that outlives the abandonment was not the one that caused it. */
  lemma LateOutcomeIsSupported(b: Bump, u: Bump, maxRounds: int)
    requires RoundsBearOut(b, maxRounds) && b.attempts != [] && b.attempts[|b.attempts| - 1].Open()
    requires u.abandonment == b.abandonment && u.transitions == b.transitions && |u.attempts| == |b.attempts|
    ensures RoundsBearOut(u, maxRounds)
  {}

  lemma OutcomeIsSupported(t: Tracked, attemptId: Id, o: RepairOutcome, maxRounds: int)
    requires Inv(t.bump, maxRounds) && RoundsBearOut(t.bump, maxRounds)
    requires StepOutcome(t, attemptId, o, maxRounds).Ok?
    ensures RoundsBearOut(StepOutcome(t, attemptId, o, maxRounds).value.bump, maxRounds)
  {
    if t.bump.state == Repairing {
      EndingIsSupported(t, attemptId, o, maxRounds);
    } else {
      LateOutcomeIsSupported(t.bump, StepOutcome(t, attemptId, o, maxRounds).value.bump, maxRounds);
    }
  }

  /** The remaining commands leave the abandonment alone, drop it, or record
      the one reason no round has to bear out. */
  lemma OthersKeepReason(t: Tracked, c: Command, maxRounds: int)
    requires Inv(t.bump, maxRounds) && Step(t, c).Ok? && !c.RecordVerdict? && !c.RecordOutcome?
    ensures var b, u := t.bump, Step(t, c).value.bump;
      || u.abandonment.None? || u.abandonment.value.reason == AbandonChecksNeverConcluded
      || (u.abandonment == b.abandonment && (c.RecordRun? || c.Close?))
  {}

  lemma StepBearsOut(b: Bump, c: Command, maxRounds: int)
    requires Inv(b, maxRounds) && RoundsBearOut(b, maxRounds) && CapExactly(c, maxRounds)
    ensures RoundsBearOut(After(b, c), maxRounds)
  {
    if Step(Clean(b), c).Ok? {
      if c.RecordVerdict? {
        VerdictIsSupported(Clean(b), c.verdict, maxRounds);
      } else if c.RecordOutcome? {
        OutcomeIsSupported(Clean(b), c.attemptId, c.outcome, maxRounds);
      } else {
        OthersKeepReason(Clean(b), c, maxRounds);
        if c.RecordRun? || c.Close? {
          OutcomesChangeOnlyByOutcome(Clean(b), c);
          StepCounts(Clean(b), c, CauseOperatorRetry);
          SupportFrame(b, After(b, c), maxRounds);
        }
      }
    }
  }

  // ----- What the log says of checks that never concluded -----

  /** The state the latest giving up left. */
  function GivenUpFrom(log: seq<BumpTransition>): Option<BumpState> {
    if log == [] then None
    else if log[|log| - 1].to == Abandoned then Some(log[|log| - 1].from)
    else GivenUpFrom(log[..|log| - 1])
  }

  lemma GivenUpAppend(log: seq<BumpTransition>, tr: BumpTransition)
    ensures GivenUpFrom(log + [tr]) == if tr.to == Abandoned then Some(tr.from) else GivenUpFrom(log)
  {
    assert (log + [tr])[..|log|] == log;
  }

  predicate NeverConcluded(b: Bump) {
    b.abandonment.Some? && b.abandonment.value.reason == AbandonChecksNeverConcluded
  }

  /** A bump given up because its checks never concluded was waiting for them. */
  predicate GaveUpWaiting(b: Bump) {
    NeverConcluded(b) ==> GivenUpFrom(b.transitions) == Some(AwaitingChecks)
  }

  /** Giving up on the checks of a bump that no longer waits for any. The sweep
      that gives up looks for waiting bumps first, and whatever lands in between
      is not looked at again. */
  predicate LateGiveUp(b: Bump, c: Command) {
    c.Abandon? && b.state != AwaitingChecks
  }

  /** A running round does not end for want of checks. */
  lemma EndingConcludes(b: Bump, round: nat, o: RepairOutcome, cap: int)
    ensures OutcomeMove(b, round, o, cap).reason != Some(AbandonChecksNeverConcluded)
  {}

  lemma OutcomeConcludes(t: Tracked, attemptId: Id, o: RepairOutcome, cap: int, maxRounds: int)
    requires Inv(t.bump, maxRounds) && StepOutcome(t, attemptId, o, cap).Ok?
    requires NeverConcluded(StepOutcome(t, attemptId, o, cap).value.bump)
    ensures NeverConcluded(t.bump) && StepOutcome(t, attemptId, o, cap).value.bump.transitions == t.bump.transitions
  {
    if t.bump.state == Repairing {
      EndingConcludes(t.bump, t.bump.attempts[FirstOpen(t.bump.attempts)].round, o, cap);
    }
  }

  /** A command that keeps this reason logs nothing but a closing. */
  lemma OthersConclude(t: Tracked, c: Command, maxRounds: int)
    requires Inv(t.bump, maxRounds) && Step(t, c).Ok? && !c.Abandon? && !c.RecordOutcome?
    requires NeverConcluded(Step(t, c).value.bump)
    ensures NeverConcluded(t.bump)
    ensures var u := Step(t, c).value.bump;
      u.transitions == t.bump.transitions || (u.state == Closed && |u.transitions| > |t.bump.transitions|)
  {}

  lemma LogKeepsGivenUp(b: Bump, u: Bump)
    requires Extends(b, u) && (u.transitions == b.transitions || u.state == Closed)
    ensures GivenUpFrom(u.transitions) == GivenUpFrom(b.transitions)
  {
    if u.transitions != b.transitions {
      assert u.transitions == b.transitions + [u.transitions[|b.transitions|]];
      GivenUpAppend(b.transitions, u.transitions[|b.transitions|]);
    }
  }

  /** Every other command records another reason, or leaves it and the giving up
      it was logged with alone. */
  lemma OthersKeepGivenUp(b: Bump, c: Command, maxRounds: int)
    requires Inv(b, maxRounds) && Step(Clean(b), c).Ok? && !c.Abandon?
    ensures NeverConcluded(After(b, c)) ==> NeverConcluded(b) && GivenUpFrom(After(b, c).transitions) == GivenUpFrom(b.transitions)
  {
    if NeverConcluded(After(b, c)) {
      if c.RecordOutcome? {
        OutcomeConcludes(Clean(b), c.attemptId, c.outcome, c.maxRounds, maxRounds);
      } else {
        OthersConclude(Clean(b), c, maxRounds);
      }
      AfterExtends(b, c);
      LogKeepsGivenUp(b, After(b, c));
    }
  }

  lemma GivingUpIsLogged(b: Bump, a: BumpAbandonment)
    requires StepAbandon(Clean(b), a).Ok?
    ensures var u := After(b, Abandon(a));
      NeverConcluded(u) && GivenUpFrom(u.transitions) == Some(b.state)
  {
    GivenUpAppend(b.transitions, After(b, Abandon(a)).transitions[|b.transitions|]);
  }

  /** The late give-up is exactly what records the reason against the log. */
  lemma StepGivesUpWaiting(b: Bump, c: Command, maxRounds: int)
    requires Inv(b, maxRounds) && GaveUpWaiting(b) && Step(Clean(b), c).Ok?
    ensures GaveUpWaiting(After(b, c)) <==> !LateGiveUp(b, c)
  {
    if c.Abandon? {
      GivingUpIsLogged(b, c.abandonment);
    } else {
      OthersKeepGivenUp(b, c, maxRounds);
    }
  }

  // ----- Over whole runs -----

  /** The recorded reason is one the facts bear out, whichever it is. */
  ghost predicate Supported(b: Bump, maxRounds: int) {
    RoundsBearOut(b, maxRounds) && GaveUpWaiting(b)
  }

  lemma StepIsSupported(b: Bump, c: Command, maxRounds: int)
    requires Inv(b, maxRounds) && Supported(b, maxRounds) && CapExactly(c, maxRounds) && Step(Clean(b), c).Ok?
    ensures Supported(After(b, c), maxRounds) <==> !LateGiveUp(b, c)
  {
    StepBearsOut(b, c, maxRounds);
    StepGivesUpWaiting(b, c, maxRounds);
  }

  ghost predicate SupportedThroughout(b: Bump, cmds: seq<Command>, maxRounds: int)
    decreases |cmds|
  {
    Supported(b, maxRounds) && (cmds != [] ==> SupportedThroughout(After(b, cmds[0]), cmds[1..], maxRounds))
  }

  predicate NoLateGiveUp(b: Bump, cmds: seq<Command>)
    decreases |cmds|
  {
    cmds != [] ==>
      && (Step(Clean(b), cmds[0]).Ok? ==> !LateGiveUp(b, cmds[0]))
      && NoLateGiveUp(After(b, cmds[0]), cmds[1..])
  }

  /** Over any run, the recorded reason is borne out at every point exactly when
      nobody gave up on the checks of a bump that had stopped waiting. */
  lemma {:induction false} AbandonmentIsSupported(b: Bump, cmds: seq<Command>, maxRounds: int)
    requires Inv(b, maxRounds) && Supported(b, maxRounds) && CapsExactly(cmds, maxRounds)
    ensures SupportedThroughout(b, cmds, maxRounds) <==> NoLateGiveUp(b, cmds)
    decreases |cmds|
  {
    if cmds != [] {
      if Step(Clean(b), cmds[0]).Ok? {
        StepIsSupported(b, cmds[0], maxRounds);
      }
      AfterKeepsInv(b, cmds[0], maxRounds);
      if Supported(After(b, cmds[0]), maxRounds) {
        AbandonmentIsSupported(After(b, cmds[0]), cmds[1..], maxRounds);
      }
    }
  }

  /** Every reason but that one is borne out in every run there is. */
  lemma {:induction false} RoundsBearReasonsOut(b: Bump, cmds: seq<Command>, maxRounds: int)
    requires Inv(b, maxRounds) && RoundsBearOut(b, maxRounds) && CapsExactly(cmds, maxRounds)
    ensures RoundsBearOut(Exec(b, cmds), maxRounds)
    decreases |cmds|
  {
    if cmds != [] {
      StepBearsOut(b, cmds[0], maxRounds);
      AfterKeepsInv(b, cmds[0], maxRounds);
      RoundsBearReasonsOut(After(b, cmds[0]), cmds[1..], maxRounds);
    }
  }

  // ----- No verdict, which is the point -----

  /** A bump given up on its checks has no verdict for its head. */
  predicate Unjudged(b: Bump) {
    b.state == Abandoned && NeverConcluded(b) ==> CurrentVerdict(b).None?
  }

  /** Giving up on a head that has a verdict, waiting or not, or a round's push
      that takes a bump already given up to such a head. */
  predicate Contradicts(b: Bump, c: Command) {
    || (c.Abandon? && CurrentVerdict(b).Some?)
    || (b.state == Abandoned && NeverConcluded(b)
        && c.RecordOutcome? && c.outcome.kind == Pushed && FindVerdict(b.verdicts, c.outcome.headSha).Some?)
  }

  lemma StepStaysUnjudged(b: Bump, c: Command, maxRounds: int)
    requires Inv(b, maxRounds) && Unjudged(b) && Step(Clean(b), c).Ok?
    ensures Unjudged(After(b, c)) <==> !Contradicts(b, c)
  {
    if !c.Abandon? {
      OthersKeepGivenUp(b, c, maxRounds);
    }
  }

  ghost predicate UnjudgedThroughout(b: Bump, cmds: seq<Command>)
    decreases |cmds|
  {
    Unjudged(b) && (cmds != [] ==> UnjudgedThroughout(After(b, cmds[0]), cmds[1..]))
  }

  predicate NoContradiction(b: Bump, cmds: seq<Command>)
    decreases |cmds|
  {
    cmds != [] ==>
      && (Step(Clean(b), cmds[0]).Ok? ==> !Contradicts(b, cmds[0]))
      && NoContradiction(After(b, cmds[0]), cmds[1..])
  }

  /** Over any run, a bump given up on its checks has no verdict for its head
      exactly when no command contradicted it. */
  lemma {:induction false} UnjudgedExactlyWithoutContradiction(b: Bump, cmds: seq<Command>, maxRounds: int)
    requires Inv(b, maxRounds) && Unjudged(b) && CapsAtMost(cmds, maxRounds)
    ensures UnjudgedThroughout(b, cmds) <==> NoContradiction(b, cmds)
    decreases |cmds|
  {
    if cmds != [] {
      if Step(Clean(b), cmds[0]).Ok? {
        StepStaysUnjudged(b, cmds[0], maxRounds);
      }
      AfterKeepsInv(b, cmds[0], maxRounds);
      if Unjudged(After(b, cmds[0])) {
        UnjudgedExactlyWithoutContradiction(After(b, cmds[0]), cmds[1..], maxRounds);
      }
    }
  }

  /** Where no stray push has been, a late give-up always has a verdict against it. */
  lemma LateGiveUpContradicts(b: Bump, c: Command)
    requires HeadJudged(b) && LateGiveUp(b, c) && Step(Clean(b), c).Ok?
    ensures Contradicts(b, c)
  {}

  /** What an operator retry makes of an abandoned bump: it waits again exactly
      when its head has no verdict, and is refused exactly when its head passed. */
  lemma RetryOfAbandoned(b: Bump, at: Time, maxRounds: int)
    requires Inv(b, maxRounds) && b.state == Abandoned
    ensures After(b, Retry(at)).state == AwaitingChecks <==> CurrentVerdict(b).None?
    ensures After(b, Retry(at)).state == Queued <==> Judged(b, b.headSha, CheckFailure)
    ensures Step(Clean(b), Retry(at)) == Err(Refused) <==> Judged(b, b.headSha, CheckSuccess)
  {
    VerdictsAreConclusive(b, maxRounds);
  }

  /** An abandoned bump whose head passed leaves that state by closing and by
      nothing else, as long as its head stays. */
  lemma PassedAndAbandonedOnlyCloses(b: Bump, c: Command, maxRounds: int)
    requires Inv(b, maxRounds) && b.state == Abandoned && Judged(b, b.headSha, CheckSuccess)
    ensures After(b, c).state != Abandoned ==> c.Close?
  {
    VerdictsAreConclusive(b, maxRounds);
  }
}
