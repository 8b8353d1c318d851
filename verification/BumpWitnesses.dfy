/** Concrete runs that show a bound is tight and a hypothesis is needed. */
module BumpWitnesses {
  import opened Kernel
  import opened UpkeepFacts
  import opened BumpModel
  import opened BumpInvariant
  import opened BumpRuns
  import opened BumpAbandonments
  import opened RepairBrief

  const SHA_A: Sha := "aaaaaaaaaaaaaaaaaaaaaaaaaaaaaaaaaaaaaaaa"
  const SHA_B: Sha := "bbbbbbbbbbbbbbbbbbbbbbbbbbbbbbbbbbbbbbbb"
  const SHA_C: Sha := "cccccccccccccccccccccccccccccccccccccccc"

  const LIMITS: Budget := BudgetLimits(20, 1_000_000_000, 400)

  function Opened(): Bump {
    Bump(0, BumpKey("o/r", 7), "dependabot/x", "main", 0, SHA_A, AwaitingChecks, [], [], [], None, None)
  }

  function Failing(sha: Sha): CheckVerdict {
    CheckVerdict(0, sha, CheckFailure, "test", "", 1)
  }

  function Passing(sha: Sha): CheckVerdict {
    CheckVerdict(0, sha, CheckSuccess, "", "", 1)
  }

  function PushOf(sha: Sha): RepairOutcome {
    RepairOutcome(Pushed, 3, Usage(1, 1, 1, 1, 1), "done", sha, LimitUnset, FailureUnset, "", AbortUnset)
  }

  lemma OpenedIsNew()
    ensures NewBump(BumpKey("o/r", 7), "dependabot/x", "main", SHA_A, 0) == Ok(Opened())
    ensures ValidSha(SHA_A) && ValidSha(SHA_B) && ValidSha(SHA_C)
    ensures SHA_A != SHA_B && SHA_B != SHA_C && SHA_A != SHA_C
  {
    assert SHA_A[0] != SHA_B[0] && SHA_B[0] != SHA_C[0] && SHA_A[0] != SHA_C[0];
  }

  // ----- One accepted command at a time -----

  function Logged(b: Bump, to: BumpState, cause: BumpCause, at: Time): Bump {
    b.(state := to, transitions := b.transitions + [BumpTransition(b.state, to, cause, at)])
  }

  lemma Fails(b: Bump, v: CheckVerdict, cap: int)
    requires ValidVerdict(v) && v.conclusion == CheckFailure && b.state == AwaitingChecks && v.headSha == b.headSha
    requires CurrentVerdict(b).None? && Rounds(b) < Cap(b, cap)
    ensures After(b, RecordVerdict(v, cap)) == Logged(b.(verdicts := b.verdicts + [v]), Queued, CauseVerdictFailure, v.concludedAt)
  {}

  lemma Passes(b: Bump, v: CheckVerdict, cap: int)
    requires ValidVerdict(v) && v.conclusion == CheckSuccess && b.state == AwaitingChecks && v.headSha == b.headSha
    requires CurrentVerdict(b).None?
    ensures After(b, RecordVerdict(v, cap)) == Logged(b.(verdicts := b.verdicts + [v]), Green, CauseVerdictSuccess, v.concludedAt)
  {}

  lemma Starts(b: Bump, cap: int)
    requires b.state == Queued && b.attempts == [] && 0 < Cap(b, cap)
    ensures After(b, StartRepair(LIMITS, "fix", 2, cap)) ==
      Logged(b.(attempts := [NextRound(b, LIMITS, "fix", 2)]), Repairing, CauseRepairStarted, 2)
  {}

  lemma Advances(b: Bump, sha: Sha, at: Time)
    requires ValidSha(sha) && sha != b.headSha && b.state == Repairing
    ensures After(b, AdvanceHead(sha, at)) == Logged(b.(headSha := sha), AwaitingChecks, CauseHeadAdvanced, at)
  {}

  lemma Pushes(b: Bump, o: RepairOutcome, cap: int)
    requires |b.attempts| == 1 && b.attempts[0].Open() && ValidOutcome(o) && o.kind == Pushed && o.headSha != b.attempts[0].baseSha
    ensures var ended := b.(headSha := o.headSha, attempts := [b.attempts[0].(outcome := Some(o))]);
      After(b, RecordOutcome(0, o, cap)) ==
        if b.state == Repairing then Logged(ended, AwaitingChecks, CauseRepairPushed, o.endedAt) else ended
  {
    assert FirstOpen(b.attempts) == 0;
    assert b.attempts[0 := b.attempts[0].(outcome := Some(o))] == [b.attempts[0].(outcome := Some(o))];
  }

  lemma GivesUp(b: Bump, a: BumpAbandonment)
    requires a.reason == AbandonChecksNeverConcluded && a.detail != "" && b.state == Green
    ensures After(b, Abandon(a)) == Logged(b.(abandonment := Some(a)), Abandoned, CauseChecksNeverConcluded, a.abandonedAt)
  {}

  lemma Closes(b: Bump, cl: BumpClosure)
    requires cl.kind != ClosureUnset && cl.deliveryId != "" && b.state != Closed
    ensures After(b, Close(cl)) == Logged(b.(closure := Some(cl)), Closed, CauseBumpClosed, cl.closedAt)
  {}

  lemma {:induction false} ExecConcat(b: Bump, first: seq<Command>, rest: seq<Command>)
    ensures Exec(b, first + rest) == Exec(Exec(b, first), rest)
    decreases |first|
  {
    if first == [] {
      assert first + rest == rest;
    } else {
      assert (first + rest)[1..] == first[1..] + rest;
      ExecConcat(After(b, first[0]), first[1..], rest);
    }
  }

  lemma ExecPair(b: Bump, c: Command, d: Command, u: Bump)
    requires After(b, c) == u
    ensures Exec(b, [c, d]) == After(u, d)
  {
    assert [c, d][1..] == [d] && [d][1..] == [];
    assert Exec(u, [d]) == Exec(After(u, d), []);
  }

  lemma VerdictsOfOneHead(sha: Sha)
    ensures FindVerdict([Failing(SHA_A)], sha) == if sha == SHA_A then Some(Failing(SHA_A)) else None
  {}

  // ----- The runs -----

  function FirstRound(cap: int): seq<Command> {
    [RecordVerdict(Failing(SHA_A), cap), StartRepair(LIMITS, "fix", 2, cap)]
  }

  /** The opened bump after its first failing verdict and the round it starts. */
  function InFirstRound(): Bump {
    var queued := Logged(Opened().(verdicts := [Failing(SHA_A)]), Queued, CauseVerdictFailure, 1);
    Logged(queued.(attempts := [NextRound(queued, LIMITS, "fix", 2)]), Repairing, CauseRepairStarted, 2)
  }

  lemma FirstRoundRuns(cap: int)
    requires cap >= 1
    ensures Exec(Opened(), FirstRound(cap)) == InFirstRound()
  {
    OpenedIsNew();
    Fails(Opened(), Failing(SHA_A), cap);
    var queued := Logged(Opened().(verdicts := [Failing(SHA_A)]), Queued, CauseVerdictFailure, 1);
    ExecPair(Opened(), FirstRound(cap)[0], FirstRound(cap)[1], queued);
    Starts(queued, cap);
  }

  /** The round outlives a force-push whose new head fails too, and then pushes. */
  function LatePush(cap: int): seq<Command> {
    [AdvanceHead(SHA_B, 3), RecordVerdict(Failing(SHA_B), cap), RecordOutcome(0, PushOf(SHA_C), cap)]
  }

  function Requeued(): Bump {
    var waiting := Logged(InFirstRound().(headSha := SHA_B), AwaitingChecks, CauseHeadAdvanced, 3);
    Logged(waiting.(verdicts := [Failing(SHA_A), Failing(SHA_B)]), Queued, CauseVerdictFailure, 1)
  }

  lemma ForcePushRequeues(cap: int)
    requires cap >= 2
    ensures Exec(InFirstRound(), LatePush(cap)[..2]) == Requeued()
  {
    OpenedIsNew();
    VerdictsOfOneHead(SHA_B);
    Advances(InFirstRound(), SHA_B, 3);
    var waiting := Logged(InFirstRound().(headSha := SHA_B), AwaitingChecks, CauseHeadAdvanced, 3);
    Fails(waiting, Failing(SHA_B), cap);
    ExecPair(InFirstRound(), LatePush(cap)[0], LatePush(cap)[1], waiting);
    assert LatePush(cap)[..2] == [LatePush(cap)[0], LatePush(cap)[1]];
    assert [Failing(SHA_A)] + [Failing(SHA_B)] == [Failing(SHA_A), Failing(SHA_B)];
  }

  function Stranded(): Bump {
    Requeued().(headSha := SHA_C, attempts := [InFirstRound().attempts[0].(outcome := Some(PushOf(SHA_C)))])
  }

  lemma LatePushRuns(cap: int)
    requires cap >= 2
    ensures Exec(InFirstRound(), LatePush(cap)) == Stranded()
  {
    ForcePushRequeues(cap);
    ExecConcat(InFirstRound(), LatePush(cap)[..2], LatePush(cap)[2..]);
    assert LatePush(cap)[..2] + LatePush(cap)[2..] == LatePush(cap);
    Pushes(Requeued(), PushOf(SHA_C), cap);
    assert LatePush(cap)[2..] == [LatePush(cap)[2]];
    assert Exec(Requeued(), LatePush(cap)[2..]) == Stranded();
  }

  lemma StrandedIsStuck(budget: Budget, title: string, brief: string, at: Time, cap: int)
    ensures var b := Stranded();
      && b.state == Queued && FirstOpen(b.attempts) == |b.attempts| && CurrentVerdict(b).None?
      && ScheduleRound(b, budget, title, brief, at, cap) == Err(Invalid)
  {
    OpenedIsNew();
    FindVerdictFinds(Stranded().verdicts, SHA_C);
  }

  /** A late push leaves this bump queued with no open round and no verdict to
      write a brief from: the scheduler can never start it. */
  lemma StrayPushStrandsBump(budget: Budget, title: string, brief: string, at: Time, cap: int)
    requires cap >= 2
    ensures var b := Exec(Opened(), FirstRound(cap) + LatePush(cap));
      && b.state == Queued && FirstOpen(b.attempts) == |b.attempts| && CurrentVerdict(b).None?
      && ScheduleRound(b, budget, title, brief, at, cap) == Err(Invalid)
  {
    FirstRoundRuns(cap);
    LatePushRuns(cap);
    ExecConcat(Opened(), FirstRound(cap), LatePush(cap));
    StrandedIsStuck(budget, title, brief, at, cap);
  }

  /** The same round outlives a force-push whose new head passes, and then pushes. */
  function LatePushOnGreen(cap: int): seq<Command> {
    [AdvanceHead(SHA_B, 3), RecordVerdict(Passing(SHA_B), cap), RecordOutcome(0, PushOf(SHA_C), cap)]
  }

  function PassedMeanwhile(): Bump {
    var waiting := Logged(InFirstRound().(headSha := SHA_B), AwaitingChecks, CauseHeadAdvanced, 3);
    Logged(waiting.(verdicts := [Failing(SHA_A), Passing(SHA_B)]), Green, CauseVerdictSuccess, 1)
  }

  lemma ForcePushPasses(cap: int)
    ensures Exec(InFirstRound(), LatePushOnGreen(cap)[..2]) == PassedMeanwhile()
  {
    OpenedIsNew();
    VerdictsOfOneHead(SHA_B);
    Advances(InFirstRound(), SHA_B, 3);
    var waiting := Logged(InFirstRound().(headSha := SHA_B), AwaitingChecks, CauseHeadAdvanced, 3);
    Passes(waiting, Passing(SHA_B), cap);
    ExecPair(InFirstRound(), LatePushOnGreen(cap)[0], LatePushOnGreen(cap)[1], waiting);
    assert LatePushOnGreen(cap)[..2] == [LatePushOnGreen(cap)[0], LatePushOnGreen(cap)[1]];
    assert [Failing(SHA_A)] + [Passing(SHA_B)] == [Failing(SHA_A), Passing(SHA_B)];
  }

  function GreenUnjudged(): Bump {
    PassedMeanwhile().(headSha := SHA_C, attempts := [InFirstRound().attempts[0].(outcome := Some(PushOf(SHA_C)))])
  }

  lemma LatePushOnGreenRuns(cap: int)
    ensures Exec(InFirstRound(), LatePushOnGreen(cap)) == GreenUnjudged()
  {
    ForcePushPasses(cap);
    ExecConcat(InFirstRound(), LatePushOnGreen(cap)[..2], LatePushOnGreen(cap)[2..]);
    assert LatePushOnGreen(cap)[..2] + LatePushOnGreen(cap)[2..] == LatePushOnGreen(cap);
    OpenedIsNew();
    Pushes(PassedMeanwhile(), PushOf(SHA_C), cap);
    assert LatePushOnGreen(cap)[2..] == [LatePushOnGreen(cap)[2]];
    assert Exec(PassedMeanwhile(), LatePushOnGreen(cap)[2..]) == GreenUnjudged();
  }

  lemma GreenUnjudgedRetries(at: Time)
    ensures var b := GreenUnjudged();
      b.state == Green && CurrentVerdict(b).None? && Step(Clean(b), Retry(at)).Ok? && After(b, Retry(at)).state == AwaitingChecks
  {
    OpenedIsNew();
    FindVerdictFinds(GreenUnjudged().verdicts, SHA_C);
  }

  /** A late push leaves this bump green with no verdict for its head, and an
      operator's retry of it goes through. */
  lemma GreenRetryIsTaken(at: Time, cap: int)
    requires cap >= 1
    ensures var b := Exec(Opened(), FirstRound(cap) + LatePushOnGreen(cap));
      b.state == Green && CurrentVerdict(b).None? && Step(Clean(b), Retry(at)).Ok? && After(b, Retry(at)).state == AwaitingChecks
  {
    FirstRoundRuns(cap);
    LatePushOnGreenRuns(cap);
    ExecConcat(Opened(), FirstRound(cap), LatePushOnGreen(cap));
    GreenUnjudgedRetries(at);
  }

  const NOTHING_CONCLUDED := BumpAbandonment(AbandonChecksNeverConcluded, "late", 5)

  /** The checks pass between the sweep's look and its giving up. */
  function PassThenGiveUp(cap: int): seq<Command> {
    [RecordVerdict(Passing(SHA_A), cap), Abandon(NOTHING_CONCLUDED)]
  }

  function GivenUpPassed(): Bump {
    var green := Logged(Opened().(verdicts := [Passing(SHA_A)]), Green, CauseVerdictSuccess, 1);
    Logged(green.(abandonment := Some(NOTHING_CONCLUDED)), Abandoned, CauseChecksNeverConcluded, 5)
  }

  lemma PassThenGiveUpRuns(cap: int)
    ensures Exec(Opened(), PassThenGiveUp(cap)) == GivenUpPassed()
  {
    OpenedIsNew();
    Passes(Opened(), Passing(SHA_A), cap);
    var green := Logged(Opened().(verdicts := [Passing(SHA_A)]), Green, CauseVerdictSuccess, 1);
    GivesUp(green, NOTHING_CONCLUDED);
    ExecPair(Opened(), PassThenGiveUp(cap)[0], PassThenGiveUp(cap)[1], green);
  }

  /** A bump given up because its checks never concluded, although they passed:
      the log says it was green, and an operator cannot bring it back. */
  lemma LateGiveUpBuriesPassedBump(at: Time, cap: int)
    ensures var b := Exec(Opened(), PassThenGiveUp(cap));
      && b.state == Abandoned && NeverConcluded(b) && Judged(b, b.headSha, CheckSuccess)
      && GivenUpFrom(b.transitions) == Some(Green) && !GaveUpWaiting(b) && !Unjudged(b)
      && Step(Clean(b), Retry(at)) == Err(Refused)
  {
    PassThenGiveUpRuns(cap);
    var b := GivenUpPassed();
    assert b.verdicts == [Passing(SHA_A)] && b.headSha == SHA_A;
    assert b.transitions[|b.transitions| - 1] == BumpTransition(Green, Abandoned, CauseChecksNeverConcluded, 5);
  }

  /** The round pushes, the new head is green, and the bump is given up, late, and closed. */
  function LongLife(): seq<Command> {
    [RecordOutcome(0, PushOf(SHA_B), 1), RecordVerdict(Passing(SHA_B), 1)]
  }

  function LongLifeEnd(): seq<Command> {
    [Abandon(NOTHING_CONCLUDED), Close(BumpClosure(Merged, "d1", 6))]
  }

  function Repaired(): Bump {
    var pushed := InFirstRound().(headSha := SHA_B, attempts := [InFirstRound().attempts[0].(outcome := Some(PushOf(SHA_B)))]);
    var waiting := Logged(pushed, AwaitingChecks, CauseRepairPushed, 3);
    Logged(waiting.(verdicts := [Failing(SHA_A), Passing(SHA_B)]), Green, CauseVerdictSuccess, 1)
  }

  lemma RepairRuns()
    ensures Exec(InFirstRound(), LongLife()) == Repaired()
  {
    OpenedIsNew();
    VerdictsOfOneHead(SHA_B);
    Pushes(InFirstRound(), PushOf(SHA_B), 1);
    var pushed := InFirstRound().(headSha := SHA_B, attempts := [InFirstRound().attempts[0].(outcome := Some(PushOf(SHA_B)))]);
    var waiting := Logged(pushed, AwaitingChecks, CauseRepairPushed, 3);
    Passes(waiting, Passing(SHA_B), 1);
    ExecPair(InFirstRound(), LongLife()[0], LongLife()[1], waiting);
    assert [Failing(SHA_A)] + [Passing(SHA_B)] == [Failing(SHA_A), Passing(SHA_B)];
  }

  lemma EndRuns(b: Bump)
    requires b.state == Green
    ensures Exec(b, LongLifeEnd()).transitions == b.transitions +
      [BumpTransition(Green, Abandoned, CauseChecksNeverConcluded, 5), BumpTransition(Abandoned, Closed, CauseBumpClosed, 6)]
  {
    var a := LongLifeEnd()[0].abandonment;
    GivesUp(b, a);
    var abandoned := Logged(b.(abandonment := Some(a)), Abandoned, CauseChecksNeverConcluded, 5);
    Closes(abandoned, LongLifeEnd()[1].closure);
    ExecPair(b, LongLifeEnd()[0], LongLifeEnd()[1], abandoned);
  }

  lemma LongestLifeRuns()
    ensures Exec(Opened(), FirstRound(1) + LongLife() + LongLifeEnd()) == Exec(Repaired(), LongLifeEnd())
  {
    FirstRoundRuns(1);
    RepairRuns();
    ExecConcat(Opened(), FirstRound(1), LongLife());
    ExecConcat(Opened(), FirstRound(1) + LongLife(), LongLifeEnd());
  }

  lemma LogOfLongestLife(b: Bump)
    requires b.transitions == Repaired().transitions +
      [BumpTransition(Green, Abandoned, CauseChecksNeverConcluded, 5), BumpTransition(Abandoned, Closed, CauseBumpClosed, 6)]
    ensures |b.transitions| == 6 && Retries(b) == 0 && HeadAdvances(b) == 0
  {
    NeverLogged(b.transitions, CauseOperatorRetry);
    NeverLogged(b.transitions, CauseHeadAdvanced);
  }

  /** With a cap of one a bump can log exactly as much as the bound allows. */
  lemma LogBoundIsTight()
    ensures var b := Exec(Opened(), FirstRound(1) + LongLife() + LongLifeEnd());
      |b.transitions| == 3 * 1 + 3 + 6 * Retries(b) + 2 * HeadAdvances(b)
  {
    LongestLifeRuns();
    EndRuns(Repaired());
    LogOfLongestLife(Exec(Opened(), FirstRound(1) + LongLife() + LongLifeEnd()));
  }

  lemma {:induction false} NeverLogged(log: seq<BumpTransition>, cause: BumpCause)
    requires forall i | 0 <= i < |log| :: log[i].cause != cause
    ensures CountCause(log, cause) == 0
  {
    if log != [] {
      NeverLogged(log[..|log| - 1], cause);
    }
  }
}
