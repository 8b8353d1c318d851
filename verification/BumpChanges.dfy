/** The change set a bump tracks is exactly the difference since it was loaded:
    replaying it on the loaded bump gives the bump back. */
module BumpChanges {
  import opened Kernel
  import opened UpkeepFacts
  import opened BumpModel
  import opened BumpInvariant

  /** A recorded run or outcome laid over a round. */
  function Overlay(a: RepairAttempt, runs: map<nat, Run>, outcomes: map<nat, RepairOutcome>): RepairAttempt {
    a.(run := if a.round in runs then Some(runs[a.round]) else a.run,
       outcome := if a.round in outcomes then Some(outcomes[a.round]) else a.outcome)
  }

  function OverlayAll(rounds: seq<RepairAttempt>, runs: map<nat, Run>, outcomes: map<nat, RepairOutcome>): (r: seq<RepairAttempt>)
    ensures |r| == |rounds|
  {
    seq(|rounds|, i requires 0 <= i < |rounds| => Overlay(rounds[i], runs, outcomes))
  }

  /** The bump a change set describes, starting from `b`. */
  function Patch(b: Bump, ch: Changes): Bump {
    b.(headSha := ch.headSha,
       state := ch.state,
       verdicts := b.verdicts + ch.verdicts,
       attempts := OverlayAll(b.attempts + ch.attempts, ch.runs, ch.outcomes),
       transitions := b.transitions + ch.transitions,
       abandonment := if ch.abandonment.Some? then ch.abandonment else if ch.dropAbandon then None else b.abandonment,
       closure := if ch.closure.Some? then ch.closure else b.closure)
  }

  /** The tracked changes replay from `b` and name only rounds the bump has. */
  ghost predicate Replays(b: Bump, t: Tracked) {
    && t.bump == Patch(b, t.changes)
    && (forall k | k in t.changes.runs :: 1 <= k <= |t.bump.attempts|)
    && (forall k | k in t.changes.outcomes :: 1 <= k <= |t.bump.attempts|)
    && (forall i | 0 <= i < |t.bump.attempts| :: t.bump.attempts[i].round == i + 1)
    && (forall i | 0 <= i < |t.changes.attempts| :: t.changes.attempts[i].run.None? && t.changes.attempts[i].outcome.None?)
    && (t.changes.dropAbandon ==> t.changes.abandonment.None?)
  }

  lemma CleanReplays(b: Bump, maxRounds: int)
    requires Inv(b, maxRounds)
    ensures Replays(b, Clean(b))
  {
    assert OverlayAll(b.attempts + [], map[], map[]) == b.attempts;
  }

  lemma MoveReplays(b: Bump, t: Tracked, to: BumpState, cause: BumpCause, at: Time)
    requires Replays(b, t)
    ensures Replays(b, Move(t, to, cause, at))
  {
    var tr := BumpTransition(t.bump.state, to, cause, at);
    assert b.transitions + (t.changes.transitions + [tr]) == b.transitions + t.changes.transitions + [tr];
  }

  lemma FinishReplays(b: Bump, t: Tracked, e: Ending, detail: string, at: Time)
    requires Replays(b, t)
    ensures Replays(b, Finish(t, e, detail, at))
  {
    var u := if e.reason.Some? then SetAbandonment(t, e.reason.value, detail, at) else t;
    assert Replays(b, u);
    MoveReplays(b, u, e.to, e.cause, at);
  }

  lemma VerdictReplays(b: Bump, t: Tracked, v: CheckVerdict, cap: int)
    requires Replays(b, t) && StepVerdict(t, v, cap).Ok?
    ensures Replays(b, StepVerdict(t, v, cap).value)
  {
    var u := Tracked(t.bump.(verdicts := t.bump.verdicts + [v]), t.changes.(verdicts := t.changes.verdicts + [v]));
    assert b.verdicts + (t.changes.verdicts + [v]) == b.verdicts + t.changes.verdicts + [v];
    FinishReplays(b, u, VerdictMove(t.bump, v, cap), v.failingContexts, v.concludedAt);
  }

  lemma StartReplays(b: Bump, t: Tracked, budget: Budget, brief: string, at: Time, cap: int)
    requires Replays(b, t) && StepStart(t, budget, brief, at, cap).Ok?
    ensures Replays(b, StepStart(t, budget, brief, at, cap).value)
  {
    var a := NextRound(t.bump, budget, brief, at);
    var u := Tracked(t.bump.(attempts := t.bump.attempts + [a]), t.changes.(attempts := t.changes.attempts + [a]));
    assert b.attempts + (t.changes.attempts + [a]) == b.attempts + t.changes.attempts + [a];
    assert OverlayAll(b.attempts + t.changes.attempts + [a], t.changes.runs, t.changes.outcomes)
        == OverlayAll(b.attempts + t.changes.attempts, t.changes.runs, t.changes.outcomes) + [a];
    MoveReplays(b, u, Repairing, CauseRepairStarted, at);
  }

  lemma RunReplays(b: Bump, t: Tracked, attemptId: Id, r: Run)
    requires Replays(b, t) && StepRun(t, attemptId, r).Ok?
    ensures Replays(b, StepRun(t, attemptId, r).value)
  {
    var u := StepRun(t, attemptId, r).value;
    assert u.bump.attempts == Patch(b, u.changes).attempts;
  }

  lemma EndRoundReplays(b: Bump, t: Tracked, i: nat, o: RepairOutcome)
    requires Replays(b, t) && i < |t.bump.attempts|
    ensures Replays(b, EndRound(t, i, o))
  {
    var u := EndRound(t, i, o);
    assert u.bump.attempts == Patch(b, u.changes).attempts;
  }

  /** Every accepted command keeps the change set in step with the bump. */
  lemma StepReplays(b: Bump, t: Tracked, c: Command)
    requires Replays(b, t) && Step(t, c).Ok?
    ensures Replays(b, Step(t, c).value)
  {
    match c
    case RecordVerdict(v, cap) => VerdictReplays(b, t, v, cap);
    case AdvanceHead(sha, at) =>
      if t.bump.state != AwaitingChecks { MoveReplays(b, SetHead(t, sha), AwaitingChecks, CauseHeadAdvanced, at); }
    case StartRepair(budget, brief, at, cap) => StartReplays(b, t, budget, brief, at, cap);
    case RecordRun(attemptId, r) => RunReplays(b, t, attemptId, r);
    case RecordOutcome(attemptId, o, cap) =>
      var i := FirstOpen(t.bump.attempts);
      EndRoundReplays(b, t, i, o);
      FinishReplays(b, EndRound(t, i, o), OutcomeMove(t.bump, t.bump.attempts[i].round, o, cap), o.summary, o.endedAt);
    case Abandon(a) => FinishReplays(b, t, Ending(Abandoned, CauseChecksNeverConcluded, Some(a.reason)), a.detail, a.abandonedAt);
    case Retry(at) =>
      assert Replays(b, DropAbandonment(t));
      MoveReplays(b, DropAbandonment(t), if CurrentVerdict(t.bump).None? then AwaitingChecks else Queued, CauseOperatorRetry, at);
    case Close(cl) =>
      var u := Tracked(t.bump.(closure := Some(cl)), t.changes.(closure := Some(cl)));
      MoveReplays(b, u, Closed, CauseBumpClosed, cl.closedAt);
  }

  /** The object after a run of commands since load; a refusal changes nothing. */
  function Track(t: Tracked, cmds: seq<Command>): Tracked
    decreases |cmds|
  {
    if cmds == [] then t
    else Track(if Step(t, cmds[0]).Ok? then Step(t, cmds[0]).value else t, cmds[1..])
  }

  /** However many commands are applied before the changes are read, replaying
      them on the loaded bump gives the bump in memory. */
  lemma {:induction false} ChangesReplay(b: Bump, t: Tracked, cmds: seq<Command>)
    requires Replays(b, t)
    ensures Replays(b, Track(t, cmds))
    decreases |cmds|
  {
    if cmds != [] {
      if Step(t, cmds[0]).Ok? {
        StepReplays(b, t, cmds[0]);
        ChangesReplay(b, Step(t, cmds[0]).value, cmds[1..]);
      } else {
        ChangesReplay(b, t, cmds[1..]);
      }
    }
  }
}
