/** The change set a case tracks is exactly the difference since it was loaded. */
module CaseChanges {
  import opened Kernel
  import opened CaseFacts
  import opened CaseModel
  import opened CaseInvariant

  function Overlay(a: Attempt, runs: map<nat, Run>, outcomes: map<nat, Outcome>): Attempt {
    a.(run := if a.ordinal in runs then Some(runs[a.ordinal]) else a.run,
       outcome := if a.ordinal in outcomes then Some(outcomes[a.ordinal]) else a.outcome)
  }

  function OverlayAll(attempts: seq<Attempt>, runs: map<nat, Run>, outcomes: map<nat, Outcome>): (r: seq<Attempt>)
    ensures |r| == |attempts|
  {
    seq(|attempts|, i requires 0 <= i < |attempts| => Overlay(attempts[i], runs, outcomes))
  }

  /** The case a change set describes, starting from `c`. */
  function Patch(c: Case, ch: Changes): Case {
    c.(state := ch.state,
       triage := if ch.triage.Some? then ch.triage else c.triage,
       approvals := c.approvals + ch.approvals,
       attempts := OverlayAll(c.attempts + ch.attempts, ch.runs, ch.outcomes),
       transitions := c.transitions + ch.transitions,
       closure := if ch.closure.Some? then ch.closure else c.closure)
  }

  ghost predicate Replays(c: Case, t: Tracked) {
    && t.subject == Patch(c, t.changes)
    && (forall k | k in t.changes.runs :: 1 <= k <= |t.subject.attempts|)
    && (forall k | k in t.changes.outcomes :: 1 <= k <= |t.subject.attempts|)
    && (forall i | 0 <= i < |t.subject.attempts| :: t.subject.attempts[i].ordinal == i + 1)
    && (forall i | 0 <= i < |t.changes.attempts| :: t.changes.attempts[i].run.None? && t.changes.attempts[i].outcome.None?)
  }

  lemma CleanReplays(c: Case)
    requires Inv(c)
    ensures Replays(c, Clean(c))
  {
    assert OverlayAll(c.attempts + [], map[], map[]) == c.attempts;
  }

  lemma MoveReplays(c: Case, t: Tracked, to: CaseState, cause: Cause, at: Time)
    requires Replays(c, t)
    ensures Replays(c, Move(t, to, cause, at))
  {
    var tr := Transition(t.subject.state, to, cause, at);
    assert c.transitions + (t.changes.transitions + [tr]) == c.transitions + t.changes.transitions + [tr];
  }

  lemma TriageReplays(c: Case, t: Tracked, v: Triage)
    requires Replays(c, t) && StepTriage(t, v).Ok?
    ensures Replays(c, StepTriage(t, v).value)
  {
    var u := Tracked(t.subject.(triage := Some(v)), t.changes.(triage := Some(v)));
    if v.size == Small {
      MoveReplays(c, u, Queued, CauseTriageSmall, v.triagedAt);
    } else {
      MoveReplays(c, u, AwaitingApproval, CauseTriageLarge, v.triagedAt);
    }
  }

  lemma ApprovalReplays(c: Case, t: Tracked, a: Approval)
    requires Replays(c, t) && StepApproval(t, a).Ok?
    ensures Replays(c, StepApproval(t, a).value)
  {
    var u := Tracked(t.subject.(approvals := t.subject.approvals + [a]), t.changes.(approvals := t.changes.approvals + [a]));
    assert c.approvals + (t.changes.approvals + [a]) == c.approvals + t.changes.approvals + [a];
    MoveReplays(c, u, Queued, CauseApproval, a.approvedAt);
  }

  lemma StartReplays(c: Case, t: Tracked, kind: AttemptKind, budget: Budget, brief: string, at: Time)
    requires Replays(c, t) && StepStart(t, kind, budget, brief, at).Ok?
    ensures Replays(c, StepStart(t, kind, budget, brief, at).value)
  {
    var a := NextAttempt(t.subject, kind, budget, brief, at);
    var u := Tracked(t.subject.(attempts := t.subject.attempts + [a]), t.changes.(attempts := t.changes.attempts + [a]));
    assert c.attempts + (t.changes.attempts + [a]) == c.attempts + t.changes.attempts + [a];
    assert OverlayAll(c.attempts + t.changes.attempts + [a], t.changes.runs, t.changes.outcomes)
        == OverlayAll(c.attempts + t.changes.attempts, t.changes.runs, t.changes.outcomes) + [a];
    MoveReplays(c, u, Attempting, CauseAttemptStarted, at);
  }

  lemma RunReplays(c: Case, t: Tracked, attemptId: Id, r: Run)
    requires Replays(c, t) && StepRun(t, attemptId, r).Ok?
    ensures Replays(c, StepRun(t, attemptId, r).value)
  {
    var u := StepRun(t, attemptId, r).value;
    assert u.subject.attempts == Patch(c, u.changes).attempts;
  }

  lemma EndAttemptReplays(c: Case, t: Tracked, i: nat, o: Outcome)
    requires Replays(c, t) && i < |t.subject.attempts|
    ensures Replays(c, EndAttempt(t, i, o))
  {
    var u := EndAttempt(t, i, o);
    assert u.subject.attempts == Patch(c, u.changes).attempts;
  }

  lemma OutcomeReplays(c: Case, t: Tracked, attemptId: Id, o: Outcome)
    requires Replays(c, t) && StepOutcome(t, attemptId, o).Ok?
    ensures Replays(c, StepOutcome(t, attemptId, o).value)
  {
    var i := FirstOpen(t.subject.attempts);
    EndAttemptReplays(c, t, i, o);
    if t.subject.state != Closed {
      var e := OutcomeMove(t.subject, t.subject.attempts[i].ordinal, o).value;
      MoveReplays(c, EndAttempt(t, i, o), e.to, e.cause, o.endedAt);
    }
  }

  lemma CloseReplays(c: Case, t: Tracked, cl: Closure)
    requires Replays(c, t) && StepClose(t, cl).Ok?
    ensures Replays(c, StepClose(t, cl).value)
  {
    MoveReplays(c, Tracked(t.subject.(closure := Some(cl)), t.changes.(closure := Some(cl))), Closed, CauseClosed, cl.closedAt);
  }

  /** Every accepted command keeps the change set in step with the case. */
  lemma StepReplays(c: Case, t: Tracked, cmd: Command)
    requires Replays(c, t) && Step(t, cmd).Ok?
    ensures Replays(c, Step(t, cmd).value)
  {
    match cmd
    case RecordTriage(v) => TriageReplays(c, t, v);
    case RecordApproval(a) => ApprovalReplays(c, t, a);
    case StartAttempt(kind, budget, brief, at) => StartReplays(c, t, kind, budget, brief, at);
    case RecordRun(attemptId, r) => RunReplays(c, t, attemptId, r);
    case RecordOutcome(attemptId, o) => OutcomeReplays(c, t, attemptId, o);
    case Close(cl) => CloseReplays(c, t, cl);
  }

  function Track(t: Tracked, cmds: seq<Command>): Tracked
    decreases |cmds|
  {
    if cmds == [] then t
    else Track(if Step(t, cmds[0]).Ok? then Step(t, cmds[0]).value else t, cmds[1..])
  }

  /** However many commands are applied before the changes are read, replaying them
      on the loaded case gives the case in memory. */
  lemma {:induction false} ChangesReplay(c: Case, t: Tracked, cmds: seq<Command>)
    requires Replays(c, t)
    ensures Replays(c, Track(t, cmds))
    decreases |cmds|
  {
    if cmds != [] {
      if Step(t, cmds[0]).Ok? {
        StepReplays(c, t, cmds[0]);
        ChangesReplay(c, Step(t, cmds[0]).value, cmds[1..]);
      } else {
        ChangesReplay(c, t, cmds[1..]);
      }
    }
  }
}
