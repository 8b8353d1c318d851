/** Several commands before one write: exactly when the abandonment they leave
    collides with the row that is still in the table. */
module BumpTransactions {
  import opened Kernel
  import opened UpkeepFacts
  import opened BumpModel
  import opened BumpInvariant
  import opened BumpChanges
  import opened BumpTables
  import opened BumpPersistence
  import opened BumpDatabase

  predicate Retried(log: seq<BumpTransition>) {
    CountCause(log, CauseOperatorRetry) > 0
  }

  /** What the change set says of the abandonment: nothing before the first retry
      of a bump loaded abandoned, and the bump's own ever after. */
  ghost predicate TracksAbandonment(b: Bump, t: Tracked) {
    if b.abandonment.Some? && !Retried(t.changes.transitions)
    then t.changes.abandonment.None? && !t.changes.dropAbandon && t.bump.abandonment == b.abandonment
    else t.changes.abandonment == t.bump.abandonment
  }

  /** What one command does to the abandonment, in the bump and in the changes. */
  lemma StepTracksAbandonment(t: Tracked, c: Command)
    requires Step(t, c).Ok?
    ensures var u := Step(t, c).value;
      if c.Retry? then
        if t.bump.abandonment.Some? then u.bump.abandonment.None? && u.changes.abandonment.None?
        else u.bump.abandonment.None? && u.changes.abandonment == t.changes.abandonment
      else
        || (u.bump.abandonment == t.bump.abandonment && u.changes.abandonment == t.changes.abandonment
            && u.changes.dropAbandon == t.changes.dropAbandon)
        || (u.bump.abandonment.Some? && u.changes.abandonment == u.bump.abandonment && t.bump.state !in {Abandoned, Closed})
  {}

  /** `after` is `before` with at most one more entry, a retry exactly if `retry`. */
  ghost predicate Appends(before: seq<BumpTransition>, after: seq<BumpTransition>, retry: bool) {
    || (after == before && !retry)
    || (|after| == |before| + 1 && after[..|before|] == before && (after[|before|].cause == CauseOperatorRetry <==> retry))
  }

  lemma FinishAppends(t: Tracked, e: Ending, detail: string, at: Time)
    requires e.cause != CauseOperatorRetry
    ensures Appends(t.changes.transitions, Finish(t, e, detail, at).changes.transitions, false)
  {}

  lemma OutcomeAppends(t: Tracked, attemptId: Id, o: RepairOutcome, cap: int)
    requires StepOutcome(t, attemptId, o, cap).Ok?
    ensures Appends(t.changes.transitions, StepOutcome(t, attemptId, o, cap).value.changes.transitions, false)
  {
    var i := FirstOpen(t.bump.attempts);
    if t.bump.state == Repairing {
      EndingIsListed(t.bump, t.bump.attempts[i].round, o, cap);
      FinishAppends(EndRound(t, i, o), OutcomeMove(t.bump, t.bump.attempts[i].round, o, cap), o.summary, o.endedAt);
    }
  }

  lemma VerdictAppends(t: Tracked, v: CheckVerdict, cap: int)
    requires StepVerdict(t, v, cap).Ok?
    ensures Appends(t.changes.transitions, StepVerdict(t, v, cap).value.changes.transitions, false)
  {}

  lemma OthersAppend(t: Tracked, c: Command)
    requires Step(t, c).Ok? && !c.RecordOutcome? && !c.RecordVerdict?
    ensures Appends(t.changes.transitions, Step(t, c).value.changes.transitions, c.Retry?)
  {}

  lemma StepTracksLog(t: Tracked, c: Command)
    requires Step(t, c).Ok?
    ensures var u := Step(t, c).value;
      CountCause(u.changes.transitions, CauseOperatorRetry) ==
        CountCause(t.changes.transitions, CauseOperatorRetry) + if c.Retry? then 1 else 0
  {
    match c {
      case RecordOutcome(attemptId, o, cap) => OutcomeAppends(t, attemptId, o, cap);
      case RecordVerdict(v, cap) => VerdictAppends(t, v, cap);
      case _ => OthersAppend(t, c);
    }
    AppendCounts(t.changes.transitions, Step(t, c).value.changes.transitions, c.Retry?);
  }

  lemma AppendCounts(before: seq<BumpTransition>, after: seq<BumpTransition>, retry: bool)
    requires Appends(before, after, retry)
    ensures CountCause(after, CauseOperatorRetry) == CountCause(before, CauseOperatorRetry) + if retry then 1 else 0
  {
    if after != before {
      assert after == before + [after[|before|]];
      CountAppend(before, after[|before|], CauseOperatorRetry);
    }
  }

  lemma StepKeepsTracking(b: Bump, t: Tracked, c: Command, maxRounds: int)
    requires Inv(t.bump, maxRounds) && TracksAbandonment(b, t) && Step(t, c).Ok?
    ensures TracksAbandonment(b, Step(t, c).value)
  {
    StepTracksAbandonment(t, c);
    StepTracksLog(t, c);
  }

  lemma {:induction false} RunTracksAbandonment(b: Bump, t: Tracked, cmds: seq<Command>, maxRounds: int)
    requires Inv(t.bump, maxRounds) && TracksAbandonment(b, t) && CapsAtMost(cmds, maxRounds)
    ensures Inv(Track(t, cmds).bump, maxRounds) && TracksAbandonment(b, Track(t, cmds))
    decreases |cmds|
  {
    if cmds != [] {
      if Step(t, cmds[0]).Ok? {
        StepKeepsInv(t, cmds[0], maxRounds);
        StepKeepsTracking(b, t, cmds[0], maxRounds);
      }
      RunTracksAbandonment(b, if Step(t, cmds[0]).Ok? then Step(t, cmds[0]).value else t, cmds[1..], maxRounds);
    }
  }

  /** A bump loaded abandoned that was retried and given up again. */
  predicate GivenUpAgain(t: BumpRows, u: Tracked) {
    t.abandonment.Some? && Retried(u.changes.transitions) && u.bump.abandonment.Some?
  }

  /** However many commands went before the write, their abandonment is refused
      exactly when the bump was loaded abandoned, retried and given up again: the
      retry's delete is lost, and the whole write with it. */
  lemma CollidesExactlyWhenGivenUpAgain(key: BumpKey, t: BumpRows, cmds: seq<Command>, s: Surroundings, id: Id, maxRounds: int)
    requires BumpOk(key, t, maxRounds) && CapsAtMost(cmds, maxRounds)
    ensures var u := Track(Clean(Load(key, t)), cmds);
      && (WriteAbandonment(t, u.changes.dropAbandon, u.changes.abandonment).None? <==> GivenUpAgain(t, u))
      && (GivenUpAgain(t, u) ==> Write(t, u.changes, s, id).None?)
  {
    var b := Load(key, t);
    var u := Track(Clean(b), cmds);
    CleanReplays(b, maxRounds);
    ChangesReplay(b, Clean(b), cmds);
    RunTracksAbandonment(b, Clean(b), cmds, maxRounds);
    if GivenUpAgain(t, u) { AbandonmentDecides(t, u.changes, s, id); }
  }

  lemma AbandonmentDecides(t: BumpRows, ch: Changes, s: Surroundings, id: Id)
    requires VerdictsOk(t.verdicts) && WriteAbandonment(t, ch.dropAbandon, ch.abandonment).None?
    ensures Write(t, ch, s, id).None?
  {
    if WriteFacts(t, ch, s.runIds, id).Some? {
      FactsGrow(t, ch, s.runIds, id);
    }
  }

  /** The shortest such run: a retry and giving up again at once. */
  lemma RetryThenAbandonCollides(key: BumpKey, t: BumpRows, at: Time, a: BumpAbandonment, s: Surroundings, id: Id, maxRounds: int)
    requires BumpOk(key, t, maxRounds) && t.row.state == Abandoned
    requires StepRetry(Clean(Load(key, t)), at).Ok?
    requires StepAbandon(StepRetry(Clean(Load(key, t)), at).value, a).Ok?
    ensures Write(t, StepAbandon(StepRetry(Clean(Load(key, t)), at).value, a).value.changes, s, id).None?
  {
    var t1 := StepRetry(Clean(Load(key, t)), at).value;
    var u := StepAbandon(t1, a).value;
    assert u.changes.abandonment.Some? && !u.changes.dropAbandon;
    AbandonmentDecides(t, u.changes, s, id);
  }
}
