/** What a bump is after a write and a load, told fact by fact: nothing is lost but
    the part of a time below a microsecond. */
module BumpFidelity {
  import opened Kernel
  import opened UpkeepFacts
  import opened BumpModel
  import opened BumpInvariant
  import opened BumpTables
  import opened BumpPersistence
  import D = BumpDatabase

  predicate SameVerdict(v: CheckVerdict, s: CheckVerdict) {
    && s.headSha == v.headSha && s.conclusion == v.conclusion && s.failingContexts == v.failingContexts && s.detailsUrl == v.detailsUrl
    && Cut(v.concludedAt, s.concludedAt)
  }

  /** The fields its kind calls for are kept. */
  predicate SameOutcome(o: RepairOutcome, s: RepairOutcome) {
    && s.kind == o.kind && s.summary == o.summary && Cut(o.endedAt, s.endedAt) && SameUsage(o.usage, s.usage)
    && (o.kind == Pushed ==> s.headSha == o.headSha)
    && (o.kind == BudgetExhausted ==> s.limit == o.limit)
    && (o.kind == RepairFailed ==> s.failureClass == o.failureClass && s.message == o.message)
    && (o.kind == RepairAborted ==> s.reason == o.reason)
  }

  predicate SameRound(a: RepairAttempt, s: RepairAttempt) {
    && s.round == a.round && s.baseSha == a.baseSha && s.brief == a.brief && Cut(a.startedAt, s.startedAt)
    && s.budget.maxTurns == a.budget.maxTurns && s.budget.maxDiffLines == a.budget.maxDiffLines
    && s.budget.maxWallClock > 0 && CutDuration(a.budget.maxWallClock, s.budget.maxWallClock)
    && (s.run.Some? <==> a.run.Some?) && (a.run.Some? ==> SameRun(a.run.value, s.run.value))
    && (s.outcome.Some? <==> a.outcome.Some?) && (a.outcome.Some? ==> SameOutcome(a.outcome.value, s.outcome.value))
  }

  predicate SameEntry(tr: BumpTransition, s: BumpTransition) {
    s.from == tr.from && s.to == tr.to && s.cause == tr.cause && Cut(tr.occurredAt, s.occurredAt)
  }

  predicate SameAbandonment(a: BumpAbandonment, s: BumpAbandonment) {
    s.reason == a.reason && s.detail == a.detail && Cut(a.abandonedAt, s.abandonedAt)
  }

  predicate SameClosure(cl: BumpClosure, s: BumpClosure) {
    s.kind == cl.kind && s.deliveryId == cl.deliveryId && Cut(cl.closedAt, s.closedAt)
  }

  ghost predicate SameVerdicts(vs: seq<CheckVerdict>, ws: seq<CheckVerdict>) {
    && |ws| == |vs|
    && (forall v | v in vs :: exists w :: w in ws && SameVerdict(v, w))
    && (forall w | w in ws :: exists v :: v in vs && SameVerdict(v, w))
  }

  predicate SameRounds(rounds: seq<RepairAttempt>, kept: seq<RepairAttempt>) {
    |kept| == |rounds| && forall i | 0 <= i < |rounds| :: SameRound(rounds[i], kept[i])
  }

  predicate SameLog(log: seq<BumpTransition>, kept: seq<BumpTransition>) {
    |kept| == |log| && forall i | 0 <= i < |log| :: SameEntry(log[i], kept[i])
  }

  /** The same bump: rounds and log in order, verdicts in any order. */
  ghost predicate SameBump(b: Bump, s: Bump) {
    && s.id == b.id && s.key == b.key && s.branch == b.branch && s.baseBranch == b.baseBranch && s.openedAt == b.openedAt
    && s.headSha == b.headSha && s.state == b.state
    && SameVerdicts(b.verdicts, s.verdicts) && SameRounds(b.attempts, s.attempts) && SameLog(b.transitions, s.transitions)
    && (s.abandonment.Some? <==> b.abandonment.Some?) && (b.abandonment.Some? ==> SameAbandonment(b.abandonment.value, s.abandonment.value))
    && (s.closure.Some? <==> b.closure.Some?) && (b.closure.Some? ==> SameClosure(b.closure.value, s.closure.value))
  }

  lemma OutcomeIsSame(o: RepairOutcome)
    ensures SameOutcome(o, StoredOutcome(o))
  {}

  lemma RoundIsSame(a: RepairAttempt, id: Id)
    requires StorableBudget(a.budget)
    ensures SameRound(a, StoredRound(a, id))
  {
    if a.outcome.Some? { OutcomeIsSame(a.outcome.value); }
  }

  lemma VerdictsAreSame(b: Bump, loaded: Bump, v0: nat, id: Id)
    requires v0 <= |b.verdicts| && multiset(loaded.verdicts) == multiset(KeptVerdicts(b.verdicts, v0, id))
    ensures SameVerdicts(b.verdicts, loaded.verdicts)
  {
    var kept := KeptVerdicts(b.verdicts, v0, id);
    assert |multiset(loaded.verdicts)| == |multiset(kept)|;
    forall v | v in b.verdicts ensures exists w :: w in loaded.verdicts && SameVerdict(v, w) {
      var i :| 0 <= i < |b.verdicts| && b.verdicts[i] == v;
      assert kept[i] in multiset(kept);
      assert kept[i] in loaded.verdicts && SameVerdict(v, kept[i]);
    }
    forall w | w in loaded.verdicts ensures exists v :: v in b.verdicts && SameVerdict(v, w) {
      assert w in multiset(loaded.verdicts);
      var i :| 0 <= i < |kept| && kept[i] == w;
      assert b.verdicts[i] in b.verdicts && SameVerdict(b.verdicts[i], w);
    }
  }

  lemma RoundsAreSame(rounds: seq<RepairAttempt>, a0: nat, id: Id)
    requires forall i | 0 <= i < |rounds| :: StorableBudget(rounds[i].budget)
    ensures SameRounds(rounds, KeptRounds(rounds, a0, id))
  {
    forall i | 0 <= i < |rounds| ensures SameRound(rounds[i], KeptRounds(rounds, a0, id)[i]) {
      RoundIsSame(rounds[i], NewId(i, a0, rounds[i].id, id));
    }
  }

  lemma KeptIsSame(b: Bump, loaded: Bump, v0: nat, a0: nat, id: Id)
    requires BudgetsStorable(b) && v0 <= |b.verdicts| && SameUpToVerdictOrder(loaded, Kept(b, v0, a0, id))
    ensures SameBump(b, loaded)
  {
    var k := Kept(b, v0, a0, id);
    assert loaded.(verdicts := []).attempts == k.attempts && loaded.(verdicts := []).transitions == k.transitions;
    VerdictsAreSame(b, loaded, v0, id);
    RoundsAreSame(b.attempts, a0, id + (|b.verdicts| - v0));
  }

  /** A committed update is loaded as the very bump the command left in memory. */
  lemma UpdateLosesOnlyFractions(db: D.Database, key: BumpKey, c: Command, maxRounds: int)
    requires D.DatabaseOk(db, maxRounds) && D.Update(db, key, c).Committed?
    ensures key in D.Update(db, key, c).value.bumps
    ensures SameBump(After(Load(key, db.bumps[key]), c), Load(key, D.Update(db, key, c).value.bumps[key]))
  {
    var b, next := Load(key, db.bumps[key]), D.Update(db, key, c).value;
    D.UpdateRoundTrip(db, key, c, maxRounds);
    KeptIsSame(After(b, c), Load(key, next.bumps[key]), |b.verdicts|, |b.attempts|, db.nextId);
  }
}
