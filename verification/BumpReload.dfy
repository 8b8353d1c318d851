/** What survives a write and a load: the invariant and the run facts hold of
    the loaded bump as they did of the bump in memory. */
module BumpReload {
  import opened Kernel
  import opened UpkeepFacts
  import opened BumpModel
  import opened BumpInvariant
  import opened BumpRuns
  import opened BumpAbandonments
  import opened BumpChanges
  import opened BumpTables
  import opened BumpPersistence

  /** Everything every run keeps. What needs the commands to behave is `Agrees`. */
  ghost predicate Sound(b: Bump, maxRounds: int) {
    Inv(b, maxRounds) && RestartedOnce(b) && QueuedBelowCap(b, maxRounds) && RoundsBearOut(b, maxRounds)
  }

  lemma StepIsSound(b: Bump, c: Command, maxRounds: int)
    requires Sound(b, maxRounds) && CapExactly(c, maxRounds)
    ensures Sound(After(b, c), maxRounds)
  {
    AfterKeepsInv(b, c, maxRounds);
    StepRestartsOnce(b, c, maxRounds);
    StepQueuesBelowCap(b, c, maxRounds);
    StepBearsOut(b, c, maxRounds);
  }

  /** Every bump, from its opening on, whatever is done to it. */
  lemma EveryBumpIsSound(key: BumpKey, branch: string, baseBranch: string, headSha: Sha, openedAt: Time,
                         cmds: seq<Command>, maxRounds: nat)
    requires NewBump(key, branch, baseBranch, headSha, openedAt).Ok? && CapsExactly(cmds, maxRounds)
    ensures Sound(Exec(NewBump(key, branch, baseBranch, headSha, openedAt).value, cmds), maxRounds)
  {
    NewBumpInv(key, branch, baseBranch, headSha, openedAt, maxRounds);
    RunIsSound(NewBump(key, branch, baseBranch, headSha, openedAt).value, cmds, maxRounds);
  }

  lemma {:induction false} RunIsSound(b: Bump, cmds: seq<Command>, maxRounds: int)
    requires Sound(b, maxRounds) && CapsExactly(cmds, maxRounds)
    ensures Sound(Exec(b, cmds), maxRounds)
    decreases |cmds|
  {
    if cmds != [] {
      StepIsSound(b, cmds[0], maxRounds);
      RunIsSound(After(b, cmds[0]), cmds[1..], maxRounds);
    }
  }

  // ----- Verdicts in another order -----

  lemma {:induction false} InsertKeepsVerdictsOk(v: CheckVerdict, sorted: seq<CheckVerdict>)
    requires VerdictsOk(sorted) && ValidVerdict(v) && forall i | 0 <= i < |sorted| :: sorted[i].headSha != v.headSha
    ensures VerdictsOk(InsertVerdictInOrder(v, sorted))
    ensures forall w | w in InsertVerdictInOrder(v, sorted) :: w == v || w in sorted
    decreases |sorted|
  {
    if sorted != [] && !VerdictBefore(v, sorted[0]) {
      var rest := InsertVerdictInOrder(v, sorted[1..]);
      InsertKeepsVerdictsOk(v, sorted[1..]);
      assert VerdictsOk(sorted[1..]);
      forall i | 0 <= i < |rest| ensures rest[i].headSha != sorted[0].headSha {
        assert rest[i] in rest;
      }
    }
  }

  lemma {:induction false} SortKeepsVerdictsOk(rows: seq<CheckVerdict>)
    requires VerdictsOk(rows)
    ensures VerdictsOk(SortVerdicts(rows))
    ensures forall w | w in SortVerdicts(rows) :: w in rows
    decreases |rows|
  {
    if rows != [] {
      SortKeepsVerdictsOk(rows[1..]);
      assert VerdictsOk(rows[1..]);
      forall i | 0 <= i < |SortVerdicts(rows[1..])| ensures SortVerdicts(rows[1..])[i].headSha != rows[0].headSha {
        assert SortVerdicts(rows[1..])[i] in rows[1..];
      }
      InsertKeepsVerdictsOk(rows[0], SortVerdicts(rows[1..]));
    }
  }

  // ----- The log, its timestamps cut -----

  lemma {:induction false} StoredLogCounts(log: seq<BumpTransition>, cause: BumpCause)
    ensures CountCause(StoredTransitions(log), cause) == CountCause(log, cause)
  {
    if log != [] {
      var init := log[..|log| - 1];
      StoredLogCounts(init, cause);
      assert StoredTransitions(log)[..|log| - 1] == StoredTransitions(init);
    }
  }

  lemma StoredLogCountsAll(log: seq<BumpTransition>)
    ensures forall cause :: CountCause(StoredTransitions(log), cause) == CountCause(log, cause)
  {
    forall cause ensures CountCause(StoredTransitions(log), cause) == CountCause(log, cause) {
      StoredLogCounts(log, cause);
    }
  }

  lemma StoredLogOk(log: seq<BumpTransition>)
    requires LogOk(log)
    ensures LogOk(StoredTransitions(log)) && StateAfter(StoredTransitions(log)) == StateAfter(log)
  {
    var kept := StoredTransitions(log);
    forall i | 0 <= i < |kept|
      ensures kept[i].from == StateAfter(kept[..i]) && kept[i].from != kept[i].to && Listed(kept[i].from, kept[i].to, kept[i].cause)
    {
      assert log[i].from == StateAfter(log[..i]);
    }
  }

  // ----- The rounds as the columns keep them -----

  lemma StoredRoundIsValid(a: RepairAttempt, id: Id)
    requires ValidRound(a) && StorableBudget(a.budget)
    ensures ValidRound(StoredRound(a, id)) && StoredRound(a, id).Open() == a.Open() && StoredRound(a, id).Restarted() == a.Restarted()
  {
    if a.outcome.Some? { StoredOutcomeKeepsMeaning(a.outcome.value); }
  }

  ghost predicate RoundsResemble(rounds: seq<RepairAttempt>, loaded: seq<RepairAttempt>) {
    && |loaded| == |rounds|
    && (forall i | 0 <= i < |rounds| ::
         && loaded[i].round == rounds[i].round && loaded[i].baseSha == rounds[i].baseSha
         && loaded[i].outcome == (if rounds[i].outcome.Some? then Some(StoredOutcome(rounds[i].outcome.value)) else None)
         && loaded[i].Restarted() == rounds[i].Restarted())
  }

  lemma KeptRoundsOk(rounds: seq<RepairAttempt>, a0: nat, id: Id)
    requires RoundsOk(rounds) && forall i | 0 <= i < |rounds| :: StorableBudget(rounds[i].budget)
    ensures RoundsOk(KeptRounds(rounds, a0, id)) && RoundsResemble(rounds, KeptRounds(rounds, a0, id))
  {
    forall i | 0 <= i < |rounds|
      ensures var k := KeptRounds(rounds, a0, id)[i];
        ValidRound(k) && k.Open() == rounds[i].Open() && k.Restarted() == rounds[i].Restarted()
    {
      StoredRoundIsValid(rounds[i], NewId(i, a0, rounds[i].id, id));
    }
  }

  /** The part of a bump that every rule reads: timestamps, ids, the order of
      verdicts and the unused fields of outcomes are left out. */
  ghost predicate Resembles(b: Bump, loaded: Bump) {
    && loaded.key == b.key && loaded.branch == b.branch && loaded.baseBranch == b.baseBranch
    && loaded.headSha == b.headSha && loaded.state == b.state
    && VerdictsOk(loaded.verdicts)
    && RoundsOk(loaded.attempts) && RoundsResemble(b.attempts, loaded.attempts)
    && LogOk(loaded.transitions) && StateAfter(loaded.transitions) == StateAfter(b.transitions)
    && (forall cause :: CountCause(loaded.transitions, cause) == CountCause(b.transitions, cause))
    && (loaded.abandonment.Some? <==> b.abandonment.Some?)
    && (b.abandonment.Some? ==> loaded.abandonment == Some(StoredAbandonment(b.abandonment.value)))
    && (loaded.closure.Some? <==> b.closure.Some?)
    && (b.closure.Some? ==> loaded.closure == Some(StoredClosure(b.closure.value)))
  }

  /** What a loaded bump has of the one in memory, part by part. */
  ghost predicate HasParts(b: Bump, loaded: Bump, n: nat, id: Id)
    requires BudgetsStorable(b)
  {
    && loaded.key == b.key && loaded.branch == b.branch && loaded.baseBranch == b.baseBranch
    && loaded.headSha == b.headSha && loaded.state == b.state
    && loaded.attempts == KeptRounds(b.attempts, n, id)
    && loaded.transitions == StoredTransitions(b.transitions)
    && loaded.abandonment == (if b.abandonment.Some? then Some(StoredAbandonment(b.abandonment.value)) else None)
    && loaded.closure == (if b.closure.Some? then Some(StoredClosure(b.closure.value)) else None)
  }

  lemma KeptParts(b: Bump, loaded: Bump, v0: nat, a0: nat, id: Id)
    requires BudgetsStorable(b) && v0 <= |b.verdicts| && SameUpToVerdictOrder(loaded, Kept(b, v0, a0, id))
    ensures HasParts(b, loaded, a0, id + (|b.verdicts| - v0))
  {
    var k := Kept(b, v0, a0, id);
    assert loaded.(verdicts := []).attempts == k.attempts && loaded.(verdicts := []).transitions == k.transitions;
  }

  lemma PartsResemble(b: Bump, loaded: Bump, n: nat, id: Id)
    requires RoundsOk(b.attempts) && LogOk(b.transitions) && BudgetsStorable(b)
    requires HasParts(b, loaded, n, id) && VerdictsOk(loaded.verdicts)
    ensures Resembles(b, loaded)
  {
    KeptRoundsOk(b.attempts, n, id);
    StoredLogOk(b.transitions);
    StoredLogCountsAll(b.transitions);
  }

  lemma KeptResembles(b: Bump, loaded: Bump, v0: nat, a0: nat, id: Id, maxRounds: int)
    requires Inv(b, maxRounds) && BudgetsStorable(b) && v0 <= |b.verdicts|
    requires SameUpToVerdictOrder(loaded, Kept(b, v0, a0, id)) && VerdictsOk(loaded.verdicts)
    ensures Resembles(b, loaded)
  {
    KeptParts(b, loaded, v0, a0, id);
    PartsResemble(b, loaded, a0, id + (|b.verdicts| - v0));
  }

  /** The invariant reads nothing that a store and a load change. */
  lemma ResemblingInv(b: Bump, loaded: Bump, maxRounds: int)
    requires Inv(b, maxRounds) && Resembles(b, loaded)
    ensures Inv(loaded, maxRounds)
  {}

  lemma ResemblingRestarts(b: Bump, loaded: Bump)
    requires RestartedOnce(b) && Resembles(b, loaded)
    ensures RestartedOnce(loaded)
  {
    if i :| 0 <= i < |b.attempts| && b.attempts[i].Restarted() {
      assert loaded.attempts[i].Restarted();
    }
  }

  lemma ResemblingRestartedBefore(rounds: seq<RepairAttempt>, loaded: seq<RepairAttempt>, n: nat)
    requires RoundsResemble(rounds, loaded) && RestartedBefore(rounds, n)
    ensures RestartedBefore(loaded, n)
  {
    var i :| 0 <= i < |rounds| && rounds[i].round < n && rounds[i].Restarted();
    assert loaded[i].round < n && loaded[i].Restarted();
  }

  lemma ResemblingSupport(b: Bump, loaded: Bump, maxRounds: int)
    requires Inv(b, maxRounds) && RoundsBearOut(b, maxRounds) && Resembles(b, loaded)
    ensures RoundsBearOut(loaded, maxRounds)
  {
    if RestartedBefore(b.attempts, |b.attempts|) {
      ResemblingRestartedBefore(b.attempts, loaded.attempts, |b.attempts|);
    }
    if b.attempts != [] && b.attempts[|b.attempts| - 1].outcome.Some? {
      StoredOutcomeKeepsMeaning(b.attempts[|b.attempts| - 1].outcome.value);
    }
  }

  /** A bump that is sound in memory is sound when it is loaded again. */
  lemma KeptIsSound(b: Bump, loaded: Bump, v0: nat, a0: nat, id: Id, maxRounds: int)
    requires Sound(b, maxRounds) && BudgetsStorable(b) && v0 <= |b.verdicts|
    requires SameUpToVerdictOrder(loaded, Kept(b, v0, a0, id)) && VerdictsOk(loaded.verdicts)
    ensures Sound(loaded, maxRounds)
  {
    KeptResembles(b, loaded, v0, a0, id, maxRounds);
    ResemblingInv(b, loaded, maxRounds);
    ResemblingRestarts(b, loaded);
    ResemblingSupport(b, loaded, maxRounds);
  }

  // ----- State, verdict and reason agree before and after alike -----

  ghost predicate Recorded(verdicts: seq<CheckVerdict>, sha: Sha, conclusion: CheckConclusion) {
    exists v | v in verdicts :: v.headSha == sha && v.conclusion == conclusion
  }

  /** With one verdict per head, being judged is a matter of which verdicts there
      are, not of their order. */
  lemma JudgedIsRecorded(b: Bump, sha: Sha, conclusion: CheckConclusion)
    requires VerdictsOk(b.verdicts)
    ensures Judged(b, sha, conclusion) <==> Recorded(b.verdicts, sha, conclusion)
  {
    FindVerdictFinds(b.verdicts, sha);
  }

  lemma KeptRecords(vs: seq<CheckVerdict>, v0: nat, id: Id, sha: Sha, conclusion: CheckConclusion)
    requires v0 <= |vs|
    ensures Recorded(KeptVerdicts(vs, v0, id), sha, conclusion) <==> Recorded(vs, sha, conclusion)
  {
    var kept := KeptVerdicts(vs, v0, id);
    forall i | 0 <= i < |vs| ensures kept[i].headSha == vs[i].headSha && kept[i].conclusion == vs[i].conclusion {}
    if v :| v in vs && v.headSha == sha && v.conclusion == conclusion {
      var i :| 0 <= i < |vs| && vs[i] == v;
      assert kept[i] in kept;
    }
    if w :| w in kept && w.headSha == sha && w.conclusion == conclusion {
      var i :| 0 <= i < |kept| && kept[i] == w;
      assert vs[i] in vs;
    }
  }

  lemma PermutedRecords(vs: seq<CheckVerdict>, ws: seq<CheckVerdict>, sha: Sha, conclusion: CheckConclusion)
    requires multiset(vs) == multiset(ws)
    ensures Recorded(vs, sha, conclusion) <==> Recorded(ws, sha, conclusion)
  {
    forall v ensures v in vs <==> v in ws {
      assert v in multiset(vs) <==> v in multiset(ws);
    }
  }

  lemma KeptJudgement(b: Bump, loaded: Bump, v0: nat, a0: nat, id: Id, sha: Sha, conclusion: CheckConclusion)
    requires VerdictsOk(b.verdicts) && BudgetsStorable(b) && v0 <= |b.verdicts|
    requires SameUpToVerdictOrder(loaded, Kept(b, v0, a0, id)) && VerdictsOk(loaded.verdicts)
    ensures Judged(loaded, sha, conclusion) <==> Judged(b, sha, conclusion)
  {
    JudgedIsRecorded(b, sha, conclusion);
    JudgedIsRecorded(loaded, sha, conclusion);
    KeptRecords(b.verdicts, v0, id, sha, conclusion);
    PermutedRecords(loaded.verdicts, KeptVerdicts(b.verdicts, v0, id), sha, conclusion);
  }

  lemma KeptHeadJudged(b: Bump, loaded: Bump, v0: nat, a0: nat, id: Id)
    requires VerdictsOk(b.verdicts) && BudgetsStorable(b) && v0 <= |b.verdicts|
    requires SameUpToVerdictOrder(loaded, Kept(b, v0, a0, id)) && VerdictsOk(loaded.verdicts)
    ensures HeadJudged(loaded) <==> HeadJudged(b)
  {
    forall sha, conclusion ensures Judged(loaded, sha, conclusion) <==> Judged(b, sha, conclusion) {
      KeptJudgement(b, loaded, v0, a0, id, sha, conclusion);
    }
    var rounds := KeptRounds(b.attempts, a0, id + (|b.verdicts| - v0));
    assert loaded.(verdicts := []).attempts == rounds;
    assert loaded.(verdicts := []).state == b.state && loaded.(verdicts := []).headSha == b.headSha;
    assert forall i | 0 <= i < |rounds| :: rounds[i].baseSha == b.attempts[i].baseSha;
  }

  lemma {:induction false} StoredGivenUpFrom(log: seq<BumpTransition>)
    ensures GivenUpFrom(StoredTransitions(log)) == GivenUpFrom(log)
  {
    if log != [] {
      StoredGivenUpFrom(log[..|log| - 1]);
      assert StoredTransitions(log)[..|log| - 1] == StoredTransitions(log[..|log| - 1]);
    }
  }

  lemma KeptGaveUpWaiting(b: Bump, loaded: Bump, v0: nat, a0: nat, id: Id)
    requires BudgetsStorable(b) && v0 <= |b.verdicts| && SameUpToVerdictOrder(loaded, Kept(b, v0, a0, id))
    ensures GaveUpWaiting(loaded) <==> GaveUpWaiting(b)
  {
    StoredGivenUpFrom(b.transitions);
    assert loaded.(verdicts := []).transitions == StoredTransitions(b.transitions);
    assert loaded.(verdicts := []).abandonment == Kept(b, v0, a0, id).abandonment;
  }

  /** State and current verdict agree, and the recorded reason is borne out. */
  ghost predicate Agrees(b: Bump, maxRounds: int) {
    HeadJudged(b) && Supported(b, maxRounds)
  }

  /** The two commands the aggregate accepts and the facts do not. */
  predicate Strays(b: Bump, c: Command) {
    StrayPush(b, c) || LateGiveUp(b, c)
  }

  lemma StepAgrees(b: Bump, c: Command, maxRounds: int)
    requires Inv(b, maxRounds) && Agrees(b, maxRounds) && CapExactly(c, maxRounds) && Step(Clean(b), c).Ok?
    ensures Agrees(After(b, c), maxRounds) <==> !Strays(b, c)
  {
    StepJudgesHead(b, c, maxRounds);
    StepIsSupported(b, c, maxRounds);
  }

  /** A sound bump agrees with its facts in memory exactly when it does as loaded. */
  lemma KeptAgrees(b: Bump, loaded: Bump, v0: nat, a0: nat, id: Id, maxRounds: int)
    requires Sound(b, maxRounds) && BudgetsStorable(b) && v0 <= |b.verdicts|
    requires SameUpToVerdictOrder(loaded, Kept(b, v0, a0, id)) && VerdictsOk(loaded.verdicts)
    ensures Agrees(loaded, maxRounds) <==> Agrees(b, maxRounds)
  {
    KeptHeadJudged(b, loaded, v0, a0, id);
    KeptGaveUpWaiting(b, loaded, v0, a0, id);
    KeptIsSound(b, loaded, v0, a0, id, maxRounds);
  }
}
