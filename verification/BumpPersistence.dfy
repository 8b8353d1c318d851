/** Writing a change set and loading the bump again gives the bump in memory, as
    the columns keep it: new ids, whole microseconds, verdicts in time order. */
module BumpPersistence {
  import opened Kernel
  import opened UpkeepFacts
  import opened BumpModel
  import opened BumpInvariant
  import opened BumpChanges
  import opened BumpTables

  // ----- Rows as writes leave them -----

  ghost predicate WholeMicros(t: Time) {
    StoredTime(t) == t
  }

  ghost predicate VerdictRowsOk(t: BumpRows) {
    && VerdictsOk(t.verdicts)
    && (forall i | 0 <= i < |t.verdicts| :: WholeMicros(t.verdicts[i].concludedAt) && t.verdicts[i].id != 0)
  }

  ghost predicate RoundRowsOk(t: BumpRows) {
    && (forall i | 0 <= i < |t.repairs| :: t.repairs[i].round == i + 1 && t.repairs[i].id != 0 && WholeMicros(t.repairs[i].startedAt))
    && (forall k | k in t.runs :: 1 <= k <= |t.repairs| && WholeMicros(t.runs[k].beganAt))
    && (forall k | k in t.outcomes.common :: 1 <= k <= |t.repairs| && WholeMicros(t.outcomes.common[k].endedAt))
  }

  ghost predicate VariantsAt(t: OutcomeTables, k: nat) {
    && (k in t.pushes <==> k in t.common && t.common[k].kind == Pushed)
    && (k in t.exhaustions <==> k in t.common && t.common[k].kind == BudgetExhausted)
    && (k in t.failures <==> k in t.common && t.common[k].kind == RepairFailed)
    && (k in t.aborts <==> k in t.common && t.common[k].kind == RepairAborted)
  }

  /** Every outcome has the variant row of its kind and no other. */
  ghost predicate VariantRowsOk(t: OutcomeTables) {
    forall k: nat :: VariantsAt(t, k)
  }

  ghost predicate LogRowsOk(t: BumpRows) {
    && (t.abandonment.Some? ==> WholeMicros(t.abandonment.value.abandonedAt))
    && (t.closure.Some? ==> WholeMicros(t.closure.value.closedAt))
    && (forall i | 0 <= i < |t.transitions| :: WholeMicros(t.transitions[i].occurredAt))
  }

  /** Rows as inserts leave them: timestamps in whole microseconds, rounds
      numbered, runs and outcomes under a round, one variant per outcome. */
  ghost predicate RowsOk(t: BumpRows) {
    t.row.id != 0 && WholeMicros(t.row.openedAt) && VerdictRowsOk(t) && RoundRowsOk(t) && VariantRowsOk(t.outcomes) && LogRowsOk(t)
  }

  // ----- The bump as the columns keep it -----

  function StoredRound(a: RepairAttempt, id: Id): RepairAttempt
    requires StorableBudget(a.budget)
  {
    a.(id := id, budget := StoredBudget(a.budget), startedAt := StoredTime(a.startedAt),
       run := if a.run.Some? then Some(StoredRun(a.run.value)) else None,
       outcome := if a.outcome.Some? then Some(StoredOutcome(a.outcome.value)) else None)
  }

  ghost predicate BudgetsStorable(b: Bump) {
    forall i | 0 <= i < |b.attempts| :: StorableBudget(b.attempts[i].budget)
  }

  function NewId(i: nat, a0: nat, own: Id, id: Id): Id {
    if i < a0 then own else id + (i - a0)
  }

  function KeptRounds(rounds: seq<RepairAttempt>, a0: nat, id: Id): (r: seq<RepairAttempt>)
    requires forall i | 0 <= i < |rounds| :: StorableBudget(rounds[i].budget)
    ensures |r| == |rounds|
  {
    seq(|rounds|, i requires 0 <= i < |rounds| => StoredRound(rounds[i], NewId(i, a0, rounds[i].id, id)))
  }

  /** Verdicts from `v0` on and rounds from `a0` on are new: they take the next
      ids, verdicts first. Everything else keeps its own. */
  function Kept(b: Bump, v0: nat, a0: nat, id: Id): Bump
    requires forall i | 0 <= i < |b.attempts| :: StorableBudget(b.attempts[i].budget)
    requires v0 <= |b.verdicts|
  {
    b.(verdicts := KeptVerdicts(b.verdicts, v0, id),
       attempts := KeptRounds(b.attempts, a0, id + (|b.verdicts| - v0)),
       transitions := StoredTransitions(b.transitions),
       abandonment := if b.abandonment.Some? then Some(StoredAbandonment(b.abandonment.value)) else None,
       closure := if b.closure.Some? then Some(StoredClosure(b.closure.value)) else None)
  }

  ghost predicate SameUpToVerdictOrder(a: Bump, b: Bump) {
    && a.(verdicts := []) == b.(verdicts := [])
    && multiset(a.verdicts) == multiset(b.verdicts)
  }

  // ----- Sorting -----

  lemma {:induction false} InsertVerdictPermutes(v: CheckVerdict, sorted: seq<CheckVerdict>)
    ensures multiset(InsertVerdictInOrder(v, sorted)) == multiset(sorted) + multiset{v}
    decreases |sorted|
  {
    if sorted != [] && !VerdictBefore(v, sorted[0]) {
      InsertVerdictPermutes(v, sorted[1..]);
      assert sorted == [sorted[0]] + sorted[1..];
    }
  }

  /** The order of verdicts is the only thing a load may change. */
  lemma {:induction false} SortVerdictsPermutes(rows: seq<CheckVerdict>)
    ensures multiset(SortVerdicts(rows)) == multiset(rows)
    decreases |rows|
  {
    if rows != [] {
      SortVerdictsPermutes(rows[1..]);
      InsertVerdictPermutes(rows[0], SortVerdicts(rows[1..]));
      assert rows == [rows[0]] + rows[1..];
    }
  }

  lemma {:induction false} SortRoundsIsIdentity(rows: seq<RepairRow>, from: nat)
    requires forall i | 0 <= i < |rows| :: rows[i].round == from + i
    ensures SortRounds(rows) == rows
    decreases |rows|
  {
    if rows != [] {
      SortRoundsIsIdentity(rows[1..], from + 1);
      assert rows == [rows[0]] + rows[1..];
    }
  }

  // ----- What the inserts leave behind -----

  function NewVerdicts(vs: seq<CheckVerdict>, id: Id): (r: seq<CheckVerdict>)
    ensures |r| == |vs|
  {
    seq(|vs|, i requires 0 <= i < |vs| => StoredVerdict(vs[i], id + i))
  }

  lemma {:induction false} InsertVerdictsAppends(t: BumpRows, vs: seq<CheckVerdict>, id: Id)
    requires VerdictsOk(t.verdicts)
    requires InsertVerdicts(t, vs, id).Some?
    ensures var u := InsertVerdicts(t, vs, id).value;
      u == t.(verdicts := t.verdicts + NewVerdicts(vs, id)) && VerdictsOk(u.verdicts)
    decreases |vs|
  {
    if vs == [] {
      assert t.verdicts + NewVerdicts(vs, id) == t.verdicts;
    } else {
      var u := InsertVerdict(t, vs[0], id).value;
      InsertVerdictsAppends(u, vs[1..], id + 1);
      assert t.verdicts + NewVerdicts(vs, id) == u.verdicts + NewVerdicts(vs[1..], id + 1);
    }
  }

  lemma {:induction false} InsertRoundsAppends(t: BumpRows, rounds: seq<RepairAttempt>, id: Id)
    requires InsertRounds(t, rounds, id).Some?
    ensures var u := InsertRounds(t, rounds, id).value;
      && u == t.(repairs := u.repairs) && |u.repairs| == |t.repairs| + |rounds|
      && u.repairs[..|t.repairs|] == t.repairs
      && (forall i | 0 <= i < |rounds| :: u.repairs[|t.repairs| + i] == RowOf(rounds[i], id + i) && RepairChecks(RowOf(rounds[i], id + i)))
    decreases |rounds|
  {
    if rounds != [] {
      var v := InsertRound(t, rounds[0], id).value;
      InsertRoundsAppends(v, rounds[1..], id + 1);
      var u := InsertRounds(t, rounds, id).value;
      assert u.repairs[..|t.repairs|] == v.repairs[..|t.repairs|];
      forall i | 0 <= i < |rounds|
        ensures u.repairs[|t.repairs| + i] == RowOf(rounds[i], id + i) && RepairChecks(RowOf(rounds[i], id + i))
      {
        if i == 0 {
          assert u.repairs[|t.repairs|] == u.repairs[..|v.repairs|][|t.repairs|];
        } else {
          assert u.repairs[|v.repairs| + (i - 1)] == RowOf(rounds[1..][i - 1], id + 1 + (i - 1));
        }
      }
    }
  }

  /** What putting outcomes does at one key of one table. */
  ghost predicate RowPut<V>(t: map<nat, V>, u: map<nat, V>, k: nat, row: Option<V>) {
    && (k in u <==> k in t || row.Some?)
    && (row.Some? ==> u[k] == row.value)
    && (row.None? && k in t ==> u[k] == t[k])
  }

  /** And at one key of all of them: the common row and the one of its kind. */
  ghost predicate EntryPut(t: OutcomeTables, u: OutcomeTables, k: nat, o: Option<RepairOutcome>) {
    && RowPut(t.common, u.common, k, if o.Some? then Some(OutcomeRowOf(o.value)) else None)
    && RowPut(t.pushes, u.pushes, k, if o.Some? && o.value.kind == Pushed then Some(o.value.headSha) else None)
    && RowPut(t.exhaustions, u.exhaustions, k, if o.Some? && o.value.kind == BudgetExhausted then Some(o.value.limit) else None)
    && RowPut(t.failures, u.failures, k,
              if o.Some? && o.value.kind == RepairFailed then Some((o.value.failureClass, o.value.message)) else None)
    && RowPut(t.aborts, u.aborts, k, if o.Some? && o.value.kind == RepairAborted then Some(o.value.reason) else None)
  }

  lemma PutEntry(t: OutcomeTables, os: map<nat, RepairOutcome>, k: nat)
    ensures EntryPut(t, PutOutcomes(t, os), k, if k in os then Some(os[k]) else None)
  {}

  lemma EntryRoundTrip(t: OutcomeTables, u: OutcomeTables, k: nat, o: Option<RepairOutcome>)
    requires VariantsAt(t, k) && EntryPut(t, u, k, o) && (o.Some? ==> k !in t.common)
    ensures LoadOutcome(u, k) == if o.Some? then Some(StoredOutcome(o.value)) else LoadOutcome(t, k)
    ensures VariantsAt(u, k)
  {}

  /** A stored outcome comes back from its common row and its variant row, the
      fields of the other variants empty. */
  lemma OutcomeRoundTrip(t: OutcomeTables, os: map<nat, RepairOutcome>, k: nat)
    requires VariantRowsOk(t)
    requires k in os ==> k !in t.common
    ensures LoadOutcome(PutOutcomes(t, os), k) == if k in os then Some(StoredOutcome(os[k])) else LoadOutcome(t, k)
  {
    PutEntry(t, os, k);
    EntryRoundTrip(t, PutOutcomes(t, os), k, if k in os then Some(os[k]) else None);
  }

  /** An outcome that sets only the fields of its kind, in whole microseconds,
      comes back unchanged. */
  lemma StoredOutcomeKeepsMeaning(o: RepairOutcome)
    requires ValidOutcome(o)
    ensures ValidOutcome(StoredOutcome(o)) && StoredOutcome(StoredOutcome(o)) == StoredOutcome(o)
    ensures StoredOutcome(o).kind == o.kind && StoredOutcome(o).summary == o.summary
    ensures o.kind == RepairAborted ==> StoredOutcome(o).reason == o.reason
    ensures o.kind == Pushed ==> StoredOutcome(o).headSha == o.headSha
    ensures o.kind == RepairFailed ==> StoredOutcome(o).failureClass == o.failureClass
  {
    StoredTimeIsStable(o.endedAt);
    StoredDurationIsStable(o.usage.wallClock);
  }

  // ----- Write, then load -----

  /** The change set's new rounds carry on the numbering and are still bare. */
  ghost predicate Fits(t: BumpRows, ch: Changes) {
    forall i | 0 <= i < |ch.attempts| ::
      ch.attempts[i].round == |t.repairs| + i + 1 && ch.attempts[i].run.None? && ch.attempts[i].outcome.None?
  }

  /** The fact tables of `u` next to those of `t`: `u` is `t` and the new rows. */
  ghost predicate Grown(t: BumpRows, ch: Changes, id: Id, u: BumpRows) {
    && u.verdicts == t.verdicts + NewVerdicts(ch.verdicts, id) && VerdictsOk(u.verdicts)
    && RoundsGrown(t, ch, id + |ch.verdicts|, u)
    && u.runs == PutRuns(t.runs, ch.runs)
    && u.outcomes == PutOutcomes(t.outcomes, ch.outcomes)
    && (forall k | k in ch.outcomes :: k !in t.outcomes.common && ValidOutcome(ch.outcomes[k]) && HasRound(u, k))
    && (forall k | k in ch.runs :: HasRound(u, k))
  }

  ghost predicate RoundsGrown(t: BumpRows, ch: Changes, id: Id, u: BumpRows) {
    && |u.repairs| == |t.repairs| + |ch.attempts|
    && (forall i | 0 <= i < |t.repairs| :: u.repairs[i] == t.repairs[i])
    && (forall i | 0 <= i < |ch.attempts| :: RepairChecks(RowOf(ch.attempts[i], id + i)) && u.repairs[|t.repairs| + i] == RowOf(ch.attempts[i], id + i))
  }

  lemma InsertsGrow(t: BumpRows, ch: Changes, id: Id)
    requires VerdictsOk(t.verdicts) && InsertVerdicts(t, ch.verdicts, id).Some?
    requires InsertRounds(InsertVerdicts(t, ch.verdicts, id).value, ch.attempts, id + |ch.verdicts|).Some?
    ensures var u := InsertRounds(InsertVerdicts(t, ch.verdicts, id).value, ch.attempts, id + |ch.verdicts|).value;
      && u == t.(verdicts := t.verdicts + NewVerdicts(ch.verdicts, id), repairs := u.repairs)
      && VerdictsOk(u.verdicts) && RoundsGrown(t, ch, id + |ch.verdicts|, u)
  {
    InsertVerdictsAppends(t, ch.verdicts, id);
    var t1 := InsertVerdicts(t, ch.verdicts, id).value;
    InsertRoundsAppends(t1, ch.attempts, id + |ch.verdicts|);
    var u := InsertRounds(t1, ch.attempts, id + |ch.verdicts|).value;
    forall i | 0 <= i < |t.repairs| ensures u.repairs[i] == t.repairs[i] {
      assert u.repairs[..|t.repairs|][i] == u.repairs[i];
    }
  }

  lemma FactsGrow(t: BumpRows, ch: Changes, runIds: set<string>, id: Id)
    requires VerdictsOk(t.verdicts) && WriteFacts(t, ch, runIds, id).Some?
    ensures var u := WriteFacts(t, ch, runIds, id).value;
      Grown(t, ch, id, u) && u.row == t.row && u.abandonment == t.abandonment && u.closure == t.closure && u.transitions == t.transitions
  {
    InsertsGrow(t, ch, id);
    var t2 := InsertRounds(InsertVerdicts(t, ch.verdicts, id).value, ch.attempts, id + |ch.verdicts|).value;
    var u := WriteFacts(t, ch, runIds, id).value;
    assert u == t2.(runs := u.runs, outcomes := u.outcomes);
    RoundsFrame(t2, u);
  }

  lemma RoundsFrame(t: BumpRows, u: BumpRows)
    requires u.repairs == t.repairs
    ensures forall k :: HasRound(t, k) ==> HasRound(u, k)
  {}

  /** The summary tables after a successful write. */
  ghost predicate Summed(t: BumpRows, ch: Changes, u: BumpRows) {
    && u.row == t.row.(state := ch.state, headSha := ch.headSha)
    && u.transitions == t.transitions + StoredTransitions(ch.transitions)
    && u.abandonment == (if ch.abandonment.Some? then Some(StoredAbandonment(ch.abandonment.value)) else if ch.dropAbandon then None else t.abandonment)
    && u.closure == (if ch.closure.Some? then Some(StoredClosure(ch.closure.value)) else t.closure)
  }

  lemma SummaryWrites(t: BumpRows, ch: Changes, s: Surroundings)
    requires WriteSummary(t, ch, s).Some?
    ensures var u := WriteSummary(t, ch, s).value;
      && Summed(t, ch, u)
      && u.verdicts == t.verdicts && u.repairs == t.repairs && u.runs == t.runs && u.outcomes == t.outcomes
  {}

  lemma WriteWrites(t: BumpRows, ch: Changes, s: Surroundings, id: Id)
    requires VerdictsOk(t.verdicts) && Write(t, ch, s, id).Some?
    ensures Grown(t, ch, id, Write(t, ch, s, id).value) && Summed(t, ch, Write(t, ch, s, id).value)
  {
    FactsGrow(t, ch, s.runIds, id);
    var v := WriteFacts(t, ch, s.runIds, id).value;
    SummaryWrites(v, ch, s);
    RoundsFrame(v, Write(t, ch, s, id).value);
  }

  lemma SortedVerdictsAreStored(t: BumpRows, i: nat)
    requires VerdictRowsOk(t) && i < |SortVerdicts(t.verdicts)|
    ensures var v := SortVerdicts(t.verdicts)[i]; StoredVerdict(v, v.id) == v && v.id != 0
    ensures |SortVerdicts(t.verdicts)| == |t.verdicts|
  {
    SortVerdictsPermutes(t.verdicts);
    assert |multiset(SortVerdicts(t.verdicts))| == |multiset(t.verdicts)|;
    assert SortVerdicts(t.verdicts)[i] in multiset(SortVerdicts(t.verdicts));
    assert SortVerdicts(t.verdicts)[i] in t.verdicts;
  }

  function KeptVerdicts(vs: seq<CheckVerdict>, v0: nat, id: Id): (r: seq<CheckVerdict>)
    requires v0 <= |vs|
    ensures |r| == |vs|
  {
    seq(|vs|, i requires 0 <= i < |vs| => StoredVerdict(vs[i], if i < v0 then vs[i].id else id + (i - v0)))
  }

  lemma OldVerdictsAreKept(t: BumpRows, vs: seq<CheckVerdict>, id: Id)
    requires VerdictRowsOk(t)
    ensures |SortVerdicts(t.verdicts)| == |t.verdicts|
    ensures KeptVerdicts(SortVerdicts(t.verdicts) + vs, |t.verdicts|, id) == SortVerdicts(t.verdicts) + NewVerdicts(vs, id)
  {
    SortVerdictsPermutes(t.verdicts);
    assert |multiset(SortVerdicts(t.verdicts))| == |multiset(t.verdicts)|;
    forall i | 0 <= i < |t.verdicts| ensures KeptVerdicts(SortVerdicts(t.verdicts) + vs, |t.verdicts|, id)[i] == SortVerdicts(t.verdicts)[i] {
      SortedVerdictsAreStored(t, i);
    }
  }

  lemma VerdictsReload(t: BumpRows, vs: seq<CheckVerdict>, id: Id)
    requires VerdictRowsOk(t)
    ensures |SortVerdicts(t.verdicts)| == |t.verdicts|
    ensures multiset(KeptVerdicts(SortVerdicts(t.verdicts) + vs, |t.verdicts|, id)) == multiset(SortVerdicts(t.verdicts + NewVerdicts(vs, id)))
  {
    OldVerdictsAreKept(t, vs, id);
    SortVerdictsPermutes(t.verdicts);
    SortVerdictsPermutes(t.verdicts + NewVerdicts(vs, id));
  }

  lemma BudgetReloads(a: RepairAttempt, id: Id)
    requires RepairChecks(RowOf(a, id))
    ensures StorableBudget(a.budget) && LoadBudget(RowOf(a, id)) == StoredBudget(a.budget)
  {}

  lemma LoadedBudgetIsStored(r: RepairRow)
    ensures StorableBudget(LoadBudget(r)) && StoredBudget(LoadBudget(r)) == LoadBudget(r)
  {}

  lemma LoadedOutcomeIsStored(t: OutcomeTables, k: nat)
    requires VariantRowsOk(t) && (k in t.common ==> WholeMicros(t.common[k].endedAt))
    ensures LoadOutcome(t, k).Some? ==> StoredOutcome(LoadOutcome(t, k).value) == LoadOutcome(t, k).value
  {
    assert VariantsAt(t, k);
  }

  /** A round that was in the tables before, and what was laid over it. */
  lemma OldRoundReloads(t: BumpRows, u: BumpRows, r: RepairRow, ch: Changes)
    requires RoundRowsOk(t) && VariantRowsOk(t.outcomes) && WholeMicros(r.startedAt)
    requires u.runs == PutRuns(t.runs, ch.runs)
    requires LoadOutcome(u.outcomes, r.round) ==
      if r.round in ch.outcomes then Some(StoredOutcome(ch.outcomes[r.round])) else LoadOutcome(t.outcomes, r.round)
    ensures var a := Overlay(LoadRound(t, r), ch.runs, ch.outcomes);
      StorableBudget(a.budget) && LoadRound(u, r) == StoredRound(a, r.id)
  {
    LoadedBudgetIsStored(r);
    LoadedOutcomeIsStored(t.outcomes, r.round);
    if r.round in t.runs && r.round !in ch.runs {
      assert StoredRun(t.runs[r.round]) == t.runs[r.round];
    }
  }

  /** A round the change set opened. */
  lemma NewRoundReloads(t: BumpRows, u: BumpRows, a: RepairAttempt, id: Id, ch: Changes)
    requires RoundRowsOk(t) && RepairChecks(RowOf(a, id)) && a.round > |t.repairs| && a.run.None? && a.outcome.None?
    requires u.runs == PutRuns(t.runs, ch.runs)
    requires LoadOutcome(u.outcomes, a.round) ==
      if a.round in ch.outcomes then Some(StoredOutcome(ch.outcomes[a.round])) else LoadOutcome(t.outcomes, a.round)
    ensures StorableBudget(a.budget) && LoadRound(u, RowOf(a, id)) == StoredRound(Overlay(a, ch.runs, ch.outcomes), id)
  {
    BudgetReloads(a, id);
  }

  /** One row of the loaded bump is the patched round as the columns keep it. */
  ghost predicate Reloaded(u: BumpRows, r: RepairRow, a: RepairAttempt, id: Id) {
    StorableBudget(a.budget) && LoadRound(u, r) == StoredRound(a, id)
  }

  lemma OldRowReloads(t: BumpRows, ch: Changes, id: Id, u: BumpRows, i: nat)
    requires RowsOk(t) && Grown(t, ch, id, u) && i < |t.repairs|
    ensures Reloaded(u, u.repairs[i], Overlay(LoadRound(t, t.repairs[i]), ch.runs, ch.outcomes), t.repairs[i].id)
  {
    OutcomeRoundTrip(t.outcomes, ch.outcomes, t.repairs[i].round);
    OldRoundReloads(t, u, t.repairs[i], ch);
  }

  lemma NewRowReloads(t: BumpRows, ch: Changes, id: Id, u: BumpRows, j: nat)
    requires RowsOk(t) && Fits(t, ch) && Grown(t, ch, id, u) && j < |ch.attempts|
    ensures Reloaded(u, u.repairs[|t.repairs| + j], Overlay(ch.attempts[j], ch.runs, ch.outcomes), id + |ch.verdicts| + j)
  {
    var a := ch.attempts[j];
    assert u.repairs[|t.repairs| + j] == RowOf(a, id + |ch.verdicts| + j);
    OutcomeRoundTrip(t.outcomes, ch.outcomes, a.round);
    NewRoundReloads(t, u, a, id + |ch.verdicts| + j, ch);
  }

  lemma PatchedRound(key: BumpKey, t: BumpRows, ch: Changes, i: nat)
    requires RoundRowsOk(t) && i < |t.repairs| + |ch.attempts|
    ensures var p := Patch(Load(key, t), ch).attempts;
      && |p| == |t.repairs| + |ch.attempts|
      && (i < |t.repairs| ==> p[i] == Overlay(LoadRound(t, t.repairs[i]), ch.runs, ch.outcomes) && p[i].id == t.repairs[i].id)
      && (i >= |t.repairs| ==> p[i] == Overlay(ch.attempts[i - |t.repairs|], ch.runs, ch.outcomes))
  {
    SortRoundsIsIdentity(t.repairs, 1);
  }

  lemma OldRoundIsKept(t: BumpRows, ch: Changes, id: Id, u: BumpRows, a: RepairAttempt, i: nat)
    requires RowsOk(t) && Grown(t, ch, id, u) && i < |t.repairs|
    requires a == Overlay(LoadRound(t, t.repairs[i]), ch.runs, ch.outcomes) && a.id == t.repairs[i].id
    ensures Reloaded(u, u.repairs[i], a, NewId(i, |t.repairs|, a.id, id + |ch.verdicts|))
  {
    OldRowReloads(t, ch, id, u, i);
  }

  lemma NewRoundIsKept(t: BumpRows, ch: Changes, id: Id, u: BumpRows, a: RepairAttempt, i: nat)
    requires RowsOk(t) && Fits(t, ch) && Grown(t, ch, id, u) && |t.repairs| <= i < |t.repairs| + |ch.attempts|
    requires a == Overlay(ch.attempts[i - |t.repairs|], ch.runs, ch.outcomes)
    ensures Reloaded(u, u.repairs[i], a, NewId(i, |t.repairs|, a.id, id + |ch.verdicts|))
  {
    NewRowReloads(t, ch, id, u, i - |t.repairs|);
  }

  lemma PatchSizes(key: BumpKey, t: BumpRows, ch: Changes)
    requires VerdictRowsOk(t) && RoundRowsOk(t)
    ensures var b := Patch(Load(key, t), ch);
      && b.verdicts == SortVerdicts(t.verdicts) + ch.verdicts && |b.verdicts| == |t.verdicts| + |ch.verdicts|
      && |b.attempts| == |t.repairs| + |ch.attempts|
  {
    SortRoundsIsIdentity(t.repairs, 1);
    OldVerdictsAreKept(t, [], 0);
  }

  lemma RowsAreKept(u: BumpRows, rounds: seq<RepairAttempt>, a0: nat, id: Id)
    requires RoundRowsOk(u) && |rounds| == |u.repairs|
    requires forall i | 0 <= i < |rounds| :: Reloaded(u, u.repairs[i], rounds[i], NewId(i, a0, rounds[i].id, id))
    ensures forall i | 0 <= i < |rounds| :: StorableBudget(rounds[i].budget)
    ensures LoadRounds(u, SortRounds(u.repairs)) == KeptRounds(rounds, a0, id)
  {
    SortRoundsIsIdentity(u.repairs, 1);
  }

  lemma RoundsReload(key: BumpKey, t: BumpRows, ch: Changes, id: Id, u: BumpRows)
    requires RowsOk(t) && Fits(t, ch) && Grown(t, ch, id, u) && RoundRowsOk(u)
    ensures var b := Patch(Load(key, t), ch);
      BudgetsStorable(b) && LoadRounds(u, SortRounds(u.repairs)) == KeptRounds(b.attempts, |t.repairs|, id + |ch.verdicts|)
  {
    PatchSizes(key, t, ch);
    var rounds := Patch(Load(key, t), ch).attempts;
    forall i | 0 <= i < |rounds|
      ensures Reloaded(u, u.repairs[i], rounds[i], NewId(i, |t.repairs|, rounds[i].id, id + |ch.verdicts|))
    {
      PatchedRound(key, t, ch, i);
      if i < |t.repairs| {
        OldRoundIsKept(t, ch, id, u, rounds[i], i);
      } else {
        NewRoundIsKept(t, ch, id, u, rounds[i], i);
      }
    }
    RowsAreKept(u, rounds, |t.repairs|, id + |ch.verdicts|);
  }

  lemma PutOutcomesKeepsVariants(t: OutcomeTables, os: map<nat, RepairOutcome>)
    requires VariantRowsOk(t) && forall k | k in os :: k !in t.common
    ensures VariantRowsOk(PutOutcomes(t, os))
  {
    forall k: nat ensures VariantsAt(PutOutcomes(t, os), k) {
      PutEntry(t, os, k);
      EntryRoundTrip(t, PutOutcomes(t, os), k, if k in os then Some(os[k]) else None);
    }
  }

  lemma VerdictRowsStayOk(t: BumpRows, ch: Changes, id: Id, u: BumpRows)
    requires VerdictRowsOk(t) && Grown(t, ch, id, u) && id != 0
    ensures VerdictRowsOk(u)
  {}

  lemma RoundNumbersStayOk(t: BumpRows, ch: Changes, id: Id, u: BumpRows, i: nat)
    requires RoundRowsOk(t) && Fits(t, ch) && RoundsGrown(t, ch, id, u) && id != 0 && i < |u.repairs|
    ensures u.repairs[i].round == i + 1 && u.repairs[i].id != 0 && WholeMicros(u.repairs[i].startedAt)
  {
    if i >= |t.repairs| {
      var j := i - |t.repairs|;
      assert u.repairs[|t.repairs| + j] == RowOf(ch.attempts[j], id + j);
    }
  }

  lemma RunRowsStayOk(t: BumpRows, ch: Changes, u: BumpRows, k: nat)
    requires RoundRowsOk(t) && |t.repairs| <= |u.repairs| && k in u.runs && u.runs == PutRuns(t.runs, ch.runs)
    requires k in ch.runs ==> 1 <= k <= |u.repairs|
    ensures 1 <= k <= |u.repairs| && WholeMicros(u.runs[k].beganAt)
  {}

  lemma OutcomeRowsStayOk(t: BumpRows, ch: Changes, u: BumpRows, k: nat)
    requires RoundRowsOk(t) && |t.repairs| <= |u.repairs|
    requires RowPut(t.outcomes.common, u.outcomes.common, k, if k in ch.outcomes then Some(OutcomeRowOf(ch.outcomes[k])) else None)
    requires k in u.outcomes.common && (k in ch.outcomes ==> 1 <= k <= |u.repairs|)
    ensures 1 <= k <= |u.repairs| && WholeMicros(u.outcomes.common[k].endedAt)
  {}

  lemma RoundRowsStayOk(t: BumpRows, ch: Changes, id: Id, u: BumpRows)
    requires RoundRowsOk(t) && Fits(t, ch) && Grown(t, ch, id, u) && id != 0
    ensures RoundRowsOk(u)
  {
    forall i | 0 <= i < |u.repairs|
      ensures u.repairs[i].round == i + 1 && u.repairs[i].id != 0 && WholeMicros(u.repairs[i].startedAt)
    {
      RoundNumbersStayOk(t, ch, id + |ch.verdicts|, u, i);
    }
    forall k: nat | HasRound(u, k) ensures 1 <= k <= |u.repairs| {
      var i :| 0 <= i < |u.repairs| && u.repairs[i].round == k;
    }
    forall k | k in u.runs ensures 1 <= k <= |u.repairs| && WholeMicros(u.runs[k].beganAt) {
      RunRowsStayOk(t, ch, u, k);
    }
    forall k | k in u.outcomes.common ensures 1 <= k <= |u.repairs| && WholeMicros(u.outcomes.common[k].endedAt) {
      PutEntry(t.outcomes, ch.outcomes, k);
      OutcomeRowsStayOk(t, ch, u, k);
    }
  }

  lemma LogRowsStayOk(t: BumpRows, ch: Changes, u: BumpRows)
    requires LogRowsOk(t) && Summed(t, ch, u)
    ensures LogRowsOk(u) && u.row.id == t.row.id && u.row.openedAt == t.row.openedAt
  {}

  lemma RowsStayOk(t: BumpRows, ch: Changes, s: Surroundings, id: Id)
    requires RowsOk(t) && Fits(t, ch) && id != 0 && Write(t, ch, s, id).Some?
    ensures RowsOk(Write(t, ch, s, id).value)
  {
    WriteWrites(t, ch, s, id);
    WrittenRowsOk(t, ch, id, Write(t, ch, s, id).value);
  }

  lemma WrittenRowsOk(t: BumpRows, ch: Changes, id: Id, u: BumpRows)
    requires RowsOk(t) && Fits(t, ch) && id != 0 && Grown(t, ch, id, u) && Summed(t, ch, u)
    ensures RowsOk(u)
  {
    VerdictRowsStayOk(t, ch, id, u);
    RoundRowsStayOk(t, ch, id, u);
    PutOutcomesKeepsVariants(t.outcomes, ch.outcomes);
    LogRowsStayOk(t, ch, u);
  }

  lemma StoredTransitionsConcat(a: seq<BumpTransition>, b: seq<BumpTransition>)
    requires forall i | 0 <= i < |a| :: WholeMicros(a[i].occurredAt)
    ensures StoredTransitions(a + b) == a + StoredTransitions(b)
  {}

  lemma SummaryReloads(key: BumpKey, t: BumpRows, ch: Changes, id: Id, u: BumpRows)
    requires RowsOk(t) && Summed(t, ch, u)
    requires BudgetsStorable(Patch(Load(key, t), ch)) && |t.verdicts| <= |Patch(Load(key, t), ch).verdicts|
    ensures var k := Kept(Patch(Load(key, t), ch), |t.verdicts|, |t.repairs|, id);
      Load(key, u).(verdicts := [], attempts := []) == k.(verdicts := [], attempts := [])
  {
    StoredTransitionsConcat(t.transitions, ch.transitions);
  }

  lemma WrittenReloads(key: BumpKey, t: BumpRows, ch: Changes, id: Id, u: BumpRows)
    requires RowsOk(t) && Fits(t, ch) && id != 0 && Grown(t, ch, id, u) && Summed(t, ch, u)
    ensures var b := Patch(Load(key, t), ch);
      && BudgetsStorable(b) && |t.verdicts| <= |b.verdicts|
      && SameUpToVerdictOrder(Load(key, u), Kept(b, |t.verdicts|, |t.repairs|, id))
  {
    RoundRowsStayOk(t, ch, id, u);
    PatchSizes(key, t, ch);
    RoundsReload(key, t, ch, id, u);
    VerdictsReload(t, ch.verdicts, id);
    SummaryReloads(key, t, ch, id, u);
  }

  /** Whatever change set a write accepts, the bump loaded afterwards is the one
      loaded before with the changes replayed, as the columns keep it. */
  lemma WriteThenLoad(key: BumpKey, t: BumpRows, ch: Changes, s: Surroundings, id: Id)
    requires RowsOk(t) && Fits(t, ch) && id != 0 && Write(t, ch, s, id).Some?
    ensures var b := Patch(Load(key, t), ch);
      && BudgetsStorable(b) && |t.verdicts| <= |b.verdicts|
      && SameUpToVerdictOrder(Load(key, Write(t, ch, s, id).value), Kept(b, |t.verdicts|, |t.repairs|, id))
  {
    WriteWrites(t, ch, s, id);
    WrittenReloads(key, t, ch, id, Write(t, ch, s, id).value);
  }
}
