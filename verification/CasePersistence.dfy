/** Writing a change set and loading the case again gives the case in memory, as
    the columns keep it: new ids, whole microseconds, approvals in time order. */
module CasePersistence {
  import opened Kernel
  import opened CaseFacts
  import opened CaseModel
  import opened CaseInvariant
  import opened CaseChanges
  import opened CaseTables

  // ----- Rows as writes leave them -----

  ghost predicate WholeMicros(t: Time) {
    StoredTime(t) == t
  }

  ghost predicate ApprovalRowsOk(t: CaseRows) {
    forall i | 0 <= i < |t.approvals| :: StoredApproval(t.approvals[i], t.approvals[i].id) == t.approvals[i] && ValidApproval(t.approvals[i])
  }

  ghost predicate AttemptRowsOk(t: CaseRows) {
    && (forall i | 0 <= i < |t.attempts| :: t.attempts[i].ordinal == i + 1 && t.attempts[i].id != 0 && WholeMicros(t.attempts[i].startedAt))
    && (forall k | k in t.runs :: 1 <= k <= |t.attempts| && WholeMicros(t.runs[k].beganAt))
    && (forall k | k in t.outcomes.common :: 1 <= k <= |t.attempts| && WholeMicros(t.outcomes.common[k].endedAt))
  }

  /** Every outcome has the variant row of its kind and no other, and an
      exhaustion's pull request, when it has one, is a real one. */
  ghost predicate VariantRowsOk(t: OutcomeTables) {
    forall k: nat :: VariantsAt(t, k)
  }

  ghost predicate LogRowsOk(t: CaseRows) {
    && (t.triage.Some? ==> WholeMicros(t.triage.value.triagedAt))
    && (t.closure.Some? ==> WholeMicros(t.closure.value.closedAt))
    && (forall i | 0 <= i < |t.transitions| :: WholeMicros(t.transitions[i].occurredAt))
  }

  ghost predicate RowsOk(t: CaseRows) {
    t.row.id != 0 && WholeMicros(t.row.receivedAt) && ApprovalRowsOk(t) && AttemptRowsOk(t) && VariantRowsOk(t.outcomes) && LogRowsOk(t)
  }

  // ----- The case as the columns keep it -----

  function StoredAttempt(a: Attempt, id: Id): Attempt
    requires StorableBudget(a.budget)
  {
    a.(id := id, budget := StoredBudget(a.budget), startedAt := StoredTime(a.startedAt),
       run := if a.run.Some? then Some(StoredRun(a.run.value)) else None,
       outcome := if a.outcome.Some? then Some(StoredOutcome(a.outcome.value)) else None)
  }

  ghost predicate BudgetsStorable(attempts: seq<Attempt>) {
    forall i | 0 <= i < |attempts| :: StorableBudget(attempts[i].budget)
  }

  function NewId(i: nat, n: nat, own: Id, id: Id): Id {
    if i < n then own else id + (i - n)
  }

  function KeptAttempts(attempts: seq<Attempt>, a0: nat, id: Id): (r: seq<Attempt>)
    requires forall i | 0 <= i < |attempts| :: StorableBudget(attempts[i].budget)
    ensures |r| == |attempts|
  {
    seq(|attempts|, i requires 0 <= i < |attempts| => StoredAttempt(attempts[i], NewId(i, a0, attempts[i].id, id)))
  }

  function KeptApprovals(approvals: seq<Approval>, p0: nat, id: Id): (r: seq<Approval>)
    ensures |r| == |approvals|
  {
    seq(|approvals|, i requires 0 <= i < |approvals| => StoredApproval(approvals[i], NewId(i, p0, approvals[i].id, id)))
  }

  /** Approvals from `p0` on and attempts from `a0` on are new: they take the next
      ids, approvals first. Everything else keeps its own. */
  function Kept(c: Case, p0: nat, a0: nat, id: Id): Case
    requires forall i | 0 <= i < |c.attempts| :: StorableBudget(c.attempts[i].budget)
    requires p0 <= |c.approvals|
  {
    c.(triage := if c.triage.Some? then Some(StoredTriage(c.triage.value)) else None,
       approvals := KeptApprovals(c.approvals, p0, id),
       attempts := KeptAttempts(c.attempts, a0, id + (|c.approvals| - p0)),
       transitions := StoredTransitions(c.transitions),
       closure := if c.closure.Some? then Some(StoredClosure(c.closure.value)) else None)
  }

  ghost predicate SameUpToApprovalOrder(a: Case, b: Case) {
    && a.(approvals := []) == b.(approvals := [])
    && multiset(a.approvals) == multiset(b.approvals)
  }

  // ----- Sorting -----

  lemma {:induction false} InsertPermutes(a: Approval, sorted: seq<Approval>)
    ensures multiset(InsertInOrder(a, sorted)) == multiset(sorted) + multiset{a}
    decreases |sorted|
  {
    if sorted != [] && !ApprovalBefore(a, sorted[0]) {
      InsertPermutes(a, sorted[1..]);
      assert sorted == [sorted[0]] + sorted[1..];
    }
  }

  lemma {:induction false} SortPermutes(rows: seq<Approval>)
    ensures multiset(SortApprovals(rows)) == multiset(rows)
    ensures |SortApprovals(rows)| == |rows|
    decreases |rows|
  {
    if rows != [] {
      SortPermutes(rows[1..]);
      InsertPermutes(rows[0], SortApprovals(rows[1..]));
      assert rows == [rows[0]] + rows[1..];
    }
    assert |multiset(SortApprovals(rows))| == |multiset(rows)|;
  }

  lemma {:induction false} SortAttemptsIsIdentity(rows: seq<AttemptRow>, from: nat)
    requires forall i | 0 <= i < |rows| :: rows[i].ordinal == from + i
    ensures SortAttempts(rows) == rows
    decreases |rows|
  {
    if rows != [] {
      SortAttemptsIsIdentity(rows[1..], from + 1);
      assert rows == [rows[0]] + rows[1..];
    }
  }

  // ----- What the inserts leave behind -----

  function NewApprovals(approvals: seq<Approval>, id: Id): (r: seq<Approval>)
    ensures |r| == |approvals|
  {
    seq(|approvals|, i requires 0 <= i < |approvals| => StoredApproval(approvals[i], id + i))
  }

  lemma {:induction false} InsertApprovalsAppends(t: CaseRows, approvals: seq<Approval>, taken: set<string>, deliveries: set<string>, id: Id)
    requires InsertApprovals(t, approvals, taken, deliveries, id).Some?
    ensures InsertApprovals(t, approvals, taken, deliveries, id).value == t.(approvals := t.approvals + NewApprovals(approvals, id))
    decreases |approvals|
  {
    if approvals == [] {
      assert t.approvals + NewApprovals(approvals, id) == t.approvals;
    } else {
      var a := approvals[0];
      var u := t.(approvals := t.approvals + [StoredApproval(a, id)]);
      InsertApprovalsAppends(u, approvals[1..], if a.source == SourceLabel then taken + {a.deliveryId} else taken, deliveries, id + 1);
      assert t.approvals + NewApprovals(approvals, id) == u.approvals + NewApprovals(approvals[1..], id + 1);
    }
  }

  ghost predicate AttemptsGrown(t: CaseRows, attempts: seq<Attempt>, id: Id, u: CaseRows) {
    && |u.attempts| == |t.attempts| + |attempts|
    && (forall i | 0 <= i < |t.attempts| :: u.attempts[i] == t.attempts[i])
    && (forall i | 0 <= i < |attempts| :: AttemptChecks(RowOf(attempts[i], id + i)) && u.attempts[|t.attempts| + i] == RowOf(attempts[i], id + i))
  }

  lemma {:induction false} InsertAttemptsAppends(t: CaseRows, attempts: seq<Attempt>, id: Id)
    requires InsertAttempts(t, attempts, id).Some?
    ensures var u := InsertAttempts(t, attempts, id).value;
      u == t.(attempts := u.attempts) && AttemptsGrown(t, attempts, id, u)
    decreases |attempts|
  {
    if attempts != [] {
      var v := InsertAttempt(t, attempts[0], id).value;
      InsertAttemptsAppends(v, attempts[1..], id + 1);
      var u := InsertAttempts(t, attempts, id).value;
      forall i | 0 <= i < |t.attempts| ensures u.attempts[i] == t.attempts[i] {
        assert u.attempts[i] == v.attempts[i];
      }
      forall i | 0 <= i < |attempts|
        ensures AttemptChecks(RowOf(attempts[i], id + i)) && u.attempts[|t.attempts| + i] == RowOf(attempts[i], id + i)
      {
        if i == 0 {
          assert u.attempts[|t.attempts|] == v.attempts[|t.attempts|];
        } else {
          assert attempts[1..][i - 1] == attempts[i];
          assert u.attempts[|v.attempts| + (i - 1)] == RowOf(attempts[1..][i - 1], id + 1 + (i - 1));
        }
      }
    }
  }

  // ----- The outcome of one attempt, in and out -----

  /** What putting outcomes does at one key of one table. */
  ghost predicate RowPut<V>(t: map<nat, V>, u: map<nat, V>, k: nat, row: Option<V>) {
    && (k in u <==> k in t || row.Some?)
    && (row.Some? ==> u[k] == row.value)
    && (row.None? && k in t ==> u[k] == t[k])
  }

  /** And at one key of all of them: the common row and the one of its kind. */
  ghost predicate EntryPut(t: OutcomeTables, u: OutcomeTables, k: nat, o: Option<Outcome>) {
    && RowPut(t.common, u.common, k, if o.Some? then Some(OutcomeRowOf(o.value)) else None)
    && RowPut(t.pullRequests, u.pullRequests, k,
              if o.Some? && o.value.kind == PullRequestOpened then Some((o.value.prNumber, o.value.headSha)) else None)
    && RowPut(t.exhaustions, u.exhaustions, k,
              if o.Some? && o.value.kind == BudgetExhausted then Some((o.value.limit, NullablePR(o.value))) else None)
    && RowPut(t.failures, u.failures, k,
              if o.Some? && o.value.kind == FailedOutcome then Some((o.value.failureClass, o.value.message)) else None)
    && RowPut(t.aborts, u.aborts, k, if o.Some? && o.value.kind == Aborted then Some(o.value.reason) else None)
  }

  lemma PutEntry(t: OutcomeTables, os: map<nat, Outcome>, k: nat)
    ensures EntryPut(t, PutOutcomes(t, os), k, if k in os then Some(os[k]) else None)
  {}

  ghost predicate VariantsAt(t: OutcomeTables, k: nat) {
    && (k in t.pullRequests <==> k in t.common && t.common[k].kind == PullRequestOpened)
    && (k in t.exhaustions <==> k in t.common && t.common[k].kind == BudgetExhausted)
    && (k in t.failures <==> k in t.common && t.common[k].kind == FailedOutcome)
    && (k in t.aborts <==> k in t.common && t.common[k].kind == Aborted)
    && (k in t.exhaustions && t.exhaustions[k].1.Some? ==> t.exhaustions[k].1.value.0 != 0)
  }

  lemma EntryRoundTrip(t: OutcomeTables, u: OutcomeTables, k: nat, o: Option<Outcome>)
    requires VariantsAt(t, k) && EntryPut(t, u, k, o) && (o.Some? ==> k !in t.common)
    ensures LoadOutcome(u, k) == if o.Some? then Some(StoredOutcome(o.value)) else LoadOutcome(t, k)
    ensures VariantsAt(u, k)
  {}

  /** Each of the four variants, an exhaustion with and without its partial pull
      request, comes back from its rows with every other field empty. */
  lemma OutcomeRoundTrip(t: OutcomeTables, os: map<nat, Outcome>, k: nat)
    requires VariantRowsOk(t)
    requires k in os ==> k !in t.common
    ensures LoadOutcome(PutOutcomes(t, os), k) == if k in os then Some(StoredOutcome(os[k])) else LoadOutcome(t, k)
  {
    PutEntry(t, os, k);
    EntryRoundTrip(t, PutOutcomes(t, os), k, if k in os then Some(os[k]) else None);
  }

  /** An outcome a constructor built, in whole microseconds, is kept exactly. */
  lemma WellBuiltIsKept(o: Outcome)
    requires WellBuilt(o)
    ensures StoredOutcome(o) == o.(endedAt := StoredTime(o.endedAt), usage := StoredUsage(o.usage))
    ensures WellBuilt(StoredOutcome(o)) && VariantChecks(o)
  {}

  /** The tables keep what the aggregate reads of any outcome at all. */
  lemma StoredOutcomeKeepsMeaning(o: Outcome)
    ensures StoredOutcome(StoredOutcome(o)) == StoredOutcome(o)
    ensures StoredOutcome(o).kind == o.kind && StoredOutcome(o).summary == o.summary
    ensures o.kind == Aborted ==> StoredOutcome(o).reason == o.reason
  {
    StoredTimeIsStable(o.endedAt);
    StoredDurationIsStable(o.usage.wallClock);
  }

  // ----- Write, then load -----

  ghost predicate Fits(t: CaseRows, ch: Changes) {
    forall i | 0 <= i < |ch.attempts| ::
      ch.attempts[i].ordinal == |t.attempts| + i + 1 && ch.attempts[i].run.None? && ch.attempts[i].outcome.None?
  }

  /** The fact tables of `u` next to those of `t`: `u` is `t` and the new rows. */
  ghost predicate Grown(t: CaseRows, ch: Changes, id: Id, u: CaseRows) {
    && u.triage == (if ch.triage.Some? then Some(StoredTriage(ch.triage.value)) else t.triage)
    && u.approvals == t.approvals + NewApprovals(ch.approvals, id)
    && AttemptsGrown(t, ch.attempts, id + |ch.approvals|, u)
    && u.runs == t.runs + RunRows(ch.runs)
    && u.outcomes == PutOutcomes(t.outcomes, ch.outcomes)
    && (forall k | k in ch.outcomes :: k !in t.outcomes.common && VariantChecks(ch.outcomes[k]) && HasAttempt(u, k))
    && (forall k | k in ch.runs :: HasAttempt(u, k))
  }

  lemma InsertsGrow(t: CaseRows, ch: Changes, s: Surroundings, id: Id, t1: CaseRows)
    requires InsertApprovals(t1, ch.approvals, s.approvers, s.deliveries, id).Some? && t1 == t.(triage := t1.triage)
    requires InsertAttempts(InsertApprovals(t1, ch.approvals, s.approvers, s.deliveries, id).value, ch.attempts, id + |ch.approvals|).Some?
    ensures var u := InsertAttempts(InsertApprovals(t1, ch.approvals, s.approvers, s.deliveries, id).value, ch.attempts, id + |ch.approvals|).value;
      && u == t1.(approvals := t.approvals + NewApprovals(ch.approvals, id), attempts := u.attempts)
      && AttemptsGrown(t, ch.attempts, id + |ch.approvals|, u)
  {
    InsertApprovalsAppends(t1, ch.approvals, s.approvers, s.deliveries, id);
    InsertAttemptsAppends(InsertApprovals(t1, ch.approvals, s.approvers, s.deliveries, id).value, ch.attempts, id + |ch.approvals|);
  }

  lemma FactsGrow(t: CaseRows, ch: Changes, s: Surroundings, id: Id)
    requires WriteFacts(t, ch, s, id).Some?
    ensures var u := WriteFacts(t, ch, s, id).value;
      Grown(t, ch, id, u) && u.row == t.row && u.closure == t.closure && u.transitions == t.transitions
  {
    var t1 := (if ch.triage.Some? then InsertTriage(t, ch.triage.value) else Some(t)).value;
    InsertsGrow(t, ch, s, id, t1);
    var t3 := InsertAttempts(InsertApprovals(t1, ch.approvals, s.approvers, s.deliveries, id).value, ch.attempts, id + |ch.approvals|).value;
    AttemptsFrame(t3, WriteFacts(t, ch, s, id).value);
  }

  lemma AttemptsFrame(t: CaseRows, u: CaseRows)
    requires u.attempts == t.attempts
    ensures forall k :: HasAttempt(t, k) ==> HasAttempt(u, k)
  {}

  ghost predicate Summed(t: CaseRows, ch: Changes, u: CaseRows) {
    && u.row == t.row.(state := ch.state)
    && u.transitions == t.transitions + StoredTransitions(ch.transitions)
    && u.closure == (if ch.closure.Some? then Some(StoredClosure(ch.closure.value)) else t.closure)
  }

  lemma WriteWrites(t: CaseRows, ch: Changes, s: Surroundings, id: Id)
    requires Write(t, ch, s, id).Some?
    ensures Grown(t, ch, id, Write(t, ch, s, id).value) && Summed(t, ch, Write(t, ch, s, id).value)
  {
    FactsGrow(t, ch, s, id);
    AttemptsFrame(WriteFacts(t, ch, s, id).value, Write(t, ch, s, id).value);
  }

  // ----- Approvals -----

  lemma SortedApprovalIsStored(t: CaseRows, i: nat)
    requires ApprovalRowsOk(t) && i < |SortApprovals(t.approvals)|
    ensures var a := SortApprovals(t.approvals)[i]; StoredApproval(a, a.id) == a && a in t.approvals
  {
    SortPermutes(t.approvals);
    assert SortApprovals(t.approvals)[i] in multiset(SortApprovals(t.approvals));
  }

  lemma ApprovalsReload(t: CaseRows, approvals: seq<Approval>, id: Id)
    requires ApprovalRowsOk(t)
    ensures |SortApprovals(t.approvals)| == |t.approvals|
    ensures multiset(KeptApprovals(SortApprovals(t.approvals) + approvals, |t.approvals|, id)) == multiset(SortApprovals(t.approvals + NewApprovals(approvals, id)))
  {
    var sorted := SortApprovals(t.approvals);
    SortPermutes(t.approvals);
    SortPermutes(t.approvals + NewApprovals(approvals, id));
    forall i | 0 <= i < |t.approvals| ensures KeptApprovals(sorted + approvals, |t.approvals|, id)[i] == sorted[i] {
      SortedApprovalIsStored(t, i);
    }
    assert KeptApprovals(sorted + approvals, |t.approvals|, id) == sorted + NewApprovals(approvals, id);
  }

  // ----- Attempts -----

  /** One row of the loaded case is the patched attempt as the columns keep it. */
  ghost predicate Reloaded(u: CaseRows, r: AttemptRow, a: Attempt, id: Id) {
    StorableBudget(a.budget) && LoadAttempt(u, r) == StoredAttempt(a, id)
  }

  lemma LoadedOutcomeIsStored(t: OutcomeTables, k: nat)
    requires VariantRowsOk(t) && (k in t.common ==> WholeMicros(t.common[k].endedAt))
    ensures LoadOutcome(t, k).Some? ==> StoredOutcome(LoadOutcome(t, k).value) == LoadOutcome(t, k).value
  {
    assert VariantsAt(t, k);
  }

  lemma OldAttemptReloads(t: CaseRows, u: CaseRows, r: AttemptRow, ch: Changes)
    requires AttemptRowsOk(t) && VariantRowsOk(t.outcomes) && WholeMicros(r.startedAt)
    requires u.runs == t.runs + RunRows(ch.runs)
    requires LoadOutcome(u.outcomes, r.ordinal) ==
      if r.ordinal in ch.outcomes then Some(StoredOutcome(ch.outcomes[r.ordinal])) else LoadOutcome(t.outcomes, r.ordinal)
    ensures Reloaded(u, r, Overlay(LoadAttempt(t, r), ch.runs, ch.outcomes), r.id)
  {
    LoadedOutcomeIsStored(t.outcomes, r.ordinal);
    if r.ordinal in t.runs && r.ordinal !in ch.runs {
      assert StoredRun(t.runs[r.ordinal]) == t.runs[r.ordinal];
    }
  }

  lemma NewAttemptReloads(t: CaseRows, u: CaseRows, a: Attempt, id: Id, ch: Changes)
    requires AttemptRowsOk(t) && AttemptChecks(RowOf(a, id)) && a.ordinal > |t.attempts| && a.run.None? && a.outcome.None?
    requires u.runs == t.runs + RunRows(ch.runs)
    requires LoadOutcome(u.outcomes, a.ordinal) ==
      if a.ordinal in ch.outcomes then Some(StoredOutcome(ch.outcomes[a.ordinal])) else LoadOutcome(t.outcomes, a.ordinal)
    ensures Reloaded(u, RowOf(a, id), Overlay(a, ch.runs, ch.outcomes), id)
  {}

  lemma OldRowReloads(t: CaseRows, ch: Changes, id: Id, u: CaseRows, i: nat)
    requires RowsOk(t) && Grown(t, ch, id, u) && i < |t.attempts|
    ensures Reloaded(u, u.attempts[i], Overlay(LoadAttempt(t, t.attempts[i]), ch.runs, ch.outcomes), t.attempts[i].id)
  {
    OutcomeRoundTrip(t.outcomes, ch.outcomes, t.attempts[i].ordinal);
    OldAttemptReloads(t, u, t.attempts[i], ch);
  }

  lemma NewRowReloads(t: CaseRows, ch: Changes, id: Id, u: CaseRows, j: nat)
    requires RowsOk(t) && Fits(t, ch) && Grown(t, ch, id, u) && j < |ch.attempts|
    ensures Reloaded(u, u.attempts[|t.attempts| + j], Overlay(ch.attempts[j], ch.runs, ch.outcomes), id + |ch.approvals| + j)
  {
    var a := ch.attempts[j];
    assert u.attempts[|t.attempts| + j] == RowOf(a, id + |ch.approvals| + j);
    OutcomeRoundTrip(t.outcomes, ch.outcomes, a.ordinal);
    NewAttemptReloads(t, u, a, id + |ch.approvals| + j, ch);
  }

  lemma PatchedAttempt(key: CaseKey, t: CaseRows, ch: Changes, i: nat)
    requires AttemptRowsOk(t) && i < |t.attempts| + |ch.attempts|
    ensures var p := Patch(Load(key, t), ch).attempts;
      && |p| == |t.attempts| + |ch.attempts|
      && (i < |t.attempts| ==> p[i] == Overlay(LoadAttempt(t, t.attempts[i]), ch.runs, ch.outcomes) && p[i].id == t.attempts[i].id)
      && (i >= |t.attempts| ==> p[i] == Overlay(ch.attempts[i - |t.attempts|], ch.runs, ch.outcomes))
  {
    SortAttemptsIsIdentity(t.attempts, 1);
  }

  lemma OldAttemptIsKept(t: CaseRows, ch: Changes, id: Id, u: CaseRows, a: Attempt, i: nat)
    requires RowsOk(t) && Grown(t, ch, id, u) && i < |t.attempts|
    requires a == Overlay(LoadAttempt(t, t.attempts[i]), ch.runs, ch.outcomes) && a.id == t.attempts[i].id
    ensures Reloaded(u, u.attempts[i], a, NewId(i, |t.attempts|, a.id, id + |ch.approvals|))
  {
    OldRowReloads(t, ch, id, u, i);
  }

  lemma NewAttemptIsKept(t: CaseRows, ch: Changes, id: Id, u: CaseRows, a: Attempt, i: nat)
    requires RowsOk(t) && Fits(t, ch) && Grown(t, ch, id, u) && |t.attempts| <= i < |t.attempts| + |ch.attempts|
    requires a == Overlay(ch.attempts[i - |t.attempts|], ch.runs, ch.outcomes)
    ensures Reloaded(u, u.attempts[i], a, NewId(i, |t.attempts|, a.id, id + |ch.approvals|))
  {
    NewRowReloads(t, ch, id, u, i - |t.attempts|);
  }

  lemma PatchSizes(key: CaseKey, t: CaseRows, ch: Changes)
    requires AttemptRowsOk(t)
    ensures var c := Patch(Load(key, t), ch);
      && c.approvals == SortApprovals(t.approvals) + ch.approvals && |c.approvals| == |t.approvals| + |ch.approvals|
      && |c.attempts| == |t.attempts| + |ch.attempts|
  {
    SortAttemptsIsIdentity(t.attempts, 1);
    SortPermutes(t.approvals);
  }

  lemma RowsAreKept(u: CaseRows, attempts: seq<Attempt>, a0: nat, id: Id)
    requires AttemptRowsOk(u) && |attempts| == |u.attempts|
    requires forall i | 0 <= i < |attempts| :: Reloaded(u, u.attempts[i], attempts[i], NewId(i, a0, attempts[i].id, id))
    ensures forall i | 0 <= i < |attempts| :: StorableBudget(attempts[i].budget)
    ensures LoadAttempts(u, SortAttempts(u.attempts)) == KeptAttempts(attempts, a0, id)
  {
    SortAttemptsIsIdentity(u.attempts, 1);
  }

  lemma AttemptsReload(key: CaseKey, t: CaseRows, ch: Changes, id: Id, u: CaseRows)
    requires RowsOk(t) && Fits(t, ch) && Grown(t, ch, id, u) && AttemptRowsOk(u)
    ensures var c := Patch(Load(key, t), ch);
      BudgetsStorable(c.attempts) && LoadAttempts(u, SortAttempts(u.attempts)) == KeptAttempts(c.attempts, |t.attempts|, id + |ch.approvals|)
  {
    PatchSizes(key, t, ch);
    var attempts := Patch(Load(key, t), ch).attempts;
    forall i | 0 <= i < |attempts|
      ensures Reloaded(u, u.attempts[i], attempts[i], NewId(i, |t.attempts|, attempts[i].id, id + |ch.approvals|))
    {
      PatchedAttempt(key, t, ch, i);
      if i < |t.attempts| {
        OldAttemptIsKept(t, ch, id, u, attempts[i], i);
      } else {
        NewAttemptIsKept(t, ch, id, u, attempts[i], i);
      }
    }
    RowsAreKept(u, attempts, |t.attempts|, id + |ch.approvals|);
  }

  // ----- Rows stay well formed -----

  lemma AttemptNumbersStayOk(t: CaseRows, ch: Changes, id: Id, u: CaseRows, i: nat)
    requires AttemptRowsOk(t) && Fits(t, ch) && AttemptsGrown(t, ch.attempts, id, u) && id != 0 && i < |u.attempts|
    ensures u.attempts[i].ordinal == i + 1 && u.attempts[i].id != 0 && WholeMicros(u.attempts[i].startedAt)
  {
    if i >= |t.attempts| {
      var j := i - |t.attempts|;
      assert u.attempts[|t.attempts| + j] == RowOf(ch.attempts[j], id + j);
    }
  }

  lemma RunRowStaysOk(t: CaseRows, ch: Changes, u: CaseRows, k: nat)
    requires AttemptRowsOk(t) && |t.attempts| <= |u.attempts| && u.runs == t.runs + RunRows(ch.runs)
    requires k in u.runs && (k in ch.runs ==> 1 <= k <= |u.attempts|)
    ensures 1 <= k <= |u.attempts| && WholeMicros(u.runs[k].beganAt)
  {}

  lemma OutcomeRowStaysOk(t: CaseRows, ch: Changes, u: CaseRows, k: nat)
    requires AttemptRowsOk(t) && |t.attempts| <= |u.attempts|
    requires RowPut(t.outcomes.common, u.outcomes.common, k, if k in ch.outcomes then Some(OutcomeRowOf(ch.outcomes[k])) else None)
    requires k in u.outcomes.common && (k in ch.outcomes ==> 1 <= k <= |u.attempts|)
    ensures 1 <= k <= |u.attempts| && WholeMicros(u.outcomes.common[k].endedAt)
  {}

  lemma AttemptRowsStayOk(t: CaseRows, ch: Changes, id: Id, u: CaseRows)
    requires AttemptRowsOk(t) && Fits(t, ch) && Grown(t, ch, id, u) && id != 0
    ensures AttemptRowsOk(u)
  {
    forall i | 0 <= i < |u.attempts|
      ensures u.attempts[i].ordinal == i + 1 && u.attempts[i].id != 0 && WholeMicros(u.attempts[i].startedAt)
    {
      AttemptNumbersStayOk(t, ch, id + |ch.approvals|, u, i);
    }
    forall k: nat | HasAttempt(u, k) ensures 1 <= k <= |u.attempts| {
      var i :| 0 <= i < |u.attempts| && u.attempts[i].ordinal == k;
    }
    forall k | k in u.runs ensures 1 <= k <= |u.attempts| && WholeMicros(u.runs[k].beganAt) {
      RunRowStaysOk(t, ch, u, k);
    }
    forall k | k in u.outcomes.common ensures 1 <= k <= |u.attempts| && WholeMicros(u.outcomes.common[k].endedAt) {
      PutEntry(t.outcomes, ch.outcomes, k);
      OutcomeRowStaysOk(t, ch, u, k);
    }
  }

  lemma VariantsStayOk(t: OutcomeTables, os: map<nat, Outcome>)
    requires VariantRowsOk(t) && forall k | k in os :: k !in t.common
    ensures VariantRowsOk(PutOutcomes(t, os))
  {
    forall k: nat ensures VariantsAt(PutOutcomes(t, os), k) {
      PutEntry(t, os, k);
      EntryRoundTrip(t, PutOutcomes(t, os), k, if k in os then Some(os[k]) else None);
    }
  }

  lemma ApprovalRowsStayOk(t: CaseRows, ch: Changes, id: Id, u: CaseRows)
    requires ApprovalRowsOk(t) && u.approvals == t.approvals + NewApprovals(ch.approvals, id)
    requires forall i | 0 <= i < |ch.approvals| :: ValidApproval(ch.approvals[i])
    ensures ApprovalRowsOk(u)
  {
    forall i | |t.approvals| <= i < |u.approvals|
      ensures StoredApproval(u.approvals[i], u.approvals[i].id) == u.approvals[i] && ValidApproval(u.approvals[i])
    {
      var j := i - |t.approvals|;
      assert u.approvals[i] == StoredApproval(ch.approvals[j], id + j);
      StoredTimeIsStable(ch.approvals[j].approvedAt);
    }
  }

  lemma RowsStayOk(t: CaseRows, ch: Changes, id: Id, u: CaseRows)
    requires RowsOk(t) && Fits(t, ch) && id != 0 && Grown(t, ch, id, u) && Summed(t, ch, u)
    requires forall i | 0 <= i < |ch.approvals| :: ValidApproval(ch.approvals[i])
    ensures RowsOk(u)
  {
    ApprovalRowsStayOk(t, ch, id, u);
    AttemptRowsStayOk(t, ch, id, u);
    VariantsStayOk(t.outcomes, ch.outcomes);
    assert LogRowsOk(u);
  }

  lemma SummaryReloads(key: CaseKey, t: CaseRows, ch: Changes, id: Id, u: CaseRows)
    requires RowsOk(t) && Grown(t, ch, id, u) && Summed(t, ch, u)
    requires BudgetsStorable(Patch(Load(key, t), ch).attempts) && |t.approvals| <= |Patch(Load(key, t), ch).approvals|
    ensures var k := Kept(Patch(Load(key, t), ch), |t.approvals|, |t.attempts|, id);
      Load(key, u).(approvals := [], attempts := []) == k.(approvals := [], attempts := [])
  {
    assert StoredTransitions(t.transitions + ch.transitions) == t.transitions + StoredTransitions(ch.transitions);
  }

  lemma WrittenReloads(key: CaseKey, t: CaseRows, ch: Changes, id: Id, u: CaseRows)
    requires RowsOk(t) && Fits(t, ch) && id != 0 && Grown(t, ch, id, u) && Summed(t, ch, u)
    ensures var c := Patch(Load(key, t), ch);
      && BudgetsStorable(c.attempts) && |t.approvals| <= |c.approvals|
      && SameUpToApprovalOrder(Load(key, u), Kept(c, |t.approvals|, |t.attempts|, id))
  {
    AttemptRowsStayOk(t, ch, id, u);
    PatchSizes(key, t, ch);
    AttemptsReload(key, t, ch, id, u);
    ApprovalsReload(t, ch.approvals, id);
    SummaryReloads(key, t, ch, id, u);
  }

  /** Whatever change set a write accepts, the case loaded afterwards is the one
      loaded before with the changes replayed, as the columns keep it. */
  lemma WriteThenLoad(key: CaseKey, t: CaseRows, ch: Changes, s: Surroundings, id: Id)
    requires RowsOk(t) && Fits(t, ch) && id != 0 && Write(t, ch, s, id).Some?
    ensures var c := Patch(Load(key, t), ch);
      && BudgetsStorable(c.attempts) && |t.approvals| <= |c.approvals|
      && SameUpToApprovalOrder(Load(key, Write(t, ch, s, id).value), Kept(c, |t.approvals|, |t.attempts|, id))
  {
    WriteWrites(t, ch, s, id);
    WrittenReloads(key, t, ch, id, Write(t, ch, s, id).value);
  }
}
