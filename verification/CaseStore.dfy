/** The case half of the store: creating a case and updating one under its row
    lock, insert by insert, inside a transaction that commits whole or not at all. */
module CaseStore {
  import opened Kernel
  import opened CaseFacts
  import opened CaseModel
  import opened CaseTables
  import opened CaseDatabase
  import opened RowMaps
  import Aggregate = CaseAggregate

  method PersistApprovals(t: CaseRows, approvals: seq<Approval>, taken: set<string>, deliveries: set<string>, id: Id) returns (r: Option<CaseRows>)
    ensures r == InsertApprovals(t, approvals, taken, deliveries, id)
  {
    var tx, used := t, taken;
    var i := 0;
    while i < |approvals|
      invariant 0 <= i <= |approvals|
      invariant InsertApprovals(t, approvals, taken, deliveries, id) == InsertApprovals(tx, approvals[i..], used, deliveries, id + i)
    {
      var a := approvals[i];
      assert approvals[i..][0] == a && approvals[i..][1..] == approvals[i + 1..];
      if !ApprovalInsertable(a, used, deliveries) { return None; }
      tx := tx.(approvals := tx.approvals + [StoredApproval(a, id + i)]);
      if a.source == SourceLabel {
        used := used + {a.deliveryId};
      }
      i := i + 1;
    }
    return Some(tx);
  }

  method PersistAttempts(t: CaseRows, attempts: seq<Attempt>, id: Id) returns (r: Option<CaseRows>)
    ensures r == InsertAttempts(t, attempts, id)
  {
    var tx := t;
    var i := 0;
    while i < |attempts|
      invariant 0 <= i <= |attempts|
      invariant InsertAttempts(t, attempts, id) == InsertAttempts(tx, attempts[i..], id + i)
    {
      var next := InsertAttempt(tx, attempts[i], id + i);
      assert attempts[i..][0] == attempts[i] && attempts[i..][1..] == attempts[i + 1..];
      if next.None? { return None; }
      tx := next.value;
      i := i + 1;
    }
    return Some(tx);
  }

  lemma PutOneRun(t: map<nat, Run>, runs: map<nat, Run>, k: nat, r: Run)
    requires k !in runs
    ensures (t + RunRows(runs))[k := StoredRun(r)] == t + RunRows(runs[k := r])
  {
    assert RunRows(runs[k := r]) == RunRows(runs)[k := StoredRun(r)];
    UpdateRight(t, RunRows(runs), k, StoredRun(r));
  }

  function IdsOf(runs: map<nat, Run>): set<string> {
    set k | k in runs :: runs[k].runId
  }

  /** One more run fits exactly when it fits what is already written. */
  lemma OneMoreRun(t: CaseRows, runs: map<nat, Run>, k: nat, r: Run, taken: set<string>)
    requires k !in runs && RunsInsertable(t, runs, taken)
    ensures RunsInsertable(t, runs[k := r], taken) <==> RunInsertable(t, k, r, taken + IdsOf(runs))
    ensures IdsOf(runs[k := r]) == IdsOf(runs) + {r.runId}
  {
    var more := runs[k := r];
    assert more[k] == r && forall j | j in runs :: j in more && more[j] == runs[j];
    if RunInsertable(t, k, r, taken + IdsOf(runs)) {
      forall i, j | i in more && j in more && i != j ensures more[i].runId != more[j].runId {
        assert i == k || i in runs;
        assert j == k || j in runs;
      }
    }
  }

  /** A run that does not fit what is already written refuses the whole set. */
  lemma MisfitRefusesAll(t: CaseRows, runs: map<nat, Run>, done: map<nat, Run>, k: nat, taken: set<string>)
    requires k in runs && k !in done && forall j | j in done :: j in runs && runs[j] == done[j]
    requires RunsInsertable(t, done, taken) && !RunInsertable(t, k, runs[k], taken + IdsOf(done))
    ensures !RunsInsertable(t, runs, taken)
  {
    OneMoreRun(t, done, k, runs[k], taken);
  }

  ghost predicate RunsWritten(t: CaseRows, done: map<nat, Run>, taken: set<string>, table: map<nat, Run>, ids: set<string>) {
    table == t.runs + RunRows(done) && ids == taken + IdsOf(done) && RunsInsertable(t, done, taken)
  }

  lemma OneMoreRunWritten(t: CaseRows, done: map<nat, Run>, k: nat, r: Run, taken: set<string>, table: map<nat, Run>, ids: set<string>)
    requires k !in done && RunsWritten(t, done, taken, table, ids) && RunInsertable(t, k, r, ids)
    ensures RunsWritten(t, done[k := r], taken, table[k := StoredRun(r)], ids + {r.runId})
  {
    OneMoreRun(t, done, k, r, taken);
    PutOneRun(t.runs, done, k, r);
  }

  lemma NoRunWritten(t: CaseRows, taken: set<string>)
    ensures RunsWritten(t, map[], taken, t.runs, taken)
  {}

  /** The runs, in whatever order the map yields them. */
  method PersistRuns(t: CaseRows, runs: map<nat, Run>, taken: set<string>) returns (r: Option<CaseRows>)
    ensures r == if RunsInsertable(t, runs, taken) then Some(t.(runs := t.runs + RunRows(runs))) else None
  {
    var table, ids, rest := t.runs, taken, runs.Keys;
    assert runs - rest == map[];
    NoRunWritten(t, taken);
    while rest != {}
      invariant rest <= runs.Keys
      invariant RunsWritten(t, runs - rest, taken, table, ids)
      decreases |rest|
    {
      var k :| k in rest;
      OneMore(runs, rest, k);
      if !RunInsertable(t, k, runs[k], ids) {
        MisfitRefusesAll(t, runs, runs - rest, k, taken);
        return None;
      }
      OneMoreRunWritten(t, runs - rest, k, runs[k], taken, table, ids);
      table := table[k := StoredRun(runs[k])];
      ids := ids + {runs[k].runId};
      rest := rest - {k};
    }
    assert runs - rest == runs;
    return Some(t.(runs := table));
  }

  lemma RowsOfOneMore(os: map<nat, Outcome>, k: nat, o: Outcome)
    requires k !in os
    ensures OutcomeRows(os[k := o]) == OutcomeRows(os)[k := OutcomeRowOf(o)]
  {
    var few, more := OutcomeRows(os), OutcomeRows(os[k := o]);
    assert forall j | j in few :: j in more && more[j] == few[j];
  }

  lemma PullRequestsOfOneMore(os: map<nat, Outcome>, k: nat, o: Outcome)
    requires k !in os
    ensures PullRequestRows(os[k := o]) == if o.kind == PullRequestOpened then PullRequestRows(os)[k := (o.prNumber, o.headSha)] else PullRequestRows(os)
  {
    var few, more := PullRequestRows(os), PullRequestRows(os[k := o]);
    assert forall j | j in few :: j in more && more[j] == few[j];
  }

  lemma ExhaustionsOfOneMore(os: map<nat, Outcome>, k: nat, o: Outcome)
    requires k !in os
    ensures ExhaustionRows(os[k := o]) == if o.kind == BudgetExhausted then ExhaustionRows(os)[k := (o.limit, NullablePR(o))] else ExhaustionRows(os)
  {
    var few, more := ExhaustionRows(os), ExhaustionRows(os[k := o]);
    assert forall j | j in few :: j in more && more[j] == few[j];
  }

  lemma FailuresOfOneMore(os: map<nat, Outcome>, k: nat, o: Outcome)
    requires k !in os
    ensures FailureRows(os[k := o]) == if o.kind == FailedOutcome then FailureRows(os)[k := (o.failureClass, o.message)] else FailureRows(os)
  {
    var few, more := FailureRows(os), FailureRows(os[k := o]);
    assert forall j | j in few :: j in more && more[j] == few[j];
  }

  lemma AbortsOfOneMore(os: map<nat, Outcome>, k: nat, o: Outcome)
    requires k !in os
    ensures AbortRows(os[k := o]) == if o.kind == Aborted then AbortRows(os)[k := o.reason] else AbortRows(os)
  {
    var few, more := AbortRows(os), AbortRows(os[k := o]);
    assert forall j | j in few :: j in more && more[j] == few[j];
  }

  ghost predicate OutcomesWritten(t: OutcomeTables, done: map<nat, Outcome>, tables: OutcomeTables) {
    tables == PutOutcomes(t, done)
  }

  lemma NoOutcomeWritten(t: OutcomeTables)
    ensures OutcomesWritten(t, map[], t)
  {
    var none: map<nat, Outcome> := map[];
    assert OutcomeRows(none) == map[] && PullRequestRows(none) == map[] && ExhaustionRows(none) == map[];
    assert FailureRows(none) == map[] && AbortRows(none) == map[];
  }

  /** What the loop over the outcomes has written so far. */
  ghost predicate OutcomesSoFar(t: CaseRows, done: map<nat, Outcome>, tables: OutcomeTables) {
    OutcomesInsertable(t, done) && OutcomesWritten(t.outcomes, done, tables)
  }

  lemma OneMoreInsertable(t: CaseRows, os: map<nat, Outcome>, k: nat, o: Outcome)
    requires OutcomesInsertable(t, os) && OutcomeInsertable(t, k, o)
    ensures OutcomesInsertable(t, os[k := o])
  {}

  /** The common row and the one variant row the kind calls for. */
  method InsertOutcome(t: CaseRows, tables: OutcomeTables, k: nat, o: Outcome, ghost os: map<nat, Outcome>) returns (u: Option<OutcomeTables>)
    requires k !in os && OutcomesSoFar(t, os, tables)
    ensures u.None? <==> !OutcomeInsertable(t, k, o)
    ensures u.Some? ==> OutcomesSoFar(t, os[k := o], u.value)
  {
    if !OutcomeInsertable(t, k, o) { return None; }
    OneMoreInsertable(t, os, k, o);
    var v := tables.(common := tables.common[k := OutcomeRowOf(o)]);
    match o.kind {
      case PullRequestOpened => v := v.(pullRequests := v.pullRequests[k := (o.prNumber, o.headSha)]);
      case BudgetExhausted => v := v.(exhaustions := v.exhaustions[k := (o.limit, NullablePR(o))]);
      case FailedOutcome => v := v.(failures := v.failures[k := (o.failureClass, o.message)]);
      case Aborted => v := v.(aborts := v.aborts[k := o.reason]);
      case _ =>
    }
    RowsOfOneMore(os, k, o);
    PullRequestsOfOneMore(os, k, o);
    ExhaustionsOfOneMore(os, k, o);
    FailuresOfOneMore(os, k, o);
    AbortsOfOneMore(os, k, o);
    UpdateRight(t.outcomes.common, OutcomeRows(os), k, OutcomeRowOf(o));
    UpdateRight(t.outcomes.pullRequests, PullRequestRows(os), k, (o.prNumber, o.headSha));
    UpdateRight(t.outcomes.exhaustions, ExhaustionRows(os), k, (o.limit, NullablePR(o)));
    UpdateRight(t.outcomes.failures, FailureRows(os), k, (o.failureClass, o.message));
    UpdateRight(t.outcomes.aborts, AbortRows(os), k, o.reason);
    return Some(v);
  }

  lemma MisfitOutcomeRefusesAll(t: CaseRows, os: map<nat, Outcome>, k: nat)
    requires k in os && !OutcomeInsertable(t, k, os[k])
    ensures !OutcomesInsertable(t, os)
  {}

  lemma AllOutcomesWritten(t: CaseRows, os: map<nat, Outcome>, tables: OutcomeTables)
    requires OutcomesSoFar(t, os, tables)
    ensures OutcomesInsertable(t, os) && tables == PutOutcomes(t.outcomes, os)
  {}

  /** The outcomes, in whatever order the map yields them. */
  method PersistOutcomes(t: CaseRows, os: map<nat, Outcome>) returns (r: Option<CaseRows>)
    ensures r == if OutcomesInsertable(t, os) then Some(t.(outcomes := PutOutcomes(t.outcomes, os))) else None
  {
    var tables, rest := t.outcomes, os.Keys;
    assert os - rest == map[];
    NoOutcomeWritten(t.outcomes);
    while rest != {}
      invariant rest <= os.Keys
      invariant OutcomesSoFar(t, os - rest, tables)
      decreases |rest|
    {
      var k :| k in rest;
      OneMore(os, rest, k);
      var next := InsertOutcome(t, tables, k, os[k], os - rest);
      if next.None? {
        MisfitOutcomeRefusesAll(t, os, k);
        return None;
      }
      tables := next.value;
      rest := rest - {k};
    }
    assert os - rest == os;
    AllOutcomesWritten(t, os, tables);
    return Some(t.(outcomes := tables));
  }

  /** The log entries in turn; an entry that does not move is refused. */
  method PersistTransitions(log: seq<Transition>, trs: seq<Transition>) returns (r: Option<seq<Transition>>)
    ensures r == if exists i | 0 <= i < |trs| :: trs[i].from == trs[i].to then None else Some(log + StoredTransitions(trs))
  {
    var tx := log;
    var i := 0;
    while i < |trs|
      invariant 0 <= i <= |trs|
      invariant forall j | 0 <= j < i :: trs[j].from != trs[j].to
      invariant tx == log + StoredTransitions(trs[..i])
    {
      if trs[i].from == trs[i].to { return None; }
      assert StoredTransitions(trs[..i + 1]) == StoredTransitions(trs[..i]) + [StoredTransition(trs[i])];
      tx := tx + [StoredTransition(trs[i])];
      i := i + 1;
    }
    assert trs[..i] == trs;
    return Some(tx);
  }

  lemma RunsLeaveOutcomesAlone(t: CaseRows, runs: map<nat, Run>, os: map<nat, Outcome>)
    ensures OutcomesInsertable(t, os) <==> OutcomesInsertable(t.(runs := runs), os)
  {
    assert forall k | k in os :: HasAttempt(t.(runs := runs), k) == HasAttempt(t, k);
  }

  /** The new facts, insert by insert. */
  method PersistFacts(t: CaseRows, ch: Changes, s: Surroundings, id: Id) returns (r: Option<CaseRows>)
    ensures r == WriteFacts(t, ch, s, id)
  {
    var tx := t;
    if ch.triage.Some? {
      var triaged := InsertTriage(tx, ch.triage.value);
      if triaged.None? { return None; }
      tx := triaged.value;
    }
    var approvals := PersistApprovals(tx, ch.approvals, s.approvers, s.deliveries, id);
    if approvals.None? { return None; }
    var attempts := PersistAttempts(approvals.value, ch.attempts, id + |ch.approvals|);
    if attempts.None? { return None; }
    var runs := PersistRuns(attempts.value, ch.runs, s.runIds);
    if runs.None? { return None; }
    RunsLeaveOutcomesAlone(attempts.value, runs.value.runs, ch.outcomes);
    r := PersistOutcomes(runs.value, ch.outcomes);
  }

  /** Every insert of a change set in the order the store issues them. */
  method PersistChanges(t: CaseRows, ch: Changes, s: Surroundings, id: Id) returns (r: Option<CaseRows>)
    ensures r == Write(t, ch, s, id)
  {
    var facts := PersistFacts(t, ch, s, id);
    if facts.None? { return None; }
    var tx := facts.value;
    if ch.closure.Some? {
      var cl := ch.closure.value;
      if tx.closure.Some? || cl.deliveryId !in s.deliveries || cl.deliveryId in s.closers { return None; }
      tx := tx.(closure := Some(StoredClosure(cl)));
    }
    var log := PersistTransitions(tx.transitions, ch.transitions);
    if log.None? { return None; }
    tx := tx.(transitions := log.value);
    if (ch.state == Gated && tx.row.requester.trust == Trusted) || (ch.state == Received && tx.row.requester.trust == Untrusted) {
      return None;
    }
    return Some(tx.(row := tx.row.(state := ch.state)));
  }

  class Store {
    var db: Database

    constructor (repositories: set<string>)
      ensures db == Database(map[], {}, repositories, 1)
    {
      db := Database(map[], {}, repositories, 1);
    }

    /** Inserts a new case and assigns its id; a case that already has one is
        stored all the same and then refused the second. */
    method CreateCase(c: Aggregate.Case) returns (err: Option<UpdateError>)
      requires db.nextId != 0
      modifies this, c
      ensures match Create(old(db), old(c.Value()))
        case RolledBack(e) => err == Some(e) && db == old(db) && c.Tracked() == old(c.Tracked())
        case Committed(next) =>
          && db == next
          && if old(c.id) == 0 then err == None && c.Tracked() == Clean(old(c.Value()).(id := old(db.nextId)))
             else err == Some(Domain(Refused)) && c.Tracked() == old(c.Tracked())
    {
      if c.key.number < 1 || c.requester.login == "" { return Some(Constraint); }
      if (c.state == Gated && c.requester.trust == Trusted) || (c.state == Received && c.requester.trust == Untrusted) {
        return Some(Constraint);
      }
      if c.key in db.cases { return Some(Conflict); }
      if c.key.repository !in db.repositories || c.requester.association == AssociationUnset { return Some(Constraint); }
      var id := db.nextId;
      db := db.(cases := db.cases[c.key := FreshRows(
        Case(c.id, c.key, c.requester, c.state, c.receivedAt, None, [], [], [], None), id)], nextId := id + 1);
      var refused := c.AssignId(id);
      if refused.Some? { return Some(Domain(refused.value)); }
      c.ClearChanges();
      return None;
    }

    /** Loads a case under its row lock, applies one command to it, writes what the
        command changed and loads it again. */
    method UpdateCase(key: CaseKey, cmd: Command) returns (r: Committing<Aggregate.Case>)
      modifies this
      ensures match Update(old(db), key, cmd)
        case RolledBack(e) => r == RolledBack(e) && db == old(db)
        case Committed(next) =>
          && db == next && key in next.cases
          && r.Committed? && fresh(r.value) && r.value.Tracked() == Clean(Load(key, next.cases[key]))
    {
      if key !in db.cases { return RolledBack(NotFound); }
      var loaded := Aggregate.LoadCase(Load(key, db.cases[key]));
      if loaded.Err? { return RolledBack(Domain(loaded.error)); }
      var c := loaded.value;
      var err := c.Apply(cmd);
      if err.Some? { return RolledBack(Domain(err.value)); }
      r := CommitCase(key, c.changes);
    }

    method CommitCase(key: CaseKey, ch: Changes) returns (r: Committing<Aggregate.Case>)
      requires key in db.cases
      modifies this
      ensures match Commit(old(db), key, ch)
        case RolledBack(e) => r == RolledBack(e) && db == old(db)
        case Committed(next) =>
          && db == next && key in next.cases
          && r.Committed? && fresh(r.value) && r.value.Tracked() == Clean(Load(key, next.cases[key]))
    {
      var rows := PersistChanges(db.cases[key], ch, SurroundingsOf(db), db.nextId);
      if rows.None? { return RolledBack(Constraint); }
      var again := Aggregate.LoadCase(Load(key, rows.value));
      if again.Err? { return RolledBack(Domain(again.error)); }
      db := db.(cases := db.cases[key := rows.value], nextId := db.nextId + |ch.approvals| + |ch.attempts|);
      return Committed(again.value);
    }
  }
}
