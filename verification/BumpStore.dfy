/** The bump half of the store: creating a bump and updating one under its row
    lock, insert by insert, inside a transaction that commits whole or not at all. */
module BumpStore {
  import opened Kernel
  import opened UpkeepFacts
  import opened BumpModel
  import opened BumpTables
  import opened BumpDatabase
  import opened RowMaps
  import Aggregate = BumpAggregate

  method PersistVerdicts(t: BumpRows, vs: seq<CheckVerdict>, id: Id) returns (r: Option<BumpRows>)
    ensures r == InsertVerdicts(t, vs, id)
  {
    var tx := t;
    var i := 0;
    while i < |vs|
      invariant 0 <= i <= |vs|
      invariant InsertVerdicts(t, vs, id) == InsertVerdicts(tx, vs[i..], id + i)
    {
      var next := InsertVerdict(tx, vs[i], id + i);
      assert vs[i..][0] == vs[i] && vs[i..][1..] == vs[i + 1..];
      if next.None? { return None; }
      tx := next.value;
      i := i + 1;
    }
    return Some(tx);
  }

  method PersistRounds(t: BumpRows, rounds: seq<RepairAttempt>, id: Id) returns (r: Option<BumpRows>)
    ensures r == InsertRounds(t, rounds, id)
  {
    var tx := t;
    var i := 0;
    while i < |rounds|
      invariant 0 <= i <= |rounds|
      invariant InsertRounds(t, rounds, id) == InsertRounds(tx, rounds[i..], id + i)
    {
      var next := InsertRound(tx, rounds[i], id + i);
      assert rounds[i..][0] == rounds[i] && rounds[i..][1..] == rounds[i + 1..];
      if next.None? { return None; }
      tx := next.value;
      i := i + 1;
    }
    return Some(tx);
  }

  lemma PutOneRun(t: map<nat, Run>, runs: map<nat, Run>, k: nat, r: Run)
    requires k !in runs
    ensures PutRuns(t, runs)[k := StoredRun(r)] == PutRuns(t, runs[k := r])
  {
    assert RunRows(runs[k := r]) == RunRows(runs)[k := StoredRun(r)];
    UpdateRight(t, RunRows(runs), k, StoredRun(r));
  }

  function IdsOf(runs: map<nat, Run>): set<string> {
    set k | k in runs :: runs[k].runId
  }

  /** One more run fits exactly when it fits what is already written. */
  lemma OneMoreRun(t: BumpRows, runs: map<nat, Run>, k: nat, r: Run, taken: set<string>)
    requires k !in runs && RunsInsertable(t, runs, taken)
    ensures RunsInsertable(t, runs[k := r], taken) <==> RunInsertable(t, k, r, taken + IdsOf(runs))
    ensures IdsOf(runs[k := r]) == IdsOf(runs) + {r.runId}
  {
    var more := runs[k := r];
    assert more[k] == r && forall j | j in runs :: j in more && more[j] == runs[j];
    if RunInsertable(t, k, r, taken + IdsOf(runs)) {
      forall i, j | i in more && j in more && i != j ensures more[i].runId != more[j].runId {
        assert i == k || i in runs;
        assert j == k || j in runs;
      }
    }
  }

  /** A run that does not fit what is already written refuses the whole set. */
  lemma MisfitRefusesAll(t: BumpRows, runs: map<nat, Run>, done: map<nat, Run>, k: nat, taken: set<string>)
    requires k in runs && k !in done && forall j | j in done :: j in runs && runs[j] == done[j]
    requires RunsInsertable(t, done, taken) && !RunInsertable(t, k, runs[k], taken + IdsOf(done))
    ensures !RunsInsertable(t, runs, taken)
  {
    OneMoreRun(t, done, k, runs[k], taken);
  }

  ghost predicate RunsWritten(t: BumpRows, done: map<nat, Run>, taken: set<string>, table: map<nat, Run>, ids: set<string>) {
    table == PutRuns(t.runs, done) && ids == taken + IdsOf(done) && RunsInsertable(t, done, taken)
  }

  lemma OneMoreRunWritten(t: BumpRows, done: map<nat, Run>, k: nat, r: Run, taken: set<string>, table: map<nat, Run>, ids: set<string>)
    requires k !in done && RunsWritten(t, done, taken, table, ids) && RunInsertable(t, k, r, ids)
    ensures RunsWritten(t, done[k := r], taken, table[k := StoredRun(r)], ids + {r.runId})
  {
    OneMoreRun(t, done, k, r, taken);
    PutOneRun(t.runs, done, k, r);
  }

  lemma NoRunWritten(t: BumpRows, taken: set<string>)
    ensures RunsWritten(t, map[], taken, t.runs, taken)
  {}

  /** The runs, in whatever order the map yields them. */
  method PersistRuns(t: BumpRows, runs: map<nat, Run>, taken: set<string>) returns (r: Option<BumpRows>)
    ensures r == if RunsInsertable(t, runs, taken) then Some(t.(runs := PutRuns(t.runs, runs))) else None
  {
    var table, ids, rest := t.runs, taken, runs.Keys;
    assert runs - rest == map[];
    NoRunWritten(t, taken);
    while rest != {}
      invariant rest <= runs.Keys
      invariant RunsWritten(t, runs - rest, taken, table, ids)
      decreases |rest|
    {
      var k :| k in rest;
      OneMore(runs, rest, k);
      if !RunInsertable(t, k, runs[k], ids) {
        MisfitRefusesAll(t, runs, runs - rest, k, taken);
        return None;
      }
      OneMoreRunWritten(t, runs - rest, k, runs[k], taken, table, ids);
      table := table[k := StoredRun(runs[k])];
      ids := ids + {runs[k].runId};
      rest := rest - {k};
    }
    assert runs - rest == runs;
    return Some(t.(runs := table));
  }

  lemma RowsOfOneMore(os: map<nat, RepairOutcome>, k: nat, o: RepairOutcome)
    requires k !in os
    ensures OutcomeRows(os[k := o]) == OutcomeRows(os)[k := OutcomeRowOf(o)]
  {
    var few, more := OutcomeRows(os), OutcomeRows(os[k := o]);
    assert forall j | j in few :: j in more && more[j] == few[j];
  }

  lemma PushesOfOneMore(os: map<nat, RepairOutcome>, k: nat, o: RepairOutcome)
    requires k !in os
    ensures PushRows(os[k := o]) == if o.kind == Pushed then PushRows(os)[k := o.headSha] else PushRows(os)
  {
    var few, more := PushRows(os), PushRows(os[k := o]);
    assert forall j | j in few :: j in more && more[j] == few[j];
  }

  lemma ExhaustionsOfOneMore(os: map<nat, RepairOutcome>, k: nat, o: RepairOutcome)
    requires k !in os
    ensures ExhaustionRows(os[k := o]) == if o.kind == BudgetExhausted then ExhaustionRows(os)[k := o.limit] else ExhaustionRows(os)
  {
    var few, more := ExhaustionRows(os), ExhaustionRows(os[k := o]);
    assert forall j | j in few :: j in more && more[j] == few[j];
  }

  lemma FailuresOfOneMore(os: map<nat, RepairOutcome>, k: nat, o: RepairOutcome)
    requires k !in os
    ensures FailureRows(os[k := o]) == if o.kind == RepairFailed then FailureRows(os)[k := (o.failureClass, o.message)] else FailureRows(os)
  {
    var few, more := FailureRows(os), FailureRows(os[k := o]);
    assert forall j | j in few :: j in more && more[j] == few[j];
  }

  lemma AbortsOfOneMore(os: map<nat, RepairOutcome>, k: nat, o: RepairOutcome)
    requires k !in os
    ensures AbortRows(os[k := o]) == if o.kind == RepairAborted then AbortRows(os)[k := o.reason] else AbortRows(os)
  {
    var few, more := AbortRows(os), AbortRows(os[k := o]);
    assert forall j | j in few :: j in more && more[j] == few[j];
  }

  ghost predicate OutcomesWritten(t: OutcomeTables, done: map<nat, RepairOutcome>, tables: OutcomeTables) {
    tables == PutOutcomes(t, done)
  }

  lemma NoOutcomeWritten(t: OutcomeTables)
    ensures OutcomesWritten(t, map[], t)
  {
    var none: map<nat, RepairOutcome> := map[];
    assert OutcomeRows(none) == map[] && PushRows(none) == map[] && ExhaustionRows(none) == map[];
    assert FailureRows(none) == map[] && AbortRows(none) == map[];
  }

  /** What the loop over the outcomes has written so far. */
  ghost predicate OutcomesSoFar(t: BumpRows, done: map<nat, RepairOutcome>, tables: OutcomeTables) {
    OutcomesInsertable(t, done) && OutcomesWritten(t.outcomes, done, tables)
  }

  lemma OneMoreInsertable(t: BumpRows, os: map<nat, RepairOutcome>, k: nat, o: RepairOutcome)
    requires OutcomesInsertable(t, os) && OutcomeInsertable(t, k, o)
    ensures OutcomesInsertable(t, os[k := o])
  {}

  /** The common row and the one variant row the kind calls for. */
  method InsertOutcome(t: BumpRows, tables: OutcomeTables, k: nat, o: RepairOutcome, ghost os: map<nat, RepairOutcome>) returns (u: Option<OutcomeTables>)
    requires k !in os && OutcomesSoFar(t, os, tables)
    ensures u.None? <==> !OutcomeInsertable(t, k, o)
    ensures u.Some? ==> OutcomesSoFar(t, os[k := o], u.value)
  {
    if !OutcomeInsertable(t, k, o) { return None; }
    OneMoreInsertable(t, os, k, o);
    var v := tables.(common := tables.common[k := OutcomeRowOf(o)]);
    match o.kind {
      case Pushed => v := v.(pushes := v.pushes[k := o.headSha]);
      case BudgetExhausted => v := v.(exhaustions := v.exhaustions[k := o.limit]);
      case RepairFailed => v := v.(failures := v.failures[k := (o.failureClass, o.message)]);
      case RepairAborted => v := v.(aborts := v.aborts[k := o.reason]);
      case _ =>
    }
    RowsOfOneMore(os, k, o);
    PushesOfOneMore(os, k, o);
    ExhaustionsOfOneMore(os, k, o);
    FailuresOfOneMore(os, k, o);
    AbortsOfOneMore(os, k, o);
    UpdateRight(t.outcomes.common, OutcomeRows(os), k, OutcomeRowOf(o));
    UpdateRight(t.outcomes.pushes, PushRows(os), k, o.headSha);
    UpdateRight(t.outcomes.exhaustions, ExhaustionRows(os), k, o.limit);
    UpdateRight(t.outcomes.failures, FailureRows(os), k, (o.failureClass, o.message));
    UpdateRight(t.outcomes.aborts, AbortRows(os), k, o.reason);
    return Some(v);
  }

  lemma MisfitOutcomeRefusesAll(t: BumpRows, os: map<nat, RepairOutcome>, k: nat)
    requires k in os && !OutcomeInsertable(t, k, os[k])
    ensures !OutcomesInsertable(t, os)
  {}

  lemma AllOutcomesWritten(t: BumpRows, os: map<nat, RepairOutcome>, tables: OutcomeTables)
    requires OutcomesSoFar(t, os, tables)
    ensures OutcomesInsertable(t, os) && tables == PutOutcomes(t.outcomes, os)
  {}

  /** The outcomes, in whatever order the map yields them. */
  method PersistOutcomes(t: BumpRows, os: map<nat, RepairOutcome>) returns (r: Option<BumpRows>)
    ensures r == if OutcomesInsertable(t, os) then Some(t.(outcomes := PutOutcomes(t.outcomes, os))) else None
  {
    var tables, rest := t.outcomes, os.Keys;
    assert os - rest == map[];
    NoOutcomeWritten(t.outcomes);
    while rest != {}
      invariant rest <= os.Keys
      invariant OutcomesSoFar(t, os - rest, tables)
      decreases |rest|
    {
      var k :| k in rest;
      OneMore(os, rest, k);
      var next := InsertOutcome(t, tables, k, os[k], os - rest);
      if next.None? {
        MisfitOutcomeRefusesAll(t, os, k);
        return None;
      }
      tables := next.value;
      rest := rest - {k};
    }
    assert os - rest == os;
    AllOutcomesWritten(t, os, tables);
    return Some(t.(outcomes := tables));
  }

  method PersistTransitions(t: BumpRows, trs: seq<BumpTransition>) returns (r: Option<BumpRows>)
    ensures r == WriteTransitions(t, trs)
  {
    var log := t.transitions;
    var i := 0;
    while i < |trs|
      invariant 0 <= i <= |trs|
      invariant forall j | 0 <= j < i :: trs[j].from != trs[j].to
      invariant log == t.transitions + StoredTransitions(trs[..i])
    {
      if trs[i].from == trs[i].to { return None; }
      assert StoredTransitions(trs[..i + 1]) == StoredTransitions(trs[..i]) + [StoredTransition(trs[i])];
      log := log + [StoredTransition(trs[i])];
      i := i + 1;
    }
    assert trs[..i] == trs;
    return Some(t.(transitions := log));
  }

  /** The new facts, insert by insert. */
  method PersistFacts(t: BumpRows, ch: Changes, runIds: set<string>, id: Id) returns (r: Option<BumpRows>)
    ensures r == WriteFacts(t, ch, runIds, id)
  {
    var verdicts := PersistVerdicts(t, ch.verdicts, id);
    if verdicts.None? { return None; }
    var rounds := PersistRounds(verdicts.value, ch.attempts, id + |ch.verdicts|);
    if rounds.None? { return None; }
    var runs := PersistRuns(rounds.value, ch.runs, runIds);
    if runs.None? { return None; }
    RunsLeaveOutcomesAlone(rounds.value, runs.value.runs, ch.outcomes);
    r := PersistOutcomes(runs.value, ch.outcomes);
  }

  lemma RunsLeaveOutcomesAlone(t: BumpRows, runs: map<nat, Run>, os: map<nat, RepairOutcome>)
    ensures OutcomesInsertable(t, os) <==> OutcomesInsertable(t.(runs := runs), os)
  {
    assert forall k | k in os :: HasRound(t.(runs := runs), k) == HasRound(t, k);
  }

  /** The rest of the changes in the order the store issues them. */
  method PersistSummary(t: BumpRows, ch: Changes, s: Surroundings) returns (r: Option<BumpRows>)
    ensures r == WriteSummary(t, ch, s)
  {
    var tx := t;
    if ch.dropAbandon {
      tx := tx.(abandonment := None);
    }
    if ch.abandonment.Some? {
      var a := ch.abandonment.value;
      if tx.abandonment.Some? || a.reason == AbandonUnset || a.detail == "" { return None; }
      tx := tx.(abandonment := Some(StoredAbandonment(a)));
    }
    if ch.closure.Some? {
      var cl := ch.closure.value;
      if tx.closure.Some? || cl.kind == ClosureUnset || cl.deliveryId !in s.deliveries || cl.deliveryId in s.closers { return None; }
      tx := tx.(closure := Some(StoredClosure(cl)));
    }
    var log := PersistTransitions(tx, ch.transitions);
    if log.None? || !ValidSha(ch.headSha) { return None; }
    return Some(log.value.(row := log.value.row.(state := ch.state, headSha := ch.headSha)));
  }

  method PersistChanges(t: BumpRows, ch: Changes, s: Surroundings, id: Id) returns (r: Option<BumpRows>)
    ensures r == Write(t, ch, s, id)
  {
    var facts := PersistFacts(t, ch, s.runIds, id);
    if facts.None? { return None; }
    r := PersistSummary(facts.value, ch, s);
  }

  class Store {
    var db: Database

    constructor (watches: set<string>)
      ensures db == Database(map[], {}, watches, 1)
    {
      db := Database(map[], {}, watches, 1);
    }

    /** Inserts a new bump on a watched repository and assigns its id; a bump
        that already has one is stored all the same and then refused the second. */
    method CreateBump(b: Aggregate.Bump) returns (err: Option<UpdateError>)
      requires db.nextId != 0
      modifies this, b
      ensures match Create(old(db), old(b.Value()))
        case RolledBack(e) => err == Some(e) && db == old(db) && b.Tracked() == old(b.Tracked())
        case Committed(next) =>
          && db == next
          && if old(b.id) == 0 then err == None && b.Tracked() == Clean(old(b.Value()).(id := old(db.nextId)))
             else err == Some(Domain(Refused)) && b.Tracked() == old(b.Tracked())
    {
      if b.key.repository !in db.watches { return Some(NotFound); }
      if b.key.number < 1 || b.branch == "" || b.baseBranch == "" || !ValidSha(b.headSha) { return Some(Constraint); }
      if b.key in db.bumps { return Some(Conflict); }
      var id := db.nextId;
      db := db.(bumps := db.bumps[b.key := FreshRows(
        Bump(b.id, b.key, b.branch, b.baseBranch, b.openedAt, b.headSha, b.state, [], [], [], None, None), id)], nextId := id + 1);
      var refused := b.AssignId(id);
      if refused.Some? { return Some(Domain(refused.value)); }
      b.ClearChanges();
      return None;
    }

    /** Loads a bump under its row lock, applies one command to it, writes what
        the command changed and loads it again. */
    method UpdateBump(key: BumpKey, c: Command) returns (r: Outcome<Aggregate.Bump>)
      modifies this
      ensures match Update(old(db), key, c)
        case RolledBack(e) => r == RolledBack(e) && db == old(db)
        case Committed(next) =>
          && db == next && key in next.bumps
          && r.Committed? && fresh(r.value) && r.value.Tracked() == Clean(Load(key, next.bumps[key]))
    {
      if key !in db.bumps { return RolledBack(NotFound); }
      var loaded := Aggregate.LoadBump(Load(key, db.bumps[key]));
      if loaded.Err? { return RolledBack(Domain(loaded.error)); }
      var b := loaded.value;
      var err := b.Apply(c);
      if err.Some? { return RolledBack(Domain(err.value)); }
      r := CommitBump(key, b.changes);
    }

    method CommitBump(key: BumpKey, ch: Changes) returns (r: Outcome<Aggregate.Bump>)
      requires key in db.bumps
      modifies this
      ensures match Commit(old(db), key, ch)
        case RolledBack(e) => r == RolledBack(e) && db == old(db)
        case Committed(next) =>
          && db == next && key in next.bumps
          && r.Committed? && fresh(r.value) && r.value.Tracked() == Clean(Load(key, next.bumps[key]))
    {
      var rows := PersistChanges(db.bumps[key], ch, SurroundingsOf(db), db.nextId);
      if rows.None? { return RolledBack(Constraint); }
      var again := Aggregate.LoadBump(Load(key, rows.value));
      if again.Err? { return RolledBack(Domain(again.error)); }
      db := db.(bumps := db.bumps[key := rows.value], nextId := db.nextId + |ch.verdicts| + |ch.attempts|);
      return Committed(again.value);
    }
  }
}
