/** The case tables as one database: what an update does, exactly when a
    constraint refuses it, and that it keeps every case sound. */
module CaseDatabase {
  import opened Kernel
  import opened CaseFacts
  import opened CaseModel
  import opened CaseInvariant
  import opened CaseRuns
  import opened CaseChanges
  import opened CaseTables
  import opened CasePersistence
  import Aggregate = CaseAggregate

  datatype Database = Database(cases: map<CaseKey, CaseRows>, deliveries: set<string>, repositories: set<string>, nextId: Id)

  function RunIds(db: Database): set<string> {
    set k, r | k in db.cases && r in db.cases[k].runs :: db.cases[k].runs[r].runId
  }

  function Closers(db: Database): set<string> {
    set k | k in db.cases && db.cases[k].closure.Some? :: db.cases[k].closure.value.deliveryId
  }

  /** The deliveries that already stand behind a label approval. */
  function Approvers(db: Database): set<string> {
    set k, i | k in db.cases && 0 <= i < |db.cases[k].approvals| && db.cases[k].approvals[i].source == SourceLabel ::
      db.cases[k].approvals[i].deliveryId
  }

  function SurroundingsOf(db: Database): Surroundings {
    Surroundings(RunIds(db), Approvers(db), Closers(db), db.deliveries)
  }

  /** `Conflict` is a key already taken, `Constraint` any other check, key or
      reference that refuses a row. */
  datatype UpdateError = NotFound | Conflict | Constraint | Domain(error: DomainError)

  datatype Committing<T> = Committed(value: T) | RolledBack(error: UpdateError)

  /** Write what a command changed, then load the case again. */
  ghost function Commit(db: Database, key: CaseKey, ch: Changes): Committing<Database>
    requires key in db.cases
  {
    match Write(db.cases[key], ch, SurroundingsOf(db), db.nextId)
    case None => RolledBack(Constraint)
    case Some(u) =>
      if !Aggregate.Loadable(Load(key, u)) then RolledBack(Domain(Invalid))
      else Committed(db.(cases := db.cases[key := u], nextId := db.nextId + |ch.approvals| + |ch.attempts|))
  }

  /** Load under the row lock, one command, the changes it tracked, commit. */
  ghost function Update(db: Database, key: CaseKey, c: Command): Committing<Database> {
    if key !in db.cases then RolledBack(NotFound)
    else if !Aggregate.Loadable(Load(key, db.cases[key])) then RolledBack(Domain(Invalid))
    else
      match Step(Clean(Load(key, db.cases[key])), c)
      case Err(e) => RolledBack(Domain(e))
      case Ok(t) => Commit(db, key, t.changes)
  }

  function FreshRows(c: Case, id: Id): CaseRows {
    CaseRows(CaseRow(id, c.requester, StoredTime(c.receivedAt), c.state), None, [], [], map[],
             OutcomeTables(map[], map[], map[], map[], map[]), None, [])
  }

  /** A new case of an enrolled repository, under a key not yet taken. */
  function Create(db: Database, c: Case): Committing<Database> {
    if c.key.number < 1 || c.requester.login == "" || (c.state == Gated && c.requester.trust == Trusted)
      || (c.state == Received && c.requester.trust == Untrusted) then RolledBack(Constraint)
    else if c.key in db.cases then RolledBack(Conflict)
    else if c.key.repository !in db.repositories || c.requester.association == AssociationUnset then RolledBack(Constraint)
    else Committed(db.(cases := db.cases[c.key := FreshRows(c, db.nextId)], nextId := db.nextId + 1))
  }

  // ----- What survives a write and a load -----

  ghost predicate Sound(c: Case) {
    Inv(c) && RestartedOnce(c)
  }

  ghost predicate CaseOk(key: CaseKey, t: CaseRows) {
    RowsOk(t) && Sound(Load(key, t))
  }

  ghost predicate DatabaseOk(db: Database) {
    db.nextId != 0 && forall k | k in db.cases :: CaseOk(k, db.cases[k])
  }

  lemma {:induction false} StoredLogCounts(log: seq<Transition>, cause: Cause)
    ensures CountCause(StoredTransitions(log), cause) == CountCause(log, cause)
  {
    if log != [] {
      var init := log[..|log| - 1];
      StoredLogCounts(init, cause);
      assert StoredTransitions(log)[..|log| - 1] == StoredTransitions(init);
    }
  }

  lemma StoredLogOk(log: seq<Transition>, trust: Trust)
    requires LogOk(log, trust)
    ensures LogOk(StoredTransitions(log), trust) && StateAfter(StoredTransitions(log), trust) == StateAfter(log, trust)
    ensures forall cause :: CountCause(StoredTransitions(log), cause) == CountCause(log, cause)
  {
    var kept := StoredTransitions(log);
    forall i | 0 <= i < |kept|
      ensures kept[i].from == StateAfter(kept[..i], trust) && Listed(kept[i].from, kept[i].to, kept[i].cause)
    {
      assert log[i].from == StateAfter(log[..i], trust);
    }
    forall cause ensures CountCause(kept, cause) == CountCause(log, cause) {
      StoredLogCounts(log, cause);
    }
  }

  ghost predicate AttemptsResemble(attempts: seq<Attempt>, loaded: seq<Attempt>) {
    && |loaded| == |attempts| && AttemptsOk(loaded)
    && (forall i | 0 <= i < |attempts| :: loaded[i].Open() == attempts[i].Open() && loaded[i].Restarted() == attempts[i].Restarted())
  }

  lemma KeptAttemptsOk(attempts: seq<Attempt>, a0: nat, id: Id)
    requires AttemptsOk(attempts) && forall i | 0 <= i < |attempts| :: StorableBudget(attempts[i].budget)
    ensures AttemptsResemble(attempts, KeptAttempts(attempts, a0, id))
  {
    forall i | 0 <= i < |attempts|
      ensures var k := KeptAttempts(attempts, a0, id)[i];
        ValidAttempt(k) && k.Open() == attempts[i].Open() && k.Restarted() == attempts[i].Restarted()
    {
      if attempts[i].outcome.Some? { StoredOutcomeKeepsMeaning(attempts[i].outcome.value); }
    }
  }

  /** The part of a case that every rule reads. */
  ghost predicate Resembles(c: Case, loaded: Case) {
    && loaded.key == c.key && loaded.requester == c.requester && loaded.state == c.state
    && loaded.triage == (if c.triage.Some? then Some(StoredTriage(c.triage.value)) else None)
    && loaded.closure == (if c.closure.Some? then Some(StoredClosure(c.closure.value)) else None)
    && |loaded.approvals| == |c.approvals| && (forall i | 0 <= i < |loaded.approvals| :: ValidApproval(loaded.approvals[i]))
    && AttemptsResemble(c.attempts, loaded.attempts)
    && |loaded.transitions| == |c.transitions| && LogOk(loaded.transitions, c.requester.trust)
    && StateAfter(loaded.transitions, c.requester.trust) == StateAfter(c.transitions, c.requester.trust)
    && (forall cause :: CountCause(loaded.transitions, cause) == CountCause(c.transitions, cause))
  }

  lemma SameOrderParts(c: Case, loaded: Case, p0: nat, a0: nat, id: Id)
    requires BudgetsStorable(c.attempts) && p0 <= |c.approvals| && SameUpToApprovalOrder(loaded, Kept(c, p0, a0, id))
    ensures loaded.attempts == KeptAttempts(c.attempts, a0, id + (|c.approvals| - p0))
    ensures loaded.transitions == StoredTransitions(c.transitions) && |loaded.approvals| == |c.approvals|
    ensures loaded.key == c.key && loaded.requester == c.requester && loaded.state == c.state
    ensures loaded.triage == (if c.triage.Some? then Some(StoredTriage(c.triage.value)) else None)
    ensures loaded.closure == (if c.closure.Some? then Some(StoredClosure(c.closure.value)) else None)
  {
    var k := Kept(c, p0, a0, id);
    assert loaded.(approvals := []).attempts == k.attempts && loaded.(approvals := []).transitions == k.transitions;
    assert |multiset(loaded.approvals)| == |multiset(k.approvals)|;
  }

  lemma KeptResembles(c: Case, loaded: Case, p0: nat, a0: nat, id: Id)
    requires Inv(c) && BudgetsStorable(c.attempts) && p0 <= |c.approvals|
    requires SameUpToApprovalOrder(loaded, Kept(c, p0, a0, id))
    requires forall i | 0 <= i < |loaded.approvals| :: ValidApproval(loaded.approvals[i])
    ensures Resembles(c, loaded)
  {
    SameOrderParts(c, loaded, p0, a0, id);
    KeptAttemptsOk(c.attempts, a0, id + (|c.approvals| - p0));
    StoredLogOk(c.transitions, c.requester.trust);
  }

  lemma ResemblingInv(c: Case, loaded: Case)
    requires Inv(c) && Resembles(c, loaded)
    ensures Inv(loaded)
  {}

  lemma ResemblingIsSound(c: Case, loaded: Case)
    requires Sound(c) && Resembles(c, loaded)
    ensures Sound(loaded)
  {
    ResemblingInv(c, loaded);
    if i :| 0 <= i < |c.attempts| && c.attempts[i].Restarted() {
      assert loaded.attempts[i].Restarted();
    }
  }

  /** An approval at or after a moment before the write is one at or after it
      when loaded; whole microseconds are what they are compared by. */
  lemma ApprovalsReload(c: Case, loaded: Case, p0: nat, a0: nat, id: Id, start: Time)
    requires BudgetsStorable(c.attempts) && p0 <= |c.approvals| && SameUpToApprovalOrder(loaded, Kept(c, p0, a0, id))
    ensures (exists j | 0 <= j < |loaded.approvals| :: loaded.approvals[j].approvedAt >= StoredTime(start)) <==>
            (exists i | 0 <= i < |c.approvals| :: StoredTime(c.approvals[i].approvedAt) >= StoredTime(start))
  {
    var kept := Kept(c, p0, a0, id).approvals;
    if i :| 0 <= i < |c.approvals| && StoredTime(c.approvals[i].approvedAt) >= StoredTime(start) {
      assert kept[i] in multiset(kept);
      assert kept[i] in loaded.approvals;
    }
    if j :| 0 <= j < |loaded.approvals| && loaded.approvals[j].approvedAt >= StoredTime(start) {
      assert loaded.approvals[j] in multiset(loaded.approvals);
      var i :| 0 <= i < |kept| && kept[i] == loaded.approvals[j];
      assert StoredTime(c.approvals[i].approvedAt) >= StoredTime(start);
    }
  }

  /** An approval older than the latest start by less than the column can tell. */
  predicate SharesMicrosecond(c: Case) {
    c.attempts != [] && exists i | 0 <= i < |c.approvals| ::
      && c.approvals[i].approvedAt < c.attempts[|c.attempts| - 1].startedAt
      && StoredTime(c.approvals[i].approvedAt) == StoredTime(c.attempts[|c.attempts| - 1].startedAt)
  }

  /** A write and a load change the kind of the next attempt exactly when it was
      auto and an approval shares a microsecond with the latest start; it is
      approved from then on. */
  lemma KindAfterReload(c: Case, loaded: Case, p0: nat, a0: nat, id: Id)
    requires BudgetsStorable(c.attempts) && p0 <= |c.approvals|
    requires SameUpToApprovalOrder(loaded, Kept(c, p0, a0, id))
    ensures NextAttemptKind(loaded) != NextAttemptKind(c) <==> NextAttemptKind(c) == Auto && SharesMicrosecond(c)
  {
    assert loaded.(approvals := []).attempts == Kept(c, p0, a0, id).attempts;
    assert |multiset(loaded.approvals)| == |multiset(Kept(c, p0, a0, id).approvals)|;
    if c.attempts != [] {
      ApprovalsReload(c, loaded, p0, a0, id, c.attempts[|c.attempts| - 1].startedAt);
    }
  }

  // ----- Every update keeps every case sound -----

  lemma CommandReplays(key: CaseKey, t: CaseRows, c: Command)
    requires CaseOk(key, t) && Step(Clean(Load(key, t)), c).Ok?
    ensures var u := Step(Clean(Load(key, t)), c).value;
      u.subject == Patch(Load(key, t), u.changes) && Fits(t, u.changes)
  {
    CleanReplays(Load(key, t));
    StepReplays(Load(key, t), Clean(Load(key, t)), c);
    SortAttemptsIsIdentity(t.attempts, 1);
    PatchedFits(Load(key, t), t, Step(Clean(Load(key, t)), c).value);
  }

  lemma PatchedFits(c: Case, t: CaseRows, u: Tracked)
    requires Replays(c, u) && |c.attempts| == |t.attempts|
    ensures Fits(t, u.changes)
  {
    forall i | 0 <= i < |u.changes.attempts| ensures u.changes.attempts[i].ordinal == |t.attempts| + i + 1 {
      assert u.subject.attempts[|t.attempts| + i].ordinal == u.changes.attempts[i].ordinal;
    }
  }

  /** The approvals a case in good order has gained are in good order. */
  lemma NewApprovalsValid(key: CaseKey, t: CaseRows, u: Tracked)
    requires u.subject == Patch(Load(key, t), u.changes) && Inv(u.subject)
    ensures forall i | 0 <= i < |u.changes.approvals| :: ValidApproval(u.changes.approvals[i])
  {
    ValidTail(SortApprovals(t.approvals), u.changes.approvals);
  }

  lemma ValidTail(before: seq<Approval>, added: seq<Approval>)
    requires forall i | 0 <= i < |before + added| :: ValidApproval((before + added)[i])
    ensures forall i | 0 <= i < |added| :: ValidApproval(added[i])
  {
    forall i | 0 <= i < |added| ensures ValidApproval(added[i]) {
      assert (before + added)[|before| + i] == added[i];
    }
  }

  lemma LoadedApprovalsValid(t: CaseRows)
    requires ApprovalRowsOk(t)
    ensures forall i | 0 <= i < |SortApprovals(t.approvals)| :: ValidApproval(SortApprovals(t.approvals)[i])
  {
    forall i | 0 <= i < |SortApprovals(t.approvals)| ensures ValidApproval(SortApprovals(t.approvals)[i]) {
      SortedApprovalIsStored(t, i);
    }
  }

  lemma ReloadIsOk(key: CaseKey, t: CaseRows, u: Tracked, w: CaseRows, id: Id)
    requires RowsOk(t) && Fits(t, u.changes) && id != 0 && u.subject == Patch(Load(key, t), u.changes) && Sound(u.subject)
    requires Grown(t, u.changes, id, w) && Summed(t, u.changes, w)
    ensures CaseOk(key, w)
  {
    NewApprovalsValid(key, t, u);
    RowsStayOk(t, u.changes, id, w);
    WrittenReloads(key, t, u.changes, id, w);
    LoadedApprovalsValid(w);
    KeptResembles(u.subject, Load(key, w), |t.approvals|, |t.attempts|, id);
    ResemblingIsSound(u.subject, Load(key, w));
  }

  lemma StepIsSound(c: Case, cmd: Command)
    requires Sound(c)
    ensures Sound(After(c, cmd))
  {
    AfterKeepsInv(c, cmd);
    StepRestartsOnce(c, cmd);
  }

  lemma WrittenIsOk(key: CaseKey, t: CaseRows, c: Command, s: Surroundings, id: Id)
    requires CaseOk(key, t) && id != 0 && Step(Clean(Load(key, t)), c).Ok?
    requires Write(t, Step(Clean(Load(key, t)), c).value.changes, s, id).Some?
    ensures CaseOk(key, Write(t, Step(Clean(Load(key, t)), c).value.changes, s, id).value)
  {
    var u := Step(Clean(Load(key, t)), c).value;
    CommandReplays(key, t, c);
    StepIsSound(Load(key, t), c);
    WriteWrites(t, u.changes, s, id);
    ReloadIsOk(key, t, u, Write(t, u.changes, s, id).value, id);
  }

  lemma CommitReplacesRows(db: Database, key: CaseKey, ch: Changes)
    requires key in db.cases && Commit(db, key, ch).Committed?
    ensures var w := Write(db.cases[key], ch, SurroundingsOf(db), db.nextId);
      w.Some? && Commit(db, key, ch).value == db.(cases := db.cases[key := w.value], nextId := db.nextId + |ch.approvals| + |ch.attempts|)
  {}

  /** What an update leaves: the same cases, every other one as it was. */
  ghost predicate OnlyTouches(db: Database, key: CaseKey, next: Database) {
    && next.cases.Keys == db.cases.Keys && next.deliveries == db.deliveries && next.repositories == db.repositories
    && forall k | k in db.cases && k != key :: next.cases[k] == db.cases[k]
  }

  lemma ReplacedRowsOk(db: Database, key: CaseKey, w: CaseRows, next: Database)
    requires DatabaseOk(db) && key in db.cases && CaseOk(key, w)
    requires next.cases == db.cases[key := w] && next.nextId >= db.nextId
    requires next.deliveries == db.deliveries && next.repositories == db.repositories
    ensures DatabaseOk(next)
  {
    forall k | k in next.cases ensures CaseOk(k, next.cases[k]) {
      assert k == key || next.cases[k] == db.cases[k];
    }
  }

  lemma ReplacedRowsTouchOne(db: Database, key: CaseKey, w: CaseRows, next: Database)
    requires key in db.cases && next.cases == db.cases[key := w] && next.deliveries == db.deliveries && next.repositories == db.repositories
    ensures OnlyTouches(db, key, next)
  {}

  /** The round trip of one update: the case loaded afterwards is the one in
      memory after the command, up to new ids, the order of approvals and the
      cut to whole microseconds. */
  lemma UpdateRoundTrip(db: Database, key: CaseKey, c: Command)
    requires DatabaseOk(db) && Update(db, key, c).Committed?
    ensures var b := Load(key, db.cases[key]);
      var u := After(b, c);
      && Step(Clean(b), c).Ok? && BudgetsStorable(u.attempts) && |b.approvals| <= |u.approvals|
      && key in Update(db, key, c).value.cases
      && SameUpToApprovalOrder(Load(key, Update(db, key, c).value.cases[key]), Kept(u, |b.approvals|, |b.attempts|, db.nextId))
  {
    var t := db.cases[key];
    CommandReplays(key, t, c);
    WriteThenLoad(key, t, Step(Clean(Load(key, t)), c).value.changes, SurroundingsOf(db), db.nextId);
    SortPermutes(t.approvals);
    assert |multiset(SortApprovals(t.approvals))| == |t.approvals|;
    SortAttemptsIsIdentity(t.attempts, 1);
  }

  /** So an update leaves the next attempt of the kind it has in memory, but for
      that one microsecond. */
  lemma KindAfterUpdate(db: Database, key: CaseKey, c: Command)
    requires DatabaseOk(db) && Update(db, key, c).Committed?
    ensures var u := After(Load(key, db.cases[key]), c);
      NextAttemptKind(Load(key, Update(db, key, c).value.cases[key])) ==
        if SharesMicrosecond(u) then Approved else NextAttemptKind(u)
  {
    var b := Load(key, db.cases[key]);
    UpdateRoundTrip(db, key, c);
    KindAfterReload(After(b, c), Load(key, Update(db, key, c).value.cases[key]), |b.approvals|, |b.attempts|, db.nextId);
  }

  /** An update keeps every case sound and touches no other. */
  lemma UpdateKeepsOk(db: Database, key: CaseKey, c: Command)
    requires DatabaseOk(db) && Update(db, key, c).Committed?
    ensures DatabaseOk(Update(db, key, c).value) && OnlyTouches(db, key, Update(db, key, c).value)
  {
    var ch := Step(Clean(Load(key, db.cases[key])), c).value.changes;
    WrittenIsOk(key, db.cases[key], c, SurroundingsOf(db), db.nextId);
    CommitReplacesRows(db, key, ch);
    ReplacedRowsOk(db, key, Write(db.cases[key], ch, SurroundingsOf(db), db.nextId).value, Commit(db, key, ch).value);
    ReplacedRowsTouchOne(db, key, Write(db.cases[key], ch, SurroundingsOf(db), db.nextId).value, Commit(db, key, ch).value);
  }

  lemma CreateKeepsOk(db: Database, c: Case)
    requires DatabaseOk(db) && Create(db, c).Committed?
    requires NewCase(c.key, c.requester, c.receivedAt) == Ok(c)
    ensures DatabaseOk(Create(db, c).value)
    ensures Load(c.key, Create(db, c).value.cases[c.key]) == c.(id := db.nextId, receivedAt := StoredTime(c.receivedAt))
  {
    NewCaseInv(c.key, c.requester, c.receivedAt);
    var u := FreshRows(c, db.nextId);
    assert LoadAttempts(u, SortAttempts([])) == [];
    assert Sound(Load(c.key, u));
    StoredTimeIsStable(c.receivedAt);
    assert RowsOk(u);
  }

  /** Creating goes through exactly for an enrolled repository, a whole case at the
      gate its trust calls for and a key not taken, and touches nothing else. */
  lemma CreateFailsExactlyWhen(db: Database, c: Case)
    ensures Create(db, c).Committed? <==>
      && c.key.repository in db.repositories && c.key !in db.cases && c.key.number >= 1
      && c.requester.login != "" && c.requester.association != AssociationUnset
      && !(c.state == Gated && c.requester.trust == Trusted) && !(c.state == Received && c.requester.trust == Untrusted)
    ensures Create(db, c).Committed? ==>
      var next := Create(db, c).value;
      && next.cases.Keys == db.cases.Keys + {c.key} && (forall k | k in db.cases :: next.cases[k] == db.cases[k])
      && next.deliveries == db.deliveries && next.repositories == db.repositories
  {}

  // ----- Whole runs of updates -----

  datatype Request = Request(key: CaseKey, command: Command)

  ghost function Serve(db: Database, requests: seq<Request>): Database
    decreases |requests|
  {
    if requests == [] then db
    else
      var r := Update(db, requests[0].key, requests[0].command);
      Serve(if r.Committed? then r.value else db, requests[1..])
  }

  /** Through any run of updates every case stays sound as it is stored. */
  lemma {:induction false} ServingKeepsOk(db: Database, requests: seq<Request>)
    requires DatabaseOk(db)
    ensures DatabaseOk(Serve(db, requests))
    decreases |requests|
  {
    if requests != [] {
      var r := Update(db, requests[0].key, requests[0].command);
      if r.Committed? {
        UpdateKeepsOk(db, requests[0].key, requests[0].command);
      }
      ServingKeepsOk(if r.Committed? then r.value else db, requests[1..]);
    }
  }

  // ----- Exactly when the tables refuse an accepted command -----

  /** What the tables look at and the aggregate does not. */
  predicate Unstorable(s: Surroundings, c: Command) {
    match c
    case RecordTriage(_) => false
    case RecordApproval(a) => !ApprovalInsertable(a, s.approvers, s.deliveries)
    case StartAttempt(_, budget, _, _) => ToInterval(budget.maxWallClock) == 0
    case RecordRun(_, r) => r.runId in s.runIds
    case RecordOutcome(_, o) => !StorableUsage(o.usage) || !VariantChecks(o)
    case Close(cl) => cl.deliveryId !in s.deliveries || cl.deliveryId in s.closers
  }

  /** An outcome from a constructor, with a usage that is not negative, is storable. */
  lemma ConstructedOutcomeIsStorable(s: Surroundings, attemptId: Id, o: Outcome)
    requires WellBuilt(o)
    ensures Unstorable(s, RecordOutcome(attemptId, o)) <==> !StorableUsage(o.usage)
  {}

  lemma TriageIsWritten(key: CaseKey, t: CaseRows, v: Triage, s: Surroundings, id: Id)
    requires StepTriage(Clean(Load(key, t)), v).Ok?
    ensures WriteFacts(t, StepTriage(Clean(Load(key, t)), v).value.changes, s, id).Some?
  {
    var t1 := InsertTriage(t, v).value;
    assert InsertApprovals(t1, [], s.approvers, s.deliveries, id) == Some(t1);
    assert InsertAttempts(t1, [], id) == Some(t1);
  }

  lemma OneApproval(t: CaseRows, a: Approval, taken: set<string>, deliveries: set<string>, id: Id)
    ensures InsertApprovals(t, [a], taken, deliveries, id).None? <==> !ApprovalInsertable(a, taken, deliveries)
  {
    var u := t.(approvals := t.approvals + [StoredApproval(a, id)]);
    assert InsertApprovals(u, [a][1..], if a.source == SourceLabel then taken + {a.deliveryId} else taken, deliveries, id + 1) == Some(u);
  }

  lemma ApprovalIsWritten(key: CaseKey, t: CaseRows, a: Approval, s: Surroundings, id: Id)
    requires StepApproval(Clean(Load(key, t)), a).Ok?
    ensures WriteFacts(t, StepApproval(Clean(Load(key, t)), a).value.changes, s, id).None? <==> !ApprovalInsertable(a, s.approvers, s.deliveries)
  {
    assert StepApproval(Clean(Load(key, t)), a).value.changes.approvals == [a];
    OneApproval(t, a, s.approvers, s.deliveries, id);
  }

  lemma StartIsWritten(key: CaseKey, t: CaseRows, kind: AttemptKind, budget: Budget, brief: string, at: Time, s: Surroundings, id: Id)
    requires AttemptRowsOk(t) && StepStart(Clean(Load(key, t)), kind, budget, brief, at).Ok?
    ensures WriteFacts(t, StepStart(Clean(Load(key, t)), kind, budget, brief, at).value.changes, s, id).None? <==>
      ToInterval(budget.maxWallClock) == 0
  {
    var a := NextAttempt(Load(key, t), kind, budget, brief, at);
    SortAttemptsIsIdentity(t.attempts, 1);
    assert StepStart(Clean(Load(key, t)), kind, budget, brief, at).value.changes.attempts == [a];
    assert InsertAttempt(t, a, id).None? <==> ToInterval(budget.maxWallClock) == 0;
    if InsertAttempt(t, a, id).Some? {
      assert InsertAttempts(InsertAttempt(t, a, id).value, [a][1..], id + 1) == InsertAttempt(t, a, id);
    }
  }

  lemma OpenAttemptHasRow(key: CaseKey, t: CaseRows)
    requires AttemptRowsOk(t) && FirstOpen(Load(key, t).attempts) < |Load(key, t).attempts|
    ensures var a := Load(key, t).attempts[FirstOpen(Load(key, t).attempts)];
      HasAttempt(t, a.ordinal) && a.ordinal !in t.outcomes.common && (a.run.None? ==> a.ordinal !in t.runs)
  {
    SortAttemptsIsIdentity(t.attempts, 1);
    var i := FirstOpen(Load(key, t).attempts);
    assert t.attempts[i].ordinal == Load(key, t).attempts[i].ordinal;
  }

  ghost predicate Only(ch: Changes, runs: map<nat, Run>, outcomes: map<nat, Outcome>) {
    ch.triage.None? && ch.approvals == [] && ch.attempts == [] && ch.runs == runs && ch.outcomes == outcomes
  }

  lemma OneRun(t: CaseRows, ch: Changes, k: nat, r: Run, s: Surroundings, id: Id)
    requires Only(ch, map[k := r], map[])
    ensures WriteFacts(t, ch, s, id).None? <==> !RunInsertable(t, k, r, s.runIds)
  {
    assert ch.runs[k] == r;
  }

  lemma OneOutcome(t: CaseRows, ch: Changes, k: nat, o: Outcome, s: Surroundings, id: Id)
    requires Only(ch, map[], map[k := o])
    ensures WriteFacts(t, ch, s, id).None? <==> !OutcomeInsertable(t, k, o)
  {
    assert ch.outcomes[k] == o;
  }

  lemma RunIsWritten(key: CaseKey, t: CaseRows, attemptId: Id, r: Run, s: Surroundings, id: Id)
    requires AttemptRowsOk(t) && StepRun(Clean(Load(key, t)), attemptId, r).Ok?
    ensures WriteFacts(t, StepRun(Clean(Load(key, t)), attemptId, r).value.changes, s, id).None? <==> r.runId in s.runIds
  {
    var c := Load(key, t);
    OpenAttemptHasRow(key, t);
    OneRun(t, StepRun(Clean(c), attemptId, r).value.changes, c.attempts[FirstOpen(c.attempts)].ordinal, r, s, id);
  }

  lemma OutcomeIsWritten(key: CaseKey, t: CaseRows, attemptId: Id, o: Outcome, s: Surroundings, id: Id)
    requires AttemptRowsOk(t) && StepOutcome(Clean(Load(key, t)), attemptId, o).Ok?
    ensures WriteFacts(t, StepOutcome(Clean(Load(key, t)), attemptId, o).value.changes, s, id).None? <==>
      !StorableUsage(o.usage) || !VariantChecks(o)
  {
    var c := Load(key, t);
    OpenAttemptHasRow(key, t);
    OneOutcome(t, StepOutcome(Clean(c), attemptId, o).value.changes, c.attempts[FirstOpen(c.attempts)].ordinal, o, s, id);
  }

  lemma CloseIsWritten(key: CaseKey, t: CaseRows, cl: Closure, s: Surroundings, id: Id)
    requires StepClose(Clean(Load(key, t)), cl).Ok?
    ensures WriteFacts(t, StepClose(Clean(Load(key, t)), cl).value.changes, s, id).Some?
  {
    assert Only(StepClose(Clean(Load(key, t)), cl).value.changes, map[], map[]);
  }

  lemma FactsAreWritten(key: CaseKey, t: CaseRows, c: Command, s: Surroundings, id: Id)
    requires CaseOk(key, t) && Step(Clean(Load(key, t)), c).Ok?
    ensures WriteFacts(t, Step(Clean(Load(key, t)), c).value.changes, s, id).None? <==> Unstorable(s, c) && !c.Close?
  {
    match c
    case RecordTriage(v) => TriageIsWritten(key, t, v, s, id);
    case RecordApproval(a) => ApprovalIsWritten(key, t, a, s, id);
    case StartAttempt(kind, budget, brief, at) => StartIsWritten(key, t, kind, budget, brief, at, s, id);
    case RecordRun(attemptId, r) => RunIsWritten(key, t, attemptId, r, s, id);
    case RecordOutcome(attemptId, o) => OutcomeIsWritten(key, t, attemptId, o, s, id);
    case Close(cl) => CloseIsWritten(key, t, cl, s, id);
  }

  /** What the summary half of a write hinges on, for a case in good order. */
  ghost predicate SummaryFits(t: CaseRows, ch: Changes) {
    && (ch.closure.Some? ==> t.closure.None?)
    && (forall i | 0 <= i < |ch.transitions| :: ch.transitions[i].from != ch.transitions[i].to)
    && !(ch.state == Gated && t.row.requester.trust == Trusted) && !(ch.state == Received && t.row.requester.trust == Untrusted)
  }

  lemma NewEntriesMove(before: seq<Transition>, added: seq<Transition>, trust: Trust)
    requires LogOk(before + added, trust)
    ensures forall i | 0 <= i < |added| :: added[i].from != added[i].to
  {
    forall i | 0 <= i < |added| ensures added[i].from != added[i].to {
      assert (before + added)[|before| + i] == added[i];
    }
  }

  lemma OnlyCloseCloses(t: Tracked, c: Command)
    requires Step(t, c).Ok? && t.changes.closure.None?
    ensures Step(t, c).value.changes.closure == (if c.Close? then Some(c.closure) else None)
    ensures c.Close? ==> t.subject.state != Closed
  {}

  lemma PatchedSummaryFits(key: CaseKey, t: CaseRows, u: Tracked)
    requires u.subject == Patch(Load(key, t), u.changes) && Inv(u.subject)
    requires u.changes.closure.Some? ==> t.closure.None?
    ensures SummaryFits(t, u.changes)
  {
    NewEntriesMove(t.transitions, u.changes.transitions, t.row.requester.trust);
  }

  lemma StepSummaryFits(key: CaseKey, t: CaseRows, c: Command)
    requires CaseOk(key, t) && Step(Clean(Load(key, t)), c).Ok?
    ensures var ch := Step(Clean(Load(key, t)), c).value.changes;
      SummaryFits(t, ch) && ch.closure == (if c.Close? then Some(c.closure) else None)
  {
    StepKeepsInv(Clean(Load(key, t)), c);
    CommandReplays(key, t, c);
    OnlyCloseCloses(Clean(Load(key, t)), c);
    PatchedSummaryFits(key, t, Step(Clean(Load(key, t)), c).value);
  }

  lemma SummaryIsWritten(t: CaseRows, ch: Changes, s: Surroundings, id: Id)
    requires SummaryFits(t, ch)
    ensures Write(t, ch, s, id).None? <==>
      || WriteFacts(t, ch, s, id).None?
      || (ch.closure.Some? && (ch.closure.value.deliveryId !in s.deliveries || ch.closure.value.deliveryId in s.closers))
  {
    if WriteFacts(t, ch, s, id).Some? {
      FactsGrow(t, ch, s, id);
    }
  }

  /** A command the aggregate accepts is refused by the tables exactly when it is
      unstorable: no triage, attempt, run, outcome, closure or log row of the case
      itself ever collides. */
  lemma RefusedExactlyWhenUnstorable(db: Database, key: CaseKey, c: Command)
    requires DatabaseOk(db) && key in db.cases && Step(Clean(Load(key, db.cases[key])), c).Ok?
    ensures Write(db.cases[key], Step(Clean(Load(key, db.cases[key])), c).value.changes, SurroundingsOf(db), db.nextId).None?
      <==> Unstorable(SurroundingsOf(db), c)
  {
    FactsAreWritten(key, db.cases[key], c, SurroundingsOf(db), db.nextId);
    StepSummaryFits(key, db.cases[key], c);
    SummaryIsWritten(db.cases[key], Step(Clean(Load(key, db.cases[key])), c).value.changes, SurroundingsOf(db), db.nextId);
  }

  lemma CommitFailsExactlyWhen(db: Database, key: CaseKey, c: Command)
    requires DatabaseOk(db) && key in db.cases && Step(Clean(Load(key, db.cases[key])), c).Ok?
    ensures var ch := Step(Clean(Load(key, db.cases[key])), c).value.changes;
      if Write(db.cases[key], ch, SurroundingsOf(db), db.nextId).None? then Commit(db, key, ch) == RolledBack(Constraint)
      else Commit(db, key, ch).Committed?
  {
    var t := db.cases[key];
    var w := Write(t, Step(Clean(Load(key, t)), c).value.changes, SurroundingsOf(db), db.nextId);
    if w.Some? {
      WrittenIsOk(key, t, c, SurroundingsOf(db), db.nextId);
      Aggregate.InvIsLoadable(Load(key, w.value));
    }
  }

  /** The error an update ends with, if any. The case always loads, before and after. */
  lemma UpdateFailsExactlyWhen(db: Database, key: CaseKey, c: Command)
    requires DatabaseOk(db)
    ensures Update(db, key, c) == RolledBack(NotFound) <==> key !in db.cases
    ensures key in db.cases ==>
      var step := Step(Clean(Load(key, db.cases[key])), c);
      && (step.Err? ==> Update(db, key, c) == RolledBack(Domain(step.error)))
      && (step.Ok? && Unstorable(SurroundingsOf(db), c) ==> Update(db, key, c) == RolledBack(Constraint))
      && (step.Ok? && !Unstorable(SurroundingsOf(db), c) ==> Update(db, key, c).Committed?)
  {
    if key in db.cases {
      Aggregate.InvIsLoadable(Load(key, db.cases[key]));
      if Step(Clean(Load(key, db.cases[key])), c).Ok? {
        RefusedExactlyWhenUnstorable(db, key, c);
        CommitFailsExactlyWhen(db, key, c);
      }
    }
  }
}
