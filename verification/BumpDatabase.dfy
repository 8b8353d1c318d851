/** The bump tables as one database: what an update does, exactly when a
    constraint refuses it, and that it keeps every bump sound. */
module BumpDatabase {
  import opened Kernel
  import opened UpkeepFacts
  import opened BumpModel
  import opened BumpInvariant
  import opened BumpRuns
  import opened BumpAbandonments
  import opened BumpChanges
  import opened BumpTables
  import opened BumpPersistence
  import opened BumpReload
  import Aggregate = BumpAggregate

  /** Every bump's rows under its natural key, the deliveries received, the
      watched repositories, and the next id to give out. */
  datatype Database = Database(bumps: map<BumpKey, BumpRows>, deliveries: set<string>, watches: set<string>, nextId: Id)

  function RunIds(db: Database): set<string> {
    set k, r | k in db.bumps && r in db.bumps[k].runs :: db.bumps[k].runs[r].runId
  }

  function Closers(db: Database): set<string> {
    set k | k in db.bumps && db.bumps[k].closure.Some? :: db.bumps[k].closure.value.deliveryId
  }

  function SurroundingsOf(db: Database): Surroundings {
    Surroundings(RunIds(db), Closers(db), db.deliveries)
  }

  /** `Conflict` is a key already taken, `Constraint` any other check, key or
      reference that refuses a row. */
  datatype UpdateError = NotFound | Conflict | Constraint | Domain(error: DomainError)

  datatype Outcome<T> = Committed(value: T) | RolledBack(error: UpdateError)

  /** Write what a command changed, then load the bump again: a refused insert
      or a bump that no longer loads rolls everything back. */
  ghost function Commit(db: Database, key: BumpKey, ch: Changes): Outcome<Database>
    requires key in db.bumps
  {
    match Write(db.bumps[key], ch, SurroundingsOf(db), db.nextId)
    case None => RolledBack(Constraint)
    case Some(u) =>
      if !Aggregate.Loadable(Load(key, u)) then RolledBack(Domain(Invalid))
      else Committed(db.(bumps := db.bumps[key := u], nextId := db.nextId + |ch.verdicts| + |ch.attempts|))
  }

  /** Load under the row lock, one command, the changes it tracked, commit. */
  ghost function Update(db: Database, key: BumpKey, c: Command): Outcome<Database> {
    if key !in db.bumps then RolledBack(NotFound)
    else
      var b := Load(key, db.bumps[key]);
      if !Aggregate.Loadable(b) then RolledBack(Domain(Invalid))
      else
        match Step(Clean(b), c)
        case Err(e) => RolledBack(Domain(e))
        case Ok(t) => Commit(db, key, t.changes)
  }

  function FreshRows(b: Bump, id: Id): BumpRows {
    BumpRows(BumpRow(id, b.branch, b.baseBranch, StoredTime(b.openedAt), b.headSha, b.state),
             [], [], map[], OutcomeTables(map[], map[], map[], map[], map[]), None, None, [])
  }

  /** A new bump, on a watched repository and under a key not yet taken. */
  function Create(db: Database, b: Bump): Outcome<Database> {
    if b.key.repository !in db.watches then RolledBack(NotFound)
    else if b.key.number < 1 || b.branch == "" || b.baseBranch == "" || !ValidSha(b.headSha) then RolledBack(Constraint)
    else if b.key in db.bumps then RolledBack(Conflict)
    else Committed(db.(bumps := db.bumps[b.key := FreshRows(b, db.nextId)], nextId := db.nextId + 1))
  }

  ghost predicate BumpOk(key: BumpKey, t: BumpRows, maxRounds: int) {
    RowsOk(t) && Sound(Load(key, t), maxRounds)
  }

  ghost predicate DatabaseOk(db: Database, maxRounds: int) {
    db.nextId != 0 && forall k | k in db.bumps :: BumpOk(k, db.bumps[k], maxRounds)
  }

  // ----- Every update keeps every bump sound -----

  /** One command's changes replay, and its new rounds carry on the numbering. */
  lemma CommandReplays(key: BumpKey, t: BumpRows, c: Command, maxRounds: int)
    requires BumpOk(key, t, maxRounds) && Step(Clean(Load(key, t)), c).Ok?
    ensures var u := Step(Clean(Load(key, t)), c).value;
      u.bump == Patch(Load(key, t), u.changes) && Fits(t, u.changes)
  {
    var b := Load(key, t);
    CleanReplays(b, maxRounds);
    StepReplays(b, Clean(b), c);
    var u := Step(Clean(b), c).value;
    SortRoundsIsIdentity(t.repairs, 1);
    PatchedFits(b, t, u);
  }

  lemma PatchedFits(b: Bump, t: BumpRows, u: Tracked)
    requires Replays(b, u) && |b.attempts| == |t.repairs|
    ensures Fits(t, u.changes)
  {
    forall i | 0 <= i < |u.changes.attempts|
      ensures u.changes.attempts[i].round == |t.repairs| + i + 1
    {
      assert u.bump.attempts[|t.repairs| + i].round == u.changes.attempts[i].round;
    }
  }

  lemma WrittenIsOk(key: BumpKey, t: BumpRows, c: Command, s: Surroundings, id: Id, maxRounds: int)
    requires BumpOk(key, t, maxRounds) && CapExactly(c, maxRounds) && id != 0
    requires Step(Clean(Load(key, t)), c).Ok?
    requires Write(t, Step(Clean(Load(key, t)), c).value.changes, s, id).Some?
    ensures BumpOk(key, Write(t, Step(Clean(Load(key, t)), c).value.changes, s, id).value, maxRounds)
  {
    var b := Load(key, t);
    var u := Step(Clean(b), c).value;
    CommandReplays(key, t, c, maxRounds);
    StepIsSound(b, c, maxRounds);
    ReloadIsOk(key, t, u, s, id, maxRounds);
  }

  lemma ReloadIsOk(key: BumpKey, t: BumpRows, u: Tracked, s: Surroundings, id: Id, maxRounds: int)
    requires RowsOk(t) && Fits(t, u.changes) && id != 0 && u.bump == Patch(Load(key, t), u.changes) && Sound(u.bump, maxRounds)
    requires Write(t, u.changes, s, id).Some?
    ensures BumpOk(key, Write(t, u.changes, s, id).value, maxRounds)
  {
    RowsStayOk(t, u.changes, s, id);
    WriteThenLoad(key, t, u.changes, s, id);
    var w := Write(t, u.changes, s, id).value;
    SortKeepsVerdictsOk(w.verdicts);
    KeptIsSound(u.bump, Load(key, w), |t.verdicts|, |t.repairs|, id, maxRounds);
  }

  lemma CommitReplacesRows(db: Database, key: BumpKey, ch: Changes)
    requires key in db.bumps && Commit(db, key, ch).Committed?
    ensures var w := Write(db.bumps[key], ch, SurroundingsOf(db), db.nextId);
      w.Some? && Commit(db, key, ch).value == db.(bumps := db.bumps[key := w.value], nextId := db.nextId + |ch.verdicts| + |ch.attempts|)
  {}

  lemma ReplacedRowsOk(db: Database, key: BumpKey, w: BumpRows, next: Database, maxRounds: int)
    requires DatabaseOk(db, maxRounds) && key in db.bumps && BumpOk(key, w, maxRounds)
    requires next.bumps == db.bumps[key := w] && next.nextId >= db.nextId
    requires next.deliveries == db.deliveries && next.watches == db.watches
    ensures DatabaseOk(next, maxRounds)
  {
    forall k | k in next.bumps ensures BumpOk(k, next.bumps[k], maxRounds) {
      assert k == key || next.bumps[k] == db.bumps[k];
    }
  }

  lemma ReplacedRowsTouchOne(db: Database, key: BumpKey, w: BumpRows, next: Database)
    requires key in db.bumps && next.bumps == db.bumps[key := w] && next.deliveries == db.deliveries && next.watches == db.watches
    ensures OnlyTouches(db, key, next)
  {}

  /** What an update leaves: the same bumps, every other one as it was. */
  ghost predicate OnlyTouches(db: Database, key: BumpKey, next: Database) {
    && next.bumps.Keys == db.bumps.Keys && next.deliveries == db.deliveries && next.watches == db.watches
    && forall k | k in db.bumps && k != key :: next.bumps[k] == db.bumps[k]
  }

  /** An update keeps every bump sound, touches no other bump, and commits
      nothing when it fails. */
  lemma UpdateKeepsOk(db: Database, key: BumpKey, c: Command, maxRounds: int)
    requires DatabaseOk(db, maxRounds) && CapExactly(c, maxRounds) && Update(db, key, c).Committed?
    ensures DatabaseOk(Update(db, key, c).value, maxRounds) && OnlyTouches(db, key, Update(db, key, c).value)
  {
    var ch := Step(Clean(Load(key, db.bumps[key])), c).value.changes;
    WrittenIsOk(key, db.bumps[key], c, SurroundingsOf(db), db.nextId, maxRounds);
    CommitReplacesRows(db, key, ch);
    ReplacedRowsOk(db, key, Write(db.bumps[key], ch, SurroundingsOf(db), db.nextId).value, Commit(db, key, ch).value, maxRounds);
    ReplacedRowsTouchOne(db, key, Write(db.bumps[key], ch, SurroundingsOf(db), db.nextId).value, Commit(db, key, ch).value);
  }

  /** The round trip of one update: the bump loaded afterwards is the one in
      memory after the command, up to new ids, the order of verdicts and the cut
      to whole microseconds. */
  lemma UpdateRoundTrip(db: Database, key: BumpKey, c: Command, maxRounds: int)
    requires DatabaseOk(db, maxRounds) && Update(db, key, c).Committed?
    ensures var b := Load(key, db.bumps[key]);
      var u := After(b, c);
      && Step(Clean(b), c).Ok? && BudgetsStorable(u) && |b.verdicts| <= |u.verdicts|
      && key in Update(db, key, c).value.bumps
      && SameUpToVerdictOrder(Load(key, Update(db, key, c).value.bumps[key]), Kept(u, |b.verdicts|, |b.attempts|, db.nextId))
  {
    var t := db.bumps[key];
    CommandReplays(key, t, c, maxRounds);
    WriteThenLoad(key, t, Step(Clean(Load(key, t)), c).value.changes, SurroundingsOf(db), db.nextId);
    SortVerdictsPermutes(t.verdicts);
    assert |multiset(SortVerdicts(t.verdicts))| == |t.verdicts|;
    SortRoundsIsIdentity(t.repairs, 1);
  }

  /** A bump once in the tables always passes the load checks. */
  lemma LoadNeverRejects(db: Database, key: BumpKey, maxRounds: int)
    requires DatabaseOk(db, maxRounds) && key in db.bumps
    ensures Aggregate.Loadable(Load(key, db.bumps[key]))
  {
    Aggregate.InvIsLoadable(Load(key, db.bumps[key]), maxRounds);
  }

  lemma CreateKeepsOk(db: Database, b: Bump, maxRounds: nat)
    requires DatabaseOk(db, maxRounds) && Create(db, b).Committed?
    requires NewBump(b.key, b.branch, b.baseBranch, b.headSha, b.openedAt) == Ok(b)
    ensures DatabaseOk(Create(db, b).value, maxRounds)
    ensures Load(b.key, Create(db, b).value.bumps[b.key]) == b.(id := db.nextId, openedAt := StoredTime(b.openedAt))
  {
    var u := FreshRows(b, db.nextId);
    assert LoadRounds(u, SortRounds([])) == [];
    NewBumpInv(b.key, b.branch, b.baseBranch, b.headSha, b.openedAt, maxRounds);
    var l := Load(b.key, u);
    assert Sound(l, maxRounds);
  }

  /** Creating goes through exactly for a watched repository, a whole bump and a key
      not taken, and touches nothing else. */
  lemma CreateFailsExactlyWhen(db: Database, b: Bump)
    ensures Create(db, b) == RolledBack(NotFound) <==> b.key.repository !in db.watches
    ensures Create(db, b).Committed? <==>
      && b.key.repository in db.watches && b.key !in db.bumps
      && b.key.number >= 1 && b.branch != "" && b.baseBranch != "" && ValidSha(b.headSha)
    ensures Create(db, b).Committed? ==>
      var next := Create(db, b).value;
      && next.bumps.Keys == db.bumps.Keys + {b.key} && (forall k | k in db.bumps :: next.bumps[k] == db.bumps[k])
      && next.deliveries == db.deliveries && next.watches == db.watches
  {}

  // ----- Whole runs of updates -----

  datatype Request = Request(key: BumpKey, command: Command)

  /** A failed update leaves the database as it was. */
  ghost function Serve(db: Database, requests: seq<Request>): Database
    decreases |requests|
  {
    if requests == [] then db
    else
      var r := Update(db, requests[0].key, requests[0].command);
      Serve(if r.Committed? then r.value else db, requests[1..])
  }

  /** Through any run of updates the rows of every bump stay well formed and the
      bump loaded from them stays sound. */
  lemma {:induction false} ServingKeepsOk(db: Database, requests: seq<Request>, maxRounds: int)
    requires DatabaseOk(db, maxRounds)
    requires forall i | 0 <= i < |requests| :: CapExactly(requests[i].command, maxRounds)
    ensures DatabaseOk(Serve(db, requests), maxRounds)
    decreases |requests|
  {
    if requests != [] {
      var r := Update(db, requests[0].key, requests[0].command);
      if r.Committed? {
        UpdateKeepsOk(db, requests[0].key, requests[0].command, maxRounds);
      }
      ServingKeepsOk(if r.Committed? then r.value else db, requests[1..], maxRounds);
    }
  }

  /** Every stored bump agrees with its own facts. */
  ghost predicate DatabaseAgrees(db: Database, maxRounds: int) {
    forall k | k in db.bumps :: Agrees(Load(k, db.bumps[k]), maxRounds)
  }

  /** What was loaded again agrees exactly when what was in memory did. */
  lemma ReloadAgrees(b: Bump, loaded: Bump, c: Command, id: Id, maxRounds: int)
    requires Sound(b, maxRounds) && CapExactly(c, maxRounds) && Step(Clean(b), c).Ok?
    requires BudgetsStorable(After(b, c)) && |b.verdicts| <= |After(b, c).verdicts|
    requires SameUpToVerdictOrder(loaded, Kept(After(b, c), |b.verdicts|, |b.attempts|, id)) && Sound(loaded, maxRounds)
    requires Agrees(b, maxRounds)
    ensures Agrees(loaded, maxRounds) <==> !Strays(b, c)
  {
    StepIsSound(b, c, maxRounds);
    StepAgrees(b, c, maxRounds);
    KeptAgrees(After(b, c), loaded, |b.verdicts|, |b.attempts|, id, maxRounds);
  }

  lemma UpdateAgrees(db: Database, key: BumpKey, c: Command, maxRounds: int)
    requires DatabaseOk(db, maxRounds) && DatabaseAgrees(db, maxRounds)
    requires CapExactly(c, maxRounds) && Update(db, key, c).Committed?
    ensures DatabaseAgrees(Update(db, key, c).value, maxRounds) <==> !Strays(Load(key, db.bumps[key]), c)
  {
    var next := Update(db, key, c).value;
    UpdateKeepsOk(db, key, c, maxRounds);
    UpdateRoundTrip(db, key, c, maxRounds);
    ReloadAgrees(Load(key, db.bumps[key]), Load(key, next.bumps[key]), c, db.nextId, maxRounds);
    OnlyOneAgreementChanges(db, key, next, maxRounds);
  }

  lemma OnlyOneAgreementChanges(db: Database, key: BumpKey, next: Database, maxRounds: int)
    requires DatabaseAgrees(db, maxRounds) && key in db.bumps && OnlyTouches(db, key, next)
    ensures DatabaseAgrees(next, maxRounds) <==> Agrees(Load(key, next.bumps[key]), maxRounds)
  {}

  ghost predicate AgreesThroughout(db: Database, requests: seq<Request>, maxRounds: int)
    decreases |requests|
  {
    && DatabaseAgrees(db, maxRounds)
    && (requests != [] ==> AgreesThroughout(Serve(db, requests[..1]), requests[1..], maxRounds))
  }

  ghost predicate NoneStrays(db: Database, requests: seq<Request>)
    decreases |requests|
  {
    requests != [] ==>
      && (Update(db, requests[0].key, requests[0].command).Committed? ==>
            !Strays(Load(requests[0].key, db.bumps[requests[0].key]), requests[0].command))
      && NoneStrays(Serve(db, requests[..1]), requests[1..])
  }

  /** Through any run of updates every stored bump agrees with its facts, at every
      point, exactly when no stray push and no late give-up was committed. */
  lemma {:induction false} ServingAgreesExactly(db: Database, requests: seq<Request>, maxRounds: int)
    requires DatabaseOk(db, maxRounds) && DatabaseAgrees(db, maxRounds)
    requires forall i | 0 <= i < |requests| :: CapExactly(requests[i].command, maxRounds)
    ensures AgreesThroughout(db, requests, maxRounds) <==> NoneStrays(db, requests)
    decreases |requests|
  {
    if requests != [] {
      var key, c := requests[0].key, requests[0].command;
      var next := Serve(db, requests[..1]);
      ServeOne(db, requests[0]);
      ServingKeepsOk(db, requests[..1], maxRounds);
      if Update(db, key, c).Committed? {
        UpdateAgrees(db, key, c, maxRounds);
      }
      if DatabaseAgrees(next, maxRounds) {
        ServingAgreesExactly(next, requests[1..], maxRounds);
      }
    }
  }

  lemma ServeOne(db: Database, q: Request)
    ensures forall rest: seq<Request> :: rest != [] && rest[0] == q ==>
      Serve(db, rest[..1]) == if Update(db, q.key, q.command).Committed? then Update(db, q.key, q.command).value else db
  {
    forall rest: seq<Request> | rest != [] && rest[0] == q
      ensures Serve(db, rest[..1]) == if Update(db, q.key, q.command).Committed? then Update(db, q.key, q.command).value else db
    {
      var next := if Update(db, q.key, q.command).Committed? then Update(db, q.key, q.command).value else db;
      assert rest[..1][0] == q && rest[..1][1..] == [];
      assert Serve(next, []) == next;
    }
  }

  // ----- Exactly when the tables refuse an accepted command -----

  /** What the caller can get wrong that the aggregate does not look at. */
  predicate Unstorable(db: Database, c: Command) {
    match c
    case StartRepair(budget, _, _, _) => ToInterval(budget.maxWallClock) == 0
    case RecordRun(_, r) => r.runId in RunIds(db)
    case RecordOutcome(_, o, _) => !StorableUsage(o.usage)
    case Close(cl) => cl.deliveryId !in db.deliveries || cl.deliveryId in Closers(db)
    case _ => false
  }

  /** A change set that adds at most one fact and one log entry, and whose
      summary the tables take unless it closes with a bad delivery. */
  ghost predicate SummaryFits(t: BumpRows, ch: Changes) {
    && (ch.abandonment.Some? ==> t.abandonment.None? && ch.abandonment.value.reason != AbandonUnset && ch.abandonment.value.detail != "")
    && (ch.closure.Some? ==> t.closure.None? && ch.closure.value.kind != ClosureUnset)
    && (forall i | 0 <= i < |ch.transitions| :: ch.transitions[i].from != ch.transitions[i].to)
    && ValidSha(ch.headSha)
  }

  lemma SummaryIsWritten(t: BumpRows, ch: Changes, s: Surroundings)
    requires SummaryFits(t, ch)
    ensures WriteSummary(t, ch, s).None? <==>
      ch.closure.Some? && (ch.closure.value.deliveryId !in s.deliveries || ch.closure.value.deliveryId in s.closers)
  {}

  /** Nothing is abandoned twice, and only a close closes. */
  lemma TracksEndings(t: Tracked, c: Command)
    requires Step(t, c).Ok? && t.changes.abandonment.None? && t.changes.closure.None?
    ensures var ch := Step(t, c).value.changes;
      && (ch.abandonment.Some? ==> t.bump.state !in {Abandoned, Closed})
      && ch.closure == (if c.Close? then Some(c.closure) else None)
      && (c.Close? ==> t.bump.state != Closed && c.closure.kind != ClosureUnset)
  {}

  /** The entries a change set adds to a log of listed transitions. */
  lemma NewEntriesMove(before: seq<BumpTransition>, added: seq<BumpTransition>)
    requires LogOk(before + added)
    ensures forall i | 0 <= i < |added| :: added[i].from != added[i].to
  {
    forall i | 0 <= i < |added| ensures added[i].from != added[i].to {
      assert (before + added)[|before| + i] == added[i];
    }
  }

  lemma ReplayedSummaryFits(key: BumpKey, t: BumpRows, u: Tracked, maxRounds: int)
    requires u.bump == Patch(Load(key, t), u.changes) && Inv(u.bump, maxRounds)
    requires u.changes.abandonment.Some? ==> t.abandonment.None?
    requires u.changes.closure.Some? ==> t.closure.None? && u.changes.closure.value.kind != ClosureUnset
    ensures SummaryFits(t, u.changes)
  {
    NewEntriesMove(t.transitions, u.changes.transitions);
  }

  lemma StepSummaryFits(key: BumpKey, t: BumpRows, c: Command, maxRounds: int)
    requires BumpOk(key, t, maxRounds) && CapExactly(c, maxRounds) && Step(Clean(Load(key, t)), c).Ok?
    ensures var ch := Step(Clean(Load(key, t)), c).value.changes;
      SummaryFits(t, ch) && (ch.closure == if c.Close? then Some(c.closure) else None)
  {
    var b := Load(key, t);
    StepKeepsInv(Clean(b), c, maxRounds);
    CommandReplays(key, t, c, maxRounds);
    TracksEndings(Clean(b), c);
    ReplayedSummaryFits(key, t, Step(Clean(b), c).value, maxRounds);
  }

  // A change set with one fact, or none, and what its insert hinges on.

  ghost predicate Only(ch: Changes, verdicts: seq<CheckVerdict>, rounds: seq<RepairAttempt>, runs: map<nat, Run>, outcomes: map<nat, RepairOutcome>) {
    ch.verdicts == verdicts && ch.attempts == rounds && ch.runs == runs && ch.outcomes == outcomes
  }

  lemma OneVerdict(t: BumpRows, ch: Changes, v: CheckVerdict, runIds: set<string>, id: Id)
    requires Only(ch, [v], [], map[], map[])
    ensures WriteFacts(t, ch, runIds, id).None? <==> InsertVerdict(t, v, id).None?
  {
    if InsertVerdict(t, v, id).Some? {
      assert InsertVerdicts(InsertVerdict(t, v, id).value, [v][1..], id + 1) == InsertVerdict(t, v, id);
    }
    assert InsertRounds(t, [], id) == Some(t);
  }

  lemma OneRound(t: BumpRows, ch: Changes, a: RepairAttempt, runIds: set<string>, id: Id)
    requires Only(ch, [], [a], map[], map[])
    ensures WriteFacts(t, ch, runIds, id).None? <==> InsertRound(t, a, id).None?
  {
    if InsertRound(t, a, id).Some? {
      assert InsertRounds(InsertRound(t, a, id).value, [a][1..], id + 1) == InsertRound(t, a, id);
    }
  }

  lemma OneRun(t: BumpRows, ch: Changes, k: nat, r: Run, runIds: set<string>, id: Id)
    requires Only(ch, [], [], map[k := r], map[])
    ensures WriteFacts(t, ch, runIds, id).None? <==> !RunInsertable(t, k, r, runIds)
  {
    assert ch.runs[k] == r;
  }

  lemma OneOutcome(t: BumpRows, ch: Changes, k: nat, o: RepairOutcome, runIds: set<string>, id: Id)
    requires Only(ch, [], [], map[], map[k := o])
    ensures WriteFacts(t, ch, runIds, id).None? <==> !OutcomeInsertable(t, k, o)
  {
    assert ch.outcomes[k] == o;
  }

  /** A head the loaded bump has no verdict for has no row either. */
  lemma NoRowForHead(t: BumpRows, sha: Sha)
    requires FindVerdict(SortVerdicts(t.verdicts), sha).None?
    ensures forall i | 0 <= i < |t.verdicts| :: t.verdicts[i].headSha != sha
  {
    FindVerdictFinds(SortVerdicts(t.verdicts), sha);
    SortVerdictsPermutes(t.verdicts);
    forall i | 0 <= i < |t.verdicts| ensures t.verdicts[i].headSha != sha {
      assert t.verdicts[i] in multiset(t.verdicts);
      assert t.verdicts[i] in SortVerdicts(t.verdicts);
    }
  }

  lemma VerdictIsWritten(key: BumpKey, t: BumpRows, v: CheckVerdict, cap: int, runIds: set<string>, id: Id)
    requires StepVerdict(Clean(Load(key, t)), v, cap).Ok?
    ensures WriteFacts(t, StepVerdict(Clean(Load(key, t)), v, cap).value.changes, runIds, id).Some?
  {
    NoRowForHead(t, v.headSha);
    OneVerdict(t, StepVerdict(Clean(Load(key, t)), v, cap).value.changes, v, runIds, id);
  }

  lemma RoundIsInsertable(t: BumpRows, a: RepairAttempt, id: Id)
    requires RoundRowsOk(t) && a.round == |t.repairs| + 1 && ValidSha(a.baseSha) && a.budget.maxTurns != 0 && a.brief != ""
    ensures InsertRound(t, a, id).None? <==> ToInterval(a.budget.maxWallClock) == 0
  {}

  lemma StartIsWritten(key: BumpKey, t: BumpRows, budget: Budget, brief: string, at: Time, cap: int, runIds: set<string>, id: Id)
    requires RoundRowsOk(t) && ValidSha(t.row.headSha) && StepStart(Clean(Load(key, t)), budget, brief, at, cap).Ok?
    ensures WriteFacts(t, StepStart(Clean(Load(key, t)), budget, brief, at, cap).value.changes, runIds, id).None? <==>
      ToInterval(budget.maxWallClock) == 0
  {
    var a := NextRound(Load(key, t), budget, brief, at);
    SortRoundsIsIdentity(t.repairs, 1);
    RoundIsInsertable(t, a, id);
    OneRound(t, StepStart(Clean(Load(key, t)), budget, brief, at, cap).value.changes, a, runIds, id);
  }

  lemma OpenRoundHasRow(key: BumpKey, t: BumpRows)
    requires RoundRowsOk(t) && FirstOpen(Load(key, t).attempts) < |Load(key, t).attempts|
    ensures var a := Load(key, t).attempts[FirstOpen(Load(key, t).attempts)];
      HasRound(t, a.round) && a.round !in t.outcomes.common && (a.run.None? ==> a.round !in t.runs)
  {
    SortRoundsIsIdentity(t.repairs, 1);
    var i := FirstOpen(Load(key, t).attempts);
    assert t.repairs[i].round == Load(key, t).attempts[i].round;
  }

  lemma RunIsWritten(key: BumpKey, t: BumpRows, attemptId: Id, r: Run, runIds: set<string>, id: Id)
    requires RoundRowsOk(t) && StepRun(Clean(Load(key, t)), attemptId, r).Ok?
    ensures WriteFacts(t, StepRun(Clean(Load(key, t)), attemptId, r).value.changes, runIds, id).None? <==> r.runId in runIds
  {
    var b := Load(key, t);
    OpenRoundHasRow(key, t);
    OneRun(t, StepRun(Clean(b), attemptId, r).value.changes, b.attempts[FirstOpen(b.attempts)].round, r, runIds, id);
  }

  /** Whatever an outcome sets off, the one fact it adds is itself. */
  lemma OutcomeIsOnlyChange(b: Bump, attemptId: Id, o: RepairOutcome, cap: int)
    requires StepOutcome(Clean(b), attemptId, o, cap).Ok?
    ensures ValidOutcome(o) && FirstOpen(b.attempts) < |b.attempts|
    ensures Only(StepOutcome(Clean(b), attemptId, o, cap).value.changes, [], [], map[], map[b.attempts[FirstOpen(b.attempts)].round := o])
  {}

  lemma OutcomeIsWritten(key: BumpKey, t: BumpRows, attemptId: Id, o: RepairOutcome, cap: int, runIds: set<string>, id: Id)
    requires RoundRowsOk(t) && StepOutcome(Clean(Load(key, t)), attemptId, o, cap).Ok?
    ensures WriteFacts(t, StepOutcome(Clean(Load(key, t)), attemptId, o, cap).value.changes, runIds, id).None? <==> !StorableUsage(o.usage)
  {
    var b := Load(key, t);
    OpenRoundHasRow(key, t);
    OutcomeIsOnlyChange(b, attemptId, o, cap);
    OneOutcome(t, StepOutcome(Clean(b), attemptId, o, cap).value.changes, b.attempts[FirstOpen(b.attempts)].round, o, runIds, id);
  }

  lemma NothingIsWritten(key: BumpKey, t: BumpRows, c: Command, runIds: set<string>, id: Id)
    requires c.AdvanceHead? || c.Abandon? || c.Retry? || c.Close?
    requires Step(Clean(Load(key, t)), c).Ok?
    ensures WriteFacts(t, Step(Clean(Load(key, t)), c).value.changes, runIds, id).Some?
  {
    var ch := Step(Clean(Load(key, t)), c).value.changes;
    assert ch.verdicts == [] && ch.attempts == [] && ch.runs == map[] && ch.outcomes == map[];
  }

  lemma FactsAreWritten(db: Database, key: BumpKey, c: Command, maxRounds: int)
    requires DatabaseOk(db, maxRounds) && key in db.bumps && Step(Clean(Load(key, db.bumps[key])), c).Ok?
    ensures WriteFacts(db.bumps[key], Step(Clean(Load(key, db.bumps[key])), c).value.changes, RunIds(db), db.nextId).None? <==>
      Unstorable(db, c) && !c.Close?
  {
    var t := db.bumps[key];
    match c
    case RecordVerdict(v, cap) => VerdictIsWritten(key, t, v, cap, RunIds(db), db.nextId);
    case StartRepair(budget, brief, at, cap) => StartIsWritten(key, t, budget, brief, at, cap, RunIds(db), db.nextId);
    case RecordRun(attemptId, r) => RunIsWritten(key, t, attemptId, r, RunIds(db), db.nextId);
    case RecordOutcome(attemptId, o, cap) => OutcomeIsWritten(key, t, attemptId, o, cap, RunIds(db), db.nextId);
    case _ => NothingIsWritten(key, t, c, RunIds(db), db.nextId);
  }

  /** A command the aggregate accepts is refused by the tables exactly when it
      is unstorable: no verdict, round, run, outcome, abandonment, closure or
      log row of the bump itself ever collides. */
  lemma RefusedExactlyWhenUnstorable(db: Database, key: BumpKey, c: Command, maxRounds: int)
    requires DatabaseOk(db, maxRounds) && CapExactly(c, maxRounds) && key in db.bumps
    requires Step(Clean(Load(key, db.bumps[key])), c).Ok?
    ensures Write(db.bumps[key], Step(Clean(Load(key, db.bumps[key])), c).value.changes, SurroundingsOf(db), db.nextId).None? <==> Unstorable(db, c)
  {
    var t := db.bumps[key];
    var ch := Step(Clean(Load(key, t)), c).value.changes;
    FactsAreWritten(db, key, c, maxRounds);
    StepSummaryFits(key, t, c, maxRounds);
    WrittenFactsKeepSummary(t, ch, SurroundingsOf(db), db.nextId);
  }

  /** The error an update ends with, if any: an unknown key, the aggregate's own
      refusal, or a conflict for an unstorable command. The bump always loads,
      before and after. */
  lemma UpdateFailsExactlyWhen(db: Database, key: BumpKey, c: Command, maxRounds: int)
    requires DatabaseOk(db, maxRounds) && CapExactly(c, maxRounds)
    ensures Update(db, key, c) == RolledBack(NotFound) <==> key !in db.bumps
    ensures key in db.bumps ==>
      var step := Step(Clean(Load(key, db.bumps[key])), c);
      && (step.Err? ==> Update(db, key, c) == RolledBack(Domain(step.error)))
      && (step.Ok? && Unstorable(db, c) ==> Update(db, key, c) == RolledBack(Constraint))
      && (step.Ok? && !Unstorable(db, c) ==> Update(db, key, c).Committed?)
  {
    if key in db.bumps {
      LoadNeverRejects(db, key, maxRounds);
      var step := Step(Clean(Load(key, db.bumps[key])), c);
      if step.Ok? {
        RefusedExactlyWhenUnstorable(db, key, c, maxRounds);
        CommitFailsExactlyWhen(db, key, c, maxRounds);
      }
    }
  }

  lemma CommitFailsExactlyWhen(db: Database, key: BumpKey, c: Command, maxRounds: int)
    requires DatabaseOk(db, maxRounds) && CapExactly(c, maxRounds) && key in db.bumps
    requires Step(Clean(Load(key, db.bumps[key])), c).Ok?
    ensures var ch := Step(Clean(Load(key, db.bumps[key])), c).value.changes;
      if Write(db.bumps[key], ch, SurroundingsOf(db), db.nextId).None? then Commit(db, key, ch) == RolledBack(Constraint)
      else Commit(db, key, ch).Committed?
  {
    var t := db.bumps[key];
    var w := Write(t, Step(Clean(Load(key, t)), c).value.changes, SurroundingsOf(db), db.nextId);
    if w.Some? {
      WrittenIsOk(key, t, c, SurroundingsOf(db), db.nextId, maxRounds);
      Aggregate.InvIsLoadable(Load(key, w.value), maxRounds);
    }
  }

  lemma WrittenFactsKeepSummary(t: BumpRows, ch: Changes, s: Surroundings, id: Id)
    requires SummaryFits(t, ch) && VerdictsOk(t.verdicts)
    ensures Write(t, ch, s, id).None? <==>
      || WriteFacts(t, ch, s.runIds, id).None?
      || (ch.closure.Some? && (ch.closure.value.deliveryId !in s.deliveries || ch.closure.value.deliveryId in s.closers))
  {
    if WriteFacts(t, ch, s.runIds, id).Some? {
      FactsGrow(t, ch, s.runIds, id);
      SummaryIsWritten(WriteFacts(t, ch, s.runIds, id).value, ch, s);
    }
  }
}
