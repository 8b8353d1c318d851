/** The tables a bump is kept in, the inserts a change set turns into with the
    constraints each must pass, and the load that assembles the bump again.

    Rows are grouped by bump, and the tables keyed by a round's surrogate id are
    keyed here by the round number that id stands for. */
module BumpTables {
  import opened Kernel
  import opened UpkeepFacts
  import opened BumpModel
  import opened BumpInvariant
  import opened BumpChanges

  // ----- Rows -----

  /** `bump_repairs`; its checks keep every limit positive. */
  datatype RepairColumns = RepairColumns(
    id: Id, round: nat, baseSha: Sha, maxTurns: int, maxWallMicros: int, maxDiffLines: int, brief: string, startedAt: Time)

  predicate RepairChecks(r: RepairColumns) {
    r.round >= 1 && ValidSha(r.baseSha) && r.maxTurns > 0 && r.maxWallMicros > 0 && r.maxDiffLines > 0 && r.brief != ""
  }

  type RepairRow = r: RepairColumns | RepairChecks(r)
    witness RepairColumns(1, 1, seq(40, _ => '0'), 1, 1, 1, "b", 0)

  /** `bump_repair_outcomes`, the columns every kind has. */
  datatype OutcomeRow = OutcomeRow(
    kind: RepairOutcomeKind, endedAt: Time, turns: int, inputTokens: int, outputTokens: int,
    wallMicros: int, diffLines: int, summary: string)

  /** The outcome tables: the common rows and one table per variant. */
  datatype OutcomeTables = OutcomeTables(
    common: map<nat, OutcomeRow>,
    pushes: map<nat, Sha>,
    exhaustions: map<nat, Limit>,
    failures: map<nat, (FailureClass, string)>,
    aborts: map<nat, RepairAbortReason>)

  /** `bumps`; the natural key is the key the rows are stored under. */
  datatype BumpRow = BumpRow(id: Id, branch: string, baseBranch: string, openedAt: Time, headSha: Sha, state: BumpState)

  datatype BumpRows = BumpRows(
    row: BumpRow,
    verdicts: seq<CheckVerdict>,
    repairs: seq<RepairRow>,
    runs: map<nat, Run>,
    outcomes: OutcomeTables,
    abandonment: Option<BumpAbandonment>,
    closure: Option<BumpClosure>,
    transitions: seq<BumpTransition>)

  // ----- What the columns keep of each fact -----

  function StoredVerdict(v: CheckVerdict, id: Id): CheckVerdict {
    v.(id := id, concludedAt := StoredTime(v.concludedAt))
  }

  function StoredBudget(b: Budget): Budget
    requires StorableBudget(b)
  {
    BudgetLimits(b.maxTurns, StoredDuration(b.maxWallClock), b.maxDiffLines)
  }

  /** The outcome with the fields its kind does not use left empty. */
  function StoredOutcome(o: RepairOutcome): RepairOutcome {
    RepairOutcome(
      o.kind, StoredTime(o.endedAt), StoredUsage(o.usage), o.summary,
      if o.kind == Pushed then o.headSha else "",
      if o.kind == BudgetExhausted then o.limit else LimitUnset,
      if o.kind == RepairFailed then o.failureClass else FailureUnset,
      if o.kind == RepairFailed then o.message else "",
      if o.kind == RepairAborted then o.reason else AbortUnset)
  }

  function StoredTransition(tr: BumpTransition): BumpTransition {
    tr.(occurredAt := StoredTime(tr.occurredAt))
  }

  function StoredAbandonment(a: BumpAbandonment): BumpAbandonment {
    a.(abandonedAt := StoredTime(a.abandonedAt))
  }

  function StoredClosure(cl: BumpClosure): BumpClosure {
    cl.(closedAt := StoredTime(cl.closedAt))
  }

  // ----- Loading -----

  /** `order by concluded_at, id` */
  predicate VerdictBefore(v: CheckVerdict, w: CheckVerdict) {
    v.concludedAt < w.concludedAt || (v.concludedAt == w.concludedAt && v.id <= w.id)
  }

  function InsertVerdictInOrder(v: CheckVerdict, sorted: seq<CheckVerdict>): seq<CheckVerdict> {
    if sorted == [] || VerdictBefore(v, sorted[0]) then [v] + sorted
    else [sorted[0]] + InsertVerdictInOrder(v, sorted[1..])
  }

  function SortVerdicts(rows: seq<CheckVerdict>): seq<CheckVerdict> {
    if rows == [] then [] else InsertVerdictInOrder(rows[0], SortVerdicts(rows[1..]))
  }

  /** `order by round` */
  function InsertRoundInOrder(r: RepairRow, sorted: seq<RepairRow>): seq<RepairRow> {
    if sorted == [] || r.round <= sorted[0].round then [r] + sorted
    else [sorted[0]] + InsertRoundInOrder(r, sorted[1..])
  }

  function SortRounds(rows: seq<RepairRow>): seq<RepairRow> {
    if rows == [] then [] else InsertRoundInOrder(rows[0], SortRounds(rows[1..]))
  }

  /** One outcome assembled from its common row and the left-joined variants. */
  function LoadOutcome(t: OutcomeTables, round: nat): Option<RepairOutcome> {
    if round !in t.common then None
    else
      var o := t.common[round];
      Some(RepairOutcome(
        o.kind, o.endedAt,
        Usage(o.turns, o.inputTokens, o.outputTokens, FromInterval(o.wallMicros), o.diffLines),
        o.summary,
        if round in t.pushes then t.pushes[round] else "",
        if round in t.exhaustions then t.exhaustions[round] else LimitUnset,
        if round in t.failures then t.failures[round].0 else FailureUnset,
        if round in t.failures then t.failures[round].1 else "",
        if round in t.aborts then t.aborts[round] else AbortUnset))
  }

  function LoadBudget(r: RepairRow): Budget {
    NewBudget(r.maxTurns, FromInterval(r.maxWallMicros), r.maxDiffLines).value
  }

  function LoadRound(t: BumpRows, r: RepairRow): RepairAttempt {
    RepairAttempt(
      r.id, r.round, r.baseSha, LoadBudget(r), r.brief, r.startedAt,
      if r.round in t.runs then Some(t.runs[r.round]) else None,
      LoadOutcome(t.outcomes, r.round))
  }

  function LoadRounds(t: BumpRows, rows: seq<RepairRow>): (rounds: seq<RepairAttempt>)
    ensures |rounds| == |rows|
  {
    seq(|rows|, i requires 0 <= i < |rows| => LoadRound(t, rows[i]))
  }

  /** The snapshot a bump is rebuilt from. */
  function Load(key: BumpKey, t: BumpRows): Bump {
    Bump(t.row.id, key, t.row.branch, t.row.baseBranch, t.row.openedAt, t.row.headSha, t.row.state,
         SortVerdicts(t.verdicts), LoadRounds(t, SortRounds(t.repairs)), t.transitions, t.abandonment, t.closure)
  }

  // ----- Inserts -----

  function InsertVerdict(t: BumpRows, v: CheckVerdict, id: Id): Option<BumpRows> {
    if (exists i | 0 <= i < |t.verdicts| :: t.verdicts[i].headSha == v.headSha) || !ValidVerdict(v) then None
    else Some(t.(verdicts := t.verdicts + [StoredVerdict(v, id)]))
  }

  function InsertVerdicts(t: BumpRows, vs: seq<CheckVerdict>, id: Id): Option<BumpRows>
    decreases |vs|
  {
    if vs == [] then Some(t)
    else
      match InsertVerdict(t, vs[0], id)
      case None => None
      case Some(u) => InsertVerdicts(u, vs[1..], id + 1)
  }

  predicate HasRound(t: BumpRows, round: nat) {
    exists i | 0 <= i < |t.repairs| :: t.repairs[i].round == round
  }

  function RowOf(a: RepairAttempt, id: Id): RepairColumns {
    RepairColumns(id, a.round, a.baseSha, a.budget.maxTurns, ToInterval(a.budget.maxWallClock), a.budget.maxDiffLines, a.brief, StoredTime(a.startedAt))
  }

  function InsertRound(t: BumpRows, a: RepairAttempt, id: Id): Option<BumpRows> {
    if HasRound(t, a.round) || !RepairChecks(RowOf(a, id)) then None
    else Some(t.(repairs := t.repairs + [RowOf(a, id)]))
  }

  function InsertRounds(t: BumpRows, rounds: seq<RepairAttempt>, id: Id): Option<BumpRows>
    decreases |rounds|
  {
    if rounds == [] then Some(t)
    else
      match InsertRound(t, rounds[0], id)
      case None => None
      case Some(u) => InsertRounds(u, rounds[1..], id + 1)
  }

  /** A run row needs its round, none there yet, and a run id no row holds. */
  predicate RunInsertable(t: BumpRows, round: nat, r: Run, taken: set<string>) {
    HasRound(t, round) && round !in t.runs && r.model != "" && ValidSha(r.baseSha) && r.runId !in taken
  }

  predicate RunsInsertable(t: BumpRows, runs: map<nat, Run>, taken: set<string>) {
    && (forall k | k in runs :: RunInsertable(t, k, runs[k], taken))
    && (forall j, k | j in runs && k in runs && j != k :: runs[j].runId != runs[k].runId)
  }

  function RunRows(runs: map<nat, Run>): (r: map<nat, Run>)
    ensures forall k :: k in r <==> k in runs
    ensures forall k | k in r :: r[k] == StoredRun(runs[k])
  {
    Select(runs, _ => true, StoredRun)
  }

  function PutRuns(t: map<nat, Run>, runs: map<nat, Run>): map<nat, Run> {
    t + RunRows(runs)
  }

  /** The common row and the variant row the kind calls for. */
  predicate OutcomeInsertable(t: BumpRows, round: nat, o: RepairOutcome) {
    HasRound(t, round) && round !in t.outcomes.common && ValidOutcome(o) && StorableUsage(o.usage)
  }

  predicate OutcomesInsertable(t: BumpRows, os: map<nat, RepairOutcome>) {
    forall k | k in os :: OutcomeInsertable(t, k, os[k])
  }

  function OutcomeRowOf(o: RepairOutcome): OutcomeRow {
    OutcomeRow(o.kind, StoredTime(o.endedAt), o.usage.turns, o.usage.inputTokens, o.usage.outputTokens,
               ToInterval(o.usage.wallClock), o.usage.diffLines, o.summary)
  }

  function OutcomeRows(os: map<nat, RepairOutcome>): (r: map<nat, OutcomeRow>)
    ensures forall k :: k in r <==> k in os
    ensures forall k | k in r :: r[k] == OutcomeRowOf(os[k])
  {
    Select(os, _ => true, OutcomeRowOf)
  }

  function PushRows(os: map<nat, RepairOutcome>): (r: map<nat, Sha>)
    ensures forall k :: k in r <==> k in os && os[k].kind == Pushed
    ensures forall k | k in r :: r[k] == os[k].headSha
  {
    Select(os, (o: RepairOutcome) => o.kind == Pushed, (o: RepairOutcome) => o.headSha)
  }

  function ExhaustionRows(os: map<nat, RepairOutcome>): (r: map<nat, Limit>)
    ensures forall k :: k in r <==> k in os && os[k].kind == BudgetExhausted
    ensures forall k | k in r :: r[k] == os[k].limit
  {
    Select(os, (o: RepairOutcome) => o.kind == BudgetExhausted, (o: RepairOutcome) => o.limit)
  }

  function FailureRows(os: map<nat, RepairOutcome>): (r: map<nat, (FailureClass, string)>)
    ensures forall k :: k in r <==> k in os && os[k].kind == RepairFailed
    ensures forall k | k in r :: r[k] == (os[k].failureClass, os[k].message)
  {
    Select(os, (o: RepairOutcome) => o.kind == RepairFailed, (o: RepairOutcome) => (o.failureClass, o.message))
  }

  function AbortRows(os: map<nat, RepairOutcome>): (r: map<nat, RepairAbortReason>)
    ensures forall k :: k in r <==> k in os && os[k].kind == RepairAborted
    ensures forall k | k in r :: r[k] == os[k].reason
  {
    Select(os, (o: RepairOutcome) => o.kind == RepairAborted, (o: RepairOutcome) => o.reason)
  }

  function PutOutcomes(t: OutcomeTables, os: map<nat, RepairOutcome>): OutcomeTables {
    OutcomeTables(
      t.common + OutcomeRows(os),
      t.pushes + PushRows(os),
      t.exhaustions + ExhaustionRows(os),
      t.failures + FailureRows(os),
      t.aborts + AbortRows(os))
  }

  function WriteAbandonment(t: BumpRows, drop: bool, a: Option<BumpAbandonment>): Option<BumpRows> {
    var u := if drop then t.(abandonment := None) else t;
    if a.None? then Some(u)
    else if u.abandonment.Some? || a.value.reason == AbandonUnset || a.value.detail == "" then None
    else Some(u.(abandonment := Some(StoredAbandonment(a.value))))
  }

  /** The delivery must exist and close nothing else. */
  function WriteClosure(t: BumpRows, cl: Option<BumpClosure>, deliveries: set<string>, closers: set<string>): Option<BumpRows> {
    if cl.None? then Some(t)
    else if t.closure.Some? || cl.value.kind == ClosureUnset || cl.value.deliveryId !in deliveries || cl.value.deliveryId in closers then None
    else Some(t.(closure := Some(StoredClosure(cl.value))))
  }

  function StoredTransitions(trs: seq<BumpTransition>): (r: seq<BumpTransition>)
    ensures |r| == |trs|
  {
    seq(|trs|, i requires 0 <= i < |trs| => StoredTransition(trs[i]))
  }

  function WriteTransitions(t: BumpRows, trs: seq<BumpTransition>): Option<BumpRows> {
    if exists i | 0 <= i < |trs| :: trs[i].from == trs[i].to then None
    else Some(t.(transitions := t.transitions + StoredTransitions(trs)))
  }

  /** What the rest of the database contributes to a write: the run ids and
      closing deliveries already taken, and the deliveries there are. */
  datatype Surroundings = Surroundings(runIds: set<string>, closers: set<string>, deliveries: set<string>)

  /** New verdicts, rounds, runs and outcomes. New rows take ids from `id` upwards. */
  function WriteFacts(t: BumpRows, ch: Changes, runIds: set<string>, id: Id): Option<BumpRows> {
    match InsertVerdicts(t, ch.verdicts, id)
    case None => None
    case Some(t1) =>
      match InsertRounds(t1, ch.attempts, id + |ch.verdicts|)
      case None => None
      case Some(t2) =>
        if !RunsInsertable(t2, ch.runs, runIds) then None
        else if !OutcomesInsertable(t2, ch.outcomes) then None
        else Some(t2.(runs := PutRuns(t2.runs, ch.runs), outcomes := PutOutcomes(t2.outcomes, ch.outcomes)))
  }

  /** The abandonment, the closure, the log, and the bump's own row. */
  function WriteSummary(t: BumpRows, ch: Changes, s: Surroundings): Option<BumpRows> {
    match WriteAbandonment(t, ch.dropAbandon, ch.abandonment)
    case None => None
    case Some(t1) =>
      match WriteClosure(t1, ch.closure, s.deliveries, s.closers)
      case None => None
      case Some(t2) =>
        match WriteTransitions(t2, ch.transitions)
        case None => None
        case Some(t3) => if !ValidSha(ch.headSha) then None else Some(t3.(row := t3.row.(state := ch.state, headSha := ch.headSha)))
  }

  /** The whole write of a change set, or None when some insert is refused and
      the transaction rolls back. */
  function Write(t: BumpRows, ch: Changes, s: Surroundings, id: Id): Option<BumpRows> {
    match WriteFacts(t, ch, s.runIds, id)
    case None => None
    case Some(u) => WriteSummary(u, ch, s)
  }
}
