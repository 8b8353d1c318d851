/** The tables a case is kept in, the inserts a change set turns into with the
    constraints each must pass, and the load that assembles the case again.

    Rows are grouped by case, an approval's delivery is kept with the approval,
    and tables keyed by an attempt's surrogate id are keyed by its ordinal. */
module CaseTables {
  import opened Kernel
  import opened CaseFacts
  import opened CaseModel

  // ----- Rows -----

  datatype AttemptColumns = AttemptColumns(
    id: Id, ordinal: nat, kind: AttemptKind, maxTurns: int, maxWallMicros: int, maxDiffLines: int, brief: string, startedAt: Time)

  predicate AttemptChecks(r: AttemptColumns) {
    r.ordinal >= 1 && r.kind != KindUnset && r.maxTurns > 0 && r.maxWallMicros > 0 && r.maxDiffLines > 0 && r.brief != ""
  }

  type AttemptRow = r: AttemptColumns | AttemptChecks(r) witness AttemptColumns(1, 1, Auto, 1, 1, 1, "b", 0)

  datatype OutcomeRow = OutcomeRow(
    kind: OutcomeKind, endedAt: Time, turns: int, inputTokens: int, outputTokens: int,
    wallMicros: int, diffLines: int, summary: string)

  /** An exhaustion's two pull request columns are null together. */
  datatype OutcomeTables = OutcomeTables(
    common: map<nat, OutcomeRow>,
    pullRequests: map<nat, (int, Sha)>,
    exhaustions: map<nat, (Limit, Option<(int, Sha)>)>,
    failures: map<nat, (FailureClass, string)>,
    aborts: map<nat, AbortReason>)

  datatype CaseRow = CaseRow(id: Id, requester: Requester, receivedAt: Time, state: CaseState)

  datatype CaseRows = CaseRows(
    row: CaseRow,
    triage: Option<Triage>,
    approvals: seq<Approval>,
    attempts: seq<AttemptRow>,
    runs: map<nat, Run>,
    outcomes: OutcomeTables,
    closure: Option<Closure>,
    transitions: seq<Transition>)

  // ----- What the columns keep of each fact -----

  function StoredTriage(v: Triage): Triage {
    v.(triagedAt := StoredTime(v.triagedAt))
  }

  function StoredApproval(a: Approval, id: Id): Approval {
    a.(id := id, approvedAt := StoredTime(a.approvedAt), deliveryId := if a.source == SourceLabel then a.deliveryId else "")
  }

  function StoredBudget(b: Budget): Budget
    requires StorableBudget(b)
  {
    BudgetLimits(b.maxTurns, StoredDuration(b.maxWallClock), b.maxDiffLines)
  }

  /** The pull request columns of an exhaustion: both null when it has none. */
  function NullablePR(o: Outcome): Option<(int, Sha)> {
    if o.prNumber == 0 then None else Some((o.prNumber, o.headSha))
  }

  function StoredOutcome(o: Outcome): Outcome {
    var pr := o.kind == PullRequestOpened || (o.kind == BudgetExhausted && o.prNumber != 0);
    Outcome(
      o.kind, StoredTime(o.endedAt), StoredUsage(o.usage), o.summary,
      if pr then o.prNumber else 0,
      if pr then o.headSha else "",
      if o.kind == BudgetExhausted then o.limit else LimitUnset,
      if o.kind == FailedOutcome then o.failureClass else FailureUnset,
      if o.kind == FailedOutcome then o.message else "",
      if o.kind == Aborted then o.reason else AbortUnset)
  }

  function StoredTransition(tr: Transition): Transition {
    tr.(occurredAt := StoredTime(tr.occurredAt))
  }

  function StoredClosure(cl: Closure): Closure {
    cl.(closedAt := StoredTime(cl.closedAt))
  }

  // ----- Loading -----

  /** `order by approved_at, id` */
  predicate ApprovalBefore(a: Approval, b: Approval) {
    a.approvedAt < b.approvedAt || (a.approvedAt == b.approvedAt && a.id <= b.id)
  }

  function InsertInOrder(a: Approval, sorted: seq<Approval>): seq<Approval> {
    if sorted == [] || ApprovalBefore(a, sorted[0]) then [a] + sorted
    else [sorted[0]] + InsertInOrder(a, sorted[1..])
  }

  function SortApprovals(rows: seq<Approval>): seq<Approval> {
    if rows == [] then [] else InsertInOrder(rows[0], SortApprovals(rows[1..]))
  }

  /** `order by ordinal` */
  function InsertAttemptInOrder(r: AttemptRow, sorted: seq<AttemptRow>): seq<AttemptRow> {
    if sorted == [] || r.ordinal <= sorted[0].ordinal then [r] + sorted
    else [sorted[0]] + InsertAttemptInOrder(r, sorted[1..])
  }

  function SortAttempts(rows: seq<AttemptRow>): seq<AttemptRow> {
    if rows == [] then [] else InsertAttemptInOrder(rows[0], SortAttempts(rows[1..]))
  }

  /** One outcome from its common row and the left-joined variants; the pull
      request comes from its own table or from the exhaustion. */
  function LoadOutcome(t: OutcomeTables, k: nat): Option<Outcome> {
    if k !in t.common then None
    else
      var o := t.common[k];
      var pr :=
        if k in t.pullRequests then t.pullRequests[k]
        else if k in t.exhaustions && t.exhaustions[k].1.Some? then t.exhaustions[k].1.value
        else (0, "");
      Some(Outcome(
        o.kind, o.endedAt,
        Usage(o.turns, o.inputTokens, o.outputTokens, FromInterval(o.wallMicros), o.diffLines),
        o.summary, pr.0, pr.1,
        if k in t.exhaustions then t.exhaustions[k].0 else LimitUnset,
        if k in t.failures then t.failures[k].0 else FailureUnset,
        if k in t.failures then t.failures[k].1 else "",
        if k in t.aborts then t.aborts[k] else AbortUnset))
  }

  function LoadBudget(r: AttemptRow): Budget {
    NewBudget(r.maxTurns, FromInterval(r.maxWallMicros), r.maxDiffLines).value
  }

  function LoadAttempt(t: CaseRows, r: AttemptRow): Attempt {
    Attempt(
      r.id, r.ordinal, r.kind, LoadBudget(r), r.brief, r.startedAt,
      if r.ordinal in t.runs then Some(t.runs[r.ordinal]) else None,
      LoadOutcome(t.outcomes, r.ordinal))
  }

  function LoadAttempts(t: CaseRows, rows: seq<AttemptRow>): (attempts: seq<Attempt>)
    ensures |attempts| == |rows|
  {
    seq(|rows|, i requires 0 <= i < |rows| => LoadAttempt(t, rows[i]))
  }

  function Load(key: CaseKey, t: CaseRows): Case {
    Case(t.row.id, key, t.row.requester, t.row.state, t.row.receivedAt, t.triage,
         SortApprovals(t.approvals), LoadAttempts(t, SortAttempts(t.attempts)), t.transitions, t.closure)
  }

  // ----- Inserts -----

  /** What the rest of the database contributes to a write. */
  datatype Surroundings = Surroundings(runIds: set<string>, approvers: set<string>, closers: set<string>, deliveries: set<string>)

  function InsertTriage(t: CaseRows, v: Triage): Option<CaseRows> {
    if t.triage.Some? || v.size == SizeUnset || v.rationale == "" || v.model == "" then None
    else Some(t.(triage := Some(StoredTriage(v))))
  }

  /** A label approval needs a known delivery that approves nothing else. */
  predicate ApprovalInsertable(a: Approval, taken: set<string>, deliveries: set<string>) {
    && a.approver.login != "" && a.approver.association != AssociationUnset && a.source != SourceUnset
    && (a.source == SourceLabel ==> a.deliveryId in deliveries && a.deliveryId !in taken)
  }

  function InsertApprovals(t: CaseRows, approvals: seq<Approval>, taken: set<string>, deliveries: set<string>, id: Id): Option<CaseRows>
    decreases |approvals|
  {
    if approvals == [] then Some(t)
    else
      var a := approvals[0];
      if !ApprovalInsertable(a, taken, deliveries) then None
      else
        InsertApprovals(
          t.(approvals := t.approvals + [StoredApproval(a, id)]), approvals[1..],
          if a.source == SourceLabel then taken + {a.deliveryId} else taken, deliveries, id + 1)
  }

  predicate HasAttempt(t: CaseRows, ordinal: nat) {
    exists i | 0 <= i < |t.attempts| :: t.attempts[i].ordinal == ordinal
  }

  function RowOf(a: Attempt, id: Id): AttemptColumns {
    AttemptColumns(id, a.ordinal, a.kind, a.budget.maxTurns, ToInterval(a.budget.maxWallClock), a.budget.maxDiffLines, a.brief, StoredTime(a.startedAt))
  }

  function InsertAttempt(t: CaseRows, a: Attempt, id: Id): Option<CaseRows> {
    if HasAttempt(t, a.ordinal) || !AttemptChecks(RowOf(a, id)) then None
    else Some(t.(attempts := t.attempts + [RowOf(a, id)]))
  }

  function InsertAttempts(t: CaseRows, attempts: seq<Attempt>, id: Id): Option<CaseRows>
    decreases |attempts|
  {
    if attempts == [] then Some(t)
    else
      match InsertAttempt(t, attempts[0], id)
      case None => None
      case Some(u) => InsertAttempts(u, attempts[1..], id + 1)
  }

  predicate RunInsertable(t: CaseRows, ordinal: nat, r: Run, taken: set<string>) {
    HasAttempt(t, ordinal) && ordinal !in t.runs && r.model != "" && ValidSha(r.baseSha) && r.runId !in taken
  }

  predicate RunsInsertable(t: CaseRows, runs: map<nat, Run>, taken: set<string>) {
    && (forall k | k in runs :: RunInsertable(t, k, runs[k], taken))
    && (forall j, k | j in runs && k in runs && j != k :: runs[j].runId != runs[k].runId)
  }

  function RunRows(runs: map<nat, Run>): (r: map<nat, Run>)
    ensures forall k :: k in r <==> k in runs
    ensures forall k | k in r :: r[k] == StoredRun(runs[k])
  {
    Select(runs, _ => true, StoredRun)
  }

  /** The variant row's own checks: unlike the aggregate, the tables look at the
      fields the kind makes meaningful. */
  predicate VariantChecks(o: Outcome) {
    match o.kind
    case PullRequestOpened => o.prNumber >= 1 && ValidSha(o.headSha)
    case BudgetExhausted => o.limit != LimitUnset && (o.prNumber != 0 ==> o.prNumber >= 1 && ValidSha(o.headSha))
    case FailedOutcome => o.failureClass != FailureUnset && o.message != ""
    case Aborted => o.reason != AbortUnset
    case OutcomeKindUnset => false
  }

  predicate OutcomeInsertable(t: CaseRows, k: nat, o: Outcome) {
    HasAttempt(t, k) && k !in t.outcomes.common && o.summary != "" && StorableUsage(o.usage) && VariantChecks(o)
  }

  predicate OutcomesInsertable(t: CaseRows, os: map<nat, Outcome>) {
    forall k | k in os :: OutcomeInsertable(t, k, os[k])
  }

  function OutcomeRowOf(o: Outcome): OutcomeRow {
    OutcomeRow(o.kind, StoredTime(o.endedAt), o.usage.turns, o.usage.inputTokens, o.usage.outputTokens,
               ToInterval(o.usage.wallClock), o.usage.diffLines, o.summary)
  }

  function OutcomeRows(os: map<nat, Outcome>): (r: map<nat, OutcomeRow>)
    ensures forall k :: k in r <==> k in os
    ensures forall k | k in r :: r[k] == OutcomeRowOf(os[k])
  {
    Select(os, _ => true, OutcomeRowOf)
  }

  function PullRequestRows(os: map<nat, Outcome>): (r: map<nat, (int, Sha)>)
    ensures forall k :: k in r <==> k in os && os[k].kind == PullRequestOpened
    ensures forall k | k in r :: r[k] == (os[k].prNumber, os[k].headSha)
  {
    Select(os, (o: Outcome) => o.kind == PullRequestOpened, (o: Outcome) => (o.prNumber, o.headSha))
  }

  function ExhaustionRows(os: map<nat, Outcome>): (r: map<nat, (Limit, Option<(int, Sha)>)>)
    ensures forall k :: k in r <==> k in os && os[k].kind == BudgetExhausted
    ensures forall k | k in r :: r[k] == (os[k].limit, NullablePR(os[k]))
  {
    Select(os, (o: Outcome) => o.kind == BudgetExhausted, (o: Outcome) => (o.limit, NullablePR(o)))
  }

  function FailureRows(os: map<nat, Outcome>): (r: map<nat, (FailureClass, string)>)
    ensures forall k :: k in r <==> k in os && os[k].kind == FailedOutcome
    ensures forall k | k in r :: r[k] == (os[k].failureClass, os[k].message)
  {
    Select(os, (o: Outcome) => o.kind == FailedOutcome, (o: Outcome) => (o.failureClass, o.message))
  }

  function AbortRows(os: map<nat, Outcome>): (r: map<nat, AbortReason>)
    ensures forall k :: k in r <==> k in os && os[k].kind == Aborted
    ensures forall k | k in r :: r[k] == os[k].reason
  {
    Select(os, (o: Outcome) => o.kind == Aborted, (o: Outcome) => o.reason)
  }

  function PutOutcomes(t: OutcomeTables, os: map<nat, Outcome>): OutcomeTables {
    OutcomeTables(
      t.common + OutcomeRows(os),
      t.pullRequests + PullRequestRows(os),
      t.exhaustions + ExhaustionRows(os),
      t.failures + FailureRows(os),
      t.aborts + AbortRows(os))
  }

  function StoredTransitions(trs: seq<Transition>): (r: seq<Transition>)
    ensures |r| == |trs|
  {
    seq(|trs|, i requires 0 <= i < |trs| => StoredTransition(trs[i]))
  }

  /** Triage and approvals, then attempts, runs and outcomes. */
  function WriteFacts(t: CaseRows, ch: Changes, s: Surroundings, id: Id): Option<CaseRows> {
    match if ch.triage.Some? then InsertTriage(t, ch.triage.value) else Some(t)
    case None => None
    case Some(t1) =>
      match InsertApprovals(t1, ch.approvals, s.approvers, s.deliveries, id)
      case None => None
      case Some(t2) =>
        match InsertAttempts(t2, ch.attempts, id + |ch.approvals|)
        case None => None
        case Some(t3) =>
          if !RunsInsertable(t3, ch.runs, s.runIds) then None
          else if !OutcomesInsertable(t3, ch.outcomes) then None
          else Some(t3.(runs := t3.runs + RunRows(ch.runs), outcomes := PutOutcomes(t3.outcomes, ch.outcomes)))
  }

  /** The closure, the log, and the case's own row. */
  function WriteSummary(t: CaseRows, ch: Changes, s: Surroundings): Option<CaseRows> {
    if ch.closure.Some? && (t.closure.Some? || ch.closure.value.deliveryId !in s.deliveries || ch.closure.value.deliveryId in s.closers) then None
    else if exists i | 0 <= i < |ch.transitions| :: ch.transitions[i].from == ch.transitions[i].to then None
    else if (ch.state == Gated && t.row.requester.trust == Trusted) || (ch.state == Received && t.row.requester.trust == Untrusted) then None
    else
      Some(t.(closure := if ch.closure.Some? then Some(StoredClosure(ch.closure.value)) else t.closure,
              transitions := t.transitions + StoredTransitions(ch.transitions),
              row := t.row.(state := ch.state)))
  }

  /** The whole write of a change set, or None when some insert is refused. */
  function Write(t: CaseRows, ch: Changes, s: Surroundings, id: Id): Option<CaseRows> {
    match WriteFacts(t, ch, s, id)
    case None => None
    case Some(u) => WriteSummary(u, ch, s)
  }
}
