/** Every row the store inserts gets an id no row has had before. */
module FreshIds {
  import opened Kernel
  import B = BumpModel
  import BI = BumpInvariant
  import BT = BumpTables
  import BP = BumpPersistence
  import BD = BumpDatabase
  import U = UpkeepFacts
  import C = CaseModel
  import CT = CaseTables
  import CP = CasePersistence
  import CD = CaseDatabase
  import F = CaseFacts

  /** No id is on two rows, of one item or of two, and the next is on none. */
  ghost predicate Unique<K(!new)>(ids: K -> seq<Id>, next: Id) {
    && (forall k, x | x in ids(k) :: x < next)
    && (forall k, x :: multiset(ids(k))[x] <= 1)
    && (forall k, l, x | k != l && x in ids(k) :: x !in ids(l))
  }

  function Range(from: Id, n: nat): seq<Id> {
    seq(n, i requires 0 <= i < n => from + i)
  }

  lemma {:induction false} RangeHoldsEachOnce(from: Id, n: nat)
    ensures forall x :: multiset(Range(from, n))[x] == if from <= x < from + n then 1 else 0
  {
    if n > 0 {
      RangeHoldsEachOnce(from, n - 1);
      assert Range(from, n) == Range(from, n - 1) + [from + n - 1];
    } else {
      assert Range(from, n) == [];
    }
  }

  lemma RangesJoin(from: Id, m: nat, n: nat)
    ensures Range(from, m) + Range(from + m, n) == Range(from, m + n)
  {}

  /** One item taking the next ids keeps them unique. */
  lemma TakingTheNextKeepsUnique<K(!new)>(ids: K -> seq<Id>, next: Id, after: K -> seq<Id>, k: K, n: nat)
    requires Unique(ids, next) && forall l | l != k :: after(l) == ids(l)
    requires multiset(after(k)) == multiset(ids(k)) + multiset(Range(next, n))
    ensures Unique(after, next + n)
  {
    RangeHoldsEachOnce(next, n);
    forall x ensures x in after(k) <==> x in ids(k) || next <= x < next + n {
      assert x in after(k) <==> multiset(after(k))[x] > 0;
      assert x in ids(k) <==> multiset(ids(k))[x] > 0;
    }
    forall l, x ensures multiset(after(l))[x] <= 1 {
      assert x in ids(k) <==> multiset(ids(k))[x] > 0;
      if l != k { assert after(l) == ids(l); }
    }
    forall l, j, x | l != j && x in after(l) ensures x !in after(j) {
      assert l != k ==> after(l) == ids(l);
      assert j != k ==> after(j) == ids(j);
    }
  }

  // ----- Bumps -----

  function VerdictIds(vs: seq<U.CheckVerdict>): seq<Id> {
    seq(|vs|, i requires 0 <= i < |vs| => vs[i].id)
  }

  function RoundIds(rows: seq<BT.RepairRow>): seq<Id> {
    seq(|rows|, i requires 0 <= i < |rows| => rows[i].id)
  }

  /** The ids of a bump's own row, its verdicts and its rounds. */
  function BumpIds(db: BD.Database, k: B.BumpKey): seq<Id> {
    if k !in db.bumps then []
    else [db.bumps[k].row.id] + VerdictIds(db.bumps[k].verdicts) + RoundIds(db.bumps[k].repairs)
  }

  ghost predicate BumpIdsUnique(db: BD.Database) {
    Unique(k => BumpIds(db, k), db.nextId)
  }

  /** What a write adds to the ids of a bump: the next ones, verdicts first. */
  lemma GrownIds(t: BT.BumpRows, ch: B.Changes, id: Id, u: BT.BumpRows)
    requires BP.Grown(t, ch, id, u)
    ensures VerdictIds(u.verdicts) == VerdictIds(t.verdicts) + Range(id, |ch.verdicts|)
    ensures RoundIds(u.repairs) == RoundIds(t.repairs) + Range(id + |ch.verdicts|, |ch.attempts|)
  {
    forall j | |t.repairs| <= j < |u.repairs| ensures u.repairs[j].id == id + |ch.verdicts| + (j - |t.repairs|) {
      var i := j - |t.repairs|;
      assert u.repairs[|t.repairs| + i] == BT.RowOf(ch.attempts[i], id + |ch.verdicts| + i);
    }
    RoundIdsGrow(t.repairs, u.repairs, id + |ch.verdicts|, |ch.attempts|);
  }

  lemma RoundIdsGrow(before: seq<BT.RepairRow>, after: seq<BT.RepairRow>, from: Id, n: nat)
    requires |after| == |before| + n && forall i | 0 <= i < |before| :: after[i] == before[i]
    requires forall j | |before| <= j < |after| :: after[j].id == from + (j - |before|)
    ensures RoundIds(after) == RoundIds(before) + Range(from, n)
  {}

  /** The rows of one bump gained the next `m` ids for verdicts and `n` for rounds. */
  ghost predicate Gains(t: BT.BumpRows, u: BT.BumpRows, from: Id, m: nat, n: nat) {
    && u.row.id == t.row.id
    && VerdictIds(u.verdicts) == VerdictIds(t.verdicts) + Range(from, m)
    && RoundIds(u.repairs) == RoundIds(t.repairs) + Range(from + m, n)
  }

  lemma WriteGains(t: BT.BumpRows, ch: B.Changes, s: BT.Surroundings, id: Id, u: BT.BumpRows)
    requires BI.VerdictsOk(t.verdicts) && BT.Write(t, ch, s, id) == Some(u)
    ensures Gains(t, u, id, |ch.verdicts|, |ch.attempts|)
  {
    BP.WriteWrites(t, ch, s, id);
    GrownIds(t, ch, id, u);
  }

  lemma IdsGained(row: seq<Id>, vs: seq<Id>, rs: seq<Id>, vs': seq<Id>, rs': seq<Id>, from: Id, m: nat, n: nat)
    requires vs' == vs + Range(from, m) && rs' == rs + Range(from + m, n)
    ensures multiset(row + vs' + rs') == multiset(row + vs + rs) + multiset(Range(from, m + n))
  {
    RangesJoin(from, m, n);
    assert multiset(row + vs' + rs') == multiset(row) + multiset(vs') + multiset(rs');
    assert multiset(row + vs + rs) == multiset(row) + multiset(vs) + multiset(rs);
  }

  lemma OnlyOneGains(db: BD.Database, key: B.BumpKey, next: BD.Database, m: nat, n: nat)
    requires key in db.bumps && BD.OnlyTouches(db, key, next) && Gains(db.bumps[key], next.bumps[key], db.nextId, m, n)
    ensures multiset(BumpIds(next, key)) == multiset(BumpIds(db, key)) + multiset(Range(db.nextId, m + n))
  {
    var t, u := db.bumps[key], next.bumps[key];
    IdsGained([t.row.id], VerdictIds(t.verdicts), RoundIds(t.repairs), VerdictIds(u.verdicts), RoundIds(u.repairs), db.nextId, m, n);
  }

  lemma OthersKeepIds(db: BD.Database, key: B.BumpKey, next: BD.Database)
    requires BD.OnlyTouches(db, key, next)
    ensures forall l | l != key :: BumpIds(next, l) == BumpIds(db, l)
  {}

  lemma GainingKeepsIdsUnique(db: BD.Database, key: B.BumpKey, next: BD.Database, m: nat, n: nat)
    requires BumpIdsUnique(db) && key in db.bumps && BD.OnlyTouches(db, key, next)
    requires Gains(db.bumps[key], next.bumps[key], db.nextId, m, n) && next.nextId == db.nextId + m + n
    ensures BumpIdsUnique(next)
  {
    OnlyOneGains(db, key, next, m, n);
    OthersKeepIds(db, key, next);
    TakingTheNextKeepsUnique(k => BumpIds(db, k), db.nextId, k => BumpIds(next, k), key, m + n);
  }

  lemma CommitKeepsIdsUnique(db: BD.Database, key: B.BumpKey, ch: B.Changes)
    requires BumpIdsUnique(db) && key in db.bumps && BI.VerdictsOk(db.bumps[key].verdicts) && BD.Commit(db, key, ch).Committed?
    ensures BumpIdsUnique(BD.Commit(db, key, ch).value)
  {
    BD.CommitReplacesRows(db, key, ch);
    var next := BD.Commit(db, key, ch).value;
    WriteGains(db.bumps[key], ch, BD.SurroundingsOf(db), db.nextId, next.bumps[key]);
    GainingKeepsIdsUnique(db, key, next, |ch.verdicts|, |ch.attempts|);
  }

  /** An update gives its new verdicts and rounds ids nobody has. */
  lemma UpdateKeepsIdsUnique(db: BD.Database, key: B.BumpKey, c: B.Command, maxRounds: int)
    requires BD.DatabaseOk(db, maxRounds) && BumpIdsUnique(db) && BD.Update(db, key, c).Committed?
    ensures BumpIdsUnique(BD.Update(db, key, c).value)
  {
    CommitKeepsIdsUnique(db, key, B.Step(B.Clean(BT.Load(key, db.bumps[key])), c).value.changes);
  }

  lemma CreateKeepsIdsUnique(db: BD.Database, b: B.Bump)
    requires BumpIdsUnique(db) && BD.Create(db, b).Committed?
    ensures BumpIdsUnique(BD.Create(db, b).value)
  {
    var next := BD.Create(db, b).value;
    assert BumpIds(next, b.key) == [db.nextId];
    assert Range(db.nextId, 1) == [db.nextId];
    TakingTheNextKeepsUnique(k => BumpIds(db, k), db.nextId, k => BumpIds(next, k), b.key, 1);
  }

  // ----- Cases -----

  function ApprovalIds(approvals: seq<F.Approval>): seq<Id> {
    seq(|approvals|, i requires 0 <= i < |approvals| => approvals[i].id)
  }

  function AttemptIds(rows: seq<CT.AttemptRow>): seq<Id> {
    seq(|rows|, i requires 0 <= i < |rows| => rows[i].id)
  }

  /** The ids of a case's own row, its approvals and its attempts. */
  function CaseIds(db: CD.Database, k: C.CaseKey): seq<Id> {
    if k !in db.cases then []
    else [db.cases[k].row.id] + ApprovalIds(db.cases[k].approvals) + AttemptIds(db.cases[k].attempts)
  }

  ghost predicate CaseIdsUnique(db: CD.Database) {
    Unique(k => CaseIds(db, k), db.nextId)
  }

  lemma GrownCaseIds(t: CT.CaseRows, ch: C.Changes, id: Id, u: CT.CaseRows)
    requires CP.Grown(t, ch, id, u)
    ensures ApprovalIds(u.approvals) == ApprovalIds(t.approvals) + Range(id, |ch.approvals|)
    ensures AttemptIds(u.attempts) == AttemptIds(t.attempts) + Range(id + |ch.approvals|, |ch.attempts|)
  {
    forall j | |t.attempts| <= j < |u.attempts| ensures u.attempts[j].id == id + |ch.approvals| + (j - |t.attempts|) {
      var i := j - |t.attempts|;
      assert u.attempts[|t.attempts| + i] == CT.RowOf(ch.attempts[i], id + |ch.approvals| + i);
    }
    AttemptIdsGrow(t.attempts, u.attempts, id + |ch.approvals|, |ch.attempts|);
  }

  lemma AttemptIdsGrow(before: seq<CT.AttemptRow>, after: seq<CT.AttemptRow>, from: Id, n: nat)
    requires |after| == |before| + n && forall i | 0 <= i < |before| :: after[i] == before[i]
    requires forall j | |before| <= j < |after| :: after[j].id == from + (j - |before|)
    ensures AttemptIds(after) == AttemptIds(before) + Range(from, n)
  {}

  ghost predicate CaseGains(t: CT.CaseRows, u: CT.CaseRows, from: Id, m: nat, n: nat) {
    && u.row.id == t.row.id
    && ApprovalIds(u.approvals) == ApprovalIds(t.approvals) + Range(from, m)
    && AttemptIds(u.attempts) == AttemptIds(t.attempts) + Range(from + m, n)
  }

  lemma CaseWriteGains(t: CT.CaseRows, ch: C.Changes, s: CT.Surroundings, id: Id, u: CT.CaseRows)
    requires CT.Write(t, ch, s, id) == Some(u)
    ensures CaseGains(t, u, id, |ch.approvals|, |ch.attempts|)
  {
    CP.WriteWrites(t, ch, s, id);
    GrownCaseIds(t, ch, id, u);
  }

  lemma OnlyOneCaseGains(db: CD.Database, key: C.CaseKey, next: CD.Database, m: nat, n: nat)
    requires key in db.cases && CD.OnlyTouches(db, key, next) && CaseGains(db.cases[key], next.cases[key], db.nextId, m, n)
    ensures multiset(CaseIds(next, key)) == multiset(CaseIds(db, key)) + multiset(Range(db.nextId, m + n))
  {
    var t, u := db.cases[key], next.cases[key];
    IdsGained([t.row.id], ApprovalIds(t.approvals), AttemptIds(t.attempts), ApprovalIds(u.approvals), AttemptIds(u.attempts), db.nextId, m, n);
  }

  lemma OtherCasesKeepIds(db: CD.Database, key: C.CaseKey, next: CD.Database)
    requires CD.OnlyTouches(db, key, next)
    ensures forall l | l != key :: CaseIds(next, l) == CaseIds(db, l)
  {}

  lemma CaseGainingKeepsIdsUnique(db: CD.Database, key: C.CaseKey, next: CD.Database, m: nat, n: nat)
    requires CaseIdsUnique(db) && key in db.cases && CD.OnlyTouches(db, key, next)
    requires CaseGains(db.cases[key], next.cases[key], db.nextId, m, n) && next.nextId == db.nextId + m + n
    ensures CaseIdsUnique(next)
  {
    OnlyOneCaseGains(db, key, next, m, n);
    OtherCasesKeepIds(db, key, next);
    TakingTheNextKeepsUnique(k => CaseIds(db, k), db.nextId, k => CaseIds(next, k), key, m + n);
  }

  lemma CaseCommitKeepsIdsUnique(db: CD.Database, key: C.CaseKey, ch: C.Changes)
    requires CaseIdsUnique(db) && key in db.cases && CD.Commit(db, key, ch).Committed?
    ensures CaseIdsUnique(CD.Commit(db, key, ch).value)
  {
    CD.CommitReplacesRows(db, key, ch);
    var next := CD.Commit(db, key, ch).value;
    CaseWriteGains(db.cases[key], ch, CD.SurroundingsOf(db), db.nextId, next.cases[key]);
    CaseGainingKeepsIdsUnique(db, key, next, |ch.approvals|, |ch.attempts|);
  }

  lemma CaseUpdateKeepsIdsUnique(db: CD.Database, key: C.CaseKey, c: C.Command)
    requires CaseIdsUnique(db) && CD.Update(db, key, c).Committed?
    ensures CaseIdsUnique(CD.Update(db, key, c).value)
  {
    CaseCommitKeepsIdsUnique(db, key, C.Step(C.Clean(CT.Load(key, db.cases[key])), c).value.changes);
  }

  lemma CaseCreateKeepsIdsUnique(db: CD.Database, c: C.Case)
    requires CaseIdsUnique(db) && CD.Create(db, c).Committed?
    ensures CaseIdsUnique(CD.Create(db, c).value)
  {
    var next := CD.Create(db, c).value;
    assert CaseIds(next, c.key) == [db.nextId];
    assert Range(db.nextId, 1) == [db.nextId];
    TakingTheNextKeepsUnique(k => CaseIds(db, k), db.nextId, k => CaseIds(next, k), c.key, 1);
  }
}
