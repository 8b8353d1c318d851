/** Recovery and the backstop against the tables: what they write is never refused
    there either, and after recovery nothing stored is left running. */
module RecoveryStore {
  import opened Kernel
  import opened Recovery
  import U = UpkeepFacts
  import B = BumpModel
  import BI = BumpInvariant
  import BL = BumpLaws
  import BP = BumpPersistence
  import BT = BumpTables
  import BD = BumpDatabase
  import F = CaseFacts
  import C = CaseModel
  import CI = CaseInvariant
  import CL = CaseLaws
  import CP = CasePersistence
  import CT = CaseTables
  import CD = CaseDatabase

  // ----- Lists of what is open -----

  /** Everything with an open id, each once and under that id. */
  ghost predicate ListsOpen<K(!new)>(open: seq<(K, Id)>, of: K -> Option<Id>) {
    && (forall i, j | 0 <= i < j < |open| :: open[i].0 != open[j].0)
    && (forall i | 0 <= i < |open| :: of(open[i].0) == Some(open[i].1))
    && (forall k | of(k).Some? :: k in Firsts(open))
  }

  /** With the first of them ended and nothing else changed, the rest is the list. */
  lemma RestIsListed<K(!new)>(open: seq<(K, Id)>, before: K -> Option<Id>, after: K -> Option<Id>)
    requires ListsOpen(open, before) && open != []
    requires after(open[0].0) == None && forall k | k != open[0].0 :: after(k) == before(k)
    ensures ListsOpen(open[1..], after)
  {
    var rest := open[1..];
    forall k | after(k).Some? ensures k in Firsts(rest) {
      assert k in Firsts(open);
      var i :| 0 <= i < |open| && open[i].0 == k;
      assert rest[i - 1].0 == k;
    }
    forall i | 0 <= i < |rest| ensures after(rest[i].0) == Some(rest[i].1) {
      assert rest[i] == open[i + 1] && open[0].0 != open[i + 1].0;
    }
  }

  // ----- Ending what is listed, one update at a time -----

  /** How the tables are read: the item under a key, and its open id. */
  ghost function OpenAt<D, K, V>(view: (D, K) -> Option<V>, openId: V -> Option<Id>, db: D, k: K): Option<Id> {
    if view(db, k).Some? then openId(view(db, k).value) else None
  }

  /** One item ended, as `ended` says, and every other as it was. */
  ghost predicate EndsOne<D, K(!new), V>(view: (D, K) -> Option<V>, openId: V -> Option<Id>, ended: (V, V) -> bool, db: D, k: K, next: D) {
    && view(db, k).Some? && view(next, k).Some?
    && ended(view(db, k).value, view(next, k).value) && openId(view(next, k).value).None?
    && forall j | j != k :: view(next, j) == view(db, j)
  }

  /** Every item with something open ended, and every other as it was. */
  ghost predicate EndsAllOpen<D, K(!new), V>(view: (D, K) -> Option<V>, openId: V -> Option<Id>, ended: (V, V) -> bool, db: D, last: D) {
    forall k ::
      if OpenAt(view, openId, db, k).None? then view(last, k) == view(db, k)
      else view(db, k).Some? && view(last, k).Some? && ended(view(db, k).value, view(last, k).value) && openId(view(last, k).value).None?
  }

  ghost function EndInTurn<D, K>(end: (D, K, Id) -> D, db: D, open: seq<(K, Id)>): D
    decreases |open|
  {
    if open == [] then db else EndInTurn(end, end(db, open[0].0, open[0].1), open[1..])
  }

  lemma {:induction false} ListedAreEnded<D(!new), K(!new), V>(
      view: (D, K) -> Option<V>, openId: V -> Option<Id>, ok: D -> bool, ended: (V, V) -> bool,
      end: (D, K, Id) -> D, db: D, open: seq<(K, Id)>)
    requires ok(db) && ListsOpen(open, k => OpenAt(view, openId, db, k))
    requires forall d, k, id | ok(d) && OpenAt(view, openId, d, k) == Some(id) ::
      ok(end(d, k, id)) && EndsOne(view, openId, ended, d, k, end(d, k, id))
    ensures ok(EndInTurn(end, db, open)) && EndsAllOpen(view, openId, ended, db, EndInTurn(end, db, open))
    decreases |open|
  {
    if open == [] {
      var of := k => OpenAt(view, openId, db, k);
      NothingListed(open, of);
      assert forall k :: of(k) == OpenAt(view, openId, db, k);
    } else {
      assert OpenAt(view, openId, db, open[0].0) == Some(open[0].1);
      var next := end(db, open[0].0, open[0].1);
      RestIsListed(open, k => OpenAt(view, openId, db, k), k => OpenAt(view, openId, next, k));
      ListedAreEnded(view, openId, ok, ended, end, next, open[1..]);
    }
  }

  lemma NothingListed<K(!new)>(open: seq<(K, Id)>, of: K -> Option<Id>)
    requires ListsOpen(open, of) && open == []
    ensures forall k :: of(k).None?
  {}

  // ----- Rounds -----

  ghost function StoredBump(db: BD.Database, k: B.BumpKey): B.Bump
    requires k in db.bumps
  {
    BT.Load(k, db.bumps[k])
  }

  lemma {:induction false} NoneOpenAtEnd(rounds: seq<U.RepairAttempt>)
    requires forall i | 0 <= i < |rounds| :: !rounds[i].Open()
    ensures B.FirstOpen(rounds) == |rounds|
  {
    if rounds != [] {
      NoneOpenAtEnd(rounds[1..]);
    }
  }

  /** The same state, and every round ended the same way. */
  predicate SameEnds(u: B.Bump, loaded: B.Bump) {
    && loaded.state == u.state && |loaded.attempts| == |u.attempts|
    && forall i | 0 <= i < |u.attempts| ::
         && (loaded.attempts[i].outcome.Some? <==> u.attempts[i].outcome.Some?)
         && (u.attempts[i].outcome.Some? ==>
               && loaded.attempts[i].outcome.value.kind == u.attempts[i].outcome.value.kind
               && (u.attempts[i].outcome.value.kind == U.RepairAborted ==>
                     loaded.attempts[i].outcome.value.reason == u.attempts[i].outcome.value.reason))
  }

  /** A bump with no round open has none open when it is loaded again. */
  lemma KeptStaysEnded(b: B.Bump, loaded: B.Bump, v0: nat, a0: nat, id: Id)
    requires BP.BudgetsStorable(b) && v0 <= |b.verdicts| && BP.SameUpToVerdictOrder(loaded, BP.Kept(b, v0, a0, id))
    requires !HasOpenRound(b)
    ensures !HasOpenRound(loaded) && SameEnds(b, loaded)
  {
    assert loaded.(verdicts := []).attempts == BP.KeptRounds(b.attempts, a0, id + (|b.verdicts| - v0));
    assert loaded.(verdicts := []).state == b.state;
    NoneOpenAtEnd(loaded.attempts);
  }

  /** A storable command the aggregate takes is committed, and a round it ends is
      ended in the tables. */
  lemma EndingIsStored(db: BD.Database, k: B.BumpKey, c: B.Command, b: B.Bump, maxRounds: int)
    requires BD.DatabaseOk(db, maxRounds) && k in db.bumps && b == StoredBump(db, k)
    requires BI.CapExactly(c, maxRounds) && !BD.Unstorable(db, c) && B.Step(B.Clean(b), c).Ok? && !HasOpenRound(B.After(b, c))
    ensures BD.Update(db, k, c).Committed? && BD.DatabaseOk(BD.Update(db, k, c).value, maxRounds)
    ensures EndedAs(db, k, BD.Update(db, k, c).value, B.After(b, c))
  {
    BD.UpdateFailsExactlyWhen(db, k, c, maxRounds);
    BD.UpdateKeepsOk(db, k, c, maxRounds);
    BD.UpdateRoundTrip(db, k, c, maxRounds);
    KeptStaysEnded(B.After(b, c), StoredBump(BD.Update(db, k, c).value, k), |b.verdicts|, |b.attempts|, db.nextId);
  }

  /** One bump ended as `u` is, every other as it was. */
  ghost predicate EndedAs(db: BD.Database, k: B.BumpKey, next: BD.Database, u: B.Bump) {
    && k in db.bumps && BD.OnlyTouches(db, k, next)
    && !HasOpenRound(StoredBump(next, k)) && SameEnds(u, StoredBump(next, k))
  }

  lemma EndingIsRecovery(b: B.Bump, at: Setting, maxRounds: int)
    requires HasOpenRound(b)
    ensures var c := B.RecordOutcome(OpenRound(b).id, RoundEnding(b, at), maxRounds);
      B.Step(B.Clean(b), c).Ok? && B.After(b, c) == RecoveredBump(b, at, maxRounds)
  {
    RoundEndingIsAccepted(b, at, maxRounds);
  }

  lemma NothingUsedIsStorable(db: BD.Database, id: Id, o: U.RepairOutcome, maxRounds: int)
    requires o.usage == UNUSED
    ensures !BD.Unstorable(db, B.RecordOutcome(id, o, maxRounds))
  {}

  /** An outcome the aggregate takes, nothing used, ends the round in the tables. */
  lemma StoredOutcomeEnds(db: BD.Database, k: B.BumpKey, b: B.Bump, id: Id, o: U.RepairOutcome, maxRounds: int)
    requires BD.DatabaseOk(db, maxRounds) && k in db.bumps && b == StoredBump(db, k) && o.usage == UNUSED
    requires B.Step(B.Clean(b), B.RecordOutcome(id, o, maxRounds)).Ok? && !HasOpenRound(B.After(b, B.RecordOutcome(id, o, maxRounds)))
    ensures var r := BD.Update(db, k, B.RecordOutcome(id, o, maxRounds));
      && r.Committed? && BD.DatabaseOk(r.value, maxRounds)
      && EndedAs(db, k, r.value, B.After(b, B.RecordOutcome(id, o, maxRounds)))
  {
    NothingUsedIsStorable(db, id, o, maxRounds);
    EndingIsStored(db, k, B.RecordOutcome(id, o, maxRounds), b, maxRounds);
  }

  /** The update that ends one stored round, whatever became of its bump. */
  ghost function EndStoredRound(db: BD.Database, k: B.BumpKey, id: Id, at: Setting, maxRounds: int): BD.Outcome<BD.Database>
    requires k in db.bumps
  {
    BD.Update(db, k, B.RecordOutcome(id, RoundEnding(StoredBump(db, k), at), maxRounds))
  }

  lemma StoredRoundEnds(db: BD.Database, k: B.BumpKey, b: B.Bump, at: Setting, maxRounds: int)
    requires BD.DatabaseOk(db, maxRounds) && k in db.bumps && b == StoredBump(db, k) && HasOpenRound(b)
    ensures var r := EndStoredRound(db, k, OpenRound(b).id, at, maxRounds);
      && r.Committed? && BD.DatabaseOk(r.value, maxRounds) && EndedAs(db, k, r.value, RecoveredBump(b, at, maxRounds))
  {
    EndingIsRecovery(b, at, maxRounds);
    RecoveredBumpIsAtRest(b, at, maxRounds);
    StoredOutcomeEnds(db, k, b, OpenRound(b).id, RoundEnding(b, at), maxRounds);
  }

  ghost function BumpView(db: BD.Database, k: B.BumpKey): Option<B.Bump> {
    if k in db.bumps then Some(StoredBump(db, k)) else None
  }

  function OpenRoundId(b: B.Bump): Option<Id> {
    if HasOpenRound(b) then Some(OpenRound(b).id) else None
  }

  /** What recovery makes of a stored bump with a round open: the round is aborted,
      by the closing of a closed bump and by the restart of any other, and a bump it
      kept repairing is queued if no restart cut a round off before and one is left,
      and given up otherwise. */
  ghost predicate ComesToRest(before: B.Bump, after: B.Bump, maxRounds: int) {
    && before.attempts != [] && |after.attempts| == |before.attempts|
    && after.attempts[|before.attempts| - 1].outcome.Some?
    && CutOff(before, after.attempts[|before.attempts| - 1].outcome.value)
    && after.state ==
         if before.state != U.Repairing then before.state
         else if !BL.RestartedEarlier(before) && BL.RoundLeft(before, maxRounds) then U.Queued else U.Abandoned
  }

  lemma RecoveredComesToRest(b: B.Bump, at: Setting, maxRounds: int)
    requires BI.Inv(b, maxRounds) && HasOpenRound(b)
    ensures ComesToRest(b, RecoveredBump(b, at, maxRounds), maxRounds)
  {
    RecoveredBumpIs(b, at, maxRounds);
    BL.NothingOpenExactly(b.attempts);
  }

  /** The update for one listed round; a failed one is passed over. */
  ghost function RecoverRound(db: BD.Database, k: B.BumpKey, id: Id, at: Setting, maxRounds: int): BD.Database {
    if k !in db.bumps then db
    else
      var r := EndStoredRound(db, k, id, at, maxRounds);
      if r.Committed? then r.value else db
  }

  lemma RecoverRoundEnds(db: BD.Database, k: B.BumpKey, b: B.Bump, at: Setting, maxRounds: int)
    requires BD.DatabaseOk(db, maxRounds) && BumpView(db, k) == Some(b) && HasOpenRound(b)
    ensures var next := RecoverRound(db, k, OpenRound(b).id, at, maxRounds);
      BD.DatabaseOk(next, maxRounds) && EndedAs(db, k, next, RecoveredBump(b, at, maxRounds))
  {
    StoredRoundEnds(db, k, b, at, maxRounds);
  }

  lemma EndedAsEndsOne(db: BD.Database, k: B.BumpKey, b: B.Bump, next: BD.Database, u: B.Bump, maxRounds: int)
    requires BumpView(db, k) == Some(b) && EndedAs(db, k, next, u) && ComesToRest(b, u, maxRounds)
    ensures EndsOne(BumpView, OpenRoundId, (before, after) => ComesToRest(before, after, maxRounds), db, k, next)
  {}

  lemma RecoverRoundEndsOne(db: BD.Database, k: B.BumpKey, id: Id, at: Setting, maxRounds: int)
    requires BD.DatabaseOk(db, maxRounds) && OpenAt(BumpView, OpenRoundId, db, k) == Some(id)
    ensures BD.DatabaseOk(RecoverRound(db, k, id, at, maxRounds), maxRounds)
    ensures EndsOne(BumpView, OpenRoundId, (before, after) => ComesToRest(before, after, maxRounds), db, k, RecoverRound(db, k, id, at, maxRounds))
  {
    var b := BumpView(db, k).value;
    RecoverRoundEnds(db, k, b, at, maxRounds);
    RecoveredComesToRest(b, at, maxRounds);
    EndedAsEndsOne(db, k, b, RecoverRound(db, k, id, at, maxRounds), RecoveredBump(b, at, maxRounds), maxRounds);
  }

  /** What the query lists as open, each round once under its bump's key. */
  ghost predicate ListsStoredRounds(open: seq<(B.BumpKey, Id)>, db: BD.Database) {
    ListsOpen(open, k => OpenAt(BumpView, OpenRoundId, db, k))
  }

  /** Recovery over the tables, one update for each listed round. */
  ghost function RecoverStoredBumps(db: BD.Database, open: seq<(B.BumpKey, Id)>, at: Setting, maxRounds: int): BD.Database {
    EndInTurn((d, k, id) => RecoverRound(d, k, id, at, maxRounds), db, open)
  }

  /** After recovery no stored round is open: each bump that had one has come to
      rest, and every other is as it was. None of the updates fails, in the
      aggregate or in the tables. */
  lemma RecoveryEndsEveryRound(db: BD.Database, open: seq<(B.BumpKey, Id)>, at: Setting, maxRounds: int)
    requires BD.DatabaseOk(db, maxRounds) && ListsStoredRounds(open, db)
    ensures BD.DatabaseOk(RecoverStoredBumps(db, open, at, maxRounds), maxRounds)
    ensures EndsAllOpen(BumpView, OpenRoundId, (before, after) => ComesToRest(before, after, maxRounds), db, RecoverStoredBumps(db, open, at, maxRounds))
  {
    forall d, k, id | BD.DatabaseOk(d, maxRounds) && OpenAt(BumpView, OpenRoundId, d, k) == Some(id)
      ensures BD.DatabaseOk(RecoverRound(d, k, id, at, maxRounds), maxRounds)
      ensures EndsOne(BumpView, OpenRoundId, (before, after) => ComesToRest(before, after, maxRounds), d, k, RecoverRound(d, k, id, at, maxRounds))
    {
      RecoverRoundEndsOne(d, k, id, at, maxRounds);
    }
    ListedAreEnded(BumpView, OpenRoundId, d => BD.DatabaseOk(d, maxRounds), (before, after) => ComesToRest(before, after, maxRounds),
      (d, k, id) => RecoverRound(d, k, id, at, maxRounds), db, open);
  }

  /** So nothing stored is left running. */
  lemma NothingIsLeftRunning(db: BD.Database, last: BD.Database, k: B.BumpKey, maxRounds: int)
    requires BD.DatabaseOk(last, maxRounds) && EndsAllOpen(BumpView, OpenRoundId, (before, after) => ComesToRest(before, after, maxRounds), db, last) && k in last.bumps
    ensures !HasOpenRound(StoredBump(last, k)) && StoredBump(last, k).state != U.Repairing
  {
    RepairingHasOpenRound(StoredBump(last, k), maxRounds);
    assert OpenAt(BumpView, OpenRoundId, db, k).None? ==> BumpView(last, k) == BumpView(db, k);
  }

  /** What the backstop writes on a stored open round is committed and ends it. */
  lemma BackstopCommits(db: BD.Database, k: B.BumpKey, b: B.Bump, message: string, now: Time, maxRounds: int)
    requires BD.DatabaseOk(db, maxRounds) && k in db.bumps && b == StoredBump(db, k) && HasOpenRound(b) && message != ""
    ensures var r := BD.Update(db, k, B.RecordOutcome(OpenRound(b).id, BackstopOutcome(message, now), maxRounds));
      && r.Committed? && BumpView(r.value, k).Some? && !HasOpenRound(BumpView(r.value, k).value)
      && SameEnds(B.After(b, B.RecordOutcome(OpenRound(b).id, BackstopOutcome(message, now), maxRounds)), BumpView(r.value, k).value)
  {
    BackstopIsTaken(b, message, now, maxRounds);
    StoredOutcomeEnds(db, k, b, OpenRound(b).id, BackstopOutcome(message, now), maxRounds);
  }

  lemma BackstopIsTaken(b: B.Bump, message: string, now: Time, maxRounds: int)
    requires BI.Inv(b, maxRounds) && HasOpenRound(b) && message != ""
    ensures var c := B.RecordOutcome(OpenRound(b).id, BackstopOutcome(message, now), maxRounds);
      B.Step(B.Clean(b), c).Ok? && !HasOpenRound(B.After(b, c))
  {
    OutcomeIsOneCommand(B.Clean(b), OpenRound(b).id, BackstopOutcome(message, now), maxRounds);
    BackstopEndsRound(b, OpenRound(b).id, message, now, maxRounds);
  }

  lemma OutcomeIsOneCommand(t: B.Tracked, id: Id, o: U.RepairOutcome, maxRounds: int)
    ensures B.Step(t, B.RecordOutcome(id, o, maxRounds)) == B.StepOutcome(t, id, o, maxRounds)
  {}

  // ----- Attempts -----

  ghost function StoredCase(db: CD.Database, k: C.CaseKey): C.Case
    requires k in db.cases
  {
    CT.Load(k, db.cases[k])
  }

  lemma {:induction false} NoAttemptOpenAtEnd(attempts: seq<F.Attempt>)
    requires forall i | 0 <= i < |attempts| :: !attempts[i].Open()
    ensures C.FirstOpen(attempts) == |attempts|
  {
    if attempts != [] {
      NoAttemptOpenAtEnd(attempts[1..]);
    }
  }

  predicate CaseSameEnds(u: C.Case, loaded: C.Case) {
    && loaded.state == u.state && |loaded.attempts| == |u.attempts|
    && forall i | 0 <= i < |u.attempts| ::
         && (loaded.attempts[i].outcome.Some? <==> u.attempts[i].outcome.Some?)
         && (u.attempts[i].outcome.Some? ==>
               && loaded.attempts[i].outcome.value.kind == u.attempts[i].outcome.value.kind
               && (u.attempts[i].outcome.value.kind == F.Aborted ==>
                     loaded.attempts[i].outcome.value.reason == u.attempts[i].outcome.value.reason))
  }

  lemma KeptCaseStaysEnded(c: C.Case, loaded: C.Case, p0: nat, a0: nat, id: Id)
    requires CP.BudgetsStorable(c.attempts) && p0 <= |c.approvals| && CP.SameUpToApprovalOrder(loaded, CP.Kept(c, p0, a0, id))
    requires !HasOpenAttempt(c)
    ensures !HasOpenAttempt(loaded) && CaseSameEnds(c, loaded)
  {
    assert loaded.(approvals := []).attempts == CP.KeptAttempts(c.attempts, a0, id + (|c.approvals| - p0));
    assert loaded.(approvals := []).state == c.state;
    NoAttemptOpenAtEnd(loaded.attempts);
  }

  lemma CaseEndingIsStored(db: CD.Database, k: C.CaseKey, cmd: C.Command, c: C.Case)
    requires CD.DatabaseOk(db) && k in db.cases && c == StoredCase(db, k)
    requires !CD.Unstorable(CD.SurroundingsOf(db), cmd) && C.Step(C.Clean(c), cmd).Ok? && !HasOpenAttempt(C.After(c, cmd))
    ensures CD.Update(db, k, cmd).Committed? && CD.DatabaseOk(CD.Update(db, k, cmd).value)
    ensures CaseEndedAs(db, k, CD.Update(db, k, cmd).value, C.After(c, cmd))
  {
    CD.UpdateFailsExactlyWhen(db, k, cmd);
    CD.UpdateKeepsOk(db, k, cmd);
    CD.UpdateRoundTrip(db, k, cmd);
    KeptCaseStaysEnded(C.After(c, cmd), StoredCase(CD.Update(db, k, cmd).value, k), |c.approvals|, |c.attempts|, db.nextId);
  }

  ghost predicate CaseEndedAs(db: CD.Database, k: C.CaseKey, next: CD.Database, u: C.Case) {
    && k in db.cases && CD.OnlyTouches(db, k, next)
    && !HasOpenAttempt(StoredCase(next, k)) && CaseSameEnds(u, StoredCase(next, k))
  }

  lemma AttemptEndingIsRecovery(c: C.Case, at: Setting)
    requires HasOpenAttempt(c)
    ensures var cmd := C.RecordOutcome(OpenAttempt(c).id, AttemptEnding(c, at));
      C.Step(C.Clean(c), cmd).Ok? && C.After(c, cmd) == RecoveredCase(c, at)
  {
    AttemptEndingIsAccepted(c, at);
  }

  lemma AttemptEndingIsStorable(s: CT.Surroundings, id: Id, c: C.Case, at: Setting)
    ensures !CD.Unstorable(s, C.RecordOutcome(id, AttemptEnding(c, at)))
  {
    CD.ConstructedOutcomeIsStorable(s, id, AttemptEnding(c, at));
  }

  ghost function EndStoredAttempt(db: CD.Database, k: C.CaseKey, id: Id, at: Setting): CD.Committing<CD.Database>
    requires k in db.cases
  {
    CD.Update(db, k, C.RecordOutcome(id, AttemptEnding(StoredCase(db, k), at)))
  }

  lemma StoredAttemptEnds(db: CD.Database, k: C.CaseKey, c: C.Case, at: Setting)
    requires CD.DatabaseOk(db) && k in db.cases && c == StoredCase(db, k) && HasOpenAttempt(c)
    ensures var r := EndStoredAttempt(db, k, OpenAttempt(c).id, at);
      r.Committed? && CD.DatabaseOk(r.value) && CaseEndedAs(db, k, r.value, RecoveredCase(c, at))
  {
    AttemptEndingIsRecovery(c, at);
    RecoveredCaseIsAtRest(c, at);
    AttemptEndingIsStorable(CD.SurroundingsOf(db), OpenAttempt(c).id, c, at);
    CaseEndingIsStored(db, k, C.RecordOutcome(OpenAttempt(c).id, AttemptEnding(c, at)), c);
  }

  ghost function CaseView(db: CD.Database, k: C.CaseKey): Option<C.Case> {
    if k in db.cases then Some(StoredCase(db, k)) else None
  }

  function OpenAttemptId(c: C.Case): Option<Id> {
    if HasOpenAttempt(c) then Some(OpenAttempt(c).id) else None
  }

  /** The same for a case: its attempt is aborted, by the closing of a closed case and
      by the restart of any other, which queues it the first time and fails it the
      second. */
  ghost predicate CaseComesToRest(before: C.Case, after: C.Case) {
    && before.attempts != [] && |after.attempts| == |before.attempts|
    && after.attempts[|before.attempts| - 1].outcome.Some?
    && AttemptCutOff(before, after.attempts[|before.attempts| - 1].outcome.value)
    && after.state ==
         if before.state == F.Closed then F.Closed else if CL.RestartedEarlier(before) then F.Failed else F.Queued
  }

  lemma RecoveredCaseComesToRest(c: C.Case, at: Setting)
    requires CI.Inv(c) && HasOpenAttempt(c)
    ensures CaseComesToRest(c, RecoveredCase(c, at))
  {
    RecoveredCaseIs(c, at);
    CL.NothingOpenExactly(c.attempts);
  }

  ghost function RecoverAttempt(db: CD.Database, k: C.CaseKey, id: Id, at: Setting): CD.Database {
    if k !in db.cases then db
    else
      var r := EndStoredAttempt(db, k, id, at);
      if r.Committed? then r.value else db
  }

  lemma RecoverAttemptEnds(db: CD.Database, k: C.CaseKey, c: C.Case, at: Setting)
    requires CD.DatabaseOk(db) && CaseView(db, k) == Some(c) && HasOpenAttempt(c)
    ensures var next := RecoverAttempt(db, k, OpenAttempt(c).id, at);
      CD.DatabaseOk(next) && CaseEndedAs(db, k, next, RecoveredCase(c, at))
  {
    StoredAttemptEnds(db, k, c, at);
  }

  lemma CaseEndedAsEndsOne(db: CD.Database, k: C.CaseKey, c: C.Case, next: CD.Database, u: C.Case)
    requires CaseView(db, k) == Some(c) && CaseEndedAs(db, k, next, u) && CaseComesToRest(c, u)
    ensures EndsOne(CaseView, OpenAttemptId, (before, after) => CaseComesToRest(before, after), db, k, next)
  {}

  lemma RecoverAttemptEndsOne(db: CD.Database, k: C.CaseKey, id: Id, at: Setting)
    requires CD.DatabaseOk(db) && OpenAt(CaseView, OpenAttemptId, db, k) == Some(id)
    ensures CD.DatabaseOk(RecoverAttempt(db, k, id, at))
    ensures EndsOne(CaseView, OpenAttemptId, (before, after) => CaseComesToRest(before, after), db, k, RecoverAttempt(db, k, id, at))
  {
    var c := CaseView(db, k).value;
    RecoverAttemptEnds(db, k, c, at);
    RecoveredCaseComesToRest(c, at);
    CaseEndedAsEndsOne(db, k, c, RecoverAttempt(db, k, id, at), RecoveredCase(c, at));
  }

  ghost predicate ListsStoredAttempts(open: seq<(C.CaseKey, Id)>, db: CD.Database) {
    ListsOpen(open, k => OpenAt(CaseView, OpenAttemptId, db, k))
  }

  ghost function RecoverStoredCases(db: CD.Database, open: seq<(C.CaseKey, Id)>, at: Setting): CD.Database {
    EndInTurn((d, k, id) => RecoverAttempt(d, k, id, at), db, open)
  }

  /** After recovery no stored attempt is open: each case that had one has come to
      rest, and every other is as it was. */
  lemma RecoveryEndsEveryAttempt(db: CD.Database, open: seq<(C.CaseKey, Id)>, at: Setting)
    requires CD.DatabaseOk(db) && ListsStoredAttempts(open, db)
    ensures CD.DatabaseOk(RecoverStoredCases(db, open, at))
    ensures EndsAllOpen(CaseView, OpenAttemptId, (before, after) => CaseComesToRest(before, after), db, RecoverStoredCases(db, open, at))
  {
    forall d, k, id | CD.DatabaseOk(d) && OpenAt(CaseView, OpenAttemptId, d, k) == Some(id)
      ensures CD.DatabaseOk(RecoverAttempt(d, k, id, at))
      ensures EndsOne(CaseView, OpenAttemptId, (before, after) => CaseComesToRest(before, after), d, k, RecoverAttempt(d, k, id, at))
    {
      RecoverAttemptEndsOne(d, k, id, at);
    }
    ListedAreEnded(CaseView, OpenAttemptId, d => CD.DatabaseOk(d), (before, after) => CaseComesToRest(before, after),
      (d, k, id) => RecoverAttempt(d, k, id, at), db, open);
  }

  lemma NoAttemptIsLeftRunning(db: CD.Database, last: CD.Database, k: C.CaseKey)
    requires CD.DatabaseOk(last) && EndsAllOpen(CaseView, OpenAttemptId, (before, after) => CaseComesToRest(before, after), db, last) && k in last.cases
    ensures !HasOpenAttempt(StoredCase(last, k)) && StoredCase(last, k).state != F.Attempting
  {
    AttemptingHasOpenAttempt(StoredCase(last, k));
    assert OpenAt(CaseView, OpenAttemptId, db, k).None? ==> CaseView(last, k) == CaseView(db, k);
  }

  /** The failure the backstop records is what the constructor makes of its message. */
  lemma BackstopFailureIsBuilt(s: CT.Surroundings, id: Id, message: string, now: Time)
    requires message != ""
    ensures var r := F.OutcomeFailed(FailureInfra, message, UNUSED, now);
      r.Ok? && !CD.Unstorable(s, C.RecordOutcome(id, r.value))
  {
    CD.ConstructedOutcomeIsStorable(s, id, F.OutcomeFailed(FailureInfra, message, UNUSED, now).value);
  }

  lemma AttemptBackstopCommits(db: CD.Database, k: C.CaseKey, c: C.Case, message: string, now: Time, o: F.Outcome)
    requires CD.DatabaseOk(db) && k in db.cases && c == StoredCase(db, k) && HasOpenAttempt(c) && message != ""
    requires F.OutcomeFailed(FailureInfra, message, UNUSED, now) == Ok(o)
    ensures var r := CD.Update(db, k, C.RecordOutcome(OpenAttempt(c).id, o));
      && r.Committed? && CaseView(r.value, k).Some? && !HasOpenAttempt(CaseView(r.value, k).value)
      && CaseSameEnds(C.After(c, C.RecordOutcome(OpenAttempt(c).id, o)), CaseView(r.value, k).value)
  {
    BackstopFailureIsBuilt(CD.SurroundingsOf(db), OpenAttempt(c).id, message, now);
    AttemptBackstopIsTaken(c, message, now, o);
    CaseEndingIsStored(db, k, C.RecordOutcome(OpenAttempt(c).id, o), c);
  }

  lemma AttemptBackstopIsTaken(c: C.Case, message: string, now: Time, o: F.Outcome)
    requires CI.Inv(c) && HasOpenAttempt(c) && message != ""
    requires F.OutcomeFailed(FailureInfra, message, UNUSED, now) == Ok(o)
    ensures var cmd := C.RecordOutcome(OpenAttempt(c).id, o);
      C.Step(C.Clean(c), cmd).Ok? && !HasOpenAttempt(C.After(c, cmd))
  {
    BackstopEndsAttempt(c, OpenAttempt(c).id, message, now);
  }
}
