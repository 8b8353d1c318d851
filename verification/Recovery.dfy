/** After a crash: every open attempt and round is ended once, with the reason its
    case or bump calls for. And in a live daemon: the backstop that ends one whose
    runner came back without doing so. */
module Recovery {
  import opened Kernel
  import U = UpkeepFacts
  import B = BumpModel
  import BI = BumpInvariant
  import BL = BumpLaws
  import F = CaseFacts
  import C = CaseModel
  import CI = CaseInvariant
  import CL = CaseLaws

  const UNUSED := Usage(0, 0, 0, 0, 0)

  /** The sentence an outcome is recorded with; never empty. */
  type Sentence = s: string | s != "" witness "s"

  /** The moment of the recovery and what it writes on what it ends. */
  datatype Setting = Setting(now: Time, restarted: Sentence, closed: Sentence)

  // ----- Ending each in turn -----

  function Firsts<K(!new), V>(pairs: seq<(K, V)>): set<K> {
    set i | 0 <= i < |pairs| :: pairs[i].0
  }

  /** What a loop over `open` has made of the items: each listed one ended, or left
      alone if that was refused, and every other untouched. */
  ghost predicate EndedEach<K(!new), V>(end: (V, Id) -> Result<V>, before: map<K, V>, open: seq<(K, Id)>, after: map<K, V>) {
    && after.Keys == before.Keys
    && (forall i | 0 <= i < |open| :: open[i].0 in before &&
          after[open[i].0] == if end(before[open[i].0], open[i].1).Ok? then end(before[open[i].0], open[i].1).value else before[open[i].0])
    && (forall k | k in before && k !in Firsts(open) :: after[k] == before[k])
  }

  lemma EndedOneMore<K(!new), V>(end: (V, Id) -> Result<V>, before: map<K, V>, open: seq<(K, Id)>, i: nat, after: map<K, V>)
    requires i < |open| && EndedEach(end, before, open[..i], after)
    requires open[i].0 in before && forall j | 0 <= j < i :: open[j].0 != open[i].0
    ensures after[open[i].0] == before[open[i].0]
    ensures EndedEach(end, before, open[..i + 1],
      if end(before[open[i].0], open[i].1).Ok? then after[open[i].0 := end(before[open[i].0], open[i].1).value] else after)
  {
    assert open[i].0 !in Firsts(open[..i]);
    assert Firsts(open[..i + 1]) == Firsts(open[..i]) + {open[i].0} by {
      assert open[..i + 1] == open[..i] + [open[i]];
    }
    forall j | 0 <= j < i ensures open[..i + 1][j] == open[..i][j] {}
  }

  /** A failure on one is counted; the rest still get ended. */
  method EndAll<K(!new, ==), V>(end: (V, Id) -> Result<V>, items: map<K, V>, open: seq<(K, Id)>)
      returns (after: map<K, V>, refused: nat)
    requires forall i, j | 0 <= i < j < |open| :: open[i].0 != open[j].0
    requires forall i | 0 <= i < |open| :: open[i].0 in items
    ensures EndedEach(end, items, open, after)
    ensures refused == 0 <==> forall i | 0 <= i < |open| :: end(items[open[i].0], open[i].1).Ok?
  {
    after, refused := items, 0;
    var i := 0;
    while i < |open|
      invariant 0 <= i <= |open|
      invariant EndedEach(end, items, open[..i], after)
      invariant refused == 0 <==> forall j | 0 <= j < i :: end(items[open[j].0], open[j].1).Ok?
    {
      var key, id := open[i].0, open[i].1;
      EndedOneMore(end, items, open, i, after);
      var ended := end(after[key], id);
      match ended {
        case Ok(v) => after := after[key := v];
        case Err(_) => refused := refused + 1;
      }
      i := i + 1;
    }
    assert open[..i] == open;
  }

  // ----- Rounds -----

  /** A closed bump's round ended because it closed, any other's because of the
      restart. */
  function RoundEnding(b: B.Bump, at: Setting): U.RepairOutcome {
    if b.state == U.Closed then
      U.RepairOutcome(U.RepairAborted, at.now, UNUSED, at.closed,
                      "", LimitUnset, FailureUnset, "", U.AbortPullRequestClosed)
    else
      U.RepairOutcome(U.RepairAborted, at.now, UNUSED, at.restarted,
                      "", LimitUnset, FailureUnset, "", U.AbortDaemonRestart)
  }

  predicate HasOpenRound(b: B.Bump) {
    B.FirstOpen(b.attempts) < |b.attempts|
  }

  function OpenRound(b: B.Bump): U.RepairAttempt
    requires HasOpenRound(b)
  {
    b.attempts[B.FirstOpen(b.attempts)]
  }

  /** What recovery makes of one bump. */
  function RecoveredBump(b: B.Bump, at: Setting, maxRounds: int): B.Bump {
    if !HasOpenRound(b) then b
    else
      match B.StepOutcome(B.Clean(b), OpenRound(b).id, RoundEnding(b, at), maxRounds)
      case Ok(t) => t.bump
      case Err(_) => b
  }

  lemma RoundEndingIsAccepted(b: B.Bump, at: Setting, maxRounds: int)
    requires HasOpenRound(b)
    ensures B.StepOutcome(B.Clean(b), OpenRound(b).id, RoundEnding(b, at), maxRounds).Ok?
  {}

  /** Ending the open round leaves none open and takes a repairing bump back to the
      queue or gives it up. */
  lemma EndedRoundIsAtRest(b: B.Bump, at: Setting, maxRounds: int)
    requires BI.Inv(b, maxRounds) && HasOpenRound(b)
    ensures var u := B.StepOutcome(B.Clean(b), OpenRound(b).id, RoundEnding(b, at), maxRounds).value.bump;
      && !HasOpenRound(u) && u.state != U.Repairing
      && (if b.state == U.Repairing then u.state in {U.Queued, U.Abandoned} else u.state == b.state)
  {
    BI.EndRoundKeepsFacts(B.Clean(b), RoundEnding(b, at), maxRounds);
  }

  lemma RepairingHasOpenRound(b: B.Bump, maxRounds: int)
    requires BI.Inv(b, maxRounds)
    ensures b.state == U.Repairing ==> HasOpenRound(b)
  {}

  /** No round is left open, no bump repairing; a bump that was repairing is queued
      again or given up, and every other keeps its state. */
  lemma RecoveredBumpIsAtRest(b: B.Bump, at: Setting, maxRounds: int)
    requires BI.Inv(b, maxRounds)
    ensures var u := RecoveredBump(b, at, maxRounds);
      && BI.Inv(u, maxRounds) && !HasOpenRound(u) && u.state != U.Repairing
      && (if b.state == U.Repairing then u.state in {U.Queued, U.Abandoned} else u.state == b.state)
  {
    RepairingHasOpenRound(b, maxRounds);
    if HasOpenRound(b) {
      RoundEndingIsAccepted(b, at, maxRounds);
      EndedRoundIsAtRest(b, at, maxRounds);
      BI.OutcomeKeepsInv(B.Clean(b), OpenRound(b).id, RoundEnding(b, at), maxRounds, maxRounds);
    }
  }

  predicate NoRoundOpen(b: B.Bump) {
    forall i | 0 <= i < |b.attempts| :: b.attempts[i].outcome.Some?
  }

  /** The outcome recovery records on a round: an abort that used nothing, by the
      closing of a closed bump and by the restart of any other. */
  predicate CutOff(b: B.Bump, o: U.RepairOutcome) {
    && o.kind == U.RepairAborted
    && o.reason == if b.state == U.Closed then U.AbortPullRequestClosed else U.AbortDaemonRestart
  }

  /** Recovery told by the bump before and after: the last round is cut off, and a
      bump it kept repairing is queued if no restart cut one off before and a round
      is left, and given up otherwise. */
  ghost predicate RoundRecovered(b: B.Bump, u: B.Bump, at: Setting, maxRounds: int) {
    && b.attempts != [] && |u.attempts| == |b.attempts|
    && var n := |b.attempts| - 1;
    && u.attempts[n].outcome.Some? && CutOff(b, u.attempts[n].outcome.value)
    && u.attempts[n].outcome.value.usage == Usage(0, 0, 0, 0, 0) && u.attempts[n].outcome.value.endedAt == at.now
    && u.attempts[n].outcome.value.summary == (if b.state == U.Closed then at.closed else at.restarted)
    && u.attempts == b.attempts[n := b.attempts[n].(outcome := u.attempts[n].outcome)]
    && u == b.(attempts := u.attempts, state := u.state, transitions := u.transitions, abandonment := u.abandonment)
    && if b.state != U.Repairing then u.state == b.state && u.transitions == b.transitions && u.abandonment == b.abandonment
       else u.state == if !BL.RestartedEarlier(b) && BL.RoundLeft(b, maxRounds) then U.Queued else U.Abandoned
  }

  lemma RecoveredBumpIs(b: B.Bump, at: Setting, maxRounds: int)
    requires BI.Inv(b, maxRounds)
    ensures if NoRoundOpen(b) then RecoveredBump(b, at, maxRounds) == b
            else RoundRecovered(b, RecoveredBump(b, at, maxRounds), at, maxRounds)
  {
    BL.NothingOpenExactly(b.attempts);
    if !NoRoundOpen(b) {
      var id, o := OpenRound(b).id, RoundEnding(b, at);
      RoundEndingIsAccepted(b, at, maxRounds);
      BL.OutcomeEndsRound(B.Clean(b), id, o, maxRounds);
      if b.state == U.Repairing {
        BL.RunningRoundDecides(B.Clean(b), id, o, maxRounds);
      }
    }
  }

  /** The open rounds a query lists: each once, under its bump's key. */
  ghost predicate ListsOpenRounds(open: seq<(B.BumpKey, Id)>, bumps: map<B.BumpKey, B.Bump>) {
    && (forall i, j | 0 <= i < j < |open| :: open[i].0 != open[j].0)
    && (forall i | 0 <= i < |open| :: open[i].0 in bumps && HasOpenRound(bumps[open[i].0]) && OpenRound(bumps[open[i].0]).id == open[i].1)
    && (forall k | k in bumps && HasOpenRound(bumps[k]) :: exists i :: 0 <= i < |open| && open[i].0 == k)
  }

  /** One bump and the id its listed round has. */
  function EndRound(b: B.Bump, id: Id, at: Setting, maxRounds: int): Result<B.Bump> {
    match B.StepOutcome(B.Clean(b), id, RoundEnding(b, at), maxRounds)
    case Ok(t) => Ok(t.bump)
    case Err(e) => Err(e)
  }

  lemma EndRoundRecovers(b: B.Bump, at: Setting, maxRounds: int)
    requires HasOpenRound(b)
    ensures EndRound(b, OpenRound(b).id, at, maxRounds) == Ok(RecoveredBump(b, at, maxRounds))
  {
    RoundEndingIsAccepted(b, at, maxRounds);
  }

  /** Ends every open round; none of the outcomes is refused. */
  method RecoverBumps(bumps: map<B.BumpKey, B.Bump>, open: seq<(B.BumpKey, Id)>, at: Setting, maxRounds: int)
      returns (after: map<B.BumpKey, B.Bump>, refused: nat)
    requires ListsOpenRounds(open, bumps)
    ensures refused == 0 && after.Keys == bumps.Keys
    ensures forall k | k in bumps :: after[k] == RecoveredBump(bumps[k], at, maxRounds)
    ensures forall k | k in bumps && BI.Inv(bumps[k], maxRounds) ::
      if NoRoundOpen(bumps[k]) then after[k] == bumps[k] else RoundRecovered(bumps[k], after[k], at, maxRounds)
  {
    forall k | k in bumps && BI.Inv(bumps[k], maxRounds)
      ensures if NoRoundOpen(bumps[k]) then RecoveredBump(bumps[k], at, maxRounds) == bumps[k]
              else RoundRecovered(bumps[k], RecoveredBump(bumps[k], at, maxRounds), at, maxRounds)
    {
      RecoveredBumpIs(bumps[k], at, maxRounds);
    }
    ghost var end := (b, id) => EndRound(b, id, at, maxRounds);
    after, refused := EndAll((b, id) => EndRound(b, id, at, maxRounds), bumps, open);
    forall i | 0 <= i < |open|
      ensures end(bumps[open[i].0], open[i].1) == Ok(RecoveredBump(bumps[open[i].0], at, maxRounds))
    {
      EndRoundRecovers(bumps[open[i].0], at, maxRounds);
    }
  }

  // ----- Attempts -----

  function AttemptEnding(c: C.Case, at: Setting): F.Outcome {
    if c.state == F.Closed then
      F.Ended(F.Aborted, at.closed, UNUSED, at.now).(reason := F.AbortIssueClosed)
    else
      F.Ended(F.Aborted, at.restarted, UNUSED, at.now).(reason := F.AbortDaemonRestart)
  }

  predicate HasOpenAttempt(c: C.Case) {
    C.FirstOpen(c.attempts) < |c.attempts|
  }

  function OpenAttempt(c: C.Case): F.Attempt
    requires HasOpenAttempt(c)
  {
    c.attempts[C.FirstOpen(c.attempts)]
  }

  function RecoveredCase(c: C.Case, at: Setting): C.Case {
    if !HasOpenAttempt(c) then c
    else
      match C.StepOutcome(C.Clean(c), OpenAttempt(c).id, AttemptEnding(c, at))
      case Ok(t) => t.subject
      case Err(_) => c
  }

  lemma AttemptEndingIsAccepted(c: C.Case, at: Setting)
    requires HasOpenAttempt(c)
    ensures C.StepOutcome(C.Clean(c), OpenAttempt(c).id, AttemptEnding(c, at)).Ok?
  {}

  lemma EndedAttemptIsAtRest(c: C.Case, at: Setting)
    requires CI.Inv(c) && HasOpenAttempt(c)
    ensures var u := C.StepOutcome(C.Clean(c), OpenAttempt(c).id, AttemptEnding(c, at)).value.subject;
      && !HasOpenAttempt(u) && u.state != F.Attempting
      && (if c.state == F.Attempting then u.state in {F.Queued, F.Failed} else u.state == c.state)
  {
    CI.EndAttemptKeepsFacts(C.Clean(c), AttemptEnding(c, at));
  }

  lemma AttemptingHasOpenAttempt(c: C.Case)
    requires CI.Inv(c)
    ensures c.state == F.Attempting ==> HasOpenAttempt(c)
  {}

  /** No attempt is left open; an attempting case is queued or failed, and every
      other keeps its state. */
  lemma RecoveredCaseIsAtRest(c: C.Case, at: Setting)
    requires CI.Inv(c)
    ensures var u := RecoveredCase(c, at);
      && CI.Inv(u) && !HasOpenAttempt(u) && u.state != F.Attempting
      && (if c.state == F.Attempting then u.state in {F.Queued, F.Failed} else u.state == c.state)
  {
    AttemptingHasOpenAttempt(c);
    if HasOpenAttempt(c) {
      AttemptEndingIsAccepted(c, at);
      EndedAttemptIsAtRest(c, at);
      CI.OutcomeKeepsInv(C.Clean(c), OpenAttempt(c).id, AttemptEnding(c, at));
    }
  }

  predicate NoAttemptOpen(c: C.Case) {
    forall i | 0 <= i < |c.attempts| :: c.attempts[i].outcome.Some?
  }

  predicate AttemptCutOff(c: C.Case, o: F.Outcome) {
    && o.kind == F.Aborted
    && o.reason == if c.state == F.Closed then F.AbortIssueClosed else F.AbortDaemonRestart
  }

  /** Recovery told by the case before and after: the last attempt is cut off, and
      the case is queued again the first time that happens to it and failed the
      second; a closed one stays closed. */
  ghost predicate AttemptRecovered(c: C.Case, u: C.Case, at: Setting) {
    && c.attempts != [] && |u.attempts| == |c.attempts|
    && var n := |c.attempts| - 1;
    && u.attempts[n].outcome.Some? && AttemptCutOff(c, u.attempts[n].outcome.value)
    && u.attempts[n].outcome.value.usage == Usage(0, 0, 0, 0, 0) && u.attempts[n].outcome.value.endedAt == at.now
    && u.attempts[n].outcome.value.summary == (if c.state == F.Closed then at.closed else at.restarted)
    && u.attempts == c.attempts[n := c.attempts[n].(outcome := u.attempts[n].outcome)]
    && u == c.(attempts := u.attempts, state := u.state, transitions := u.transitions)
    && if c.state == F.Closed then u.state == F.Closed && u.transitions == c.transitions
       else u.state == if CL.RestartedEarlier(c) then F.Failed else F.Queued
  }

  /** An abort by restart or closing leads where recovery says. */
  lemma CutOffLeads(c: C.Case, u: C.Case, at: Setting, cause: F.Cause)
    requires c.attempts != [] && c.state in {F.Attempting, F.Closed}
    requires u == c.(attempts := u.attempts, state := u.state, transitions := u.transitions)
    requires u.attempts == c.attempts[|c.attempts| - 1 := c.attempts[|c.attempts| - 1].(outcome := Some(AttemptEnding(c, at)))]
    requires if c.state == F.Closed then u.state == F.Closed && u.transitions == c.transitions
             else CL.Leads(c, AttemptEnding(c, at), u.state, cause)
    ensures AttemptRecovered(c, u, at)
  {
    assert u.attempts[|c.attempts| - 1].outcome == Some(AttemptEnding(c, at));
  }

  lemma RecoveredByOutcome(c: C.Case, at: Setting)
    requires HasOpenAttempt(c)
    ensures var step := C.Step(C.Clean(c), C.RecordOutcome(OpenAttempt(c).id, AttemptEnding(c, at)));
      step.Ok? && RecoveredCase(c, at) == step.value.subject
  {
    AttemptEndingIsAccepted(c, at);
  }

  lemma OutcomeRecovers(c: C.Case, id: Id, at: Setting)
    requires CI.AttemptsOk(c.attempts) && c.state in {F.Attempting, F.Closed}
    requires C.Step(C.Clean(c), C.RecordOutcome(id, AttemptEnding(c, at))).Ok?
    ensures AttemptRecovered(c, C.Step(C.Clean(c), C.RecordOutcome(id, AttemptEnding(c, at))).value.subject, at)
  {
    CL.OutcomeDecides(C.Clean(c), id, AttemptEnding(c, at));
    var u := C.Step(C.Clean(c), C.RecordOutcome(id, AttemptEnding(c, at))).value.subject;
    CutOffLeads(c, u, at, if c.state == F.Closed then F.CauseClosed else u.transitions[|c.transitions|].cause);
  }

  lemma RecoveredCaseIs(c: C.Case, at: Setting)
    requires CI.Inv(c)
    ensures if NoAttemptOpen(c) then RecoveredCase(c, at) == c else AttemptRecovered(c, RecoveredCase(c, at), at)
  {
    CL.NothingOpenExactly(c.attempts);
    if !NoAttemptOpen(c) {
      RecoveredByOutcome(c, at);
      OpenCaseHasState(c);
      OutcomeRecovers(c, OpenAttempt(c).id, at);
    }
  }

  lemma OpenCaseHasState(c: C.Case)
    requires CI.Inv(c) && HasOpenAttempt(c)
    ensures c.state in {F.Attempting, F.Closed}
  {}

  ghost predicate ListsOpenAttempts(open: seq<(C.CaseKey, Id)>, cases: map<C.CaseKey, C.Case>) {
    && (forall i, j | 0 <= i < j < |open| :: open[i].0 != open[j].0)
    && (forall i | 0 <= i < |open| :: open[i].0 in cases && HasOpenAttempt(cases[open[i].0]) && OpenAttempt(cases[open[i].0]).id == open[i].1)
    && (forall k | k in cases && HasOpenAttempt(cases[k]) :: exists i :: 0 <= i < |open| && open[i].0 == k)
  }

  function EndAttempt(c: C.Case, id: Id, at: Setting): Result<C.Case> {
    match C.StepOutcome(C.Clean(c), id, AttemptEnding(c, at))
    case Ok(t) => Ok(t.subject)
    case Err(e) => Err(e)
  }

  lemma EndAttemptRecovers(c: C.Case, at: Setting)
    requires HasOpenAttempt(c)
    ensures EndAttempt(c, OpenAttempt(c).id, at) == Ok(RecoveredCase(c, at))
  {
    AttemptEndingIsAccepted(c, at);
  }

  /** Ends every open attempt; none of the outcomes is refused. */
  method RecoverCases(cases: map<C.CaseKey, C.Case>, open: seq<(C.CaseKey, Id)>, at: Setting)
      returns (after: map<C.CaseKey, C.Case>, refused: nat)
    requires ListsOpenAttempts(open, cases)
    ensures refused == 0 && after.Keys == cases.Keys
    ensures forall k | k in cases :: after[k] == RecoveredCase(cases[k], at)
    ensures forall k | k in cases && CI.Inv(cases[k]) ::
      if NoAttemptOpen(cases[k]) then after[k] == cases[k] else AttemptRecovered(cases[k], after[k], at)
  {
    forall k | k in cases && CI.Inv(cases[k])
      ensures if NoAttemptOpen(cases[k]) then RecoveredCase(cases[k], at) == cases[k]
              else AttemptRecovered(cases[k], RecoveredCase(cases[k], at), at)
    {
      RecoveredCaseIs(cases[k], at);
    }
    ghost var end := (c, id) => EndAttempt(c, id, at);
    after, refused := EndAll((c, id) => EndAttempt(c, id, at), cases, open);
    forall i | 0 <= i < |open|
      ensures end(cases[open[i].0], open[i].1) == Ok(RecoveredCase(cases[open[i].0], at))
    {
      EndAttemptRecovers(cases[open[i].0], at);
    }
  }

  // ----- The backstop -----

  function BackstopOutcome(message: string, now: Time): U.RepairOutcome {
    U.RepairOutcome(U.RepairFailed, now, UNUSED, message, "", LimitUnset, FailureInfra, message, U.AbortUnset)
  }

  /** What the repair backstop does with a bump it has just read: nothing while
      shutting down or when the round is over, and otherwise an infra failure. */
  function BackstopRound(b: B.Bump, repairId: Id, shuttingDown: bool, message: string, now: Time, maxRounds: int): Option<Result<B.Tracked>> {
    if shuttingDown || !HasOpenRound(b) || OpenRound(b).id != repairId then None
    else
      Some(B.StepOutcome(B.Clean(b), repairId, BackstopOutcome(message, now), maxRounds))
  }

  function BackstopAttempt(c: C.Case, attemptId: Id, shuttingDown: bool, message: string, now: Time): Option<Result<C.Tracked>> {
    if shuttingDown || !HasOpenAttempt(c) || OpenAttempt(c).id != attemptId then None
    else
      match F.OutcomeFailed(FailureInfra, message, UNUSED, now)
      case Err(_) => None
      case Ok(o) => Some(C.StepOutcome(C.Clean(c), attemptId, o))
  }

  /** The last round ended as a failure of the machinery. */
  predicate LastFailed(rounds: seq<U.RepairAttempt>, message: string) {
    && rounds != [] && rounds[|rounds| - 1].outcome.Some?
    && var o := rounds[|rounds| - 1].outcome.value;
       o.kind == U.RepairFailed && o.failureClass == FailureInfra && o.message == message
  }

  predicate LastAttemptFailed(attempts: seq<F.Attempt>, message: string) {
    && attempts != [] && attempts[|attempts| - 1].outcome.Some?
    && var o := attempts[|attempts| - 1].outcome.value;
       o.kind == F.FailedOutcome && o.failureClass == FailureInfra && o.message == message
  }

  /** When the backstop writes, it is never refused, and the round is over: the
      bump, if it was still repairing, is queued again or out of rounds. */
  lemma BackstopEndsRound(b: B.Bump, repairId: Id, message: string, now: Time, maxRounds: int)
    requires BI.Inv(b, maxRounds) && HasOpenRound(b) && OpenRound(b).id == repairId && message != ""
    ensures var r := BackstopRound(b, repairId, false, message, now, maxRounds);
      && r.Some? && r.value.Ok? && !HasOpenRound(r.value.value.bump)
      && (b.state == U.Repairing ==>
            r.value.value.bump.state == (if B.Rounds(b) < B.Cap(b, maxRounds) then U.Queued else U.Abandoned))
      && (b.state != U.Repairing ==> r.value.value.bump.state == b.state)
      && LastFailed(r.value.value.bump.attempts, message)
  {
    BI.EndRoundKeepsFacts(B.Clean(b), BackstopOutcome(message, now), maxRounds);
  }

  lemma BackstopEndsAttempt(c: C.Case, attemptId: Id, message: string, now: Time)
    requires CI.Inv(c) && HasOpenAttempt(c) && OpenAttempt(c).id == attemptId && message != ""
    ensures var r := BackstopAttempt(c, attemptId, false, message, now);
      && r.Some? && r.value.Ok? && !HasOpenAttempt(r.value.value.subject)
      && r.value.value.subject.state == (if c.state == F.Closed then F.Closed else F.Failed)
      && LastAttemptFailed(r.value.value.subject.attempts, message)
  {
    CI.EndAttemptKeepsFacts(C.Clean(c), F.OutcomeFailed(FailureInfra, message, UNUSED, now).value);
  }

  /** Standing down on shutdown keeps the round for recovery, which requeues a
      bump that has a round left and no restart behind it. */
  lemma ShutdownLeavesTheRequeue(b: B.Bump, repairId: Id, message: string, at: Setting, maxRounds: int)
    requires BI.Inv(b, maxRounds) && b.state == U.Repairing
    ensures BackstopRound(b, repairId, true, message, at.now, maxRounds).None?
    ensures RecoveredBump(b, at, maxRounds).state == U.Queued <==>
      B.Rounds(b) < B.Cap(b, maxRounds) && !B.RestartedBefore(b.attempts, |b.attempts|)
  {
    assert B.FirstOpen(b.attempts) == |b.attempts| - 1;
    RoundEndingIsAccepted(b, at, maxRounds);
  }
}
