/** The bump as the object the store loads and the services mutate. Each command
    is proved to do to the object what BumpModel says it does to the value, and
    to leave the object untouched when it does not go through. */
module BumpAggregate {
  import opened Kernel
  import opened UpkeepFacts
  import Model = BumpModel
  import Inv = BumpInvariant

  /** The checks on a row set that a loaded bump must pass: identity complete,
      at most one open round, one verdict per head, and the fact that owns the
      state is there. */
  ghost predicate Loadable(s: Model.Bump) {
    && s.key.repository != "" && s.key.number >= 1 && s.branch != "" && s.baseBranch != "" && ValidSha(s.headSha)
    && (forall i, j | 0 <= i < j < |s.attempts| :: !(s.attempts[i].Open() && s.attempts[j].Open()))
    && (forall i, j | 0 <= i < j < |s.verdicts| :: s.verdicts[i].headSha != s.verdicts[j].headSha)
    && (s.state == Abandoned ==> s.abandonment.Some?)
    && (s.state == Closed ==> s.closure.Some?)
  }

  /** Every bump satisfying the invariant passes the load checks. */
  lemma InvIsLoadable(b: Model.Bump, maxRounds: int)
    requires Inv.Inv(b, maxRounds)
    ensures Loadable(b)
  {}

  class Bump {
    var id: Id
    const key: Model.BumpKey
    const branch: string
    const baseBranch: string
    const openedAt: Time
    var headSha: Sha
    var state: BumpState
    var verdicts: seq<CheckVerdict>
    var attempts: seq<RepairAttempt>
    var transitions: seq<BumpTransition>
    var abandonment: Option<BumpAbandonment>
    var closure: Option<BumpClosure>
    var changes: Model.Changes

    ghost function Value(): Model.Bump
      reads this
    {
      Model.Bump(id, key, branch, baseBranch, openedAt, headSha, state, verdicts, attempts, transitions, abandonment, closure)
    }

    ghost function Tracked(): Model.Tracked
      reads this
    {
      Model.Tracked(Value(), changes)
    }

    /** How a command ends: the model's new state, or the model's error and
        nothing changed. */
    ghost predicate Follows(before: Model.Tracked, step: Result<Model.Tracked>, err: Option<DomainError>)
      reads this
    {
      match step
      case Ok(after) => err == None && Tracked() == after
      case Err(e) => err == Some(e) && Tracked() == before
    }

    constructor FromSnapshot(s: Model.Bump)
      ensures Value() == s && Tracked() == Model.Clean(s)
    {
      id, key, branch, baseBranch, openedAt := s.id, s.key, s.branch, s.baseBranch, s.openedAt;
      headSha, state, verdicts, attempts, transitions := s.headSha, s.state, s.verdicts, s.attempts, s.transitions;
      abandonment, closure := s.abandonment, s.closure;
      changes := Model.NoChanges(s);
    }

    method ClearChanges()
      modifies this`changes
      ensures Tracked() == Model.Clean(old(Value()))
    {
      changes := Model.Changes([], [], map[], map[], None, false, None, [], headSha, state);
    }

    method AssignId(newId: Id) returns (err: Option<DomainError>)
      modifies this`id
      ensures err == if newId == 0 then Some(Invalid) else if old(id) != 0 then Some(Refused) else None
      ensures id == if err == None then newId else old(id)
    {
      if newId == 0 { return Some(Invalid); }
      if id != 0 { return Some(Refused); }
      id := newId;
      return None;
    }

    // ----- Scans -----

    method CurrentVerdict() returns (v: Option<CheckVerdict>)
      ensures v == Model.CurrentVerdict(Value())
    {
      var i := 0;
      while i < |verdicts|
        invariant 0 <= i <= |verdicts|
        invariant Model.FindVerdict(verdicts, headSha) == Model.FindVerdict(verdicts[i..], headSha)
      {
        if verdicts[i].headSha == headSha {
          return Some(verdicts[i]);
        }
        assert verdicts[i..][1..] == verdicts[i + 1..];
        i := i + 1;
      }
      return None;
    }

    method OpenRepair() returns (i: nat)
      ensures i == Model.FirstOpen(attempts)
    {
      i := 0;
      while i < |attempts|
        invariant i <= |attempts|
        invariant forall j | 0 <= j < i :: !attempts[j].Open()
      {
        if attempts[i].Open() {
          return;
        }
        i := i + 1;
      }
    }

    method RetryGrants() returns (n: nat)
      ensures n == Model.CountCause(transitions, CauseOperatorRetry)
    {
      n := 0;
      var i := 0;
      while i < |transitions|
        invariant 0 <= i <= |transitions|
        invariant n == Model.CountCause(transitions[..i], CauseOperatorRetry)
      {
        assert transitions[..i + 1][..i] == transitions[..i];
        if transitions[i].cause == CauseOperatorRetry {
          n := n + 1;
        }
        i := i + 1;
      }
      assert transitions[..i] == transitions;
    }

    method RoundCap(maxRounds: int) returns (n: int)
      ensures n == Model.Cap(Value(), maxRounds)
    {
      var grants := RetryGrants();
      n := maxRounds + grants;
    }

    method RestartedBefore(round: nat) returns (found: bool)
      ensures found <==> Model.RestartedBefore(attempts, round)
    {
      var i := 0;
      while i < |attempts|
        invariant 0 <= i <= |attempts|
        invariant forall j | 0 <= j < i :: !(attempts[j].round < round && attempts[j].Restarted())
      {
        if attempts[i].round < round && attempts[i].Restarted() {
          return true;
        }
        i := i + 1;
      }
      return false;
    }

    method HasVerdictFor(sha: Sha) returns (found: bool)
      ensures found <==> Model.FindVerdict(verdicts, sha).Some?
    {
      Inv.FindVerdictFinds(verdicts, sha);
      var i := 0;
      while i < |verdicts|
        invariant 0 <= i <= |verdicts|
        invariant forall j | 0 <= j < i :: verdicts[j].headSha != sha
      {
        if verdicts[i].headSha == sha {
          return true;
        }
        i := i + 1;
      }
      return false;
    }

    method Target(attemptId: Id) returns (r: Result<nat>)
      ensures r == Model.Target(Value(), attemptId)
    {
      var i := OpenRepair();
      if i == |attempts| { return Err(Refused); }
      if attemptId != 0 && attempts[i].id != 0 && attempts[i].id != attemptId { return Err(Refused); }
      return Ok(i);
    }

    // ----- Effects -----

    method Move(to: BumpState, cause: BumpCause, at: Time)
      modifies this`state, this`transitions, this`changes
      ensures Tracked() == Model.Move(old(Tracked()), to, cause, at)
    {
      var tr := BumpTransition(state, to, cause, at);
      state := to;
      transitions := transitions + [tr];
      changes := changes.(transitions := changes.transitions + [tr], state := to);
    }

    method SetHead(sha: Sha)
      modifies this`headSha, this`changes
      ensures Tracked() == Model.SetHead(old(Tracked()), sha)
    {
      headSha := sha;
      changes := changes.(headSha := sha);
    }

    method SetAbandonment(reason: AbandonReason, detail: string, at: Time)
      modifies this`abandonment, this`changes
      ensures Tracked() == Model.SetAbandonment(old(Tracked()), reason, detail, at)
    {
      var text := detail;
      if text == "" {
        text := ReasonText(reason);
      }
      var a := BumpAbandonment(reason, text, at);
      abandonment := Some(a);
      changes := changes.(abandonment := Some(a), dropAbandon := false);
    }

    // ----- Commands -----

    method RecordVerdict(v: CheckVerdict, maxRounds: int) returns (err: Option<DomainError>)
      modifies this
      ensures Follows(old(Tracked()), Model.StepVerdict(old(Tracked()), v, maxRounds), err)
    {
      if v.conclusion == ConclusionUnset { return Some(Invalid); }
      if !ValidSha(v.headSha) { return Some(Invalid); }
      if (v.conclusion == CheckSuccess) != (v.failingContexts == "") { return Some(Invalid); }
      if state != AwaitingChecks { return Some(Refused); }
      if v.headSha != headSha { return Some(Refused); }
      var seen := HasVerdictFor(v.headSha);
      if seen { return Some(Refused); }
      verdicts := verdicts + [v];
      changes := changes.(verdicts := changes.verdicts + [v]);
      var cap := RoundCap(maxRounds);
      if v.conclusion == CheckSuccess {
        Move(Green, CauseVerdictSuccess, v.concludedAt);
      } else if |attempts| < cap {
        Move(Queued, CauseVerdictFailure, v.concludedAt);
      } else {
        SetAbandonment(AbandonRoundsExhausted, v.failingContexts, v.concludedAt);
        Move(Abandoned, CauseVerdictFailureCapReached, v.concludedAt);
      }
      return None;
    }

    method AdvanceHead(sha: Sha, at: Time) returns (err: Option<DomainError>)
      modifies this
      ensures Follows(old(Tracked()), Model.StepAdvance(old(Tracked()), sha, at), err)
    {
      if !ValidSha(sha) { return Some(Invalid); }
      if state == Closed || state == Abandoned { return Some(Refused); }
      if sha == headSha { return Some(Refused); }
      SetHead(sha);
      if state != AwaitingChecks {
        Move(AwaitingChecks, CauseHeadAdvanced, at);
      }
      return None;
    }

    method StartRepair(budget: Budget, brief: string, at: Time, maxRounds: int) returns (err: Option<DomainError>)
      modifies this
      ensures Follows(old(Tracked()), Model.StepStart(old(Tracked()), budget, brief, at, maxRounds), err)
    {
      if budget.maxTurns == 0 { return Some(Invalid); }
      if brief == "" { return Some(Invalid); }
      if state != Queued { return Some(Refused); }
      var open := OpenRepair();
      if open < |attempts| { return Some(Refused); }
      var cap := RoundCap(maxRounds);
      if |attempts| >= cap { return Some(Refused); }
      var a := RepairAttempt(0, |attempts| + 1, headSha, budget, brief, at, None, None);
      attempts := attempts + [a];
      changes := changes.(attempts := changes.attempts + [a]);
      Move(Repairing, CauseRepairStarted, at);
      return None;
    }

    method RecordRun(attemptId: Id, r: Run) returns (err: Option<DomainError>)
      modifies this
      ensures Follows(old(Tracked()), Model.StepRun(old(Tracked()), attemptId, r), err)
    {
      if r.runId == "" || r.model == "" || !ValidSha(r.baseSha) { return Some(Invalid); }
      var target := Target(attemptId);
      if target.Err? { return Some(target.error); }
      var i := target.value;
      var a := attempts[i];
      if a.run.Some? { return Some(Refused); }
      attempts := attempts[i := a.(run := Some(r))];
      changes := changes.(runs := changes.runs[a.round := r]);
      return None;
    }

    method OutcomeMove(round: nat, o: RepairOutcome, maxRounds: int) returns (e: Model.Ending)
      ensures e == Model.OutcomeMove(Value(), round, o, maxRounds)
    {
      var cap := RoundCap(maxRounds);
      var again := |attempts| < cap;
      var capped := Model.Ending(Abandoned, CauseRepairRequeueCapped, Some(AbandonRoundsExhausted));
      match o.kind {
        case Pushed => return Model.Ending(AwaitingChecks, CauseRepairPushed, None);
        case NoChange => return Model.Ending(Abandoned, CauseRepairNoChange, Some(AbandonNoChange));
        case BudgetExhausted => return Model.Ending(Abandoned, CauseRepairBudgetExhausted, Some(AbandonBudgetExhausted));
        case RepairFailed =>
          if o.failureClass == FailureInfra {
            return if again then Model.Ending(Queued, CauseRepairFailedInfraRequeued, None) else capped;
          }
          return Model.Ending(Abandoned, CauseRepairFailedAbandoned, Some(AbandonRepairFailed));
        case _ =>
      }
      match o.reason {
        case AbortOperatorStop =>
          return Model.Ending(Abandoned, CauseRepairAbortedOperatorStop, Some(AbandonOperatorStop));
        case AbortDaemonRestart =>
          var restarted := RestartedBefore(round);
          if restarted {
            return Model.Ending(Abandoned, CauseRepairAbortedRestartAbandon, Some(AbandonRestartFailed));
          }
          return if again then Model.Ending(Queued, CauseRepairAbortedRestartRequeue, None) else capped;
        case _ =>
      }
      return Model.Ending(Closed, CauseBumpClosed, None);
    }

    method RecordOutcome(attemptId: Id, o: RepairOutcome, maxRounds: int) returns (err: Option<DomainError>)
      modifies this
      ensures Follows(old(Tracked()), Model.StepOutcome(old(Tracked()), attemptId, o, maxRounds), err)
    {
      if !ValidOutcome(o) { return Some(Invalid); }
      var target := Target(attemptId);
      if target.Err? { return Some(target.error); }
      var i := target.value;
      var a := attempts[i];
      if o.kind == Pushed && o.headSha == a.baseSha { return Some(Invalid); }
      var moves := state == Repairing;
      if o.kind == RepairAborted && o.reason == AbortPullRequestClosed && state != Closed { return Some(Refused); }
      var e := Model.Ending(state, CauseBumpClosed, None);
      if moves {
        e := OutcomeMove(a.round, o, maxRounds);
      }
      attempts := attempts[i := a.(outcome := Some(o))];
      changes := changes.(outcomes := changes.outcomes[a.round := o]);
      if o.kind == Pushed {
        SetHead(o.headSha);
      }
      if moves {
        if e.reason.Some? {
          SetAbandonment(e.reason.value, o.summary, o.endedAt);
        }
        Move(e.to, e.cause, o.endedAt);
      }
      return None;
    }

    method Abandon(a: BumpAbandonment) returns (err: Option<DomainError>)
      modifies this
      ensures Follows(old(Tracked()), Model.StepAbandon(old(Tracked()), a), err)
    {
      if a.reason == AbandonUnset { return Some(Invalid); }
      if a.detail == "" { return Some(Invalid); }
      if a.reason != AbandonChecksNeverConcluded { return Some(Refused); }
      if state == Closed || state == Abandoned { return Some(Refused); }
      SetAbandonment(a.reason, a.detail, a.abandonedAt);
      Move(Abandoned, CauseChecksNeverConcluded, a.abandonedAt);
      return None;
    }

    method Retry(at: Time) returns (err: Option<DomainError>)
      modifies this
      ensures Follows(old(Tracked()), Model.StepRetry(old(Tracked()), at), err)
    {
      if state != Abandoned && state != Green { return Some(Refused); }
      var to := AwaitingChecks;
      var v := CurrentVerdict();
      if v.Some? {
        if v.value.conclusion == CheckSuccess { return Some(Refused); }
        to := Queued;
      }
      if abandonment.Some? {
        abandonment := None;
        changes := changes.(abandonment := None, dropAbandon := true);
      }
      Move(to, CauseOperatorRetry, at);
      return None;
    }

    method Close(cl: BumpClosure) returns (err: Option<DomainError>)
      modifies this
      ensures Follows(old(Tracked()), Model.StepClose(old(Tracked()), cl), err)
    {
      if cl.kind == ClosureUnset { return Some(Invalid); }
      if cl.deliveryId == "" { return Some(Invalid); }
      if state == Closed { return Some(Refused); }
      closure := Some(cl);
      changes := changes.(closure := Some(cl));
      Move(Closed, CauseBumpClosed, cl.closedAt);
      return None;
    }

    /** Any one command, as a store update applies it. */
    method Apply(c: Model.Command) returns (err: Option<DomainError>)
      modifies this
      ensures Follows(old(Tracked()), Model.Step(old(Tracked()), c), err)
    {
      match c {
        case RecordVerdict(v, maxRounds) => err := RecordVerdict(v, maxRounds);
        case AdvanceHead(sha, at) => err := AdvanceHead(sha, at);
        case StartRepair(budget, brief, at, maxRounds) => err := StartRepair(budget, brief, at, maxRounds);
        case RecordRun(attemptId, r) => err := RecordRun(attemptId, r);
        case RecordOutcome(attemptId, o, maxRounds) => err := RecordOutcome(attemptId, o, maxRounds);
        case Abandon(a) => err := Abandon(a);
        case Retry(at) => err := Retry(at);
        case Close(cl) => err := Close(cl);
      }
    }
  }

  /** Rebuilds a bump from a snapshot, re-checking what the rows could have lost. */
  method LoadBump(s: Model.Bump) returns (r: Result<Bump>)
    ensures r.Ok? <==> Loadable(s)
    ensures r.Err? ==> r.error == Invalid
    ensures r.Ok? ==> fresh(r.value) && r.value.Tracked() == Model.Clean(s)
  {
    if s.key.repository == "" || s.key.number < 1 || s.branch == "" || s.baseBranch == "" { return Err(Invalid); }
    if !ValidSha(s.headSha) { return Err(Invalid); }
    var open := 0;
    var i := 0;
    while i < |s.attempts|
      invariant 0 <= i <= |s.attempts| && 0 <= open
      invariant open == 0 ==> forall j | 0 <= j < i :: !s.attempts[j].Open()
      invariant open == 1 ==> exists j | 0 <= j < i :: s.attempts[j].Open() && forall k | 0 <= k < i && k != j :: !s.attempts[k].Open()
      invariant open > 1 ==> exists j, k | 0 <= j < k < i :: s.attempts[j].Open() && s.attempts[k].Open()
    {
      if s.attempts[i].Open() {
        open := open + 1;
      }
      i := i + 1;
    }
    if open > 1 { return Err(Invalid); }
    var heads: set<Sha> := {};
    i := 0;
    while i < |s.verdicts|
      invariant 0 <= i <= |s.verdicts|
      invariant heads == set j | 0 <= j < i :: s.verdicts[j].headSha
      invariant forall j, k | 0 <= j < k < i :: s.verdicts[j].headSha != s.verdicts[k].headSha
    {
      if s.verdicts[i].headSha in heads { return Err(Invalid); }
      heads := heads + {s.verdicts[i].headSha};
      i := i + 1;
    }
    if s.state == Abandoned && s.abandonment.None? { return Err(Invalid); }
    if s.state == Closed && s.closure.None? { return Err(Invalid); }
    var b := new Bump.FromSnapshot(s);
    return Ok(b);
  }
}
