/** The case as the object the store loads and the services mutate, each command
    proved to do what CaseModel says and to leave the object untouched when it
    does not go through. */
module CaseAggregate {
  import opened Kernel
  import opened CaseFacts
  import Model = CaseModel
  import Inv = CaseInvariant

  /** The checks a loaded case must pass: identity complete, trust and state in
      agreement, at most one open attempt. */
  ghost predicate Loadable(s: Model.Case) {
    && s.key.repository != "" && s.key.number >= 1 && s.requester.login != ""
    && !(s.state == Gated && s.requester.trust == Trusted)
    && !(s.state == Received && s.requester.trust == Untrusted)
    && (forall i, j | 0 <= i < j < |s.attempts| :: !(s.attempts[i].Open() && s.attempts[j].Open()))
  }

  /** Every case satisfying the invariant passes the load checks. */
  lemma InvIsLoadable(c: Model.Case)
    requires Inv.Inv(c)
    ensures Loadable(c)
  {}

  class Case {
    var id: Id
    const key: Model.CaseKey
    const requester: Requester
    const receivedAt: Time
    var state: CaseState
    var triage: Option<Triage>
    var approvals: seq<Approval>
    var attempts: seq<Attempt>
    var transitions: seq<Transition>
    var closure: Option<Closure>
    var changes: Model.Changes

    ghost function Value(): Model.Case
      reads this
    {
      Model.Case(id, key, requester, state, receivedAt, triage, approvals, attempts, transitions, closure)
    }

    ghost function Tracked(): Model.Tracked
      reads this
    {
      Model.Tracked(Value(), changes)
    }

    /** How a command ends: the model's new state, or the model's error and
        nothing changed. */
    ghost predicate Follows(before: Model.Tracked, step: Result<Model.Tracked>, err: Option<DomainError>)
      reads this
    {
      match step
      case Ok(after) => err == None && Tracked() == after
      case Err(e) => err == Some(e) && Tracked() == before
    }

    constructor FromSnapshot(s: Model.Case)
      ensures Tracked() == Model.Clean(s)
    {
      id, key, requester, receivedAt, state := s.id, s.key, s.requester, s.receivedAt, s.state;
      triage, approvals, attempts, transitions, closure := s.triage, s.approvals, s.attempts, s.transitions, s.closure;
      changes := Model.NoChanges(s);
    }

    method ClearChanges()
      modifies this`changes
      ensures Tracked() == Model.Clean(old(Value()))
    {
      changes := Model.Changes(None, [], [], map[], map[], None, [], state);
    }

    method AssignId(newId: Id) returns (err: Option<DomainError>)
      modifies this`id
      ensures err == if newId == 0 then Some(Invalid) else if old(id) != 0 then Some(Refused) else None
      ensures id == if err == None then newId else old(id)
    {
      if newId == 0 { return Some(Invalid); }
      if id != 0 { return Some(Refused); }
      id := newId;
      return None;
    }

    // ----- Scans -----

    method OpenAttempt() returns (i: nat)
      ensures i == Model.FirstOpen(attempts)
    {
      i := 0;
      while i < |attempts|
        invariant i <= |attempts|
        invariant forall j | 0 <= j < i :: !attempts[j].Open()
      {
        if attempts[i].Open() {
          return;
        }
        i := i + 1;
      }
    }

    method NextAttemptKind() returns (kind: AttemptKind)
      ensures kind == Model.NextAttemptKind(Value())
    {
      if |approvals| == 0 { return Auto; }
      if |attempts| == 0 { return Approved; }
      var last := attempts[|attempts| - 1].startedAt;
      var i := 0;
      while i < |approvals|
        invariant 0 <= i <= |approvals|
        invariant forall j | 0 <= j < i :: approvals[j].approvedAt < last
      {
        if !(approvals[i].approvedAt < last) {
          return Approved;
        }
        i := i + 1;
      }
      return Auto;
    }

    method RestartedBefore(ordinal: nat) returns (found: bool)
      ensures found <==> Model.RestartedBefore(attempts, ordinal)
    {
      var i := 0;
      while i < |attempts|
        invariant 0 <= i <= |attempts|
        invariant forall j | 0 <= j < i :: !(attempts[j].ordinal < ordinal && attempts[j].Restarted())
      {
        if attempts[i].ordinal < ordinal && attempts[i].Restarted() {
          return true;
        }
        i := i + 1;
      }
      return false;
    }

    method Target(attemptId: Id) returns (r: Result<nat>)
      ensures r == Model.Target(Value(), attemptId)
    {
      var i := OpenAttempt();
      if i == |attempts| { return Err(Refused); }
      if attemptId != 0 && attempts[i].id != 0 && attempts[i].id != attemptId { return Err(Refused); }
      return Ok(i);
    }

    // ----- Commands -----

    method Move(to: CaseState, cause: Cause, at: Time)
      modifies this`state, this`transitions, this`changes
      ensures Tracked() == Model.Move(old(Tracked()), to, cause, at)
    {
      var tr := Transition(state, to, cause, at);
      state := to;
      transitions := transitions + [tr];
      changes := changes.(transitions := changes.transitions + [tr], state := to);
    }

    method RecordTriage(t: Triage) returns (err: Option<DomainError>)
      modifies this
      ensures Follows(old(Tracked()), Model.StepTriage(old(Tracked()), t), err)
    {
      if t.size == SizeUnset { return Some(Invalid); }
      if t.rationale == "" || t.model == "" { return Some(Invalid); }
      if state != Received { return Some(Refused); }
      if triage.Some? { return Some(Refused); }
      triage := Some(t);
      changes := changes.(triage := Some(t));
      if t.size == Small {
        Move(Queued, CauseTriageSmall, t.triagedAt);
      } else {
        Move(AwaitingApproval, CauseTriageLarge, t.triagedAt);
      }
      return None;
    }

    method RecordApproval(a: Approval) returns (err: Option<DomainError>)
      modifies this
      ensures Follows(old(Tracked()), Model.StepApproval(old(Tracked()), a), err)
    {
      if a.approver.login == "" { return Some(Invalid); }
      if a.source == SourceUnset { return Some(Invalid); }
      if (a.source == SourceLabel) != (a.deliveryId != "") { return Some(Invalid); }
      if state.Terminal() { return Some(Refused); }
      approvals := approvals + [a];
      changes := changes.(approvals := changes.approvals + [a]);
      if state == Gated || state == AwaitingApproval || state == Failed {
        Move(Queued, CauseApproval, a.approvedAt);
      }
      return None;
    }

    method StartAttempt(kind: AttemptKind, budget: Budget, brief: string, at: Time) returns (err: Option<DomainError>)
      modifies this
      ensures Follows(old(Tracked()), Model.StepStart(old(Tracked()), kind, budget, brief, at), err)
    {
      if kind == KindUnset { return Some(Invalid); }
      if budget.maxTurns == 0 { return Some(Invalid); }
      if brief == "" { return Some(Invalid); }
      if state != Queued { return Some(Refused); }
      var open := OpenAttempt();
      if open < |attempts| { return Some(Refused); }
      var a := Attempt(0, |attempts| + 1, kind, budget, brief, at, None, None);
      attempts := attempts + [a];
      changes := changes.(attempts := changes.attempts + [a]);
      Move(Attempting, CauseAttemptStarted, at);
      return None;
    }

    method RecordRun(attemptId: Id, r: Run) returns (err: Option<DomainError>)
      modifies this
      ensures Follows(old(Tracked()), Model.StepRun(old(Tracked()), attemptId, r), err)
    {
      if r.runId == "" || r.model == "" || !ValidSha(r.baseSha) { return Some(Invalid); }
      var target := Target(attemptId);
      if target.Err? { return Some(target.error); }
      var i := target.value;
      var a := attempts[i];
      if a.run.Some? { return Some(Refused); }
      attempts := attempts[i := a.(run := Some(r))];
      changes := changes.(runs := changes.runs[a.ordinal := r]);
      return None;
    }

    method RecordOutcome(attemptId: Id, o: Outcome) returns (err: Option<DomainError>)
      modifies this
      ensures Follows(old(Tracked()), Model.StepOutcome(old(Tracked()), attemptId, o), err)
    {
      if o.kind == OutcomeKindUnset { return Some(Invalid); }
      if o.summary == "" { return Some(Invalid); }
      var target := Target(attemptId);
      if target.Err? { return Some(target.error); }
      var i := target.value;
      var a := attempts[i];
      var moves := state != Closed;
      var to, cause := state, CauseClosed;
      if moves {
        match o.kind {
          case PullRequestOpened => to, cause := Done, CausePullRequestOpened;
          case BudgetExhausted => to, cause := AwaitingApproval, CauseBudgetExhausted;
          case FailedOutcome => to, cause := Failed, CauseFailed;
          case _ =>
            match o.reason {
              case AbortOperatorStop => to, cause := AwaitingApproval, CauseOperatorStop;
              case AbortDaemonRestart =>
                var restarted := RestartedBefore(a.ordinal);
                if restarted {
                  to, cause := Failed, CauseRestartFailed;
                } else {
                  to, cause := Queued, CauseRestartRequeue;
                }
              case _ => return Some(Refused);
            }
        }
      }
      attempts := attempts[i := a.(outcome := Some(o))];
      changes := changes.(outcomes := changes.outcomes[a.ordinal := o]);
      if moves {
        Move(to, cause, o.endedAt);
      }
      return None;
    }

    method Close(cl: Closure) returns (err: Option<DomainError>)
      modifies this
      ensures Follows(old(Tracked()), Model.StepClose(old(Tracked()), cl), err)
    {
      if cl.deliveryId == "" { return Some(Invalid); }
      if state.Terminal() { return Some(Refused); }
      closure := Some(cl);
      changes := changes.(closure := Some(cl));
      Move(Closed, CauseClosed, cl.closedAt);
      return None;
    }

    /** Any one command, as a store update applies it. */
    method Apply(c: Model.Command) returns (err: Option<DomainError>)
      modifies this
      ensures Follows(old(Tracked()), Model.Step(old(Tracked()), c), err)
    {
      match c {
        case RecordTriage(t) => err := RecordTriage(t);
        case RecordApproval(a) => err := RecordApproval(a);
        case StartAttempt(kind, budget, brief, at) => err := StartAttempt(kind, budget, brief, at);
        case RecordRun(attemptId, r) => err := RecordRun(attemptId, r);
        case RecordOutcome(attemptId, o) => err := RecordOutcome(attemptId, o);
        case Close(cl) => err := Close(cl);
      }
    }
  }

  /** Rebuilds a case from a snapshot, re-checking what the rows could have lost. */
  method LoadCase(s: Model.Case) returns (r: Result<Case>)
    ensures r.Ok? <==> Loadable(s)
    ensures r.Err? ==> r.error == Invalid
    ensures r.Ok? ==> fresh(r.value) && r.value.Tracked() == Model.Clean(s)
  {
    if s.key.repository == "" || s.key.number < 1 || s.requester.login == "" { return Err(Invalid); }
    if (s.state == Gated && s.requester.trust == Trusted) || (s.state == Received && s.requester.trust == Untrusted) {
      return Err(Invalid);
    }
    var open := 0;
    var i := 0;
    while i < |s.attempts|
      invariant 0 <= i <= |s.attempts| && 0 <= open
      invariant open == 0 ==> forall j | 0 <= j < i :: !s.attempts[j].Open()
      invariant open == 1 ==> exists j | 0 <= j < i :: s.attempts[j].Open() && forall k | 0 <= k < i && k != j :: !s.attempts[k].Open()
      invariant open > 1 ==> exists j, k | 0 <= j < k < i :: s.attempts[j].Open() && s.attempts[k].Open()
    {
      if s.attempts[i].Open() {
        open := open + 1;
      }
      i := i + 1;
    }
    if open > 1 { return Err(Invalid); }
    var c := new Case.FromSnapshot(s);
    return Ok(c);
  }
}
