/** Whole runs of a case: the trust gate, the price of an attempt, which kind of
    attempt an approval buys, and the single restart. */
module CaseRuns {
  import opened Kernel
  import opened CaseFacts
  import opened CaseModel
  import opened CaseInvariant

  // ----- Reading the log -----

  /** The entry before a start is the one that queued the case. */
  lemma StartFollowsQueueing(log: seq<Transition>, trust: Trust, i: nat)
    requires LogOk(log, trust) && i < |log| && log[i].cause == CauseAttemptStarted
    ensures i > 0 && log[i - 1].cause in {CauseTriageSmall, CauseApproval, CauseRestartRequeue}
  {
    if i > 0 {
      assert log[..i][i - 1] == log[i - 1];
      assert Listed(log[i - 1].from, log[i - 1].to, log[i - 1].cause);
    }
  }

  /** No entry follows a terminal state. */
  lemma NothingAfterTerminal(log: seq<Transition>, trust: Trust, i: nat)
    requires LogOk(log, trust) && i + 1 < |log|
    ensures log[i + 1].from == log[i].to && !log[i].to.Terminal()
  {
    assert log[..i + 1][i] == log[i];
    assert Listed(log[i + 1].from, log[i + 1].to, log[i + 1].cause);
  }

  /** In the log of an untrusted case an approval out of the gate comes first. */
  lemma GatedLogStartsWithApproval(log: seq<Transition>, i: nat)
    requires LogOk(log, Untrusted) && i < |log| && log[i].cause == CauseAttemptStarted
    ensures i > 0 && log[0].from == Gated && log[0].cause == CauseApproval && CountCause(log, CauseApproval) > 0
  {
    StartFollowsQueueing(log, Untrusted, i);
    NothingAfterTerminal(log, Untrusted, 0);
    assert log[..0] == [];
    assert Listed(log[0].from, log[0].to, log[0].cause);
    CountIsPositive(log, 0);
  }

  /** An untrusted case is never triaged, and every attempt it gets comes after
      an approval that took it out of the gate. */
  lemma UntrustedNeedsApproval(c: Case, i: nat)
    requires Inv(c) && c.requester.trust == Untrusted
    ensures c.triage.None?
    ensures i < |c.transitions| && c.transitions[i].cause == CauseAttemptStarted ==>
      i > 0 && c.transitions[0].from == Gated && c.transitions[0].cause == CauseApproval && c.approvals != []
  {
    NoCauseFrom(c.transitions, Untrusted, CauseTriageSmall);
    NoCauseFrom(c.transitions, Untrusted, CauseTriageLarge);
    if i < |c.transitions| && c.transitions[i].cause == CauseAttemptStarted {
      GatedLogStartsWithApproval(c.transitions, i);
    }
  }

  /** Only the initial state can be Received or Gated. */
  lemma {:induction false} NeverInState(log: seq<Transition>, trust: Trust, s: CaseState)
    requires LogOk(log, trust) && s in {Received, Gated}
    ensures forall i | 0 <= i < |log| :: log[i].to != s
    ensures forall i | 0 < i < |log| :: log[i].from != s
  {
    forall i | 0 <= i < |log| ensures log[i].to != s {
      assert Listed(log[i].from, log[i].to, log[i].cause);
    }
    forall i | 0 < i < |log| ensures log[i].from != s {
      assert log[..i][i - 1] == log[i - 1];
    }
  }

  /** A cause that leaves Received is not in the log of an untrusted case. */
  lemma {:induction false} NoCauseFrom(log: seq<Transition>, trust: Trust, cause: Cause)
    requires LogOk(log, trust) && trust == Untrusted && cause in {CauseTriageSmall, CauseTriageLarge}
    ensures CountCause(log, cause) == 0
  {
    if log != [] {
      var rest, n := log[..|log| - 1], |log| - 1;
      forall i | 0 <= i < |rest| ensures rest[..i] == log[..i] {}
      NoCauseFrom(rest, trust, cause);
      assert log[n].from == StateAfter(rest, trust) && Listed(log[n].from, log[n].to, log[n].cause);
      NeverInState(rest, trust, Received);
    }
  }

  lemma {:induction false} CountIsPositive(log: seq<Transition>, i: nat)
    requires i < |log|
    ensures CountCause(log, log[i].cause) > 0
  {
    if i < |log| - 1 {
      CountIsPositive(log[..|log| - 1], i);
    }
  }

  lemma {:induction false} CountFinds(log: seq<Transition>, cause: Cause) returns (i: nat)
    requires CountCause(log, cause) > 0
    ensures i < |log| && log[i].cause == cause
  {
    if log[|log| - 1].cause == cause {
      i := |log| - 1;
    } else {
      i := CountFinds(log[..|log| - 1], cause);
    }
  }

  /** A large triage is the first entry of its log. */
  lemma LargeLogStartsParked(log: seq<Transition>, trust: Trust)
    requires LogOk(log, trust) && CountCause(log, CauseTriageLarge) > 0
    ensures log != [] && log[0].cause == CauseTriageLarge && log[0].to == AwaitingApproval
  {
    var k := CountFinds(log, CauseTriageLarge);
    NeverInState(log, trust, Received);
    assert Listed(log[k].from, log[k].to, log[k].cause);
  }

  /** What leaves AwaitingApproval is an approval or a closure, and nothing
      follows a closure. */
  lemma ParkedLogNeedsApproval(log: seq<Transition>, trust: Trust, i: nat)
    requires LogOk(log, trust) && log != [] && log[0].to == AwaitingApproval
    requires 0 < i < |log| && log[i].cause == CauseAttemptStarted
    ensures i > 1 && log[1].from == AwaitingApproval && log[1].cause == CauseApproval
  {
    assert log[..1][0] == log[0];
    assert log[1].from == AwaitingApproval && Listed(log[1].from, log[1].to, log[1].cause);
    if i > 1 {
      NothingAfterTerminal(log, trust, 1);
    }
  }

  /** A large case is parked first, and every attempt it gets comes after an
      approval that took it out of AwaitingApproval. */
  lemma LargeNeedsApproval(c: Case, i: nat)
    requires Inv(c) && c.triage.Some? && c.triage.value.size == Large
    ensures c.transitions != [] && c.transitions[0].cause == CauseTriageLarge
    ensures i < |c.transitions| && c.transitions[i].cause == CauseAttemptStarted ==>
      i > 1 && c.transitions[1].from == AwaitingApproval && c.transitions[1].cause == CauseApproval
  {
    LargeLogStartsParked(c.transitions, c.requester.trust);
    if i < |c.transitions| && c.transitions[i].cause == CauseAttemptStarted {
      ParkedLogNeedsApproval(c.transitions, c.requester.trust, i);
    }
  }

  lemma {:induction false} RequesterStays(c: Case, cmds: seq<Command>)
    ensures Exec(c, cmds).requester == c.requester
    decreases |cmds|
  {
    if cmds != [] {
      RequesterStaysOnce(c, cmds[0]);
      RequesterStays(After(c, cmds[0]), cmds[1..]);
    }
  }

  lemma RequesterStaysOnce(c: Case, cmd: Command)
    ensures After(c, cmd).requester == c.requester
  {}

  /** The trust gate over whole runs: an issue opened by anyone but an owner,
      member or collaborator is never sized, and nothing runs on it before a person
      has approved it. */
  lemma TrustGate(key: CaseKey, login: string, association: Association, at: Time, cmds: seq<Command>)
    requires NewRequester(login, association).Ok? && association !in {Owner, Member, Collaborator}
    requires NewCase(key, NewRequester(login, association).value, at).Ok?
    ensures var c := Exec(NewCase(key, NewRequester(login, association).value, at).value, cmds);
      && c.triage.None?
      && (c.attempts != [] ==> c.approvals != [] && c.transitions != [] && c.transitions[0].cause == CauseApproval)
  {
    var requester := NewRequester(login, association).value;
    var first := NewCase(key, requester, at).value;
    NewCaseInv(key, requester, at);
    ReachableInv(first, cmds);
    RequesterStays(first, cmds);
    GateHolds(Exec(first, cmds));
  }

  lemma GateHolds(c: Case)
    requires Inv(c) && c.requester.trust == Untrusted
    ensures c.triage.None? && (c.attempts != [] ==> c.approvals != [] && c.transitions != [] && c.transitions[0].cause == CauseApproval)
  {
    UntrustedNeedsApproval(c, 0);
    if c.attempts != [] {
      var i := CountFinds(c.transitions, CauseAttemptStarted);
      UntrustedNeedsApproval(c, i);
    }
  }

  // ----- The single restart -----

  ghost predicate AnyRestarted(attempts: seq<Attempt>) {
    exists i | 0 <= i < |attempts| :: attempts[i].Restarted()
  }

  /** The log's restart requeues: at most one, and none without an attempt that
      a restart ended. */
  ghost predicate RestartedOnce(c: Case) {
    && CountCause(c.transitions, CauseRestartRequeue) <= 1
    && (CountCause(c.transitions, CauseRestartRequeue) == 1 ==> AnyRestarted(c.attempts))
  }

  /** The open attempt is the last, so it sees every earlier restart. */
  lemma RestartSeen(attempts: seq<Attempt>)
    requires AttemptsOk(attempts) && AnyOpen(attempts) && AnyRestarted(attempts)
    ensures RestartedBefore(attempts, attempts[|attempts| - 1].ordinal)
  {
    var i :| 0 <= i < |attempts| && attempts[i].Restarted();
    assert attempts[i].ordinal < attempts[|attempts| - 1].ordinal;
  }

  /** Outcomes already recorded stay. */
  lemma RestartsStay(t: Tracked, c: Command)
    requires Inv(t.subject) && Step(t, c).Ok? && AnyRestarted(t.subject.attempts)
    ensures AnyRestarted(Step(t, c).value.subject.attempts)
  {
    var i :| 0 <= i < |t.subject.attempts| && t.subject.attempts[i].Restarted();
    assert Step(t, c).value.subject.attempts[i].Restarted();
  }

  lemma RestartStaysSeen(attempts: seq<Attempt>, o: Outcome)
    requires attempts != [] && attempts[|attempts| - 1].Open()
    ensures var ended := attempts[|attempts| - 1 := attempts[|attempts| - 1].(outcome := Some(o))];
      AnyRestarted(ended) <==> AnyRestarted(attempts) || (o.kind == Aborted && o.reason == AbortDaemonRestart)
  {
    var n := |attempts| - 1;
    var ended := attempts[n := attempts[n].(outcome := Some(o))];
    if i :| 0 <= i < |attempts| && attempts[i].Restarted() {
      assert ended[i].Restarted();
    }
    if o.kind == Aborted && o.reason == AbortDaemonRestart {
      assert ended[n].Restarted();
    }
    if i :| 0 <= i < |ended| && ended[i].Restarted() {
      assert i == n || attempts[i].Restarted();
    }
  }

  /** A requeue by restart is the answer to a restart, and to the first. */
  lemma RequeueIsFirstRestart(c: Case, o: Outcome, e: Ending)
    requires Inv(c) && AnyOpen(c.attempts) && o.kind != OutcomeKindUnset
    requires OutcomeMove(c, c.attempts[|c.attempts| - 1].ordinal, o) == Some(e)
    ensures e.cause == CauseRestartRequeue ==> o.kind == Aborted && o.reason == AbortDaemonRestart && !AnyRestarted(c.attempts)
  {
    if AnyRestarted(c.attempts) { RestartSeen(c.attempts); }
  }

  /** The requeue is logged together with the outcome that caused it. */
  lemma RestartIsLogged(c: Case, u: Case, o: Outcome, e: Ending, at: Time)
    requires Inv(c) && AnyOpen(c.attempts) && RestartedOnce(c)
    requires OutcomeMove(c, c.attempts[|c.attempts| - 1].ordinal, o) == Some(e) && o.kind != OutcomeKindUnset
    requires u.transitions == c.transitions + [Transition(c.state, e.to, e.cause, at)]
    requires u.attempts == c.attempts[|c.attempts| - 1 := c.attempts[|c.attempts| - 1].(outcome := Some(o))]
    ensures RestartedOnce(u)
  {
    CountAppend(c.transitions, u.transitions[|c.transitions|], CauseRestartRequeue);
    RestartStaysSeen(c.attempts, o);
    RequeueIsFirstRestart(c, o, e);
  }

  /** What an accepted outcome changes: the open attempt, and the log unless the
      case is closed. */
  lemma OutcomeChanges(t: Tracked, attemptId: Id, o: Outcome)
    requires AttemptsOk(t.subject.attempts) && StepOutcome(t, attemptId, o).Ok?
    ensures var c, u := t.subject, StepOutcome(t, attemptId, o).value.subject;
      && AnyOpen(c.attempts) && o.kind != OutcomeKindUnset
      && u.attempts == c.attempts[|c.attempts| - 1 := c.attempts[|c.attempts| - 1].(outcome := Some(o))]
      && (c.state == Closed ==> u.transitions == c.transitions)
      && (c.state != Closed ==>
            var e := OutcomeMove(c, c.attempts[|c.attempts| - 1].ordinal, o);
            e.Some? && u.state == e.value.to && u.transitions == c.transitions + [Transition(c.state, e.value.to, e.value.cause, o.endedAt)])
  {
    assert FirstOpen(t.subject.attempts) == |t.subject.attempts| - 1;
  }

  lemma OutcomeRestartsOnce(t: Tracked, attemptId: Id, o: Outcome)
    requires Inv(t.subject) && RestartedOnce(t.subject) && StepOutcome(t, attemptId, o).Ok?
    ensures RestartedOnce(StepOutcome(t, attemptId, o).value.subject)
  {
    var c, u := t.subject, StepOutcome(t, attemptId, o).value.subject;
    OutcomeChanges(t, attemptId, o);
    if c.state != Closed {
      RestartIsLogged(c, u, o, OutcomeMove(c, c.attempts[|c.attempts| - 1].ordinal, o).value, o.endedAt);
    } else {
      RestartStaysSeen(c.attempts, o);
    }
  }

  /** Only an outcome logs a restart. */
  lemma OthersLogNoRestart(t: Tracked, c: Command)
    requires Step(t, c).Ok? && !c.RecordOutcome?
    ensures CountCause(Step(t, c).value.subject.transitions, CauseRestartRequeue) == CountCause(t.subject.transitions, CauseRestartRequeue)
  {
    var u := Step(t, c).value.subject;
    if u.transitions != t.subject.transitions {
      CountAppend(t.subject.transitions, u.transitions[|t.subject.transitions|], CauseRestartRequeue);
    }
  }

  lemma StepRestartsOnce(c: Case, cmd: Command)
    requires Inv(c) && RestartedOnce(c)
    ensures RestartedOnce(After(c, cmd))
  {
    if Step(Clean(c), cmd).Ok? {
      if cmd.RecordOutcome? {
        OutcomeRestartsOnce(Clean(c), cmd.attemptId, cmd.outcome);
      } else {
        OthersLogNoRestart(Clean(c), cmd);
        if AnyRestarted(c.attempts) { RestartsStay(Clean(c), cmd); }
      }
    }
  }

  /** Through any run a case is requeued by a restart at most once. */
  lemma {:induction false} RestartRequeuesOnce(c: Case, cmds: seq<Command>)
    requires Inv(c) && RestartedOnce(c)
    ensures Inv(Exec(c, cmds)) && RestartedOnce(Exec(c, cmds))
    decreases |cmds|
  {
    if cmds != [] {
      AfterKeepsInv(c, cmds[0]);
      StepRestartsOnce(c, cmds[0]);
      RestartRequeuesOnce(After(c, cmds[0]), cmds[1..]);
    }
  }

  // ----- Where a case stands, read back from its attempts -----

  ghost predicate LastEnded(c: Case, kind: OutcomeKind) {
    c.attempts != [] && c.attempts[|c.attempts| - 1].outcome.Some? && c.attempts[|c.attempts| - 1].outcome.value.kind == kind
  }

  ghost predicate LastAborted(c: Case, reason: AbortReason) {
    LastEnded(c, Aborted) && c.attempts[|c.attempts| - 1].outcome.value.reason == reason
  }

  /** Done, Failed and AwaitingApproval are the doing of the last attempt, or of a
      large triage before there was any. */
  ghost predicate Explained(c: Case) {
    match c.state
    case Done => LastEnded(c, PullRequestOpened)
    case Failed => LastEnded(c, FailedOutcome) || (LastAborted(c, AbortDaemonRestart) && RestartedBefore(c.attempts, |c.attempts|))
    case AwaitingApproval =>
      || (c.attempts == [] && c.triage.Some? && c.triage.value.size == Large)
      || LastEnded(c, BudgetExhausted) || LastAborted(c, AbortOperatorStop)
    case _ => true
  }

  lemma EarlierRestartStays(attempts: seq<Attempt>, o: Outcome)
    requires AttemptsOk(attempts) && AnyOpen(attempts) && RestartedBefore(attempts, attempts[|attempts| - 1].ordinal)
    ensures RestartedBefore(attempts[|attempts| - 1 := attempts[|attempts| - 1].(outcome := Some(o))], |attempts|)
  {
    var n := |attempts| - 1;
    var i :| 0 <= i < |attempts| && attempts[i].ordinal < attempts[n].ordinal && attempts[i].Restarted();
    assert attempts[n := attempts[n].(outcome := Some(o))][i].Restarted();
  }

  lemma EndingExplains(c: Case, u: Case, o: Outcome, e: Ending)
    requires AttemptsOk(c.attempts) && AnyOpen(c.attempts) && o.kind != OutcomeKindUnset
    requires OutcomeMove(c, c.attempts[|c.attempts| - 1].ordinal, o) == Some(e)
    requires u.attempts == c.attempts[|c.attempts| - 1 := c.attempts[|c.attempts| - 1].(outcome := Some(o))] && u.state == e.to
    ensures Explained(u)
  {
    assert u.attempts[|c.attempts| - 1].outcome == Some(o);
    if RestartedBefore(c.attempts, c.attempts[|c.attempts| - 1].ordinal) {
      EarlierRestartStays(c.attempts, o);
    }
  }

  lemma OutcomeIsExplained(t: Tracked, attemptId: Id, o: Outcome)
    requires Inv(t.subject) && StepOutcome(t, attemptId, o).Ok?
    ensures Explained(StepOutcome(t, attemptId, o).value.subject)
  {
    OutcomeChanges(t, attemptId, o);
    if t.subject.state != Closed {
      EndingExplains(t.subject, StepOutcome(t, attemptId, o).value.subject, o,
        OutcomeMove(t.subject, t.subject.attempts[|t.subject.attempts| - 1].ordinal, o).value);
    }
  }

  /** A triage comes before any attempt, and parks only what is large. */
  lemma TriageIsExplained(t: Tracked, v: Triage)
    requires Inv(t.subject) && StepTriage(t, v).Ok?
    ensures Explained(StepTriage(t, v).value.subject)
  {
    assert t.subject.transitions == [] && t.subject.attempts == [];
  }

  /** The others end in a state that needs no explaining, or keep the state, the
      triage and every attempt but the open one. */
  lemma OthersKeepExplanation(t: Tracked, cmd: Command)
    requires Step(t, cmd).Ok? && !cmd.RecordOutcome? && !cmd.RecordTriage?
    ensures var c, u := t.subject, Step(t, cmd).value.subject;
      || u.state in {Queued, Attempting, Closed}
      || (u.state == c.state && u.triage == c.triage && u.attempts == c.attempts)
      || (u.state == c.state && FirstOpen(c.attempts) < |c.attempts|)
  {}

  lemma OthersStayExplained(t: Tracked, cmd: Command)
    requires Inv(t.subject) && Explained(t.subject) && Step(t, cmd).Ok? && !cmd.RecordOutcome?
    ensures Explained(Step(t, cmd).value.subject)
  {
    if cmd.RecordTriage? {
      TriageIsExplained(t, cmd.triage);
    } else {
      OthersKeepExplanation(t, cmd);
      assert FirstOpen(t.subject.attempts) < |t.subject.attempts| ==> AnyOpen(t.subject.attempts);
    }
  }

  lemma {:induction false} StateIsExplained(c: Case, cmds: seq<Command>)
    requires Inv(c) && Explained(c)
    ensures Explained(Exec(c, cmds))
    decreases |cmds|
  {
    if cmds != [] {
      if Step(Clean(c), cmds[0]).Ok? {
        if cmds[0].RecordOutcome? {
          OutcomeIsExplained(Clean(c), cmds[0].attemptId, cmds[0].outcome);
        } else {
          OthersStayExplained(Clean(c), cmds[0]);
        }
      }
      AfterKeepsInv(c, cmds[0]);
      StateIsExplained(After(c, cmds[0]), cmds[1..]);
    }
  }

  // ----- The price of an attempt -----

  /** One attempt for a small triage, one for each approval, one for a restart. */
  function AttemptsAllowed(c: Case): nat {
    One(c.triage.Some? && c.triage.value.size == Small) + |c.approvals| + 1
  }

  /** A case never has more attempts than were paid for, and so its log is
      bounded by its approvals. */
  lemma AttemptsAreBounded(key: CaseKey, requester: Requester, at: Time, cmds: seq<Command>)
    requires NewCase(key, requester, at).Ok?
    ensures var c := Exec(NewCase(key, requester, at).value, cmds);
      && |c.attempts| <= AttemptsAllowed(c)
      && |c.transitions| <= 3 * |c.approvals| + 6
  {
    NewCaseInv(key, requester, at);
    RestartRequeuesOnce(NewCase(key, requester, at).value, cmds);
    ExecutedWithinBounds(Exec(NewCase(key, requester, at).value, cmds));
  }

  lemma ExecutedWithinBounds(c: Case)
    requires Inv(c) && RestartedOnce(c)
    ensures |c.attempts| <= AttemptsAllowed(c) && |c.transitions| <= 3 * |c.approvals| + 6
  {}

  // ----- Which kind of attempt comes next -----

  predicate QueuedByApproval(c: Case) {
    c.state == Queued && c.transitions != [] && c.transitions[|c.transitions| - 1].cause == CauseApproval
  }

  ghost predicate StartedBy(c: Case, clock: Time) {
    forall i | 0 <= i < |c.attempts| :: c.attempts[i].startedAt <= clock
  }

  /** No attempt started after the clock, and a case an approval queued runs
      next as approved. */
  ghost predicate KindsOk(c: Case, clock: Time) {
    StartedBy(c, clock) && (QueuedByApproval(c) ==> NextAttemptKind(c) == Approved)
  }

  /** The clock after a command: approvals and starts carry the time that counts. */
  function ClockAfter(clock: Time, cmd: Command): Time {
    match cmd
    case RecordApproval(a) => a.approvedAt
    case StartAttempt(_, _, _, at) => at
    case _ => clock
  }

  predicate Clocked(cmds: seq<Command>, clock: Time)
    decreases |cmds|
  {
    cmds != [] ==> clock <= ClockAfter(clock, cmds[0]) && Clocked(cmds[1..], ClockAfter(clock, cmds[0]))
  }

  lemma FreshApprovalCounts(c: Case, a: Approval, state: CaseState, log: seq<Transition>)
    requires StartedBy(c, a.approvedAt)
    ensures NextAttemptKind(c.(approvals := c.approvals + [a], state := state, transitions := log)) == Approved
  {
    var u := c.(approvals := c.approvals + [a], state := state, transitions := log);
    assert u.approvals[|c.approvals|] == a;
  }

  lemma ApprovalKeepsKinds(t: Tracked, a: Approval, clock: Time)
    requires KindsOk(t.subject, clock) && clock <= a.approvedAt && StepApproval(t, a).Ok?
    ensures KindsOk(StepApproval(t, a).value.subject, a.approvedAt)
  {
    var u := StepApproval(t, a).value.subject;
    FreshApprovalCounts(t.subject, a, u.state, u.transitions);
  }

  lemma StartKeepsKinds(t: Tracked, kind: AttemptKind, budget: Budget, brief: string, at: Time, clock: Time)
    requires KindsOk(t.subject, clock) && clock <= at && StepStart(t, kind, budget, brief, at).Ok?
    ensures KindsOk(StepStart(t, kind, budget, brief, at).value.subject, at)
  {}

  /** No other command touches an approval or the time an attempt started. */
  lemma OthersLeaveTimes(t: Tracked, cmd: Command)
    requires Step(t, cmd).Ok? && !cmd.RecordApproval? && !cmd.StartAttempt?
    ensures var u := Step(t, cmd).value.subject;
      && u.approvals == t.subject.approvals && |u.attempts| == |t.subject.attempts|
      && forall i | 0 <= i < |u.attempts| :: u.attempts[i].startedAt == t.subject.attempts[i].startedAt
  {}

  /** Nor does any log an approval, or anything at all while the case is queued. */
  lemma OthersLogNoApproval(t: Tracked, cmd: Command)
    requires Step(t, cmd).Ok? && !cmd.RecordApproval? && !cmd.StartAttempt?
    ensures var c, u := t.subject, Step(t, cmd).value.subject;
      || (u.transitions == c.transitions && u.state == c.state && FirstOpen(c.attempts) < |c.attempts|)
      || (u.transitions != [] && u.transitions[|u.transitions| - 1].cause != CauseApproval)
  {}

  /** So none leaves a case queued with an approval behind it: a queued case has no
      open attempt. */
  lemma OthersQueueWithoutApproval(t: Tracked, cmd: Command)
    requires Inv(t.subject) && Step(t, cmd).Ok? && !cmd.RecordApproval? && !cmd.StartAttempt?
    ensures !QueuedByApproval(Step(t, cmd).value.subject)
  {
    OthersLogNoApproval(t, cmd);
    if t.subject.state == Queued { QueuedHasNoOpenAttempt(t.subject); }
  }

  lemma QueuedHasNoOpenAttempt(c: Case)
    requires Inv(c) && c.state == Queued
    ensures FirstOpen(c.attempts) == |c.attempts|
  {}

  lemma OthersKeepKinds(t: Tracked, cmd: Command, clock: Time)
    requires Inv(t.subject) && KindsOk(t.subject, clock) && Step(t, cmd).Ok?
    requires !cmd.RecordApproval? && !cmd.StartAttempt?
    ensures KindsOk(Step(t, cmd).value.subject, clock)
  {
    OthersLeaveTimes(t, cmd);
    OthersQueueWithoutApproval(t, cmd);
  }

  lemma StepKeepsKinds(c: Case, cmd: Command, clock: Time)
    requires Inv(c) && KindsOk(c, clock) && clock <= ClockAfter(clock, cmd)
    ensures KindsOk(After(c, cmd), ClockAfter(clock, cmd))
  {
    if Step(Clean(c), cmd).Ok? {
      match cmd
      case RecordApproval(a) => ApprovalKeepsKinds(Clean(c), a, clock);
      case StartAttempt(kind, budget, brief, at) => StartKeepsKinds(Clean(c), kind, budget, brief, at, clock);
      case _ => OthersKeepKinds(Clean(c), cmd, clock);
    }
  }

  /** When time does not run backwards, an approval that queues a case always
      buys an approved attempt. */
  lemma {:induction false} ApprovalBuysApprovedAttempt(c: Case, cmds: seq<Command>, clock: Time)
    requires Inv(c) && KindsOk(c, clock) && Clocked(cmds, clock)
    ensures QueuedByApproval(Exec(c, cmds)) ==> NextAttemptKind(Exec(c, cmds)) == Approved
    decreases |cmds|
  {
    if cmds != [] {
      AfterKeepsInv(c, cmds[0]);
      StepKeepsKinds(c, cmds[0], clock);
      ApprovalBuysApprovedAttempt(After(c, cmds[0]), cmds[1..], ClockAfter(clock, cmds[0]));
    }
  }

  /** Where every earlier approval is older than the latest start, the new one decides. */
  lemma NewApprovalDecides(c: Case, a: Approval, u: Case)
    requires c.attempts != [] && u.attempts == c.attempts && u.approvals == c.approvals + [a]
    requires forall i | 0 <= i < |c.approvals| :: c.approvals[i].approvedAt < c.attempts[|c.attempts| - 1].startedAt
    ensures NextAttemptKind(u) == Approved <==> a.approvedAt >= c.attempts[|c.attempts| - 1].startedAt
  {
    assert u.approvals[|c.approvals|] == a;
    assert forall i | 0 <= i < |c.approvals| :: u.approvals[i] == c.approvals[i];
  }

  lemma ApprovalQueues(c: Case, a: Approval)
    requires c.state in {Gated, AwaitingApproval, Failed} && ValidApproval(a)
    ensures var u := After(c, RecordApproval(a));
      QueuedByApproval(u) && u.attempts == c.attempts && u.approvals == c.approvals + [a]
  {}

  /** With time running backwards it need not: the approval is there, queued the
      case, and the attempt is auto all the same. */
  lemma StaleApprovalBuysAuto(c: Case, a: Approval)
    requires Inv(c) && c.state in {AwaitingApproval, Failed} && c.attempts != [] && ValidApproval(a)
    requires forall i | 0 <= i < |c.approvals| :: c.approvals[i].approvedAt < c.attempts[|c.attempts| - 1].startedAt
    ensures var u := After(c, RecordApproval(a));
      QueuedByApproval(u) && (NextAttemptKind(u) == Approved <==> a.approvedAt >= c.attempts[|c.attempts| - 1].startedAt)
  {
    ApprovalQueues(c, a);
    NewApprovalDecides(c, a, After(c, RecordApproval(a)));
  }

  /** A restart requeue carries no approval with it: what comes next is approved
      only on the strength of an approval no older than the attempt it cut off. */
  lemma RestartBuysNoApproval(c: Case, attemptId: Id, o: Outcome)
    requires Inv(c) && c.state == Attempting && o.kind == Aborted && o.reason == AbortDaemonRestart
    requires StepOutcome(Clean(c), attemptId, o).Ok? && !AnyRestarted(c.attempts)
    ensures var u := StepOutcome(Clean(c), attemptId, o).value.subject;
      && u.state == Queued
      && (NextAttemptKind(u) == Approved <==>
          exists i | 0 <= i < |c.approvals| :: c.approvals[i].approvedAt >= c.attempts[|c.attempts| - 1].startedAt)
  {
    var u := StepOutcome(Clean(c), attemptId, o).value.subject;
    assert FirstOpen(c.attempts) == |c.attempts| - 1;
    assert u.approvals == c.approvals && u.attempts[|c.attempts| - 1].startedAt == c.attempts[|c.attempts| - 1].startedAt;
  }

  // ----- The open attempt and its end -----

  /** While an attempt is open its outcome is taken in every state, except for an
      abort that only a closed case explains. */
  lemma OutcomeAcceptedExactlyWhen(c: Case, attemptId: Id, o: Outcome)
    requires Inv(c) && AnyOpen(c.attempts) && o.kind != OutcomeKindUnset && o.summary != ""
    requires attemptId == c.attempts[|c.attempts| - 1].id
    ensures StepOutcome(Clean(c), attemptId, o).Ok? <==>
      (c.state != Closed && o.kind == Aborted ==> o.reason in {AbortOperatorStop, AbortDaemonRestart})
    ensures StepOutcome(Clean(c), attemptId, o).Ok? ==>
      var u := StepOutcome(Clean(c), attemptId, o).value.subject;
      !AnyOpen(u.attempts) && u.state != Attempting && (c.state == Closed ==> u.state == Closed)
  {
    assert FirstOpen(c.attempts) == |c.attempts| - 1;
  }

  /** Done and Closed are final: nothing moves, is approved, triaged or started
      again, and in Done not even an attempt changes. */
  lemma {:induction false} TerminalIsFinal(c: Case, cmds: seq<Command>)
    requires Inv(c) && c.state.Terminal()
    ensures var u := Exec(c, cmds);
      && u == c.(attempts := u.attempts) && |u.attempts| == |c.attempts|
      && (c.state == Done ==> u == c)
    decreases |cmds|
  {
    if cmds != [] {
      StepInTerminal(c, cmds[0]);
      AfterKeepsInv(c, cmds[0]);
      TerminalIsFinal(After(c, cmds[0]), cmds[1..]);
    }
  }

  lemma StepInTerminal(c: Case, cmd: Command)
    requires Inv(c) && c.state.Terminal()
    ensures var u := After(c, cmd);
      && u == c.(attempts := u.attempts) && |u.attempts| == |c.attempts|
      && (c.state == Done ==> u == c)
  {
    if c.state == Done {
      assert FirstOpen(c.attempts) == |c.attempts|;
    }
  }
}
