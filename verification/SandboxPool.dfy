/** One sandbox pool under two schedulers: a pass counts what is open, issue
    attempts first and repair rounds after, and starts at most that many fewer
    than the limit, while deliveries, runners and operators go on changing cases
    and bumps between any two of its steps. */
module SandboxPool {
  import opened Kernel
  import B = BumpModel
  import C = CaseModel

  datatype Pass =
    | NoPass
    | Counting(attempts: nat)    // open attempts read, open rounds still to read
    | Starting(slots: int)

  datatype System = System(cases: map<C.CaseKey, C.Case>, bumps: map<B.BumpKey, B.Bump>, pass: Pass)

  function OpenAttempts(s: System): set<(C.CaseKey, int)> {
    set k, i | k in s.cases && 0 <= i < |s.cases[k].attempts| && s.cases[k].attempts[i].Open() :: (k, i)
  }

  function OpenRounds(s: System): set<(B.BumpKey, int)> {
    set k, i | k in s.bumps && 0 <= i < |s.bumps[k].attempts| && s.bumps[k].attempts[i].Open() :: (k, i)
  }

  function Load(s: System): nat {
    |OpenAttempts(s)| + |OpenRounds(s)|
  }

  /** A case and a bump command outside any scheduler are anything but a start;
      a crash drops the pass; a new aggregate has no attempts. */
  datatype Event =
    | CaseCommand(caseKey: C.CaseKey, caseCommand: C.Command)
    | BumpCommand(bumpKey: B.BumpKey, bumpCommand: B.Command)
    | AddCase(newCase: C.Case)
    | AddBump(newBump: B.Bump)
    | CountAttempts
    | CountRounds
    | StartCase(caseKey: C.CaseKey, caseCommand: C.Command)
    | StartBump(bumpKey: B.BumpKey, bumpCommand: B.Command)
    | EndPass
    | Crash

  predicate Enabled(s: System, e: Event) {
    match e
    case CaseCommand(k, c) => k in s.cases && !c.StartAttempt?
    case BumpCommand(k, c) => k in s.bumps && !c.StartRepair?
    case AddCase(c) => c.key !in s.cases && c.attempts == []
    case AddBump(b) => b.key !in s.bumps && b.attempts == []
    case CountAttempts => s.pass.NoPass?
    case CountRounds => s.pass.Counting?
    case StartCase(k, c) => s.pass.Starting? && s.pass.slots > 0 && k in s.cases && c.StartAttempt?
    case StartBump(k, c) => s.pass.Starting? && s.pass.slots > 0 && k in s.bumps && c.StartRepair?
    case EndPass => s.pass.Starting?
    case Crash => true
  }

  /** A refused command leaves its aggregate alone; a start that goes through
      costs the pass a slot. */
  function Next(s: System, e: Event, limit: nat): System
    requires Enabled(s, e)
  {
    match e
    case CaseCommand(k, c) => s.(cases := s.cases[k := C.After(s.cases[k], c)])
    case BumpCommand(k, c) => s.(bumps := s.bumps[k := B.After(s.bumps[k], c)])
    case AddCase(c) => s.(cases := s.cases[c.key := c])
    case AddBump(b) => s.(bumps := s.bumps[b.key := b])
    case CountAttempts => s.(pass := Counting(|OpenAttempts(s)|))
    case CountRounds => s.(pass := Starting(limit - s.pass.attempts - |OpenRounds(s)|))
    case StartCase(k, c) =>
      if C.Step(C.Clean(s.cases[k]), c).Err? then s
      else s.(cases := s.cases[k := C.After(s.cases[k], c)], pass := Starting(s.pass.slots - 1))
    case StartBump(k, c) =>
      if B.Step(B.Clean(s.bumps[k]), c).Err? then s
      else s.(bumps := s.bumps[k := B.After(s.bumps[k], c)], pass := Starting(s.pass.slots - 1))
    case EndPass => s.(pass := NoPass)
    case Crash => s.(pass := NoPass)
  }

  // ----- How a command changes what is open -----

  lemma {:induction false} SmallerSet<T>(a: set<T>, b: set<T>)
    requires a <= b
    ensures |a| <= |b|
  {
    if a != {} {
      var x :| x in a;
      SmallerSet(a - {x}, b - {x});
    }
  }

  /** Only a start opens an attempt. */
  lemma CaseCommandOpensNothing(c: C.Case, cmd: C.Command, i: int)
    requires !cmd.StartAttempt?
    requires 0 <= i < |C.After(c, cmd).attempts| && C.After(c, cmd).attempts[i].Open()
    ensures i < |c.attempts| && c.attempts[i].Open()
  {}

  lemma CaseStartOpensOne(c: C.Case, cmd: C.Command, i: int)
    requires cmd.StartAttempt?
    requires 0 <= i < |C.After(c, cmd).attempts| && C.After(c, cmd).attempts[i].Open()
    ensures i == |c.attempts| || (i < |c.attempts| && c.attempts[i].Open())
  {}

  lemma BumpCommandOpensNothing(b: B.Bump, cmd: B.Command, i: int)
    requires !cmd.StartRepair?
    requires 0 <= i < |B.After(b, cmd).attempts| && B.After(b, cmd).attempts[i].Open()
    ensures i < |b.attempts| && b.attempts[i].Open()
  {}

  lemma BumpStartOpensOne(b: B.Bump, cmd: B.Command, i: int)
    requires cmd.StartRepair?
    requires 0 <= i < |B.After(b, cmd).attempts| && B.After(b, cmd).attempts[i].Open()
    ensures i == |b.attempts| || (i < |b.attempts| && b.attempts[i].Open())
  {}

  /** Replacing one case by one whose open attempts are among its own. */
  lemma CaseReplaced(s: System, k: C.CaseKey, c: C.Case, extra: set<(C.CaseKey, int)>)
    requires forall i | 0 <= i < |c.attempts| && c.attempts[i].Open() ::
      (k, i) in extra || (k in s.cases && i < |s.cases[k].attempts| && s.cases[k].attempts[i].Open())
    ensures |OpenAttempts(s.(cases := s.cases[k := c]))| <= |OpenAttempts(s)| + |extra|
  {
    var u := s.(cases := s.cases[k := c]);
    assert OpenAttempts(u) <= OpenAttempts(s) + extra;
    SmallerSet(OpenAttempts(u), OpenAttempts(s) + extra);
  }

  lemma BumpReplaced(s: System, k: B.BumpKey, b: B.Bump, extra: set<(B.BumpKey, int)>)
    requires forall i | 0 <= i < |b.attempts| && b.attempts[i].Open() ::
      (k, i) in extra || (k in s.bumps && i < |s.bumps[k].attempts| && s.bumps[k].attempts[i].Open())
    ensures |OpenRounds(s.(bumps := s.bumps[k := b]))| <= |OpenRounds(s)| + |extra|
  {
    var u := s.(bumps := s.bumps[k := b]);
    assert OpenRounds(u) <= OpenRounds(s) + extra;
    SmallerSet(OpenRounds(u), OpenRounds(s) + extra);
  }

  // ----- The pool is never oversubscribed -----

  /** Never more open than `most`; what a pass has counted is not less than what
      is open, and what it may still start fits the limit. */
  ghost predicate Fits(s: System, limit: nat, most: nat) {
    && limit <= most
    && Load(s) <= most
    && (s.pass.Counting? ==> |OpenAttempts(s)| <= s.pass.attempts)
    && (s.pass.Starting? && s.pass.slots > 0 ==> Load(s) + s.pass.slots <= limit)
  }

  lemma CaseStepFits(s: System, e: Event, limit: nat, most: nat)
    requires Fits(s, limit, most) && Enabled(s, e) && (e.CaseCommand? || e.StartCase? || e.AddCase?)
    ensures Fits(Next(s, e, limit), limit, most)
  {
    var u := Next(s, e, limit);
    assert OpenRounds(u) == OpenRounds(s.(cases := u.cases)) == OpenRounds(s);
    if e.AddCase? {
      CaseReplaced(s, e.newCase.key, e.newCase, {});
      assert OpenAttempts(u) == OpenAttempts(s.(cases := u.cases));
    } else {
      var c, after := s.cases[e.caseKey], C.After(s.cases[e.caseKey], e.caseCommand);
      var extra := if e.StartCase? then {(e.caseKey, |c.attempts|)} else {};
      forall i | 0 <= i < |after.attempts| && after.attempts[i].Open()
        ensures (e.caseKey, i) in extra || (i < |c.attempts| && c.attempts[i].Open())
      {
        if e.StartCase? { CaseStartOpensOne(c, e.caseCommand, i); } else { CaseCommandOpensNothing(c, e.caseCommand, i); }
      }
      CaseReplaced(s, e.caseKey, after, extra);
      assert OpenAttempts(s.(cases := s.cases[e.caseKey := after])) == OpenAttempts(u) || u == s;
    }
  }

  lemma BumpStepFits(s: System, e: Event, limit: nat, most: nat)
    requires Fits(s, limit, most) && Enabled(s, e) && (e.BumpCommand? || e.StartBump? || e.AddBump?)
    ensures Fits(Next(s, e, limit), limit, most)
  {
    var u := Next(s, e, limit);
    assert OpenAttempts(u) == OpenAttempts(s.(bumps := u.bumps)) == OpenAttempts(s);
    if e.AddBump? {
      BumpReplaced(s, e.newBump.key, e.newBump, {});
      assert OpenRounds(u) == OpenRounds(s.(bumps := u.bumps));
    } else {
      var b, after := s.bumps[e.bumpKey], B.After(s.bumps[e.bumpKey], e.bumpCommand);
      var extra := if e.StartBump? then {(e.bumpKey, |b.attempts|)} else {};
      forall i | 0 <= i < |after.attempts| && after.attempts[i].Open()
        ensures (e.bumpKey, i) in extra || (i < |b.attempts| && b.attempts[i].Open())
      {
        if e.StartBump? { BumpStartOpensOne(b, e.bumpCommand, i); } else { BumpCommandOpensNothing(b, e.bumpCommand, i); }
      }
      BumpReplaced(s, e.bumpKey, after, extra);
      assert OpenRounds(s.(bumps := s.bumps[e.bumpKey := after])) == OpenRounds(u) || u == s;
    }
  }

  lemma StepFits(s: System, e: Event, limit: nat, most: nat)
    requires Fits(s, limit, most) && Enabled(s, e)
    ensures Fits(Next(s, e, limit), limit, most)
  {
    if e.CaseCommand? || e.StartCase? || e.AddCase? {
      CaseStepFits(s, e, limit, most);
    } else if e.BumpCommand? || e.StartBump? || e.AddBump? {
      BumpStepFits(s, e, limit, most);
    } else {
      var u := Next(s, e, limit);
      assert OpenAttempts(u) == OpenAttempts(s) && OpenRounds(u) == OpenRounds(s);
    }
  }

  ghost predicate Run(trace: seq<System>, events: seq<Event>, limit: nat) {
    && |trace| == |events| + 1
    && forall i | 0 <= i < |events| :: Enabled(trace[i], events[i]) && trace[i + 1] == Next(trace[i], events[i], limit)
  }

  lemma {:induction false} RunFits(trace: seq<System>, events: seq<Event>, limit: nat, most: nat, i: nat)
    requires Run(trace, events, limit) && Fits(trace[0], limit, most) && i < |trace|
    ensures Fits(trace[i], limit, most)
  {
    if i > 0 {
      RunFits(trace, events, limit, most, i - 1);
      StepFits(trace[i - 1], events[i - 1], limit, most);
    }
  }

  /** Over any run of passes, outcomes, closures and crashes, open attempts and
      rounds together never pass the limit once they are within it; begun above
      it, after a restart with a lower limit say, they never grow. */
  lemma PoolIsNeverOversubscribed(trace: seq<System>, events: seq<Event>, limit: nat, i: nat)
    requires Run(trace, events, limit) && trace[0].pass.NoPass? && i < |trace|
    ensures Load(trace[i]) <= if Load(trace[0]) <= limit then limit else Load(trace[0])
  {
    RunFits(trace, events, limit, if Load(trace[0]) <= limit then limit else Load(trace[0]), i);
  }
}
