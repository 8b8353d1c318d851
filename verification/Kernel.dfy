/** The shared kernel of the two aggregates: errors, shas, budgets, usage, runs,
    and the conversions the store applies to times and durations. */
module Kernel {

  datatype Option<+T> = None | Some(value: T)

  /** Why a command or constructor did not go through. `Invalid` is a value no
      aggregate accepts; `Refused` is a command the current state does not take. */
  datatype DomainError = Invalid | Refused

  datatype Result<+T> = Ok(value: T) | Err(error: DomainError)

  /** Store-generated ids. Zero stands for the empty id of a row that has not
      been persisted yet. */
  type Id = nat

  /** Instants and durations in nanoseconds. */
  type Time = int
  type Duration = int

  /** The entries a test keeps, each mapped. Selecting nothing is spelled out, so
      that no value function hangs on an empty comprehension. */
  function Select<V, W>(m: map<nat, V>, keep: V -> bool, f: V -> W): (r: map<nat, W>)
    ensures forall k :: k in r <==> k in m && keep(m[k])
    ensures forall k | k in r :: r[k] == f(m[k])
  {
    if exists k | k in m :: keep(m[k]) then map k | k in m && keep(m[k]) :: f(m[k]) else map[]
  }

  type Sha = string

  predicate IsHex(c: char) {
    '0' <= c <= '9' || 'a' <= c <= 'f'
  }

  /** Exactly 40 lower-case hexadecimal digits. */
  predicate ValidSha(s: Sha) {
    |s| == 40 && forall i | 0 <= i < |s| :: IsHex(s[i])
  }

  /** Limits on one agent run. Values come from `NewBudget` or are the zero budget. */
  datatype BudgetLimits = BudgetLimits(maxTurns: int, maxWallClock: Duration, maxDiffLines: int)

  const ZERO_BUDGET := BudgetLimits(0, 0, 0)

  predicate PositiveLimits(b: BudgetLimits) {
    b.maxTurns > 0 && b.maxWallClock > 0 && b.maxDiffLines > 0
  }

  type Budget = b: BudgetLimits | b == ZERO_BUDGET || PositiveLimits(b) witness ZERO_BUDGET

  function NewBudget(turns: int, wall: Duration, diff: int): Result<Budget> {
    if turns <= 0 || wall <= 0 || diff <= 0 then Err(Invalid)
    else Ok(BudgetLimits(turns, wall, diff))
  }

  datatype Usage = Usage(turns: int, inputTokens: int, outputTokens: int, wallClock: Duration, diffLines: int)

  datatype Run = Run(runId: string, model: string, baseSha: Sha, beganAt: Time)

  predicate ValidRun(r: Run) {
    r.runId != "" && r.model != "" && ValidSha(r.baseSha)
  }

  // The closed vocabularies. A string outside the vocabulary, the empty string
  // of an unused variant field included, is the one value marked Unset.
  datatype Limit = LimitTurns | LimitWallClock | LimitDiffLines | LimitUnset
  datatype FailureClass = FailureInfra | FailureModel | FailureAgent | FailureUnset

  // What the store keeps of a value. A timestamp column holds whole
  // microseconds since the epoch; an interval holds the duration's
  // microseconds, cut towards zero.

  function StoredTime(t: Time): Time {
    t / 1000 * 1000
  }

  function ToInterval(d: Duration): int {
    if d >= 0 then d / 1000 else -((-d) / 1000)
  }

  function FromInterval(micros: int): Duration {
    micros * 1000
  }

  function StoredDuration(d: Duration): Duration {
    FromInterval(ToInterval(d))
  }

  function StoredRun(r: Run): Run {
    r.(beganAt := StoredTime(r.beganAt))
  }

  function StoredUsage(u: Usage): Usage {
    u.(wallClock := StoredDuration(u.wallClock))
  }

  /** The column checks on a usage: nothing counted is negative. */
  predicate StorableUsage(u: Usage) {
    u.turns >= 0 && u.inputTokens >= 0 && u.outputTokens >= 0 && ToInterval(u.wallClock) >= 0 && u.diffLines >= 0
  }

  /** The column checks on a budget: the wall clock must survive the cut to
      microseconds as something positive. */
  predicate StorableBudget(b: BudgetLimits) {
    b.maxTurns > 0 && ToInterval(b.maxWallClock) > 0 && b.maxDiffLines > 0
  }

  lemma StoredTimeIsStable(t: Time)
    ensures StoredTime(StoredTime(t)) == StoredTime(t)
    ensures StoredTime(t) <= t < StoredTime(t) + 1000
  {}

  lemma StoredDurationIsStable(d: Duration)
    ensures StoredDuration(StoredDuration(d)) == StoredDuration(d)
    ensures ToInterval(StoredDuration(d)) == ToInterval(d)
  {}

  // ----- How little a column loses -----

  /** `s` is `t` without what is below a microsecond. */
  predicate Cut(t: Time, s: Time) {
    s % 1000 == 0 && s <= t < s + 1000
  }

  /** A duration is cut towards zero. */
  predicate CutDuration(d: Duration, s: Duration) {
    s % 1000 == 0 && -1000 < d - s < 1000 && (d >= 0 ==> 0 <= s <= d) && (d <= 0 ==> d <= s <= 0)
  }

  predicate SameUsage(u: Usage, s: Usage) {
    && s.turns == u.turns && s.inputTokens == u.inputTokens && s.outputTokens == u.outputTokens && s.diffLines == u.diffLines
    && CutDuration(u.wallClock, s.wallClock)
  }

  predicate SameRun(r: Run, s: Run) {
    s.runId == r.runId && s.model == r.model && s.baseSha == r.baseSha && Cut(r.beganAt, s.beganAt)
  }

  lemma ColumnsOnlyCut(t: Time, d: Duration, u: Usage, r: Run)
    ensures Cut(t, StoredTime(t)) && CutDuration(d, StoredDuration(d))
    ensures SameUsage(u, StoredUsage(u)) && SameRun(r, StoredRun(r))
  {}

  /** A budget is made of three positive limits and nothing else. */
  lemma BudgetIsPositive(turns: int, wall: Duration, diff: int)
    ensures NewBudget(turns, wall, diff).Ok? <==> turns > 0 && wall > 0 && diff > 0
    ensures NewBudget(turns, wall, diff).Ok? ==>
      var b := NewBudget(turns, wall, diff).value;
      b.maxTurns == turns && b.maxWallClock == wall && b.maxDiffLines == diff
  {}
}
