/** The conditions under which a repair brief is written at all. */
module RepairBrief {
  import opened Kernel
  import opened UpkeepFacts
  import opened BumpModel

  /** The guards of the brief builder, in its order; the prose itself is not modelled. */
  function BuildRepairBrief(budget: Budget, verdict: Option<CheckVerdict>, title: string): Result<()> {
    if verdict.None? then Err(Invalid)
    else if verdict.value.conclusion != CheckFailure then Err(Invalid)
    else if budget.maxTurns == 0 then Err(Invalid)
    else if title == "" then Err(Invalid)
    else Ok(())
  }

  /** What the repair scheduler does with one queued bump under the row lock:
      a brief from the current verdict, then the round. */
  function ScheduleRound(b: Bump, budget: Budget, title: string, brief: string, at: Time, maxRounds: int): Result<Tracked> {
    match BuildRepairBrief(budget, CurrentVerdict(b), title)
    case Err(e) => Err(e)
    case Ok(_) => StepStart(Clean(b), budget, brief, at, maxRounds)
  }
}
