# Autophage: a verified model

Autophage works through GitHub issues (cases) and dependabot pull requests (bumps)
unattended: it sizes or gates an issue, runs budgeted agent attempts in a sandbox, and
repairs a bump whose checks fail, round by round, until it is green, given up or closed.
This project models that machinery in Dafny and proves what it is built to keep.

| part | modules |
|---|---|
| shared values, and what the store keeps of a time, a duration, a run | `Kernel`, `RowMaps` |
| the bump aggregate, as values and functions and as the object the services mutate | `UpkeepFacts`, `BumpModel`, `BumpAggregate`, `BumpLaws`, `BumpInvariant`, `BumpRuns`, `BumpAbandonments`, `BumpWitnesses`, `RepairBrief` |
| the bump's change set, tables, write, load and updates | `BumpChanges`, `BumpTables`, `BumpPersistence`, `BumpReload`, `BumpDatabase`, `BumpFidelity`, `BumpTransactions`, `BumpStore` |
| the case aggregate | `CaseFacts`, `CaseModel`, `CaseAggregate`, `CaseLaws`, `CaseInvariant`, `CaseRuns`, `CaseWitnesses` |
| the case's change set, tables, write, load and updates | `CaseChanges`, `CaseTables`, `CasePersistence`, `CaseDatabase`, `CaseFidelity`, `CaseStore`, and for both `FreshIds` |
| the pool two schedulers share, one pass of each, recovery and backstop | `SandboxPool`, `Scheduling`, `Recovery`, `RecoveryStore` |
| the dispatcher's wake-ups | `WakeProtocol` |
| the per-repository workspace lock and the manager's code around it | `WorkspaceLock`, `Sandbox` |
| the paged check rollup, the tag escaper, the two agent pipelines | `CheckRollup`, `TagEscape`, `AgentRun`, `RepairRun`, `AttemptRun` |

Each aggregate is a datatype with one `Step` function per command, and a class whose
methods are proved against those functions; when a command is taken and all it changes is
proved of `Step` from the values before and after alone. Runs are folds of `Step`, and
what holds over whole runs is proved about them. The two concurrent protocols and the
pool are state machines over their steps, with runs as traces. Everything in the store
is a function from rows and a change set to rows or a refusal, with the statement by
statement methods proved equal to it.

## How values are represented

- Times and durations are nanoseconds; a column keeps whole microseconds, rounding a time
  down and cutting a duration.
- Ids are natural numbers, 0 the empty id of a row not yet stored; the database hands them
  out in order where the original draws UUIDs. Ties in time are therefore broken by age.
- A string outside a closed vocabulary is one value marked `Unset`.
- Rows are grouped under the bump or case they belong to, an approval's delivery row with the
  approval, and rows keyed by a round's or attempt's surrogate id are keyed by its number.
  Unique run ids and deliveries are checked across the whole database.
- Clocks, GitHub, git, podman, the agent's report and the wording of messages are arguments;
  messages are shorter than the original's, and never empty where the original's are not.
- The escaper's text is bytes, one per `char`. Go's case folding of a byte window against an
  ASCII marker is ASCII folding, since a longer rune leaves the window with too few runes.

## Where code and documentation differ

The code is modelled as it is.

- `docs/specs/2026-09-17-autophage-upkeep-domain-model.md:208` says a round starts from the sha
  its verdict failed on. The code lets a push land on a bump that is no longer repairing
  (`internal/upkeep/bump.go:344-347`), after which a queued bump may have no verdict for its head.
  `BumpRuns.JudgedExactlyWithoutStrayPush` says exactly when the documented rule holds, and
  `BumpWitnesses.StrayPushStrandsBump` is a run where it does not.
- `docs/specs/2026-09-17-autophage-upkeep-contracts.md:37` says a retry is refused from green. The
  code refuses it exactly when the head has a success verdict (`BumpRuns.GreenRetryIsRefused`),
  which after such a push it need not have: `BumpWitnesses.GreenRetryIsTaken` is a run where the
  retry goes through.
- `docs/specs/2026-09-17-autophage-upkeep-contracts.md:341` gives a bump up for want of checks only
  from awaiting checks, with no verdict. The code accepts it from green, queued and repairing too
  (`internal/upkeep/bump.go:442`), and the sweep looks for waiting bumps before it updates them
  (`internal/app/repairs.go:284-292`), so a verdict may land in between.
  `BumpAbandonments.AbandonmentIsSupported` says exactly when the reason is borne out,
  `BumpAbandonments.UnjudgedExactlyWithoutContradiction` exactly when no verdict contradicts it, and
  `BumpWitnesses.LateGiveUpBuriesPassedBump` is a run where both fail and no retry is left.
- `internal/resolution/case.go:182-183` calls the next attempt approved when an approval postdates
  the latest start. Stored times are cut to microseconds (a `timestamptz` column), so an approval
  that came just before the start may count after a load: exactly when both share a microsecond
  (`CaseDatabase.KindAfterReload`; `CaseWitnesses.StoredApprovalBuysAnother` is a run).
- A start handed a malformed attempt id returns without releasing the workspace
  (`internal/sandbox/podman.go:120-122`), although its comment says a failed start releases it;
  `WorkspaceLock.LockedAtRestExactlyWhenLeaked` says it is the only way to lose the lock. Both
  pipelines pass ids the database made (`internal/agent/repair.go:253`,
  `internal/agent/runner.go:362`), so only another caller of start can meet it.

## Model

| member | source | states |
|---|---|---|
| `BumpInvariant.ReachableInv` | internal/upkeep/bump.go:207-498 | Every bump any run of the eight commands reaches keeps one invariant: rounds numbered 1..n, at most the cap and counted by the log, only the last open; one verdict per head; Repairing means the last round is open on the current head; an abandonment exactly in Abandoned, or kept into Closed; a closure exactly in Closed; the log a chain of listed moves from AwaitingChecks to the state |
| `BumpInvariant.StepKeepsInv` | internal/upkeep/bump.go:207-498 | Each accepted command keeps that invariant, for any cap argument up to the configured one |
| `BumpInvariant.VerdictKeepsInv` | internal/upkeep/bump.go:207-240 | A recorded verdict keeps it: success goes green, failure queues below the cap and gives the bump up at it |
| `BumpInvariant.StartKeepsInv` | internal/upkeep/bump.go:267-288 | Starting a round keeps it: the new round is the next number, on the current head, within the cap |
| `BumpInvariant.OutcomeKeepsInv` | internal/upkeep/bump.go:315-393 | An outcome keeps it whether or not the bump is still repairing when it lands |
| `BumpInvariant.RetryKeepsInv` | internal/upkeep/bump.go:462-480 | An operator retry keeps it: the abandonment goes, and the grant in the log covers the round it allows |
| `BumpInvariant.EndingIsListed` | internal/upkeep/bump.go:359-393 | Every way a running round ends is a listed transition, and records an abandonment exactly when it abandons |
| `BumpInvariant.StepLogsOnce` | internal/upkeep/bump.go:104-110 | A command appends at most one log entry, from the old state to the new, and none exactly when the state stays |
| `BumpInvariant.NewBumpInv` | internal/upkeep/bump.go:50-73 | A new bump starts out satisfying the invariant |
| `BumpInvariant.FindVerdictFinds` | internal/upkeep/bump.go:145-153 | The current verdict is a recorded one for the head, and missing only when no verdict names the head |
| `BumpAggregate.Bump.RecordVerdict` | internal/upkeep/bump.go:207-240 | On the object, a verdict leaves fields and change set as the specification function says, or returns its error and leaves everything untouched |
| `BumpAggregate.Bump.AdvanceHead` | internal/upkeep/bump.go:247-263 | On the object, a moved head leaves fields and change set as the specification function says, or returns its error and leaves everything untouched |
| `BumpAggregate.Bump.StartRepair` | internal/upkeep/bump.go:267-288 | On the object, a started round leaves fields and change set as the specification function says, or returns its error and leaves everything untouched |
| `BumpAggregate.Bump.RecordRun` | internal/upkeep/bump.go:292-309 | On the object, a recorded run leaves fields and change set as the specification function says, or returns its error and leaves everything untouched |
| `BumpAggregate.Bump.RecordOutcome` | internal/upkeep/bump.go:315-355 | On the object, an outcome leaves fields and change set as the specification function says, or returns its error and leaves everything untouched |
| `BumpAggregate.Bump.Abandon` | internal/upkeep/bump.go:432-448 | On the object, giving a bump up leaves fields and change set as the specification function says, or returns its error and leaves everything untouched |
| `BumpAggregate.Bump.Retry` | internal/upkeep/bump.go:462-480 | On the object, an operator retry leaves fields and change set as the specification function says, or returns its error and leaves everything untouched |
| `BumpAggregate.Bump.Close` | internal/upkeep/bump.go:484-498 | On the object, a closure leaves fields and change set as the specification function says, or returns its error and leaves everything untouched |
| `BumpAggregate.Bump.OutcomeMove` | internal/upkeep/bump.go:359-393 | The outcome table, with the cap and the earlier restarts found by loops over log and rounds |
| `BumpAggregate.Bump.RetryGrants` | internal/upkeep/bump.go:189-197 | The loop counts exactly the operator retries of the log |
| `BumpAggregate.Bump.RestartedBefore` | internal/upkeep/bump.go:527-534 | True exactly when an earlier round ended in a daemon restart |
| `BumpAggregate.Bump.CurrentVerdict` | internal/upkeep/bump.go:145-153 | The loop returns the first verdict for the current head |
| `BumpAggregate.LoadBump` | internal/upkeep/bump.go:556-598 | A snapshot is accepted exactly when identity, open rounds, verdict heads and state facts are consistent; the loaded bump is that snapshot with nothing changed |
| `BumpAggregate.InvIsLoadable` | internal/upkeep/bump.go:556-598 | No bump satisfying the invariant is ever rejected by the load checks |
| `Kernel.BudgetIsPositive` | internal/resolution/budget.go:13-18 | A budget is made exactly of three positive limits, kept as given |
| `BumpLaws.CountIsHowMany` | internal/upkeep/bump.go:189-205 | What the cap counts is the number of log entries with that cause |
| `BumpLaws.NewBumpIs` | internal/upkeep/bump.go:50-73 | A bump is opened exactly for a whole identity and a well-formed head; it awaits checks on that head with nothing recorded |
| `BumpLaws.VerdictIsTakenExactly` | internal/upkeep/bump.go:207-226 | A verdict is taken exactly when it is well formed, the bump awaits checks, it names the current head and no verdict names that head yet; invalid is exactly malformed |
| `BumpLaws.VerdictDecides` | internal/upkeep/bump.go:227-240 | Whatever follows it is recorded; green exactly on success, queued exactly on failure with a round left, given up exactly on failure without, with the contexts as the detail and the cause logged |
| `BumpLaws.HeadIsTakenExactly` | internal/upkeep/bump.go:247-257 | A moved head is taken exactly when well formed, different, and the bump is neither closed nor abandoned |
| `BumpLaws.HeadMoves` | internal/upkeep/bump.go:258-263 | The bump then awaits checks on that head, keeps verdicts and rounds, and logs one head advance exactly when it was not waiting |
| `BumpLaws.RoundStartsExactly` | internal/upkeep/bump.go:267-280 | A round starts exactly with a budget and a brief, on a queued bump with no round open and one left under the cap |
| `BumpLaws.RoundRunsOnHead` | internal/upkeep/bump.go:281-288 | It is appended with the next number, the current head, the budget, brief and time given |
| `BumpLaws.RunIsTakenExactly` | internal/upkeep/bump.go:292-303 | A run is taken exactly when complete, for the open round it names, which has none yet |
| `BumpLaws.RunIsRecorded` | internal/upkeep/bump.go:304-309 | It is written on the open round and nothing else changes |
| `BumpLaws.OutcomeIsTakenExactly` | internal/upkeep/bump.go:315-340 | An outcome is taken exactly when its variant is complete, it names the open round, a push moved the head from the base, and a closing reason finds the bump closed; nothing else about the state matters |
| `BumpLaws.OutcomeEndsRound` | internal/upkeep/bump.go:341-355 | It is written on the open round, the head moves exactly for a push, and a bump no longer repairing keeps state, log and abandonment |
| `BumpLaws.RunningRoundDecides` | internal/upkeep/bump.go:359-393 | A repairing bump awaits checks exactly after a push, is queued exactly after an infra failure or first restart with a round left, and is otherwise given up, for the reason and with the logged cause each kind calls for, stated both ways |
| `BumpLaws.GivingUpIsTakenExactly` | internal/upkeep/bump.go:432-444 | Giving up is taken exactly for checks that never concluded, with a detail, from the four states that are not over |
| `BumpLaws.GivingUpAbandons` | internal/upkeep/bump.go:445-448 | It abandons with exactly that reason, detail and time |
| `BumpLaws.RetryIsTakenExactly` | internal/upkeep/bump.go:462-470 | A retry is taken exactly from abandoned or green without a success verdict on the head |
| `BumpLaws.RetryResumes` | internal/upkeep/bump.go:471-480 | It drops the abandonment and queues the bump exactly when a failing verdict names the head, else waits |
| `BumpLaws.ClosureIsTakenExactly` | internal/upkeep/bump.go:484-493 | A closure is taken exactly when complete and the bump is not closed |
| `BumpLaws.ClosureCloses` | internal/upkeep/bump.go:494-498 | It closes with exactly that closure and keeps everything else |
| `BumpRuns.LogIsBounded` | internal/upkeep/bump.go:199-498 | The push, check, push cycle ends: every run of a new bump logs at most 3 per round of the cap, plus 3, plus 6 per operator retry and 2 per head advance in its log |
| `BumpRuns.TransitionIsPaidFor` | internal/upkeep/bump.go:104-110 | Each logged move lowers the potential 3 * (cap - rounds) + rank(state), or is a retry or head advance that pays for it |
| `BumpRuns.RestartRequeuesOnce` | internal/upkeep/bump.go:384-388 | In its whole life, operator retries included, a bump is requeued by a daemon restart at most once |
| `BumpRuns.QueuedIsBelowCap` | internal/upkeep/bump.go:233-288 | In every run a queued bump still has a round left under the cap |
| `BumpRuns.JudgedExactlyWithoutStrayPush` | internal/upkeep/bump.go:207-393 | Through a run, queued and repairing bumps have a failing verdict for their head and green ones a success, at every step, if and only if no push lands on a queued or green bump with a head no verdict judges that way |
| `BumpRuns.StepJudgesHead` | internal/upkeep/bump.go:207-393 | For one command: that agreement of state and verdict survives exactly when the command is not such a stray push |
| `BumpRuns.QueuedCanBeScheduled` | internal/upkeep/brief.go:30-50 | With no round open, a queued bump gets its brief and its round exactly when its head has a failing verdict |
| `BumpRuns.GreenRetryIsRefused` | internal/upkeep/bump.go:462-480 | A retry of a green bump is refused exactly when the current head has a success verdict |
| `BumpAbandonments.AbandonmentIsSupported` | internal/upkeep/bump.go:227-448 | Through a run the recorded reason is borne out at every step (the cap really reached, the last outcome really of that kind and quoted, an earlier restart really there, a bump whose checks never concluded really waiting when given up) if and only if no give-up is accepted on a bump that is not awaiting checks |
| `BumpAbandonments.RoundsBearReasonsOut` | internal/upkeep/bump.go:227-393 | In every run, late give-ups included, each reason other than checks-never-concluded is borne out by the rounds and the cap |
| `BumpAbandonments.StepGivesUpWaiting` | internal/upkeep/bump.go:432-448 | For one command: that a bump given up for want of checks was given up from awaiting checks survives exactly when the command is not a give-up from another state |
| `BumpAbandonments.UnjudgedExactlyWithoutContradiction` | internal/upkeep/bump.go:432-448 | Through a run, a bump given up for want of checks has no verdict for its head, at every step, if and only if no give-up is accepted on a judged head and no late push moves a given-up bump to one |
| `BumpAbandonments.RetryOfAbandoned` | internal/upkeep/bump.go:462-480 | A retry of an abandoned bump waits again exactly when its head has no verdict, queues it exactly when the head failed, and is refused exactly when it passed |
| `BumpAbandonments.PassedAndAbandonedOnlyCloses` | internal/upkeep/bump.go:247-498 | An abandoned bump whose head passed leaves that state by closing and no other command |
| `BumpWitnesses.StrayPushStrandsBump` | internal/upkeep/bump.go:344-347 | A concrete run: a round outlives a force-push, pushes onto the requeued bump, and leaves it queued with no verdict; the scheduler can never brief it |
| `BumpWitnesses.GreenRetryIsTaken` | internal/upkeep/bump.go:344-347 | A concrete run: a round outlives a force-push whose head passes, pushes onto the green bump, and the retry the documentation refuses goes through |
| `BumpWitnesses.LateGiveUpBuriesPassedBump` | internal/upkeep/bump.go:432-448 | A concrete run: the checks pass, the sweep then gives the bump up as never concluded, and the operator cannot bring it back |
| `BumpWitnesses.LogBoundIsTight` | internal/upkeep/bump.go:199-288 | A concrete run that meets the log bound with equality |
| `BumpChanges.StepReplays` | internal/upkeep/bump.go:104-110 | After any accepted command, replaying the tracked changes on the loaded bump gives the bump in memory |
| `BumpChanges.ChangesReplay` | internal/upkeep/bump.go:104-110 | The same for any number of commands before the changes are read, refused ones included |
| `BumpPersistence.OutcomeRoundTrip` | internal/store/bumps.go:230-252 | An outcome written as a common row and one variant row loads back with exactly the fields its kind makes meaningful |
| `BumpPersistence.WriteThenLoad` | internal/store/bumps_load.go:43-182 | For every change set a write accepts, the bump loaded afterwards equals the one loaded before with the changes replayed, up to new ids, the order of verdicts and the cut to whole microseconds |
| `BumpPersistence.RowsStayOk` | internal/store/bumps.go:164-225 | A write keeps the rows well formed: rounds numbered, runs and outcomes under a round, one variant row per outcome and of its kind |
| `BumpPersistence.SortVerdictsPermutes` | internal/store/bumps_load.go:53-70 | Loading verdicts in time order drops none and adds none |
| `BumpReload.EveryBumpIsSound` | internal/upkeep/bump.go:50-498 | From its opening on and through every run of commands, a bump satisfies the invariant, has been requeued by a restart at most once, is below its cap when queued, and has every reason its rounds can speak for borne out by them |
| `BumpReload.KeptIsSound` | internal/store/bumps_load.go:43-119 | The invariant, the single restart, the room under the cap and the reasons the rounds bear out all survive being stored and loaded |
| `BumpReload.KeptAgrees` | internal/store/bumps_load.go:43-119 | State and current verdict agree, and the recorded reason is borne out, in the loaded bump exactly when in memory |
| `BumpDatabase.UpdateKeepsOk` | internal/store/bumps.go:117-145 | An update keeps every stored bump sound and touches no other bump |
| `BumpDatabase.UpdateRoundTrip` | internal/store/bumps.go:117-145 | The bump loaded after a committed update is the bump in memory after the command, up to new ids, the order of verdicts and the cut to whole microseconds |
| `BumpFidelity.UpdateLosesOnlyFractions` | internal/store/bumps_load.go:43-182 | Fact by fact: after a committed update every verdict, round, run, outcome, log entry, abandonment and closure in memory is loaded with the same content, times and durations cut by less than a microsecond |
| `FreshIds.UpdateKeepsIdsUnique` | internal/store/bumps.go:164-187 | The ids an update hands out are on no other row of any bump |
| `BumpDatabase.ServingAgreesExactly` | internal/store/bumps.go:117-145 | Through any run of updates every stored bump agrees with its verdicts and bears out its reason, at every step, if and only if no stray push and no late give-up is committed |
| `BumpDatabase.ServingKeepsOk` | internal/store/bumps.go:117-145 | So does every run of updates, failed ones included |
| `BumpDatabase.RefusedExactlyWhenUnstorable` | internal/store/bumps.go:164-252 | The tables refuse a command the aggregate accepted exactly for a budget under a microsecond, a run id already taken, a negative usage, or a closing delivery that is unknown or already closes a bump; no row of the bump itself ever collides |
| `BumpDatabase.UpdateFailsExactlyWhen` | internal/store/bumps.go:117-145 | An update ends in not-found, in the aggregate's own error or in a constraint exactly in those cases, and otherwise commits; the bump always loads, before and after |
| `BumpDatabase.CreateKeepsOk` | internal/store/bumps.go:79-108 | Creating a bump keeps the database sound, and the bump loads back as it was given |
| `BumpDatabase.CreateFailsExactlyWhen` | internal/store/bumps.go:79-108 | Creating goes through exactly for a watched repository, a whole bump and a key not taken, and no other bump changes |
| `BumpTransactions.CollidesExactlyWhenGivenUpAgain` | internal/upkeep/bump.go:462-510 | However many commands go before the write, the abandonment row collides exactly when the bump was loaded abandoned, retried and given up again, since recording the new abandonment forgets the delete |
| `BumpTransactions.RetryThenAbandonCollides` | internal/upkeep/bump.go:502-510 | The shortest such run: a retry and giving up at once |
| `BumpStore.PersistChanges` | internal/store/bumps.go:164-225 | The inserts in the order the store issues them, over maps in any order, have exactly the effect and the refusals of the write the round trip is proved for |
| `BumpStore.PersistRuns` | internal/store/bumps.go:188-205 | Runs inserted one by one in any map order all fit exactly when the whole set fits |
| `BumpStore.PersistOutcomes` | internal/store/bumps.go:206-252 | Outcomes inserted one by one in any map order fill the common and variant tables, or the first misfit refuses them all |
| `BumpStore.Store.UpdateBump` | internal/store/bumps.go:117-145 | On the store object: load, one command, write, load again; on any error the database is as it was |
| `BumpStore.Store.CreateBump` | internal/store/bumps.go:79-108 | On the store object: the watch, the checks and the key are looked at in order, the id assigned and the changes cleared only after the insert |
| `CaseInvariant.ReachableInv` | internal/resolution/case.go:205-365 | Every case any run of commands reaches keeps one invariant: attempts numbered and counted by the log, only the last open and then only while Attempting or Closed; each start spends a queueing; triage logged once and by size; queueings by approval no more than approvals; closure exactly in Closed; the log a chain of listed moves from the state trust puts it in |
| `CaseInvariant.StepKeepsInv` | internal/resolution/case.go:205-365 | Each accepted command keeps it |
| `CaseInvariant.NewCaseInv` | internal/resolution/case.go:57-74 | A new case satisfies it |
| `CaseAggregate.Case.RecordTriage` | internal/resolution/case.go:205-226 | On the object, a triage leaves fields and change set as the specification function says, or returns its error and leaves everything untouched |
| `CaseAggregate.Case.RecordApproval` | internal/resolution/case.go:231-251 | On the object, an approval leaves fields and change set as the specification function says, or returns its error and leaves everything untouched |
| `CaseAggregate.Case.StartAttempt` | internal/resolution/case.go:254-275 | On the object, a started attempt leaves fields and change set as the specification function says, or returns its error and leaves everything untouched |
| `CaseAggregate.Case.RecordRun` | internal/resolution/case.go:279-296 | On the object, a recorded run leaves fields and change set as the specification function says, or returns its error and leaves everything untouched |
| `CaseAggregate.Case.RecordOutcome` | internal/resolution/case.go:300-350 | On the object, an outcome leaves fields and change set as the specification function says, or returns its error and leaves everything untouched |
| `CaseAggregate.Case.Close` | internal/resolution/case.go:354-365 | On the object, a closure leaves fields and change set as the specification function says, or returns its error and leaves everything untouched |
| `CaseAggregate.Case.NextAttemptKind` | internal/resolution/case.go:182-198 | The loop answers Approved exactly when there is an approval and none or not all of them are older than the latest start |
| `CaseAggregate.LoadCase` | internal/resolution/case.go:78-102 | A snapshot is accepted exactly when its identity is complete, trust and state agree and at most one attempt is open |
| `CaseLaws.TrustIsByAssociation` | internal/resolution/requester.go:14-28 | Trusted are exactly owners, members and collaborators |
| `CaseLaws.NewCaseIs` | internal/resolution/case.go:57-74 | A case is opened exactly for a whole key and a login; received exactly when trusted, gated otherwise |
| `CaseLaws.TriageIsTakenExactly` | internal/resolution/case.go:205-217 | A triage is taken exactly when complete, on a received case that has none |
| `CaseLaws.TriageDecides` | internal/resolution/case.go:218-226 | Small is queued, large awaits approval, and the cause says which |
| `CaseLaws.ApprovalIsTakenExactly` | internal/resolution/case.go:231-243 | An approval is taken exactly when complete and the case is neither done nor closed |
| `CaseLaws.ApprovalIsKept` | internal/resolution/case.go:244-251 | It is kept in every such state, and queues the case exactly from gated, awaiting approval and failed |
| `CaseLaws.AttemptStartsExactly` | internal/resolution/case.go:254-267 | An attempt starts exactly with a kind, a budget and a brief, on a queued case with nothing open |
| `CaseLaws.AttemptIsAppended` | internal/resolution/case.go:268-275 | It is appended with the next ordinal and exactly what was given |
| `CaseLaws.KindIsByApprovals` | internal/resolution/case.go:182-198 | The next attempt is approved exactly on an approval no older than the latest start, or any when nothing ran |
| `CaseLaws.RunIsTakenExactly` | internal/resolution/case.go:279-291 | A run is taken exactly when complete, for the open attempt it names, which has none yet |
| `CaseLaws.RunIsRecorded` | internal/resolution/case.go:292-296 | It is written on the open attempt and nothing else changes |
| `CaseLaws.OutcomeIsTakenExactly` | internal/resolution/case.go:300-340 | An outcome is taken exactly with a kind and a summary, for the open attempt it names, except for an abort that only a closed case explains |
| `CaseLaws.OutcomeDecides` | internal/resolution/case.go:315-350 | A closed case only ends the attempt; any other goes to the state and logs the cause its kind calls for, stated both ways, a restart requeueing exactly the first time |
| `CaseLaws.ClosureIsTakenExactly` | internal/resolution/case.go:354-361 | A closure is taken exactly with a delivery, in every state that is not done or closed |
| `CaseLaws.ClosureCloses` | internal/resolution/case.go:362-365 | It closes with exactly that closure and keeps everything else |
| `CaseRuns.AttemptsAreBounded` | internal/resolution/case.go:205-335 | In every run a case has at most one attempt for a small triage, one per approval and one for a restart, and so its log at most 3 entries per approval plus 6 |
| `CaseRuns.StartFollowsQueueing` | internal/resolution/case.go:254-275 | Each logged start directly follows the triage, approval or restart that queued the case |
| `CaseRuns.UntrustedNeedsApproval` | internal/resolution/case.go:205-251 | An untrusted case is never triaged, and all of its attempts come after an approval out of the gate |
| `CaseRuns.TrustGate` | internal/resolution/requester.go:14-28 | Over every run: an issue opened by anyone but an owner, member or collaborator is never triaged, and has no attempt before an approval |
| `CaseRuns.LargeNeedsApproval` | internal/resolution/case.go:220-251 | A large case is parked first, and all of its attempts come after an approval out of AwaitingApproval |
| `CaseRuns.ApprovalBuysApprovedAttempt` | internal/resolution/case.go:182-251 | In every run whose approvals and starts do not go back in time, a case queued by an approval runs next as approved |
| `CaseRuns.StaleApprovalBuysAuto` | internal/resolution/case.go:182-198 | Otherwise, where every earlier approval is older than the latest start, it does so exactly when the new approval is not |
| `CaseRuns.RestartBuysNoApproval` | internal/resolution/case.go:182-198 | After a restart requeue the next attempt is approved exactly when some approval is no older than the attempt cut off |
| `CaseRuns.RestartRequeuesOnce` | internal/resolution/case.go:330-335 | A case is requeued by a daemon restart at most once in its life |
| `CaseRuns.StateIsExplained` | internal/resolution/case.go:300-350 | In every run a case is Done only on a pull request of its last attempt, Failed only on its failure or a second restart, and AwaitingApproval only on its exhaustion, an operator stop or a large triage before any attempt |
| `CaseRuns.OutcomeAcceptedExactlyWhen` | internal/resolution/case.go:300-350 | An open attempt takes every outcome in every state, except an abort that only a closed case explains; closed stays closed |
| `CaseRuns.TerminalIsFinal` | internal/resolution/case.go:231-365 | From Done nothing changes any more; from Closed only the open attempt may still be filled in |
| `CaseWitnesses.SecondRestartFails` | internal/resolution/case.go:327-335 | A concrete run: the restarted attempt of an approved case comes back as auto, and a second restart fails the case |
| `CaseWitnesses.StoredApprovalBuysAnother` | internal/resolution/case.go:182-198 | A concrete run: approved, started half a microsecond later and cut off by a restart, the case runs on as auto in memory and as approved however it is loaded |
| `CaseWitnesses.AttemptBoundIsTight` | internal/resolution/case.go:205-335 | A concrete run that meets the attempt bound with equality |
| `CaseFacts.WellBuiltExactlyConstructed` | internal/resolution/facts.go:87-149 | The well-built outcomes are exactly those the five constructors can return |
| `CaseChanges.StepReplays` | internal/resolution/case.go:392-398 | After any accepted command, replaying the tracked changes on the loaded case gives the case in memory |
| `CaseChanges.ChangesReplay` | internal/resolution/case.go:392-398 | The same for any number of commands before the changes are read |
| `CasePersistence.OutcomeRoundTrip` | internal/store/cases.go:177-209 | The four outcome variants, the exhaustion with and without its partial pull request, load back from their rows with every other field empty |
| `CasePersistence.WellBuiltIsKept` | internal/store/cases_load.go:131-201 | An outcome from a constructor is kept exactly, but for the cut to whole microseconds |
| `CasePersistence.WriteThenLoad` | internal/store/cases_load.go:54-201 | For every change set a write accepts, the case loaded afterwards equals the one loaded before with the changes replayed, up to new ids, the order of approvals and whole microseconds |
| `CaseDatabase.KindAfterReload` | internal/store/cases_load.go:75-95 | Storing and loading changes the kind of the next attempt if and only if it was auto and an approval before the latest start falls into the same microsecond |
| `CaseDatabase.KindAfterUpdate` | internal/store/cases.go:63-91 | After a committed update the next attempt is of the kind it has in memory, but approved when an approval shares a microsecond with the latest start |
| `CaseDatabase.UpdateRoundTrip` | internal/store/cases.go:63-91 | The case loaded after a committed update is the case in memory after the command, up to new ids, the order of approvals and the cut to whole microseconds |
| `CaseFidelity.UpdateLosesOnlyFractions` | internal/store/cases_load.go:54-201 | Fact by fact: after a committed update every triage, approval, attempt, run, outcome, log entry and closure in memory is loaded with the same content, times and durations cut by less than a microsecond |
| `FreshIds.CaseUpdateKeepsIdsUnique` | internal/store/cases.go:94-160 | The ids an update hands out are on no other row of any case |
| `CaseDatabase.UpdateKeepsOk` | internal/store/cases.go:63-91 | An update keeps every stored case sound and touches no other case |
| `CaseDatabase.ServingKeepsOk` | internal/store/cases.go:63-91 | So does every run of updates |
| `CaseDatabase.RefusedExactlyWhenUnstorable` | internal/store/cases.go:94-209 | The tables refuse a command the aggregate accepted exactly for an approver or delivery they do not take, a budget under a microsecond, a run id taken, an outcome whose own variant is not filled in or whose usage is negative, or a closing delivery unknown or taken |
| `CaseDatabase.UpdateFailsExactlyWhen` | internal/store/cases.go:63-91 | An update fails exactly in those cases, and the case always loads |
| `CaseDatabase.CreateKeepsOk` | internal/store/cases.go:32-55 | Creating a case keeps the database sound, and the case loads back as it was given |
| `CaseDatabase.CreateFailsExactlyWhen` | internal/store/cases.go:32-55 | Creating goes through exactly for an enrolled repository, a whole case in the state its trust calls for and a key not taken, and no other case changes |
| `CaseDatabase.ConstructedOutcomeIsStorable` | internal/store/cases.go:184-209 | An outcome from a constructor is refused only for a negative usage |
| `CaseStore.PersistChanges` | internal/store/cases.go:94-156 | The inserts in the order the store issues them have exactly the effect and the refusals of the write the round trip is proved for |
| `CaseStore.Store.UpdateCase` | internal/store/cases.go:63-91 | On the store object: load, one command, write, load again; on any error the database is as it was |
| `CaseStore.Store.CreateCase` | internal/store/cases.go:32-55 | On the store object: the id is assigned and the changes cleared only after the insert |
| `SandboxPool.PoolIsNeverOversubscribed` | internal/app/repairs.go:64-102 | Over every interleaving of passes, deliveries, outcomes and crashes, open attempts plus open rounds stay within the limit once they are, and never grow when they start above it |
| `SandboxPool.StepFits` | internal/app/scheduler.go:57-83 | What a pass has counted is never less than what is open, and its free slots always fit under the limit |
| `Scheduling.RunQueue` | internal/app/scheduler.go:69-82 | One pass starts exactly the first startable items of the queue, as many as there are free slots; skipped and failing ones cost no slot and nothing else moves |
| `Scheduling.RunRepairs` | internal/app/repairs.go:64-174 | Whatever it starts is watched, has its pull request open, titled, by the login if one is set and at the bump head, has a failing verdict for that head and a round left, and runs its next round on that head; nothing else changes, and a bump for which all that holds is left only when every slot was used |
| `Scheduling.StartsExactly` | internal/app/repairs.go:105-159 | One bump gets its round if and only if those facts hold |
| `Scheduling.RunAttempts` | internal/app/scheduler.go:57-131 | Whatever it starts is queued with nothing open, in a known repository, its issue open, titled and described, and runs on the kind its approvals call for and that budget; nothing else changes, and such a case is left only when every slot was used |
| `Scheduling.AttemptsExactly` | internal/app/scheduler.go:88-114 | One case gets its attempt if and only if those facts hold |
| `Scheduling.OldestBumpsGoFirst` | internal/store/bumps.go:267-277 | A queued bump that could start and does not had no slot left for it, and each slot went to a bump queued before it by the log, or at the same time with a lower id |
| `Scheduling.OldestCasesGoFirst` | internal/store/queries.go:98-106 | The same for cases of enrolled repositories |
| `Scheduling.LongestQueuedBumpsStart` | internal/store/bumps.go:267-277 | Said of the bumps alone: each that started has a latest log entry, into queued, no later than that of one left waiting, and the lower id when equal |
| `Scheduling.LongestQueuedCasesStart` | internal/store/queries.go:98-106 | The same of the cases |
| `Scheduling.QueueIsDetermined` | internal/store/bumps.go:267-277 | The queue is determined by the items: everything queued, once, by the latest queueing and then by id |
| `Scheduling.QueuedBumpIsListed` | internal/store/bumps.go:267-277 | A queued bump always has the log entry the queue joins on, and it is its latest |
| `Scheduling.QueuedCaseIsListed` | internal/store/queries.go:100-106 | A queued case always has the log entry the queue joins on, and it is its latest |
| `Scheduling.QueuedBumpStarts` | internal/app/repairs.go:105-174 | A queued bump with a judged head and no open round starts when the pull request is as expected |
| `Scheduling.QueuedCaseStarts` | internal/app/scheduler.go:88-131 | A queued case starts when its issue is open and not empty, on the kind and budget its approvals call for |
| `Scheduling.SweepStale` | internal/app/repairs.go:280-299 | Every listed bump is given up in whatever state it is loaded by then, and no other is touched |
| `Scheduling.StaleBumpIsAbandoned` | internal/app/repairs.go:280-299 | Giving up a listed bump is refused exactly when it has been given up or closed meanwhile, and the recorded reason is borne out exactly when, not so refused, it was still awaiting checks |
| `Scheduling.WaitBeganWithLatestEntry` | internal/store/bumps.go:279-293 | A bump is listed as stale exactly when it awaits checks and its latest log entry, or its opening, is no later than the cutoff |
| `Recovery.RecoveredBumpIsAtRest` | internal/app/repairs.go:333-344 | After recovery a bump has no open round and is not repairing; a repairing one is queued or abandoned, every other keeps its state |
| `Recovery.RecoveredCaseIsAtRest` | internal/app/recovery.go:38-51 | After recovery a case has no open attempt; an attempting one is queued or failed, every other keeps its state |
| `Recovery.RecoverBumps` | internal/app/repairs.go:316-344 | Nothing it writes is refused; each open round is aborted, by the closing of a closed bump and by the restart of any other, a repairing bump is queued exactly when no earlier round was cut off by a restart and a round is left, and given up otherwise, and every other bump is as it was |
| `Recovery.RecoverCases` | internal/app/recovery.go:20-51 | Nothing it writes is refused; each open attempt is aborted, by the closing of a closed case and by the restart of any other, which queues the case exactly when no earlier attempt was cut off by a restart and fails it otherwise |
| `Recovery.EndAll` | internal/app/recovery.go:20-31 | A failure on one item leaves that one alone and the rest still get ended |
| `Recovery.BackstopEndsRound` | internal/app/repairs.go:180-206 | When the repair backstop writes it is never refused, the round ends as a failure of the machinery with its message, and a repairing bump is queued or out of rounds |
| `Recovery.BackstopEndsAttempt` | internal/app/scheduler.go:139-174 | When the attempt backstop writes it is never refused, the attempt ends as a failure of the machinery with its message, and the case is failed, or stays closed |
| `RecoveryStore.RecoveryEndsEveryRound` | internal/app/repairs.go:316-344 | Over the tables: recovery ends every stored open round, no update fails in the aggregate or in a constraint, the stored outcome and the state afterwards are those the bump calls for (first restart with a round left requeues), and bumps with no open round are untouched |
| `RecoveryStore.RecoveryEndsEveryAttempt` | internal/app/recovery.go:20-51 | The same for attempts: the first restart requeues the case, the second fails it, a closed one stays closed |
| `RecoveryStore.NothingIsLeftRunning` | internal/app/repairs.go:316-344 | After that no stored round is open and no stored bump repairing |
| `RecoveryStore.NoAttemptIsLeftRunning` | internal/app/recovery.go:20-51 | After that no stored attempt is open and no stored case attempting |
| `RecoveryStore.BackstopCommits` | internal/app/repairs.go:180-206 | What the backstop writes on a stored open round is committed and ends it |
| `RecoveryStore.AttemptBackstopCommits` | internal/app/scheduler.go:139-174 | What the backstop writes on a stored open attempt is committed and ends it |
| `Recovery.ShutdownLeavesTheRequeue` | internal/app/repairs.go:186-191 | A backstop that stands down on shutdown leaves recovery the round, which is requeued exactly when a round and the restart are left |
| `WakeProtocol.NoLostWakeUp` | internal/app/dispatcher.go:94-162 | From boot on, while the listener stays connected and scans succeed, every committed change not yet read has a notification in flight, a token in the wake channel or a sweep that has still to reach its table |
| `WakeProtocol.AtRestNothingIsUnread` | internal/app/dispatcher.go:94-162 | So a dispatcher at rest has read everything |
| `WakeProtocol.TickRestoresGuarantee` | internal/app/dispatcher.go:121-141 | After any faults a floor tick with the connection up restores that guarantee until the next fault |
| `WakeProtocol.OneWakeReadsAll` | internal/app/dispatcher.go:166-215 | One wake-up, whatever number of changes it stands for, leads to a sweep that reads them all |
| `WakeProtocol.StepLosesExactly` | internal/app/dispatcher.go:94-162 | For one step: every unread change stays on its way to being read exactly when the step is no unheard commit, no disconnect that drops its only notification, and no failed scan of it, with nothing else coming |
| `WakeProtocol.WakeUpsLostExactly` | internal/app/dispatcher.go:94-162 | Over any run, connected or not, every unread change is on its way at every point if and only if no step is one of those |
| `WakeProtocol.LostWhileDisconnected` | internal/store/listen.go:9-15 | A change committed while disconnected is not noticed after reconnecting, until a tick or another change |
| `WakeProtocol.FailedScanIsForgotten` | internal/app/dispatcher.go:160-201 | A scan that fails with nothing else to bring another leaves its table unread at rest, until a tick or another change |
| `WakeProtocol.StepKeepsInv` | internal/store/listen.go:35-54 | Each commit, delivery, disconnect, tick, scan and sweep step keeps every unread change covered or excused |
| `WorkspaceLock.MutualExclusion` | internal/sandbox/sandbox.go:127-158 | In no interleaving do two threads hold the workspace of one repository |
| `WorkspaceLock.StepKeepsInv` | internal/sandbox/sandbox.go:133-185 | Each step keeps: a holder that counts on its lease is the recorded one, no lease is in two hands, and the channel is full exactly when a holder is recorded, a thread sits between its send and its record, or an unlock between its delete and its receive |
| `WorkspaceLock.FinishedLeaseReleasesNothing` | internal/sandbox/sandbox.go:160-185 | An unlock with a lease nobody has any more changes nothing |
| `WorkspaceLock.DrainFindsToken` | internal/sandbox/sandbox.go:176-184 | The receive in an unlock always finds the token, so its default branch is never taken |
| `WorkspaceLock.LockedAtRestExactlyWhenLeaked` | internal/sandbox/podman.go:119-140 | Once every thread is through, a repository is locked exactly when some start was handed a malformed attempt id |
| `WorkspaceLock.LeakIsForever` | internal/sandbox/podman.go:119-122 | After such a start nobody can acquire that repository again, in any continuation |
| `Sandbox.Manager.Lock` | internal/sandbox/sandbox.go:133-158 | A taken lock is given up with nothing changed; a free one is recorded under a fresh serial |
| `Sandbox.Manager.Unlock` | internal/sandbox/sandbox.go:167-185 | Does what the protocol's unlock and drain do, and nothing for any other lease |
| `Sandbox.Manager.Prepare` | internal/sandbox/manager.go:25-45 | Succeeds exactly when the lock is free and every step works, holding its own lease; on failure the holders are as before |
| `Sandbox.Manager.PrepareHead` | internal/sandbox/head.go:19-44 | Likewise, and the workspace it hands out is based on and pushes against exactly the head asked for; a malformed head never reaches the lock |
| `Sandbox.Manager.CheckoutHead` | internal/sandbox/head.go:57-120 | Succeeds exactly when the branch is at that head on the remote |
| `Sandbox.Manager.Start` | internal/sandbox/podman.go:119-140 | A malformed id returns with the lock still held, any other failure releases it |
| `Sandbox.Manager.EndAgentPhase` | internal/sandbox/podman.go:220-246 | True only when the recorded container is gone and none is left under the label; the record is forgotten either way |
| `Sandbox.Manager.CommitAndPush` | internal/sandbox/git.go:324-359 | Every host git command it runs finds no container on the workspace, none runs when the agent phase could not be ended, and a head is handed out only if it is a well-formed sha |
| `Sandbox.Manager.Teardown` | internal/sandbox/podman.go:183-193 | Releases its own lease whether or not the removal worked, and nobody else's |
| `Sandbox.Manager.Round` | internal/sandbox/podman.go:105-246 | Whatever containers were left, every path through prepare, start, push and repeated teardown gives the lock back, except exactly the malformed id, and host git never runs with a container on the workspace |
| `CheckRollup.CheckRollup` | internal/github/rollup.go:60-177 | Over the entries of the pages: success exactly when every page arrived, the totals are reached, something was seen, every status is success and every run completed as success, skipped or neutral; failure exactly when read in full, every entry is one of those or a failure, error, timed_out or action_required, and some entry is the latter; the failing names and the first url are theirs, in order |
| `CheckRollup.ExpectedMeans` | internal/github/rollup.go:114-176 | The flat reading said in the words GitHub uses; a cancelled, stale or empty conclusion never concludes |
| `CheckRollup.ReadStatuses` | internal/github/rollup.go:106-132 | The status pages are all read exactly when all arrive and every status is decided |
| `CheckRollup.ReadRuns` | internal/github/rollup.go:134-163 | The check run pages likewise, counting on from the statuses |
| `CheckRollup.LabelsNameEveryFailure` | internal/github/rollup.go:89-98 | There are failing labels exactly when an entry failed, and none of them is empty |
| `CheckRollup.ConclusiveMakesValidVerdict` | internal/github/bumps.go:135-141 | A conclusive rollup always makes a verdict the aggregate calls valid, on the head asked about, with its conclusion and contexts exactly for a failure |
| `CheckRollup.JoinHoldsEveryPart` | internal/github/bumps.go:135-141 | Every failing name is in the joined contexts |
| `CheckRollup.RollupVerdictIsTakenWhenAwaited` | internal/github/bumps.go:142-155 | At its head such a verdict is taken exactly when the bump is waiting and has none; the only error is a refusal |
| `TagEscape.ReplaceFoldLoop` | internal/upkeep/brief.go:108-120 | The byte loop is the replacement the lemmas are about |
| `TagEscape.EscapedHoldsNoMarker` | internal/upkeep/brief.go:101-103 | For every text, neither the opening nor the closing marker of the tag is left in it, in any case |
| `TagEscape.EscapeIsIdempotent` | internal/upkeep/brief.go:101-103 | Text without a marker is left alone, and escaping twice is escaping once |
| `TagEscape.EscapedIsSameText` | internal/resolution/brief.go:65-84 | The escaped text is the same text: entities read as brackets, case aside, nothing is dropped or added |
| `TagEscape.FenceOpensOnce` | internal/upkeep/brief.go:95-97 | A fence holds its opening marker at its start and nowhere else |
| `TagEscape.FenceClosesOnce` | internal/upkeep/brief.go:95-97 | A fence holds its closing marker at its end and nowhere else |
| `TagEscape.FenceHoldsTheText` | internal/upkeep/brief.go:90-103 | Between them it holds the whole text, escaped and nothing more |
| `TagEscape.FoldIsAsciiCase` | internal/upkeep/brief.go:105-120 | Two bytes match when equal or the two cases of one ASCII letter |
| `RepairRun.Execute` | internal/agent/repair.go:186-393 | No outcome exactly on a shutdown nobody asked for; every outcome is valid; Pushed exactly for a finished run whose pushed, marker-free head differs from the base; NoChange, exhaustion, abort and push failure exactly as their causes say |
| `RepairRun.OutcomeIsTaken` | internal/agent/repair.go:145-180 | Whatever happened to the bump meanwhile, the round still open takes what execute returned; the closing reason is only asked for on a closed bump, and closed is final |
| `AttemptRun.Execute` | internal/agent/runner.go:293-572 | No outcome exactly on a shutdown nobody asked for; every outcome is one a constructor builds; a pull request is recorded only for a pushed, advanced, marker-free head and a real number |
| `AttemptRun.OutcomeIsTaken` | internal/agent/runner.go:241-286 | Whatever happened to the case meanwhile, the attempt still open takes what execute returned |
| `AttemptRun.Conclude` | internal/agent/runner.go:494-572 | A run whose branch is on the remote becomes the outcome its stop, its markers and its pull request call for, with an outcome a constructor refuses turned into an infrastructure failure |
| `AgentRun.GaugeCountsRuns` | internal/agent/runner.go:169-214 | After any registering and unregistering, twice or not at all, the gauge counts the runs in flight exactly when no id was registered while in flight |
| `AgentRun.Registry.Register` | internal/agent/runner.go:174-190 | Puts a fresh slot without a reason under the id and moves the gauge; gauge and runs in flight drift apart only if the id was there already |
| `AgentRun.Registry.Unregister` | internal/agent/runner.go:195-214 | Removes only this very run, never a later one under the id, moves the gauge only then, and never lets it drift |
| `AgentRun.Registry.Cancel` | internal/agent/runner.go:142-155 | Reaches the run exactly when it is registered, and no other |

## Left out

- BumpDatabase.RefusedExactlyWhenUnstorable: speaks of one command per update, as every caller uses it; with several commands in one transaction the abandonment row can collide, exactly as BumpTransactions.CollidesExactlyWhenGivenUpAgain says.
- CaseDatabase.RefusedExactlyWhenUnstorable: integer column widths are not modelled, so a number too large for its column is not among the refusals; the same holds for the bump tables.
- RepairRun.Execute: repository lookup, token minting, the container, the toolbox and the model are one setup answer each, and the agent's run is its report; the wording of messages is shortened.
- AttemptRun.Execute: the same, and the refreshed default branch, the pull request's title and body are not modelled.
- Scheduling.RunRepairs: one pass on a store nobody else writes to; what interferes between its steps is in SandboxPool, where the order of starts is not.
- Scheduling.RunQueue: the two schedulers' loops are one method over the start function; the runner's goroutine and its bookkeeping of running ids are left to AgentRun.
- WakeProtocol.NoLostWakeUp: a scan reads its table at one instant, and reconnects and ticks are events without durations.
- WorkspaceLock.MutualExclusion: the stale unlocks considered carry leases that were handed out and that no running attempt still counts on, as a repeated teardown does.
- Brief prose, comment bodies and summaries beyond the escaping: text without state.
- The triage service's backoff and give-up, the dispatcher's cancelling of closed work, the enrollment and comment services: short loops that would only add easy members.
- SQL, migrations, NOTIFY, git, podman and HTTP themselves, configuration, authentication, metrics, deployment.
- The operator's read-only listings and counts.
- Budget.Exceeded and the 80% warning: one comparison each.
