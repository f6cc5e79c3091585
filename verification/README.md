# LeapView: verified models of its stateful protocols

LeapView is a Go server for dashboards and deployments with a TypeScript desktop client. Its
guarantees rest on a handful of small state machines. This project models them in Dafny 4.11 and
proves what they promise over every interleaving, every history and every input.
`dafny verify dfyconfig.toml` checks the whole project.

| component | files |
|---|---|
| process lifecycle | `Lifecycle`, `LifecycleRuns`, `LifecycleInvariant`, `LifecycleTheorems`, `LifecycleProgress`, `LifecycleReasons`, `LifecycleOwner` |
| records under optimistic revisions | `OptimisticStore`, `Repository` |
| candidates | `Candidate`, `CandidateRuns`, `CandidateService` |
| deployment approvals | `Approval`, `ApprovalRuns`, `ApprovalService` |
| bounded recovery | `RecoveryBudget`, `RecoveryCoordinator` |
| dashboard selections | `SelectionKeys`, `Selection`, `SelectionRuns`, `SelectionTheorems`, `SelectionHistory`, `SelectionPicks` |
| manifests | `Manifest`, `ManifestDiff` |
| candidate runtime leases | `CandidateRuntime` |
| write-once settings | `InstanceBinding` |
| desktop updater | `StableVersion`, `Updater` |
| deep links | `DeepLink` |
| desktop profiles | `Profiles` |
| shared helpers | `Common`, `Text`, `Keyed`, `Sorting` |

## How the models are built

A protocol is a step function over values and a `Run` of arbitrary steps; the theorems are about
every `Run`. Where the source updates fields in place there is also a class whose methods carry out
the same steps, each with an `ensures` that ties the new state to the step function. Loops of the
source are loops here, specified by a function or a property and proved with invariants.

Assumptions and readings of the source:

- **Lifecycle.** A step is one lock/unlock region, one call into a component or cleanup, one receive
  or one close. Component outcomes, scheduling, the caller's own context and the end of the startup
  context are free. The loop of `startComponents` is the sequence of program counters `Head`, `Gate`,
  `Calling`, `Settled` and `PostStart`, because other goroutines act between its parts. The board's
  `holder` and `log` are history; `tally` is proved to be the reading of `log`.
- **Optimistic store.** `SaveX(next, expected)` is an atomic compare-and-set on the stored revision
  and an insert needs an unused key, which is what `internal/deployment/sqlite/candidate_repository.go`
  and `internal/deployment/sqlite/approval_repository.go` do with the statements in
  `internal/deployment/sqlite/queries/deployment.sql`. Any repository call may fail. In the service
  classes `Interfere` stands for any number of steps of other clients. Candidate rows are also written
  by statements that load nothing, the expiry sweep and the superseding UPDATE of a fresh start; a row
  that fails validation is stored all the same and then refused by every read. The sweep's statement
  compares RFC3339Nano texts, which within one second need not be the order of the times, so a row may be
  swept a little early or late; the modelled sweep may expire any open rows (`Candidate.SweepOut`), which
  covers every such comparison.
- **Times** are naturals with 0 for the zero time; revisions are unbounded integers.
- **Opaque functions**: path rules and case folding, JSON encodings and printed values of scalars,
  URL and profile-field checks, link parsing, the connection leaser, its sort of evidence and the runtime
  host. Random identifiers are parameters.
- **Desktop updater.** A native check that throws emits no events before it throws.
- **Sorting.** `Sorting.SortBy` promises callers only a weakly sorted permutation; where keys are
  distinct, any correct sort gives the same list (`Sorting.SortingIsArranging`).

## What the code does not do

Some expected properties are false of the code as written. Each has its exact condition.

- Stored candidates are not always valid. In every run of every writer a version is valid exactly when
  its write read a clock that was not the zero time and was not the superseding UPDATE of a ready
  candidate, which keeps the provenance (`CandidateRuns.EveryVersion`); `CandidateRuns.SupersedingStoresInvalid`
  is the run that stores such a row. A decision on an approval under a zero clock is refused instead
  (`Approval.DecideSucceedsExactly`).
- `Current` may return an open approval past its expiry, but only after it was overtaken by another
  writer. In a history, a version after an overdue one is overdue too exactly when the one is the
  request and the other its approval, which was then decided under an earlier clock
  (`ApprovalRuns.LostRaceExactly`, `ApprovalService.Service.Current`); `ApprovalRuns.LostRaceRun` reaches
  that state from the empty store.
- The recovery budget bounds every window only while no call is earlier than the last attempt it
  remembers. For any fixed limits, the bound is safe at every moment of a run, whatever calls that do not
  step back follow, exactly when no call of the run stepped back (`RecoveryBudget.BoundedExactly`,
  `NextCallDecides`; `SteppingBackOverflows` is a concrete pair of calls).
- A recovery coordinator loses a request exactly when a timer fires or availability returns while a
  cancelled attempt is still outstanding (`RecoveryCoordinator.DrivenExactly`, `ReuseCanLose`); the
  application avoids this by discarding a coordinator when it cancels it.
- Selections act as a map from source to set throughout a run exactly when no command meets a stored
  selection of another source whose joined id is spelled alike (`SelectionHistory.RunRefinesExactly`,
  `SelectionTheorems.RefinesExactly`); `SelectionHistory.CollidingRun` is such a run of two commands.
- The key of a mapping stands for its field, fact, grain and value only exactly when none of them contains
  the NUL character that separates them (`SelectionKeys.KeyIdentifiesExactly`, with the other mapping of
  the same key). For separable mappings whole runs are told in what is selected (`SelectionPicks.RunSelects`).
- Selection orders are 64-bit integers that wrap. They are positive and rise along both lists throughout
  a run exactly when no command needs an order above 2^63 - 1 (`SelectionHistory.OrdersRiseExactly`),
  which fewer than 2^63 commands never do (`SelectionHistory.EveryRun`).
- The interaction revision determines the selections for fewer than 2^64 commands and not for more
  (`SelectionHistory.RevisionDetermines`, `RevisionWraps`).
- Accepted bindings of a lease have distinct ids, whatever evidence is supplied with given ids, exactly
  when none of these ids, unless blank, carries outer space (`CandidateRuntime.UniqueExactly`, `RepeatPasses`).

## Model

| member | source | states |
|---|---|---|
| `LifecycleInvariant.StepKeeps` | internal/app/application.go:91-216 | every critical section, component call, receive and close keeps the protocol invariant, for any set of callers |
| `LifecycleInvariant.EveryRun` | internal/app/application.go:222-392 | the invariant holds after every sequence of steps |
| `LifecycleInvariant.OneWorker` | internal/app/application.go:222-366 | at most one goroutine starts or tears down components |
| `LifecycleRuns.EveryTally` | internal/app/application.go:222-392 | the running tally used by the invariant is what the event log amounts to |
| `LifecycleTheorems.PhaseNeverMovesBack` | internal/app/application_coordinator.go:11-24 | idle, starting, running, stopping, stopped: between any two moments of a run the phase never moves back |
| `LifecycleTheorems.EffectsAreOrdered` | internal/app/application.go:222-302 | no Start after a Stop, no Stop after a cleanup, Starts in slot order; after a stop request the process never runs and at most one further Start begins |
| `LifecycleTheorems.StopsReverseStarts` | internal/app/application.go:374-392 | at every moment the Stops done are a prefix of the successful Starts reversed; no component is among the successful Starts twice, so none is stopped twice, in the tally and event by event in the log |
| `LifecycleTheorems.StoppedMeansTornDown` | internal/app/application.go:304-366 | once stopped, all started components are stopped, every cleanup ran exactly once, last first, and the recorded shutdown error joins all their errors |
| `LifecycleReasons.StoppedHasReason` | internal/app/application.go:304-366 | a stopped process has a reason in its past: a failed Start with exactly the components before it started, an ended startup context (by itself, or by a shutdown's cancel), a stop request, or an ordered shutdown; the terminal error is the reason's own followed by every error of the teardown |
| `LifecycleReasons.TeardownHasReason` | internal/app/application.go:222-302 | whoever decides to tear down has such a reason from that moment on, and from the first stop on has cut the startup context off |
| `LifecycleReasons.AnswersAreTerminal` | internal/app/application.go:91-200 | a Shutdown answer comes after the whole teardown with all its errors; a nil Start answer means the process ran with every component started; any other Start answer comes after the teardown and is the terminal error of a reason |
| `LifecycleReasons.RunningHasStartedAll` | internal/app/application.go:222-302 | a running process has started exactly its non-nil components, in order |
| `LifecycleReasons.ShutdownCutsStartup` | internal/app/application.go:148-157 | a Shutdown that waits for a startup has ended the startup context |
| `LifecycleReasons.UndisturbedNeverStops` | internal/app/application.go:222-302 | without a failing Start, a stop request or an ended context no run tears the process down |
| `LifecycleReasons.StartSucceeds` | internal/app/application.go:222-302 | in any continuation without such a reason in which the startup owner moves a computed number of times, with anything else interleaved, the process runs, every component is started and the owner's Start has returned nil |
| `LifecycleReasons.UnaskedWithoutShutdown` | internal/app/application.go:136-184 | only a call to Shutdown requests a stop |
| `LifecycleReasons.StopIsHeeded` | internal/app/application.go:222-297 | a stop request made before the owner looks again starts no further component, and the owner's Start answers a cancellation unless the component just being started failed |
| `LifecycleReasons.EndIsHeeded` | internal/app/application.go:222-297 | once the startup context has ended while the owner is at a slot, no Start begins, the process does not come to run, and the owner's Start names that slot unless it was cancelled |
| `LifecycleProgress.StepApproaches` | internal/app/application.go:354-366 | no step of any goroutine takes a done channel further from its close, and each move of its own goroutine brings it nearer |
| `LifecycleProgress.ChannelCloses` | internal/app/application.go:354-366 | after any run, in any continuation in which the goroutine holding a done channel moves a computed number of times, with anything interleaved and whatever components answer, the channel is closed, exactly once |
| `LifecycleProgress.EveryWaiterHasAHolder` | internal/app/application.go:394-401 | in every run a waiting Start or Shutdown has a done channel, closed at most once, and an open one has a goroutine on the way to closing it |
| `LifecycleProgress.EveryWaiterIsReleased` | internal/app/application.go:394-401 | in any continuation in which that goroutine moves often enough and the waiter three times after that, with anything interleaved, the waiter returns, and with its answer unless its own context ended first |
| `LifecycleOwner.Owner.StartedIndexesLocked` | internal/app/application.go:374-382 | exactly the raised flags, in order |
| `LifecycleOwner.Owner.TakeStarted` | internal/app/application.go:182-185 | hands out every started component and lowers every flag |
| `LifecycleOwner.Owner.EnterStartLocked` | internal/app/application.go:91-134 | the first critical section of Start in every phase |
| `LifecycleOwner.Owner.EnterShutdownLocked` | internal/app/application.go:136-184 | the first critical section of Shutdown in every phase |
| `LifecycleOwner.Owner.StopComponents` | internal/app/application.go:384-392 | calls Stop on the given components in reverse whatever fails, on every one of them if none is nil, and joins exactly the errors of failing Stops in that order |
| `LifecycleOwner.Owner.RunCleanup` | internal/app/application.go:202-216 | runs every cleanup once, last first, whatever fails, and a second call does nothing |
| `OptimisticStore.SaveExtends` | internal/deployment/candidate_service.go:287-312 | when the stored revision is the loaded one the stored record is the loaded one, so the save extends the path |
| `OptimisticStore.StepKeeps` | internal/deployment/candidate_service.go:287-312 | inserts, loads, saves and sweeps of any clients keep every history a path of the pure machine and lose no version |
| `OptimisticStore.EveryRun` | internal/deployment/candidate_service.go:287-312 | in every interleaving each stored history is a path of the pure machine |
| `OptimisticStore.HistoriesGrow` | internal/deployment/candidate_service.go:287-312 | an earlier history is a prefix of every later one |
| `Repository.Repository.Save` | internal/deployment/sqlite/candidate_repository.go:158-178 | succeeds exactly when the stored record still is the loaded one, and otherwise changes nothing; a conflict means the row has advanced |
| `Candidate.NewIsValid` | internal/deployment/candidate.go:102-133 | a new candidate is valid, preparing, live and at revision 1 |
| `Candidate.NewSucceedsExactly` | internal/deployment/candidate.go:102-157 | a start is accepted iff it is complete, digest and key are canonical, and it expires after a clock that is not zero |
| `Candidate.NewMeans` | internal/deployment/candidate.go:102-141 | a new candidate is exactly the trimmed input, field by field, with nothing done to it yet |
| `Candidate.FormatsMean` | internal/deployment/candidate.go:143-157 | keys, failure codes and digests, character by character |
| `Candidate.TransitionMeans` | internal/deployment/candidate.go:163-313 | every request: a conflict iff the candidate has moved on (ended, other artifact, other status), invalid iff the request itself is unfit and not outdated, unchanged iff it is already met, and otherwise exactly the status, digests, expiry, reason and time marks asked for, with all other fields kept |
| `Candidate.TransitionLaw` | internal/deployment/candidate.go:163-313 | a successful transition of any stored record returns an equal record exactly when the revision is unchanged; otherwise revision + 1, identity kept, an edge of the status graph, storable, and valid iff the clock was not zero |
| `Candidate.StampLaw` | internal/deployment/candidate.go:163-313 | a transition leaves no time marks or failure code but those of the status it leads to, and all of them unless the clock was zero |
| `Candidate.TerminalIsFinal` | internal/deployment/candidate.go:159-161 | cancelled and expired records are never changed by any transition |
| `Candidate.StaleResultIsRefused` | internal/deployment/candidate.go:163-229 | a readiness or failure report for a replaced artifact is refused |
| `Candidate.ExpireDecidesLiveness` | internal/deployment/candidate.go:293-307 | expiring changes a record exactly when it is open and overdue, and the result is terminal or live |
| `Candidate.SweepOutLaw` | internal/deployment/sqlite/queries/deployment.sql:265-276 | the expiry sweep does to any open row it selects what expiry does and leaves an ended one alone: revision + 1, identity kept, valid and marked as expired iff the clock was not zero |
| `Candidate.SupersedeLaw` | internal/deployment/sqlite/queries/deployment.sql:278-283 | the superseding UPDATE cancels an open row with its reason and keeps provenance, artifact and expiry: revision + 1, identity kept, storable, and valid iff the candidate was not ready and the clock not zero |
| `Candidate.SupersedeKeepsValidUnlessReady` | internal/deployment/sqlite/queries/deployment.sql:278-283 | a superseded row is valid iff the candidate was not ready |
| `CandidateRuns.CandidatesLawful` | internal/deployment/candidate.go:163-313 | transitions, sweeps and supersedings form a machine that counts revisions and keeps keys and storability, under any clock |
| `CandidateRuns.EveryVersion` | internal/deployment/candidate_service.go:287-312 | every stored version of every run of every writer, the superseding UPDATE and the sweep (whichever rows it selects) included: revision i + 1, same identity, terminal only if last, made by a write of its predecessor that left exactly what was asked for, if ready then by a report for its own artifact and provenance; valid iff written under a non-zero clock and not by superseding a ready candidate, and then marked by its status only |
| `CandidateRuns.SupersedingStoresInvalid` | internal/deployment/sqlite/candidate_repository.go:66-77 | for every accepted start and canonical provenance, starting, reporting ready and superseding stores a row that fails validation |
| `CandidateService.Service.ExpireOnRead` | internal/deployment/candidate_service.go:325-351 | never returns an open overdue or invalid record, even after a save conflict and reload; a live or terminal record is returned as is; with a working repository it fails only when the row was written twice meanwhile or became unreadable |
| `CandidateService.Service.Get` | internal/deployment/candidate_service.go:185-194 | a success is a stored record of the scope's id, project, owner and target that is terminal or not overdue; with a working repository the answer to every stored state, a conflict only after two lost races; a repository that is down is unavailable |
| `CandidateService.Service.GetOwned` | internal/deployment/candidate_service.go:196-205 | the same for the owner of a candidate |
| `CandidateService.Service.Review` | internal/deployment/candidate_service.go:207-224 | the same for a reader of a project |
| `CandidateService.Service.Mutate` | internal/deployment/candidate_service.go:287-312 | a success is what the request asks for of a stored record of the scope that was not overdue, and is itself stored, under any clock; with a working repository the answer is the read's refusal, a conflict iff outdated or overtaken by another writer, invalid iff unfit, and success otherwise |
| `Approval.NewIsSound` | internal/deployment/approval.go:315-337 | a new approval is valid, pending, at revision 1 and lives exactly for the lifetime |
| `Approval.RequestErrorExactly` | internal/deployment/approval.go:51-70 | incomplete or unidentified is invalid, then an expired credential, else no error |
| `Approval.NewSucceedsExactly` | internal/deployment/approval.go:262-337 | a request becomes an approval iff it is complete, its actor is identified by a credential of a known class that has not run out, the new id is not blank and the clock is not zero |
| `Approval.NewMeans` | internal/deployment/approval.go:315-332 | a new approval is for exactly what was asked, trimmed, by exactly who asked, undecided, for the lifetime |
| `Approval.SameRequestExactly` | internal/deployment/approval.go:281-293 | an existing approval answers a request iff project, environment, digest, release and requester are the same |
| `Approval.DecideKeeps` | internal/deployment/approval.go:395-428 | a decision keeps scope, validity and the expiry bounds, never adds expiry and adds 1 to the revision |
| `Approval.RevokeKeeps` | internal/deployment/approval.go:430-450 | the same for a revocation |
| `Approval.LapseKeeps` | internal/deployment/approval.go:346-379 | the same for an expiry |
| `Approval.DecideMeans` | internal/deployment/approval.go:395-428 | the answer of every decision: the first failing condition of actor, credential, scope, revision, expiry, status and separation of duty decides the error, and a success is the actor's decision, recorded once, limited to the actor's credential, with all else kept |
| `Approval.DecideSucceedsExactly` | internal/deployment/approval.go:485-512 | a decision succeeds iff its actor is identified by an unexpired credential of a known class, project, deployment, approval and revision are the stored ones, the approval is pending and not expired, the decider is not the requester and the clock is not zero |
| `Approval.RevokeMeans` | internal/deployment/approval.go:430-450 | the same for every revocation |
| `Approval.RevokeSucceedsExactly` | internal/deployment/approval.go:485-512 | a revocation succeeds iff actor, scope, revision and expiry are in order as for a decision, the approval is pending or approved and the clock is not zero |
| `Approval.LapseAlwaysSucceeds` | internal/deployment/approval.go:346-379 | expiring a stored approval never fails validation: a pending or approved one past its expiry becomes expired with one more revision, any other stays |
| `Approval.AuthorizeMeans` | internal/deployment/approval.go:452-483 | an authorization means approved, exact scope, decider other than requester, and now before request time + lifetime and before the decider's credential expiry |
| `Approval.AuthorizeExactly` | internal/deployment/approval.go:452-483 | the answer of every check: scope first, then status, then expiry, and otherwise the approval itself |
| `ApprovalRuns.ApprovalsLawful` | internal/deployment/approval.go:395-450 | decisions, revocations and expiries form a machine that counts revisions |
| `ApprovalRuns.EveryVersion` | internal/deployment/approval.go:92-181 | every stored version of every run: valid, revision i + 1 and at most 3, scope fixed, expiry never grows, final only if last, and its status is the work of the recorded decider, revoker or clock |
| `ApprovalRuns.ActivationIsCurrent` | internal/deployment/approval.go:452-483 | whatever stored version an activation is checked against, success means separation of duty and both time bounds |
| `ApprovalRuns.LostRaceExactly` | internal/deployment/approval.go:361-377 | in every run, a version after one that is open and overdue is open and overdue too iff the former is the request itself and the latter its approval, and then the approval read an earlier clock |
| `ApprovalRuns.LostRaceStaysOverdue` | internal/deployment/approval.go:395-428 | approving an approval under an earlier clock leaves it overdue under a later one |
| `ApprovalRuns.LostRaceRun` | internal/deployment/approval.go:361-428 | from the empty store, any accepted request that is loaded and approved before its expiry leaves both versions overdue after it |
| `ApprovalService.Service.Ask` | internal/deployment/approval.go:262-337 | a success is the open approval found, if it is of the same things and current, or a new one; a conflict means the id is taken, an open approval of other things, or a lost race; bad requests and actors are refused as such |
| `ApprovalService.Service.Reuse` | internal/deployment/approval.go:284-311 | an open approval of the same things answers with itself while current and is expired when overdue; a conflict means other things or a lost race |
| `ApprovalService.Service.Current` | internal/deployment/approval.go:346-379 | the stored approval of the deployment, expired if overdue; a lost race means the row found overdue has advanced, and only then may an overdue record come back: of another approval, or the approval of the very request that was found, under an earlier clock |
| `ApprovalService.Service.Resolve` | internal/deployment/approval.go:381-428 | the answer is the decision on the approval held at the call, with every condition written out, and is stored on success; a conflict beyond that means another writer overtook it; without an approval the actor's error or not found |
| `ApprovalService.Service.Withdraw` | internal/deployment/approval.go:430-450 | the same for revocations |
| `ApprovalService.Service.AuthorizeActivation` | internal/deployment/approval.go:452-483 | the answer is the check of some stored approval of the deployment, required when there is none; a success is approved, of exactly the scope, separate and inside both time bounds |
| `RecoveryBudget.AnswerIsExact` | desktop/src/recovery.ts:34-51 | after a run without a step back, a call that does not step back is admitted iff fewer than the maximum of all ever admitted lie in [now - window, now] |
| `RecoveryBudget.NoWindowOverflows` | desktop/src/recovery.ts:34-51 | in a run without a step back no closed window ever holds more admitted attempts than the maximum |
| `RecoveryBudget.RememberedIsRecent` | desktop/src/recovery.ts:42-49 | in a run without a step back, what is remembered is exactly what is in the window of the last admitted attempt, and at most the maximum |
| `RecoveryBudget.OrderedCallsAreSteady` | desktop/src/recovery.ts:38-41 | calls at non-decreasing times never step back, whatever the limits |
| `RecoveryBudget.NextCallDecides` | desktop/src/recovery.ts:38-41 | for any limits, after a run without a step back: every continuation without a step back stays bounded after the next call iff that call is not earlier than the last attempt remembered |
| `RecoveryBudget.BoundedExactly` | desktop/src/recovery.ts:34-51 | for any fixed limits and any run: at each of its moments every continuation without a step back stays bounded iff no call of the run stepped back |
| `RecoveryBudget.SteppingBackOverflows` | desktop/src/recovery.ts:38-41 | a concrete pair of calls, under limits the constructor accepts, that breaks the bound |
| `RecoveryBudget.RollingRecoveryBudget.Make` | desktop/src/recovery.ts:19-32 | refuses exactly the limits outside 1 to 10 attempts and one millisecond to one day |
| `RecoveryBudget.RollingRecoveryBudget.Consume` | desktop/src/recovery.ts:34-51 | the loop keeps the recent attempts and answers as specified; a negative time changes nothing |
| `RecoveryCoordinator.EveryRun` | desktop/src/recovery.ts:105-206 | attempts, timer, generation and count stay consistent over every sequence of inputs |
| `RecoveryCoordinator.BoundedAndExclusive` | desktop/src/recovery.ts:138-198 | at most one attempt outstanding, no timer while unavailable or while the request has an attempt, a timer waits exactly what is due (the delay of the counted retry, none after a resumption or an aborted attempt), a superseded attempt is aborted, and exhaustion only after exactly as many counted retries of one request as delays |
| `RecoveryCoordinator.OutcomeMeans` | desktop/src/recovery.ts:172-198 | success and stop end the request, the k-th counted retry waits the k-th delay, the last one ends the request and is reported, an aborted attempt is repeated at once and not counted |
| `RecoveryCoordinator.RequestMeans` | desktop/src/recovery.ts:105-112 | a request of an idle coordinator waits the first delay, another one changes nothing |
| `RecoveryCoordinator.FireMeans` | desktop/src/recovery.ts:151-171 | a timer starts one fresh attempt unless one is outstanding |
| `RecoveryCoordinator.CancelMeans` | desktop/src/recovery.ts:129-136 | cancelling ends the request and aborts the attempt |
| `RecoveryCoordinator.AvailabilityMeans` | desktop/src/recovery.ts:114-127 | unavailability takes the timer and aborts the attempt but keeps the request, and its end resumes a request without an attempt |
| `RecoveryCoordinator.StaleOutcomeIsInert` | desktop/src/recovery.ts:180-182 | a superseded attempt's outcome leaves the current sequence alone |
| `RecoveryCoordinator.StepDriven` | desktop/src/recovery.ts:157-165 | an input leaves a driven coordinator driven iff it is not a timer or resumption that meets an orphaned attempt |
| `RecoveryCoordinator.DrivenExactly` | desktop/src/recovery.ts:105-206 | a run stays driven throughout iff it has no such input |
| `RecoveryCoordinator.RequestsAreNotLost` | desktop/src/application.ts:1689-1692 | if no request follows a cancel during an outstanding attempt, pending and available always means a timer or a live attempt |
| `RecoveryCoordinator.ReuseCanLose` | desktop/src/recovery.ts:157-165 | a concrete run that loses a request, for every list of delays |
| `RecoveryCoordinator.BoundedRecoveryCoordinator.AskRecovery` | desktop/src/recovery.ts:105-112 | the request in place |
| `RecoveryCoordinator.BoundedRecoveryCoordinator.ChangeAvailability` | desktop/src/recovery.ts:114-127 | the availability change in place |
| `RecoveryCoordinator.BoundedRecoveryCoordinator.CancelAll` | desktop/src/recovery.ts:129-136 | the cancellation in place |
| `RecoveryCoordinator.BoundedRecoveryCoordinator.TimerFired` | desktop/src/recovery.ts:151-171 | the timer callback up to the awaited attempt |
| `RecoveryCoordinator.BoundedRecoveryCoordinator.AttemptSettled` | desktop/src/recovery.ts:172-198 | what follows the awaited attempt, and whether exhaustion is reported |
| `SelectionKeys.KeyIdentifiesExactly` | internal/dashboard/types.go:573-579 | a key stands for one field, fact, grain and value iff none of them contains the separator |
| `SelectionKeys.SameKeysExactly` | internal/dashboard/types.go:555-579 | separable mappings have the same keys iff they select the same values, with multiplicities |
| `Selection.SelectionEntriesEqual` | internal/dashboard/types.go:555-571 | the counting map decides equality of the key multisets, and for separable mappings of the selected values |
| `Selection.EntryOfMeans` | internal/dashboard/types.go:530-544 | a command's entry selects what its mappings select, each labelled as given or by its value, and lists these labels |
| `Selection.UpdatedRefines` | internal/dashboard/types.go:507-528 | on the set of selected things, adding is union and toggling is symmetric difference; entries stay pairwise inequivalent |
| `Selection.UpdateSelectionEntries` | internal/dashboard/types.go:507-528 | the loop computes that update |
| `SelectionRuns.IsEmpty` | internal/dashboard/types.go:396-412 | both directions of when a command is ignored |
| `SelectionRuns.ApplyInteraction` | internal/dashboard/types.go:414-469 | the loop computes the specified list, order and 64-bit revision |
| `SelectionRuns.ApplySpatialInteraction` | internal/dashboard/types.go:474-505 | the same for spatial selections |
| `SelectionTheorems.AppliedKeepsWellFormed` | internal/dashboard/types.go:414-469 | a command keeps ids unique and faithful, entries non-empty and inequivalent |
| `SelectionTheorems.AppliedRisesExactly` | internal/dashboard/types.go:421-462 | a command keeps orders positive and rising iff it does not open a selection when the largest 64-bit order is in use |
| `SelectionTheorems.SpatialRisesExactly` | internal/dashboard/types.go:480-499 | the same for setting a shape |
| `SelectionTheorems.ClearRemoves` | internal/dashboard/types.go:427-431 | whatever is stored, clearing leaves nothing of the command's source and nothing under its id |
| `SelectionTheorems.RefinesExactly` | internal/dashboard/types.go:414-469 | the list operation is the map operation (clear, replace, toggle, add on one key, all others untouched) iff no other stored source joins to the same id |
| `SelectionHistory.EveryRun` | internal/dashboard/types.go:414-505 | over any mixed run from empty, ids and spatial keys are unique and entries inequivalent; within fewer than 2^63 commands, for any two positions of a list the later one has the larger order, and all orders are positive |
| `SelectionHistory.OrdersRiseExactly` | internal/dashboard/types.go:414-505 | orders are positive and rise along both lists at every moment of a run iff no command needs an order above 2^63 - 1 |
| `SelectionHistory.EveryCaption` | internal/dashboard/types.go:590-618 | after any run every selection's label lists what its entries are called |
| `SelectionHistory.PlainIdsAreFaithful` | internal/dashboard/types.go:420-420 | joined ids name their source when kind and source id contain no colon |
| `SelectionHistory.RunRefines` | internal/dashboard/types.go:414-469 | a whole run of colon-free commands is the run on a map from source to set |
| `SelectionHistory.SpatialRunRefines` | internal/dashboard/types.go:474-505 | a whole run leaves, per visual and interaction, the last shape set, and clearing touches no other |
| `SelectionHistory.RunRefinesExactly` | internal/dashboard/types.go:414-469 | the lists stand for the run on the map at every moment of a run iff no command of it meets a stored selection of another source with its id |
| `SelectionPicks.RunSelects` | internal/dashboard/types.go:396-579 | over whole runs of colon-free commands with separable mappings, what is selected under each source is decided by field, fact, grain and value alone: clear, replace, toggle and add on a map from source to sets of selected values |
| `SelectionHistory.ColonsCollide` | internal/dashboard/types.go:420-434 | two concrete sources with one id: any command of one reaches the other |
| `SelectionHistory.CollidingRun` | internal/dashboard/types.go:420-434 | from empty, any selection under the one source followed by any command of the other leaves what the map does not |
| `SelectionHistory.RevisionCounts` | internal/dashboard/types.go:464-466 | the revision counts exactly the commands that changed a list, modulo 2^64 |
| `SelectionHistory.RevisionDetermines` | internal/dashboard/types.go:500-502 | two moments of a run fewer than 2^64 commands apart with one revision hold the same selections of both kinds |
| `SelectionHistory.RevisionWraps` | internal/dashboard/types.go:500-502 | that distance cannot be increased: from any revision, 2^64 commands with small orders lead from an empty list to a non-empty one under the same revision |
| `Manifest.Validate` | internal/manageddata/manifest.go:39-75 | accepts exactly the manifests that meet the file rules, folded uniqueness, the int64 bound on the true sum and the limits; a fault names a real violation; the running total never leaves int64 |
| `Manifest.AcceptableMeans` | internal/manageddata/manifest.go:39-75 | the rules of a valid manifest written out: counts, paths, sizes, digests, folded uniqueness and the 64-bit total |
| `Manifest.VerdictIgnoresOrder` | internal/manageddata/manifest.go:39-75 | the verdict does not depend on file order |
| `Manifest.CanonicalIsSorted` | internal/manageddata/manifest.go:77-84 | canonical files are in strict path order, a permutation, valid again, and the same for every correct sort |
| `Manifest.CanonicalIdentifies` | internal/manageddata/manifest.go:77-93 | valid manifests have the same canonical order iff they hold the same files |
| `ManifestDiff.FilesByPath` | internal/manageddata/manifest.go:159-165 | the last file of each path |
| `ManifestDiff.IndexedMeans` | internal/manageddata/manifest.go:159-165 | the index gives for each path the last file that has it |
| `ManifestDiff.DiffManifests` | internal/manageddata/manifest.go:102-127 | each list holds exactly its files in strict path order, for any map iteration order |
| `ManifestDiff.DiffMeans` | internal/manageddata/manifest.go:102-127 | a file is added or removed by its path alone, and a common one changed iff size or digest differs |
| `Sorting.LessMeans` | internal/manageddata/manifest.go:167-169 | the order of paths is character by character |
| `ManifestDiff.PatchLaw` | internal/manageddata/manifest.go:102-127 | removing Removed, overwriting Changed and inserting Added turns the old files into the new ones |
| `ManifestDiff.DiffPartitions` | internal/manageddata/manifest.go:102-127 | the four lists share no path and cover both manifests |
| `ManifestDiff.SwapLaw` | internal/manageddata/manifest.go:102-127 | swapping arguments exchanges Added and Removed, keeps Unchanged and the Changed paths |
| `ManifestDiff.DiffIsUnique` | internal/manageddata/manifest.go:167-169 | sorting makes the result independent of iteration order |
| `ManifestDiff.ValidManifestIsItsIndex` | internal/manageddata/manifest.go:159-165 | for valid manifests the index holds exactly the files |
| `CandidateRuntime.NormalizeManaged` | internal/deployment/candidate_runtime.go:284-296 | the trimmed ids in order iff none is empty or repeated, however the sort breaks ties |
| `CandidateRuntime.NormalizeAuthored` | internal/deployment/candidate_runtime.go:298-316 | the same for authored connections |
| `CandidateRuntime.PlanWorkspaces` | internal/deployment/candidate_runtime.go:137-192 | the normalized workspaces in order, or a refusal |
| `CandidateRuntime.PlanExactly` | internal/deployment/candidate_runtime.go:137-192 | a request is carried out iff the candidate is being prepared and complete, a fingerprint is given, and there are workspaces, all preparable (names, distinct connections, a fitting data mode), with distinct ids; and then for exactly these, trimmed, in order of their ids |
| `CandidateRuntime.CandidateBindingVersions` | internal/deployment/candidate_runtime.go:356-383 | sorts, checks and trims the evidence, for any sort by binding id |
| `CandidateRuntime.BindingsExactly` | internal/deployment/candidate_runtime.go:356-383 | evidence with trimmed ids is accepted iff every item is good and no id repeats, and gives one binding per item in strict id order, however ties were sorted |
| `CandidateRuntime.RepeatPasses` | internal/deployment/candidate_runtime.go:365-375 | an item whose id carries outer space is accepted twice, giving one id to two bindings |
| `CandidateRuntime.UniqueExactly` | internal/deployment/candidate_runtime.go:356-383 | all accepted evidence over a set of ids has distinct binding ids iff none of these ids, unless blank, carries outer space |
| `CandidateRuntime.ReleaseOwned` | internal/deployment/candidate_runtime.go:203-208 | closes every owned lease, last first |
| `CandidateRuntime.AcquireAll` | internal/deployment/candidate_runtime.go:209-269 | one lease per workspace in order, and on the first failure the release of all |
| `CandidateRuntime.Prepare` | internal/deployment/candidate_runtime.go:130-282 | answer, host inputs and lease history on every exit path |
| `CandidateRuntime.EveryLeaseIsSettled` | internal/deployment/candidate_runtime.go:130-282 | on every exit path the lease history obeys a stack discipline and ends empty: each lease closed once in reverse order or handed over once |
| `CandidateRuntime.EveryAnswerIsOwned` | internal/deployment/candidate_runtime.go:209-240 | the leases in that history are exactly the leaser's answers up to the first refusal |
| `CandidateRuntime.InputsCarryLeases` | internal/deployment/candidate_runtime.go:237-269 | without failure, input, receipt and lease of each workspace belong together |
| `CandidateRuntime.PrepareMeans` | internal/deployment/candidate_runtime.go:209-282 | each host input is for the request's candidate, owner, expiry and fingerprint with the lease asked for that owner, target, workspace and environment and the bindings of its evidence; the receipt repeats them; the host decides success |
| `CandidateRuntime.FailsForALease` | internal/deployment/candidate_runtime.go:209-232 | an admissible request fails before the host only for a workspace whose lease is missing or badly evidenced, with the matching error |
| `CandidateRuntime.PreparationIgnoresOrder` | internal/deployment/candidate_runtime.go:184-192 | receipt, inputs and history are the same for every order of the requested workspaces |
| `InstanceBinding.StepKeeps` | internal/platform/instance_environment.go:17-53 | any statement of any caller, failing or not, keeps each setting write-once |
| `InstanceBinding.WrittenForGood` | internal/platform/instance_identity.go:16-44 | a written value stays over every continuation |
| `InstanceBinding.CallersAgree` | internal/platform/instance_environment.go:17-53 | each setting is written at most once, all successful Binds ever named one environment, all returned ids are one id |
| `InstanceBinding.ValuesAndRefusalsHaveSources` | internal/platform/instance_environment.go:17-53 | a bound environment was asked for by a caller and cleared by a reading, an id was drawn by a caller; while no statement fails every id call returns the id and every refused Bind is blank, in conflict with active state, or met another binding |
| `InstanceBinding.Store.BindInstanceEnvironment` | internal/platform/instance_environment.go:17-53 | success means bound to the trimmed request; an existing binding never changes; with a working store and no active state elsewhere it fails only when another environment got bound, and with no other caller the first binding is the one asked for |
| `InstanceBinding.Store.InstanceID` | internal/platform/instance_identity.go:16-44 | returns the id the store has from then on, and with no other caller the first one is the one drawn |
| `StableVersion.ParseIdentifies` | desktop/src/updater.ts:278-289 | a stable version text is determined by its three numbers |
| `StableVersion.ParseExactly` | desktop/src/updater.ts:278-289 | a text parses to three numbers iff it spells them in decimal with dots, each at most 2^53 - 1 |
| `StableVersion.IsNewerStableVersion` | desktop/src/updater.ts:291-308 | newer iff both parse and the first number that differs is larger |
| `StableVersion.NewerIsStrictTotalOrder` | desktop/src/updater.ts:291-308 | being newer is a strict total order on stable version texts |
| `Updater.StepKeeps` | desktop/src/updater.ts:111-266 | every call and native event keeps the updater invariant and the offered version |
| `Updater.OfferedVersionStays` | desktop/src/updater.ts:111-266 | ready only with a strictly newer version, then ready or restarting with that version for ever, never two restarts |
| `Updater.EventMeans` | desktop/src/updater.ts:111-266 | what every call and event leads to: a version is offered iff a download under way ends with a newer stable version, any other end of it fails |
| `Updater.RestartMeans` | desktop/src/updater.ts:166-193 | a restart is begun once at a time; a failed preparation or installation offers the version again, otherwise it is restarted with |
| `Updater.DesktopUpdater.RunCheck` | desktop/src/updater.ts:135-155 | a check in place |
| `Updater.DesktopUpdater.OnDownloaded` | desktop/src/updater.ts:225-258 | a finished download in place |
| `Updater.DesktopUpdater.BeginRestart` | desktop/src/updater.ts:166-174 | a restart up to its preparation |
| `Updater.DesktopUpdater.FinishRestart` | desktop/src/updater.ts:173-193 | a restart after its preparation, also when preparing or installing fails |
| `DeepLink.EveryRun` | desktop/src/deep-link.ts:154-235 | the queue, the chain, the count and the histories stay consistent |
| `DeepLink.DispatchedInOrder` | desktop/src/deep-link.ts:194-235 | outstanding equals queued plus unfinished and is at most 4; dispatched is a prefix of accepted; one at a time |
| `DeepLink.EverythingIsDispatched` | desktop/src/deep-link.ts:222-235 | after any run, in any continuation with two turns of the chain per outstanding link, with accepts, refusals and the attach interleaved and whatever handlers do, every link accepted so far is dispatched and settled |
| `DeepLink.AcceptMeans` | desktop/src/deep-link.ts:204-220 | a link below the limit of 4 is accepted, to the chain or the queue; one above it is reported and leaves no trace |
| `DeepLink.StepMeans` | desktop/src/deep-link.ts:154-235 | what every other step does, and which failure is reported for it |
| `DeepLink.Dispatcher.AcceptURL` | desktop/src/deep-link.ts:165-220 | accepts exactly parsable links below the limit, and then has accepted that link; otherwise reports why |
| `DeepLink.Dispatcher.AcceptArguments` | desktop/src/deep-link.ts:178-192 | several links are refused as a whole, none is ignored, one is accepted |
| `DeepLink.Dispatcher.AttachHandler` | desktop/src/deep-link.ts:194-202 | schedules the queue in order, once |
| `Profiles.ValidateProfileDocument` | desktop/src/profiles.ts:385-419 | accepts exactly at most 100 acceptable profiles with distinct ids, origins and instances |
| `Profiles.DocumentMeans` | desktop/src/profiles.ts:385-419 | that rule written out: at most 100 profiles, well-formed ids, no two of one id, origin or instance |
| `Profiles.UpsertMeans` | desktop/src/profiles.ts:83-133 | a known pair is refreshed in place, an unknown pair is added with its new id, a pair known by half is refused |
| `Profiles.SetLabelMeans` | desktop/src/profiles.ts:135-159 | sets the label of exactly the profile of that id; refused iff the id is malformed or unknown or the label bad |
| `Profiles.SetPathMeans` | desktop/src/profiles.ts:161-184 | the same for the last safe path |
| `Profiles.ReplaceMeans` | desktop/src/profiles.ts:186-227 | needs exactly one of origin and instance to stay; the profile starts afresh under the new id in its place and keeps only its label |
| `Profiles.RemoveMeans` | desktop/src/profiles.ts:229-245 | takes out exactly the profile of that id and keeps the others in order |
| `Profiles.UnknownIsRefused` | desktop/src/profiles.ts:135-245 | an operation on an id the file does not hold is refused |
| `Profiles.EveryRun` | desktop/src/profiles.ts:83-245 | with fresh ids every run of operations, with failing writes, keeps a valid file |
| `Profiles.PartitionIdentifies` | desktop/src/profiles.ts:51-59 | a partition name determines its profile id |
| `Profiles.PartitionsAreNeverRebound` | desktop/src/profiles.ts:51-245 | over the whole history a partition never passes to another origin and instance |
| `Profiles.ProfileStore.UpsertFromDiscovery` | desktop/src/profiles.ts:83-133 | the operation on the file; refused means unchanged |
| `Profiles.ProfileStore.Relabel` | desktop/src/profiles.ts:135-159 | the same for labels |
| `Profiles.ProfileStore.SetLastSafePath` | desktop/src/profiles.ts:161-184 | the same for paths; an unchanged path is not written again |
| `Profiles.ProfileStore.ReplaceFromDiscovery` | desktop/src/profiles.ts:186-227 | the same for replacements, which take a new id |
| `Profiles.ProfileStore.RemoveProfile` | desktop/src/profiles.ts:229-245 | the same for removals |
| `Text.TrimMeans` | internal/deployment/candidate.go:103-110 | trimming takes off exactly the outer space |

## Left out

- Contexts and their deadlines beyond "has ended", goroutine panics, and forwarding of fatal component errors.
- Candidate `Start`, quotas, retirement and audit contents: they depend on the SQL repository; auditing appears only as "failed or not".
- One live approval per deployment: the repository decides it; `ApprovalByDeployment` is modelled as some stored approval of the deployment.
- Jitter and rounding of recovery delays, and the check of configured delays.
- Scalar values that are not equal to themselves (NaN) are not modelled.
- Manifest path rules, `path.Clean`, JSON encoding and SHA-256 are opaque.
- Legacy migration, permissions and durability of the profile file; a failing write may have replaced the file.
- Deep-link parsing and routing, update feed URLs, and native checks that emit events before throwing.
- HTTP routing, composition, the agent, authentication, discovery, policy loading and user interface code.
