# CAAS operator: charm reconciliation step

This project models, in Dafny, the charm-reconciliation step of Juju's CAAS
operator worker (`ensureCharm` in `worker/caasoperator/download.go`) and the
`charmInfo` descriptor it hands to the deployer. It then proves what the step
does on each path.

Each call of the step does the following:

1. It asks the charm getter for the application's charm: URL, SHA-256 digest and modified version.
2. It records the modified version in the caller's `LocalState`.
3. It returns success at once when the stored charm URL is the one returned.
4. Otherwise it sets a Maintenance status and stages the charm.
5. It then deploys the charm. A deploy conflict sets an Error status instead.
6. Only after a successful deploy does it commit the URL and write the whole state file.

The model has three files:

- `download.dfy` (module `CaasOperator`) holds the data model and the step itself.
  - `Reconcile` is a pure function. It maps the local state before the call and the collaborators' replies to three things: the state after, the collaborator calls in order, and the returned error.
  - `Operator.EnsureCharm` is the imperative step. It updates a `LocalState` object in place and appends every collaborator call to a ghost trace. It is proved to follow `Reconcile` exactly.
  - `CharmInfo.URL` and `CharmInfo.ArchiveSha256` are the descriptor's accessors.
- `download_properties.dfy` (module `DownloadProperties`) holds lemmas about one step.
- `repeated_steps.dfy` (module `RepeatedSteps`) runs the step once per tick of the worker, any number of times. It proves three things across ticks:
  - idempotence;
  - the state file is only written right after the Stage and Deploy of the charm it records;
  - the last record handed to the state file names the charm URL held in memory (that write may itself have failed; see below).

The collaborators are the charm getter, the status setter, the deployer's Stage and Deploy, and the state file. They are not modelled. Their answers for one step are a parameter (`Replies`). The getter, Stage, Deploy and the state file are each called at most once per step. The status setter is called at most twice: once for the Maintenance status (`download.go:45`) and once for the Error status on a conflict (`download.go:56`). Each of those two calls has its own reply. Every call's arguments are fixed by the step, so every behaviour of the real collaborators is one of these values.

Charm URLs are `*charm.URL` pointers in the source, and the "already downloaded" check compares them with `==`, which compares pointers. The model uses a Dafny class `CharmURL`, whose `==` is reference equality, and `null` for nil. Two distinct URL objects that denote the same text therefore count as different charms. `EqualTextDifferentObjectRedeploys` states this.

Note that the step:

- does not return a conflict error on a deploy conflict. It returns whatever setting the Error status returned, so it returns success when that status call succeeds (`download.go:54-58`, where `errors.Trace(nil)` is nil). `ConflictSuccessIsRetried` shows the result: success is reported, the charm is not committed, and the next step stages it again.
- treats setting the Maintenance status as a required step, not a best-effort one: its failure aborts the step (`download.go:45-47`).
- records the modified version before the URL comparison. So it is recorded on every path once the getter succeeds, including the failing ones.
- commits the new charm URL in memory before writing the state file (`download.go:60-61`). When that write fails, its error is returned, but the next step given the same in-memory `LocalState` and the same getter reply takes the "already downloaded" path and does not retry the write. Whether the caller keeps that object or reloads it from the state file after an error is not part of this model. `FailedWriteNotRetried` states this.
- records the modified version of an "already downloaded" charm in memory only (`download.go:40-44`). After a step that wrote the state file, a later such step leaves the last record handed to the state file with the old version, while memory holds the new one. `ShortCircuitVersionNotWritten` states this.

## Model

| member | source | states |
|---|---|---|
| `CaasOperator.CharmInfo.URL` | worker/caasoperator/download.go:27-29 | returns the stored URL reference unchanged |
| `CaasOperator.CharmInfo.ArchiveSha256` | worker/caasoperator/download.go:31-33 | returns the stored digest, and never an error |
| `CaasOperator.Reconcile` | worker/caasoperator/download.go:35-62 | the getter is always the first call, at most five calls are made, and the charm URL either stays or becomes the getter's URL |
| `CaasOperator.Operator.EnsureCharm` | worker/caasoperator/download.go:35-62 | updates `LocalState` in place, appends the collaborator calls to the trace and returns the error, all exactly as `Reconcile` gives them |
| `DownloadProperties.GetterFailureIsReturned` | worker/caasoperator/download.go:36-39 | a getter error is returned, the local state is unchanged, and no other collaborator is called |
| `DownloadProperties.ModifiedVersionRecorded` | worker/caasoperator/download.go:40 | once the getter succeeds, the modified version it returned is recorded on every path |
| `DownloadProperties.AlreadyDownloadedShortCircuits` | worker/caasoperator/download.go:41-44 | the getter is the only call if and only if the stored URL equals the returned one; in that case the step succeeds and the URL is unchanged |
| `DownloadProperties.EqualTextDifferentObjectRedeploys` | worker/caasoperator/download.go:41 | URLs are compared as references: a different object with the same text is staged again |
| `DownloadProperties.DivergentStepOrder` | worker/caasoperator/download.go:45-61 | on divergence the full call sequence on every path: getter, Maintenance status, Stage with the desired URL and digest, Deploy, then the state-file write on success or the Error status on a conflict; a failing status, Stage or non-conflict Deploy returns its own error, and no later call is made |
| `DownloadProperties.ConflictReturnsStatusResult` | worker/caasoperator/download.go:54-59 | a deploy conflict sets the Error status "upgrade failed" as the last call and returns that call's result; the URL is not committed and nothing is written |
| `DownloadProperties.ConflictSuccessIsRetried` | worker/caasoperator/download.go:54-60 | a conflict whose status call succeeds returns success without committing, so the next step with the same reply stages again |
| `DownloadProperties.CommitOnlyAfterDeploy` | worker/caasoperator/download.go:45-61 | the state file is written if and only if the URL diverged and the status, Stage and Deploy calls all succeeded; the URL changes only then, and becomes the getter's URL |
| `DownloadProperties.WriteCarriesWholeState` | worker/caasoperator/download.go:60-61 | after a successful Deploy, the last call writes the whole record (new URL and new modified version), and the step returns the write's result |
| `DownloadProperties.StagedInfoCarriesDesired` | worker/caasoperator/download.go:49-50 | the descriptor given to Stage yields, through its accessors, exactly the getter's URL and digest, with no error |
| `DownloadProperties.FailedWriteNotRetried` | worker/caasoperator/download.go:41-61 | a failed state-file write is returned with the new URL already in memory, and the next step with the same reply calls only the getter and succeeds, so the write is not retried |
| `DownloadProperties.SuccessMeansDeployedOrConflict` | worker/caasoperator/download.go:41-61 | a successful step leaves the getter's URL deployed, unless it reached Deploy, got a conflict and set the Error status as its fifth and last call |
| `DownloadProperties.SecondStepIsIdempotent` | worker/caasoperator/download.go:41-44 | once the getter's URL is deployed, a second step with the same URL calls only the getter, succeeds, and changes no URL |
| `RepeatedSteps.Steps` | worker/caasoperator/download.go:35-62 | running the step once per reply yields one result per reply and between n and 5·n calls in total for n replies |
| `RepeatedSteps.StepsWriteOnlyAfterDeploy` | worker/caasoperator/download.go:50-61 | across any number of steps, every state-file write immediately follows a Deploy, which immediately follows the Stage of the URL the write records |
| `RepeatedSteps.LastWrite` | worker/caasoperator/download.go:61 | the record it returns was written by some call; when it returns none, no call wrote the state file |
| `RepeatedSteps.LastWriteConcat` | worker/caasoperator/download.go:61 | the last write of two concatenated traces is the second trace's last write if it has one, and the first trace's otherwise |
| `RepeatedSteps.StepLastWrite` | worker/caasoperator/download.go:60-61 | a step that writes the state file writes exactly the state it leaves; a step that does not write leaves the URL unchanged |
| `RepeatedSteps.LastHandedRecordMatchesMemory` | worker/caasoperator/download.go:40-61 | after any number of steps, the last record handed to the state file (whether or not that write succeeded) names the URL held in memory; with no write call, the URL is the initial one |
| `RepeatedSteps.ShortCircuitVersionNotWritten` | worker/caasoperator/download.go:40-61 | after a committing step, an "already downloaded" step records the new modified version in memory only; the last record handed to the state file keeps the committed URL and the old version |
| `RepeatedSteps.StepsAfterDeployOnlyQueryGetter` | worker/caasoperator/download.go:36-44 | once a URL is deployed, any number of steps that keep returning it call only the getter, all succeed, keep the URL, and leave the last modified version returned |

## Left out

- The `Downloader` interface (`download.go:15-20`) and everything the deployer and state file do internally are not modelled; they are only outcomes in `Replies`. This covers the download, digest verification, staging directories, the atomic swap and the state-file encoding. Their implementations are not part of this model.
- `op.catacomb.Dying()`, the cancellation channel passed to Stage (`download.go:50`), is not recorded in the `StageCharm` call. It is a pass-through of supervision plumbing that the step never inspects.
- The debug log line (`download.go:42`) is dropped. `errors.Trace` is treated as the identity on error values.
- The status setter's formatting of its message is not modelled. The call records the format string and its arguments as given, including the `nil` argument passed with "upgrade failed".
- `LocalState` is modelled with the two fields the step touches. The type's declaration is not part of this model.
- The operator's main loop, which calls the step on each tick, is not part of this model. `RepeatedSteps.Steps` stands in for any sequence of such calls.
- Go's `int` is modelled as an unbounded `int`. The step only copies the modified version and does no arithmetic on it.
