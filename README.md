# Remote build coordinator of `snapcraft remote-build`

This project models the core of the `snapcraft remote-build` command
(`RemoteBuildCommand` in `snapcraft/commands/remote.py`). The command validates
the request and resolves the architectures to build for. It then submits or
resumes builds on Launchpad's build farm and follows their progress. Finally it
decides the exit code and whether to cancel and clean up the remote session.
The model covers:

- the `--build-for` converter;
- the pre-build checks `_validate` and `_validate_single_artifact_per_build_on`;
- the architecture resolution `_get_archs`;
- the monitoring and completion step `_monitor_and_complete`;
- the submit / monitor / cleanup control flow of `_run`.

Files, one module each:

| file | module | what it holds |
|---|---|---|
| `wrappers.dfy` | `Wrappers` | `Option` and `Result` |
| `errors.dfy` | `Errors` | exit codes (`os.EX_*`), the errors the command raises, their `retcode` |
| `strings.dfy` | `Strings` | Python's `str.strip`, `str.split`, `str.join` and `sorted()` on strings |
| `build_for_arg.dfy` | `BuildForArg` | the `--build-for` converter |
| `plans.dfy` | `Plans` | build-plan entries (`build_on`, `build_for`) and views of a plan |
| `launchpad.dfy` | `Launchpad` | the remote build service and the operator, as classes with scripted answers and ghost traces of requests and prompts |
| `validation.dfy` | `Validation` | `_validate`, `_validate_single_artifact_per_build_on` |
| `archs.dfy` | `Archs` | `_get_archs` |
| `monitor.dfy` | `Monitor` | `_monitor_and_complete`: bucketing, progress line, outcome |
| `remote_build.dfy` | `RemoteBuild` | `_run`, the terminal-transition table, end-to-end scenarios |

The imperative parts of the source are methods with loops and invariants:

- `GroupByBuildOn` and `ValidateSingleArtifactPerBuildOn` build `build_map` and the error list.
- `GetArchs` extends `archs` in a loop.
- `Classify` fills the five bucket sets in a loop over a snapshot's architectures.
- `FollowBuilds` loops over the snapshots `monitor_builds()` yields.
- `AnyFailedBuild` scans the final states for a failed build.
- `ProgressLine` builds `progress_parts` through `AppendPart`, one bucket at a time, without a loop of its own.
- `Complete` sets `return_code` from the final states and the fetched logs and artifacts.
- `Run` and its stages drive the service.

Each method is proved against a specification function:

- `ValidationError`, `Conflicts`, `ResolveArchs`, `BucketsOf`, `ProgressLineOf`, `MonitorOutcomeOf`, `SessionOf`.

The lemmas state what those functions promise. The remote build service is a
`RemoteBuildService` object whose answers are fixed when it is created:

- the project's privacy;
- the response to `start_builds`;
- the snapshots `monitor_builds()` yields and how that iteration ends (exhausted, `TimeoutError`, `KeyboardInterrupt` or another exception);
- the fetched logs and artifacts.

Every request the command makes is appended to the object's ghost `trace`. The
operator is an `Operator` object that holds the answers to the two
`confirm_with_user` questions. Every question asked is appended to its ghost
`prompts`.

## Model

| member | source | states |
|---|---|---|
| Strings.Strip | snapcraft/commands/remote.py:115 | `arch.strip()`: the result is the slice of the input between an all-whitespace prefix and an all-whitespace suffix; it neither starts nor ends with whitespace; it is empty exactly when the input is all whitespace |
| Strings.Split | snapcraft/commands/remote.py:115 | `arg.split(",")`: one piece more than there are separators, and no piece holds the separator |
| Strings.JoinSplit | snapcraft/commands/remote.py:115 | joining the pieces of a split with the separator gives the input back |
| Strings.SplitJoin | snapcraft/commands/remote.py:115 | splitting the join of separator-free pieces gives the pieces back |
| Strings.SortedOf | snapcraft/commands/remote.py:310-318 | `sorted(s)` of a set of strings is strictly increasing in code-point order and holds exactly the set's members |
| Strings.SortedUnique | snapcraft/commands/remote.py:310-318 | two strictly increasing sequences with the same members are equal, so the sorted order is unique |
| Strings.SortNames | snapcraft/commands/remote.py:310-318 | the selection loop returns a strictly increasing sequence of exactly the set's members, which is `sorted(s)` |
| BuildForArg.ParseBuildFors | snapcraft/commands/remote.py:115 | the converter yields one entry per comma plus one; no entry holds a comma; no entry starts or ends with whitespace |
| BuildForArg.ParseFields | snapcraft/commands/remote.py:115 | entry k of the converted list is the k-th comma-separated field of the argument with a leading and a trailing run of whitespace cut off; with the stripped shape `ParseBuildFors` ensures, this is `arch.strip()` of that field |
| BuildForArg.StripStripped | snapcraft/commands/remote.py:115 | an entry without surrounding whitespace is left alone by `strip()` |
| BuildForArg.ParseJoin | snapcraft/commands/remote.py:115 | writing comma-free, stripped architectures as a comma-separated argument and converting it gives them back |
| Plans.BuildForsOnMembers | snapcraft/commands/remote.py:176-179 | the list `build_map[on]` holds `x` exactly when some plan entry is `(on, x)` |
| Plans.BuildForsOnListed | snapcraft/commands/remote.py:176-179 | `build_map[on]` is non-empty exactly when some plan entry builds on `on` |
| Plans.BuildForsOnSize | snapcraft/commands/remote.py:179-184 | `len(build_map[on]) > 1` exactly when two plan entries build on `on`, whatever their build-fors |
| Plans.BuildOnsMembers | snapcraft/commands/remote.py:176-183 | the keys of `build_map` are exactly the build-ons of the plan, each once |
| Plans.BuildOnsOrder | snapcraft/commands/remote.py:176-183 | the keys are in order of first occurrence in the plan, the insertion order that `dict.items()` follows |
| Validation.FirstUnsupported | snapcraft/commands/remote.py:157-167 | none is found exactly when every `--build-for` value is supported or `all`; a value found is the first one that is neither |
| Validation.GroupByBuildOn | snapcraft/commands/remote.py:176-179 | the grouping loop leaves the keys in first-occurrence order, and each key's list is the build-fors of the entries building on it, in plan order |
| Validation.ValidateSingleArtifactPerBuildOn | snapcraft/commands/remote.py:171-202 | the check raises exactly when the conflict list is non-empty, and then with that list |
| Validation.Validate | snapcraft/commands/remote.py:137-169 | `_validate` asks for privacy only when the upload was not acknowledged and a project is named; it prompts exactly when the acknowledgement guard requires; it returns the first error of the three checks, in source order |
| Validation.ConflictsAmongMembers | snapcraft/commands/remote.py:183-188 | a reported conflict is a listed build-on that two entries share, with all its build-fors; every shared listed build-on is reported; when `ons` has no repeats, as the keys of `build_map` have none, no build-on is reported twice |
| Validation.ConflictsMembers | snapcraft/commands/remote.py:176-202 | the error names exactly the build-ons that two plan entries share, each once, each with all of its build-fors |
| Validation.ConflictsAmongInOrder | snapcraft/commands/remote.py:183-188 | the conflicts found among the keys name build-ons in the order the keys are listed |
| Validation.ConflictsOrder | snapcraft/commands/remote.py:176-188 | the error lists shared build-ons in order of first occurrence in the plan: the first entry building on a build-on listed earlier precedes every entry building on one listed later |
| Validation.ValidationErrorCodes | snapcraft/commands/remote.py:145-202 | every error `_validate` raises carries a `retcode` of its own, `EX_NOPERM` (77) or `EX_CONFIG` (78), and `EX_NOPERM` exactly when the operator was asked to acknowledge the public upload and declined |
| Validation.ConflictsIffSharedBuildOn | snapcraft/commands/remote.py:176-202 | the single-artifact check fails if and only if two plan entries share a build-on, so a plan with distinct build-ons passes |
| Validation.IdenticalEntriesConflict | snapcraft/commands/remote.py:184 | two identical entries conflict, because the check counts entries and not distinct build-fors |
| Validation.UnsupportedIff | snapcraft/commands/remote.py:157-167 | once past the acknowledgement, validation rejects a `--build-for` value if and only if some value is neither supported nor `all`; the value named is one of the requested values, unsupported, and the error's code is `EX_CONFIG`; an empty list passes |
| Validation.AcknowledgementGuard | snapcraft/commands/remote.py:137-155 | with `--launchpad-accept-public-upload` nothing is queried or prompted; a named private project is not prompted; the acknowledgement error is raised if and only if the operator was prompted and declined |
| Archs.Matches | snapcraft/commands/remote.py:389-395 | the build-fors of `filter_plan(plan, build_for=b)` are all `b`, and there are none exactly when no entry builds for `b` |
| Archs.MatchesCount | snapcraft/commands/remote.py:389-395 | `filter_plan` keeps one entry per plan entry building for `b`: the matches hold `b` as many times as the plan's build-fors do, so duplicate build-fors reach `start_builds` duplicated |
| Archs.MatchesMembers | snapcraft/commands/remote.py:389-395 | a filter by `b` yields `a` exactly when `a` is `b` and some entry builds for it |
| Archs.FilteredMembers | snapcraft/commands/remote.py:386-397 | in filter mode an architecture is returned exactly when it is a `--build-for` value and the build-for of some plan entry |
| Archs.FilteredStartsWithFirst | snapcraft/commands/remote.py:388-397 | the accumulated list always starts with the first value's matches, so once they are non-empty it never becomes empty again |
| Archs.GetArchs | snapcraft/commands/remote.py:363-415 | with declared platforms and no `--build-for`: every build-for of the plan, in plan order; with declared platforms and `--build-for`: `EmptyBuildPlanError` exactly when the first value matches nothing, else the concatenated matches; without declared platforms: the `--build-for` list unchanged, or else the host architecture alone |
| Archs.ResolvedNonEmpty | snapcraft/commands/remote.py:383-415 | a successful resolution is never empty, unless a project with declared platforms has an empty plan and no `--build-for` |
| Archs.ResolveErrorCode | snapcraft/commands/remote.py:396-397 | the only error `_get_archs` raises is `EmptyBuildPlanError`, which carries no `retcode` of the command's own |
| Archs.FirstMissRaises | snapcraft/commands/remote.py:396-397 | the filter raises when its first value matches nothing even though a later one matches |
| Archs.LaterMissIgnored | snapcraft/commands/remote.py:396-397 | a later value that matches nothing is dropped silently |
| Monitor.Classify | snapcraft/commands/remote.py:292-307 | every architecture of a snapshot is put into the bucket its state selects, and the result is the snapshot's buckets |
| Monitor.BucketsPartition | snapcraft/commands/remote.py:297-307 | the five buckets partition the snapshot's architectures; building is exactly the running ones; succeeded, uploading and pending are exactly those states; stopped is every other state |
| Monitor.PartOfShape | snapcraft/commands/remote.py:309-318 | an empty bucket contributes no part; a non-empty one contributes one part with all its architectures, strictly sorted |
| Monitor.PartsOfShape | snapcraft/commands/remote.py:308-318 | the progress parts list exactly the non-empty buckets, each once, in the order Stopped, Building, Uploading, Succeeded, Pending, each with all of its architectures sorted |
| Monitor.AppendPart | snapcraft/commands/remote.py:309-318 | one `if <bucket>: progress_parts.append(...)` step appends the part of that bucket, if non-empty |
| Monitor.ProgressLine | snapcraft/commands/remote.py:308-319 | the line emitted per snapshot is the `"; "`-join of the rendered parts of its non-empty buckets in the fixed order |
| Monitor.ResumeCommand | snapcraft/commands/remote.py:321-326 | the resume command names `--build-id=<id>` if and only if the build id is non-empty, and then names exactly that id |
| Monitor.FollowBuilds | snapcraft/commands/remote.py:289-319 | the polling loop emits one progress line per snapshot, ends with the last snapshot's states (none if there was none), and reports how the stream ended |
| Monitor.AnyFailedBuild | snapcraft/commands/remote.py:334-337 | the scan of the final states finds a failure exactly when some architecture is `FAILED` |
| Monitor.Complete | snapcraft/commands/remote.py:332-361 | after monitoring, logs then artifacts are fetched, and the code is 1 when a build failed, the log mapping is empty or no artifact was fetched, else 0 |
| Monitor.MonitorAndComplete | snapcraft/commands/remote.py:284-361 | `_monitor_and_complete` makes the monitoring request, then fetches only after normal completion; its outcome is the completion code, or 75 with the resume command on a local timeout, or the interrupt or exception it lets escape |
| Monitor.TimeoutOutcome | snapcraft/commands/remote.py:320-330 | a local timeout returns 75, fetches nothing, and names the build id in the resume command exactly when there is one |
| Monitor.CompletionCode | snapcraft/commands/remote.py:332-361 | after normal completion the code is 0 or 1, and 1 if and only if there was a snapshot and the last one has a `FAILED` architecture, the log mapping is empty or the artifact list is empty |
| Monitor.MissingLogFilesTolerated | snapcraft/commands/remote.py:340-343 | a log mapping with an entry but no log file for any architecture still lets a run succeed: `if not logs` tests the whole mapping |
| Monitor.FailedBuildFails | snapcraft/commands/remote.py:334-337 | a `FAILED` architecture in the last snapshot gives 1, whatever the earlier snapshots held and whatever was fetched |
| RemoteBuild.Prepare | snapcraft/commands/remote.py:213-239 | `_run` up to `_get_archs`: `set_project` when a project is named, then `_validate`'s requests and prompts, then the architectures or the first error |
| RemoteBuild.Submit | snapcraft/commands/remote.py:241-254 | the timeout is set only when one is given; `--recover` resumes under the build id; otherwise the builds are started for the resolved architectures |
| RemoteBuild.Conclude | snapcraft/commands/remote.py:266-281 | an interrupt prompts, cancels then cleans up only if confirmed, and returns 0; any other exception counts as 1; cleanup runs unless the code is 75 |
| RemoteBuild.MonitorAndCleanUp | snapcraft/commands/remote.py:266-281 | the monitoring stage makes `_monitor_and_complete`'s requests, then the conclusion's |
| RemoteBuild.SubmitAndMonitor | snapcraft/commands/remote.py:241-281 | a repository conflict cleans up and returns 75; a `RemoteBuildError` or `LaunchpadError` cleans up and is re-raised; any other start error escapes; started builds are monitored |
| RemoteBuild.Run | snapcraft/commands/remote.py:204-281 | `_run` returns or raises, makes the requests and asks the prompts of its specification `SessionOf`, in order |
| RemoteBuild.ConcludedFollows | snapcraft/commands/remote.py:266-281 | the conclusion after monitoring ends as the terminal table (`CleansUp`, `Ending`) says: result, exactly one cleanup as the last request when the table says cleanup, a cancellation right before it only after a confirmed interrupt |
| RemoteBuild.MonitoredFollows | snapcraft/commands/remote.py:266-281 | the monitoring stage follows the table for every way monitoring can end |
| RemoteBuild.SubmittedFollows | snapcraft/commands/remote.py:241-281 | the submission stage follows the table for every response of `start_builds` |
| RemoteBuild.SessionAfterFollows | snapcraft/commands/remote.py:237-281 | whatever the checks give, the rest of `_run` follows the table |
| RemoteBuild.SessionFollowsTable | snapcraft/commands/remote.py:204-281 | every run follows the terminal table (`CleansUp`, `Ending`), stated per way of ending independently of the control flow: the right result, cleanup exactly once and last when the table says so and never otherwise, cancellation only on a confirmed interrupt |
| RemoteBuild.ConflictCleansUpOnce | snapcraft/commands/remote.py:260-264 | a submission conflict cleans up exactly once, as the last request, returns 75, and never monitors or cancels |
| RemoteBuild.StartErrorReraised | snapcraft/commands/remote.py:253-259 | a start error is re-raised; cleanup runs if and only if it is a `RemoteBuildError` or `LaunchpadError`; monitoring never starts |
| RemoteBuild.ConcludedCalls | snapcraft/commands/remote.py:266-281 | when monitoring does not complete, nothing is fetched; builds are cancelled if and only if a confirmed interrupt; cleanup runs if and only if that, or an unexpected exception |
| RemoteBuild.InterruptAsksBeforeCancelling | snapcraft/commands/remote.py:268-274 | an interrupt during monitoring always asks as the last prompt; it cancels and cleans up if and only if confirmed; it returns 0 either way, without fetching |
| RemoteBuild.UnexpectedErrorIsGeneral | snapcraft/commands/remote.py:275-281 | any other exception from monitoring gives 1 and still cleans up, without cancelling or fetching logs |
| RemoteBuild.LocalTimeoutKeepsSession | snapcraft/commands/remote.py:266-281 | a local timeout returns 75 with no cancellation, no cleanup and no fetching |
| RemoteBuild.CleanupUnlessTempFail | snapcraft/commands/remote.py:278-281 | on the normal and exception paths after monitoring, cleanup runs if and only if the code is not 75 |
| RemoteBuild.PrivacyQueriedOnlyWithProject | snapcraft/commands/remote.py:213-237 | the privacy query of `_validate` (lines 137-143) is made if and only if the upload was not acknowledged and a project is named; a named project is set by the first request |
| RemoteBuild.RejectedBeforeSubmission | snapcraft/commands/remote.py:237-239 | an error from `_validate` or `_get_archs` ends the run with that error; the only requests made before it are `set_project` and the privacy query, so nothing is submitted, cancelled or cleaned up, and the cancellation question is never asked |
| RemoteBuild.CompletedSession | snapcraft/commands/remote.py:266-281 | a completed monitoring monitors, fetches logs and artifacts, cleans up once and returns the completion code |
| RemoteBuild.RecoverResumes | snapcraft/commands/remote.py:246-248 | with `--recover` the builds are resumed under the build id and monitored, and never started |
| RemoteBuild.PlanPassesChecks | snapcraft/commands/remote.py:237-239 | with the upload acknowledged, no `--build-for`, declared platforms and distinct build-ons, the checks pass and every build-for of the plan is built |
| RemoteBuild.TwoArchitecturesPass | snapcraft/commands/remote.py:237-239 | the plan `[(a1, a1), (a2, a2)]` passes and builds for `a1, a2` in plan order |
| RemoteBuild.BothBuildsSucceed | snapcraft/commands/remote.py:253-281 | two started builds that both succeed, with logs and artifacts, end with 0 after start, monitor, fetch logs, fetch artifacts and one cleanup |
| RemoteBuild.TwoArchitecturesSucceed | snapcraft/commands/remote.py:204-281 | the two-architecture scenario end to end: exactly those requests, code 0 |
| RemoteBuild.SingleArchitecturePasses | snapcraft/commands/remote.py:237-239 | a one-entry plan passes and builds for its architecture |
| RemoteBuild.BuildFailed | snapcraft/commands/remote.py:253-281 | a started build that has `FAILED` when monitoring ends gives 1 and still fetches and cleans up |
| RemoteBuild.SingleArchitectureFails | snapcraft/commands/remote.py:204-281 | a one-architecture failed build end to end: code 1, one cleanup last |
| RemoteBuild.PlainChecksPass | snapcraft/commands/remote.py:237-239 | without `--build-for` and with the upload acknowledged, a conflict-free plan passes the checks |
| RemoteBuild.TimeoutAfterTwoSnapshots | snapcraft/commands/remote.py:320-330 | a timeout after two snapshots with build id `abc123` returns 75, never cleans up, and its resume command names `--build-id=abc123` |

## Left out

- Output: the `emit.*` progress, debug and message calls are not modelled. The progress lines are modelled as the values `ProgressLines` returns; error messages and resolutions, including `humanize_list`, are not.
- The `sudo` warning and its one-second pause (`snapcraft/commands/remote.py:129-135`): an OS environment check and a sleep.
- Argument parsing other than the `--build-for` converter is left out: argparse plumbing, the `CRAFT_BUILD_FOR` environment default, `--status` and `--build-id`. The model takes the parsed options as an `Args` value. An absent `--build-for` is `None`, and an absent `--project` is the empty string, since every use is a truthiness test.
- The project directory's `Path(...).expanduser().resolve()` and `Path.cwd()`: filesystem calls. The directory is a parameter.
- `get_build_id`, `DebianArchitecture.from_host`, `BuildPlannerClass` and the project's `platforms` / `_architectures_in_yaml` come from libraries outside this repository. They are the parameters `buildId`, `hostArch`, `plan` and `declaresPlatforms`. A missing build id is the empty string.
- `filter_plan` is a foreign function. It is modelled as equality on `build_for`.
- `SUPPORTED_ARCHS`: `snapcraft/const.py` is not part of this model. The supported architectures are the parameter `supported`.
- `BuildState.is_running`: the build models are not part of this model. It is taken to hold for the building state only.
- The remote build service, the Launchpad client and the lazr exception classes are network I/O. They are a scripted object that records requests. `monitor_builds()` is modelled as a finite list of snapshots followed by its ending, so polling that never ends is not modelled.
- `confirm_with_user` is interactive input. Its answers are fields of `Operator`.
- Exceptions raised elsewhere than in `start_builds` and in `monitor_builds()` are not modelled: from `set_project`, `is_project_private`, `set_timeout`, `resume_builds`, `fetch_logs`, `fetch_artifacts`, `cancel_builds` or `cleanup`. The same goes for a `KeyboardInterrupt` outside the monitoring loop.
- The "Log files" / "Artifacts" summary with its sorted file names (`snapcraft/commands/remote.py:353-360`) is output only. It is not modelled.
- The `builds` collection returned by `start_builds` / `resume_builds` is only used for a count in a message. It is not modelled.
- Integer widths: exit codes and the timeout are unbounded integers, as in Python.

## Behaviour worth noting

The model follows the code in each case.

- `_get_archs` documents that it raises `EmptyBuildPlanError` when the build plan is filtered to an empty list (`snapcraft/commands/remote.py:378`). Its `if not archs` test sits inside the filter loop (`snapcraft/commands/remote.py:396`), so it raises exactly when the first `--build-for` value matches no plan entry, even if a later value matches (`Archs.FirstMissRaises`). A later value that matches nothing is dropped silently (`Archs.LaterMissIgnored`).
- The single-artifact check counts entries, not distinct build-fors (`len(build_fors) > 1`, `snapcraft/commands/remote.py:184`). Two identical plan entries therefore conflict (`Validation.IdenticalEntriesConflict`).
- The log check `if not logs` (`snapcraft/commands/remote.py:340`) tests whether the whole mapping is empty. A mapping whose entries hold no log file passes (`Monitor.MissingLogFilesTolerated`).
- Only `RemoteBuildError` and `LaunchpadError` are caught around `start_builds` (`snapcraft/commands/remote.py:255`). Any other error from it escapes without cleanup (`RemoteBuild.StartErrorReraised`).
