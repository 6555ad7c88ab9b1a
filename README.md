# gogobuild build core, modelled in Dafny

gogobuild is a small build server written in Go. A build request names a
project, a target system and a revision; `BuildManager` records the build in
MongoDB and hands it to `WorkerManager`, which launches one `DockerWorker`
per target. A worker makes sure the target's "fallback" image exists,
optionally refreshes a "latest" image with the project's update
instructions, runs the build instructions in a container (retrying once on
"fallback" when "latest" fails) and writes each state change back with
`UpdateBuild`. `BuildController` serves the artifacts of finished builds and
the build logs, and `GerritManager` lists the open changes of a project as git
refs.

The model has one module per concern:

- `Text`: the string formatting the Go code relies on:
  - `strings.Join`, `regexp.ReplaceAllString` on a literal pattern and ASCII `strings.ToLower`;
  - `%d`, `%02d` and Go's truncating `%`;
  - a `Split` and digit readers, which the build code does not call: they are the inverses the round-trip lemmas read back with.
- `Projects`: the project record and its JSON configuration, with Go's missing-key reads.
- `Builds`: the `State` enum (a `newtype` over `int`, as in Go), the `Build` record, `String`, `IsDownloadable`, `IsRetryable` and `Duration`.
- `Store`: the "builds" collection as an in-memory table in insertion order (class `BuildStore`):
  - `SaveBuild`, `UpdateBuild`, `BuildMaintenance`;
  - the `Find(...).One` lookup.
- `DockerProtocol`: what one worker run does, as a pure function from the job and the Docker daemon's answers to the ordered trace of Docker calls and state writes, with the protocol's promises as lemmas.
- `Docker`: the imperative `DockerWorker` class. Every method is proved to produce exactly its part of that trace and to keep the store in step with the worker's copy of the build.
- `Dispatch`: `WorkerManager.Build`: the build-type check, the fan-out over the configured targets, and the value copy each worker gets.
- `Manager`: `BuildManager.CreateOrReturnStatusBuild`, `NewBuild` and `RetryBuild`.
- `Gerrit`: `GerritManager.Init` and `GetOpenChanges`, with the change-ref format and its inverse.
- `Controller`: the framework-independent part of `Download`, `Detail` and `Deploy`.

Time is a count of Unix seconds. Go's zero `time.Time` is `ZeroTime`, which is -62135596800.
Go's `time.Time` has nanosecond resolution, so two requests within the same second get different dates in Go but the same date here.
`Duration` is Go's `Sub`, which counts nanoseconds and saturates at about 292 years either way; here it is the exact difference in seconds.

The following are inputs, not modelled code:

- **Docker daemon:** a `Daemon` value. The daemon answers the `k`-th container with `containers[k]`.
- **The server:** a `Host` value that each request brings with it. It holds the base path, the daemon, the server's `Date.Format` for the release layout (a function of the time, since it depends on the time zone) and the clock's reading for that request. Every worker of one request's fan-out sees the same host.
- **The Gerrit server:** a function from address and query to a reply.
- **The file system:** a set of the paths that exist, and a map from each readable file to its contents.

The model follows what the code does, including these behaviours:

- **`NewBuild` dispatches before it inserts.** It calls `WorkerManager.Build` before `SaveBuild`, and the workers run synchronously. So their `UpdateBuild` calls cannot reach the new record. The record is saved in the state it had when dispatched (`Manager.NewBuildSavesDispatchedState`).
- **A retry is not reset.** A retried build is not put back to Created. The first write of its run is its incoming state, Fail.
- **The Download gate is wider than `IsDownloadable`.** `Download` and `Deploy` gate on `State > Fail` alone. So a successful refresh job passes the gate even though `IsDownloadable` rejects it.
- **`Start` is taken to be `Run`.** `launchDockerBuild` calls `d.Start()`, which no shown file defines, so the model runs `Run` there.
- **Three `Build` fields are not in the struct.** `StartDate`, `UpdateWorkerDuration` and `GitCommitID` are used by the worker but are missing from the `Build` struct. The model keeps them as plain fields. `UpdateBuild` never stores them.

## Model

| member | source | states |
|---|---|---|
| Builds.StateNameRoundTrip | app/controllers/buildManager.go:32-48 | each of the six enum values has its own name, which reads back to it; any other value is "Unknown", which names no value |
| Builds.StateOrder | app/controllers/buildManager.go:21-30 | the enum order: the states above Fail are exactly Success and FallbackSuccess, the states below it exactly Created, Init and Building |
| Builds.DownloadableIff | app/controllers/buildManager.go:62-67 | downloadable exactly when the state is Success or FallbackSuccess and the revision is not the refresh job |
| Builds.RetryableIff | app/controllers/buildManager.go:70-78 | retryable exactly when failed and not on the primary branch; a retryable build is never downloadable |
| Store.FirstMatch | app/controllers/buildManager.go:170-172 | the row a single-document update selects matches name and date |
| Store.FirstMatchIsFirst | app/controllers/buildManager.go:170-172 | no earlier row matches, and no match at all only when no row matches |
| Store.SetStateFrame | app/controllers/buildManager.go:171-172 | an update changes only state and time, only of the first matching row, sets both there, and changes nothing without a match |
| Store.SetStateKeepsMatch | app/controllers/buildManager.go:171-172 | after an update the same row is selected |
| Store.SetStateTwice | app/controllers/buildManager.go:171-172 | of two updates of one build the second wins |
| Store.ApplyWritesLast | app/controllers/buildManager.go:165-177 | a series of `UpdateBuild` calls leaves what the last one wrote |
| Store.ApplyWritesAppend | app/controllers/buildManager.go:165-177 | two series of updates in a row are one series |
| Store.UpdatedDuration | app/controllers/buildManager.go:80-86 | after an update at `now`, `Duration` is `now` minus the creation date |
| Store.MaintenanceOutcome | app/controllers/buildManager.go:189-196 | afterwards no build is Created, Init or Building; those became Fail with all else kept; other builds are unchanged |
| Store.MaintenanceIdempotent | app/controllers/buildManager.go:191-196 | maintenance twice is maintenance once |
| Store.Find | app/controllers/buildManager.go:115-117 | a found build is stored, is of the request, and no earlier row is; "not found" only when no row is of the request |
| Store.SetStateKeepsValid | app/controllers/buildManager.go:171-172 | updates keep every `_id`, so ids stay present, distinct and below the next one |
| Store.BuildStore.constructor | app/controllers/buildManager.go:96-108 | an empty, valid table |
| Store.BuildStore.SaveBuild | app/controllers/buildManager.go:180-187 | an id-less build is appended with a fresh `_id`; a present `_id` is a duplicate-key error that changes nothing; a new `_id` is appended as is; the table stays valid |
| Store.BuildStore.UpdateBuild | app/controllers/buildManager.go:165-177 | the table after the update; the error is nil exactly when some row matched |
| Store.BuildStore.BuildMaintenance | app/controllers/buildManager.go:189-196 | the table becomes `Maintained` of the old one and stays valid |
| DockerProtocol.RunDecomposes | app/controllers/dockerWorker.go:38-71 | a run that reaches `startBuild` is the start-date write, the image check (and bootstrap), then `startBuild`'s events; its writes and container runs are those of `startBuild` after the first write |
| DockerProtocol.WritesOfBuildPhase | app/controllers/dockerWorker.go:143-153 | the build phase writes one Building per started build container |
| DockerProtocol.WritesOfStartBuild | app/controllers/dockerWorker.go:118-166 | `startBuild` writes Init, Init again after the update container, the Building writes, then the final state |
| DockerProtocol.BuildRunsOfRun | app/controllers/dockerWorker.go:131-153 | the build containers: none for a refresh job, one on the selected image, and a second on "fallback" when the retry happens |
| DockerProtocol.UpdateRunsOfRun | app/controllers/dockerWorker.go:131-141 | one update container from "fallback" exactly when the update is tried |
| DockerProtocol.UpdateAttemptedIff | app/controllers/dockerWorker.go:131-141 | the update runs, once and from "fallback", exactly for the primary branch and the refresh job; other revisions build with `useFallbackImage` set |
| DockerProtocol.FailedUpdateFallsBack | app/controllers/dockerWorker.go:134-152 | after a failed update the primary branch builds on "fallback" only and cannot end in Success |
| DockerProtocol.FailedUpdateOrder | app/controllers/dockerWorker.go:222-229 | an update container that started but failed is destroyed only after the duration write, and the update fails |
| DockerProtocol.UpdateRemovesLatest | app/controllers/dockerWorker.go:226-240 | after an exit-0 update "latest" is removed; the commit happens exactly when that removal did not fail; a failed removal skips commit and destroy and fails the update |
| DockerProtocol.RefreshOnlyUpdates | app/controllers/dockerWorker.go:122-163 | a refresh job never builds; it ends in Success exactly when the update succeeded, else Fail |
| DockerProtocol.AtMostTwoAttempts | app/controllers/dockerWorker.go:144-153 | at most two build containers; none exactly for a refresh job; two only on the primary branch after a successful update and a failed "latest" build, the second on "fallback" |
| DockerProtocol.FinalStateTable | app/controllers/dockerWorker.go:154-163 | the final state equals the outcome table read off the containers' results for each kind of revision |
| DockerProtocol.SuccessNeedsUpdate | app/controllers/dockerWorker.go:154-163 | the final state is terminal; Success needs a successful update; other revisions end in Fail or FallbackSuccess |
| DockerProtocol.StartWritesOrder | app/controllers/dockerWorker.go:126-164 | `startBuild` writes Init first, the final state last, and never goes back in the enum order |
| DockerProtocol.WritesOrder | app/controllers/dockerWorker.go:42-164 | a run's writes: the incoming state, then Init, never going back from there, ending in the final state |
| DockerProtocol.RunWrites | app/controllers/dockerWorker.go:38-71 | a run reaching `startBuild` writes the incoming state, then what `startBuild` writes |
| DockerProtocol.BuildingWrittenIff | app/controllers/dockerWorker.go:298-306 | Building is written exactly when a build container started |
| DockerProtocol.StartupFailure | app/controllers/dockerWorker.go:48-108 | with the daemon unreachable, or the fallback image missing and unbuildable, no container is created and the only later write is Fail (none when unreachable) |
| DockerProtocol.RunLastWrite | app/controllers/dockerWorker.go:38-71 | every run writes at least once and its last write is `LastWrite` |
| DockerProtocol.RunTagsConform | app/controllers/dockerWorker.go:53-273 | every event of a run uses the job's own repository and the tags its kind allows |
| DockerProtocol.ImageTags | app/controllers/dockerWorker.go:99-273 | containers run from "fallback" or "latest"; only "latest" is removed; only "fallback" is built, without cache; commits go to the target's repository under "fallback" for the refresh job and "latest" otherwise |
| DockerProtocol.ImageRefParts | app/controllers/dockerWorker.go:53 | an image reference splits at its one ':' into repository and tag |
| DockerProtocol.ImageRefIgnoresCase | app/controllers/dockerWorker.go:53 | the target's letter case does not change an image reference |
| DockerProtocol.BuildScriptSubstitutes | app/controllers/dockerWorker.go:250-256 | with the placeholders in order and no other '{', the command is the instructions with the revision and the release string in their places |
| DockerProtocol.RefSubstitutedFirst | app/controllers/dockerWorker.go:254-256 | the revision is substituted first, so a revision reading `{{RELEASE_NUMBER}}` becomes the release string |
| DockerProtocol.RefPass | app/controllers/dockerWorker.go:255 | the first substitution replaces every reference placeholder of a template by the revision and copies every release placeholder through |
| DockerProtocol.ReleasePass | app/controllers/dockerWorker.go:254-256 | the second substitution then replaces every release placeholder by the release string and nothing else |
| DockerProtocol.BuildScriptFills | app/controllers/dockerWorker.go:250-256 | for instructions of plain text and any number of both placeholders in any order, the script has each reference placeholder replaced by the revision and each release placeholder by the release string; with a plain release string no placeholder is left |
| DockerProtocol.BuildScriptPlain | app/controllers/dockerWorker.go:246-256 | instructions without '{' run exactly as joined with " && " |
| Docker.RunLeavesLastWrite | app/controllers/dockerWorker.go:38-71 | replaying a run's writes leaves its last written state on the build's row |
| Docker.DockerWorker.constructor | app/controllers/workerManager.go:51-54 | the worker holds its own copy of the build and the target; all else zero |
| Docker.DockerWorker.SaveState | app/controllers/dockerWorker.go:126-127 | the copy's state is set and persisted; one write is logged |
| Docker.DockerWorker.Destroy | app/controllers/dockerWorker.go:329-331 | one forced container removal is logged |
| Docker.DockerWorker.Run | app/controllers/dockerWorker.go:38-71 | the run's events are exactly `RunEvents` of the incoming build, the copy ends in `LastWrite`, its start date is the request's clock reading, and the store row carries that state |
| Docker.DockerWorker.BuildImage | app/controllers/dockerWorker.go:74-115 | the bootstrap events; Fail when the Dockerfile is unreadable or the image build fails, else `startBuild`'s final state; an error exactly for an unreadable Dockerfile |
| Docker.DockerWorker.StartBuild | app/controllers/dockerWorker.go:118-166 | exactly `StartBuildEvents`, ending in `FinalState`; the update duration is the daemon's when an update container started, else unchanged |
| Docker.DockerWorker.UpdatePhase | app/controllers/dockerWorker.go:129-141 | the update events when tried; `useFallbackImage` and the failure flag as the protocol defines them; the update duration as in `StartBuild` |
| Docker.DockerWorker.BuildPhase | app/controllers/dockerWorker.go:143-153 | exactly the build-phase events; the last attempt's failure and whether "fallback" was used; only the copy's state changes |
| Docker.DockerWorker.TryUpdate | app/controllers/dockerWorker.go:168-241 | exactly `UpdateEvents`; success exactly as `UpdateOk`; the update duration is set from the daemon exactly when the container started, else kept; the start date is kept |
| Docker.DockerWorker.UpdateOptions | app/controllers/dockerWorker.go:172-191 | the update container's options: "fallback" image, the `bash -c` command with the revision as `$0`, and the output mount |
| Docker.DockerWorker.CommitUpdate | app/controllers/dockerWorker.go:215-240 | the finishing events; success exactly for exit 0, no failed removal and a successful commit |
| Docker.DockerWorker.BuildProject | app/controllers/dockerWorker.go:244-326 | exactly one attempt's events; success exactly as `RanOk`; Building written exactly when the container started, and no other field of the copy changes |
| Docker.DockerWorker.BuildOptions | app/controllers/dockerWorker.go:246-280 | the build container's options: image by tag, substituted script, output and source mounts |
| Dispatch.RunAll | app/controllers/workerManager.go:40-46 | workers run one after another and keep the table's length |
| Dispatch.InTargets | app/controllers/workerManager.go:40-46 | a target is launched exactly when some launch has it |
| Dispatch.DispatchedOnlyFails | app/controllers/workerManager.go:32-38 | the caller's record changes only for a non-"Docker" type, and then only to Fail |
| Dispatch.FanOutTargets | app/controllers/workerManager.go:40-54 | for "all", every launch gets the record with TargetSys still "all" and a configured target, and every configured target is launched |
| Dispatch.SingleTarget | app/controllers/workerManager.go:44-46 | any other target launches exactly one worker, for that target |
| Dispatch.RunAllLast | app/controllers/workerManager.go:40-46 | with one record for all launches, the row ends with the last worker's state |
| Dispatch.RunAllKeepsValid | app/controllers/workerManager.go:40-46 | the workers' updates keep the table valid |
| Dispatch.WorkerManager.Build | app/controllers/workerManager.go:28-48 | a non-"Docker" type fails the caller's record with "Not a valid build type" and launches nothing; otherwise one launch per target, each target once, and the table is the workers' runs in order |
| Dispatch.WorkerManager.LaunchAll | app/controllers/workerManager.go:40-43 | the fan-out loop launches every configured target once, with the same record |
| Dispatch.WorkerManager.LaunchOne | app/controllers/workerManager.go:44-46 | one launch for the build's own target |
| Dispatch.WorkerManager.LaunchDockerBuild | app/controllers/workerManager.go:50-56 | a fresh worker on a copy runs; the table gets that run's last write |
| Manager.ReloadIdempotent | app/controllers/projectsManager.go:62-85 | reloading twice is reloading once, and a reload changes only the configuration |
| Manager.NewRecordWaits | app/controllers/buildManager.go:127-134 | a new record is pending, neither retryable nor downloadable, with zero duration, and maintenance would fail it |
| Manager.NewRecordKeys | app/controllers/buildManager.go:130 | two new records of one project share the key `UpdateBuild` selects by exactly when they were made at the same time, whatever their targets and revisions |
| Manager.DecideCases | app/controllers/buildManager.go:111-124 | the primary branch and the refresh job always start anew; other revisions start anew exactly when no build of the request is stored; otherwise the first stored one is reported, and retried exactly when it failed |
| Manager.RetryOnlyRetryable | app/controllers/buildManager.go:120-121 | a retried build is retryable and not a refresh job |
| Manager.RunAllUnmatched | app/controllers/buildManager.go:171-172 | updates of a key no row has change nothing |
| Manager.NewBuildSavesDispatchedState | app/controllers/buildManager.go:127-134 | dispatching first leaves the table untouched when no build shares project and date; the record is saved Created for "Docker" and Fail otherwise |
| Manager.BuildManager.constructor | app/controllers/buildManager.go:96-108 | the manager shares its store with its worker manager |
| Manager.BuildManager.NewBuild | app/controllers/buildManager.go:127-134 | the reloaded record, dated by the request's clock reading, is dispatched on the request's host, then saved with a fresh id; error nil |
| Manager.BuildManager.RetryBuild | app/controllers/buildManager.go:137-140 | the reloaded record is dispatched again, on the retry request's own host; nothing is inserted |
| Manager.BuildManager.CreateOrReturnStatusBuild | app/controllers/buildManager.go:111-124 | the answer is `Answer(Decide(...))`; a new build, a retry of the failed one, or no change, each with its effect on the table |
| Gerrit.QueryTerms | app/controllers/gerritManager.go:25 | the query is two terms, `project:<p>` and `status:open`, for a project name without spaces |
| Gerrit.ChangeRefFields | app/controllers/gerritManager.go:33 | a ref's five `/` fields: "refs", "changes", the `%02d` shard, the number, the revision count |
| Gerrit.ChangeRefRoundTrip | app/controllers/gerritManager.go:33 | parsing a change's ref gives back the change |
| Gerrit.ChangeRefInjective | app/controllers/gerritManager.go:33 | two changes have the same ref exactly when they are the same |
| Gerrit.ChangeRefShard | app/controllers/gerritManager.go:33 | for a non-negative number the shard is exactly two characters: the last two digits, zero-padded |
| Gerrit.FormatChanges | app/controllers/gerritManager.go:31-34 | the loop's result is the refs of the changes, in order |
| Gerrit.GerritManager.constructor | app/controllers/gerritManager.go:10-13 | the zero-valued manager |
| Gerrit.GerritManager.Init | app/controllers/gerritManager.go:17-20 | the review address and the project name are taken from the project |
| Gerrit.GerritManager.GetOpenChanges | app/controllers/gerritManager.go:24-36 | a query error gives no refs and the error; otherwise one ref per change, in order, and no error |
| Controller.IdHex | app/controllers/buildController.go:92 | 24 lower-case hexadecimal digits for an assigned id, empty otherwise |
| Controller.HexDigitsValue | app/controllers/buildController.go:92 | `w` hexadecimal digits of `n` read back as `n` modulo 16 to the `w` |
| Controller.IdHexRoundTrip | app/controllers/buildController.go:92 | the hex string of an id in range reads back to the id |
| Controller.IdHexInjective | app/controllers/buildController.go:92 | two ids in range have the same hex string exactly when they are equal |
| Controller.DownloadGate | app/controllers/buildController.go:68-87 | the artifact is handed out exactly when the state is above Fail and a package is configured, the archive exists, or it can be made |
| Controller.DownloadRefusal | app/controllers/buildController.go:74-92 | a refusal is the empty JSON value only at or below Fail, otherwise the build page |
| Controller.DownloadIgnoresCommit | app/controllers/buildController.go:68 | the gate does not look at the revision |
| Controller.GateWiderThanDownloadable | app/controllers/buildController.go:68 | every downloadable build passes; a successful refresh job passes too, though not downloadable |
| Controller.MissingBuildRefused | app/controllers/buildController.go:63-92 | a failed lookup gets "" or the empty build page |
| Controller.ArtifactInOutputDir | app/controllers/buildController.go:72-82 | the artifact directory under the base path is the worker's output directory; the archive is `output.tar`, a package its configured name |
| Controller.DetailReadsWorkerLog | app/controllers/buildController.go:41-48 | `Detail` reads `logs.txt` in the worker's output directory, empty when unreadable |
| Controller.DeployGate | app/controllers/buildController.go:102-106 | deploy starts exactly for Success or FallbackSuccess, whatever the revision: exactly when Download's `State > Fail` gate passes, so exactly when Download serves with an archive that can be made; the reply is the build page |
| Text.NatStrRoundTrip | app/controllers/gerritManager.go:33 | `%d` of a natural number reads back to it |
| Text.IntStrRoundTrip | app/controllers/gerritManager.go:33 | `%d` of an integer reads back to it |
| Text.Pad2IsLastTwoDigits | app/controllers/gerritManager.go:33 | `%02d` of `n % 100` is two characters, the last two digits zero-padded |
| Text.LowerIdempotent | app/controllers/dockerWorker.go:53 | lower-casing twice is lower-casing once |
| Text.ReplaceAllJoin | app/controllers/dockerWorker.go:254-256 | a literal substitution replaces every occurrence: parts that cannot start the pattern, joined by it, come out joined by the replacement |
| Text.ReplaceTwoInOrder | app/controllers/dockerWorker.go:254-256 | two literal substitutions in order fill each placeholder once |
| Text.SplitAtFirst | app/controllers/dockerWorker.go:53 | the model's reader of image references: splitting at the first separator gives the part before it and the split of the rest |

## Left out

- Logging (`log.Println`, the worker's log file, flash messages) and rendering are not modelled; they do not affect state.
- The Dockerfile read and the tar stream of `buildImage` are reduced to whether the file is readable and whether the image build succeeds.
- `PackOutput`, `CreateOutputTar` and `Deploy` itself are not modelled: the first only writes a tar file, and the others are not defined in the code. Their outcomes are inputs (`tarCreated`) or flags (`launched`).
- The release stamp: `Date.Format("20060102150400")` is not modelled. It is the host's `format`, an input applied to the build's own date, because its result depends on the server's time zone; the release string is that stamp, `~git` and the commit id.
- The clock: `time.Now()` is read once per request, as the host's `now`. The creation date, the worker's start date and the `UpdateBuild` time stamps of one request all use it.
- Image names: project names and targets are taken to hold no `%`. Go uses `imageName` as a `Sprintf` format a second time (dockerWorker.go:56, 99, 185, 230, 273) but builds the commit repository at :238 directly, so a name such as `a%d` would give different repositories in Go; the model uses the literal name everywhere.
- DockerProtocol.BuildScript: `ReplaceAllString` expands `$` in the revision and the release string; the model substitutes them literally. So the model agrees with Go only for revisions and release strings without `$`, and `DockerProtocol.BuildScriptSubstitutes` and `DockerProtocol.RefSubstitutedFirst` require that.
- The update duration is set on the worker's copy, from the daemon's `updateSeconds`. As in the code, it is never stored, because `UpdateBuild` sets only the state and the time.
- String handling is byte-for-byte on `char`:
  - `strings.ToLower` is treated as ASCII only;
  - the regular expressions are literal patterns;
  - `bson` encoding is not modelled.
- Manager.Reload: running `ReloadProjectCmd` is not modelled. A decode error is not modelled either, although in Go it leaves a partly reset configuration. A file is either readable with a configuration or unreadable.
- Manager.BuildManager.CreateOrReturnStatusBuild: a Mongo error other than "not found" is not modelled. In Go that case returns Created with the error.
- Store.BuildStore.UpdateBuild: the clock and the connection are not modelled; only the selector and `$set` are.
- `GetBuildsByProjects`, `GetBuildByID`'s hex parsing, `Index` and `Retry` of `BuildController`, and the mailer, projects and HTTP controllers are outside the core.
- **Concurrency.** The Go launches are synchronous, so each worker runs to its end before the next starts. The model relies on that and has no concurrency.
- Dispatch.WorkerManager.LaunchAll: every worker of one fan-out sees the same daemon oracle; the map's iteration order is a free choice.
- Docker.DockerWorker.Run: the `docker.NewClient` failure is modelled as `reachable == false`, with no Fail write, as in the code.
- Store.BuildStore.UpdateBuild: its contract does not mention `Valid`. That `Valid` is kept is stated by `Store.SetStateKeepsValid` rather than in the method's ensures.
- Gerrit.GerritManager.GetOpenChanges: Go returns a nil slice both on error and for no changes. Both are the empty sequence here.
