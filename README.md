# dmc deploy and retrieve, modelled in Dafny

This project models the two commands at the heart of `dmc`, a command-line
client for Salesforce orgs.

`dmc deploy` (commands/deploy.js) sends local metadata to an org in one of two ways.

- The Tooling pipeline:
  1. fetch the ids the org already has;
  2. insert a stub for every member that has no id, and record the returned ids;
  3. send the static resources;
  4. create a metadata container;
  5. register every member with an id as a container artifact;
  6. submit the container and poll its status;
  7. in a `finally` step, delete the container.
- The Metadata API: zip the package manifest and the selected files, deploy the
  archive in one call, and render the reply's details as a report.

A guard, `timesBeingDeployed`, keeps a second run from starting while one is in progress.

`dmc retrieve` (commands/retrieve.js) works out which local paths a retrieve fills in:

1. group the matched types by three;
2. list each group on the org, replacing Document, EmailTemplate, Report and
   Dashboard by their folder types and expanding every folder into a nested listing;
3. keep the results the namespace options allow;
4. place each result under `src/`, rewriting odd file names onto the type's folder;
5. merge the groups without duplicates;
6. narrow the result to the globs.

Modules:

- `Wrappers`: Option and Result.
- `Strings`: prefix tests, first-occurrence replace, ASCII lower case, and JavaScript's string order.
- `Sorting`: lodash `sortBy` as a stable insertion sort, proved sorted and a permutation.
- `Report`: `logDetails`.
- `DeployModel`: the values and pure decisions of deploy.js.
- `DeployEngine`: the stateful deploy.
  - The metadata map (`MetadataMap`) and the org (`Org`) are classes whose methods change their fields.
  - `Org` records every exchange in `trace`. It answers each call from a reply function fixed at construction.
  - `Deployer` holds the guard.
- `Retrieve`: the path computation of retrieve.js. The org's `listMetadata` is a function parameter.

The error paths are modelled as values:

- A settled deploy is `Resolved`, `Rejected(error)` or `Pending`. `Pending` means the promise never settles.
- Retrieve results are `Result` values.

## Model

| member | source | states |
|---|---|---|
| `DeployModel.MissingOfExactly` | commands/deploy.js:33-41 | a stub is made for a member of the type exactly when that member has no id |
| `DeployModel.MissingOfCount` | commands/deploy.js:33-41 | one stub per member of the type that has no id: as many stubs as such members |
| `DeployModel.StubsCount` | commands/deploy.js:30-41 | over the member type names, one insert per member without an id |
| `DeployModel.StubsExactlyMissing` | commands/deploy.js:33-41 | over the member type names, a stub exists exactly for a member without an id, filed under one of those types |
| `DeployModel.NoStubsWhenAllHaveIds` | commands/deploy.js:43 | no stub at all (the early empty resolve) exactly when every member of the member types has an id |
| `DeployModel.SetMetaId` | commands/deploy.js:25 | recording an id keeps the set of types |
| `DeployModel.SetMetaIdEffect` | commands/deploy.js:25 | only the members of that type and name change, and only in their id; list lengths are kept |
| `DeployModel.RecordIds` | commands/deploy.js:21-28 | recording the returned ids keeps the set of types |
| `DeployModel.RecordIdsShape` | commands/deploy.js:21-28 | recording the returned ids changes no member list's length |
| `DeployModel.RecordIdsKeeps` | commands/deploy.js:21-28 | a member keeps its name; it has an id afterwards if it had one or if a stub was inserted for it |
| `DeployModel.AllStubbedHaveIds` | commands/deploy.js:18-54 | once every stub is inserted and its non-empty id recorded, every member of the member types has an id |
| `DeployModel.WithFetchedIds` | commands/deploy.js:255 | fetching ids keeps the set of types |
| `DeployModel.FetchedIdsRecorded` | commands/deploy.js:255 | a member found remotely takes the remote id; its type, name and path, and every member not found, are kept |
| `DeployModel.RegistrableOfExactly` | commands/deploy.js:110-113 | a member is kept exactly when it has an id and its type is a member type |
| `DeployModel.ArtifactMembersExactly` | commands/deploy.js:145-151 | a member becomes a container artifact exactly when it is in the map, has a non-empty id and is of a member type |
| `DeployModel.StaticResourceCall` | commands/deploy.js:61-71 | a static resource is sent as a zip under its name, by update when it has an id and by insert otherwise |
| `DeployModel.PollStep` | commands/deploy.js:176-216 | Completed resolves; Failed rejects with the compiler errors; Errored rejects with ErrorMsg or the fallback text; a transport error rejects; any other state polls again; a reply never throws |
| `DeployModel.PollStepAsWrittenDiffers` | commands/deploy.js:204-211 | the code as written agrees with the intended step on every reply except Errored, where it throws |
| `DeployModel.SubmitStep` | commands/deploy.js:220-225 | a failed submission rejects with its error; a successful one starts polling |
| `DeployModel.SubmitStepAsWrittenDiffers` | commands/deploy.js:220-221 | as written, exactly a failed submission differs: it throws instead of rejecting |
| `DeployModel.DestPathRemaps` | commands/deploy.js:514-515 | an SFDX path is moved under `src`; a path without the SFDX root keeps its place |
| `DeployModel.MissingPaths` | commands/deploy.js:542-548 | a path is reported missing exactly when it is selected and does not exist |
| `DeployModel.ArchivePlan` | commands/deploy.js:469-557 | the archive is rejected with "cannot deploy - missing files" exactly when a selected path is missing; otherwise it holds the manifest at `src/package.xml`, then one entry per path in order |
| `DeployModel.AllPresentEntries` | commands/deploy.js:513-520 | when every path exists, each path gives exactly one entry, in order |
| `DeployModel.MissingFileAsWritten` | commands/deploy.js:503-509 | one missing file: as written the archive is never finalised, while the intended plan rejects |
| `DeployModel.SelectBackend` | commands/deploy.js:616-625 | the Tooling pipeline runs exactly when no full deploy is needed, `--meta` and `--tests` are off and `deploy_mode` is not "metadata" (unset counts as "dynamic") |
| `DeployModel.PhasesConcat` | commands/deploy.js:249-296 | consecutive phases of the promise chain keep the calls in phase order |
| `DeployEngine.MetadataMap.RecordStubIds` | commands/deploy.js:25 | the map afterwards is the old map with the given ids recorded in order |
| `DeployEngine.MetadataMap.RecordFetchedIds` | commands/deploy.js:255 | the map afterwards is the old map with the fetched ids recorded |
| `DeployEngine.Org.Send` | commands/deploy.js:23-27 | one remote call: the reply is the org's answer to it at its position, and the exchange is appended to the trace |
| `DeployEngine.InsertStubs` | commands/deploy.js:21-53 | the stubs are inserted in order until one fails; the ids received are recorded; success exactly when all were inserted, resolving with the ids; a failure rejects with "unable to create stub files" |
| `DeployEngine.CreateStubFiles` | commands/deploy.js:18-54 | the stubs are those of the members without ids, one insert each when the phase succeeds, and the insertion contract above holds for them: every insert but the last succeeded, and a failed one ends the phase |
| `DeployEngine.CreateStaticResources` | commands/deploy.js:56-94 | each StaticResource member is read and sent, in order; an unreadable file or a failed call ends the phase with that error; no error exactly when all were sent and answered |
| `DeployEngine.CreateContainer` | commands/deploy.js:96-107 | one call; it resolves with the new container's id, or rejects with the call's error |
| `DeployEngine.AddArtifacts` | commands/deploy.js:110-143 | one `<type>Member` artifact per member, in order, bound to the member's id; an unreadable file, an artifact that cannot be created, or a failed call ends the phase |
| `DeployEngine.CreateDeployArtifacts` | commands/deploy.js:109-158 | the artifacts are exactly the members with ids of member types, registered in order; no error exactly when all were registered |
| `DeployEngine.DeployContainer` | commands/deploy.js:161-227 | no container id: nothing happens. Otherwise the container is submitted and then polled; every poll before the last one continued; the outcome is the one the last reply's step settles, Pending when that step throws (the code as written) or after the whole poll budget |
| `DeployEngine.StubPhases` | commands/deploy.js:262-296 | after the fetch: the inserts are exactly the stubs of the fetched map, in order; a failed insert ends the chain with "unable to create stub files" and no later call; otherwise the static resources and the rest follow over the map with the new ids |
| `DeployEngine.StaticPhases` | commands/deploy.js:273-296 | the static resources are sent first; an unreadable file or a failed call ends the chain with no later call; otherwise the container phases follow |
| `DeployEngine.ContainerPhases` | commands/deploy.js:284-295 | the container is created first; a failed create ends the chain with no artifact or deploy call; the id kept is the one it was given; a failed registration ends the chain before the deploy |
| `DeployEngine.ToolingPhases` | commands/deploy.js:249-296 | the chain of six phases, in order from the fetch: every phase before the one that ended the chain made all its calls and each succeeded, no phase after it made any call, and in that phase every call but the last succeeded; a failed fetch is the only call |
| `DeployEngine.ChainOrdered` | commands/deploy.js:249-296 | the calls of the chain never go back to an earlier phase |
| `DeployEngine.FinallyDelete` | commands/deploy.js:297-301 | once the chain has settled with a container id, exactly one delete of that container; a failed delete rejects, otherwise the chain's outcome stands; nothing without a container id or while pending |
| `DeployEngine.ToolingWithFinally` | commands/deploy.js:249-302 | the chain, then the delete of the container as the last call once the chain has settled with one |
| `DeployEngine.AddMetadataFiles` | commands/deploy.js:500-528 | the entries collected are those of the existing paths, in order, and the missing paths are collected in order |
| `DeployEngine.Deployer.RunToolingDeploy` | commands/deploy.js:244-304 | a raised guard does nothing and makes no call. Otherwise the chain of `ToolingPhases` runs, stopping at its first failure, with the stubs of the fetched map; once settled, the container obtained is deleted as the last call, and the guard is cleared on every settled exit; no delete happens without a container or while pending |
| `DeployEngine.Deployer.RunMetadataDeploy` | commands/deploy.js:449-559 | a raised guard does nothing. A missing file rejects before any call. Otherwise one archive deploy with details, rollback and the tests flag; it resolves exactly when the reply is a success; the report is `logDetails` of the reply's details; the guard is cleared |
| `DeployEngine.Deployer.RunToolingDeployAsWritten` | commands/deploy.js:176-304 | as written throughout: the status and submission callbacks throw where the code does, which leaves the run pending; the guard stays raised unless the run settled with a container id |
| `DeployEngine.ThrowingReplyLeavesRunPendingAsWritten` | commands/deploy.js:204-221 | as written, a run whose deploy ends on an Errored status or a failed submission never settles, and no delete of the container is sent |
| `DeployEngine.ThrowingReplySettlesRunIntended` | commands/deploy.js:204-221 | with the intended steps the same run rejects with the status's message (or the fallback text) or the submission's error, and deletes the container as its last call |
| `DeployEngine.Deployer.RunMetadataDeployAsWritten` | commands/deploy.js:449-559 | as written: a missing file leaves the deploy unsettled with no call and the guard raised; otherwise the same deploy and report, and only a success clears the guard that line 631 raised |
| `DeployEngine.FailedFetchBlocksNextRunAsWritten` | commands/deploy.js:247-301 | as written, after a run whose fetch fails the guard stays raised and the next run makes no call |
| `DeployEngine.FailedFetchThenNextRun` | commands/deploy.js:247-301 | with the guard cleared on every settled exit, the run after a failed fetch starts again with the fetch |
| `DeployEngine.Deployer.Run` | commands/deploy.js:561-637 | a raised guard does nothing; no local files rejects; no selected path resolves; otherwise the chosen backend runs: the whole Tooling run of `RunToolingDeploy`, or at most one archive deploy; a settled run clears the guard |
| `Report.Classify` | commands/deploy.js:319-325 | created wins over changed, changed over deleted, and otherwise noChange |
| `Report.FailureLineOf` | commands/deploy.js:360-376 | a missing line or column is shown as 0 |
| `Report.CoveragePercent` | commands/deploy.js:396-404 | exactly 100 without locations or without uncovered locations, 0 when nothing is covered, and otherwise between 0 and 100 |
| `Report.CoverageRowsSorted` | commands/deploy.js:392-417 | coverage rows appear only when asked for and present; they are a permutation of the classes, listed in descending coverage, and classes of equal coverage keep their payload order |
| `Report.EachSuccess` | commands/deploy.js:332-335 | one line per success in order, and the flag is raised exactly by a change to something other than package.xml |
| `Report.LogSuccesses` | commands/deploy.js:311-341 | the success lines are a permutation of the components, sorted by label; the banner carries the count exactly when something changed |
| `Report.SuccessesSorted` | commands/deploy.js:329-331 | the successes are sorted by `cType + fullName` and are a permutation of the input |
| `Report.FailureLinesSorted` | commands/deploy.js:343-378 | the failure lines are a permutation of the failures, sorted by `cType + fullName` |
| `Report.ChangedPermutation` | commands/deploy.js:333 | whether something changed does not depend on the order of the successes |
| `Report.LogDetails` | commands/deploy.js:306-447 | no details, no report. Otherwise: the successes and banner as above; a failure section exactly when the payload has failures; a test section exactly when tests ran |
| `Report.SuccessOrder` | commands/deploy.js:329-331 | the success sort key is a total preorder |
| `Report.FailureOrder` | commands/deploy.js:357-359 | the failure sort key is a total preorder |
| `Sorting.SortByCorrect` | commands/deploy.js:415-417 | `sortBy` returns a sorted permutation that keeps the input order of equal keys |
| `Strings.LexLeTotal` | commands/deploy.js:330 | any two sort keys are ordered one way or the other |
| `Strings.LexLeTransitive` | commands/deploy.js:330 | the order of sort keys is transitive |
| `Retrieve.FolderType` | commands/retrieve.js:30-38 | exactly Document, EmailTemplate, Report and Dashboard have a folder type, and that folder type's contents are the type itself |
| `Retrieve.ContentType` | commands/retrieve.js:59-76 | exactly DocumentFolder, EmailFolder, ReportFolder and DashboardFolder are expanded |
| `Retrieve.FolderTypesInverse` | commands/retrieve.js:59-76 | each folder type expands into the type whose folders it lists |
| `Retrieve.Substitute` | commands/retrieve.js:25-41 | a foldered type without a subfolder becomes its folder type; every other type is unchanged |
| `Retrieve.Expansion` | commands/retrieve.js:56-81 | a folder record becomes a nested query for its content type, with the folder's full name as subfolder; every other record passes through |
| `Retrieve.SubstituteThenExpand` | commands/retrieve.js:25-81 | a substituted type's folders are queried again as the original type, each within its folder |
| `Retrieve.NoExpansionOfPlainTypes` | commands/retrieve.js:25-81 | a type that is not substituted never yields a folder to expand |
| `Retrieve.EmptyFolderNameListsFoldersAgain` | commands/retrieve.js:30-75 | a folder with an empty full name is queried without a subfolder, so it is substituted back into the folder type |
| `Retrieve.Filter` | commands/retrieve.js:98-113 | an entry is kept exactly when it is in the input and the scope keeps it |
| `Retrieve.NamespaceScopeDropsNested` | commands/retrieve.js:101-106 | with `--ns`, only records whose prefix equals it ignoring case survive, so no nested folder path does |
| `Retrieve.DefaultScopeKeepsUnprefixed` | commands/retrieve.js:108-112 | without `--all` or `--ns`, exactly the nested paths and the records with no or an empty prefix survive |
| `Retrieve.Alternatives` | commands/retrieve.js:93 | the alternatives of the file-name pattern are the queried names, or the single empty one when there are none |
| `Retrieve.FirstPrefix` | commands/retrieve.js:123 | the pattern matches exactly when some alternative followed by `/` begins the file name, and the match is the first such alternative |
| `Retrieve.FindType` | commands/retrieve.js:124 | the lookup finds a queried type with the record's type name, or none exists |
| `Retrieve.PathOf` | commands/retrieve.js:114-128 | nested paths are kept. Any other path lies under `src/`: a matching prefix is replaced, as `String.replace` does, by the type's folder ("undefined" when it has none), and other names are used as is. A match on a type that was not queried throws |
| `Retrieve.MapResult` | commands/retrieve.js:114-135 | every entry is mapped in order, or the first throw rejects the listing |
| `Retrieve.Flat` | commands/retrieve.js:95-97 | flattening keeps exactly the records, and the paths of the nested listings that produced some |
| `Retrieve.Concat` | commands/retrieve.js:142 | compacting and flattening keeps exactly the paths of the groups that produced some |
| `Retrieve.Uniq` | commands/retrieve.js:142 | the result has no duplicates and the same elements as the input |
| `Retrieve.Chunk` | commands/retrieve.js:246-248 | the chunks concatenate back to the types in order; each has one to three types, and all but the last exactly three |
| `Retrieve.ChunkCount` | commands/retrieve.js:248 | the number of chunks is the number of types divided by three, rounded up |
| `Retrieve.ExpandedFailureSticks` | commands/retrieve.js:83 | once a nested listing fails, the whole listing fails with that error |
| `Retrieve.CollectItems` | commands/retrieve.js:53-84 | the loop collects each record, or its folder's nested listing, exactly as the collection function prescribes, failing as it does |
| `Retrieve.Iterate` | commands/retrieve.js:24-136 | the iterator settles exactly as the listing function prescribes, including null for an empty listing |
| `Retrieve.SettleUnderSrc` | commands/retrieve.js:86-131 | paths settled from items whose nested paths lie under `src/` lie under `src/` |
| `Retrieve.ListedUnderSrc` | commands/retrieve.js:24-136 | every path a listing settles with lies under `src/`, however deep the folders nest |
| `Retrieve.ExpandedUnderSrc` | commands/retrieve.js:56-84 | the nested listings collected only hold paths under `src/` |
| `Retrieve.MapResultFailureSticks` | commands/retrieve.js:140-141 | once a group fails, the whole gathering fails with that error |
| `Retrieve.FilePathsCorrect` | commands/retrieve.js:22-146 | rejects exactly when some group's listing fails; otherwise the paths have no duplicates, lie under `src/`, and are exactly those some group produced |
| `Retrieve.GetFilePaths` | commands/retrieve.js:140-145 | the groups are listed in order and merged exactly as the path-list function prescribes |
| `Retrieve.RetrieveOptions.DefaultGlobs` | commands/retrieve.js:211-213 | missing or empty globs become `src/**/*`; other globs are kept |
| `Retrieve.Run` | commands/retrieve.js:207-262 | defaults the globs and groups the matched types by three. The listing's error rejects; an empty path list, before or after the glob filter, rejects with "no files found for retrieve"; otherwise the filtered paths go into the retrieve request |

## Left out

- Retrieval I/O: the retrieve request, polling, unzipping, clearing `src/`, copying files and removing the temporary directory (commands/retrieve.js:148-205, 263-305). These are file and network I/O. `Retrieve.Run` ends with the paths added to the request.
- Deploy I/O: loading config, `.dmcignore` and the client, `getFiles`, and `map.autoLoad`. These are I/O. `Deployer.Run` takes the number of local files found as a parameter.
- The internals of the metadata map are not part of this model. `getMemberTypeNames`, `createPackageXML`, `getFilePathsForDeploy`, `requiresMetadataDeploy` and `getTypesFromGlobs` are fields or parameters. `setMetaId` and `fetchIds` are given the meaning their names state.
- `matching.filterOnGlobs` is a function parameter. `dmcignore` lines are folded into it.
- Batches run with a concurrency of 5 in the source (`async.mapLimit`). Here they run one at a time in order, and the first failure in order is the one reported. With concurrency, the error that happens first in time wins.
- Nested folder listings start in parallel in the source, and `Promise.all` rejects with the first error in time. Here they run in listing order.
- The 1500 ms delay between status polls is left out. The poll loop is bounded by the org's `pollLimit`; after that many unsettled replies the outcome is `Pending`. The source polls without bound.
- Folder expansion in retrieve is bounded by a depth `fuel`. Exhausting it rejects with `TooDeep`; the source recurses without bound.
- Interleaved runs in one process (the watch command) are left out. Each `Deployer` method runs to completion; a raised guard models a run still in progress.
- Logging, colours, `toFixed(2)`, and the "created n stub files" style messages are left out. `Report` holds the content and the order of what is logged. Coverage is an exact `real`, not a float.
- String order is by `char` code. A Dafny `char` is a Unicode scalar value, so the order differs from JavaScript's UTF-16 code-unit order for characters above U+FFFF. `toLowerCase` is modelled on ASCII letters only.
- Type names are treated as literal text in the retrieve pattern; regular-expression metacharacters in a name are not modelled. `$` patterns in a folder name passed to `replace` are not modelled either.
- The `e.cType` and `e.method` fields that `logDetails` writes back into the reply objects are left out. They do not affect what is logged.
- The Failed branch of the poll loop calls `logDetails` without options. Its report is not modelled, so neither is the TypeError it would raise on reading `opts.coverage` when tests ran.
- The container name `dmc:<timestamp>` and the unused `baseString` in `runMetadataDeploy` are left out.
- `DeployEngine.InsertStubs`: the ids received are recorded in the map once the batch stops, not as each reply arrives. The final map is the same, because each stub's id is recorded in order either way.
- The lodash chains are read as running at once: `_(…).filter(…).each(…)` without `.value()` (commands/deploy.js:34-40, 332, 360) runs its callback, and `_(…).flattenDeep().each(…).value()` (commands/retrieve.js:56-81) ends with the collected promises. No package manifest fixes the lodash release. In lodash 4 `each` ends a chain, so the `.value()` at commands/retrieve.js:81 would throw and every retrieve listing would reject. In lodash 3 a chained `each` waits for `.value()`, so no stub would be collected and no success or failure line logged. Neither reading is modelled.
- Falsy values are collapsed: a member id, `subFolder` or `ns` of "" stands for missing, null or empty, and an absent namespace prefix is `None`.

## Findings

| source | as written | input that shows it | evidently intended | confidence | as-written member | corrected member |
|---|---|---|---|---|---|---|
| commands/deploy.js:204-211 | the Errored branch reads `res.ErrorMsg`, but no `res` is in scope, so it throws a ReferenceError out of the status callback instead of rejecting | a status reply with State "Errored" | reject with `resp.ErrorMsg` or "Tooling API deploy failed. Check Salesforce for more details" | high, not executed | `DeployModel.PollStepAsWritten` (shown by `DeployModel.PollStepAsWrittenDiffers`, and over a whole run by `DeployEngine.ThrowingReplyLeavesRunPendingAsWritten`) | `DeployModel.PollStep` (over a whole run, `DeployEngine.ThrowingReplySettlesRunIntended`) |
| commands/deploy.js:220-221 | a failed `deployContainer` call invokes the undefined `cb`, so it throws instead of rejecting | a transport error on the container submission | reject with the error | high, not executed | `DeployModel.SubmitStepAsWritten` (shown by `DeployModel.SubmitStepAsWrittenDiffers`, and over a whole run by `DeployEngine.ThrowingReplyLeavesRunPendingAsWritten`) | `DeployModel.SubmitStep` (over a whole run, `DeployEngine.ThrowingReplySettlesRunIntended`) |
| commands/deploy.js:500-552 | a missing file throws inside the existence check, so its `cb` is never called, the archive is never finalised and the "cannot deploy - missing files" rejection is unreachable | one selected path that does not exist | reject with "cannot deploy - missing files" before deploying | high, not executed | `DeployModel.ArchivePlanAsWritten` (shown by `DeployModel.MissingFileAsWritten` and used by `DeployEngine.Deployer.RunMetadataDeployAsWritten`) | `DeployModel.ArchivePlan` |
| commands/deploy.js:297-301 | the guard is cleared only when a container id was set (Tooling) or the deploy succeeded (Metadata, lines 482 and 631), so any earlier failure leaves it raised and later runs in the same process silently do nothing | a failed fetch of the ids, then a second run | clear the guard on every settled exit | medium, not executed | `DeployEngine.Deployer.RunToolingDeployAsWritten` (shown by `DeployEngine.FailedFetchBlocksNextRunAsWritten`) and `DeployEngine.Deployer.RunMetadataDeployAsWritten` | `DeployEngine.Deployer.RunToolingDeploy` (shown by `DeployEngine.FailedFetchThenNextRun`) and `DeployEngine.Deployer.RunMetadataDeploy` |
