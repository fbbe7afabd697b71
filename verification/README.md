# Verified models of the CLI agent orchestrator

This project models the parts of the orchestrator in which a mistake would be hardest to
see, and proves what those parts are for.  Modules follow the program's structure:

- **Sandbox manifest** (`Manifest`, `ManifestRoundTrip`, `TomlDocument`, `BasicString`,
  `Text`): the hand-written TOML renderer and the reader it is read back by.  Strings are
  printed as RFC 8259 section 7 escapes them and read as TOML v1.0.0, section "String",
  reads them.
- **Path fences and validation** (`Paths`, `FileSystem`, `Validation`, `Reservation`,
  `Acceptance`): a file tree with inodes, hard links and symbolic links, `realpath`, the
  closed schema of a manifest, and the manifest that a reservation writes.
- **Sandbox lifecycle** (`HostMachine`, `SandboxHouse`, `SandboxTrace`, `SandboxRoom`,
  `SandboxUp`, `SandboxCleanup`, `SandboxDown`): `up` and `down` as methods on a host with a
  tree, tmux servers by socket, processes by pid and start time, and a clock.  Every call is
  logged with its answer.  On a host that is not quiet any call may fail and everything may
  change between two calls; safety and the cleanup of a failed `up` are proved there.  On a
  quiet host, where only the commands and the sandbox itself act, the exact outcome is proved.
- **Source identity** (`SourceMerkle`, `Utf8`, `PathOrder`): the bytes that are hashed, in
  UTF-8 as RFC 3629 section 3 gives it.
- **Guided launch form** (`EnvGuard`, `EnvPairs`, `GuidedForm`, `GuidedFlowLoop`): the form
  as an object, the `--env` parser with its inverse, and two fetch threads feeding one
  channel.
- **Skill mirror** (`SkillTree`, `SkillMirror`, `SkillSync`): the synchroniser and its
  checker over one tree of folders and files.
- **Turn wait and session lifecycle** (`TurnWait`, `OpsLifecycle`): polling over unbounded
  traces, and the driver with its cleanup.
- **Worker-truth boot** (`ProviderCache`, `BootWiring`): the provider cache under interleaved
  lookups, and the arming order of one boot and one shutdown.
- **Artifacts** (`WheelTag`, `Ico`, `SuiteLedger`): wheel tags, the ICO container, and the
  tail ratio over reals.

What the models take from outside are parameters: calls on the host that may fail, the verdict of the
readiness wait and of the free-space check, content hashes, URL splitting, `strip().lower()`,
status traces, and the answers of the fetch threads.  A Dafny `char` is a Unicode scalar
value, so no string here holds a lone surrogate.

## Findings

Properties the code or its documentation suggests that do not hold, each with its exact
condition.

- A rendered manifest whose strings hold U+007F cannot be read: `json.dumps` leaves the
  character as it is and TOML forbids it.  The round trip holds if and only if no string
  holds it (`ManifestRoundTrip.ReadFileUndoesWrite`).
- A manifest that `_build_manifest` returns is refused by `validate_manifest` when the venv
  interpreter is not a resolving link behind clean components, or when the fixture binary is
  hard-linked or has a link above it.  These are the only reasons, given that the running interpreter exists
  (`Acceptance.BuildIsAcceptedExactly`).
- `down` raises, and leaves server, socket, pid record and root behind, when the process obeys
  SIGTERM after the last probe and before the SIGKILL, which then has no one to go to.  On a
  quiet host this is the only failure on a sandbox that is up, and there is always such a gap
  (`SandboxDown.CommandDown`, `SandboxDown.SomeGraceEndsUnseen`,
  `SandboxDown.PurgeOfLateExit`).
- A provider cache entry of a deleted terminal is inherited by the next terminal with its id
  if and only if a lookup wrote it after the id was last forgotten, or some thread still holds
  the provider it read (`ProviderCache.InheritedExactly`).  This happens to a lookup that
  straddles the `forget`, and also to one that runs wholly between the `forget` and the
  deletion of the row, since `src/cli_agent_orchestrator/services/terminal_service.py:9024`
  forgets first.  Whatever provider was left, every successor with another one can inherit it.
- When `list-sessions` fails after `new-session`, `up` raises before it has claimed anything,
  and its exception handler leaves the tmux server of the sentinel running.  In every run that
  fails, the session is killed, by itself or with its server, if and only if the listing
  right after its start gave a list (`SandboxCleanup.FailedUpCleansUp`).  On a quiet host the
  server is left behind if and only if the run reaches the claim and the sessions of a running
  server cannot be listed (`SandboxUp.CommandUp`, `SandboxCleanup.LeakingUp`).
- `run_lifecycle` says that the launched session is always shut down.  It is, exactly once,
  if and only if the launch answered with both a session name and a terminal
  (`OpsLifecycle.IdentityIsShutDown`, `OpsLifecycle.NoIdentityNoShutdown`).
- `session_is_absent` counts an answer that is not an object as an absent session: a run that
  read its output returns a report if and only if the lookup after the shutdown gave the
  canonical not-found message or no object (`OpsLifecycle.ReadIsReportedExactly`).
- The refusal of unloadable profiles holds at the moment of entry only
  (`GuidedFlowLoop.LaterListMayContradict`).
- `sync` raises exactly when a source folder is there for every skill and some file or folder
  stands in the way of a copy (`SkillSync.Repository.Sync`).
- The projection is armed without producers at some moment exactly when the boot armed it and
  the disarm of the shutdown failed.  After a failed wiring the tasks it had started keep
  running, and after a boot that raised the delivery tick does (`BootWiring.OneLife`).
- An image of size 0 reads back as size 256; the file gives back the images themselves exactly
  when none has size 0 (`Ico.ReadPacked`).

Where the code and its own documentation disagree, the models follow the code:

- `start_worker_truth` and `shutdown_worker_truth` say "Never raises", but
  `install_delivery`, the start of the delivery tick, the status cutover and `pool.close_all`
  are outside every handler.
- `resolve_build_data` has already cleared `pure_python` when it refuses a platform `any`
  (`WheelTag.WheelBuild.ResolveBuildData`).
- `_ProviderAllowlist` says that a recycled id cannot inherit a provider; see above.

## Model

| member | source | states |
|---|---|---|
| `BasicString.QuotedRoundTrip` | src/cli_agent_orchestrator/sandbox_bootstrap.py:206-207 | reading a JSON-escaped string back as a TOML basic string gives the string, and nothing exactly when it holds U+007F |
| `ManifestRoundTrip.StatementsMeanDict` | src/cli_agent_orchestrator/sandbox_bootstrap.py:210-251 | the printed key lines and table headers, run by TOML's rules for tables, build exactly the nested manifest |
| `ManifestRoundTrip.RenderManifest` | src/cli_agent_orchestrator/sandbox_bootstrap.py:210-251 | the line-by-line renderer prints the text of those statements, in order and nothing else |
| `ManifestRoundTrip.ReadManifestUndoesRender` | src/cli_agent_orchestrator/sandbox_bootstrap.py:206-262 | for every closed manifest, parsing the rendered text gives the same nested manifest, or fails if and only if some string holds U+007F |
| `ManifestRoundTrip.ReadFileUndoesWrite` | src/cli_agent_orchestrator/sandbox_bootstrap.py:254-262 | the same for the bytes of the file: written as UTF-8, read as bytes, decoded and parsed |
| `Utf8.DecodeExactly` | src/cli_agent_orchestrator/sandbox_bootstrap.py:257 | bytes decode to a text exactly when they are its encoding; overlong forms and surrogates decode to nothing |
| `FileSystem.AssertCleanComponents` | src/cli_agent_orchestrator/sandbox_bootstrap.py:133-148 | the component loop accepts exactly the paths without a forbidden link or hard-linked end |
| `FileSystem.CleanIsReal` | src/cli_agent_orchestrator/sandbox_bootstrap.py:115-148 | a path with clean components is its own realpath, through any links elsewhere |
| `FileSystem.RealpathIdempotent` | src/cli_agent_orchestrator/sandbox_bootstrap.py:115-116 | a resolved path is free of links and resolves to itself |
| `FileSystem.FieldAliasIsRootAlias` | src/cli_agent_orchestrator/sandbox_bootstrap.py:119-122 | a clean path below a clean root relates to a forbidden path only if the root does |
| `Validation.FieldAliasCheckNeverFires` | src/cli_agent_orchestrator/sandbox_bootstrap.py:312-334 | once the root check has passed, no field below the root can alias a forbidden path |
| `Validation.FieldPartsMatch` | src/cli_agent_orchestrator/sandbox_bootstrap.py:62-75 | the path parts the fences work on are those of the manifest's table of relative paths |
| `Validation.AcceptedPathsAreContained` | src/cli_agent_orchestrator/sandbox_bootstrap.py:288-450 | every mutable path and provider home of an accepted manifest really lies below the root, and it and the root are incomparable with every forbidden real path |
| `Acceptance.BuildIsAccepted` | src/cli_agent_orchestrator/sandbox_bootstrap.py:615-694 | with a linked venv interpreter and a clean fixture binary, the manifest a reservation returns is accepted at its own path |
| `Acceptance.BuildIsAcceptedExactly` | src/cli_agent_orchestrator/sandbox_bootstrap.py:615-694 | for a bootstrap whose interpreter exists, those two conditions on the tree before the call are also necessary |
| `Acceptance.ReadyStays` | src/cli_agent_orchestrator/sandbox_bootstrap.py:288-450 | a ready manifest stays ready while the tree grows without touching fenced paths or links |
| `SandboxTrace.UnlinkDeadSocket` | src/cli_agent_orchestrator/sandbox_bootstrap.py:515-537 | a socket is unlinked only right after a probe found its server dead; on a quiet host a dead server's socket is gone and nothing else changes |
| `SandboxUp.Reserve` | src/cli_agent_orchestrator/sandbox_bootstrap.py:615-694 | a failure tells nothing or the making and the removal of one root, and on a quiet host the tree is then the one before |
| `SandboxUp.ClaimSocket` | src/cli_agent_orchestrator/sandbox_bootstrap.py:782-808 | a claim means the list was exactly this instance's sentinel; the sentinel is killed exactly when the list was another; on a quiet host the listing is reached exactly when the socket was free and tmux can create it |
| `SandboxUp.StartServer` | src/cli_agent_orchestrator/sandbox_bootstrap.py:825-837 | the pid record is written with the child's own start time and the manifest's nonce, and the marks of the root survive what the server writes meanwhile |
| `SandboxUp.Retreat` | src/cli_agent_orchestrator/sandbox_bootstrap.py:838-855 | the exception handler polls only its own child and signals it if it runs, kills only a claimed server, and at last removes the root this run made |
| `SandboxUp.RoomExactly` | src/cli_agent_orchestrator/sandbox_bootstrap.py:733-779 | on a fresh root everything after the reservation has room exactly when the venv interpreter was linked, the fixture binary clean, and no string holds U+007F |
| `SandboxUp.CommandUp` | src/cli_agent_orchestrator/sandbox_bootstrap.py:708-855 | in every run each destructive call is justified by what the run saw, the trail has one of the known shapes, and success stamps owner lock, database and pid record with the nonce; on a quiet host success and the leak of the sentinel's server have exact conditions, and failure restores tree and servers but for that leak |
| `SandboxCleanup.FailedUpCleansUp` | src/cli_agent_orchestrator/sandbox_bootstrap.py:708-855 | on any host a run that fails removes its root last, polls its child and signals it exactly when it runs, and ends its session exactly when the sessions could be listed |
| `SandboxCleanup.HealthyUpUndoesNothing` | src/cli_agent_orchestrator/sandbox_bootstrap.py:708-837 | a run that gets healthy made its root, claimed its socket, started its child, and undid nothing |
| `SandboxCleanup.LeakingUp` | src/cli_agent_orchestrator/sandbox_bootstrap.py:791-808 | a run that reaches the claim and cannot list the sessions is refused and leaves the sentinel's server where no server was |
| `SandboxDown.LoadOwned` | src/cli_agent_orchestrator/sandbox_bootstrap.py:858-881 | a process is identified only by an accepted manifest, a pid record with its nonce, and the recorded start time |
| `SandboxDown.AwaitEnd` | src/cli_agent_orchestrator/sandbox_bootstrap.py:927-933 | the fifteen seconds of probes see the end of the process exactly when it comes no later than the last probe |
| `SandboxDown.StopProcess` | src/cli_agent_orchestrator/sandbox_bootstrap.py:925-935 | signals go only to the identified process; on a quiet host it raises exactly when the process was not there or ends unseen |
| `SandboxDown.StopServer` | src/cli_agent_orchestrator/sandbox_bootstrap.py:936-938 | the server killed is the one with the sentinel of the accepted instance, and then exactly its socket and pid record go |
| `SandboxDown.PurgeOwned` | src/cli_agent_orchestrator/sandbox_bootstrap.py:944-953 | the root is removed exactly when the owner lock names the manifest's nonce and the directory's current device and inode |
| `SandboxDown.CommandDown` | src/cli_agent_orchestrator/sandbox_bootstrap.py:920-955 | in every run the command locates one root, a real path of its argument, and each destructive call is justified for the sandbox at that root; on a quiet host a sandbox that is up, whatever files its server wrote below the root, is taken down if and only if its process does not end unseen, and otherwise only the process is gone |
| `SandboxDown.SomeGraceEndsUnseen` | src/cli_agent_orchestrator/sandbox_bootstrap.py:927-935 | however long the sleeps take, some time to obey SIGTERM falls in the gap before the SIGKILL |
| `SandboxDown.PurgeOfLateExit` | src/cli_agent_orchestrator/sandbox_bootstrap.py:925-935 | with sleeps of a tenth of a second and a process that takes 14.95 seconds to end, the purge fails and leaves tree and server in place |
| `SandboxDown.UpThenPurge` | src/cli_agent_orchestrator/sandbox_bootstrap.py:708-955 | `up` succeeds and leaks exactly as `CommandUp` says; after it, and whatever files the server wrote below the root, `down --purge` of that root passes every fence and restores tree, servers and other processes if and only if the process does not end unseen |
| `SourceMerkle.StreamIsInjective` | src/cli_agent_orchestrator/sandbox_bootstrap.py:181-190 | lists of NUL-free paths with 64-digit hashes and equal streams are equal |
| `SourceMerkle.SourceStream` | src/cli_agent_orchestrator/sandbox_bootstrap.py:162-190 | the digest loop feeds exactly the UTF-8 bytes of the records of the selected files, in sorted order |
| `SourceMerkle.ListingOrderIsLost` | src/cli_agent_orchestrator/sandbox_bootstrap.py:176-190 | any two listings of the same candidates hash the same bytes |
| `SourceMerkle.SameBytesSameFiles` | src/cli_agent_orchestrator/sandbox_bootstrap.py:176-190 | equal hashed bytes mean the same selected files with the same content hashes |
| `Utf8.EncodeIsInjective` | src/cli_agent_orchestrator/sandbox_bootstrap.py:187 | equal UTF-8 bytes come from equal paths |
| `EnvGuard.AllowlistBeatsPrefix` | tui/src/env_guard.rs:167-219 | each allowlisted key starts with a blocked prefix and is still kept with every value below the byte cap |
| `EnvGuard.KeptByLength` | tui/src/env_guard.rs:202-219 | the cap counts bytes: up to 511 characters always pass, 2048 never do |
| `EnvPairs.LastPairWins` | tui/src/guided_flow.rs:1063-1121 | the map holds for each key the value of its last pair and no other keys |
| `EnvPairs.ParseEnvPairs` | tui/src/guided_flow.rs:1063-1121 | the loop returns the error of the first wrong line, or the map of all pairs |
| `EnvPairs.PrintThenParse` | tui/src/guided_flow.rs:1063-1135 | printable pairs, repeated keys allowed, survive print and parse with the later pair winning |
| `EnvPairs.MapSurvivesExactly` | tui/src/guided_flow.rs:1063-1135 | a map survives print-then-parse if and only if its keys are valid and kept and no value holds a newline or ends in white space |
| `EnvPairs.ParsePrintParse` | tui/src/guided_flow.rs:1063-1135 | for every accepted text, printing the map and parsing again gives the same map |
| `EnvPairs.EmptyExactlyWhenBlank` | tui/src/guided_flow.rs:1063-1121 | accepted text yields the empty map exactly when it is blank |
| `GuidedForm.BuildFields` | tui/src/guided_flow.rs:980-995 | the loop over the guided steps builds the arranged fields of the command's parameters |
| `GuidedForm.ArrangedIsPermutation` | tui/src/guided_flow.rs:980-995 | the arrangement loses and invents no parameter |
| `GuidedForm.ArrangedInOrder` | tui/src/guided_flow.rs:980-995 | guided names come first in step order, the rest keep the catalog's order |
| `GuidedForm.RunsKeepGoodForm` | tui/src/guided_flow.rs:533-704 | over every run of selections, entries and picker updates, fields stay the arranged ones, stored text is trimmed and non-empty, and a stored map is non-empty with only valid kept pairs |
| `GuidedForm.RequestExactlyWhenOpen` | tui/src/guided_flow.rs:721-827 | `to_params` succeeds exactly when the command is launch and `can_run` holds; otherwise the missing field named is `--agents` |
| `GuidedForm.EntryReachesItsField` | tui/src/guided_flow.rs:617-827 | an entry changes exactly its own part of the request |
| `GuidedFlowLoop.GuidedFlow.SelectCommand` | tui/src/guided_flow.rs:533-541 | a refused selection changes nothing, an accepted one keeps the pickers and resets the fields |
| `GuidedFlowLoop.GuidedFlow.SetField` | tui/src/guided_flow.rs:617-704 | a refused entry changes nothing; an accepted one leaves a good form |
| `GuidedFlowLoop.GuidedFlow.DrainPickerUpdates` | tui/src/guided_flow.rs:914-925 | a drain applies exactly the queued answers and leaves the fields alone |
| `GuidedFlowLoop.PickerFeed.AtMostTwo` | tui/src/guided_flow.rs:866-973 | whatever the interleaving, at most one answer of each kind is delivered |
| `GuidedFlowLoop.Session` | tui/src/guided_flow.rs:866-944 | in every interleaving of threads, entries, drains and waits the form stays good and, once two answers are applied, the pickers hold exactly the two results |
| `GuidedFlowLoop.LaterListMayContradict` | tui/src/guided_flow.rs:672-704 | a stored name may become unloadable by a later list: it stays stored and cannot be entered again |
| `SkillTree.RemoveStale` | scripts/sync_skills.py:128-133 | exactly the mirror's files without a source counterpart go |
| `SkillTree.CopyAll` | scripts/sync_skills.py:134-138 | the copies succeed exactly when nothing blocks one of them, and then every source file is at its place and only folders above it are new |
| `SkillTree.Prune` | scripts/sync_skills.py:139-147 | exactly the folders below the mirror without a file below them go |
| `PathOrder.ParentIsLess` | scripts/sync_skills.py:139-147 | a parent precedes its descendants in path order, so reverse order visits children first |
| `SkillMirror.SyncOne` | scripts/sync_skills.py:110-149 | one skill is mirrored exactly when no conflict stands in the way, and nothing outside its mirror changes |
| `SkillMirror.DiffSkill` | scripts/sync_skills.py:67-88 | the checker reports exactly the missing, stale and differing files, and nothing exactly when in sync |
| `SkillMirror.MirroredIsInSync` | scripts/sync_skills.py:67-149 | what `sync` produces is what `check` accepts |
| `SkillMirror.MirrorHasNoEmptyFolder` | scripts/sync_skills.py:139-147 | every folder left below a mirror has a file below it |
| `SkillMirror.MirroredTwice` | scripts/sync_skills.py:110-149 | mirroring a mirrored tree changes nothing in the mirror |
| `SkillSync.Repository.Check` | scripts/sync_skills.py:91-107 | the verdict is 0 exactly when every skill is in sync |
| `SkillSync.Repository.Sync` | scripts/sync_skills.py:110-149 | 1 exactly when a source is missing, 0 exactly when nothing is in the way; on 0 all mirrors agree, and nothing outside the shipped mirrors changes |
| `SkillSync.Repository.SyncCheckSync` | scripts/sync_skills.py:91-149 | the first `sync` returns 0 exactly when the tree can be synchronised; then every mirror is regenerated and nothing else changed, `check` returns 0, a second `sync` leaves the tree as it is, and no mirror has an empty folder |
| `TurnWait.WaitForTurn` | examples/ops-mcp/run.py:143-174 | the polling loop returns the first deciding answer of any trace: ready with evidence, dead, failed, or time out |
| `TurnWait.DecisionIsUnique` | examples/ops-mcp/run.py:143-174 | a trace decides at one poll and in one way |
| `TurnWait.FinishedMeans` | examples/ops-mcp/run.py:143-174 | a normal return has a ready status, evidence of the turn, and no dead or failed answer before |
| `TurnWait.ReadyBaselineNeedsActivity` | examples/ops-mcp/run.py:288-305 | with a ready baseline and no size, a return means an active status was seen in this wait |
| `TurnWait.NoEvidenceTimesOut` | examples/ops-mcp/run.py:143-174 | with such a baseline, a terminal that only ever shows ready statuses is waited for until the deadline |
| `OpsLifecycle.RunLifecycle` | examples/ops-mcp/run.py:196-337 | the record of calls and answers is, with the status trace, that of a lifecycle, and it decides the report or the failure |
| `OpsLifecycle.IdentityIsShutDown` | examples/ops-mcp/run.py:253-314 | once a launch yields an identity, its session is shut down exactly once and afterwards, whatever fails |
| `OpsLifecycle.NoIdentityNoShutdown` | examples/ops-mcp/run.py:233-254 | without an identity nothing is shut down and nothing reported |
| `OpsLifecycle.ReportIsVerified` | examples/ops-mcp/run.py:196-337 | a report names the launched session and the text read; after the shutdown a lookup found it gone; with a follow-up an active status was seen after the message was sent |
| `OpsLifecycle.ReadIsReportedExactly` | examples/ops-mcp/run.py:177-193 | a run that read its output reports exactly when the lookup gave the canonical message or no object |
| `OpsLifecycle.ReportSteps` | examples/ops-mcp/run.py:212-325 | a report records every step in order |
| `OpsLifecycle.Conclude` | examples/ops-mcp/run.py:307-337 | cleanup happens after success and failure alike, and an earlier failure is not masked into a report |
| `ProviderCache.RunsAreSound` | src/cli_agent_orchestrator/bootstrap.py:511-545 | in every disciplined interleaving of locked read, store read and locked write, every cached provider is the live terminal's normalised one |
| `ProviderCache.AnswersAreUncached` | src/cli_agent_orchestrator/bootstrap.py:516-545 | a yes is always right, and with a readable store the answer is the uncached one |
| `ProviderCache.CachedExactly` | src/cli_agent_orchestrator/bootstrap.py:522-545 | after any history the cache holds exactly the ids written since they were last forgotten |
| `ProviderCache.InheritedExactly` | src/cli_agent_orchestrator/bootstrap.py:492-545 | after any history, however undisciplined: the next terminal with a missing one's id is answered rightly for life if and only if the id was not written since its last forget and no thread holds a provider for it; otherwise every successor with another provider can inherit what was left |
| `ProviderCache.StraddlingLookupIsInherited` | src/cli_agent_orchestrator/bootstrap.py:526-545 | a lookup straddling the forget is inherited by a terminal that reuses the id |
| `ProviderCache.LookupDuringTeardownIsInherited` | src/cli_agent_orchestrator/services/terminal_service.py:9024 | so is a lookup between the forget and the deletion of the row |
| `ProviderCache.ProviderAllowlist.Admit` | src/cli_agent_orchestrator/bootstrap.py:516-520 | with an agreeing cache the gate answers as without one; an unreadable store admits nobody |
| `BootWiring.Server.Start` | src/cli_agent_orchestrator/bootstrap.py:924-1163 | which tasks run, which runtime is kept and whether the projection is armed, for every set of failing steps |
| `BootWiring.Server.Shutdown` | src/cli_agent_orchestrator/bootstrap.py:1166-1204 | every held task is attempted once in order even if stops raise, and the projection goes before the producers |
| `BootWiring.OneLife` | src/cli_agent_orchestrator/bootstrap.py:924-1204 | in one boot and one shutdown the projection is armed without producers exactly when it was armed and the disarm failed; after a completed boot all tasks are attempted |
| `WheelTag.WheelBuild.DiscardNewBinaries` | scripts/hatch_build_tui_tag.py:165-194 | exactly the new binaries that can be deleted go |
| `WheelTag.WheelBuild.AutobuildBinary` | scripts/hatch_build_tui_tag.py:197-305 | a failed build whose files can be deleted leaves the staged set as it was |
| `WheelTag.WheelBuild.ResolveBuildData` | scripts/hatch_build_tui_tag.py:308-427 | a normal return tags `py3-none-<platform>`, platform not `any`, exactly when a binary is staged; the refusals are exact, and that of `any` leaves `pure_python` cleared |
| `WheelTag.PlatformSurvivesTheName` | scripts/assert_wheel_matrix.py:95-110 | the platform tag read from a wheel name built with the tag is the platform |
| `WheelTag.TaggedWheelIsNotAny` | scripts/hatch_build_tui_tag.py:415-427 | a wheel tagged by the build is never taken for an `any` wheel |
| `WheelTag.MatchesExactly` | scripts/assert_wheel_matrix.py:113-131 | a pattern with a star matches exactly the tags with something non-empty in its place |
| `WheelTag.AssertMatrix` | scripts/assert_wheel_matrix.py:134-192 | no problems are reported exactly for a good matrix |
| `Ico.PackIco` | scripts/build_favicon.py:48-58 | the loop over running offset, entries and payloads writes the specified file |
| `Ico.PayloadsTile` | scripts/build_favicon.py:48-58 | payloads follow the directory in order, without gap or overlap, to the end of the file |
| `Ico.ReadPacked` | scripts/build_favicon.py:48-58 | a reader recovers every image, with size 0 as 256; the images themselves exactly when none has size 0 |
| `SuiteLedger.ComputeTailRatio` | scripts/suite-ledger.py:44-54 | the ratio is the largest sum of any `k` tests over the total, between `k / n` and 1 for non-negative times |
| `SuiteLedger.TailRatioBounds` | scripts/suite-ledger.py:44-54 | every ratio so specified lies between `k / n` and 1 |
| `SuiteLedger.FirstAreLargest` | scripts/suite-ledger.py:48-53 | the first `k` of the sorted times sum to at least any other `k` of them |
| `SuiteLedger.MergeTimes` | scripts/suite-ledger.py:73-81 | merging one report keeps every test's time counted once, in its own file |
| `SuiteLedger.GenerateLedger` | scripts/suite-ledger.py:73-88 | over any reports the file times account for every test exactly once, and the ratio is that of all tests |

## Left out

- SandboxDown.CommandDown: on a quiet host probes and tmux calls take no time and only sleeps do, so the gap of a late exit begins at the last probe; pid reuse happens only on a host that is not quiet.
- SandboxUp.CommandUp: the verdicts of the free-space check and of the readiness wait are parameters, so the polling of the health endpoint is not modelled; `umask` and file modes are not either; tmux can be run throughout, so every tmux call ends with an exit status, where without tmux the exception handler would stop at `kill-server`.
- SandboxUp.Serve: a server writes below its root, but no symbolic link (a `grok_cli` terminal makes two in its private home), no file with several names, and nothing in the way of a fenced path, and it leaves its own manifest, owner lock and pid record; the processes it starts are not part of this model.
- SandboxDown.StopProcess: `killpg` acts on one process; other members of its group would let the SIGKILL succeed in the gap.
- SandboxDown.StopServer: the session names given to tmux with `-t` match exactly; tmux also accepts a prefix.
- HostMachine.Host.RemoveTree: on a host that is not quiet a removal that fails part-way is any change of the tree.
- TomlDocument.Loads: reads the fragment of TOML that the renderer prints (bare keys, tables, basic strings, decimal integers, booleans); arrays, floats, dates and the other string forms are refused.
- Validation.ValidateManifest: values are strings, integers, booleans and tables; a manifest with any other TOML value is outside the model.
- SkillMirror.SyncOne: a copy that fails part-way is only framed to the skill's own mirror; symbolic links and file modes are not in the tree.
- SuiteLedger.ComputeTailRatio: times are reals, so rounding of floats is not modelled.
- SourceMerkle.SourceStream: SHA-256 is any map from files to 64 hexadecimal digits, and git's listing is any list of paths.
- GuidedFlowLoop.Session: waits end by a delivered answer or at any time; real timeouts are not modelled.
- ProviderCache.RunsAreSound: the lock is modelled by atomic steps; Python's memory model is not.
- BootWiring.Server.Start: migration, stores, producers and tasks are steps that succeed or raise; what they do is not part of this model.
- `command_serve`, `command_status` and `_manifest_env`: they add no protocol of their own.
- The records at the root (`owner.lock`, the pid record, the database stamp) are their fields; JSON and SQLite are not part of this model.
- The catalog of commands: any list of parameters with distinct names, and the launch row as it is.
- Printing, argument parsing and log output.
- The projector, the delivery queue, the status guard table and the pane sampler: abstract steps where the boot calls them.
