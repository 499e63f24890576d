# Verification of the rollout agent and its publisher

This project models the part of the Yirang rollout system that decides what runs on a device, and proves
what it keeps. The parts, from the bottom up:

- `ProcessTable` - the operating system: a process table in which a pid stays taken until its process is
  reaped, start tokens, signals, and a machine that moves freely between two system calls.
- `ProcessSupervisor`, `SupervisorRuns` - the POSIX supervisor with its two caches, and any sequence of
  calls to it.
- `Storage`, `ReleaseInstaller` - the service root, every intermediate state of which is remembered, and
  the installer with its swap by two renames, its two pointers and its pruning.
- `HealthChecker` - the streak counters against the probe history, the network as a probe meets it, and the
  bound on readiness.
- `DeploymentEngine`, `EngineRuns` - `apply`, `recover`, `rollback_to`, `restart`, `start_active`, and the
  life of a device from boot on, with agents that die and come back.
- `Redelivery`, `VerifiedFiles`, `ConfigurationMerge`, `ArtifactStore`, `AgentService` - the command loop:
  retries, checked downloads, configuration updates, reports, and the store as a download meets it.
- `DeviceLife` - all of it together: a device between two boots, with agents that start, take over, carry out
  messages and die.
- `QueueConfig`, `FanOut`, `DownloadPayload` - the REST side: which queues a group means, the concurrent
  sends, and the payload of a download.
- `Paths`, `Records`, `Manifest`, `Json`, `Prelude` - the rules and records they share, and the clock.

Every operation of the disk, of the kernel and of the network may fail at any moment; failures are
choices the methods make, so what is proved holds for every pattern of them. Histories are ghost fields:
which processes were ever launched and from which files, how each of them ended, how many services were ever
alive at once, which signals reached whom, every state of the disk, which releases were ever activated, what
the supervisor, the network and the artifact store answered to every question, every look at the clock and
every pause, and how often each kind of call failed. Texts are byte strings, as they are in Go and C++: a
character of the model stands for one byte.

## Main results

- **One service process.** Whatever fails, `apply`, `rollback_to`, `restart`, `stop`, `start_active` and
  `running` keep the only service process in the table the one in `handle_`, and start none while one is
  alive (`Single` in the contracts of the engine, `EngineRuns.Live` for whole runs). When agents die, this
  holds over every run of careful turns (`EngineRuns.Careful`) or agents (`DeviceLife.CarefulAgent`), whatever
  else failed; a takeover after a command that succeeded is careful. A single takeover without a fault leaves
  one process **if and only if** the record named the one that ran (`DeploymentEngine.OneExactlyIfNamed`).
- **Outcome of apply.** `DeploymentEngine.Landed` gives the pointers for every result; on success the
  process, the record and the pointers name the new release; after a fallback they name the release
  before, whose files were never touched.
- **Publish is all or nothing** at every state the disk goes through (`ReleaseInstaller.Install`).
- **Readiness.** `await_ready` returns Ok if and only if a run of successes completes first in a trace that is,
  probe by probe, what the network answered or what the supervisor answered about the started process, and when;
  every one of these probes was made before the deadline and an interval or more after the one before. It does
  not give up early: what it did with the clock is one look before each probe and a pause of exactly one interval
  after each probe that did not decide, and a wait that timed out ends with a look after the deadline
  (`WaitTicks` in the contract of `AwaitReady`).
- **Nothing fails without a reason.** If no call failed during `apply`, `rollback_to`, `restart` or `start_active`
  (`MishapsOf`: no operation on the disk, no question about a file, no system call, no look at a start token or
  at the boot identity), then each failure has the reason its name tells (`Excused`, `Reason`): an executable
  that is not allowed, an id or a source that cannot be installed, a release that is not installed or has no
  executable, a state that cannot be read or names no release, a process found running at every look until all
  timeouts were over, a pid that a newcomer got, a wait for readiness that was carried through. The same holds for what the supervisor answers
  (`SupervisorRuns.Serve`), and for each command of the agent its failure is for good or for another delivery by
  its cause (`FailedAs` in the contract of `Handle`): a download exactly by what the store answered, entry by
  entry (`DownloadDecided`).
- **How processes ended.** `status` says Exited with a code, or Signaled with a signal, if and only if that very
  process was waited for and ended so (`Tells` in the contracts of `Status` and `Serve`).
- **Pointers.** They name distinct installed releases; `previous` is there exactly when two releases were
  ever activated, which over a whole life of the device are the ones its commands made active
  (`EngineRuns.Live`), unless `activate` or `prune` misread `state.json` in a way that does harm (`misled`).
- **Pruning** leaves the newest by the write times on disk (`ReleaseInstaller.NewestByDisk`).
- **Only checked files run.** Over every run of the agent, every file of every process ever launched has a
  digest that an entry of a download message of the run lists for that release and path, or is the file (or the
  temporary one next to it) that an update message of the run was aimed at in the release active when that
  message was dealt with, or was so before (`AgentService.Vetted`, in the contracts of `HandleAll` and, over all
  agents between two boots, of `DeviceLife.Live`). The one condition is that no release was applied from an
  unchecked version or over an unchecked stale file, and both are exact: what a failed discard leaves unchecked
  (`VerifiedFiles.DiscardedExactly`), and when a staging directory that stayed does harm
  (`VerifiedFiles.CheckedExactly`).
- **Signals.** Whatever handles are used, old ones too, every answer of a run is the supervisor's true answer
  about the handle that was meant, and every signal hit a process the supervisor started or adopted, or a
  newcomer on a pid adopted at that moment; on any other pid a stop signals only the process its handle was
  given out for **if and only if** no later start or adoption took the pid (`SupervisorRuns.OnlyItsOwn`).
- **Fan-out.** Over all interleavings: eight sends at most, one per target, no deadlock, six moves each, and each
  delivery tells of its own target and of what its own send was answered.
- **Redelivery** is bounded by five for uninterrupted deliveries, and by nothing for two messages that
  fail in turn.

## Where the code and its promises part

- README.md:201 calls `success_threshold` x `interval_ms` the shortest life of an accepted release; the
  code accepts after one interval less (`HealthChecker.SteadyTrace`, exact bound in `ReadinessBound`).
- An agent restart can lead to a second service process. If a takeover succeeds and looked without a fault,
  a service that ran alone and is still running is the only one exactly if the record named it: same boot,
  positive pid, nonzero token, and both those of the process. A start token that could not be read when the
  service was launched is recorded as 0, and such a record names nobody, so the next agent starts the release
  a second time (`EngineRuns.SecondService`). Likewise after a failed look during the takeover, and after a
  command to an agent whose `start_active` failed (YirangAgent/main.cpp goes on after such a failure).
- `exists()` on `state.json` answers "no" on an error as well, and then `state()` reads empty pointers. `prune`
  then protects no release: it removes the running one exactly if it is not among the newest `keep_previous`
  (`ReleaseInstaller.MisreadPruneRemoves`). And `activate` forgets the release that was active
  (`ReleaseInstaller.MisreadActivateForgets`). The results about pointers need only that neither happened.
- A handle outlives its process. When its pid was reaped and given to another child, or to a process that was
  adopted, `stop` through the old handle finds the pid running and signals that other process
  (`SupervisorRuns.StaleHandle` is such a run). The engine keeps only its last handle, so it never does this.
- When removing the staging directory fails, the install goes on over it. Whatever stayed of it, the installed
  tree is the downloaded one exactly if no stale file lies outside the version (`VerifiedFiles.SourceExactly`),
  and it is checked exactly if every such file is (`VerifiedFiles.CheckedExactly`); `VerifiedFiles.StaleExample`
  is an input where a file that nothing lists becomes part of the release.
- When discarding a failed download fails, the versions stay checked exactly if the one file whose download
  failed is gone or has a listed digest after all (`VerifiedFiles.DiscardedExactly`).
- The REST API does not look for NUL characters, and the device reads every text up to its first NUL. The
  device takes the release and the files the API was given exactly if there is none
  (`DownloadPayload.DeviceReadsAsSent`).
- A release whose publish and restore both failed stays under `.retired-`, where a later install sweeps it
  (`lost` in the engine's contracts).
- `rollback_to` checks only that a directory is there: for an internal name it stops the service and then
  always fails, and only such a name gives that failure (`NotActivated` with `BadReleaseId` in its contract).
- A refusal with an empty error text counts as a successful send (`FanOut.PublishedMeansAccepted`).
- Manifest sizes of 2^63 and more come back as 0 (`Manifest.ManifestRoundTrip`).
- Two messages that fail in turn are redelivered for ever (`Redelivery.TwoMessagesForever`).

## Model

| member | source | states |
|---|---|---|
| `EngineRuns.Live` | RolloutKit/Deploy/DeploymentEngine.cpp:40-402 | over any sequence of commands and failures there is never a second service process while one agent lives; nor with agents that die in between, if every takeover had a fitting record and no failed look, and no command that starts a process followed a failed start_active; a takeover after a success with a readable token is such a one; the activated releases are exactly those the commands made active, and the pointers account for them unless activate or prune was misled by a failed look at state.json |
| `EngineRuns.Replace` | YirangAgent/main.cpp:158-173 | a new agent whose predecessor left a record of its process either tracks that process or still can, unless a look failed during the takeover; after a success without a failed look the service that ran alone and still runs is the only one if and only if the record named it; without a failed call a failed takeover has its reason |
| `EngineRuns.Begin` | YirangAgent/main.cpp:150-157 | the next agent starts with an engine that holds nothing and knows only the files; the processes of the last one go to init |
| `EngineRuns.TakeTurn` | RolloutKit/Deploy/DeploymentEngine.cpp:40-402 | one command or agent restart keeps the engine in charge of the only service process if the turn is careful; the releases activated and lost are those its result says; after a success with a readable token the record fits; without a failed call a failure has its reason |
| `EngineRuns.SecondService` | RolloutKit/Deploy/DeploymentEngine.cpp:141-225 | if the start token of the service was never read, a takeover that succeeds while it still runs makes two |
| `EngineRuns.RecordedFits` | RolloutKit/Deploy/DeploymentEngine.cpp:383-401 | a record with a nonzero token that a start wrote is one the next agent can adopt |
| `EngineRuns.Perform` | RolloutKit/Deploy/DeploymentEngine.cpp:40-402 | a command other than a restart of the agent: which releases it activated and lost, and that its success leaves a record the next agent can use; without a failed call a failure has its reason |
| `EngineRuns.FitsIsCovered` | RolloutKit/Deploy/DeploymentEngine.cpp:478-513 | a record with the token of the tracked process is all a new agent needs to find every service process |
| `EngineRuns.CoveredOrphaned` | RolloutKit/Deploy/DeploymentEngine.cpp:173-225 | the record still names the service after the agent died and its children were handed to init |
| `DeploymentEngine.DeploymentEngine.Apply` | RolloutKit/Deploy/DeploymentEngine.cpp:40-97 | for every result: the pair of pointers, the release made active if any, no second process, each launch ran the whole new tree or an untouched release, releases whole or set aside on failure; success means a new process, the record and the pointers name the new release, found ready by the probes made last; a fallback runs the release before with its files as they were; a failure before the stop leaves the running process and the handle as they were, and a failed activation that reports a restart runs the active release; at most keep + 2 releases after a counted prune; the executable is refused exactly if it is no path that stays inside; an uncounted prune means that a call failed, and so does every failure whose reason was not there: an id or a source that cannot be installed, a process that outlived SIGKILL or whose pid a newcomer got, an unreadable state, a launch without its release or its executable, a wait that was carried through |
| `DeploymentEngine.DeploymentEngine.Attempt` | RolloutKit/Deploy/DeploymentEngine.cpp:40-90 | the same up to pruning, at every intermediate state of the disk, and which release is lost or found again; a failed install leaves the service alone; a failure during which no call failed has the reason its name tells, and a failed wait was carried through |
| `DeploymentEngine.DeploymentEngine.Switch` | RolloutKit/Deploy/DeploymentEngine.cpp:59-90 | from reading the state on, no release directory changes, the pointers end where Landed says, exactly the new release counts as activated, if activation was reached; an unreadable state leaves the service alone; a failure during which no call failed has the reason its name tells, and a failed wait was carried through |
| `DeploymentEngine.DeploymentEngine.Change` | RolloutKit/Deploy/DeploymentEngine.cpp:71-90 | the same from activation on; when activation fails and the old release was restarted, it runs and is recorded; a failure during which no call failed has the reason its name tells, and a failed wait was carried through |
| `DeploymentEngine.DeploymentEngine.Restore` | RolloutKit/Deploy/DeploymentEngine.cpp:72-77 | starts the active release again after a failed activation, or reports that it does not run |
| `DeploymentEngine.DeploymentEngine.Proceed` | RolloutKit/Deploy/DeploymentEngine.cpp:79-90 | launch, readiness and recovery of the release that was just activated: what runs in the end and where the pointers are; a failure during which no call failed has the reason its name tells, and a failed wait was carried through |
| `DeploymentEngine.DeploymentEngine.Place` | RolloutKit/Deploy/DeploymentEngine.cpp:53-57 | the install step keeps the pointers safe, names the release a doubly failed swap set aside, and takes it back once it is installed again |
| `DeploymentEngine.DeploymentEngine.Tidy` | RolloutKit/Deploy/DeploymentEngine.cpp:92-94 | pruning never touches the two pointed releases unless state.json was misread, the reported count is the number that went, and what went is no newer on disk than what stayed |
| `DeploymentEngine.DeploymentEngine.StopAndChange` | RolloutKit/Deploy/DeploymentEngine.cpp:65-90 | the part of apply from the stop on: a process that did not stop leaves everything as it was; otherwise the same as for the whole switch |
| `DeploymentEngine.Landed` | RolloutKit/Deploy/DeploymentEngine.cpp:575-598 | applying another release ends in (a,p), (r,a) or (a,r); re-applying the active one falls back to previous, never to itself |
| `DeploymentEngine.PrunedKeeps` | RolloutKit/Deploy/DeploymentEngine.cpp:92-94 | after success the new release and the one before are installed as published |
| `DeploymentEngine.PrunedCount` | RolloutKit/Install/ReleaseInstaller.cpp:411-454 | the returned number equals the removals and at most keep + 2 releases remain |
| `DeploymentEngine.PublishedDerived` | RolloutKit/Install/ReleaseInstaller.cpp:235-290 | no release ever holds a file that was neither in it before nor in the new tree |
| `DeploymentEngine.LaunchedByDirs` | RolloutKit/Deploy/DeploymentEngine.cpp:341-402 | every process started during an apply ran a whole tree, the new one or one installed before |
| `DeploymentEngine.DeploymentEngine.Recover` | RolloutKit/Deploy/DeploymentEngine.cpp:575-598 | stops the failed release before rolling back, and only a completed rollback reports one, with the old release running and recorded; with nothing to go back to nothing is left running; without a failed call a missing target means that no previous release is recorded or installed |
| `DeploymentEngine.DeploymentEngine.GoBack` | RolloutKit/Deploy/DeploymentEngine.cpp:583-597 | rollback and launch once nothing runs: the pointers are swapped exactly if a release is named in the result, and that release runs exactly if the recovery succeeded |
| `DeploymentEngine.DeploymentEngine.RollbackTo` | RolloutKit/Deploy/DeploymentEngine.cpp:99-139 | moves the pointers and starts the release, which then counts as activated, or leaves the state alone; a refused activation leaves the service stopped, and past the stop an id that is not valid is refused always, for that reason, and only such an id is; without a failed call it fails only for a release that is not installed or not valid, an unreadable state, a process that outlived SIGKILL or a launch that had to fail |
| `DeploymentEngine.DeploymentEngine.ActivateAndLaunch` | RolloutKit/Deploy/DeploymentEngine.cpp:124-138 | the same after the stop, failures and their reasons included |
| `DeploymentEngine.DeploymentEngine.StopAndActivate` | RolloutKit/Deploy/DeploymentEngine.cpp:118-138 | stop, activation and launch for a directory that is there, with the reason of every failure |
| `DeploymentEngine.DeploymentEngine.Enact` | RolloutKit/Deploy/DeploymentEngine.cpp:124-128 | activation on behalf of the engine: refused only if the id is not valid, the release not there or the state unreadable, unless a call failed |
| `DeploymentEngine.DeploymentEngine.Restart` | RolloutKit/Deploy/DeploymentEngine.cpp:292-339 | changes neither releases nor pointers; success means a new process of the active release runs, is recorded and was found ready by the probes made last; a failure during which no call failed has the reason its name tells, and a failed wait was carried through |
| `DeploymentEngine.DeploymentEngine.Relaunch` | RolloutKit/Deploy/DeploymentEngine.cpp:318-338 | the part of restart for a known active release |
| `DeploymentEngine.DeploymentEngine.StartActive` | RolloutKit/Deploy/DeploymentEngine.cpp:141-171 | from the record alone ends up tracking the only service process, or fails with the record intact, unless a look failed during the call; after a success a service that ran alone and still runs is the only one if and only if the record named it, and a record that could not be used always means a start; handle, record and active pointer then agree; without a failed call it fails only if the state or the executable is not in order, or the release is not there |
| `DeploymentEngine.LaunchedExactly` | RolloutKit/Deploy/DeploymentEngine.cpp:141-171 | a start beside a service that ran alone makes two, unless the record named that service |
| `DeploymentEngine.AdoptedExactly` | RolloutKit/Deploy/DeploymentEngine.cpp:199-207 | an adoption leaves one process, and then the record named it |
| `DeploymentEngine.DeploymentEngine.Resume` | RolloutKit/Deploy/DeploymentEngine.cpp:173-225 | keeps or regains track of the recorded process under every failure but a failed look during the call, and starts nothing; without a failed call it gives up only over a process that outlived SIGKILL |
| `DeploymentEngine.DeploymentEngine.TakeOver` | RolloutKit/Deploy/DeploymentEngine.cpp:199-224 | an adopted process of another release is stopped before anything is started |
| `DeploymentEngine.DeploymentEngine.Take` | RolloutKit/Deploy/DeploymentEngine.cpp:199-207 | adoption takes the recorded launch and no other process; a refused adoption without a fault means no service is left |
| `DeploymentEngine.TrackedAdopt` | RolloutKit/Deploy/DeploymentEngine.cpp:199-207 | the adopted process is the recorded one, so it is the only service there can be |
| `DeploymentEngine.GoneMeansIdle` | RolloutKit/Deploy/DeploymentEngine.cpp:200-205 | when nobody holds the recorded pid and token, no service is left |
| `DeploymentEngine.DeploymentEngine.Stop` | RolloutKit/Deploy/DeploymentEngine.cpp:227-243 | success and a failed removal of the record both mean the process is gone and the handle empty; a process that did not stop keeps its handle; signals go only to it; without a failed call it fails only if the process was found running at every look after SIGKILL until the stop timeout was over, or a pid was given to a newcomer |
| `DeploymentEngine.DeploymentEngine.StopProcess` | RolloutKit/Deploy/DeploymentEngine.cpp:234-238 | only the process of the handle is signalled and the handle stays; Ok means that it is gone |
| `DeploymentEngine.DeploymentEngine.Launch` | RolloutKit/Deploy/DeploymentEngine.cpp:341-402 | a new process from the release as installed, tracked if nothing ran before, and a second one if a service ran before and still runs; the two late failures leave it running and held but unrecorded; what runs is the configured executable from that release; without a failed call a launch fails only if the release or its executable is not there |
| `DeploymentEngine.DeploymentEngine.StartProcess` | RolloutKit/Deploy/DeploymentEngine.cpp:375-381 | one new service process at most, and none alive beside it if none was |
| `DeploymentEngine.DeploymentEngine.RecordProcess` | RolloutKit/Deploy/DeploymentEngine.cpp:383-401 | what is written names the launch, so the record stays honest |
| `DeploymentEngine.DeploymentEngine.Record` | RolloutKit/Deploy/DeploymentEngine.cpp:406-476 | reads the record back exactly; a corrupt one is dropped, which is the only change |
| `DeploymentEngine.DeploymentEngine.ReadRecord` | RolloutKit/Deploy/DeploymentEngine.cpp:173-184 | a record that cannot be used means no service is left, unless a look failed meanwhile |
| `DeploymentEngine.DeploymentEngine.WriteRecord` | RolloutKit/Deploy/DeploymentEngine.cpp:478-513 | replaces the record at once or not at all |
| `DeploymentEngine.DeploymentEngine.AwaitReady` | RolloutKit/Deploy/DeploymentEngine.cpp:542-573 | the trace is exactly what the network, or the supervisor about the started process, answered during the call, with the moments of these probes; Ok if and only if a run of successes completes in it before a run of failures, among the probes started in time; it returns no sooner than (N-1) intervals after the first of them; the clock was asked before every probe and after the last one of a wait that timed out, every look before the deadline was followed by a probe, and every probe that did not decide by a pause of exactly one interval: the log of the clock is that and nothing else |
| `DeploymentEngine.DeploymentEngine.ProbeOnce` | RolloutKit/Deploy/DeploymentEngine.cpp:558-566 | asks once, now, adds that answer and this moment to the trace, and it decides readiness exactly when it completes the first run to reach a threshold; a process that was found running is in the table |
| `DeploymentEngine.DeploymentEngine.WaitedJustNow` | RolloutKit/Deploy/DeploymentEngine.cpp:548-573 | a wait that failed is in the logs of the supervisor, the network and the clock: a run of failures was completed, or the deadline had come |
| `DeploymentEngine.DeploymentEngine.Probe` | RolloutKit/Deploy/DeploymentEngine.cpp:527-540 | a network probe is what the network answered at this moment; a process probe is what the supervisor answered about the held process, and succeeds only while that process is in the table |
| `DeploymentEngine.DeploymentEngine.Judge` | RolloutKit/Deploy/DeploymentEngine.cpp:558-566 | one more outcome makes the verdict exactly when it completes the first run to reach a threshold |
| `DeploymentEngine.LoggedNext` | RolloutKit/Deploy/DeploymentEngine.cpp:527-566 | one more question and its answer make the trace one longer, in the same order |
| `HealthChecker.Network.Probe` | RolloutKit/Health/NetworkProbe.cpp:1-131 | answers freely, and every answer is remembered with its moment |
| `DeploymentEngine.DeploymentEngine.Running` | RolloutKit/Deploy/DeploymentEngine.cpp:28-38 | true only while the held process is in the table; it is the answer of one question to the supervisor, and true exactly if that answer is Running |
| `DeploymentEngine.DeploymentEngine.ActiveReleaseDirectory` | RolloutKit/Deploy/DeploymentEngine.cpp:271-290 | names the active pointer, which is a valid release id; it fails only for an unreadable state, or without an active release |
| `DeploymentEngine.DeploymentEngine.ExecutableAllowed` | RolloutKit/Deploy/DeploymentEngine.cpp:245-269 | accepts exactly the relative paths no prefix of which climbs out of the release |
| `ReleaseInstaller.ReleaseInstaller.Install` | RolloutKit/Install/ReleaseInstaller.cpp:96-208 | at every state of the disk the release is the old tree, the new tree, or absent with the old one set aside; Ok means the new tree, Err the old one unless both renames failed; the new tree is the source over what a failed removal of the staging directory left; after an Ok without a failed removal or listing nothing is left set aside; without a failed call it fails exactly for a service root that is not configured, an id that is not valid, or a source that is missing or cannot be copied |
| `ReleaseInstaller.ReleaseInstaller.PublishStaging` | RolloutKit/Install/ReleaseInstaller.cpp:235-290 | the swap by two renames, with the same guarantee |
| `ReleaseInstaller.ReleaseInstaller.Swing` | RolloutKit/Install/ReleaseInstaller.cpp:260-277 | the second rename and the way back: the new tree, or the old one, or stranded |
| `ReleaseInstaller.ReleaseInstaller.SetAside` | RolloutKit/Install/ReleaseInstaller.cpp:245-258 | the old tree is moved whole or not at all |
| `ReleaseInstaller.ReleaseInstaller.ClearRetired` | RolloutKit/Install/ReleaseInstaller.cpp:279-287 | cleaning up after the swap does not touch the release; the old tree keeps its name only if two calls failed, or other retired names were there |
| `ReleaseInstaller.ReleaseInstaller.SweepRetired` | RolloutKit/Install/ReleaseInstaller.cpp:210-233 | removes retired directories only, and all of them unless a removal or the listing failed |
| `ReleaseInstaller.ReleaseInstaller.CopyFiles` | RolloutKit/Install/ReleaseInstaller.cpp:131-197 | success means staging holds every source file over what was there; copying nothing fails; without a failed call it fails only for a source that cannot be copied |
| `ReleaseInstaller.SwapFromStaged` | RolloutKit/Install/ReleaseInstaller.cpp:117-199 | staging does not count: the swap is seen from before it |
| `ReleaseInstaller.RestoreIsSwap` | RolloutKit/Install/ReleaseInstaller.cpp:265-276 | putting the old tree back restores the release |
| `ReleaseInstaller.SafeAfterSwap` | RolloutKit/Install/ReleaseInstaller.cpp:235-290 | an install endangers a pointer only when both renames failed |
| `ReleaseInstaller.ReleaseInstaller.Activate` | RolloutKit/Install/ReleaseInstaller.cpp:292-326 | the pointers become (id, active), or (id, previous) for the active id; they stay distinct, valid and installed, unless state.json was misread while another release was active, which is counted; an id that is not valid is always refused for that reason, one that is not installed only for it or after a failed look, and without a failed look an installed id is never called uninstalled |
| `ReleaseInstaller.ActivateKeepsPointersSound` | RolloutKit/Install/ReleaseInstaller.cpp:312-315 | previous is nonempty exactly when two distinct ids were ever activated |
| `ReleaseInstaller.ReleaseInstaller.Rollback` | RolloutKit/Install/ReleaseInstaller.cpp:328-363 | swaps the pointers; the no-longer-installed branch is taken only for a release a failed swap lost; no previous release means no two ids were ever activated; each error has its own cause: an empty previous id, a previous release that is not there, a state that cannot be read, or a failed call |
| `ReleaseInstaller.ReleaseInstaller.State` | RolloutKit/Install/ReleaseInstaller.cpp:456-506 | reads the pointers on disk, or empty ones when asking for the file failed; it fails only if the file cannot be read or is no state |
| `ReleaseInstaller.ReleaseInstaller.WriteState` | RolloutKit/Install/ReleaseInstaller.cpp:508-548 | replaces the pointers at once or not at all, and the latter only if a call failed |
| `ReleaseInstaller.ReleaseInstaller.Prune` | RolloutKit/Install/ReleaseInstaller.cpp:411-454 | removes the victims and returns how many; active and previous are never touched, not even while it runs, unless state.json was misread, and then the pointers it goes by are empty; what went is no newer on disk than what stayed, unless a look failed; it fails only if the state cannot be read or a call failed |
| `ReleaseInstaller.MisreadPruneRemoves` | RolloutKit/Install/ReleaseInstaller.cpp:413-450 | with state.json misread, prune removes the active release if and only if it is not among the newest keep |
| `ReleaseInstaller.MisreadActivateForgets` | RolloutKit/Install/ReleaseInstaller.cpp:292-326 | with state.json misread, activate leaves sound pointers if and only if none was active, or the active one alone was ever activated and is activated again |
| `ReleaseInstaller.ReleaseInstaller.PruneListed` | RolloutKit/Install/ReleaseInstaller.cpp:430-453 | the loop computes exactly the victims |
| `ReleaseInstaller.PruneKeepsTheNewest` | RolloutKit/Install/ReleaseInstaller.cpp:425-451 | the survivors that no pointer protects number min(keep, their count) and each is at least as new as every victim; at most keep + 2 remain |
| `ReleaseInstaller.NewestByDisk` | RolloutKit/Install/ReleaseInstaller.cpp:380-451 | every release that went was written no later than every release that stayed, but for the two the pointers name |
| `ReleaseInstaller.SortedTimes` | RolloutKit/Install/ReleaseInstaller.cpp:399 | sorting keeps each release with its own write time |
| `ReleaseInstaller.ReleaseInstaller.Installed` | RolloutKit/Install/ReleaseInstaller.cpp:365-409 | every release once, newest first by the write times on disk unless one could not be read, internal names left out; it fails only if listing does |
| `ReleaseInstaller.SortedLists` | RolloutKit/Install/ReleaseInstaller.cpp:399-406 | sorting loses and repeats no release |
| `ReleaseInstaller.SafeUnlessLost` | RolloutKit/Install/ReleaseInstaller.cpp:411-454 | whatever pointers it went by, pruning keeps the pointers safe unless it takes from a release they name |
| `ProcessSupervisor.PosixProcessSupervisor.Stop` | RolloutKit/Process/PosixProcessSupervisor.cpp:242-301 | whatever handle it is given, signals go to that pid only and reach the process that runs there, or one born later if it was no unreaped child; none goes to a pid that is not tracked or known to be over; SIGKILL is sent no sooner than the timeout after the call and after its SIGTERM, and when it hits the process that was to be stopped a SIGTERM hit it before; Ok through a handle that still fits means the tracked process has left the table; a SIGKILL comes only after looks every 20 ms, each followed by a question that found the process running, until the timeout was over; without a failed call a stop fails only for a pid that is not positive, one that was given to a newcomer, or an adopted process that was found running until the timeout after the SIGKILL was over as well |
| `ProcessSupervisor.ChildIsAskedFirst` | RolloutKit/Process/PosixProcessSupervisor.cpp:262-287 | an unreaped child is never hit by a signal of a stop before a SIGTERM |
| `ProcessSupervisor.PosixProcessSupervisor.Terminate` | RolloutKit/Process/PosixProcessSupervisor.cpp:262-300 | SIGTERM, the wait and SIGKILL for a process just seen running: the SIGKILL was sent the timeout or more after the SIGTERM, and after looks every 20 ms that found the process running all that time |
| `ProcessSupervisor.PosixProcessSupervisor.AwaitEnd` | RolloutKit/Process/PosixProcessSupervisor.cpp:267-282 | asks every 20 ms until the process is over, a question fails or the deadline has come; giving up means that every look before it was followed by a question which found the process running |
| `ProcessSupervisor.PosixProcessSupervisor.ForceEnd` | RolloutKit/Process/PosixProcessSupervisor.cpp:284-300 | one SIGKILL, sent now, and the wait for the end; without a failed call it fails only for an adopted process that was found running until the timeout was over |
| `ProcessSupervisor.PosixProcessSupervisor.Status` | RolloutKit/Process/PosixProcessSupervisor.cpp:303-348 | a cached answer comes back as it is; Running means the process is in the table, and for a process that is no child that its token matches; every question, its answer and its moment are remembered; a child that was waited for is Exited with a code if and only if it ended with that code, and Signaled with a signal if and only if that signal ended it; a process nobody waited for has neither |
| `ProcessSupervisor.PosixProcessSupervisor.AdoptedStatus` | RolloutKit/Process/PosixProcessSupervisor.cpp:357-412 | the same for an adopted process; how it ended is told only if the supervisor waited for it, and then as it was |
| `ProcessSupervisor.PosixProcessSupervisor.Start` | RolloutKit/Process/PosixProcessSupervisor.cpp:108-205 | one new child, both caches forget its pid; it fails exactly for an empty path or if a call failed |
| `ProcessSupervisor.PosixProcessSupervisor.Adopt` | RolloutKit/Process/PosixProcessSupervisor.cpp:207-240 | Ok means the process with that pid and token existed; a refusal without a fault means no such process is left |
| `ProcessSupervisor.PosixProcessSupervisor.Settle` | RolloutKit/Process/PosixProcessSupervisor.cpp:414-434 | Ok means the adopted process has left the table; without a failed call it gives up only after looks every 20 ms that found the process running until the timeout was over |
| `ProcessSupervisor.PosixProcessSupervisor.AskAgain` | RolloutKit/Process/PosixProcessSupervisor.cpp:419-428 | one more look: an error needs a failed call, an end means that the process has left the table |
| `ProcessSupervisor.PosixProcessSupervisor.Reap` | RolloutKit/Process/PosixProcessSupervisor.cpp:436-465 | Ok caches the final status of a process that has left the table: Exited or Signaled, with the code or the signal the process ended with |
| `ProcessSupervisor.CoherentStart` | RolloutKit/Process/PosixProcessSupervisor.cpp:198-202 | the caches stay disjoint and right about every pid when a child is started on a reused pid |
| `ProcessSupervisor.CoherentAdopt` | RolloutKit/Process/PosixProcessSupervisor.cpp:235-237 | the same for an adoption |
| `ProcessSupervisor.AimedSignal` | RolloutKit/Process/PosixProcessSupervisor.cpp:262-287 | a signal sent after the process was seen reaches it or a newcomer, and a child only itself |
| `SupervisorRuns.Serve` | RolloutKit/Process/PosixProcessSupervisor.cpp:207-465 | over any sequence of calls through any handles ever given out: every status is the true answer of the supervisor about the handle that was meant; every start and adoption gives out a handle for the process it started or found; an Exited or Signaled answer stays until the pid is started or adopted again; every signal comes from a stop and hit the process its handle was given out for, or a newcomer on a pid whose last handle came from an adoption, unless a later start or adoption gave the pid away, and then somebody else whom the supervisor started or adopted; Exited tells the code and Signaled the signal with which that very process ended, and Unknown a process nobody waited for; every error had its cause |
| `SupervisorRuns.OnlyItsOwn` | RolloutKit/Process/PosixProcessSupervisor.cpp:242-287 | unless the pid is an adopted one at that moment, a stop that signals reaches only the process its handle was given out for if and only if no later start or adoption gave the pid to another process |
| `SupervisorRuns.OneHit` | RolloutKit/Process/PosixProcessSupervisor.cpp:262-287 | whom one signal reached, from what the handles given out so far say |
| `SupervisorRuns.StaleHandle` | RolloutKit/Process/PosixProcessSupervisor.cpp:198-262 | a run in which a stop through an old handle signals a child started later on the same pid |
| `SupervisorRuns.RememberNext` | RolloutKit/Process/PosixProcessSupervisor.cpp:310-317 | an answer of the past binds all later ones |
| `ProcessTable.SecondInstance` | RolloutKit/Deploy/DeploymentEngine.cpp:375-381 | starting a service while one runs makes two |
| `ProcessTable.BornPeak` | RolloutKit/Deploy/DeploymentEngine.cpp:375-381 | starting one while none is there does not |
| `ProcessTable.GoneForever` | RolloutKit/Process/PosixProcessSupervisor.cpp:436-465 | a process that left the table does not come back under its pid |
| `HealthChecker.HealthChecker.Evaluate` | RolloutKit/Health/HealthChecker.cpp:19-60 | the counters are the trailing runs of the history, and the state belongs to the last run that reached its threshold |
| `HealthChecker.HealthChecker.Reset` | RolloutKit/Health/HealthChecker.cpp:72-78 | starts an empty history |
| `HealthChecker.DecidesNext` | RolloutKit/Health/HealthChecker.cpp:42-57 | one more outcome decides anew exactly when it completes a run |
| `HealthChecker.DecidesOne` | RolloutKit/Health/HealthChecker.cpp:19-60 | a history decides one state only |
| `HealthChecker.FirstDecision` | RolloutKit/Deploy/DeploymentEngine.cpp:556-569 | the first run to reach its threshold makes the verdict |
| `HealthChecker.ApartAtLeast` | RolloutKit/Deploy/DeploymentEngine.cpp:568 | probes are at least the interval apart |
| `HealthChecker.ReadinessBound` | RolloutKit/Deploy/DeploymentEngine.cpp:555-572 | a release can be found ready if and only if (N-1) intervals are shorter than the startup timeout |
| `HealthChecker.SteadyTrace` | README.md:201 | a service that answers at once is accepted after (N-1) intervals, not N |
| `AgentService.AgentService.HandleAll` | YirangAgent/AgentService.cpp:257-322 | over any messages: no message comes back five times in a row; with a result queue every delivery gets one report that says whether it succeeded; every new listing is an entry of a download message of the run, every rewritten file one that an update message of the run was aimed at in the release that was active when that very message was done, every activated release one that an apply or rollback message named, every lost one one that an apply message named; so unless a release was applied from unchecked files, each file of each process ever launched was listed or written by these messages, or checked before; and that needs a failed discard or a staging directory that stayed |
| `DeviceLife.Live` | YirangAgent/main.cpp:150-196 | over all agents between two boots: every file of every process was listed or written by their messages or checked before, unless unchecked files were applied; no second service process with one agent or with careful ones, and every takeover was without a failed look if no look failed in all that time; the activated releases were named by apply and rollback messages and the pointers account for them, up to releases that apply messages lost, unless activate or prune was misled, which needs a failed look at state.json |
| `DeviceLife.NextAgent` | YirangAgent/main.cpp:150-196 | one agent: it takes over from the files alone, carries out its messages, and leaves the device as the story says; without a failed call a failed takeover has its reason |
| `DeviceLife.Handover` | YirangAgent/main.cpp:150-173 | the takeover of one agent keeps what was checked, and fails without a failed call only for its reason |
| `DeviceLife.FromRunJoin` | YirangAgent/AgentService.cpp:257-322 | what came from the messages of one agent or the next came from all of them, each at its own moment |
| `AgentService.AgentService.Handle` | YirangAgent/AgentService.cpp:257-345 | exactly one report if there is a destination; the outcome alone decides, whatever the last message left in the permanent flag; success means the command of an accepted message was carried out, and a message that is not for this device changes nothing; listings come only from the entries of this download, rewritten files only from this update; whether a failure comes back follows from what was wrong: for a download from what the store answered, for the other commands from the message and the failed calls |
| `AgentService.AgentService.Settle` | YirangAgent/AgentService.cpp:297-321 | the counter equals the trailing block of failures modulo five and stays below five |
| `AgentService.AgentService.RecordFailure` | YirangAgent/AgentService.cpp:238-249 | counts failures of one message in a row |
| `AgentService.AgentService.SendReport` | YirangAgent/AgentService.cpp:324-345 | without a publisher or any destination nothing is sent; otherwise one report goes to the reply queue of the message if it names one, else to the result queue |
| `AgentService.AgentService.Dispatch` | YirangAgent/AgentService.cpp:206-213 | the success of each command means that its version was downloaded, applied, rolled back to, its file edited, the service restarted or the version root emptied; versions, processes and releases change only by the commands whose business they are; listings and rewritten files grow only as the message says; the one service process stays the only one; a failure is permanent or not by its cause, and a report tells of its own command |
| `AgentService.AgentService.CarryOut` | YirangAgent/AgentService.cpp:206-213 | the same without resetting the permanent flag, which is reset before |
| `AgentService.AgentService.Deploy` | YirangAgent/AgentService.cpp:207-212 | the three commands about the service process: what their success means, which releases they activated or lost, and when unchecked files were applied; failures are permanent exactly as the command says, and have their reasons |
| `AgentService.AgentService.ChangeVersions` | YirangAgent/AgentService.cpp:206-212 | the two commands about the downloaded versions |
| `AgentService.AgentService.TellOrReboot` | YirangAgent/AgentService.cpp:518-752 | the two commands that ask the system: a status that cannot be told may come back, a refused reboot does not, and the system is asked once |
| `AgentService.AgentService.Refuse` | YirangAgent/AgentService.cpp:257-288 | a message that is not for this device gets its report and never comes back |
| `AgentService.NamedNext` | YirangAgent/AgentService.cpp:257-322 | releases activated or lost were named by a message so far or by this one |
| `AgentService.FromRunNext` | YirangAgent/AgentService.cpp:257-322 | what came from the messages so far or from this one, in the state after it, came from the run |
| `AgentService.CheckedIsVetted` | YirangAgent/AgentService.cpp:352-456 | a checked file whose listing came from the run was vetted by a message of the run |
| `Redelivery.NeverFiveInARow` | YirangAgent/AgentService.cpp:312-319 | five deliveries of one message in a row are never all handed back |
| `Redelivery.TwoMessagesForever` | YirangAgent/AgentService.cpp:240-244 | two messages failing in turn are handed back for any number of deliveries |
| `AgentService.AgentService.DownloadVersion` | YirangAgent/AgentService.cpp:352-456 | success means every listed file is there with a digest the message lists for it; after a failure there is no version directory, or its removal failed, and the versions stay checked if and only if the one suspect file is gone or listed; a failure is for good exactly in these cases: no store or version root, a payload that is no download, or a first entry that fails because it is not let through, because the store said that the artifact does not exist, or because its digest differs; it is transient exactly if the directory could not be made, or the first failing entry was not fetched and the store did not say so, or the file could not be read |
| `AgentService.AgentService.DownloadInto` | YirangAgent/AgentService.cpp:386-456 | the same from creating the directory to the guard; the suspect is a file the message names; which entry failed first, and how, decides whether the failure is for good |
| `AgentService.AgentService.Fill` | YirangAgent/AgentService.cpp:395-456 | the same once the directory is there: it ends with every listed file, or gone, or its removal failed; the same decision |
| `AgentService.AgentService.Discard` | YirangAgent/AgentService.cpp:163-180 | whatever the guard leaves behind, the versions stay checked if and only if the suspect file is gone or listed, and only the other case counts |
| `AgentService.AgentService.Fetch` | YirangAgent/AgentService.cpp:397-448 | files fetched so far are checked, in any order and with repeated paths; after a failure all but the one named by the failing entry are; the entries are those of the message, in order, up to the first that fails |
| `AgentService.AgentService.FetchEntry` | YirangAgent/AgentService.cpp:399-447 | an entry succeeds only with the listed digest; a failure touches at most the file the entry names; the store is asked for the key of that release and path, then, if the download failed, whether the artifact exists; the failure is for good exactly if the entry is not let through, the store said that it is absent, or the digest differs |
| `AgentService.AgentService.FetchListed` | YirangAgent/AgentService.cpp:418-447 | the same for an entry that was let through |
| `AgentService.OneStepMore` | YirangAgent/AgentService.cpp:397-448 | one more entry, and what the store said about it, makes the account of the download one longer |
| `ArtifactStore.Store.Download` | YirangAgent/AgentService.cpp:426-427 | may fail and leave anything in the file it was to write, and in no other; what was asked and answered is remembered |
| `ArtifactStore.Store.Exists` | YirangAgent/AgentService.cpp:429-433 | says yes, no or nothing, and the answer is remembered |
| `AgentService.AgentService.ApplyVersion` | YirangAgent/AgentService.cpp:581-618 | success means a new process was launched from exactly the files of the downloaded version, unless a staging directory with stale files stayed, and was found ready; only then, or from an unchecked version, can unchecked files be applied; it fails for good exactly if something is missing in the configuration or the payload, the version is not there, or the engine failed; an engine failure has its reason |
| `AgentService.AgentService.RollbackVersion` | YirangAgent/AgentService.cpp:620-649 | success means the release runs and is recorded; every failure is permanent, and without a failed call has its reason |
| `AgentService.AgentService.UpdateConfiguration` | YirangAgent/AgentService.cpp:651-714 | the file becomes the overlay of its old document, nothing else changes; on failure at most the temporary file differs; on success and failure only the file and its temporary one in the active release count as rewritten; it fails for good exactly if the engine, the payload, the active release or the file is not in order, and may come back exactly if the file could not be replaced |
| `AgentService.AgentService.UpdateActive` | YirangAgent/AgentService.cpp:682-713 | the same from finding the active release on, with the same decision on failures |
| `AgentService.AgentService.EditFile` | YirangAgent/AgentService.cpp:696-708 | reads, merges and replaces the file at once; success or not, at most the file and its temporary one count as rewritten; a file that is no JSON object is never touched |
| `AgentService.AgentService.RestartService` | YirangAgent/AgentService.cpp:716-733 | success means a new process of the active release runs, is recorded and was found ready; checked files only are run and every failure is permanent; without a failed call a failure has its reason |
| `AgentService.AgentService.CleanOldVersion` | YirangAgent/AgentService.cpp:458-516 | only removes; it fails for good exactly if no version root is configured, or it is there and the same as the service root, and then removes nothing; a root that is not there is success and nothing is removed; otherwise success empties it, and a failure is transient and means that a call failed |
| `AgentService.AgentService.CurrentStatus` | YirangAgent/AgentService.cpp:518-579 | asks once and fails exactly if it was refused, never for good |
| `AgentService.AgentService.RebootDevice` | YirangAgent/AgentService.cpp:735-752 | succeeds exactly if the system control is there and takes the request; every failure is for good |
| `VerifiedFiles.CheckedAfterApply` | RolloutKit/Install/ReleaseInstaller.cpp:131-199 | installing and starting a checked version keeps every release and process checked |
| `VerifiedFiles.CheckedAfterEdit` | YirangAgent/AgentService.cpp:704 | a configuration update leaves all other files checked |
| `VerifiedFiles.NothingOver` | RolloutKit/Install/ReleaseInstaller.cpp:115-123 | without a failed removal of the staging directory the installed tree is the downloaded one |
| `VerifiedFiles.SourceExactly` | RolloutKit/Install/ReleaseInstaller.cpp:115-199 | with a staging directory that could not be removed, the installed tree is the source if and only if no stale file lies outside it |
| `VerifiedFiles.CheckedExactly` | RolloutKit/Install/ReleaseInstaller.cpp:115-199 | and it is checked if and only if every stale file outside the source is |
| `VerifiedFiles.StaleExample` | RolloutKit/Install/ReleaseInstaller.cpp:115-199 | an input where a stale file that nothing lists becomes part of the release |
| `VerifiedFiles.DiscardedExactly` | YirangAgent/AgentService.cpp:168-177 | after a failed download, however much of the directory its removal leaves, the versions are checked if and only if the file whose download failed is gone or has a listed digest |
| `ConfigurationMerge.MergeObject` | YirangAgent/AgentService.cpp:81-106 | the loop computes the deep overlay and counts the paths it writes |
| `ConfigurationMerge.OverlayByPath` | YirangAgent/AgentService.cpp:81-106 | leaves of the changes win, everything they do not shadow keeps its value |
| `ConfigurationMerge.OnlyChanges` | YirangAgent/AgentService.cpp:85-101 | members no change names stay |
| `ConfigurationMerge.NoEditsIffUnchanged` | YirangAgent/AgentService.cpp:96-102 | the count is 0 exactly when the document is unchanged |
| `ConfigurationMerge.MergeTwiceIsMergeOnce` | YirangAgent/AgentService.cpp:81-106 | merging twice is merging once, and the second time counts 0 |
| `ConfigurationMerge.RfcMergeIffNullFree` | YirangAgent/AgentService.cpp:81-106 | equals section 2 of RFC 7396 exactly for changes without null |
| `ConfigurationMerge.PatchDropsNulls` | YirangAgent/AgentService.cpp:101 | where RFC 7396 deletes, the merge stores null |
| `FanOut.EverySchedule` | RestAPI/internal/service/deploy.go:174-196 | whatever the interleaving: at most six moves a target, stuck only when the wait is over, then one send a target, and deliveries[i] has the name and the URL of target i, the message id of an accepted send without an error, or the error of a refused one without an id |
| `FanOut.NoDeadlock` | RestAPI/internal/service/deploy.go:177-196 | a state in which no goroutine can move is the final one |
| `FanOut.MayPass` | RestAPI/internal/service/deploy.go:175-181 | a goroutine that waits may send if and only if fewer than min(8, n) are past the semaphore |
| `FanOut.MoveDescends` | RestAPI/internal/service/deploy.go:177-196 | every move brings the end nearer |
| `FanOut.FewInFlight` | RestAPI/internal/service/deploy.go:175 | at most min(8, n) sends are in flight |
| `FanOut.MoveInvariant` | RestAPI/internal/service/deploy.go:179-194 | the semaphore and the wait group count what they should at every step |
| `FanOut.Summarize` | RestAPI/internal/service/deploy.go:198-211 | counts the clean deliveries, fails exactly when there is none |
| `FanOut.PublishedMeansAccepted` | RestAPI/internal/service/deploy.go:187-209 | the count is the number of accepted sends if and only if no refusal has an empty text |
| `FanOut.EachUrlOnce` | RestAPI/internal/service/deploy.go:158-196 | in a valid configuration each queue of the group gets the command exactly once |
| `QueueConfig.Validate` | RestAPI/internal/config/config.go:95-138 | accepts exactly the well-formed configurations and reports the first queue out of order |
| `QueueConfig.CheckQueues` | RestAPI/internal/config/config.go:106-123 | names and URLs are pairwise distinct and nonempty |
| `QueueConfig.QueuesForGroup` | RestAPI/internal/config/config.go:140-152 | the queues of the group, all of them, in their order; the empty group means all |
| `QueueConfig.TargetsAreDistinct` | RestAPI/internal/config/config.go:115-129 | targets have URLs of their own, none the result queue |
| `DownloadPayload.BuildPayload` | RestAPI/internal/service/deploy.go:80-105 | accepts exactly what has keys and digests in order, and lower-cases the digests |
| `DownloadPayload.DeviceTakesPayload` | YirangAgent/AgentService.cpp:364-422 | the device reads every text of such a payload up to its first NUL and then refuses it only for what is left: an id that is empty or a dot name, a path that is empty or has a parent segment |
| `DownloadPayload.DeviceReadsAsSent` | YirangAgent/AgentService.cpp:364-422 | release and files are read as the API was given them if and only if no text holds a NUL |
| `DownloadPayload.DeviceTakesUpdate` | YirangAgent/AgentService.cpp:651-680 | the device takes a configuration update the API let through unless its path, cut at its first NUL, is refused |
| `DownloadPayload.DeviceTakesRelease` | YirangAgent/AgentService.cpp:581-649 | the release a command names is the id it was given, up to a NUL, if that is an id |
| `DownloadPayload.NulShows` | YirangAgent/AgentService.cpp:405-415 | a NUL in an accepted path always changes the file it leads to |
| `DownloadPayload.CaseDoesNotMatter` | YirangAgent/AgentService.cpp:444 | comparing with the lower-cased text is comparing digests, 32 bytes of them |
| `DownloadPayload.HexRoundTrip` | RolloutKit/Release/ReleaseManifest.cpp:23-36 | hexadecimal text decodes and encodes to itself in lower case |
| `DownloadPayload.ToHexLoop` | RolloutKit/Release/ReleaseManifest.cpp:23-36 | the loop writes two digits a byte |
| `Paths.MakeObjectKey` | RolloutKit/Artifact/ArtifactKey.cpp:61-95 | accepts exactly what the REST check accepts, and then the path stays inside; the key is releases/, the id and the path |
| `Paths.HasParentReference` | RolloutKit/Artifact/ArtifactKey.cpp:11-33 | the scan finds a parent segment exactly when the split has one |
| `Paths.InstallerIsStricter` | RolloutKit/Install/ReleaseInstaller.cpp:22-45 | the installer accepts the ids of the artifact rule less its internal names |
| `Paths.KeysAreInjective` | RolloutKit/Artifact/ArtifactKey.cpp:94 | different accepted pairs have different keys |
| `Paths.DeviceRuleMeansInside` | RolloutKit/Deploy/DeploymentEngine.cpp:245-259 | the device accepts exactly the relative paths no prefix of which climbs above the release |
| `Paths.ReduceClimbs` | RolloutKit/Deploy/DeploymentEngine.cpp:252-253 | normalizing leaves a leading parent segment exactly when a prefix climbs |
| `Paths.ReduceLast` | RolloutKit/Deploy/DeploymentEngine.cpp:252-253 | normalizing step by step: a plain segment goes down, a parent segment up, and above the root it stays |
| `Paths.JoinSplit` | RolloutKit/Artifact/ArtifactKey.cpp:11-33 | the segments of a path, joined again, are the path |
| `Paths.ApiPathIsDevicePath` | RestAPI/internal/service/deploy.go:273-289 | what the REST check accepts the device accepts, and what more the device accepts |
| `Records.RecordRoundTrip` | RolloutKit/Deploy/DeploymentEngine.cpp:447-484 | a record read back is the record written, for every 64-bit token |
| `Records.StateRoundTrip` | RolloutKit/Install/ReleaseInstaller.cpp:491-520 | the same for the activation state |
| `Manifest.ManifestRoundTrip` | RolloutKit/Release/ReleaseManifest.cpp:208-318 | a manifest survives exactly if it is well formed, without NUL, with sizes below 2^63 |
| `Manifest.Parse` | RolloutKit/Release/ReleaseManifest.cpp:229-318 | the loop accepts exactly the documents that describe a manifest |
| `Manifest.ParseIsAFunction` | RolloutKit/Release/ReleaseManifest.cpp:229-318 | a document describes at most one manifest |
| `Manifest.Serialize` | RolloutKit/Release/ReleaseManifest.cpp:208-227 | the loop builds the document |
| `Manifest.EntryRoundTrip` | RolloutKit/Release/ReleaseManifest.cpp:276-314 | entry by entry, with the size that comes back |

## Left out

- The texts of errors, logs and `last_detail_`; results are datatypes instead, and a report has fixed texts of its command.
- A missing installer, supervisor or probe object inside the engine; the agent's missing store, publisher, engine and system control are flags.
- The `current` symlink, file modes beyond one chance to fail, arguments, environment and working directory of a service.
- Directories inside a release, and a file where a directory is needed: a release is a map from paths to contents.
- ReleaseInstaller.ReleaseInstaller.Installed: takes every entry of `releases/` for a directory; a failing `is_directory` on a single entry is not modelled, and equal write times may come in any order.
- Interleavings inside the supervisor (its mutex), process groups with more than one process, and the exit of grandchildren.
- A device or an agent that dies in the middle of an operation: `EngineRuns` lets agents die between commands, and an agent that starts needs the versions on disk checked, which a death in the middle of a download does not leave. Crashes during an install are covered by the history of the disk.
- Overflow of the 32-bit streak and attempt counters.
- JSON text: documents are values, numbers are integers, members have no order, and the parser and printer are functions of the content.
- `parse_agent_message`: a message comes parsed; its text round trip is not an identity.
- SHA-256: the digest is an arbitrary function of content.
- S3, SQS, HTTP routing, the CLI, configuration loading and clamping, the network probe's protocol, and the Windows code.
- `current_status` beyond its two results, `ReleaseManifest::build`, `Results` of the REST API, and the payload checks of commands other than downloads and configuration paths.
- Timeouts are in milliseconds throughout; the code keeps two of them in seconds.
