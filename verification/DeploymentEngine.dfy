/** The deployment engine: it installs a release, stops the running service, activates and starts the
    new release, waits until it is ready, and goes back to the previous release when that fails. */
module DeploymentEngine {
  import opened Prelude
  import opened Json
  import opened ReleaseTree
  import opened Paths
  import opened Records
  import opened ProcessTable
  import opened ProcessSupervisor
  import opened Storage
  import opened ReleaseInstaller
  import Health = HealthChecker

  datatype ProbeKind = ProcessAlive | Network

  datatype HealthSpec = HealthSpec(kind: ProbeKind, successThreshold: int, failureThreshold: int, interval: nat)

  /** Times are in milliseconds. */
  datatype ServiceSpec = ServiceSpec(executable: string, startupTimeout: nat, stopTimeout: nat)

  datatype StopFailure = StillThere(fault: Fault) | RecordNotCleared

  datatype LaunchFailure =
    | ExecutableRefused
    | ExecutableMissing
    | ExecutableNotMarked
    | StartFailed
    | NoIdentity
    | NotRecorded

  datatype ReadyFailure = NoProbe | Unhealthy | TimedOut

  datatype Cause = DidNotStart(launch: LaunchFailure) | NotReady(ready: ReadyFailure)

  datatype Recovery =
    | NotStopped(stop: StopFailure)
    | NoTarget(reason: InstallError)
    | NotRestarted(id: CText, launch: LaunchFailure)
    | RolledBack(id: CText)

  datatype Failure =
    | BadExecutable(refusal: Refusal)
    | InstallFailed(install: InstallError)
    | StateFailed(install: InstallError)
    | StopFailed(stop: StopFailure)
    | ActivateFailed(install: InstallError, restarted: bool)
    | LaunchFailed(launch: LaunchFailure)
    | ReadinessFailed(ready: ReadyFailure)
    | Recovered(cause: Cause, recovery: Recovery)
    | NotActivated(install: InstallError)
    | NotInstalledHere
    | NoActiveRelease
    | RecordUnreadable
    | IdentityUnreadable

  type Handle = Option<ProcessHandle>

  // ---------------------------------------------------------------- the record

  function RecordOf(doc: Doc): (r: Option<RuntimeRecord>) {
    if doc.Document? && doc.json.Object? then Some(DecodeRecord(doc.json.members)) else None
  }

  /** The record names a process of this boot that could be adopted. */
  predicate Adoptable(record: RuntimeRecord, boot: CText) {
    record.processId > 0 && record.startToken != 0 && record.bootIdentity == boot
  }

  ghost predicate NamesLaunch(w: World, record: RuntimeRecord, i: nat) {
    && i in w.launched && i in w.births
    && w.births[i] == Birth(record.processId, record.startToken)
    && w.launched[i].release == record.releaseId
  }

  /** A record of this boot names a service process that was launched, running or not. */
  ghost predicate Honest(w: World, doc: Doc, boot: CText) {
    RecordOf(doc).Some? && Adoptable(RecordOf(doc).value, boot) ==> exists i :: NamesLaunch(w, RecordOf(doc).value, i)
  }

  /** Whatever service process is in the table, the record names it. */
  ghost predicate Covered(w: World, doc: Doc, boot: CText) {
    && w.peak <= 1
    && forall pid | pid in w.table && w.table[pid].instance in w.launched ::
      && pid > 1
      && RecordOf(doc).Some? && Adoptable(RecordOf(doc).value, boot)
      && Birth(pid, w.table[pid].token) == Birth(RecordOf(doc).value.processId, RecordOf(doc).value.startToken)
  }

  // ---------------------------------------------------------------- the handle

  /** The handle is one the supervisor gave out; its start token is that of its process, or 0. */
  ghost predicate Held(w: World, b: Books, handle: Handle) {
    handle.Some? ==>
      && handle.value.id > 1 && handle.value.id in b.mine && Issued(w, b, handle.value)
      && b.mine[handle.value.id] in w.births
      && (handle.value.startToken != 0 ==>
            w.births[b.mine[handle.value.id]] == Birth(handle.value.id, handle.value.startToken))
  }

  /** The only service process in the table, if any, is the one the handle names; there never were two. */
  ghost predicate Tracked(w: World, b: Books, handle: Handle) {
    && w.peak <= 1
    && forall pid | pid in w.table && w.table[pid].instance in w.launched ::
      handle.Some? && handle.value.id == pid && pid in b.mine && b.mine[pid] == w.table[pid].instance
  }

  /** The handle's process was launched from release `id`. */
  ghost predicate Runs(w: World, b: Books, handle: Handle, id: CText) {
    && handle.Some? && handle.value.id in b.mine && b.mine[handle.value.id] in w.launched
    && w.launched[b.mine[handle.value.id]].release == id
  }

  ghost predicate Recorded(doc: Doc, handle: Handle, id: CText, boot: CText) {
    && handle.Some? && RecordOf(doc).Some?
    && RecordOf(doc).value.releaseId == id && RecordOf(doc).value.bootIdentity == boot
    && RecordOf(doc).value.processId == handle.value.id && RecordOf(doc).value.startToken == handle.value.startToken
  }

  // ---------------------------------------------------------------- what changes

  /** Births and launches are only added. */
  ghost predicate Grows(w: World, w': World) {
    && w'.tokenFaults >= w.tokenFaults && w'.callFaults >= w.callFaults
    && (forall i | i in w.births :: i in w'.births && w'.births[i] == w.births[i])
    && (forall i | i in w.launched :: i in w'.launched && w'.launched[i] == w.launched[i])
  }

  /** Every process launched since ran the release as it is in `dirs`. */
  ghost predicate LaunchedFrom(w: World, w': World, dirs: map<string, Tree>) {
    && Grows(w, w')
    && forall i | i in w'.launched && i !in w.launched ::
      && w'.launched[i].release in dirs && !Internal(w'.launched[i].release)
      && w'.launched[i].tree == dirs[w'.launched[i].release]
  }

  /** `state.json` names an active release. */
  predicate HasActive(s: Snapshot) {
    PointersOf(s).Some? && PointersOf(s).value.active != ""
  }

  /** No service process runs that did not run before, but for newborn ones. */
  ghost predicate NoneRevived(w: World, w': World) {
    forall i | i in Live(w') && i in w.births :: i in Live(w)
  }

  /** A process was started, so a service that ran before and runs still makes two. */
  ghost predicate Doubles(w: World, w': World) {
    Survives(w, w') ==> w'.peak >= 2
  }

  /** One process was started, and none came back. */
  ghost predicate OneMore(w: World, w': World) {
    NoneRevived(w, w') && Doubles(w, w')
  }

  ghost predicate OnlyRecord(s: Snapshot, s': Snapshot) {
    s'.dirs == s.dirs && s'.state == s.state
  }

  ghost predicate RecordSince(s: Snapshot, n: nat, history: seq<Snapshot>) {
    forall i | n <= i < |history| :: OnlyRecord(s, history[i])
  }

  // ---------------------------------------------------------------- lemmas

  lemma HonestStays(w: World, w': World, doc: Doc, boot: CText)
    requires Honest(w, doc, boot) && Grows(w, w')
    ensures Honest(w', doc, boot)
  {
    if RecordOf(doc).Some? && Adoptable(RecordOf(doc).value, boot) {
      var i :| NamesLaunch(w, RecordOf(doc).value, i);
      assert NamesLaunch(w', RecordOf(doc).value, i);
    }
  }

  lemma SettledGrows(w: World, b: Books, w': World, b': Books)
    requires Settled(w, b, w', b')
    ensures Grows(w, w') && w'.launched == w.launched && w'.tokenFaults >= w.tokenFaults
  {
  }

  lemma TrackedSettled(w: World, b: Books, w': World, b': Books, handle: Handle)
    requires Coherent(w, b) && Tracked(w, b, handle) && Settled(w, b, w', b')
    ensures Tracked(w', b', handle)
  {
  }

  lemma TrackedOver(w: World, b: Books, handle: Handle)
    requires Coherent(w, b) && Tracked(w, b, handle)
    requires handle.None? || Over(w, b, handle.value.id)
    ensures NoService(w) && Tracked(w, b, None)
  {
  }

  lemma TrackedLaunch(w: World, w': World, b: Books, handle: ProcessHandle, instance: nat, launch: Launch)
    requires Sound(w) && NoService(w) && w.peak <= 1 && Begun(w, w', handle, instance, launch)
    requires handle.id in b.mine && b.mine[handle.id] == instance
    ensures Tracked(w', b, Some(handle))
  {
  }

  lemma BegunGrows(w: World, w': World, handle: ProcessHandle, instance: nat, launch: Launch, dirs: map<string, Tree>)
    requires Sound(w) && Begun(w, w', handle, instance, launch)
    requires launch.release in dirs && !Internal(launch.release) && launch.tree == dirs[launch.release]
    ensures LaunchedFrom(w, w', dirs) && Grows(w, w') && handle.id < TWO_63
  {
  }

  lemma HonestWritten(w: World, record: RuntimeRecord, doc: Doc, boot: CText, i: nat)
    requires RecordOf(doc) == Some(record)
    requires record.startToken != 0 ==> NamesLaunch(w, record, i)
    ensures Honest(w, doc, boot)
  {
  }

  lemma QuietSettled(w: World, w': World, b: Books)
    requires Quiet(w, w')
    ensures Settled(w, b, w', b)
  {
  }

  /** The adopted process is the recorded one, so it is the only service there can be. */
  lemma TrackedAdopt(w: World, b: Books, w': World, b': Books, handle: Handle, adopted: ProcessHandle,
      record: RuntimeRecord, doc: Doc, boot: CText)
    requires Coherent(w, b) && Quiet(w, w') && Honest(w, doc, boot)
    requires RecordOf(doc) == Some(record) && Adoptable(record, boot)
    requires adopted == ProcessHandle(record.processId, record.startToken) && adopted.id in b'.mine
    requires var i := b'.mine[adopted.id];
      i in w'.births && w'.births[i] == Birth(adopted.id, adopted.startToken) && (i in w.births ==> Present(w, i))
    requires Tracked(w, b, handle) || Covered(w, doc, boot)
    ensures Tracked(w', b', Some(adopted)) && Runs(w', b', Some(adopted), record.releaseId)
  {
    var i :| NamesLaunch(w, record, i);
    assert w'.births[i] == w.births[i];
    assert b'.mine[adopted.id] == i;
  }

  /** Nobody holds the recorded pid and token, so no service is left. */
  lemma GoneMeansIdle(w: World, w': World, handle: ProcessHandle, record: RuntimeRecord, doc: Doc, boot: CText)
    requires Sound(w) && Quiet(w, w') && Covered(w, doc, boot) && RecordOf(doc) == Some(record)
    requires handle == ProcessHandle(record.processId, record.startToken)
    requires handle.id <= 1 || handle.startToken == 0 || NoLonger(w', handle)
    ensures NoService(w')
  {
  }

  // ---------------------------------------------------------------- what fails by itself

  /** How often an operation on the disk failed, a question about a file, one about `state.json`, reading the boot
      identity, a system call, and reading a start token. */
  datatype Mishaps = Mishaps(io: nat, query: nat, state: nat, identity: nat, call: nat, token: nat)

  ghost function MishapsOf(disk: Disk, kernel: Kernel): Mishaps
    reads disk, kernel
  {
    Mishaps(disk.ioFaults, disk.queryFaults, disk.stateFaults, kernel.identityFaults, kernel.world.callFaults,
      kernel.world.tokenFaults)
  }

  ghost predicate MoreMishaps(m: Mishaps, m': Mishaps) {
    && m'.io >= m.io && m'.query >= m.query && m'.state >= m.state && m'.identity >= m.identity
    && m'.call >= m.call && m'.token >= m.token
  }

  lemma MishapsAddUp(m0: Mishaps, m1: Mishaps, m2: Mishaps)
    requires MoreMishaps(m0, m1) && MoreMishaps(m1, m2)
    ensures MoreMishaps(m0, m2) && (m2 == m0 ==> m1 == m0)
  {
  }

  lemma MishapsGrow(m: Mishaps, m': Mishaps)
    requires m'.io >= m.io && m'.query >= m.query && m'.state >= m.state && m'.identity >= m.identity
    requires m'.call >= m.call && m'.token >= m.token
    ensures MoreMishaps(m, m')
  {
  }

  lemma MishapsRead(disk: Disk, kernel: Kernel)
    ensures MishapsOf(disk, kernel) == Mishaps(disk.ioFaults, disk.queryFaults, disk.stateFaults,
      kernel.identityFaults, kernel.world.callFaults, kernel.world.tokenFaults)
    ensures MoreMishaps(MishapsOf(disk, kernel), MishapsOf(disk, kernel))
  {
  }

  /** A pid of the past was given to a newcomer. */
  ghost predicate PidTaken(w: World, w': World) {
    exists i, j :: i in w'.births && j in w'.births && i != j && j !in w.births && w'.births[i].pid == w'.births[j].pid
  }

  // ---------------------------------------------------------------- the engine

  class DeploymentEngine {
    const kernel: Kernel
    const clock: Clock
    const supervisor: PosixProcessSupervisor
    const disk: Disk
    const installer: ReleaseInstaller
    const network: Health.Network
    const service: ServiceSpec
    const health: HealthSpec
    var handle: Handle
    /** Releases that a failed swap left set aside. */
    ghost var lost: set<string>

    constructor (supervisor: PosixProcessSupervisor, installer: ReleaseInstaller, network: Health.Network,
        service: ServiceSpec, health: HealthSpec, ghost lost: set<string>)
      requires supervisor.Valid() && installer.disk.Valid() && installer.Safe(lost)
      requires Honest(supervisor.kernel.world, installer.disk.view.runtime, supervisor.kernel.bootIdentity)
      requires NoService(supervisor.kernel.world) || HasActive(installer.disk.view)
      ensures Inv() && handle == None && this.lost == lost
      ensures this.supervisor == supervisor && this.installer == installer && this.network == network
      ensures this.service == service && this.health == health
    {
      this.kernel := supervisor.kernel;
      this.clock := supervisor.clock;
      this.supervisor := supervisor;
      this.disk := installer.disk;
      this.installer := installer;
      this.network := network;
      this.service := service;
      this.health := health;
      handle := None;
      this.lost := lost;
    }

    ghost predicate Inv()
      reads this`handle, this`lost, kernel`world, supervisor`finished, supervisor`adopted, supervisor`mine, disk`view,
        disk`history
      reads installer`activated, installer`misled
    {
      && supervisor.kernel == kernel && supervisor.clock == clock && installer.disk == disk
      && disk.Valid() && supervisor.Valid() && installer.Safe(lost)
      && Held(kernel.world, supervisor.View(), handle)
      && Honest(kernel.world, disk.view.runtime, kernel.bootIdentity)
      && (NoService(kernel.world) || HasActive(disk.view))
    }

    lemma Parts()
      requires Inv()
      ensures supervisor.kernel == kernel && supervisor.clock == clock && installer.disk == disk
      ensures disk.Valid() && Coherent(kernel.world, supervisor.View())
    {
    }

    /** How often anything has failed for a reason of its own. */
    ghost function Mishaps(): Mishaps
      reads disk, kernel
    {
      MishapsOf(disk, kernel)
    }

    /** The engine has not lost sight of a service process. */
    ghost predicate Single()
      reads this`handle, kernel`world, supervisor`finished, supervisor`adopted, supervisor`mine
    {
      Tracked(kernel.world, supervisor.View(), handle)
    }

    // -------------------------------------------------------------- the record

    method Record() returns (r: Result<RuntimeRecord, Failure>)
      requires disk.Valid()
      modifies disk`view, disk`history, disk`queryFaults, disk`ioFaults
      ensures disk.Valid() && old(disk.history) <= disk.history && disk.queryFaults >= old(disk.queryFaults)
      ensures RecordSince(old(disk.view), |old(disk.history)|, disk.history) && OnlyRecord(old(disk.view), disk.view)
      ensures r.Err? ==> r.error == RecordUnreadable && disk.view == old(disk.view)
      ensures r.Ok? && RecordOf(old(disk.view).runtime).Some? && disk.queryFaults == old(disk.queryFaults) ==>
        disk.view == old(disk.view) && RecordOf(disk.view.runtime) == Some(r.value)
      ensures r.Ok? ==>
        r.value == NO_RECORD || (disk.view == old(disk.view) && RecordOf(disk.view.runtime) == Some(r.value))
      ensures disk.view == old(disk.view) || disk.view.runtime == Absent
      ensures disk.ioFaults >= old(disk.ioFaults) && (r.Err? ==> disk.ioFaults > old(disk.ioFaults))
    {
      var exists_ := disk.Exists(RuntimeFile);
      if !exists_ {
        return Ok(NO_RECORD);
      }
      var read := disk.ReadDocument(RuntimeFile);
      if read.None? {
        return Err(RecordUnreadable);
      }
      var record := RecordOf(read.value);
      if record.None? {
        var cleared := ClearRecord();
        return if cleared then Ok(NO_RECORD) else Err(RecordUnreadable);
      }
      r := Ok(record.value);
    }

    method WriteRecord(next: RuntimeRecord) returns (ok: bool)
      requires disk.Valid()
      modifies disk`view, disk`history, disk`ioFaults
      ensures disk.Valid() && old(disk.history) <= disk.history
      ensures RecordSince(old(disk.view), |old(disk.history)|, disk.history) && OnlyRecord(old(disk.view), disk.view)
      ensures if ok then RecordOf(disk.view.runtime) == Some(next) else disk.view == old(disk.view)
      ensures disk.ioFaults == if ok then old(disk.ioFaults) else old(disk.ioFaults) + 1
    {
      RecordRoundTrip(next);
      ok := disk.ReplaceDocument(RuntimeFile, EncodeRecord(next));
    }

    method ClearRecord() returns (ok: bool)
      requires disk.Valid()
      modifies disk`view, disk`history, disk`ioFaults
      ensures disk.Valid() && old(disk.history) <= disk.history
      ensures RecordSince(old(disk.view), |old(disk.history)|, disk.history) && OnlyRecord(old(disk.view), disk.view)
      ensures if ok then disk.view.runtime == Absent else disk.view == old(disk.view)
      ensures disk.ioFaults == if ok then old(disk.ioFaults) else old(disk.ioFaults) + 1
    {
      ok := disk.RemoveRuntime();
    }

    // -------------------------------------------------------------- stop and launch

    /** `stop`: the handle is forgotten before the record is removed, so a failure may come with or
        without the process. */
    method Stop() returns (r: Result<Unit, StopFailure>)
      requires Inv()
      modifies this`handle, supervisor, kernel`world, clock, disk`view, disk`history, disk`ioFaults
      ensures Inv() && old(disk.history) <= disk.history
      ensures RecordSince(old(disk.view), |old(disk.history)|, disk.history) && OnlyRecord(old(disk.view), disk.view)
      ensures Settled(old(kernel.world), old(supervisor.View()), kernel.world, supervisor.View())
      ensures old(handle).None? ==> r.Ok? && kernel.world == old(kernel.world) && disk.view == old(disk.view)
      ensures old(handle).Some? && old(handle).value.id in supervisor.mine ==>
        Aimed(old(kernel.world), kernel.world, old(handle).value.id, supervisor.mine[old(handle).value.id])
      ensures old(Single()) ==> Single() && (r.Ok? ==> NoService(kernel.world))
      ensures r.Ok? ==> handle == None && (old(handle).Some? ==> disk.view.runtime == Absent)
      ensures r.Err? ==> disk.view == old(disk.view)
      ensures r.Err? && r.error.StillThere? ==> handle == old(handle)
      ensures r.Err? && r.error.RecordNotCleared? ==> handle == None && (old(Single()) ==> NoService(kernel.world))
      ensures MoreMishaps(old(Mishaps()), Mishaps())
      ensures r.Err? && Mishaps() == old(Mishaps()) ==> StopExcused(r.error, old(kernel.world))
      ensures old(supervisor.asked) <= supervisor.asked && old(clock.ticks) <= clock.ticks
    {
      hide Coherent, Settled, Tracked, Honest, Issued, Steps, Aimed, NoService, SafeIn, Proper, MoreMishaps,
        DeploymentEngine.StopExcused;
      MishapsRead(disk, kernel);
      ghost var w0, b0, m0 := kernel.world, supervisor.View(), Mishaps();
      SettledSelf(w0, b0, 0);
      if handle.None? {
        if Single() { TrackedOver(w0, b0, handle); }
        return Ok(Unit.Unit);
      }
      var stopped := StopProcess();
      if stopped.Err? {
        return Err(StillThere(stopped.error));
      }
      ghost var m1, s := Mishaps(), disk.view;
      MishapsRead(disk, kernel);
      handle := None;
      NobodyTracked(kernel.world, supervisor.View());
      var cleared := ClearRecord();
      MishapsRead(disk, kernel);
      MishapsGrow(m1, Mishaps());
      MishapsAddUp(m0, m1, Mishaps());
      SafeOnlyRecord(s, disk.view, installer.activated, lost);
      if !cleared {
        return Err(RecordNotCleared);
      }
      HonestNothing(kernel.world, disk.view.runtime, kernel.bootIdentity);
      r := Ok(Unit.Unit);
    }

    /** The process of the handle is stopped, and nothing else changes. */
    method StopProcess() returns (r: Result<Unit, Fault>)
      requires Inv() && handle.Some?
      modifies supervisor, kernel`world, clock
      ensures Inv() && Settled(old(kernel.world), old(supervisor.View()), kernel.world, supervisor.View())
      ensures handle.value.id in supervisor.mine ==>
        Aimed(old(kernel.world), kernel.world, handle.value.id, supervisor.mine[handle.value.id])
      ensures old(Single()) ==> Single() && kernel.world.peak <= 1 && (r.Ok? ==> NoService(kernel.world))
      ensures MoreMishaps(old(Mishaps()), Mishaps())
      ensures r.Err? && Mishaps() == old(Mishaps()) ==> StopExcused(StillThere(r.error), old(kernel.world))
      ensures old(supervisor.asked) <= supervisor.asked && old(clock.ticks) <= clock.ticks
    {
      hide Coherent, Settled, Tracked, Honest, Issued, Steps, Aimed, Over, NoService, SafeIn, Proper, MoreMishaps,
        MishapsOf, Hindered, PidTaken, WatchedInVain, Escalates, OnlyAbout, Moved;
      MishapsRead(disk, kernel);
      ghost var w0, b0 := kernel.world, supervisor.View();
      ghost var named;
      r, named := supervisor.Stop(handle.value, service.stopTimeout);
      SettledGrows(w0, b0, kernel.world, supervisor.View());
      AskedOn(old(supervisor.asked), supervisor.asked, handle.value);
      MishapsRead(disk, kernel);
      WhyNotStopped(w0, b0, kernel.world, supervisor.View(), handle, old(Mishaps()), Mishaps());
      MishapsGrow(old(Mishaps()), Mishaps());
      HonestStays(w0, kernel.world, disk.view.runtime, kernel.bootIdentity);
      SameMine(w0, b0, kernel.world, supervisor.View());
      NoServiceSettled(w0, b0, kernel.world, supervisor.View());
      if Tracked(w0, b0, handle) {
        TrackedSettled(w0, b0, kernel.world, supervisor.View(), handle);
        OnePeak(kernel.world, supervisor.View(), handle);
        if r.Ok? { TrackedOver(kernel.world, supervisor.View(), handle); }
      }
    }

    /** Starts release `id` and records the process. The two last failures leave it running and held,
        but not recorded. */
    method Launch(id: CText) returns (r: Result<Unit, LaunchFailure>)
      requires Inv() && ValidId(id) && HasActive(disk.view)
      modifies this`handle, supervisor`finished, supervisor`adopted, supervisor`mine, kernel, disk`view, disk`history
      modifies disk`queryFaults, disk`ioFaults
      ensures Inv() && old(disk.history) <= disk.history && disk.queryFaults >= old(disk.queryFaults)
      ensures RecordSince(old(disk.view), |old(disk.history)|, disk.history) && OnlyRecord(old(disk.view), disk.view)
      ensures LaunchedFrom(old(kernel.world), kernel.world, disk.view.dirs)
      ensures kernel.world.signals == old(kernel.world).signals
      ensures kernel.world.tokenFaults >= old(kernel.world).tokenFaults
      ensures NoneRevived(old(kernel.world), kernel.world)
      ensures NoService(old(kernel.world)) && old(kernel.world).peak <= 1 ==> Single()
      ensures r.Ok? || Unrecorded(r.error) ==> Doubles(old(kernel.world), kernel.world)
      ensures r.Ok? ==>
        Started(id) && IsNew(old(kernel.world)) && Recorded(disk.view.runtime, handle, id, kernel.bootIdentity)
      ensures r.Err? && Unrecorded(r.error) ==> Started(id) && disk.view == old(disk.view)
      ensures r.Err? && !Unrecorded(r.error) ==>
        && handle == old(handle) && supervisor.View() == old(supervisor.View()) && disk.view == old(disk.view)
        && Quiet(old(kernel.world), kernel.world)
      ensures MoreMishaps(old(Mishaps()), Mishaps())
      ensures r.Err? && Mishaps() == old(Mishaps()) ==> LaunchExcused(r.error, id, disk.view.dirs)
    {
      hide NoneRevived, Doubles, Survives, Runs;
      hide Coherent, Honest, Issued, Steps, NoService, SafeIn, Proper, Tracked, KeepsChildren, LaunchedFrom, RecordOf,
        MoreMishaps, MishapsOf, Grows, Quiet;
      ghost var m0 := Mishaps();
      QuietSelf(kernel.world, supervisor.View());
      StillTracked(kernel.world, kernel.world, supervisor.View(), handle);
      NothingLaunched(kernel.world, disk.view.dirs);
      NobodyRevived(kernel.world);
      var refused := Startable(id);
      ghost var m1 := Mishaps();
      if refused.Some? {
        return Err(refused.value);
      }
      var ok, instance := StartProcess(id);
      MishapsAddUp(m0, m1, Mishaps());
      if !ok {
        return Err(StartFailed);
      }
      ghost var m2 := Mishaps();
      r := RecordProcess(id, instance);
      MishapsAddUp(m0, m2, Mishaps());
    }

    /** What forbids starting the executable of a release, if anything. */
    method Startable(id: CText) returns (r: Option<LaunchFailure>)
      requires Inv()
      modifies disk`queryFaults, disk`ioFaults
      ensures Inv() && disk.queryFaults >= old(disk.queryFaults)
      ensures r.None? ==> id in disk.view.dirs
      ensures r.Some? ==> !Unrecorded(r.value)
      ensures r == Some(ExecutableRefused) <==> ExecutableAllowed().Err?
      ensures MoreMishaps(old(Mishaps()), Mishaps())
      ensures r.Some? && Mishaps() == old(Mishaps()) ==> LaunchExcused(r.value, id, disk.view.dirs)
    {
      hide Coherent, Honest, Held, NoService, SafeIn, Proper;
      if ExecutableAllowed().Err? {
        return Some(ExecutableRefused);
      }
      var present := disk.HasFile(id, Canonical(service.executable));
      if !present {
        return Some(ExecutableMissing);
      }
      var unmarked: bool := *;
      if unmarked {
        var marked: bool := *;
        if !marked {
          disk.Fail();
          return Some(ExecutableNotMarked);
        }
      }
      r := None;
    }

    method RecordProcess(id: CText, ghost instance: nat) returns (r: Result<Unit, LaunchFailure>)
      requires Inv() && Started(id) && 1 < handle.value.id < TWO_63
      requires handle.value.startToken != 0 ==>
        && instance in kernel.world.launched && instance in kernel.world.births
        && kernel.world.births[instance] == Birth(handle.value.id, handle.value.startToken)
        && kernel.world.launched[instance].release == id
      modifies kernel`identityFaults, disk`view, disk`history, disk`ioFaults
      ensures Inv() && old(disk.history) <= disk.history && Started(id)
      ensures RecordSince(old(disk.view), |old(disk.history)|, disk.history) && OnlyRecord(old(disk.view), disk.view)
      ensures r.Ok? ==> Recorded(disk.view.runtime, handle, id, kernel.bootIdentity)
      ensures r.Err? ==> Unrecorded(r.error) && disk.view == old(disk.view)
      ensures MoreMishaps(old(Mishaps()), Mishaps())
      ensures r.Err? ==> Mishaps() != old(Mishaps())
    {
      hide Coherent, Honest, Issued, NoService, SafeIn, Proper, Tracked, RecordOf;
      var identity := kernel.BootIdentity();
      if identity.None? {
        return Err(NoIdentity);
      }
      var next := RuntimeRecord(id, handle.value.id, handle.value.startToken, identity.value);
      ghost var s := disk.view;
      var written := WriteRecord(next);
      SafeOnlyRecord(s, disk.view, installer.activated, lost);
      if !written {
        return Err(NotRecorded);
      }
      HonestWritten(kernel.world, next, disk.view.runtime, kernel.bootIdentity, instance);
      r := Ok(Unit.Unit);
    }

    /** The executable is allowed exactly if no prefix of its path climbs out of the release. */
    function ExecutableAllowed(): (r: Result<Unit, Failure>)
      ensures r.Ok? <==>
        service.executable != "" && service.executable[0] != '/' && StaysInside(Split(service.executable))
      ensures r.Err? ==> r.error.BadExecutable?
    {
      DeviceRuleMeansInside(service.executable);
      var valid := DeviceAcceptsPath(service.executable);
      if valid.Err? then Err(BadExecutable(valid.error)) else Ok(Unit.Unit)
    }

    method StartProcess(id: CText) returns (ok: bool, ghost instance: nat)
      requires Inv() && ValidId(id) && HasActive(disk.view) && id in disk.view.dirs
      modifies this`handle, supervisor`finished, supervisor`adopted, supervisor`mine, kernel`world
      ensures Inv() && LaunchedFrom(old(kernel.world), kernel.world, disk.view.dirs)
      ensures kernel.world.signals == old(kernel.world).signals
      ensures kernel.world.tokenFaults >= old(kernel.world).tokenFaults
      ensures NoneRevived(old(kernel.world), kernel.world)
      ensures NoService(old(kernel.world)) && old(kernel.world).peak <= 1 ==> Single()
      ensures ok ==>
        && Started(id) && IsNew(old(kernel.world))
        && Doubles(old(kernel.world), kernel.world) && 1 < handle.value.id < TWO_63
        && instance in kernel.world.launched && instance in kernel.world.births
        && kernel.world.launched[instance].release == id
        && (handle.value.startToken != 0 ==>
              kernel.world.births[instance] == Birth(handle.value.id, handle.value.startToken))
      ensures !ok ==>
        handle == old(handle) && supervisor.View() == old(supervisor.View()) && Quiet(old(kernel.world), kernel.world)
      ensures MoreMishaps(old(Mishaps()), Mishaps())
      ensures !ok && service.executable != "" ==> Mishaps() != old(Mishaps())
    {
      hide Coherent, Honest, Issued, Steps, NoService, SafeIn, Proper, Begun, Tracked, KeepsChildren, LaunchedFrom,
        MoreMishaps, MishapsOf, Grows;
      MishapsRead(disk, kernel);
      ghost var w0, b0 := kernel.world, supervisor.View();
      ghost var launch := ProcessTable.Launch(id, disk.view.dirs[id], service.executable);
      var started;
      started, instance := supervisor.Start(ProcessTable.Launch(id, disk.view.dirs[id], service.executable));
      ok := started.Ok?;
      MishapsRead(disk, kernel);
      StartCalls(w0, kernel.world, started, instance, launch);
      MishapsGrow(old(Mishaps()), Mishaps());
      if !ok {
        StillTracked(w0, kernel.world, b0, handle);
        QuietGrows(w0, kernel.world, disk.view.dirs);
        StepsRevive(w0, kernel.world);
        HonestStays(w0, kernel.world, disk.view.runtime, kernel.bootIdentity);
        IssuedQuiet(w0, kernel.world, b0, handle);
        return;
      }
      handle := Some(started.value);
      BegunGrows(w0, kernel.world, started.value, instance, launch, disk.view.dirs);
      BegunStarts(w0, kernel.world, started.value, instance, launch);
      BegunRevives(w0, kernel.world, started.value, instance, launch);
      HonestStays(w0, kernel.world, disk.view.runtime, kernel.bootIdentity);
      if NoService(w0) && w0.peak <= 1 {
        TrackedLaunch(w0, kernel.world, supervisor.View(), started.value, instance, launch);
      }
      NewHandleIssued(kernel.world, supervisor.View(), started.value);
    }

    // -------------------------------------------------------------- readiness

    /** Polls until a run of probes reaches a threshold or time is up. The trace holds every probe and
        the moment it was started. */
    method AwaitReady() returns (r: Result<Unit, ReadyFailure>, ghost trace: seq<Health.Probed>, ghost start: int)
      requires Inv()
      modifies supervisor, network, kernel`world, clock
      ensures Inv() && start >= old(clock.now)
      ensures Settled(old(kernel.world), old(supervisor.View()), kernel.world, supervisor.View())
      ensures kernel.world.signals == old(kernel.world).signals
      ensures old(Single()) ==> Single()
      ensures Verdict(r, trace, start) && Logged(trace, old(supervisor.asked), old(network.answers))
      ensures r == Err(NoProbe) <==> handle.None? && health.kind.ProcessAlive?
      ensures clock.ticks ==
        if r == Err(NoProbe) then old(clock.ticks)
        else old(clock.ticks) + [Look(start)] + WaitTicks(r, trace, clock.now)
      ensures MoreMishaps(old(Mishaps()), Mishaps())
      ensures old(clock.ticks) <= clock.ticks && old(supervisor.asked) <= supervisor.asked
      ensures r.Err? && r.error != NoProbe ==>
        Waited(r.error, |old(supervisor.asked)|, |old(network.answers)|, |old(clock.ticks)|, supervisor.asked,
          network.answers, clock.ticks)
    {
      hide Coherent, Settled, Tracked, Honest, Held, Steps, SafeIn, Proper, NoService;
      hide Health.Decides, Health.Ready, Health.RunEnds, Health.Trailing, Health.Paced, DeploymentEngine.WaitTicks,
        DeploymentEngine.Waited, DeploymentEngine.Verdict, LoggedFrom, MoreMishaps, MishapsOf;
      MishapsRead(disk, kernel);
      ghost var w0, b0 := kernel.world, supervisor.View();
      SettledSelf(kernel.world, supervisor.View(), 0);
      if health.kind.ProcessAlive? && handle.None? {
        Health.PacedStart(clock.now, service.startupTimeout, health.interval);
        NothingReady(Successes(), Failures());
        LoggedNothing(health.kind, handle, supervisor.asked, network.answers);
        NoVerdict(clock.now);
        return Err(NoProbe), [], clock.now;
      }
      var checker := new Health.HealthChecker(health.successThreshold, health.failureThreshold);
      var began := clock.Read();
      start := began;
      r, trace := Poll(checker, began);
      MishapsRead(disk, kernel);
      SettledCalls(w0, b0, kernel.world, supervisor.View());
      MishapsGrow(old(Mishaps()), Mishaps());
      LoggedOn(trace, old(supervisor.asked), old(network.answers));
      if r.Err? {
        WaitedJustNow(r.error, trace, start, clock.now, old(supervisor.asked), old(network.answers), old(clock.ticks),
          supervisor.asked, network.answers, clock.ticks);
      }
    }

    method Poll(checker: Health.HealthChecker, start: int) returns (r: Result<Unit, ReadyFailure>,
        ghost trace: seq<Health.Probed>)
      requires Inv() && (health.kind.ProcessAlive? ==> handle.Some?) && start <= clock.now
      requires checker.Valid() && checker.successThreshold == Successes() && checker.failureThreshold == Failures()
      requires checker.history == [] && checker.state.Unknown?
      modifies checker, supervisor, network, kernel`world, clock
      ensures Inv() && r != Err(NoProbe)
      ensures Settled(old(kernel.world), old(supervisor.View()), kernel.world, supervisor.View())
      ensures kernel.world.signals == old(kernel.world).signals
      ensures old(Single()) ==> Single()
      ensures Verdict(r, trace, start) && Logged(trace, old(supervisor.asked), old(network.answers))
      ensures clock.ticks == old(clock.ticks) + WaitTicks(r, trace, clock.now)
    {
      hide Coherent, Settled, Tracked, Honest, Held, Steps, SafeIn, Proper, NoService;
      hide Health.Decides, Health.Ready, Health.RunEnds, Health.Trailing, Health.Paced;
      hide DeploymentEngine.Polling, DeploymentEngine.WaitTicks;
      ghost var w0, b0, q0, n0 := kernel.world, supervisor.View(), supervisor.asked, network.answers;
      SettledSelf(w0, b0, 0);
      assert Coherent(w0, b0);
      hide Inv;
      trace := [];
      NothingReady(Successes(), Failures());
      Health.PacedStart(start, service.startupTimeout, health.interval);
      var deadline := start + service.startupTimeout;
      var now := clock.Read();
      PollingFirst(old(clock.ticks), now);
      while now < deadline
        invariant Inv() && checker.Valid() && start <= now == clock.now
        invariant Settled(w0, b0, kernel.world, supervisor.View()) && kernel.world.signals == w0.signals
        invariant Tracked(w0, b0, handle) ==> Single()
        invariant Logged(trace, q0, n0)
        invariant Health.Paced(trace, start, service.startupTimeout, health.interval)
        invariant trace != [] ==> now >= trace[|trace|-1].at + health.interval
        invariant checker.history == Health.Outcomes(trace) && checker.state.Unknown?
        invariant Polling(old(clock.ticks), clock.ticks, trace, now)
        invariant !Health.Ready(trace, Successes(), Failures())
        decreases deadline - now
      {
        var state;
        ghost var ok, before := true, trace;
        state, ok, trace := ProbeOnce(checker, now, trace, start, w0, b0, q0, n0);
        PollingDecides(old(clock.ticks), clock.ticks, before, Health.Probed(now, ok));
        if state.Healthy? {
          return Ok(Unit.Unit), trace;
        }
        if state.Unhealthy? {
          return Err(Unhealthy), trace;
        }
        ghost var ticks := clock.ticks;
        clock.Sleep(health.interval);
        now := clock.Read();
        PollingNext(old(clock.ticks), ticks, before, trace[|before|], now);
      }
      PollingEnds(old(clock.ticks), clock.ticks, trace, now);
      r := Err(TimedOut);
    }

    /** Every look at the clock before the deadline was followed by a probe, and every probe that did not decide
        by a pause of one interval. */
    function WaitTicks(r: Result<Unit, ReadyFailure>, trace: seq<Health.Probed>, last: int): (ticks: seq<Tick>) {
      var moments := Health.Moments(trace);
      if r == Err(TimedOut) || trace == [] then Rounds(moments, health.interval) + [Look(last)]
      else Rounds(moments[..|moments|-1], health.interval) + [Look(moments[|moments|-1])]
    }

    /** The loop so far: after each probe of the trace there was a pause, and the last look was now. */
    ghost predicate Polling(ticks0: seq<Tick>, ticks: seq<Tick>, trace: seq<Health.Probed>, now: int) {
      ticks == ticks0 + Rounds(Health.Moments(trace), health.interval) + [Look(now)]
    }

    lemma PollingFirst(ticks0: seq<Tick>, now: int)
      ensures Polling(ticks0, ticks0 + [Look(now)], [], now)
    {
    }

    lemma PollingNext(ticks0: seq<Tick>, ticks: seq<Tick>, trace: seq<Health.Probed>, p: Health.Probed, next: int)
      requires Polling(ticks0, ticks, trace, p.at)
      ensures Polling(ticks0, ticks + [Pause(health.interval)] + [Look(next)], trace + [p], next)
    {
      Health.MomentsNext(trace, p);
      RoundsNext(Health.Moments(trace), p.at, health.interval);
    }

    lemma PollingDecides(ticks0: seq<Tick>, ticks: seq<Tick>, trace: seq<Health.Probed>, p: Health.Probed)
      requires Polling(ticks0, ticks, trace, p.at)
      ensures forall r, last | r != Err(TimedOut) :: ticks == ticks0 + WaitTicks(r, trace + [p], last)
    {
      Health.MomentsNext(trace, p);
      assert Health.Moments(trace + [p])[..|trace|] == Health.Moments(trace);
    }

    lemma PollingEnds(ticks0: seq<Tick>, ticks: seq<Tick>, trace: seq<Health.Probed>, now: int)
      requires Polling(ticks0, ticks, trace, now)
      ensures ticks == ticks0 + WaitTicks(Err(TimedOut), trace, now)
    {
    }

    /** The wait for readiness failed for a reason: in a stretch of what was asked and answered, a run of failures
        completed first, or nothing did although the service was probed until the deadline. */
    ghost predicate Waited(ready: ReadyFailure, q: nat, n: nat, t: nat, asked: seq<Asked>,
        answers: seq<Health.Probed>, ticks: seq<Tick>) {
      exists trace, start, last, h, k, m, e ::
        q <= k && n <= m && t <= e && WaitedOn(ready, trace, start, last, h, k, m, e, asked, answers, ticks)
    }

    ghost predicate WaitedOn(ready: ReadyFailure, trace: seq<Health.Probed>, start: int, last: int, h: Handle, k: nat,
        m: nat, e: nat, asked: seq<Asked>, answers: seq<Health.Probed>, ticks: seq<Tick>) {
      var k' := k + if health.kind.Network? then 0 else |trace|;
      var m' := m + if health.kind.Network? then |trace| else 0;
      var spent := [Look(start)] + WaitTicks(Err(ready), trace, last);
      && k' <= |asked| && m' <= |answers| && e + |spent| <= |ticks|
      && LoggedFrom(health.kind, h, trace, asked[..k], answers[..m], asked[..k'], answers[..m'])
      && ticks[e..e + |spent|] == spent
      && Health.Paced(trace, start, service.startupTimeout, health.interval)
      && !Health.Ready(trace, Successes(), Failures())
      && match ready
        case Unhealthy => Health.RunEnds(Health.Outcomes(trace), |trace|, Failures(), false)
        case TimedOut => last >= start + service.startupTimeout
        case NoProbe => false
    }

    lemma WaitedJustNow(ready: ReadyFailure, trace: seq<Health.Probed>, start: int, last: int, asked0: seq<Asked>,
        answers0: seq<Health.Probed>, ticks0: seq<Tick>, asked: seq<Asked>, answers: seq<Health.Probed>,
        ticks: seq<Tick>)
      requires LoggedFrom(health.kind, handle, trace, asked0, answers0, asked, answers)
      requires ticks == ticks0 + [Look(start)] + WaitTicks(Err(ready), trace, last)
      requires Verdict(Err(ready), trace, start) && last == clock.now && !ready.NoProbe?
      ensures Waited(ready, |asked0|, |answers0|, |ticks0|, asked, answers, ticks)
    {
      assert asked[..|asked0|] == asked0 && answers[..|answers0|] == answers0;
      assert asked[..|asked|] == asked && answers[..|answers|] == answers;
      assert ticks[|ticks0|..] == [Look(start)] + WaitTicks(Err(ready), trace, last);
      hide WaitTicks, LoggedFrom, Health.Paced, Health.Ready, Health.RunEnds;
      assert WaitedOn(ready, trace, start, last, handle, |asked0|, |answers0|, |ticks0|, asked, answers, ticks);
    }

    lemma WaitedBefore(ready: ReadyFailure, q: nat, n: nat, t: nat, asked: seq<Asked>, answers: seq<Health.Probed>,
        ticks: seq<Tick>, q0: nat, n0: nat, t0: nat, asked': seq<Asked>, ticks': seq<Tick>)
      requires q0 <= q && n0 <= n && t0 <= t && asked <= asked' && ticks <= ticks'
      ensures Waited(ready, q, n, t, asked, answers, ticks) ==> Waited(ready, q0, n0, t0, asked', answers, ticks')
    {
      hide WaitTicks, LoggedFrom, Health.Paced, Health.Ready, Health.RunEnds;
      if Waited(ready, q, n, t, asked, answers, ticks) {
        var trace, start, last, h, k, m, e :|
          q <= k && n <= m && t <= e && WaitedOn(ready, trace, start, last, h, k, m, e, asked, answers, ticks);
        var k' := k + if health.kind.Network? then 0 else |trace|;
        assert asked'[..k] == asked[..k] && asked'[..k'] == asked[..k'];
        var size := 1 + |WaitTicks(Err(ready), trace, last)|;
        assert ticks'[e..e + size] == ticks[e..e + size];
        assert WaitedOn(ready, trace, start, last, h, k, m, e, asked', answers, ticks');
      }
    }

    /** One turn of the loop, while no run has reached its threshold yet. */
    method ProbeOnce(checker: Health.HealthChecker, now: int, ghost trace: seq<Health.Probed>, ghost start: int,
        ghost w0: World, ghost b0: Books, ghost q0: seq<Asked>, ghost n0: seq<Health.Probed>)
      returns (state: Health.HealthState, ghost ok: bool, ghost trace': seq<Health.Probed>)
      requires Logged(trace, q0, n0)
      requires Inv() && (health.kind.ProcessAlive? ==> handle.Some?)
      requires Settled(w0, b0, kernel.world, supervisor.View()) && Coherent(w0, b0)
      requires checker.Valid() && checker.successThreshold == Successes() && checker.failureThreshold == Failures()
      requires checker.history == Health.Outcomes(trace) && checker.state.Unknown?
      requires Health.Paced(trace, start, service.startupTimeout, health.interval)
      requires start <= now < start + service.startupTimeout && now == clock.now
      requires trace != [] ==> now >= trace[|trace|-1].at + health.interval
      modifies checker, supervisor, network, kernel`world
      ensures Inv() && Settled(w0, b0, kernel.world, supervisor.View())
      ensures kernel.world.signals == old(kernel.world).signals
      ensures Tracked(w0, b0, handle) ==> Single()
      ensures checker.Valid() && checker.history == Health.Outcomes(trace') && checker.state == state
      ensures trace' == trace + [Health.Probed(now, ok)] && Logged(trace', q0, n0)
      ensures ok && health.kind.ProcessAlive? ==> Alive()
      ensures Health.Paced(trace', start, service.startupTimeout, health.interval)
      ensures Health.Ready(trace', Successes(), Failures()) <==> state.Healthy?
      ensures state.Healthy? ==> ReadyAt(trace', start)
      ensures state.Unhealthy? ==> Health.RunEnds(Health.Outcomes(trace'), |trace'|, Failures(), false)
    {
      hide Inv, Coherent, Settled, Tracked, Health.Ready, Health.RunEnds, Health.Trailing, Health.Paced, Health.Decides;
      hide LoggedFrom, LoggedOne, DeploymentEngine.Alive, DeploymentEngine.Single;
      ghost var q, n := supervisor.asked, network.answers;
      var outcome := Probe(w0, b0);
      ok := outcome.Ok?;
      ghost var p := Health.Probed(now, ok);
      LoggedNext(health.kind, handle, trace, p, q0, n0, q, n, supervisor.asked, network.answers);
      state := Judge(checker, outcome, now, trace, start);
      trace' := trace + [p];
    }

    /** What one more outcome makes of the checker. */
    method Judge(checker: Health.HealthChecker, outcome: Result<Unit, string>, now: int,
        ghost trace: seq<Health.Probed>, ghost start: int)
      returns (state: Health.HealthState)
      requires checker.Valid() && checker.successThreshold == Successes() && checker.failureThreshold == Failures()
      requires checker.history == Health.Outcomes(trace) && checker.state.Unknown?
      requires Health.Paced(trace, start, service.startupTimeout, health.interval)
      requires start <= now < start + service.startupTimeout
      requires trace != [] ==> now >= trace[|trace|-1].at + health.interval
      modifies checker
      ensures var trace' := trace + [Health.Probed(now, outcome.Ok?)];
        && checker.Valid() && checker.history == Health.Outcomes(trace') && checker.state == state
        && Health.Paced(trace', start, service.startupTimeout, health.interval)
        && (Health.Ready(trace', Successes(), Failures()) <==> state.Healthy?)
        && (state.Healthy? ==> outcome.Ok? && RunReady(trace', now))
        && (state.Unhealthy? ==> Health.RunEnds(Health.Outcomes(trace'), |trace'|, Failures(), false))
    {
      hide Inv, Health.Ready, Health.RunEnds, Health.Trailing, Health.Paced, Health.Decides;
      ghost var p := Health.Probed(now, outcome.Ok?);
      Health.OutcomesNext(trace, p);
      Health.PacedNext(trace, p, start, service.startupTimeout, health.interval);
      state := checker.Evaluate(Some(outcome));
      Health.FirstDecision(trace, p, Successes(), Failures(), state);
      if state.Healthy? {
        LastSucceeded(trace, p, Successes());
        ReadyAfter(trace + [p], start, service.startupTimeout, health.interval, Successes());
      }
    }

    /** The last probes were successes, as many as asked for, and all but the first one interval or more after
        the one before. */
    ghost predicate RunReady(trace: seq<Health.Probed>, now: int) {
      && Health.RunEnds(Health.Outcomes(trace), |trace|, Successes(), true) && Successes() <= |trace|
      && now >= trace[|trace| - Successes()].at + (Successes() - 1) * health.interval
    }

    /** One probe: the process is asked after, or the network is. */
    method Probe(ghost w0: World, ghost b0: Books) returns (r: Result<Unit, string>)
      requires Inv() && (health.kind.ProcessAlive? ==> handle.Some?)
      requires Settled(w0, b0, kernel.world, supervisor.View()) && Coherent(w0, b0)
      modifies supervisor, network, kernel`world
      ensures Inv() && Settled(w0, b0, kernel.world, supervisor.View())
      ensures kernel.world.signals == old(kernel.world).signals
      ensures Tracked(w0, b0, handle) ==> Single()
      ensures r.Ok? && health.kind.ProcessAlive? ==> Alive()
      ensures LoggedOne(health.kind, handle, Health.Probed(clock.now, r.Ok?), old(supervisor.asked),
        old(network.answers), supervisor.asked, network.answers)
    {
      hide Coherent, Settled, Tracked, Honest, Steps, SafeIn, Proper, NoService, Issued, Polled, Present;
      ghost var w, b := kernel.world, supervisor.View();
      if Tracked(w0, b0, handle) { TrackedSettled(w0, b0, w, b, handle); }
      if health.kind.Network? {
        r := network.Probe(clock);
        return;
      }
      var status := supervisor.Status(handle.value);
      AimedPoll(w0, w, b, kernel.world, supervisor.View(), handle.value.id);
      SettledPoll(w0, b0, w, b, kernel.world, supervisor.View(), handle.value.id);
      PollKeeps(w, b, kernel.world, supervisor.View(), handle.value.id, disk.view.runtime, kernel.bootIdentity);
      if Tracked(w0, b0, handle) { TrackedSettled(w0, b0, kernel.world, supervisor.View(), handle); }
      if status.Err? {
        return Err("the supervisor cannot tell");
      }
      if !status.value.state.Alive? {
        return Err("the process is not running");
      }
      AliveIsPresent(kernel.world, supervisor.View(), handle.value);
      r := Ok(Unit.Unit);
    }

    /** The trace is what was asked and answered since then. */
    ghost predicate Logged(trace: seq<Health.Probed>, q0: seq<Asked>, n0: seq<Health.Probed>)
      reads this`handle, supervisor`asked, network`answers
    {
      LoggedFrom(health.kind, handle, trace, q0, n0, supervisor.asked, network.answers)
    }

    /** The trace is what was asked and answered last, after the first `q` questions and `n` answers. */
    ghost predicate LoggedLast(trace: seq<Health.Probed>, q: nat, n: nat)
      reads this`handle, supervisor`asked, network`answers
    {
      var k := |supervisor.asked| - if health.kind.Network? then 0 else |trace|;
      var m := |network.answers| - if health.kind.Network? then |trace| else 0;
      k >= q && m >= n && Logged(trace, supervisor.asked[..k], network.answers[..m])
    }

    /** The last probes that were made found the service ready. */
    ghost predicate FoundReady(q: nat, n: nat)
      reads this`handle, kernel`world, supervisor, clock, network
    {
      exists trace, start :: ReadyAt(trace, start) && LoggedLast(trace, q, n)
    }

    lemma Found(trace: seq<Health.Probed>, start: int, q: nat, n: nat)
      requires ReadyAt(trace, start) && LoggedLast(trace, q, n)
      ensures FoundReady(q, n)
    {
    }

    /** The handle's process runs the active release, and the record says so. */
    ghost predicate ActiveRuns()
      reads this`handle, kernel`world, supervisor`finished, supervisor`adopted, supervisor`mine, disk`view
    {
      PointersOf(disk.view).Some? && InStep(PointersOf(disk.view).value.active)
    }

    lemma LoggedEarlier(trace: seq<Health.Probed>, q: nat, n: nat, q': nat, n': nat)
      requires q' <= q && n' <= n
      ensures LoggedLast(trace, q, n) ==> LoggedLast(trace, q', n')
    {
    }

    lemma LoggedOn(trace: seq<Health.Probed>, q0: seq<Asked>, n0: seq<Health.Probed>)
      requires Logged(trace, q0, n0)
      ensures q0 <= supervisor.asked && n0 <= network.answers
    {
    }

    lemma NoVerdict(start: int)
      requires !Health.Ready([], Successes(), Failures())
      requires Health.Paced([], start, service.startupTimeout, health.interval)
      ensures Verdict(Err(NoProbe), [], start)
    {
    }

    lemma LoggedIsLast(trace: seq<Health.Probed>, q0: seq<Asked>, n0: seq<Health.Probed>, q: nat, n: nat)
      requires Logged(trace, q0, n0) && q <= |q0| && n <= |n0|
      ensures LoggedLast(trace, q, n)
    {
      assert supervisor.asked[..|q0|] == q0 && network.answers[..|n0|] == n0;
    }

    function Successes(): (n: nat) ensures n >= 1 { Max(health.successThreshold, 1) }

    function Failures(): (n: nat) ensures n >= 1 { Max(health.failureThreshold, 1) }

    /** Without a mishap a stop fails only because a process outlives SIGKILL, or somebody else took its pid. */
    ghost predicate StopExcused(stop: StopFailure, w: World)
      reads supervisor`found, kernel`world, clock`ticks
    {
      && stop.StillThere?
      && ((stop.fault == StillAlive && WatchedInVain(clock.ticks, supervisor.found, service.stopTimeout))
          || PidTaken(w, kernel.world))
    }

    /** Without a mishap a launch fails only because the executable is not allowed, or not in the release. */
    predicate LaunchExcused(e: LaunchFailure, id: string, dirs: map<string, Tree>) {
      || (e.ExecutableRefused? && ExecutableAllowed().Err?)
      || (e.ExecutableMissing? && !(id in dirs && Canonical(service.executable) in dirs[id]))
    }

    /** Without a mishap an operation on release `id` fails only for these reasons; `p` is what the pointers were. */
    ghost predicate Excused(e: Failure, id: CText, source: Option<Tree>, dirs: map<string, Tree>, p: Option<Pointers>,
        w: World)
      reads supervisor`found, kernel`world, clock`ticks
    {
      match e
      case BadExecutable(_) => ExecutableAllowed().Err?
      case InstallFailed(_) =>
        installer.serviceRoot == "" || !ValidId(id) || source.None? || !Copyable(source.value)
      case StateFailed(_) => p.None?
      case StopFailed(stop) => StopExcused(stop, w)
      case ActivateFailed(_, _) => !ValidId(id) || id !in dirs || p.None?
      case NotActivated(_) => !ValidId(id) || id !in dirs || p.None?
      case LaunchFailed(launch) => LaunchExcused(launch, id, dirs)
      case Recovered(cause, recovery) =>
        && (cause.DidNotStart? ==> LaunchExcused(cause.launch, id, dirs))
        && p.Some? && RecoveryExcused(recovery, AfterActivate(p.value, id).previous, dirs, w)
      case NotInstalledHere => id !in dirs
      case NoActiveRelease => p.Some? && p.value.active == ""
      case ReadinessFailed(_) => true
      case _ => false
    }

    /** The same, and if the service was not ready in time, the waiting that shows it. */
    ghost predicate Reason(e: Failure, id: CText, source: Option<Tree>, dirs: map<string, Tree>, p: Option<Pointers>,
        w: World, q: nat, n: nat, t: nat)
      reads supervisor, kernel`world, clock`ticks, network`answers
    {
      && Excused(e, id, source, dirs, p, w)
      && (e.ReadinessFailed? ==> Waited(e.ready, q, n, t, supervisor.asked, network.answers, clock.ticks))
      && (e.Recovered? && e.cause.NotReady? ==>
            Waited(e.cause.ready, q, n, t, supervisor.asked, network.answers, clock.ticks))
    }

    /** The same of going back to the release `previous`. */
    ghost predicate RecoveryExcused(recovery: Recovery, previous: CText, dirs: map<string, Tree>, w: World)
      reads supervisor`found, kernel`world, clock`ticks
    {
      match recovery
      case NotStopped(stop) => StopExcused(stop, w)
      case NoTarget(_) => previous == "" || previous !in dirs
      case NotRestarted(_, launch) => LaunchExcused(launch, previous, dirs)
      case RolledBack(_) => true
    }

    lemma RecoveryEarlier(recovery: Recovery, previous: CText, dirs: map<string, Tree>, w: World, w1: World)
      requires LaunchedFrom(w, w1, dirs)
      ensures RecoveryExcused(recovery, previous, dirs, w1) ==> RecoveryExcused(recovery, previous, dirs, w)
    {
      if recovery.NotStopped? && StopExcused(recovery.stop, w1) { ExcusedEarlier(recovery.stop, w, w1); }
    }

    lemma ExcusedEarlier(stop: StopFailure, w: World, w1: World)
      requires StopExcused(stop, w1) && Grows(w, w1)
      ensures StopExcused(stop, w)
    {
    }

    /** The process the handle names is in the table. */
    ghost predicate Alive()
      reads this`handle, kernel`world, supervisor`finished, supervisor`adopted, supervisor`mine
    {
      handle.Some? && handle.value.id in supervisor.mine && Present(kernel.world, supervisor.mine[handle.value.id])
    }

    // -------------------------------------------------------------- after an agent restart

    /** Takes the recorded process over if it is still there, and stops it if it is not of `id`.
        The handle ends up naming the only service there can be, unless a fault kept the engine from
        telling, or it failed before it got that far. */
    method Resume(id: CText) returns (r: Result<Unit, Failure>)
      requires Inv()
      modifies this`handle, supervisor, kernel, clock, disk`view, disk`history, disk`queryFaults, disk`ioFaults
      ensures Inv() && old(disk.history) <= disk.history && disk.queryFaults >= old(disk.queryFaults)
      ensures RecordSince(old(disk.view), |old(disk.history)|, disk.history) && OnlyRecord(old(disk.view), disk.view)
      ensures Grows(old(kernel.world), kernel.world) && kernel.world.launched == old(kernel.world).launched
      ensures kernel.world.tokenFaults >= old(kernel.world).tokenFaults
      ensures old(Single()) ==> Single()
      ensures old(ByRecord()) && NoFault(old(disk.queryFaults), old(disk.stateFaults), old(kernel.world)) ==>
        Single() || (r.Err? && ByRecord() && handle == old(handle))
      ensures r.Ok? && old(handle).None? && handle.Some? ==>
        && Runs(kernel.world, supervisor.View(), handle, id)
        && Recorded(disk.view.runtime, handle, id, kernel.bootIdentity)
      ensures kernel.world.peak == old(kernel.world).peak && NoneRevived(old(kernel.world), kernel.world)
      ensures !IsNew(old(kernel.world))
      ensures old(handle).None? && handle.Some? ==>
        && RecordOf(old(disk.view).runtime).Some?
        && Adoptable(RecordOf(old(disk.view).runtime).value, kernel.bootIdentity)
        && Recoverable(old(kernel.world), RecordOf(old(disk.view).runtime).value)
      ensures r.Err? ==> r.error != NoActiveRelease
      ensures MoreMishaps(old(Mishaps()), Mishaps())
      ensures r.Err? && Mishaps() == old(Mishaps()) ==>
        r.error.StopFailed? && StopExcused(r.error.stop, old(kernel.world))
      ensures old(clock.ticks) <= clock.ticks && old(supervisor.asked) <= supervisor.asked
    {
      hide Coherent, Honest, Held, Issued, Steps, KeepsChildren, NoService, SafeIn, Proper, Tracked, Covered,
        Settled, RecordOf, Aimed, NoLonger, Present, MoreMishaps, DeploymentEngine.StopExcused;
      MishapsRead(disk, kernel);
      ghost var m0 := Mishaps();
      GrowsSelf(kernel.world);
      NobodyRevived(kernel.world);
      HeldIsOld(kernel.world, supervisor.View(), handle);
      var recorded := ReadRecord();
      ghost var m1 := Mishaps();
      MishapsRead(disk, kernel);
      MishapsAddUp(m0, m1, m1);
      if recorded.Err? {
        return Err(recorded.error);
      }
      var record := recorded.value;
      if record.processId <= 0 {
        return Ok(Unit.Unit);
      }
      var identity := kernel.BootIdentity();
      ghost var m2 := Mishaps();
      MishapsRead(disk, kernel);
      MishapsGrow(m1, m2);
      MishapsAddUp(m0, m1, m2);
      if identity.None? {
        return Err(IdentityUnreadable);
      }
      if identity.value != record.bootIdentity {
        r := Forget();
        MishapsAddUp(m0, m2, Mishaps());
        return;
      }
      r := TakeOver(id, record);
      MishapsAddUp(m0, m2, Mishaps());
    }

    /** Adopts the recorded process, and stops it if it is not of `id`. */
    method TakeOver(id: CText, record: RuntimeRecord) returns (r: Result<Unit, Failure>)
      requires Inv() && RecordOf(disk.view.runtime) == Some(record)
      requires record.processId > 0 && record.bootIdentity == kernel.bootIdentity
      modifies this`handle, supervisor, kernel, clock, disk`view, disk`history, disk`ioFaults
      ensures Inv() && old(disk.history) <= disk.history
      ensures RecordSince(old(disk.view), |old(disk.history)|, disk.history) && OnlyRecord(old(disk.view), disk.view)
      ensures Grows(old(kernel.world), kernel.world) && kernel.world.launched == old(kernel.world).launched
      ensures old(Single()) ==> Single()
      ensures old(ByRecord()) && kernel.world.tokenFaults == old(kernel.world).tokenFaults ==> Single()
      ensures kernel.world.peak == old(kernel.world).peak && NoneRevived(old(kernel.world), kernel.world)
      ensures !IsNew(old(kernel.world))
      ensures old(handle).None? && handle.Some? ==>
        Adoptable(record, kernel.bootIdentity) && Recoverable(old(kernel.world), record)
      ensures r.Ok? && old(handle).None? && handle.Some? ==> InStep(id)
      ensures r.Err? ==> r.error != NoActiveRelease
      ensures MoreMishaps(old(Mishaps()), Mishaps())
      ensures r.Err? && Mishaps() == old(Mishaps()) ==>
        r.error.StopFailed? && StopExcused(r.error.stop, old(kernel.world))
      ensures old(clock.ticks) <= clock.ticks && old(supervisor.asked) <= supervisor.asked
    {
      hide Coherent, Honest, Held, Issued, Steps, KeepsChildren, NoService, SafeIn, Proper, Tracked, Covered,
        Settled, RecordOf, Aimed, Runs, MoreMishaps, MishapsOf, DeploymentEngine.StopExcused;
      ghost var m0 := Mishaps();
      ghost var w0 := kernel.world;
      var taken := Take(record);
      ghost var m1 := Mishaps();
      if !taken {
        r := Forget();
        MishapsAddUp(m0, m1, Mishaps());
        return;
      }
      if record.releaseId == id {
        return Ok(Unit.Unit);
      }
      ghost var w1, b1 := kernel.world, supervisor.View();
      var stopped := Stop();
      MishapsAddUp(m0, m1, Mishaps());
      if stopped.Err? && Mishaps() == m1 { ExcusedEarlier(stopped.error, w0, w1); }
      SameMine(w1, b1, kernel.world, supervisor.View());
      SettledGrows(w1, b1, kernel.world, supervisor.View());
      SettledRevives(w1, b1, kernel.world, supervisor.View());
      RevivedLater(w0, w1, kernel.world);
      GrowsTransitive(w0, w1, kernel.world);
      r := if stopped.Err? then Err(StopFailed(stopped.error)) else Ok(Unit.Unit);
    }

    method ReadRecord() returns (r: Result<RuntimeRecord, Failure>)
      requires Inv()
      modifies disk`view, disk`history, disk`queryFaults, disk`ioFaults
      ensures Inv() && old(disk.history) <= disk.history && disk.queryFaults >= old(disk.queryFaults)
      ensures RecordSince(old(disk.view), |old(disk.history)|, disk.history) && OnlyRecord(old(disk.view), disk.view)
      ensures r.Err? ==> r.error == RecordUnreadable && disk.view == old(disk.view)
      ensures r.Ok? && r.value.processId > 0 ==>
        disk.view == old(disk.view) && RecordOf(disk.view.runtime) == Some(r.value)
      ensures r.Ok? && old(ByRecord()) && disk.queryFaults == old(disk.queryFaults) ==>
        Adoptable(r.value, kernel.bootIdentity) || Single()
      ensures MoreMishaps(old(Mishaps()), Mishaps())
      ensures r.Err? ==> Mishaps() != old(Mishaps())
    {
      hide Coherent, Honest, Held, NoService, SafeIn, Proper, Tracked, Covered, RecordOf;
      MishapsRead(disk, kernel);
      ghost var s0 := disk.view;
      CoveredIdle(kernel.world, supervisor.View(), handle, s0.runtime, kernel.bootIdentity);
      r := Record();
      RecordLost(kernel.world, s0, disk.view, installer.activated, lost, kernel.bootIdentity);
    }

    /** Drops a record that is of no use. */
    method Forget() returns (r: Result<Unit, Failure>)
      requires Inv()
      modifies disk`view, disk`history, disk`ioFaults
      ensures Inv() && old(disk.history) <= disk.history
      ensures RecordSince(old(disk.view), |old(disk.history)|, disk.history) && OnlyRecord(old(disk.view), disk.view)
      ensures r.Err? ==> r.error == RecordUnreadable
      ensures MoreMishaps(old(Mishaps()), Mishaps())
      ensures r.Err? ==> Mishaps() != old(Mishaps())
    {
      hide Coherent, Honest, Held, NoService, SafeIn, Proper;
      ghost var s := disk.view;
      var cleared := ClearRecord();
      RecordLost(kernel.world, s, disk.view, installer.activated, lost, kernel.bootIdentity);
      r := if cleared then Ok(Unit.Unit) else Err(RecordUnreadable);
    }

    /** Adopts the recorded process. */
    method Take(record: RuntimeRecord) returns (taken: bool)
      requires Inv() && RecordOf(disk.view.runtime) == Some(record)
      requires record.processId > 0 && record.bootIdentity == kernel.bootIdentity
      modifies this`handle, supervisor`finished, supervisor`adopted, supervisor`mine, kernel`world
      ensures Inv()
      ensures Grows(old(kernel.world), kernel.world) && kernel.world.launched == old(kernel.world).launched
      ensures kernel.world.tokenFaults >= old(kernel.world).tokenFaults
      ensures kernel.world.peak == old(kernel.world).peak && NoneRevived(old(kernel.world), kernel.world)
      ensures !IsNew(old(kernel.world))
      ensures old(Single()) ==> Single()
      ensures old(ByRecord()) && kernel.world.tokenFaults == old(kernel.world).tokenFaults ==> Single()
      ensures if taken
        then
          && handle == Some(ProcessHandle(record.processId, record.startToken))
          && Runs(kernel.world, supervisor.View(), handle, record.releaseId)
          && Adoptable(record, kernel.bootIdentity)
          && Recoverable(old(kernel.world), record)
        else handle == old(handle)
      ensures MoreMishaps(old(Mishaps()), Mishaps())
    {
      hide Coherent, Honest, Issued, Steps, KeepsChildren, NoService, SafeIn, Proper, Tracked, Covered, Settled,
        RecordOf, NoLonger, Present, Quiet;
      ghost var w0, b0 := kernel.world, supervisor.View();
      ghost var doc, boot := disk.view.runtime, kernel.bootIdentity;
      HeldIsOld(w0, b0, handle);
      var wanted := ProcessHandle(record.processId, record.startToken);
      var adopted := supervisor.Adopt(wanted);
      taken := adopted.Ok?;
      QuietCalls(w0, kernel.world);
      QuietFacts(w0, kernel.world, b0, handle);
      QuietRevives(w0, kernel.world);
      HonestStays(w0, kernel.world, doc, boot);
      if !taken {
        if Covered(w0, doc, boot) && kernel.world.tokenFaults == w0.tokenFaults {
          GoneMeansIdle(w0, kernel.world, wanted, record, doc, boot);
          IdleTracked(w0, kernel.world, b0, handle, doc, boot);
        }
        return;
      }
      AdoptedRuns(w0, kernel.world, supervisor.View(), wanted, record, doc, boot);
      AdoptedWasThere(w0, kernel.world, supervisor.View(), wanted, record, doc, boot);
      if Tracked(w0, b0, handle) || Covered(w0, doc, boot) {
        TrackedAdopt(w0, b0, kernel.world, supervisor.View(), handle, wanted, record, doc, boot);
      }
      handle := Some(adopted.value);
    }

    /** Before an agent has taken over: the service process there may be is the recorded one. */
    ghost predicate ByRecord()
      reads kernel`world, disk`view
    {
      Covered(kernel.world, disk.view.runtime, kernel.bootIdentity)
    }

    /** The record could be used to adopt a process of this boot. */
    predicate Usable()
      reads disk`view
    {
      RecordOf(disk.view.runtime).Some? && Adoptable(RecordOf(disk.view.runtime).value, kernel.bootIdentity)
    }

    /** Since then no question about a file has failed. */
    ghost predicate NoMisread(queryFaults: nat, stateFaults: nat)
      reads disk
    {
      disk.queryFaults == queryFaults && disk.stateFaults == stateFaults
    }

    /** Nor has a look at a start token. */
    ghost predicate NoFault(queryFaults: nat, stateFaults: nat, w: World)
      reads disk, kernel
    {
      NoMisread(queryFaults, stateFaults) && kernel.world.tokenFaults == w.tokenFaults
    }

    /** Takes over the service after an agent restart, or starts the active release. When it succeeds
        the handle, the record and the active pointer name one process and one release. */
    method StartActive() returns (r: Result<Unit, Failure>)
      requires Inv()
      modifies this`handle, supervisor, kernel, clock, disk`view, disk`history, disk`queryFaults, disk`stateFaults
      modifies disk`ioFaults
      ensures Inv() && old(disk.history) <= disk.history && disk.queryFaults >= old(disk.queryFaults)
      ensures disk.stateFaults >= old(disk.stateFaults)
      ensures RecordSince(old(disk.view), |old(disk.history)|, disk.history) && OnlyRecord(old(disk.view), disk.view)
      ensures LaunchedFrom(old(kernel.world), kernel.world, disk.view.dirs)
      ensures kernel.world.tokenFaults >= old(kernel.world).tokenFaults
      ensures old(Single()) ==> Single()
      ensures old(ByRecord()) && NoFault(old(disk.queryFaults), old(disk.stateFaults), old(kernel.world)) ==>
        Single() || (r.Err? && r.error != NoActiveRelease && ByRecord() && handle == old(handle))
      ensures r.Ok? ==> handle.Some?
      ensures NoneRevived(old(kernel.world), kernel.world)
      ensures r.Ok? && IsNew(old(kernel.world)) ==> Doubles(old(kernel.world), kernel.world)
      ensures r.Ok? && old(handle).None? && !old(Usable()) ==> IsNew(old(kernel.world))
      ensures r.Ok? && old(handle).None? && NoFault(old(disk.queryFaults), old(disk.stateFaults), old(kernel.world)) ==>
        OneExactlyIfNamed(old(kernel.world), old(disk.view).runtime, kernel.bootIdentity, kernel.world)
      ensures r.Ok? && old(handle).None? ==> PointersOf(disk.view).Some? && InStep(PointersOf(disk.view).value.active)
      ensures MoreMishaps(old(Mishaps()), Mishaps())
      ensures r.Err? && Mishaps() == old(Mishaps()) ==>
        Excused(r.error, ActiveOf(old(disk.view)), None, old(disk.view).dirs, PointersOf(old(disk.view)),
          old(kernel.world))
      ensures old(clock.ticks) <= clock.ticks && old(supervisor.asked) <= supervisor.asked
    {
      hide Coherent, Honest, Held, Issued, Steps, KeepsChildren, NoService, SafeIn, Proper, Tracked, Covered,
        LaunchedFrom, Grows, PointersOf, OneExactlyIfNamed, Doubles, Survives,
        MoreMishaps, DeploymentEngine.StopExcused;
      MishapsRead(disk, kernel);
      ghost var m0 := Mishaps();
      ghost var w0, s0 := kernel.world, disk.view;
      NothingLaunched(w0, s0.dirs);
      NobodyRevived(w0);
      var current := installer.State();
      ghost var m1 := Mishaps();
      MishapsRead(disk, kernel);
      MishapsGrow(m0, m1);
      ActiveRead(disk.view);
      if current.Err? {
        return Err(StateFailed(current.error));
      }
      if current.value.active == "" {
        CoveredNoService(kernel.world, supervisor.View(), handle, disk.view.runtime, kernel.bootIdentity);
        return Err(NoActiveRelease);
      }
      ProperActive(disk.view);
      r := TakeOverOrLaunch(current.value.active);
      MishapsAddUp(m0, m1, Mishaps());
      SafeOnlyRecord(s0, disk.view, installer.activated, lost);
    }

    /** The part of `start_active` for a known active release. */
    method TakeOverOrLaunch(id: CText) returns (r: Result<Unit, Failure>)
      requires Inv() && ValidId(id) && HasActive(disk.view)
      modifies this`handle, supervisor, kernel, clock, disk`view, disk`history, disk`queryFaults, disk`ioFaults
      ensures Inv() && old(disk.history) <= disk.history && disk.queryFaults >= old(disk.queryFaults)
      ensures RecordSince(old(disk.view), |old(disk.history)|, disk.history) && OnlyRecord(old(disk.view), disk.view)
      ensures LaunchedFrom(old(kernel.world), kernel.world, disk.view.dirs)
      ensures kernel.world.tokenFaults >= old(kernel.world).tokenFaults
      ensures old(Single()) ==> Single()
      ensures old(ByRecord()) && NoFault(old(disk.queryFaults), old(disk.stateFaults), old(kernel.world)) ==>
        Single() || (r.Err? && ByRecord() && handle == old(handle))
      ensures r.Err? ==> r.error != NoActiveRelease
      ensures r.Ok? ==> handle.Some?
      ensures NoneRevived(old(kernel.world), kernel.world)
      ensures r.Ok? && IsNew(old(kernel.world)) ==> Doubles(old(kernel.world), kernel.world)
      ensures r.Ok? && old(handle).None? && !old(Usable()) ==> IsNew(old(kernel.world))
      ensures r.Ok? && old(handle).None? && NoFault(old(disk.queryFaults), old(disk.stateFaults), old(kernel.world)) ==>
        OneExactlyIfNamed(old(kernel.world), old(disk.view).runtime, kernel.bootIdentity, kernel.world)
      ensures r.Ok? && old(handle).None? ==> InStep(id)
      ensures MoreMishaps(old(Mishaps()), Mishaps())
      ensures r.Err? && Mishaps() == old(Mishaps()) ==>
        Excused(r.error, id, None, old(disk.view).dirs, PointersOf(old(disk.view)), old(kernel.world))
      ensures old(clock.ticks) <= clock.ticks && old(supervisor.asked) <= supervisor.asked
    {
      hide Coherent, Honest, Held, Issued, Steps, KeepsChildren, NoService, SafeIn, Proper, Tracked, Covered,
        LaunchedFrom, Grows, PointersOf, RecordOf, NoneRevived, Survives, Recoverable, OneExactlyIfNamed, Doubles,
        MoreMishaps, MishapsOf, DeploymentEngine.Inv, DeploymentEngine.StopExcused,
        DeploymentEngine.LaunchExcused;
      Parts();
      ghost var m0 := Mishaps();
      ghost var w0, s0 := kernel.world, disk.view;
      ghost var doc, boot := s0.runtime, kernel.bootIdentity;
      var resumed := Resume(id);
      ghost var m1 := Mishaps();
      GrowsIsLaunched(w0, kernel.world, disk.view.dirs);
      SafeOnlyRecord(s0, disk.view, installer.activated, lost);
      if resumed.Err? {
        return Err(resumed.error);
      }
      if handle.Some? {
        if old(handle).None? { AdoptedExactly(w0, doc, boot, kernel.world); }
        return Ok(Unit.Unit);
      }
      TrackedNone(kernel.world, supervisor.View());
      ghost var w1, s1 := kernel.world, disk.view;
      var launched := Launch(id);
      MishapsAddUp(m0, m1, Mishaps());
      LaunchedLater(w0, w1, kernel.world, disk.view.dirs);
      RevivedLater(w0, w1, kernel.world);
      SafeOnlyRecord(s1, disk.view, installer.activated, lost);
      OnlyRecordChain(s0, s1, disk.view);
      DoublesLater(w0, w1, kernel.world);
      LaunchedExactly(w0, doc, boot, kernel.world, supervisor.View(), handle);
      r := if launched.Err? then Err(LaunchFailed(launched.error)) else Ok(Unit.Unit);
    }

    /** The handle's process runs release `id`, and the record says so. */
    ghost predicate InStep(id: CText)
      reads this`handle, kernel`world, supervisor`finished, supervisor`adopted, supervisor`mine, disk`view
    {
      && Runs(kernel.world, supervisor.View(), handle, id)
      && Recorded(disk.view.runtime, handle, id, kernel.bootIdentity)
    }

    // -------------------------------------------------------------- operations

    method LaunchAndAwait(id: CText) returns (r: Result<Unit, Cause>, ghost trace: seq<Health.Probed>, ghost start: int)
      requires Inv() && ValidId(id) && HasActive(disk.view)
      modifies this`handle, supervisor, network, kernel, clock, disk`view, disk`history, disk`queryFaults, disk`ioFaults
      ensures Inv() && old(disk.history) <= disk.history && disk.queryFaults >= old(disk.queryFaults)
      ensures DirsSince(old(disk.view), |old(disk.history)|, disk.history) && OnlyRecord(old(disk.view), disk.view)
      ensures LaunchedFrom(old(kernel.world), kernel.world, disk.view.dirs)
      ensures NoService(old(kernel.world)) && old(kernel.world).peak <= 1 ==> Single()
      ensures r.Ok? ==>
        && InStep(id) && Started(id) && IsNew(old(kernel.world)) && ReadyAt(trace, start)
        && LoggedLast(trace, |old(supervisor.asked)|, |old(network.answers)|)
      ensures r.Ok? ==> OneMore(old(kernel.world), kernel.world)
      ensures MoreMishaps(old(Mishaps()), Mishaps())
      ensures r.Err? && r.error.DidNotStart? && Mishaps() == old(Mishaps()) ==>
        LaunchExcused(r.error.launch, id, old(disk.view).dirs)
      ensures r.Err? && r.error.NotReady? ==>
        Waited(r.error.ready, |old(supervisor.asked)|, |old(network.answers)|, |old(clock.ticks)|,
        supervisor.asked, network.answers, clock.ticks)
      ensures old(clock.ticks) <= clock.ticks && old(supervisor.asked) <= supervisor.asked
    {
      hide DeploymentEngine.LoggedLast, DeploymentEngine.Logged;
      hide Coherent, Honest, Held, Issued, Steps, KeepsChildren, NoService, SafeIn, Proper, Tracked, LaunchedFrom,
        Grows, PointersOf, Settled, Aimed;
      hide Health.Ready, Health.RunEnds, Health.Paced, MoreMishaps, MishapsOf, DeploymentEngine.StopExcused,
        DeploymentEngine.Waited;
      ghost var m0 := Mishaps();
      trace, start := [], 0;
      ghost var w0, s0, n0 := kernel.world, disk.view, |disk.history|;
      var launched := Launch(id);
      ghost var m1 := Mishaps();
      RecordIsDirs(s0, n0, disk.history);
      if launched.Err? {
        return Err(DidNotStart(launched.error)), trace, start;
      }
      ghost var w1, b1 := kernel.world, supervisor.View();
      var ready;
      ghost var asked, answers := supervisor.asked, network.answers;
      ready, trace, start := AwaitReady();
      MishapsAddUp(m0, m1, Mishaps());
      LoggedIsLast(trace, asked, answers, |old(supervisor.asked)|, |old(network.answers)|);
      StopLaunches(w1, b1, kernel.world, supervisor.View(), disk.view.dirs);
      SameMine(w1, b1, kernel.world, supervisor.View());
      if Doubles(w0, w1) && NoneRevived(w0, w1) {
        OneMoreStays(w0, w1, b1, kernel.world, supervisor.View(), disk.view.dirs);
      }
      LaunchedLater(w0, w1, kernel.world, disk.view.dirs);
      r := if ready.Err? then Err(NotReady(ready.error)) else Ok(Unit.Unit);
    }

    /** Goes back to the previous release after a failed start. */
    method Recover() returns (r: Recovery)
      requires Inv()
      modifies this`handle, supervisor, kernel, clock, disk
      ensures Inv() && old(disk.history) <= disk.history && disk.queryFaults >= old(disk.queryFaults)
      ensures disk.failedRemovals == old(disk.failedRemovals)
      ensures disk.stateFaults >= old(disk.stateFaults) && disk.stagingFaults == old(disk.stagingFaults)
      ensures DirsSince(old(disk.view), |old(disk.history)|, disk.history) && disk.view.dirs == old(disk.view).dirs
      ensures LaunchedFrom(old(kernel.world), kernel.world, disk.view.dirs)
      ensures old(Single()) ==> Single()
      ensures r.NotStopped? || r.NoTarget? ==> disk.view.state == old(disk.view).state
      ensures r.NotRestarted? || r.RolledBack? ==>
        && PointersOf(old(disk.view)).Some?
        && PointersOf(disk.view) == Some(AfterRollback(PointersOf(old(disk.view)).value))
        && r.id == PointersOf(old(disk.view)).value.previous
      ensures r.NoTarget? ==> handle.None? && (old(Single()) ==> NoService(kernel.world))
      ensures r.RolledBack? ==> Started(r.id) && InStep(r.id) && IsNew(old(kernel.world))
      ensures MoreMishaps(old(Mishaps()), Mishaps())
      ensures Mishaps() == old(Mishaps()) ==>
        RecoveryExcused(r, PreviousOf(old(disk.view)), old(disk.view).dirs, old(kernel.world))
      ensures old(clock.ticks) <= clock.ticks && old(supervisor.asked) <= supervisor.asked
    {
      hide Doubles, Survives, NoneRevived, Recorded;
      hide Coherent, Honest, Held, Issued, Steps, KeepsChildren, NoService, SafeIn, Proper, Tracked, LaunchedFrom,
        Grows, PointersOf, Settled, Runs, Aimed, MoreMishaps, MishapsOf, DeploymentEngine.StopExcused;
      ghost var m0 := Mishaps();
      ghost var w0, b0, s0, h0 := kernel.world, supervisor.View(), disk.view, disk.history;
      var stopped := Stop();
      ghost var m1 := Mishaps();
      StopLaunches(w0, b0, kernel.world, supervisor.View(), disk.view.dirs);
      RecordIsDirs(s0, |h0|, disk.history);
      ghost var w1, s1, h1 := kernel.world, disk.view, disk.history;
      SafeOnlyRecord(s0, s1, installer.activated, lost);
      if stopped.Err? {
        return NotStopped(stopped.error);
      }
      TrackedNone(kernel.world, supervisor.View());
      r := GoBack();
      MishapsAddUp(m0, m1, Mishaps());
      PreviousRead(s0, s1);
      DirsChain(s0, |h0|, h1, s1, disk.history);
      LaunchedLater(w0, w1, kernel.world, disk.view.dirs);
    }

    /** Swaps the pointers back and starts the release that is active then; nothing is running. */
    method GoBack() returns (r: Recovery)
      requires Inv() && handle.None?
      modifies this`handle, supervisor`finished, supervisor`adopted, supervisor`mine, kernel, disk
      ensures Inv() && old(disk.history) <= disk.history && disk.queryFaults >= old(disk.queryFaults)
      ensures disk.failedRemovals == old(disk.failedRemovals)
      ensures disk.stateFaults >= old(disk.stateFaults) && disk.stagingFaults == old(disk.stagingFaults)
      ensures DirsSince(old(disk.view), |old(disk.history)|, disk.history) && disk.view.dirs == old(disk.view).dirs
      ensures LaunchedFrom(old(kernel.world), kernel.world, disk.view.dirs)
      ensures NoService(old(kernel.world)) && old(kernel.world).peak <= 1 ==> Single()
      ensures !r.NotStopped?
      ensures r.NoTarget? ==>
        handle.None? && kernel.world == old(kernel.world) && disk.view.state == old(disk.view).state
      ensures r.NotRestarted? || r.RolledBack? ==>
        && PointersOf(old(disk.view)).Some?
        && PointersOf(disk.view) == Some(AfterRollback(PointersOf(old(disk.view)).value))
        && r.id == PointersOf(old(disk.view)).value.previous
      ensures r.RolledBack? ==> Started(r.id) && InStep(r.id) && IsNew(old(kernel.world))
      ensures MoreMishaps(old(Mishaps()), Mishaps())
      ensures Mishaps() == old(Mishaps()) ==>
        RecoveryExcused(r, PreviousOf(old(disk.view)), old(disk.view).dirs, old(kernel.world))
    {
      hide Doubles, Survives, NoneRevived, Recorded;
      hide Coherent, Honest, Held, Issued, Steps, KeepsChildren, NoService, SafeIn, Proper, Tracked, LaunchedFrom,
        Grows, PointersOf, Runs, MoreMishaps, DeploymentEngine.LaunchExcused;
      MishapsRead(disk, kernel);
      ghost var m0, s0, n0 := Mishaps(), disk.view, |disk.history|;
      NothingLaunched(kernel.world, disk.view.dirs);
      TrackedNone(kernel.world, supervisor.View());
      var reverted := installer.Rollback(lost);
      ghost var m1 := Mishaps();
      MishapsRead(disk, kernel);
      MishapsGrow(m0, m1);
      PreviousRead(s0, s0);
      ghost var s1, h1 := disk.view, disk.history;
      if reverted.Err? {
        NobodyTracked(kernel.world, supervisor.View());
        return NoTarget(reverted.error);
      }
      ProperActive(s1);
      var launched := Launch(reverted.value);
      MishapsAddUp(m0, m1, Mishaps());
      SafeOnlyRecord(s1, disk.view, installer.activated, lost);
      RecordIsDirs(s1, |h1|, disk.history);
      DirsChain(s0, n0, h1, s1, disk.history);
      r := if launched.Err? then NotRestarted(reverted.value, launched.error) else RolledBack(reverted.value);
    }

    /** Stops the service and starts the active release again. */
    method Restart() returns (r: Result<Unit, Failure>, ghost trace: seq<Health.Probed>, ghost start: int)
      requires Inv()
      modifies this`handle, supervisor, network, kernel, clock, disk`view, disk`history, disk`queryFaults, disk`ioFaults
      modifies disk`stateFaults, disk`ioFaults
      ensures Inv() && old(disk.history) <= disk.history && disk.queryFaults >= old(disk.queryFaults)
      ensures disk.stateFaults >= old(disk.stateFaults)
      ensures DirsSince(old(disk.view), |old(disk.history)|, disk.history) && disk.view.dirs == old(disk.view).dirs
      ensures disk.view.state == old(disk.view).state
      ensures LaunchedFrom(old(kernel.world), kernel.world, disk.view.dirs)
      ensures old(Single()) ==> Single()
      ensures r.Ok? ==>
        && PointersOf(disk.view).Some? && InStep(PointersOf(disk.view).value.active)
        && Started(PointersOf(disk.view).value.active)
        && IsNew(old(kernel.world)) && OneMore(old(kernel.world), kernel.world) && ReadyAt(trace, start)
        && LoggedLast(trace, |old(supervisor.asked)|, |old(network.answers)|)
      ensures MoreMishaps(old(Mishaps()), Mishaps())
      ensures r.Err? && Mishaps() == old(Mishaps()) ==>
        Excused(r.error, ActiveOf(old(disk.view)), None, old(disk.view).dirs, PointersOf(old(disk.view)),
          old(kernel.world))
      ensures r.Err? && r.error.ReadinessFailed? ==>
        Waited(r.error.ready, |old(supervisor.asked)|, |old(network.answers)|, |old(clock.ticks)|, supervisor.asked,
          network.answers, clock.ticks)
      ensures ExecutableAllowed().Err? <==> r.Err? && r.error.BadExecutable?
      ensures r.Err? ==> !r.error.Recovered?
    {
      hide DeploymentEngine.LoggedLast, DeploymentEngine.Logged;
      hide OneMore, Coherent, Honest, Held, Issued, Steps, KeepsChildren, NoService, SafeIn, Proper, Tracked,
        LaunchedFrom, Grows, PointersOf, Settled, Aimed;
      hide ReadyAt, Runs, Recorded, MoreMishaps, DeploymentEngine.StopExcused, DeploymentEngine.Waited,
        DeploymentEngine.LaunchExcused;
      MishapsRead(disk, kernel);
      ghost var m0 := Mishaps();
      trace, start := [], 0;
      ghost var w0, b0, s0, h0 := kernel.world, supervisor.View(), disk.view, disk.history;
      NothingLaunched(w0, s0.dirs);
      var valid := ExecutableAllowed();
      if valid.Err? {
        return Err(valid.error), trace, start;
      }
      var current := installer.State();
      ghost var m1 := Mishaps();
      MishapsRead(disk, kernel);
      MishapsGrow(m0, m1);
      ActiveRead(disk.view);
      if current.Err? {
        return Err(StateFailed(current.error)), trace, start;
      }
      if current.value.active == "" {
        return Err(NoActiveRelease), trace, start;
      }
      ProperActive(disk.view);
      r, trace, start := Relaunch(current.value.active);
      MishapsAddUp(m0, m1, Mishaps());
      SameStateSamePointers(s0, disk.view);
    }

    /** The part of `restart` for a known active release. */
    method Relaunch(id: CText) returns (r: Result<Unit, Failure>, ghost trace: seq<Health.Probed>, ghost start: int)
      requires Inv() && ValidId(id) && HasActive(disk.view)
      modifies this`handle, supervisor, network, kernel, clock, disk`view, disk`history, disk`queryFaults, disk`ioFaults
      ensures Inv() && old(disk.history) <= disk.history && disk.queryFaults >= old(disk.queryFaults)
      ensures DirsSince(old(disk.view), |old(disk.history)|, disk.history) && OnlyRecord(old(disk.view), disk.view)
      ensures LaunchedFrom(old(kernel.world), kernel.world, disk.view.dirs)
      ensures old(Single()) ==> Single()
      ensures r.Ok? ==>
        && InStep(id) && Started(id)
        && IsNew(old(kernel.world)) && OneMore(old(kernel.world), kernel.world) && ReadyAt(trace, start)
        && LoggedLast(trace, |old(supervisor.asked)|, |old(network.answers)|)
      ensures r.Err? ==> r.error.StopFailed? || r.error.LaunchFailed? || r.error.ReadinessFailed?
      ensures MoreMishaps(old(Mishaps()), Mishaps())
      ensures r.Err? && Mishaps() == old(Mishaps()) ==>
        && (r.error.StopFailed? ==> StopExcused(r.error.stop, old(kernel.world)))
        && (r.error.LaunchFailed? ==> LaunchExcused(r.error.launch, id, old(disk.view).dirs))
      ensures r.Err? && r.error.ReadinessFailed? ==>
        Waited(r.error.ready, |old(supervisor.asked)|, |old(network.answers)|, |old(clock.ticks)|, supervisor.asked,
          network.answers, clock.ticks)
    {
      hide DeploymentEngine.LoggedLast, DeploymentEngine.Logged;
      hide OneMore, Coherent, Honest, Held, Issued, Steps, KeepsChildren, NoService, SafeIn, Proper, Tracked,
        LaunchedFrom, Grows, PointersOf, Settled, Aimed;
      hide ReadyAt, Runs, Recorded, MoreMishaps, MishapsOf, DeploymentEngine.StopExcused, DeploymentEngine.Waited,
        DeploymentEngine.LaunchExcused;
      trace, start := [], 0;
      ghost var m0, w0, b0, s0, h0 := Mishaps(), kernel.world, supervisor.View(), disk.view, disk.history;
      NothingLaunched(w0, s0.dirs);
      var stopped := Stop();
      ghost var m1 := Mishaps();
      StopLaunches(w0, b0, kernel.world, supervisor.View(), disk.view.dirs);
      RecordIsDirs(s0, |h0|, disk.history);
      ghost var w1, b1, s1, h1 := kernel.world, supervisor.View(), disk.view, disk.history;
      SafeOnlyRecord(s0, s1, installer.activated, lost);
      if stopped.Err? {
        return Err(StopFailed(stopped.error)), trace, start;
      }
      TrackedNone(kernel.world, supervisor.View());
      var launched;
      ghost var q1, n1, t1 := |supervisor.asked|, |network.answers|, |clock.ticks|;
      launched, trace, start := LaunchAndAwait(id);
      MishapsAddUp(m0, m1, Mishaps());
      if launched.Err? && launched.error.NotReady? {
        WaitedBefore(launched.error.ready, q1, n1, t1, supervisor.asked, network.answers, clock.ticks,
          |old(supervisor.asked)|, |old(network.answers)|, |old(clock.ticks)|, supervisor.asked, clock.ticks);
      }
      LoggedEarlier(trace, q1, n1, |old(supervisor.asked)|, |old(network.answers)|);
      DirsChain(s0, |h0|, h1, s1, disk.history);
      LaunchedLater(w0, w1, kernel.world, disk.view.dirs);
      if launched.Ok? { OneMoreAfterStop(w0, b0, w1, b1, kernel.world); }
      r := if launched.Ok? then Ok(Unit.Unit)
        else if launched.error.DidNotStart? then Err(LaunchFailed(launched.error.launch))
        else Err(ReadinessFailed(launched.error.ready));
    }

    /** The last probes of the trace were successes, as many as asked for, one interval or more apart. */
    ghost predicate ReadyAt(trace: seq<Health.Probed>, start: int)
      reads this`handle, kernel`world, supervisor`finished, supervisor`adopted, supervisor`mine, clock
    {
      && Health.Paced(trace, start, service.startupTimeout, health.interval)
      && Health.Ready(trace, Successes(), Failures())
      && RunReady(trace, clock.now)
      && (health.kind.ProcessAlive? ==> Alive())
    }

    /** What a result of waiting says about the probes: ready exactly if a run of successes came first. */
    ghost predicate Verdict(r: Result<Unit, ReadyFailure>, trace: seq<Health.Probed>, start: int)
      reads this`handle, kernel`world, supervisor`finished, supervisor`adopted, supervisor`mine, clock
    {
      && Health.Paced(trace, start, service.startupTimeout, health.interval)
      && (r.Ok? <==> Health.Ready(trace, Successes(), Failures()))
      && (r.Ok? ==> ReadyAt(trace, start))
      && (r == Err(Unhealthy) ==> Health.RunEnds(Health.Outcomes(trace), |trace|, Failures(), false))
      && (r == Err(TimedOut) ==> clock.now >= start + service.startupTimeout)
    }

    /** Activates and starts a release that is installed. There is no second try: when it fails, the
        service stays stopped, or runs unrecorded. */
    method RollbackTo(id: CText) returns (r: Result<Unit, Failure>)
      requires Inv()
      modifies this`handle, supervisor, installer, kernel, clock, disk
      ensures installer.misled >= old(installer.misled)
      ensures disk.stateFaults == old(disk.stateFaults) ==> installer.misled == old(installer.misled)
      ensures Inv() && old(disk.history) <= disk.history && disk.queryFaults >= old(disk.queryFaults)
      ensures disk.failedRemovals == old(disk.failedRemovals)
      ensures disk.stateFaults >= old(disk.stateFaults) && disk.stagingFaults == old(disk.stagingFaults)
      ensures DirsSince(old(disk.view), |old(disk.history)|, disk.history) && disk.view.dirs == old(disk.view).dirs
      ensures LaunchedFrom(old(kernel.world), kernel.world, disk.view.dirs)
      ensures old(Single()) ==> Single()
      ensures r.Err? && !r.error.LaunchFailed? ==> disk.view.state == old(disk.view).state
      ensures r.Ok? || r.error.LaunchFailed? ==> PointersOf(disk.view).Some? && PointersOf(disk.view).value.active == id
      ensures (r.Ok? || r.error.LaunchFailed?) && disk.stateFaults == old(disk.stateFaults) ==>
        PointersOf(old(disk.view)).Some? ==>
          PointersOf(disk.view) == Some(AfterActivate(PointersOf(old(disk.view)).value, id))
      ensures r.Ok? ==>
        InStep(id) && Started(id) && IsNew(old(kernel.world)) && OneMore(old(kernel.world), kernel.world)
      ensures installer.activated == old(installer.activated) + ActivatedIds(id, r)
      ensures r.Err? && r.error.NotActivated? ==> handle.None? && (old(Single()) ==> NoService(kernel.world))
      ensures r.Err? && r.error.NotActivated? && r.error.install.BadReleaseId? ==> !ValidId(id)
      ensures !ValidId(id) ==>
        && r.Err?
        && (r.error.BadExecutable? || r.error.NotInstalledHere? || r.error.StopFailed? || r.error.NotActivated?)
        && (r.error.NotActivated? ==> r.error.install.BadReleaseId?)
      ensures MoreMishaps(old(Mishaps()), Mishaps())
      ensures r.Err? && Mishaps() == old(Mishaps()) ==>
        Excused(r.error, id, None, old(disk.view).dirs, PointersOf(old(disk.view)), old(kernel.world))
      ensures ExecutableAllowed().Err? <==> r.Err? && r.error.BadExecutable?
      ensures r.Err? ==> !r.error.Recovered? && !r.error.ReadinessFailed?
    {
      hide OneMore, Coherent, Honest, Held, Issued, Steps, KeepsChildren, NoService, SafeIn, Proper, Tracked,
        LaunchedFrom, Grows, PointersOf, Runs, MoreMishaps, DeploymentEngine.StopExcused,
        DeploymentEngine.LaunchExcused;
      MishapsRead(disk, kernel);
      ghost var m0 := Mishaps();
      NothingLaunched(kernel.world, disk.view.dirs);
      var valid := ExecutableAllowed();
      if valid.Err? {
        return Err(valid.error);
      }
      var installed := disk.Exists(Directory(id));
      ghost var m1 := Mishaps();
      MishapsRead(disk, kernel);
      MishapsGrow(m0, m1);
      if !installed {
        return Err(NotInstalledHere);
      }
      r := StopAndActivate(id);
      MishapsAddUp(m0, m1, Mishaps());
    }

    /** The part of `rollback_to` for a directory that is there. */
    method StopAndActivate(id: CText) returns (r: Result<Unit, Failure>)
      requires Inv()
      modifies this`handle, supervisor, installer, kernel, clock, disk
      ensures installer.misled >= old(installer.misled)
      ensures disk.stateFaults == old(disk.stateFaults) ==> installer.misled == old(installer.misled)
      ensures Inv() && old(disk.history) <= disk.history && disk.queryFaults >= old(disk.queryFaults)
      ensures disk.failedRemovals == old(disk.failedRemovals)
      ensures disk.stateFaults >= old(disk.stateFaults) && disk.stagingFaults == old(disk.stagingFaults)
      ensures DirsSince(old(disk.view), |old(disk.history)|, disk.history) && disk.view.dirs == old(disk.view).dirs
      ensures LaunchedFrom(old(kernel.world), kernel.world, disk.view.dirs)
      ensures old(Single()) ==> Single()
      ensures r.Err? && !r.error.LaunchFailed? ==> disk.view.state == old(disk.view).state
      ensures r.Ok? || r.error.LaunchFailed? ==> PointersOf(disk.view).Some? && PointersOf(disk.view).value.active == id
      ensures (r.Ok? || r.error.LaunchFailed?) && disk.stateFaults == old(disk.stateFaults) ==>
        PointersOf(old(disk.view)).Some? ==>
          PointersOf(disk.view) == Some(AfterActivate(PointersOf(old(disk.view)).value, id))
      ensures r.Ok? ==>
        InStep(id) && Started(id) && IsNew(old(kernel.world)) && OneMore(old(kernel.world), kernel.world)
      ensures installer.activated == old(installer.activated) + ActivatedIds(id, r)
      ensures r.Err? && r.error.NotActivated? ==> handle.None? && (old(Single()) ==> NoService(kernel.world))
      ensures r.Err? && r.error.NotActivated? && r.error.install.BadReleaseId? ==> !ValidId(id)
      ensures !ValidId(id) ==>
        && r.Err?
        && (r.error.StopFailed? || r.error.NotActivated?)
        && (r.error.NotActivated? ==> r.error.install.BadReleaseId?)
      ensures MoreMishaps(old(Mishaps()), Mishaps())
      ensures r.Err? && Mishaps() == old(Mishaps()) ==>
        Excused(r.error, id, None, old(disk.view).dirs, PointersOf(old(disk.view)), old(kernel.world))
      ensures r.Err? ==> r.error.StopFailed? || r.error.NotActivated? || r.error.LaunchFailed?
    {
      hide OneMore, Coherent, Honest, Held, Issued, Steps, KeepsChildren, NoService, SafeIn, Proper, Tracked,
        LaunchedFrom, Grows, PointersOf, Settled, Aimed, Runs, MoreMishaps, MishapsOf, DeploymentEngine.StopExcused,
        DeploymentEngine.LaunchExcused;
      ghost var m0, w0, b0, s0, h0 := Mishaps(), kernel.world, supervisor.View(), disk.view, disk.history;
      NothingLaunched(w0, s0.dirs);
      var stopped := Stop();
      ghost var m1 := Mishaps();
      StopLaunches(w0, b0, kernel.world, supervisor.View(), disk.view.dirs);
      RecordIsDirs(s0, |h0|, disk.history);
      ghost var w1, b1, s1, h1 := kernel.world, supervisor.View(), disk.view, disk.history;
      SafeOnlyRecord(s0, s1, installer.activated, lost);
      if stopped.Err? {
        return Err(StopFailed(stopped.error));
      }
      r := ActivateAndLaunch(id);
      MishapsAddUp(m0, m1, Mishaps());
      SameStateSamePointers(s0, s1);
      if r.Ok? { OneMoreAfterStop(w0, b0, w1, b1, kernel.world); }
      DirsChain(s0, |h0|, h1, s1, disk.history);
      LaunchedLater(w0, w1, kernel.world, disk.view.dirs);
    }

    /** The part of `rollback_to` after the service has been stopped. */
    method ActivateAndLaunch(id: CText) returns (r: Result<Unit, Failure>)
      requires Inv() && handle.None?
      modifies this`handle, supervisor, installer, kernel, disk
      ensures installer.misled >= old(installer.misled)
      ensures disk.stateFaults == old(disk.stateFaults) ==> installer.misled == old(installer.misled)
      ensures Inv() && old(disk.history) <= disk.history && disk.queryFaults >= old(disk.queryFaults)
      ensures disk.failedRemovals == old(disk.failedRemovals)
      ensures disk.stateFaults >= old(disk.stateFaults) && disk.stagingFaults == old(disk.stagingFaults)
      ensures DirsSince(old(disk.view), |old(disk.history)|, disk.history) && disk.view.dirs == old(disk.view).dirs
      ensures LaunchedFrom(old(kernel.world), kernel.world, disk.view.dirs)
      ensures old(Single()) ==> Single()
      ensures r.Err? ==> (r.error.LaunchFailed? || r.error.NotActivated?)
      ensures r.Err? && r.error.NotActivated? ==>
        handle.None? && disk.view.state == old(disk.view).state && kernel.world == old(kernel.world)
      ensures !ValidId(id) <==> r.Err? && r.error.NotActivated? && r.error.install.BadReleaseId?
      ensures r.Ok? || r.error.LaunchFailed? ==> PointersOf(disk.view).Some? && PointersOf(disk.view).value.active == id
      ensures (r.Ok? || r.error.LaunchFailed?) && disk.stateFaults == old(disk.stateFaults) ==>
        PointersOf(old(disk.view)).Some? ==>
          PointersOf(disk.view) == Some(AfterActivate(PointersOf(old(disk.view)).value, id))
      ensures r.Ok? ==>
        InStep(id) && Started(id) && IsNew(old(kernel.world)) && OneMore(old(kernel.world), kernel.world)
      ensures installer.activated == old(installer.activated) + ActivatedIds(id, r)
      ensures MoreMishaps(old(Mishaps()), Mishaps())
      ensures r.Err? && Mishaps() == old(Mishaps()) ==>
        Excused(r.error, id, None, old(disk.view).dirs, PointersOf(old(disk.view)), old(kernel.world))
    {
      hide Coherent, Honest, Held, Issued, Steps, KeepsChildren, NoService, SafeIn, Proper, Tracked, LaunchedFrom,
        Grows, PointersOf, Runs, MoreMishaps, MishapsOf, DeploymentEngine.StopExcused,
        DeploymentEngine.LaunchExcused;
      Parts();
      ghost var m0 := Mishaps();
      ghost var s0, n0 := disk.view, |disk.history|;
      NothingLaunched(kernel.world, disk.view.dirs);
      TrackedNone(kernel.world, supervisor.View());
      var activated := Enact(id);
      ghost var m1 := Mishaps();
      if activated.Err? {
        return Err(NotActivated(activated.error));
      }
      ghost var s1, h1 := disk.view, disk.history;
      var launched := Launch(id);
      MishapsAddUp(m0, m1, Mishaps());
      SafeOnlyRecord(s1, disk.view, installer.activated, lost);
      RecordIsDirs(s1, |h1|, disk.history);
      DirsChain(s0, n0, h1, s1, disk.history);
      r := if launched.Err? then Err(LaunchFailed(launched.error)) else Ok(Unit.Unit);
    }

    /** The part of `apply` from reading the state to recovery: the releases are not touched. */
    method Switch(id: CText) returns (r: Result<Unit, Failure>, ghost trace: seq<Health.Probed>, ghost start: int)
      requires Inv()
      modifies this`handle, supervisor, network, installer, kernel, clock, disk
      ensures installer.misled >= old(installer.misled)
      ensures disk.stateFaults == old(disk.stateFaults) ==> installer.misled == old(installer.misled)
      ensures Inv() && old(disk.history) <= disk.history && disk.queryFaults >= old(disk.queryFaults)
      ensures disk.failedRemovals == old(disk.failedRemovals)
      ensures disk.stateFaults >= old(disk.stateFaults) && disk.stagingFaults == old(disk.stagingFaults)
      ensures DirsSince(old(disk.view), |old(disk.history)|, disk.history) && disk.view.dirs == old(disk.view).dirs
      ensures LaunchedFrom(old(kernel.world), kernel.world, disk.view.dirs)
      ensures old(Single()) ==> Single()
      ensures disk.stateFaults == old(disk.stateFaults) && PointersOf(old(disk.view)).Some? ==>
        PointersOf(disk.view) == Some(Landed(PointersOf(old(disk.view)).value, id, r))
      ensures Ended(id, r, old(kernel.world), trace, start, |old(supervisor.asked)|, |old(network.answers)|,
        |old(clock.ticks)|)
      ensures NoWayBack(r) ==> handle.None? && (old(Single()) ==> NoService(kernel.world))
      ensures Untouching(r) ==>
        kernel.world == old(kernel.world) && handle == old(handle) && supervisor.View() == old(supervisor.View())
      ensures installer.activated == old(installer.activated) + ActivatedIds(id, r)
      ensures r.Err? ==> !r.error.InstallFailed? && !r.error.BadExecutable? && !r.error.LaunchFailed?
      ensures r.Err? ==> !r.error.ReadinessFailed?
      ensures MoreMishaps(old(Mishaps()), Mishaps())
      ensures r.Err? && Mishaps() == old(Mishaps()) ==>
        Excused(r.error, id, None, old(disk.view).dirs, PointersOf(old(disk.view)), old(kernel.world))
    {
      hide DeploymentEngine.Ended, DeploymentEngine.StopExcused, DeploymentEngine.RecoveryExcused,
        DeploymentEngine.LaunchExcused;
      hide Coherent, Honest, Held, NoService, SafeIn, Proper, Tracked, LaunchedFrom, PointersOf, MoreMishaps;
      MishapsRead(disk, kernel);
      ghost var m0 := Mishaps();
      trace, start := [], 0;
      NothingLaunched(kernel.world, disk.view.dirs);
      var before := installer.State();
      ghost var m1 := Mishaps();
      MishapsRead(disk, kernel);
      MishapsGrow(m0, m1);
      if before.Err? {
        r := Err(StateFailed(before.error));
        EndedEarly(id, r, kernel.world, trace, start, |supervisor.asked|, |network.answers|, |clock.ticks|);
        return;
      }
      r, trace, start := StopAndChange(id);
      MishapsAddUp(m0, m1, Mishaps());
    }

    /** The same once the state has been read. */
    method StopAndChange(id: CText) returns (r: Result<Unit, Failure>, ghost trace: seq<Health.Probed>,
        ghost start: int)
      requires Inv()
      modifies this`handle, supervisor, network, installer, kernel, clock, disk
      ensures installer.misled >= old(installer.misled)
      ensures disk.stateFaults == old(disk.stateFaults) ==> installer.misled == old(installer.misled)
      ensures Inv() && old(disk.history) <= disk.history && disk.queryFaults >= old(disk.queryFaults)
      ensures disk.failedRemovals == old(disk.failedRemovals)
      ensures disk.stateFaults >= old(disk.stateFaults) && disk.stagingFaults == old(disk.stagingFaults)
      ensures DirsSince(old(disk.view), |old(disk.history)|, disk.history) && disk.view.dirs == old(disk.view).dirs
      ensures LaunchedFrom(old(kernel.world), kernel.world, disk.view.dirs)
      ensures old(Single()) ==> Single()
      ensures disk.stateFaults == old(disk.stateFaults) && PointersOf(old(disk.view)).Some? ==>
        PointersOf(disk.view) == Some(Landed(PointersOf(old(disk.view)).value, id, r))
      ensures Ended(id, r, old(kernel.world), trace, start, |old(supervisor.asked)|, |old(network.answers)|,
        |old(clock.ticks)|)
      ensures NoWayBack(r) ==> handle.None? && (old(Single()) ==> NoService(kernel.world))
      ensures !Untouching(r)
      ensures installer.activated == old(installer.activated) + ActivatedIds(id, r)
      ensures r.Err? ==> !r.error.InstallFailed? && !r.error.BadExecutable? && !r.error.LaunchFailed?
      ensures r.Err? ==> !r.error.ReadinessFailed?
      ensures MoreMishaps(old(Mishaps()), Mishaps())
      ensures r.Err? && Mishaps() == old(Mishaps()) ==>
        Excused(r.error, id, None, old(disk.view).dirs, PointersOf(old(disk.view)), old(kernel.world))
    {
      hide DeploymentEngine.Ended, DeploymentEngine.StopExcused, DeploymentEngine.RecoveryExcused,
        DeploymentEngine.LaunchExcused;
      hide OneMore, Coherent, Honest, Held, Issued, Steps, KeepsChildren, NoService, SafeIn, Proper, Tracked,
        LaunchedFrom, Grows, PointersOf, Settled, Aimed;
      hide ReadyAt, Runs, Recorded, MoreMishaps, MishapsOf;
      trace, start := [], 0;
      ghost var m0, w0, b0, s0, h0 := Mishaps(), kernel.world, supervisor.View(), disk.view, disk.history;
      NothingLaunched(w0, s0.dirs);
      var stopped := Stop();
      ghost var m1 := Mishaps();
      StopLaunches(w0, b0, kernel.world, supervisor.View(), disk.view.dirs);
      RecordIsDirs(s0, |h0|, disk.history);
      ghost var w1, b1, s1, h1 := kernel.world, supervisor.View(), disk.view, disk.history;
      SafeOnlyRecord(s0, s1, installer.activated, lost);
      if stopped.Err? {
        r := Err(StopFailed(stopped.error));
        EndedEarly(id, r, w0, trace, start, |old(supervisor.asked)|, |old(network.answers)|, |old(clock.ticks)|);
        return;
      }
      ghost var q1, n1, t1 := |supervisor.asked|, |network.answers|, |clock.ticks|;
      r, trace, start := Change(id);
      MishapsAddUp(m0, m1, Mishaps());
      SameStateSamePointers(s0, s1);
      SettledGrows(w0, b0, w1, b1);
      if r.Ok? && OneMore(w1, kernel.world) { OneMoreAfterStop(w0, b0, w1, b1, kernel.world); }
      EndedBefore(id, r, w0, w1, trace, start, |old(supervisor.asked)|, |old(network.answers)|, |old(clock.ticks)|, q1,
        n1, t1);
      if r.Err? && Mishaps() == m1 { ExcusedBefore(r.error, id, None, s1.dirs, PointersOf(s1), w0, w1); }
      DirsChain(s0, |h0|, h1, s1, disk.history);
      LaunchedLater(w0, w1, kernel.world, disk.view.dirs);
    }

    /** The handle's process runs release `id` as it is installed, the record says so, and it is active. */
    ghost predicate Serving(id: CText)
      reads this`handle, kernel`world, supervisor`finished, supervisor`adopted, supervisor`mine, disk`view
    {
      && InStep(id) && Started(id)
      && PointersOf(disk.view).Some? && PointersOf(disk.view).value.active == id
    }

    /** What runs after a change to release `id`: after a success the new release, found ready by the probes
        that were made last; after a fallback the one before; after a failed activation whatever is active. */
    ghost predicate Ended(id: CText, r: Result<Unit, Failure>, w: World, trace: seq<Health.Probed>, start: int, q: nat,
        n: nat, t: nat)
      reads this`handle, kernel`world, supervisor, disk`view, clock, network
    {
      && (r.Ok? ==>
            && Serving(id) && IsNew(w) && OneMore(w, kernel.world)
            && ReadyAt(trace, start) && LoggedLast(trace, q, n))
      && (FellBack(r) ==> Serving(r.error.recovery.id) && IsNew(w))
      && (r.Err? && r.error.ActivateFailed? && r.error.restarted ==> ActiveRuns())
      && (r.Err? && r.error.Recovered? && r.error.cause.NotReady? ==>
            Waited(r.error.cause.ready, q, n, t, supervisor.asked, network.answers, clock.ticks))
    }

    lemma EndedEarly(id: CText, r: Result<Unit, Failure>, w: World, trace: seq<Health.Probed>, start: int, q: nat,
        n: nat, t: nat)
      requires r.Err? && (r.error.StateFailed? || r.error.StopFailed?)
      ensures Ended(id, r, w, trace, start, q, n, t)
    {
    }

    lemma EndedRestored(id: CText, reason: InstallError, restarted: bool, w: World, trace: seq<Health.Probed>,
        start: int, q: nat, n: nat, t: nat)
      requires restarted ==> ActiveRuns()
      ensures Ended(id, Err(ActivateFailed(reason, restarted)), w, trace, start, q, n, t)
    {
    }

    lemma EndedBefore(id: CText, r: Result<Unit, Failure>, w: World, w1: World, trace: seq<Health.Probed>, start: int,
        q: nat, n: nat, t: nat, q1: nat, n1: nat, t1: nat)
      requires Ended(id, r, w1, trace, start, q1, n1, t1) && Grows(w, w1) && q <= q1 && n <= n1 && t <= t1
      requires r.Ok? && OneMore(w1, kernel.world) ==> OneMore(w, kernel.world)
      ensures Ended(id, r, w, trace, start, q, n, t)
    {
      hide OneMore, DeploymentEngine.Serving, DeploymentEngine.ReadyAt, DeploymentEngine.LoggedLast,
        DeploymentEngine.Waited;
      LoggedEarlier(trace, q1, n1, q, n);
      if r.Err? && r.error.Recovered? && r.error.cause.NotReady? {
        WaitedBefore(r.error.cause.ready, q1, n1, t1, supervisor.asked, network.answers, clock.ticks, q, n, t,
          supervisor.asked, clock.ticks);
      }
    }

    lemma ExcusedBefore(e: Failure, id: CText, source: Option<Tree>, dirs: map<string, Tree>, p: Option<Pointers>,
        w: World, w1: World)
      requires Excused(e, id, source, dirs, p, w1) && Grows(w, w1)
      ensures Excused(e, id, source, dirs, p, w)
    {
      hide DeploymentEngine.StopExcused;
      if e.StopFailed? { ExcusedEarlier(e.stop, w, w1); }
      if e.Recovered? && e.recovery.NotStopped? { ExcusedEarlier(e.recovery.stop, w, w1); }
    }

    /** Starts the active release again after a failed activation. */
    method Restore() returns (restarted: bool)
      requires Inv() && handle.None?
      modifies this`handle, supervisor, kernel, clock, disk`view, disk`history, disk`queryFaults, disk`stateFaults
      modifies disk`ioFaults
      ensures Inv() && old(disk.history) <= disk.history && disk.queryFaults >= old(disk.queryFaults)
      ensures disk.stateFaults >= old(disk.stateFaults)
      ensures DirsSince(old(disk.view), |old(disk.history)|, disk.history) && OnlyRecord(old(disk.view), disk.view)
      ensures PointersOf(disk.view) == PointersOf(old(disk.view))
      ensures LaunchedFrom(old(kernel.world), kernel.world, disk.view.dirs)
      ensures old(Single()) ==> Single()
      ensures restarted ==> PointersOf(disk.view).Some? && InStep(PointersOf(disk.view).value.active)
      ensures MoreMishaps(old(Mishaps()), Mishaps())
      ensures old(clock.ticks) <= clock.ticks && old(supervisor.asked) <= supervisor.asked
    {
      hide Coherent, Honest, Held, Issued, Steps, KeepsChildren, NoService, SafeIn, Proper, Tracked, LaunchedFrom,
        Grows, PointersOf, OneExactlyIfNamed, Doubles, NoneRevived, Runs, Recorded;
      ghost var s, n := disk.view, |disk.history|;
      var restored := StartActive();
      SafeOnlyRecord(s, disk.view, installer.activated, lost);
      RecordIsDirs(s, n, disk.history);
      restarted := restored.Ok?;
    }

    /** Activates a release, or tells why not. */
    method Enact(id: CText) returns (r: Result<Unit, InstallError>)
      requires Inv()
      modifies installer, disk
      ensures Inv() && old(disk.history) <= disk.history && disk.queryFaults >= old(disk.queryFaults)
      ensures disk.failedRemovals == old(disk.failedRemovals)
      ensures disk.stateFaults >= old(disk.stateFaults) && disk.stagingFaults == old(disk.stagingFaults)
      ensures DirsSince(old(disk.view), |old(disk.history)|, disk.history) && disk.view.dirs == old(disk.view).dirs
      ensures installer.misled >= old(installer.misled)
      ensures disk.stateFaults == old(disk.stateFaults) ==> installer.misled == old(installer.misled)
      ensures r.Err? ==> disk.view == old(disk.view) && installer.activated == old(installer.activated)
      ensures r.Ok? ==>
        && ValidId(id) && installer.activated == old(installer.activated) + {id}
        && PointersOf(disk.view).Some? && PointersOf(disk.view).value.active == id
      ensures r.Ok? && disk.stateFaults == old(disk.stateFaults) ==>
        && PointersOf(old(disk.view)).Some?
        && PointersOf(disk.view).value == AfterActivate(PointersOf(old(disk.view)).value, id)
      ensures !ValidId(id) <==> r.Err? && r.error.BadReleaseId?
      ensures MoreMishaps(old(Mishaps()), Mishaps())
      ensures r.Err? && Mishaps() == old(Mishaps()) ==>
        !ValidId(id) || id !in disk.view.dirs || PointersOf(disk.view).None?
    {
      hide Coherent, Honest, Held, NoService, SafeIn, Proper, PointersOf, MoreMishaps;
      MishapsRead(disk, kernel);
      r := installer.Activate(id, lost);
      MishapsRead(disk, kernel);
      MishapsGrow(old(Mishaps()), Mishaps());
    }

    /** From activation on; the service has been stopped. */
    method Change(id: CText) returns (r: Result<Unit, Failure>, ghost trace: seq<Health.Probed>, ghost start: int)
      requires Inv() && handle.None?
      modifies this`handle, supervisor, network, installer, kernel, clock, disk
      ensures installer.misled >= old(installer.misled)
      ensures disk.stateFaults == old(disk.stateFaults) ==> installer.misled == old(installer.misled)
      ensures Inv() && old(disk.history) <= disk.history && disk.queryFaults >= old(disk.queryFaults)
      ensures disk.failedRemovals == old(disk.failedRemovals)
      ensures disk.stateFaults >= old(disk.stateFaults) && disk.stagingFaults == old(disk.stagingFaults)
      ensures DirsSince(old(disk.view), |old(disk.history)|, disk.history) && disk.view.dirs == old(disk.view).dirs
      ensures LaunchedFrom(old(kernel.world), kernel.world, disk.view.dirs)
      ensures old(Single()) ==> Single()
      ensures disk.stateFaults == old(disk.stateFaults) && PointersOf(old(disk.view)).Some? ==>
        PointersOf(disk.view) == Some(Landed(PointersOf(old(disk.view)).value, id, r))
      ensures Ended(id, r, old(kernel.world), trace, start, |old(supervisor.asked)|, |old(network.answers)|,
        |old(clock.ticks)|)
      ensures NoWayBack(r) ==> handle.None? && (old(Single()) ==> NoService(kernel.world))
      ensures !Untouching(r)
      ensures installer.activated == old(installer.activated) + ActivatedIds(id, r)
      ensures r.Err? ==> !r.error.InstallFailed? && !r.error.BadExecutable? && !r.error.LaunchFailed?
      ensures r.Err? ==> !r.error.ReadinessFailed?
      ensures MoreMishaps(old(Mishaps()), Mishaps())
      ensures r.Err? && Mishaps() == old(Mishaps()) ==>
        Excused(r.error, id, None, old(disk.view).dirs, PointersOf(old(disk.view)), old(kernel.world))
    {
      hide DeploymentEngine.Ended, DeploymentEngine.Inv;
      hide OneMore, Coherent, Honest, Held, Issued, Steps, KeepsChildren, NoService, SafeIn, Proper, Tracked,
        LaunchedFrom, Grows, PointersOf, Settled, Aimed, MishapsOf;
      hide ReadyAt, Runs, Recorded, MoreMishaps, DeploymentEngine.StopExcused, DeploymentEngine.Waited,
        DeploymentEngine.LaunchExcused, DeploymentEngine.RecoveryExcused;
      Parts();
      MishapsRead(disk, kernel);
      trace, start := [], 0;
      ghost var m0, w0, s0, n0 := Mishaps(), kernel.world, disk.view, |disk.history|;
      TrackedNone(kernel.world, supervisor.View());
      var activated := Enact(id);
      ghost var m1, s1, h1 := Mishaps(), disk.view, disk.history;
      MishapsRead(disk, kernel);
      if activated.Err? {
        var restored := Restore();
        MishapsAddUp(m0, m1, Mishaps());
        DirsChain(s0, n0, h1, s1, disk.history);
        r := Err(ActivateFailed(activated.error, restored));
        EndedRestored(id, activated.error, restored, w0, trace, start, |old(supervisor.asked)|, |old(network.answers)|,
          |old(clock.ticks)|);
        return;
      }
      r, trace, start := Proceed(id);
      MishapsAddUp(m0, m1, Mishaps());
      PreviousRead(s1, s1);
      DirsChain(s0, n0, h1, s1, disk.history);
    }

    /** Launch, readiness and recovery, once the release is active. */
    method Proceed(id: CText) returns (r: Result<Unit, Failure>, ghost trace: seq<Health.Probed>, ghost start: int)
      requires Inv() && ValidId(id) && PointersOf(disk.view).Some? && PointersOf(disk.view).value.active == id
      requires id != ""
      modifies this`handle, supervisor, network, kernel, clock, disk
      ensures Inv() && old(disk.history) <= disk.history && disk.queryFaults >= old(disk.queryFaults)
      ensures disk.failedRemovals == old(disk.failedRemovals)
      ensures disk.stateFaults >= old(disk.stateFaults) && disk.stagingFaults == old(disk.stagingFaults)
      ensures DirsSince(old(disk.view), |old(disk.history)|, disk.history) && disk.view.dirs == old(disk.view).dirs
      ensures LaunchedFrom(old(kernel.world), kernel.world, disk.view.dirs)
      ensures NoService(old(kernel.world)) && old(kernel.world).peak <= 1 ==> Single()
      ensures r.Ok? || r.error.Recovered?
      ensures PointersOf(disk.view) == Some(Fallen(PointersOf(old(disk.view)).value, r))
      ensures Ended(id, r, old(kernel.world), trace, start, |old(supervisor.asked)|, |old(network.answers)|,
        |old(clock.ticks)|)
      ensures NoWayBack(r) ==>
        handle.None? && (NoService(old(kernel.world)) && old(kernel.world).peak <= 1 ==> NoService(kernel.world))
      ensures MoreMishaps(old(Mishaps()), Mishaps())
      ensures r.Err? && Mishaps() == old(Mishaps()) ==>
        && (r.error.cause.DidNotStart? ==> LaunchExcused(r.error.cause.launch, id, old(disk.view).dirs))
        && RecoveryExcused(r.error.recovery, PreviousOf(old(disk.view)), old(disk.view).dirs, old(kernel.world))
      ensures old(clock.ticks) <= clock.ticks && old(supervisor.asked) <= supervisor.asked
    {
      hide DeploymentEngine.LoggedLast, DeploymentEngine.Logged;
      hide OneMore, Coherent, Honest, Held, Issued, Steps, KeepsChildren, NoService, SafeIn, Proper, Tracked,
        LaunchedFrom, Grows, PointersOf, Settled, Aimed;
      hide ReadyAt, Runs, Recorded, MoreMishaps, MishapsOf, PidTaken, DeploymentEngine.StopExcused,
        DeploymentEngine.Waited, DeploymentEngine.LaunchExcused, DeploymentEngine.RecoveryExcused;
      ghost var m0, w0, s0, n0 := Mishaps(), kernel.world, disk.view, |disk.history|;
      var launched;
      launched, trace, start := LaunchAndAwait(id);
      SafeOnlyRecord(s0, disk.view, installer.activated, lost);
      if launched.Ok? {
        return Ok(Unit.Unit), trace, start;
      }
      ghost var m1, w1, s1, h1 := Mishaps(), kernel.world, disk.view, disk.history;
      ghost var asked, ticks := supervisor.asked, clock.ticks;
      var recovery := Recover();
      MishapsAddUp(m0, m1, Mishaps());
      PreviousRead(s0, s1);
      RecoveryEarlier(recovery, PreviousOf(s0), s0.dirs, w0, w1);
      if launched.error.NotReady? {
        WaitedBefore(launched.error.ready, |old(supervisor.asked)|, |old(network.answers)|, |old(clock.ticks)|, asked,
          network.answers, ticks, |old(supervisor.asked)|, |old(network.answers)|, |old(clock.ticks)|, supervisor.asked,
          clock.ticks);
      }
      DirsChain(s0, n0, h1, s1, disk.history);
      LaunchedLater(w0, w1, kernel.world, disk.view.dirs);
      SameStateSamePointers(s1, disk.view);
      r := Err(Recovered(launched.error, recovery));
    }

    method Place(id: CText, source: Option<Tree>) returns (r: Result<Unit, InstallError>, ghost tree: Tree)
      requires Inv()
      modifies this`lost, disk
      ensures Inv() && old(disk.history) <= disk.history
      ensures disk.queryFaults >= old(disk.queryFaults) && disk.failedRemovals >= old(disk.failedRemovals)
      ensures disk.stateFaults == old(disk.stateFaults) && disk.stagingFaults >= old(disk.stagingFaults)
      ensures disk.view.state == old(disk.view).state && disk.view.runtime == old(disk.view).runtime
      ensures PublishedSince(old(disk.view), |old(disk.history)|, disk.history, id, tree)
      ensures Published(old(disk.view), disk.view, id, tree)
      ensures r.Ok? ==> source.Some? && ValidId(id) && id in disk.view.dirs && disk.view.dirs[id] == tree
      ensures lost == if r.Ok? then old(lost) - {id} else if r.error.Stranded? then old(lost) + {id} else old(lost)
      ensures source.None? ==> tree == map[]
      ensures source.Some? ==>
        Leftover(old(disk.view), tree, StagingName(id), source.value, disk.stagingFaults > old(disk.stagingFaults))
      ensures disk.stagingFaults == old(disk.stagingFaults) && NoStaging(old(disk.view)) ==> NoStaging(disk.view)
      ensures MoreMishaps(old(Mishaps()), Mishaps())
      ensures r.Err? && Mishaps() == old(Mishaps()) ==>
        installer.serviceRoot == "" || !ValidId(id) || source.None? || !Copyable(source.value)
      ensures r.Ok? ==> installer.serviceRoot != "" && Copyable(source.value)
    {
      hide Coherent, Honest, Held, NoService, SafeIn, Proper, Leftover, NoStaging, Published, Swap, PointersOf,
        MoreMishaps;
      MishapsRead(disk, kernel);
      ghost var s0, n0 := disk.view, |disk.history|;
      r, tree := installer.Install(id, source);
      MishapsRead(disk, kernel);
      MishapsGrow(old(Mishaps()), Mishaps());
      PublishedSelf(s0, id, tree);
      SameStateSamePointers(s0, disk.view);
      if ValidId(id) {
        forall i | n0 <= i < |disk.history| ensures Published(s0, disk.history[i], id, tree) {
          SwapPublished(s0, disk.history[i], id, tree);
        }
        SwapPublished(s0, disk.view, id, tree);
        if installer.misled == 0 { SafeAfterSwap(s0, disk.view, id, tree, installer.activated, lost); }
        if r.Err? && r.error.Stranded? {
          lost := lost + {id};
        }
        if r.Ok? {
          if installer.misled == 0 { FoundAgain(disk.view, installer.activated, lost, id); }
          lost := lost - {id};
        }
      }
    }

    /** `apply` up to the pruning. */
    method Attempt(id: CText, source: Option<Tree>)
      returns (r: Result<Unit, Failure>, ghost tree: Tree, ghost trace: seq<Health.Probed>, ghost start: int)
      requires Inv()
      modifies this, supervisor, network, installer, kernel, clock, disk
      ensures installer.misled >= old(installer.misled)
      ensures disk.stateFaults == old(disk.stateFaults) ==> installer.misled == old(installer.misled)
      ensures Inv() && old(disk.history) <= disk.history
      ensures disk.queryFaults >= old(disk.queryFaults) && disk.failedRemovals >= old(disk.failedRemovals)
      ensures disk.stateFaults >= old(disk.stateFaults) && disk.stagingFaults >= old(disk.stagingFaults)
      ensures old(Single()) ==> Single()
      ensures LaunchedBy(old(kernel.world), kernel.world, old(disk.view), id, tree)
      ensures source.None? ==> tree == map[]
      ensures source.Some? ==>
        Leftover(old(disk.view), tree, StagingName(id), source.value, disk.stagingFaults > old(disk.stagingFaults))
      ensures disk.stagingFaults == old(disk.stagingFaults) && NoStaging(old(disk.view)) ==> NoStaging(disk.view)
      ensures PublishedSince(old(disk.view), |old(disk.history)|, disk.history, id, tree)
      ensures Published(old(disk.view), disk.view, id, tree)
      ensures disk.stateFaults == old(disk.stateFaults) && PointersOf(old(disk.view)).Some? ==>
        PointersOf(disk.view) == Some(Landed(PointersOf(old(disk.view)).value, id, r))
      ensures Ended(id, r, old(kernel.world), trace, start, |old(supervisor.asked)|, |old(network.answers)|,
        |old(clock.ticks)|)
      ensures r.Ok? ==> source.Some? && ValidId(id) && id in disk.view.dirs && disk.view.dirs[id] == tree
      ensures NoWayBack(r) ==> handle.None? && (old(Single()) ==> NoService(kernel.world))
      ensures Untouching(r) ==>
        kernel.world == old(kernel.world) && handle == old(handle) && supervisor.View() == old(supervisor.View())
      ensures installer.activated == old(installer.activated) + ActivatedIds(id, r)
      ensures lost == LostAfter(old(lost), id, r)
      ensures r.Err? ==> !r.error.LaunchFailed? && !r.error.ReadinessFailed?
      ensures MoreMishaps(old(Mishaps()), Mishaps())
      ensures r.Err? && Mishaps() == old(Mishaps()) ==>
        Excused(r.error, id, source, disk.view.dirs, PointersOf(old(disk.view)), old(kernel.world))
      ensures r.Ok? ==> Copyable(source.value)
      ensures ExecutableAllowed().Err? <==> r.Err? && r.error.BadExecutable?
      ensures ExecutableAllowed().Err? ==> disk.view == old(disk.view)
    {
      hide DeploymentEngine.LoggedLast, DeploymentEngine.Logged, DeploymentEngine.StopExcused,
        DeploymentEngine.LaunchExcused, DeploymentEngine.RecoveryExcused, DeploymentEngine.Waited;
      MishapsRead(disk, kernel);
      ghost var m0 := Mishaps();
      hide OneMore, Coherent, Honest, Held, NoService, SafeIn, Proper, Leftover, NoStaging, Published, PointersOf,
        Tracked, LaunchedBy, LaunchedFrom, ReadyAt, Recorded, Runs, MoreMishaps, MishapsOf;
      ghost var w0, s0, h0 := kernel.world, disk.view, disk.history;
      tree := if source.Some? then source.value else map[];
      trace, start := [], 0;
      ApplyNothing(w0, s0, id, tree, source);
      var valid := ExecutableAllowed();
      if valid.Err? {
        return Err(valid.error), tree, trace, start;
      }
      var placed;
      placed, tree := Place(id, source);
      ghost var m1 := Mishaps();
      ghost var s1, h1 := disk.view, disk.history;
      SameStateSamePointers(s0, s1);
      NothingLaunchedBy(w0, s0, id, tree);
      if placed.Err? {
        return Err(InstallFailed(placed.error)), tree, trace, start;
      }
      r, trace, start := Switch(id);
      MishapsAddUp(m0, m1, Mishaps());
      LaunchedByDirs(w0, kernel.world, s0, s1, id, tree);
      PublishedChain(s0, |h0|, h1, s1, disk.history, disk.view, id, tree);
    }

    /** Prunes; a failure only keeps the count out of the report. */
    method Tidy() returns (count: Option<nat>, ghost p: Pointers)
      requires Inv()
      modifies installer`misled, disk
      ensures installer.misled >= old(installer.misled)
      ensures disk.stateFaults == old(disk.stateFaults) ==> installer.misled == old(installer.misled)
      ensures Inv() && old(disk.history) <= disk.history
      ensures disk.queryFaults >= old(disk.queryFaults) && disk.failedRemovals >= old(disk.failedRemovals)
      ensures disk.stateFaults >= old(disk.stateFaults) && disk.stagingFaults == old(disk.stagingFaults)
      ensures forall i | |old(disk.history)| <= i < |disk.history| :: Pruned(old(disk.view), disk.history[i], p)
      ensures Pruned(old(disk.view), disk.view, p)
      ensures disk.stateFaults == old(disk.stateFaults) && PointersOf(old(disk.view)).Some? ==>
        disk.view == old(disk.view) || p == PointersOf(old(disk.view)).value
      ensures count.Some? && NoMisread(old(disk.queryFaults), old(disk.stateFaults)) ==>
        && |Installed(disk.view)| == |Installed(old(disk.view))| - count.value
        && |Installed(disk.view)| <= Max(installer.keepPrevious, 0) + 2
        && (disk.timeFaults == old(disk.timeFaults) ==> NewestStay(old(disk.view), disk.view, p, old(disk.written)))
      ensures installer.misled == old(installer.misled) + if Loses(old(disk.view), disk.view) then 1 else 0
      ensures MoreMishaps(old(Mishaps()), Mishaps())
      ensures count.None? ==> Mishaps() != old(Mishaps()) || PointersOf(old(disk.view)).None?
    {
      hide Coherent, Honest, Held, NoService, SafeIn, Proper, PointersOf, Lists, Victims, Others, Kept,
        MoreMishaps;
      MishapsRead(disk, kernel);
      ghost var s := disk.view;
      ghost var listed;
      var pruned;
      pruned, p, listed := installer.Prune();
      MishapsRead(disk, kernel);
      MishapsGrow(old(Mishaps()), Mishaps());
      count := if pruned.Ok? then Some(pruned.value) else None;
      if pruned.Ok? && NoMisread(old(disk.queryFaults), old(disk.stateFaults)) {
        PrunedCount(s, disk.view, listed, p, Max(installer.keepPrevious, 0));
      }
      SameStateSamePointers(s, disk.view);
      if installer.misled == 0 {
        SafeUnlessLost(s, disk.view, p, installer.activated, lost);
      }
    }

    /** Installs a release and moves the service to it; on failure the service goes back to where it was. */
    method Apply(id: CText, source: Option<Tree>)
      returns (r: Result<Unit, Failure>, pruned: Option<nat>, ghost tree: Tree, ghost trace: seq<Health.Probed>,
        ghost start: int)
      requires Inv()
      modifies this, supervisor, network, installer, kernel, clock, disk
      ensures installer.misled >= old(installer.misled)
      ensures disk.stateFaults == old(disk.stateFaults) ==> installer.misled == old(installer.misled)
      ensures Inv() && old(disk.history) <= disk.history
      ensures disk.queryFaults >= old(disk.queryFaults) && disk.failedRemovals >= old(disk.failedRemovals)
      ensures disk.stateFaults >= old(disk.stateFaults) && disk.stagingFaults >= old(disk.stagingFaults)
      // processes
      ensures old(Single()) ==> Single()
      ensures LaunchedBy(old(kernel.world), kernel.world, old(disk.view), id, tree)
      // releases
      ensures source.None? ==> tree == map[]
      ensures source.Some? ==>
        Leftover(old(disk.view), tree, StagingName(id), source.value, disk.stagingFaults > old(disk.stagingFaults))
      ensures disk.stagingFaults == old(disk.stagingFaults) && NoStaging(old(disk.view)) ==> NoStaging(disk.view)
      ensures r.Err? ==>
        && PublishedSince(old(disk.view), |old(disk.history)|, disk.history, id, tree)
        && Published(old(disk.view), disk.view, id, tree)
      ensures DerivedSince(old(disk.view), |old(disk.history)|, disk.history, id, tree)
      ensures Derived(old(disk.view), disk.view, id, tree)
      // pointers
      ensures disk.stateFaults == old(disk.stateFaults) && PointersOf(old(disk.view)).Some? ==>
        PointersOf(disk.view) == Some(Landed(PointersOf(old(disk.view)).value, id, r))
      // success and recovery
      ensures r.Ok? ==>
        && source.Some? && InStep(id) && IsNew(old(kernel.world)) && OneMore(old(kernel.world), kernel.world)
        && ReadyAt(trace, start)
        && LoggedLast(trace, |old(supervisor.asked)|, |old(network.answers)|)
        && kernel.world.launched[supervisor.mine[handle.value.id]].tree == tree
        && PointersOf(disk.view).Some? && PointersOf(disk.view).value.active == id
      ensures r.Ok? && disk.stateFaults == old(disk.stateFaults) ==>
        id in disk.view.dirs && disk.view.dirs[id] == tree && PreviousKept(old(disk.view), disk.view, id)
      ensures pruned.Some? ==> r.Ok?
      ensures pruned.Some? && NoMisread(old(disk.queryFaults), old(disk.stateFaults)) ==>
        |Installed(disk.view)| <= Max(installer.keepPrevious, 0) + 2
      ensures r.Err? ==>
        Ended(id, r, old(kernel.world), trace, start, |old(supervisor.asked)|, |old(network.answers)|,
        |old(clock.ticks)|)
      ensures NoWayBack(r) ==> handle.None? && (old(Single()) ==> NoService(kernel.world))
      ensures Untouching(r) ==>
        kernel.world == old(kernel.world) && handle == old(handle) && supervisor.View() == old(supervisor.View())
      ensures installer.activated == old(installer.activated) + ActivatedIds(id, r)
      ensures lost == LostAfter(old(lost), id, r)
      ensures MoreMishaps(old(Mishaps()), Mishaps())
      ensures r.Err? && Mishaps() == old(Mishaps()) ==>
        Excused(r.error, id, source, disk.view.dirs, PointersOf(old(disk.view)), old(kernel.world))
      ensures r.Ok? ==> Copyable(source.value) && (pruned.None? ==> Mishaps() != old(Mishaps()))
      ensures ExecutableAllowed().Err? <==> r.Err? && r.error.BadExecutable?
      ensures ExecutableAllowed().Err? ==> disk.view == old(disk.view)
      ensures r.Err? ==> !r.error.LaunchFailed? && !r.error.ReadinessFailed?
    {
      hide DeploymentEngine.LoggedLast, DeploymentEngine.Logged, DeploymentEngine.StopExcused,
        DeploymentEngine.Excused, DeploymentEngine.Waited;
      ghost var m0 := Mishaps();
      hide OneMore, Coherent, Honest, Held, NoService, SafeIn, Proper, Leftover, NoStaging, Published, Derived,
        PointersOf, Tracked, LaunchedBy;
      hide ReadyAt, Recorded, Pruned, PreviousKept, Installed, MoreMishaps, MishapsOf;
      pruned := None;
      ghost var s0, n0 := disk.view, |disk.history|;
      r, tree, trace, start := Attempt(id, source);
      ghost var m1 := Mishaps();
      ghost var s1, h1 := disk.view, disk.history;
      PublishedSinceDerived(s0, n0, h1, id, tree);
      PublishedDerived(s0, s1, id, tree);
      LeftoverStill(s0, tree, StagingName(id), source, old(disk.stagingFaults), disk.stagingFaults);
      if r.Err? {
        return;
      }
      ghost var p;
      pruned, p := Tidy();
      MishapsAddUp(m0, m1, Mishaps());
      LeftoverStill(s0, tree, StagingName(id), source, old(disk.stagingFaults), disk.stagingFaults);
      SameStateSamePointers(s1, disk.view);
      PrunedSinceDerived(s0, n0, s1, h1, disk.history, id, tree, p);
      PrunedDerived(s0, s1, disk.view, id, tree, p);
      if disk.stateFaults == old(disk.stateFaults) {
        PrunedKeeps(s0, s1, disk.view, id, tree, p);
      }
    }

    /** Whether the handle's process is running. */
    method Running() returns (b: bool)
      requires Inv()
      modifies supervisor, kernel`world
      ensures Inv() && Settled(old(kernel.world), old(supervisor.View()), kernel.world, supervisor.View())
      ensures kernel.world.signals == old(kernel.world).signals
      ensures old(Single()) ==> Single()
      ensures handle.None? ==> !b && kernel.world == old(kernel.world)
      ensures b ==> Alive()
      ensures handle.Some? ==>
        exists r :: supervisor.asked == old(supervisor.asked) + [Asked(handle.value, r, clock.now)] &&
          (b <==> r.Ok? && r.value.state.Alive?)
    {
      hide Coherent, Settled, Tracked, Honest, Steps, SafeIn, Proper, NoService, Issued, Polled, Present;
      SettledSelf(kernel.world, supervisor.View(), 0);
      if handle.None? {
        return false;
      }
      ghost var w, b0 := kernel.world, supervisor.View();
      var status := supervisor.Status(handle.value);
      AimedPoll(w, w, b0, kernel.world, supervisor.View(), handle.value.id);
      SettledPoll(w, b0, w, b0, kernel.world, supervisor.View(), handle.value.id);
      PollKeeps(w, b0, kernel.world, supervisor.View(), handle.value.id, disk.view.runtime, kernel.bootIdentity);
      if Tracked(w, b0, handle) { TrackedSettled(w, b0, kernel.world, supervisor.View(), handle); }
      b := status.Ok? && status.value.state.Alive?;
      if b { AliveIsPresent(kernel.world, supervisor.View(), handle.value); }
    }

    /** The active release, where a configuration update looks for its file. */
    method ActiveReleaseDirectory() returns (r: Result<CText, Failure>)
      requires Inv()
      modifies disk`stateFaults, disk`ioFaults
      ensures Inv() && disk.stateFaults >= old(disk.stateFaults)
      ensures r.Ok? ==> PointersOf(disk.view).Some? && PointersOf(disk.view).value.active == r.value && ValidId(r.value)
      ensures disk.ioFaults >= old(disk.ioFaults)
      ensures r.Err? ==>
        || (r.error == NoActiveRelease && (disk.stateFaults > old(disk.stateFaults) || !HasActive(disk.view)))
        || (r.error.StateFailed? && (disk.ioFaults > old(disk.ioFaults) || PointersOf(disk.view).None?))
    {
      hide Coherent, Honest, Held, NoService, SafeIn, Proper, PointersOf;
      var current := installer.State();
      if current.Err? {
        return Err(StateFailed(current.error));
      }
      if current.value.active == "" {
        return Err(NoActiveRelease);
      }
      ProperActive(disk.view);
      r := Ok(current.value.active);
    }

    /** The handle's process was born after `w`. */
    ghost predicate IsNew(w: World)
      reads this`handle, supervisor`mine
    {
      handle.Some? && handle.value.id in supervisor.mine && supervisor.mine[handle.value.id] !in w.births
    }

    /** The handle's process runs the configured executable of release `id` as it is installed. */
    ghost predicate Started(id: CText)
      reads this`handle, kernel`world, supervisor`finished, supervisor`adopted, supervisor`mine, disk`view
    {
      && Runs(kernel.world, supervisor.View(), handle, id)
      && id in disk.view.dirs && kernel.world.launched[supervisor.mine[handle.value.id]].tree == disk.view.dirs[id]
      && kernel.world.launched[supervisor.mine[handle.value.id]].executable == service.executable
    }
  }

  /** From `q0` and `n0` to `q` and `n` the trace was asked and answered: by the network, or by the supervisor
      about the handle's process. */
  ghost predicate LoggedFrom(kind: ProbeKind, handle: Handle, trace: seq<Health.Probed>, q0: seq<Asked>,
    n0: seq<Health.Probed>, q: seq<Asked>, n: seq<Health.Probed>) {
    if kind.Network? then
      q == q0 && n == n0 + trace
    else
      && n == n0 && q0 <= q && |q| == |q0| + |trace|
      && forall i | 0 <= i < |trace| :: Shows(q[|q0| + i], handle, trace[i])
  }

  lemma LoggedNothing(kind: ProbeKind, handle: Handle, q: seq<Asked>, n: seq<Health.Probed>)
    ensures LoggedFrom(kind, handle, [], q, n, q, n)
  {
  }

  /** One more question and its answer. */
  ghost predicate LoggedOne(kind: ProbeKind, handle: Handle, p: Health.Probed, q: seq<Asked>, n: seq<Health.Probed>,
    q': seq<Asked>, n': seq<Health.Probed>) {
    if kind.Network? then
      q' == q && n' == n + [p]
    else
      n' == n && q <= q' && |q'| == |q| + 1 && Shows(q'[|q|], handle, p)
  }

  lemma LoggedNext(kind: ProbeKind, handle: Handle, trace: seq<Health.Probed>, p: Health.Probed, q0: seq<Asked>,
      n0: seq<Health.Probed>, q: seq<Asked>, n: seq<Health.Probed>, q': seq<Asked>, n': seq<Health.Probed>)
    requires LoggedFrom(kind, handle, trace, q0, n0, q, n) && LoggedOne(kind, handle, p, q, n, q', n')
    ensures LoggedFrom(kind, handle, trace + [p], q0, n0, q', n')
  {
    if kind.ProcessAlive? {
      forall i | 0 <= i < |trace| + 1 ensures Shows(q'[|q0| + i], handle, (trace + [p])[i]) {
        if i < |trace| { assert q'[|q0| + i] == q[|q0| + i]; }
      }
    }
  }

  /** At that moment it was asked about the handle's process, and the answer was that it runs, or not. */
  ghost predicate Shows(a: Asked, handle: Handle, p: Health.Probed) {
    && handle.Some? && a.handle == handle.value && a.at == p.at
    && (p.ok <==> a.answer.Ok? && a.answer.value.state.Alive?)
  }

  lemma StartCalls(w: World, w': World, r: Result<ProcessHandle, Fault>, instance: nat, launch: ProcessTable.Launch)
    requires if r.Ok? then Begun(w, w', r.value, instance, launch) else Quiet(w, w')
    ensures w'.callFaults >= w.callFaults && w'.tokenFaults >= w.tokenFaults
  {
  }

  lemma SettledCalls(w: World, b: Books, w': World, b': Books)
    requires Settled(w, b, w', b')
    ensures w'.callFaults >= w.callFaults && w'.tokenFaults >= w.tokenFaults
  {
  }

  lemma NobodyTracked(w: World, b: Books)
    ensures NoService(w) && w.peak <= 1 ==> Tracked(w, b, None)
  {
  }

  lemma OnePeak(w: World, b: Books, handle: Handle)
    ensures Tracked(w, b, handle) ==> w.peak <= 1
  {
  }

  lemma QuietCalls(w: World, w': World)
    requires Quiet(w, w')
    ensures w'.callFaults >= w.callFaults && w'.tokenFaults >= w.tokenFaults
  {
  }

  lemma AskedOn(asked: seq<Asked>, asked': seq<Asked>, handle: ProcessHandle)
    requires OnlyAbout(asked, asked', handle)
    ensures asked <= asked'
  {
  }

  lemma WhyNotStopped(w: World, b: Books, w': World, b': Books, handle: Handle, m: Mishaps, m': Mishaps)
    requires handle.Some? && handle.value.id > 1 && handle.value.id in b.mine && Coherent(w, b) && Settled(w, b, w', b')
    requires m.call == w.callFaults && m.token == w.tokenFaults
    requires m'.call == w'.callFaults && m'.token == w'.tokenFaults
    ensures m'.call >= m.call && m'.token >= m.token
    ensures Hindered(w, w', handle.value.id) ==> m' != m || PidTaken(w, w')
  {
    var i := b.mine[handle.value.id];
    assert w'.births[i].pid == handle.value.id;
  }

  function ActiveOf(s: Snapshot): (id: CText) {
    if PointersOf(s).Some? then PointersOf(s).value.active else ""
  }

  function PreviousOf(s: Snapshot): (id: CText) {
    if PointersOf(s).Some? then PointersOf(s).value.previous else ""
  }

  lemma PreviousRead(s: Snapshot, s': Snapshot)
    requires OnlyRecord(s, s')
    ensures PreviousOf(s') == PreviousOf(s)
    ensures PointersOf(s').Some? ==> PreviousOf(s) == PointersOf(s').value.previous
    ensures PointersOf(s').None? ==> PreviousOf(s) == ""
  {
  }

  lemma ActiveRead(s: Snapshot)
    ensures PointersOf(s).Some? ==> ActiveOf(s) == PointersOf(s).value.active
  {
  }

  /** The operation failed before it touched the service. */
  predicate Untouching(r: Result<Unit, Failure>) {
    r.Err? && (r.error.BadExecutable? || r.error.InstallFailed? || r.error.StateFailed?)
  }

  /** The failed release was stopped, and there was nothing to go back to. */
  predicate NoWayBack(r: Result<Unit, Failure>) {
    r.Err? && r.error.Recovered? && r.error.recovery.NoTarget?
  }

  lemma SameMine(w: World, b: Books, w': World, b': Books)
    requires Settled(w, b, w', b')
    ensures b'.mine == b.mine && w'.launched == w.launched
  {
  }

  lemma NoServiceSettled(w: World, b: Books, w': World, b': Books)
    requires Coherent(w, b) && Settled(w, b, w', b')
    ensures NoService(w) ==> NoService(w')
  {
    if NoService(w) { NoServiceStays(w, w'); }
  }

  lemma SafeOnlyRecord(s: Snapshot, s': Snapshot, activated: set<CText>, lost: set<string>)
    requires OnlyRecord(s, s')
    ensures PointersOf(s') == PointersOf(s) && Proper(s') == Proper(s) && HasActive(s') == HasActive(s)
    ensures SafeIn(s, activated, lost) ==> SafeIn(s', activated, lost)
  {
  }

  lemma StillTracked(w: World, w': World, b: Books, handle: Handle)
    requires Coherent(w, b) && Quiet(w, w')
    ensures NoService(w) ==> NoService(w')
    ensures NoService(w) && w.peak <= 1 ==> Tracked(w', b, handle)
  {
    if NoService(w) { NoServiceStays(w, w'); }
  }

  lemma IssuedQuiet(w: World, w': World, b: Books, handle: Handle)
    requires Coherent(w, b) && Quiet(w, w') && Held(w, b, handle)
    ensures Held(w', b, handle)
  {
  }

  lemma BegunStarts(w: World, w': World, handle: ProcessHandle, instance: nat, launch: Launch)
    requires Begun(w, w', handle, instance, launch)
    ensures instance in w'.launched && w'.launched[instance] == launch && instance in w'.births
    ensures handle.startToken != 0 ==> w'.births[instance] == Birth(handle.id, handle.startToken)
    ensures handle.id > 1 && w'.signals == w.signals && w'.tokenFaults >= w.tokenFaults && instance !in w.births
    ensures Doubles(w, w')
  {
  }

  lemma BegunRevives(w: World, w': World, handle: ProcessHandle, instance: nat, launch: Launch)
    requires Sound(w) && Begun(w, w', handle, instance, launch)
    ensures NoneRevived(w, w')
  {
    forall i | i in Live(w') && i in w.births ensures i in Live(w) {
      var p :| p in w'.table && w'.table[p].life.Running? && w'.table[p].instance == i && i in w'.launched;
      assert p != handle.id && Later(w.table[p], w'.table[p]);
    }
  }

  lemma StepsRevive(w: World, w': World)
    requires Sound(w) && Steps(w, w')
    ensures NoneRevived(w, w')
  {
    forall i | i in Live(w') && i in w.births ensures i in Live(w) {
      var p :| p in w'.table && w'.table[p].life.Running? && w'.table[p].instance == i && i in w'.launched;
      assert Later(w.table[p], w'.table[p]);
    }
  }

  lemma QuietRevives(w: World, w': World)
    requires Sound(w) && Quiet(w, w')
    ensures NoneRevived(w, w') && w'.peak == w.peak
  {
    StepsRevive(w, w');
  }

  lemma SettledRevives(w: World, b: Books, w': World, b': Books)
    requires Sound(w) && Settled(w, b, w', b')
    ensures NoneRevived(w, w') && w'.peak == w.peak
  {
    StepsRevive(w, w');
  }

  lemma RevivedLater(w0: World, w1: World, w2: World)
    requires Grows(w0, w1) && NoneRevived(w0, w1) && NoneRevived(w1, w2)
    ensures NoneRevived(w0, w2)
  {
  }

  lemma NobodyRevived(w: World)
    ensures NoneRevived(w, w)
  {
  }

  /** Who survives both parts survives the second one. */
  lemma SurvivesPart(w0: World, w1: World, w2: World)
    requires Sound(w0) && Grows(w0, w1) && NoneRevived(w1, w2)
    ensures Survives(w0, w2) ==> Survives(w1, w2)
  {
    if i :| i in Live(w0) && i in Live(w2) {
      assert i in w0.births && i in w1.births;
      assert i in Live(w1);
    }
  }

  lemma NewHandleIssued(w: World, b: Books, handle: ProcessHandle)
    requires handle.id !in b.adopted
    ensures Issued(w, b, handle)
  {
  }

  /** The process runs, but no record of it was written. */
  predicate Unrecorded(failure: LaunchFailure) { failure.NoIdentity? || failure.NotRecorded? }

  lemma NothingLaunched(w: World, dirs: map<string, Tree>)
    ensures LaunchedFrom(w, w, dirs)
  {
  }

  lemma QuietGrows(w: World, w': World, dirs: map<string, Tree>)
    requires Quiet(w, w')
    ensures LaunchedFrom(w, w', dirs) && Grows(w, w') && w'.signals == w.signals && w'.tokenFaults >= w.tokenFaults
  {
  }

  lemma NothingReady(successes: nat, failures: nat)
    requires successes >= 1
    ensures !Health.Ready([], successes, failures)
  {
  }

  lemma LastSucceeded(trace: seq<Health.Probed>, p: Health.Probed, successes: nat)
    requires successes >= 1 && Health.RunEnds(Health.Outcomes(trace + [p]), |trace| + 1, successes, true)
    ensures p.ok
  {
    assert Health.Outcomes(trace + [p])[|trace|] == p.ok;
  }

  lemma ReadyAfter(trace: seq<Health.Probed>, start: int, timeout: nat, interval: nat, successes: nat)
    requires successes >= 1 && Health.Paced(trace, start, timeout, interval)
    requires Health.RunEnds(Health.Outcomes(trace), |trace|, successes, true)
    ensures successes <= |trace| && trace[|trace|-1].at >= trace[|trace|-successes].at + (successes - 1) * interval
  {
    Health.ApartAtLeast(trace, start, timeout, interval, |trace| - successes, |trace| - 1);
  }

  lemma PollKeeps(w: World, b: Books, w': World, b': Books, id: int, doc: Doc, boot: CText)
    requires Coherent(w, b) && Polled(w, b, w', b', id) && b'.mine == b.mine
    ensures Honest(w, doc, boot) ==> Honest(w', doc, boot)
    ensures NoService(w) ==> NoService(w')
    ensures Grows(w, w')
  {
    SettledSelf(w, b, id);
    SettledPoll(w, b, w, b, w', b', id);
    SettledGrows(w, b, w', b');
    if Honest(w, doc, boot) { HonestStays(w, w', doc, boot); }
    if NoService(w) { NoServiceStays(w, w'); }
  }

  lemma AliveIsPresent(w: World, b: Books, handle: ProcessHandle)
    requires Coherent(w, b) && Issued(w, b, handle) && Means(w, b, handle, Ok(ALIVE))
    ensures handle.id in b.mine && Present(w, b.mine[handle.id])
  {
    AliveIsMine(w, b, handle);
  }

  /** Without a usable record there is no service. */
  lemma CoveredIdle(w: World, b: Books, handle: Handle, doc: Doc, boot: CText)
    ensures Covered(w, doc, boot) && (RecordOf(doc).None? || !Adoptable(RecordOf(doc).value, boot)) ==>
      NoService(w) && Tracked(w, b, handle)
  {
  }

  lemma RecordLost(w: World, s: Snapshot, s': Snapshot, activated: set<CText>, lost: set<string>, boot: CText)
    requires OnlyRecord(s, s') && (s' == s || s'.runtime == Absent)
    ensures SafeIn(s, activated, lost) ==> SafeIn(s', activated, lost)
    ensures PointersOf(s') == PointersOf(s) && Proper(s') == Proper(s) && HasActive(s') == HasActive(s)
    ensures Honest(w, s.runtime, boot) ==> Honest(w, s'.runtime, boot)
  {
  }

  lemma GrowsSelf(w: World)
    ensures Grows(w, w)
  {
  }

  lemma GrowsTransitive(w0: World, w1: World, w2: World)
    requires Grows(w0, w1) && Grows(w1, w2)
    ensures Grows(w0, w2)
  {
  }

  /** Nothing of the engine's is lost by a quiet step. */
  lemma QuietFacts(w: World, w': World, b: Books, handle: Handle)
    requires Coherent(w, b) && Quiet(w, w')
    ensures Grows(w, w') && w'.launched == w.launched && w'.tokenFaults >= w.tokenFaults && w'.peak == w.peak
    ensures NoService(w) ==> NoService(w')
    ensures Tracked(w, b, handle) ==> Tracked(w', b, handle)
    ensures Held(w, b, handle) ==> Held(w', b, handle)
  {
    QuietSettled(w, w', b);
    if NoService(w) { NoServiceStays(w, w'); }
    if Tracked(w, b, handle) { TrackedSettled(w, b, w', b, handle); }
  }

  lemma IdleTracked(w: World, w': World, b: Books, handle: Handle, doc: Doc, boot: CText)
    requires Covered(w, doc, boot) && NoService(w') && w'.peak == w.peak
    ensures Tracked(w', b, handle)
  {
  }

  /** An adopted process is the launch its record names. */
  lemma AdoptedRuns(w: World, w': World, b': Books, adopted: ProcessHandle, record: RuntimeRecord, doc: Doc,
      boot: CText)
    requires Quiet(w, w') && Honest(w, doc, boot) && RecordOf(doc) == Some(record) && Adoptable(record, boot)
    requires adopted == ProcessHandle(record.processId, record.startToken) && adopted.id > 1 && adopted.id in b'.mine
    requires var i := b'.mine[adopted.id]; i in w'.births && w'.births[i] == Birth(adopted.id, adopted.startToken)
    ensures Runs(w', b', Some(adopted), record.releaseId) && Held(w', b', Some(adopted))
  {
    var i :| NamesLaunch(w, record, i);
    assert w'.births[i] == w.births[i];
    assert b'.mine[adopted.id] == i;
  }

  lemma ProperActive(s: Snapshot)
    requires Proper(s)
    ensures PointersOf(s).Some? && PointersOf(s).value.active != "" ==> ValidId(PointersOf(s).value.active)
  {
  }

  lemma CoveredNoService(w: World, b: Books, handle: Handle, doc: Doc, boot: CText)
    ensures Covered(w, doc, boot) && NoService(w) ==> Tracked(w, b, handle)
  {
  }

  lemma TrackedNone(w: World, b: Books)
    ensures Tracked(w, b, None) ==> NoService(w) && w.peak <= 1
  {
  }

  lemma GrowsIsLaunched(w: World, w': World, dirs: map<string, Tree>)
    requires Grows(w, w') && w'.launched == w.launched
    ensures LaunchedFrom(w, w', dirs)
  {
  }

  lemma LaunchedLater(w0: World, w1: World, w2: World, dirs: map<string, Tree>)
    requires LaunchedFrom(w0, w1, dirs) && LaunchedFrom(w1, w2, dirs)
    ensures LaunchedFrom(w0, w2, dirs) && w0.births.Keys <= w1.births.Keys
  {
  }

  lemma OnlyRecordChain(s0: Snapshot, s1: Snapshot, s2: Snapshot)
    requires OnlyRecord(s0, s1) && OnlyRecord(s1, s2)
    ensures OnlyRecord(s0, s2)
  {
  }

  ghost predicate DirsSince(s: Snapshot, n: nat, history: seq<Snapshot>) {
    forall i | n <= i < |history| :: history[i].dirs == s.dirs
  }

  lemma RecordIsDirs(s: Snapshot, n: nat, history: seq<Snapshot>)
    requires RecordSince(s, n, history)
    ensures DirsSince(s, n, history)
  {
  }

  lemma DirsChain(s0: Snapshot, n0: nat, h1: seq<Snapshot>, s1: Snapshot, h2: seq<Snapshot>)
    requires n0 <= |h1| && h1 <= h2 && DirsSince(s0, n0, h1) && s1.dirs == s0.dirs
    requires DirsSince(s1, |h1|, h2)
    ensures DirsSince(s0, n0, h2)
  {
  }

  lemma StopLaunches(w: World, b: Books, w': World, b': Books, dirs: map<string, Tree>)
    requires Settled(w, b, w', b')
    ensures LaunchedFrom(w, w', dirs) && w.births.Keys <= w'.births.Keys
  {
  }

  /** The pointers after `apply` of `id`, from where they were. Applying another release than the active
      one ends in one of three pairs; applying the active one again never falls back to itself. */
  function Landed(p: Pointers, id: CText, r: Result<Unit, Failure>): (q: Pointers)
    ensures id != p.active ==> q in {p, Pointers(id, p.active), Pointers(p.active, id)}
    ensures id == p.active ==> q in {p, Pointers(p.previous, id)}
  {
    match r
    case Ok(_) => AfterActivate(p, id)
    case Err(Recovered(_, NotRestarted(_, _))) => AfterRollback(AfterActivate(p, id))
    case Err(Recovered(_, RolledBack(_))) => AfterRollback(AfterActivate(p, id))
    case Err(Recovered(_, _)) => AfterActivate(p, id)
    case Err(_) => p
  }

  /** The pointers after a launch of the active release and, if that failed, a recovery. */
  function Fallen(p: Pointers, r: Result<Unit, Failure>): Pointers {
    if r.Err? && r.error.Recovered? && (r.error.recovery.NotRestarted? || r.error.recovery.RolledBack?)
    then AfterRollback(p) else p
  }

  /** The release an operation of this outcome made active, be it for a moment. */
  function ActivatedIds(id: CText, r: Result<Unit, Failure>): set<CText> {
    if r.Ok? || r.error.Recovered? || r.error.LaunchFailed? then {id} else {}
  }

  /** The releases that are set aside by a swap whose two renames failed, after `apply` of `id`. */
  function LostAfter(lost: set<string>, id: CText, r: Result<Unit, Failure>): set<string> {
    if r.Err? && r.error.InstallFailed? then (if r.error.install.Stranded? then lost + {id} else lost)
    else if r.Err? && r.error.BadExecutable? then lost
    else lost - {id}
  }

  /** The failed release was stopped and the one before it runs again. */
  predicate FellBack(r: Result<Unit, Failure>) {
    r.Err? && r.error.Recovered? && r.error.recovery.RolledBack?
  }

  lemma SameStateSamePointers(s: Snapshot, s': Snapshot)
    ensures s'.state == s.state ==>
      PointersOf(s') == PointersOf(s) && Proper(s') == Proper(s) && HasActive(s') == HasActive(s)
  {
  }

  // ---------------------------------------------------------------- releases during an apply

  /** Release `id` is the whole old tree, the whole new tree, or absent with the old tree set aside;
      every other release is as it was. */
  ghost predicate Published(s0: Snapshot, s: Snapshot, id: string, tree: Tree) {
    && Releases(s, {id}) == Releases(s0, {id})
    && (id in s.dirs ==> s.dirs[id] == tree || (id in s0.dirs && s.dirs[id] == s0.dirs[id]))
    && (id !in s.dirs && id in s0.dirs ==> RetiredName(id) in s.dirs && s.dirs[RetiredName(id)] == s0.dirs[id])
  }

  ghost predicate PublishedSince(s0: Snapshot, n: nat, history: seq<Snapshot>, id: string, tree: Tree) {
    forall i | n <= i < |history| :: Published(s0, history[i], id, tree)
  }

  /** Every release holds files it held before, or files of the new tree if it is `id`. */
  ghost predicate Derived(s0: Snapshot, s: Snapshot, id: string, tree: Tree) {
    forall n | n in s.dirs && !Internal(n) ::
      (n == id && SubTree(s.dirs[n], tree)) || (n in s0.dirs && SubTree(s.dirs[n], s0.dirs[n]))
  }

  ghost predicate DerivedSince(s0: Snapshot, n: nat, history: seq<Snapshot>, id: string, tree: Tree) {
    forall i | n <= i < |history| :: Derived(s0, history[i], id, tree)
  }

  /** Every process started since ran a whole tree: the new one, or a release as it was before. */
  ghost predicate LaunchedBy(w0: World, w: World, s0: Snapshot, id: string, tree: Tree) {
    && Grows(w0, w)
    && forall i | i in w.launched && i !in w0.launched ::
      var l := w.launched[i];
      && !Internal(l.release)
      && ((l.release == id && l.tree == tree) || (l.release in s0.dirs && l.tree == s0.dirs[l.release]))
  }

  /** The release that is now the previous one is still installed as it was. */
  ghost predicate PreviousKept(s0: Snapshot, s: Snapshot, id: CText) {
    PointersOf(s).Some? ==>
      var previous := PointersOf(s).value.previous;
      previous in s0.dirs && previous != id ==> previous in s.dirs && s.dirs[previous] == s0.dirs[previous]
  }

  lemma FoundAgain(s: Snapshot, activated: set<CText>, lost: set<string>, id: string)
    requires SafeIn(s, activated, lost) && id in s.dirs
    ensures SafeIn(s, activated, lost - {id})
  {
  }

  lemma PublishedSelf(s: Snapshot, id: string, tree: Tree)
    ensures Published(s, s, id, tree)
  {
  }

  lemma SwapPublished(s0: Snapshot, s: Snapshot, id: string, tree: Tree)
    requires Swap(s0, s, id, tree)
    ensures Published(s0, s, id, tree) && s.state == s0.state && s.runtime == s0.runtime
  {
  }

  lemma PublishedDerived(s0: Snapshot, s: Snapshot, id: string, tree: Tree)
    requires Published(s0, s, id, tree)
    ensures Derived(s0, s, id, tree)
  {
    forall n | n in s.dirs && !Internal(n) && n != id ensures n in s0.dirs && s.dirs[n] == s0.dirs[n] {
      assert n in Releases(s, {id});
      assert n in Releases(s0, {id});
    }
  }

  lemma PublishedSinceDerived(s0: Snapshot, n: nat, history: seq<Snapshot>, id: string, tree: Tree)
    requires PublishedSince(s0, n, history, id, tree)
    ensures DerivedSince(s0, n, history, id, tree)
  {
    forall i | n <= i < |history| ensures Derived(s0, history[i], id, tree) {
      PublishedDerived(s0, history[i], id, tree);
    }
  }

  lemma PublishedChain(s0: Snapshot, n0: nat, h1: seq<Snapshot>, s1: Snapshot, h2: seq<Snapshot>, s2: Snapshot,
      id: string, tree: Tree)
    requires n0 <= |h1| && h1 <= h2 && PublishedSince(s0, n0, h1, id, tree) && Published(s0, s1, id, tree)
    requires DirsSince(s1, |h1|, h2) && s2.dirs == s1.dirs
    ensures PublishedSince(s0, n0, h2, id, tree) && Published(s0, s2, id, tree)
    ensures NoStaging(s1) ==> NoStaging(s2)
  {
    forall i | n0 <= i < |h2| ensures Published(s0, h2[i], id, tree) {
      if i < |h1| { assert h2[i] == h1[i]; }
    }
  }

  lemma PrunedDerived(s0: Snapshot, s: Snapshot, s': Snapshot, id: string, tree: Tree, p: Pointers)
    requires Published(s0, s, id, tree) && Pruned(s, s', p)
    ensures Derived(s0, s', id, tree) && s'.state == s.state && s'.runtime == s.runtime
    ensures NoStaging(s) ==> NoStaging(s')
  {
    PublishedDerived(s0, s, id, tree);
  }

  lemma PrunedSinceDerived(s0: Snapshot, n0: nat, s: Snapshot, h1: seq<Snapshot>, h2: seq<Snapshot>, id: string,
      tree: Tree, p: Pointers)
    requires n0 <= |h1| && h1 <= h2 && DerivedSince(s0, n0, h1, id, tree) && Published(s0, s, id, tree)
    requires forall i | |h1| <= i < |h2| :: Pruned(s, h2[i], p)
    ensures DerivedSince(s0, n0, h2, id, tree)
  {
    forall i | n0 <= i < |h2| ensures Derived(s0, h2[i], id, tree) {
      if i < |h1| { assert h2[i] == h1[i]; } else { PrunedDerived(s0, s, h2[i], id, tree, p); }
    }
  }

  /** Pruning with the right pointers keeps the releases they name. */
  lemma PrunedKeeps(s0: Snapshot, s: Snapshot, s': Snapshot, id: CText, tree: Tree, p: Pointers)
    requires Published(s0, s, id, tree) && Pruned(s, s', p) && ValidId(id) && id in s.dirs && s.dirs[id] == tree
    requires PointersOf(s).Some? && PointersOf(s).value.active == id && Proper(s)
    requires s' == s || p == PointersOf(s).value
    ensures id in s'.dirs && s'.dirs[id] == tree && PreviousKept(s0, s', id)
  {
    var previous := PointersOf(s).value.previous;
    if previous in s0.dirs && previous != id && !Internal(previous) {
      assert previous in Releases(s0, {id});
      assert previous in Releases(s, {id});
    }
  }

  /** The installed releases. */
  function Installed(s: Snapshot): (r: set<string>) { set n | n in s.dirs && !Internal(n) }

  lemma PrunedCount(s: Snapshot, s': Snapshot, listed: seq<Stamped>, p: Pointers, keep: nat)
    requires Lists(s, listed) && s'.dirs == s.dirs - Victims(listed, p, keep)
    ensures |Installed(s')| == |Installed(s)| - (|Others(listed, p)| - Kept(listed, p, keep))
    ensures |Installed(s')| <= keep + 2
  {
    hide Lists, Others, Kept, Victims, Internal;
    var victims := Victims(listed, p, keep);
    assert |victims| == |Others(listed, p)| - Kept(listed, p, keep) && victims <= Installed(s)
      && |Survivors(s, listed, p, keep)| <= keep + 2
    by {
      PruneKeepsTheNewest(s, listed, p, keep);
    }
    assert Installed(s') == Survivors(s, listed, p, keep);
    SizeOfRest(Installed(s), victims);
    assert Installed(s') == Installed(s) - victims;
  }

  lemma SizeOfRest(a: set<string>, b: set<string>)
    requires b <= a
    ensures |a - b| == |a| - |b|
  {
    assert a == (a - b) + b;
  }

  lemma LeftoverStill(s0: Snapshot, tree: Tree, staging: string, source: Option<Tree>, before: nat, after: nat)
    ensures source.Some? ==> forall failed: bool | failed ==> after > before ::
      Leftover(s0, tree, staging, source.value, failed) ==> Leftover(s0, tree, staging, source.value, after > before)
  {
    if source.Some? {
      forall failed: bool | (failed ==> after > before) && Leftover(s0, tree, staging, source.value, failed)
        ensures Leftover(s0, tree, staging, source.value, after > before)
      {
        LeftoverStays(s0, tree, staging, source.value, failed, after > before);
      }
    }
  }

  lemma NothingLaunchedBy(w: World, s: Snapshot, id: string, tree: Tree)
    ensures LaunchedBy(w, w, s, id, tree)
  {
  }

  lemma LaunchedByDirs(w0: World, w: World, s0: Snapshot, s1: Snapshot, id: string, tree: Tree)
    requires LaunchedFrom(w0, w, s1.dirs) && Published(s0, s1, id, tree)
    ensures LaunchedBy(w0, w, s0, id, tree)
  {
    forall i | i in w.launched && i !in w0.launched && w.launched[i].release != id
      ensures w.launched[i].release in s0.dirs && w.launched[i].tree == s0.dirs[w.launched[i].release]
    {
      var n := w.launched[i].release;
      assert !Internal(n) ==> n in Releases(s1, {id});
    }
  }

  lemma ApplyNothing(w: World, s: Snapshot, id: string, tree: Tree, source: Option<Tree>)
    requires source.Some? ==> tree == source.value
    ensures Published(s, s, id, tree) && Derived(s, s, id, tree) && LaunchedBy(w, w, s, id, tree)
    ensures source.Some? ==> Leftover(s, tree, StagingName(id), source.value, false)
  {
    if source.Some? { NothingLeft(s, StagingName(id), source.value, false); }
  }

  /** The record names a service process that is in the table. */
  ghost predicate Recoverable(w: World, record: RuntimeRecord) {
    exists i :: NamesLaunch(w, record, i) && Present(w, i)
  }

  lemma AdoptedWasThere(w: World, w': World, b': Books, adopted: ProcessHandle, record: RuntimeRecord, doc: Doc,
      boot: CText)
    requires Quiet(w, w') && Honest(w, doc, boot) && RecordOf(doc) == Some(record) && Adoptable(record, boot)
    requires adopted == ProcessHandle(record.processId, record.startToken) && adopted.id in b'.mine
    requires var i := b'.mine[adopted.id];
      i in w'.births && w'.births[i] == Birth(adopted.id, adopted.startToken) && (i in w.births ==> Present(w, i))
    ensures Recoverable(w, record) && b'.mine[adopted.id] in w.births
  {
    var i :| NamesLaunch(w, record, i);
    assert w'.births[i] == w.births[i];
    assert b'.mine[adopted.id] == i;
  }

  lemma HeldIsOld(w: World, b: Books, handle: Handle)
    requires Held(w, b, handle)
    ensures handle.Some? ==> handle.value.id in b.mine && b.mine[handle.value.id] in w.births
  {
  }

  /** `i` is a running service and the only one in the table. */
  ghost predicate Sole(w: World, i: nat) {
    && i in Live(w) && i in w.births && w.births[i].pid > 1
    && forall pid | pid in w.table && w.table[pid].instance in w.launched :: w.table[pid].instance == i
  }

  /** The record names the process born as `birth`, and it could be used to adopt it. */
  predicate RecordNames(doc: Doc, boot: CText, birth: Birth) {
    && RecordOf(doc).Some? && Adoptable(RecordOf(doc).value, boot)
    && birth == Birth(RecordOf(doc).value.processId, RecordOf(doc).value.startToken)
  }

  /** A service that ran alone and still runs is the only one exactly if the record named it. */
  ghost predicate OneExactlyIfNamed(w: World, doc: Doc, boot: CText, w': World) {
    forall i | w.peak <= 1 && Sole(w, i) && i in Live(w') :: w'.peak <= 1 <==> RecordNames(doc, boot, w.births[i])
  }

  lemma AdoptedExactly(w: World, doc: Doc, boot: CText, w': World)
    requires Sound(w) && w'.peak == w.peak && RecordOf(doc).Some? && Adoptable(RecordOf(doc).value, boot)
    requires Recoverable(w, RecordOf(doc).value)
    ensures OneExactlyIfNamed(w, doc, boot, w')
  {
    forall i | w.peak <= 1 && Sole(w, i) && i in Live(w') ensures RecordNames(doc, boot, w.births[i]) {
      RecoverableIsSole(w, doc, boot, i);
    }
  }

  lemma LaunchedExactly(w: World, doc: Doc, boot: CText, w': World, b': Books, handle: Handle)
    requires Sound(w)
    ensures Doubles(w, w') && (Covered(w, doc, boot) ==> Tracked(w', b', handle)) ==>
      OneExactlyIfNamed(w, doc, boot, w')
  {
    if Doubles(w, w') && (Covered(w, doc, boot) ==> Tracked(w', b', handle)) {
      forall i | w.peak <= 1 && Sole(w, i) && i in Live(w')
        ensures w'.peak <= 1 <==> RecordNames(doc, boot, w.births[i])
      {
        assert Survives(w, w');
        if RecordNames(doc, boot, w.births[i]) { NamedIsCovered(w, doc, boot, i); }
      }
    }
  }

  lemma OneMoreStays(w0: World, w1: World, b1: Books, w2: World, b2: Books, dirs: map<string, Tree>)
    requires Sound(w1) && LaunchedFrom(w0, w1, dirs) && OneMore(w0, w1) && Settled(w1, b1, w2, b2)
    ensures OneMore(w0, w2)
  {
    SettledRevives(w1, b1, w2, b2);
    RevivedLater(w0, w1, w2);
    if i :| i in Live(w0) && i in Live(w2) {
      var p :| p in w2.table && w2.table[p].life.Running? && w2.table[p].instance == i && i in w2.launched;
      assert i in Live(w1);
    }
  }

  lemma OneMoreAfterStop(w0: World, b0: Books, w1: World, b1: Books, w2: World)
    requires Sound(w0) && Settled(w0, b0, w1, b1) && OneMore(w1, w2)
    ensures OneMore(w0, w2)
  {
    SettledRevives(w0, b0, w1, b1);
    SettledGrows(w0, b0, w1, b1);
    RevivedLater(w0, w1, w2);
    DoublesLater(w0, w1, w2);
  }

  lemma DoublesLater(w0: World, w1: World, w2: World)
    requires Sound(w0) && Grows(w0, w1) && NoneRevived(w1, w2)
    ensures Doubles(w1, w2) ==> Doubles(w0, w2)
  {
    SurvivesPart(w0, w1, w2);
  }

  lemma NamedIsCovered(w: World, doc: Doc, boot: CText, i: nat)
    requires Sound(w) && w.peak <= 1 && Sole(w, i) && RecordNames(doc, boot, w.births[i])
    ensures Covered(w, doc, boot)
  {
  }

  lemma RecoverableIsSole(w: World, doc: Doc, boot: CText, i: nat)
    requires Sound(w) && Sole(w, i) && RecordOf(doc).Some? && Adoptable(RecordOf(doc).value, boot)
    requires Recoverable(w, RecordOf(doc).value)
    ensures RecordNames(doc, boot, w.births[i])
  {
    var k :| NamesLaunch(w, RecordOf(doc).value, k) && Present(w, k);
    assert k == i;
  }

  lemma HonestNothing(w: World, doc: Doc, boot: CText)
    requires doc == Absent
    ensures Honest(w, doc, boot)
  {
  }

  // ---------------------------------------------------------------- failed looks

  /** How many looks at `state.json`, at other files and at start tokens failed. */
  datatype Faults = Faults(query: nat, state: nat, token: nat)

  ghost function FaultsOf(disk: Disk, kernel: Kernel): Faults
    reads disk, kernel
  {
    Faults(disk.queryFaults, disk.stateFaults, kernel.world.tokenFaults)
  }

  ghost predicate FaultsGrow(f: Faults, f': Faults) {
    f'.query >= f.query && f'.state >= f.state && f'.token >= f.token
  }

  lemma FaultsRead(disk: Disk, kernel: Kernel)
    ensures FaultsOf(disk, kernel) == Faults(disk.queryFaults, disk.stateFaults, kernel.world.tokenFaults)
  {
  }

  lemma StateOnlyGrows(f0: Faults, f1: Faults, f2: Faults)
    requires FaultsGrow(f0, f1) && FaultsGrow(f1, f2)
    ensures f0.state <= f1.state <= f2.state
  {
  }

  lemma FaultsOnlyGrow(f: Faults, f': Faults)
    ensures f'.query >= f.query && f'.state >= f.state && f'.token >= f.token ==> FaultsGrow(f, f')
  {
  }

  lemma LaunchedByFaults(w: World, w': World, s: Snapshot, id: string, tree: Tree)
    ensures LaunchedBy(w, w', s, id, tree) ==> w'.tokenFaults >= w.tokenFaults
  {
  }

  lemma LaunchedFaults(w: World, w': World, dirs: map<string, Tree>)
    ensures LaunchedFrom(w, w', dirs) ==> w'.tokenFaults >= w.tokenFaults
  {
  }

  lemma SettledFaults(w: World, b: Books, w': World, b': Books)
    ensures Settled(w, b, w', b') ==> w'.tokenFaults >= w.tokenFaults
  {
  }
}
