/** Whole lives of a device between two boots: commands in any order, agents that die between two
    commands and are started again, and failures everywhere. */
module EngineRuns {
  import opened Prelude
  import opened ReleaseTree
  import opened Records
  import opened ProcessTable
  import opened ProcessSupervisor
  import opened Storage
  import opened ReleaseInstaller
  import opened DeploymentEngine
  import opened HealthChecker

  datatype Command =
    | ApplyCommand(id: CText, source: Option<Tree>)
    | RollbackCommand(id: CText)
    | RestartCommand
    | StopCommand
    | StatusCommand
    | NewAgent

  /** The record names the process the handle names, and could be used to adopt it. */
  ghost predicate RecordFits(doc: Doc, handle: Handle, boot: CText) {
    handle.Some? ==>
      && RecordOf(doc).Some? && Adoptable(RecordOf(doc).value, boot)
      && handle.value == ProcessHandle(RecordOf(doc).value.processId, RecordOf(doc).value.startToken)
  }

  /** A successful start leaves such a record, unless the start token could not be read. */
  lemma RecordedFits(doc: Doc, handle: Handle, id: CText, boot: CText)
    requires Recorded(doc, handle, id, boot) && handle.value.startToken != 0 && handle.value.id > 0
    ensures RecordFits(doc, handle, boot)
  {
  }

  lemma FitsIsCovered(w: World, b: Books, handle: Handle, doc: Doc, boot: CText)
    requires Coherent(w, b) && Tracked(w, b, handle) && Held(w, b, handle) && RecordFits(doc, handle, boot)
    ensures Covered(w, doc, boot)
  {
  }

  lemma CoveredOrphaned(w: World, w': World, doc: Doc, boot: CText)
    requires Sound(w) && Orphaned(w, w') && Covered(w, doc, boot)
    ensures Covered(w', doc, boot)
  {
    forall pid | pid in w'.table && w'.table[pid].instance in w'.launched
      ensures pid in w.table && w.table[pid].instance == w'.table[pid].instance
      ensures w.table[pid].token == w'.table[pid].token
    {
      var i := w'.table[pid].instance;
      assert w'.births[i] == Birth(pid, w'.table[pid].token);
      assert w.births[i] == Birth(pid, w.table[pid].token);
    }
  }

  lemma OrphanedKeeps(w: World, w': World, doc: Doc, boot: CText)
    requires Sound(w) && Orphaned(w, w')
    ensures w'.launched == w.launched
    ensures Sound(w') && Grows(w, w') && w'.tokenFaults == w.tokenFaults
    ensures Honest(w, doc, boot) ==> Honest(w', doc, boot)
    ensures NoService(w) ==> NoService(w')
  {
    if Honest(w, doc, boot) { HonestStays(w, w', doc, boot); }
  }

  /** What held of the service before the agent died holds of it when the new one has started. */
  lemma OneExactlyOrphaned(w0: World, w1: World, w2: World, doc: Doc, boot: CText)
    requires Sound(w0) && Orphaned(w0, w1) && NoneRevived(w1, w2) && OneExactlyIfNamed(w1, doc, boot, w2)
    ensures OneExactlyIfNamed(w0, doc, boot, w2)
  {
    forall i | w0.peak <= 1 && Sole(w0, i) && i in ProcessTable.Live(w2)
      ensures w2.peak <= 1 <==> RecordNames(doc, boot, w0.births[i])
    {
      assert Sole(w1, i);
    }
  }

  /** The command starts nothing. */
  predicate Idle(command: Command) {
    command.StopCommand? || command.StatusCommand?
  }

  /** The releases a command of this outcome made active. */
  function ActivatedBy(command: Command, r: Result<Unit, Failure>): set<CText> {
    match command
    case ApplyCommand(id, _) => ActivatedIds(id, r)
    case RollbackCommand(id) => ActivatedIds(id, r)
    case _ => {}
  }

  function LostBy(lost: set<string>, command: Command, r: Result<Unit, Failure>): set<string> {
    if command.ApplyCommand? then LostAfter(lost, command.id, r) else lost
  }

  /** The release a command is about, and what it is installed from. */
  function About(command: Command, s: Snapshot): CText {
    match command
    case ApplyCommand(id, _) => id
    case RollbackCommand(id) => id
    case _ => ActiveOf(s)
  }

  function Source(command: Command): Option<Tree> {
    if command.ApplyCommand? then command.source else None
  }

  lemma AboutIt(command: Command, s: Snapshot)
    ensures command.ApplyCommand? ==> About(command, s) == command.id && Source(command) == command.source
    ensures command.RollbackCommand? ==> About(command, s) == command.id && Source(command) == None
    ensures command.RestartCommand? ==> About(command, s) == ActiveOf(s) && Source(command) == None
  {
  }

  lemma StopIsExcused(engine: DeploymentEngine, r: Result<Unit, Failure>, id: CText, dirs: map<string, Tree>,
      p: Option<Pointers>, w: World)
    ensures r.Err? && r.error.StopFailed? && engine.StopExcused(r.error.stop, w) ==>
      forall source :: engine.Excused(r.error, id, source, dirs, p, w)
  {
    hide DeploymentEngine.StopExcused;
  }

  method Perform(engine: DeploymentEngine, command: Command) returns (r: Result<Unit, Failure>)
    requires engine.Inv() && !command.NewAgent?
    modifies engine, engine.supervisor, engine.network, engine.installer, engine.kernel, engine.clock, engine.disk
    ensures engine.Inv() && old(engine.disk.history) <= engine.disk.history
    ensures old(engine.Single()) ==> engine.Single()
    ensures FaultsGrow(old(FaultsOf(engine.disk, engine.kernel)), FaultsOf(engine.disk, engine.kernel))
    ensures engine.installer.activated == old(engine.installer.activated) + ActivatedBy(command, r)
    ensures engine.lost == LostBy(old(engine.lost), command, r)
    ensures engine.disk.stateFaults == old(engine.disk.stateFaults) ==>
      engine.installer.misled == old(engine.installer.misled)
    ensures Idle(command) && old(engine.handle).None? ==>
      && engine.handle.None? && engine.kernel.world == old(engine.kernel.world)
      && engine.disk.view == old(engine.disk.view)
    ensures Told(command, r, engine.handle) ==>
      RecordFits(engine.disk.view.runtime, engine.handle, engine.kernel.bootIdentity)
    ensures r.Err? && engine.Mishaps() == old(engine.Mishaps()) ==>
      engine.Excused(r.error, About(command, old(engine.disk.view)), Source(command), engine.disk.view.dirs,
        PointersOf(old(engine.disk.view)), old(engine.kernel.world))
  {
    hide *;
    hide DeploymentEngine.Inv, DeploymentEngine.Single, DeploymentEngine.Started, DeploymentEngine.IsNew;
    ghost var w, b, s := engine.kernel.world, engine.supervisor.View(), engine.disk.view;
    FaultsRead(engine.disk, engine.kernel);
    match command {
      case ApplyCommand(id, source) =>
        var applied, pruned, tree, trace, start := engine.Apply(id, source);
        r := applied;
        LaunchedByFaults(w, engine.kernel.world, s, id, tree);
        if r.Ok? { InStepFits(engine, id); }
      case RollbackCommand(id) =>
        r := engine.RollbackTo(id);
        LaunchedFaults(w, engine.kernel.world, engine.disk.view.dirs);
        if r.Ok? { InStepFits(engine, id); }
      case RestartCommand =>
        var restarted, trace, start := engine.Restart();
        r := restarted;
        LaunchedFaults(w, engine.kernel.world, engine.disk.view.dirs);
        if r.Ok? { InStepFits(engine, PointersOf(engine.disk.view).value.active); }
      case StopCommand =>
        var stopped := engine.Stop();
        SettledFaults(w, b, engine.kernel.world, engine.supervisor.View());
        r := if stopped.Ok? then Ok(Unit.Unit) else Err(StopFailed(stopped.error));
        StopIsExcused(engine, r, About(command, s), engine.disk.view.dirs, PointersOf(s), w);
      case StatusCommand =>
        var running := engine.Running();
        SettledFaults(w, b, engine.kernel.world, engine.supervisor.View());
        r := Ok(Unit.Unit);
    }
    AboutIt(command, s);
    ByCommand(engine.lost, command, r);
    FitsWithout(engine.disk.view.runtime, engine.handle, engine.kernel.bootIdentity);
    FaultsRead(engine.disk, engine.kernel);
    FaultsOnlyGrow(old(FaultsOf(engine.disk, engine.kernel)), FaultsOf(engine.disk, engine.kernel));
  }

  /** The command succeeded, and if it left a process, its start token could be read. */
  predicate Told(command: Command, r: Result<Unit, Failure>, handle: Handle) {
    r.Ok? && !command.StatusCommand? && (handle.Some? ==> handle.value.startToken != 0)
  }

  lemma InStepFits(engine: DeploymentEngine, id: CText)
    requires engine.Inv() && engine.InStep(id)
    ensures engine.handle.value.startToken != 0 ==>
      RecordFits(engine.disk.view.runtime, engine.handle, engine.kernel.bootIdentity)
  {
    if engine.handle.value.startToken != 0 {
      RecordedFits(engine.disk.view.runtime, engine.handle, id, engine.kernel.bootIdentity);
    }
  }

  lemma FitsWithout(doc: Doc, handle: Handle, boot: CText)
    ensures handle.None? ==> RecordFits(doc, handle, boot)
  {
  }

  lemma ByCommand(lost: set<string>, command: Command, r: Result<Unit, Failure>)
    ensures !command.ApplyCommand? ==> LostBy(lost, command, r) == lost
    ensures command.ApplyCommand? ==> forall before :: LostBy(before, command, r) == LostAfter(before, command.id, r)
    ensures command.ApplyCommand? || command.RollbackCommand? ==> ActivatedBy(command, r) == ActivatedIds(command.id, r)
    ensures !command.ApplyCommand? && !command.RollbackCommand? ==> ActivatedBy(command, r) == {}
    ensures Idle(command) <==> command.StopCommand? || command.StatusCommand?
    ensures forall handle :: Told(command, r, handle) ==>
      r.Ok? && !command.StatusCommand? && (handle.Some? ==> handle.value.startToken != 0)
  {
  }

  // ---------------------------------------------------------------- agents that die

  /** The new agent is in charge: it has the service, or there is none to have. */
  predicate TookOver(r: Result<Unit, Failure>) {
    r.Ok? || r.error == NoActiveRelease
  }

  /** The agent dies, and the next one builds its engine. */
  method Begin(before: DeploymentEngine) returns (engine: DeploymentEngine)
    requires before.Inv()
    modifies before.kernel`world
    ensures fresh(engine) && fresh(engine.supervisor) && engine.Inv() && engine.handle.None?
    ensures engine.kernel == before.kernel && engine.clock == before.clock
    ensures engine.disk == before.disk && engine.installer == before.installer && engine.network == before.network
    ensures engine.lost == before.lost && engine.service == before.service && engine.health == before.health
    ensures Sound(old(before.kernel.world)) && Orphaned(old(before.kernel.world), before.kernel.world)
    ensures Grows(old(before.kernel.world), before.kernel.world)
    ensures before.kernel.world.tokenFaults == old(before.kernel.world).tokenFaults
    ensures engine.Mishaps() == old(before.Mishaps())
    ensures LaunchedFrom(old(before.kernel.world), before.kernel.world, before.disk.view.dirs)
    ensures old(before.ByRecord()) ==> engine.ByRecord()
  {
    hide Coherent, Honest, Held, NoService, SafeIn, Proper, Covered, Tracked, Orphaned, LaunchedFrom, RecordOf;
    ghost var w0, doc, boot := before.kernel.world, before.disk.view.runtime, before.kernel.bootIdentity;
    before.kernel.AgentDies();
    OrphanedKeeps(w0, before.kernel.world, doc, boot);
    if Covered(w0, doc, boot) { CoveredOrphaned(w0, before.kernel.world, doc, boot); }
    GrowsIsLaunched(w0, before.kernel.world, before.disk.view.dirs);
    var supervisor := new PosixProcessSupervisor(before.kernel, before.clock);
    engine := new DeploymentEngine(supervisor, before.installer, before.network, before.service, before.health,
      before.lost);
  }

  /** The agent dies and a new one starts: its engine begins with the files alone. `clean`: meanwhile no
      look at a file or a start token failed. */
  method Replace(before: DeploymentEngine)
    returns (engine: DeploymentEngine, r: Result<Unit, Failure>, ghost clean: bool)
    requires before.Inv()
    modifies before.kernel, before.clock, before.disk
    ensures fresh(engine) && fresh(engine.supervisor) && engine.Inv()
    ensures engine.kernel == before.kernel && engine.clock == before.clock
    ensures engine.disk == before.disk && engine.installer == before.installer && engine.network == before.network
    ensures engine.lost == before.lost
    ensures old(before.disk.history) <= before.disk.history
    ensures OnlyRecord(old(before.disk.view), engine.disk.view)
    ensures engine.disk.stagingFaults == old(before.disk.stagingFaults)
    ensures LaunchedFrom(old(before.kernel.world), engine.kernel.world, engine.disk.view.dirs)
    ensures clean <==> FaultsOf(engine.disk, engine.kernel) == old(FaultsOf(before.disk, before.kernel))
    ensures FaultsGrow(old(FaultsOf(before.disk, before.kernel)), FaultsOf(engine.disk, engine.kernel))
    ensures old(before.ByRecord()) && clean ==> Managed(engine, TookOver(r))
    ensures r.Ok? && !old(before.Usable()) ==> Doubles(old(before.kernel.world), engine.kernel.world)
    ensures r.Err? && engine.Mishaps() == old(before.Mishaps()) ==>
      engine.Excused(r.error, ActiveOf(old(before.disk.view)), None, engine.disk.view.dirs,
        PointersOf(old(before.disk.view)), old(before.kernel.world))
    ensures r.Ok? && clean ==>
      OneExactlyIfNamed(old(before.kernel.world), old(before.disk.view).runtime, engine.kernel.bootIdentity,
        engine.kernel.world)
    ensures r.Ok? && (engine.handle.Some? ==> engine.handle.value.startToken != 0) ==>
      RecordFits(engine.disk.view.runtime, engine.handle, engine.kernel.bootIdentity)
  {
    hide DeploymentEngine.Excused, DeploymentEngine.Inv, MoreMishaps, MishapsOf;
    hide Coherent, Honest, Held, NoService, SafeIn, Proper, Covered, Tracked, Orphaned, OneExactlyIfNamed, Doubles,
      NoneRevived, PointersOf, LaunchedFrom, RecordFits, RecordOf, Survives, RecordSince, Grows, OneExactlyIfNamed;
    ghost var w0, doc, boot := before.kernel.world, before.disk.view.runtime, before.kernel.bootIdentity;
    ghost var s := before.disk.view;
    engine := Begin(before);
    ghost var w1 := before.kernel.world;
    r := engine.StartActive();
    clean := engine.NoFault(old(before.disk.queryFaults), old(before.disk.stateFaults), w0);
    if r.Err? && engine.Mishaps() == old(before.Mishaps()) {
      engine.ExcusedBefore(r.error, ActiveOf(s), None, s.dirs, PointersOf(s), w0, w1);
    }
    DoublesLater(w0, w1, engine.kernel.world);
    LaunchedLater(w0, w1, engine.kernel.world, engine.disk.view.dirs);
    if r.Ok? {
      InStepFits(engine, PointersOf(engine.disk.view).value.active);
      if clean { OneExactlyOrphaned(w0, w1, engine.kernel.world, doc, boot); }
    }
  }

  /** The engine has not lost sight of a service; or it could not take over yet, and the record still
      names the service there may be. */
  ghost predicate Managed(engine: DeploymentEngine, taken: bool)
    reads engine, engine.kernel, engine.supervisor, engine.disk
  {
    engine.Single() || (!taken && engine.handle.None? && engine.ByRecord())
  }

  /** How a second service process comes about with no other fault than one unread start token: the
      record then names nobody, the service outlives its agent, and the next agent starts it again. */
  method SecondService(before: DeploymentEngine, id: CText)
    returns (engine: DeploymentEngine, r: Result<Unit, Failure>)
    requires before.Inv() && before.InStep(id) && before.handle.value.startToken == 0
    modifies before.kernel, before.clock, before.disk
    ensures r.Ok? && Survives(old(before.kernel.world), engine.kernel.world) ==> engine.kernel.world.peak >= 2
  {
    hide DeploymentEngine.Inv, DeploymentEngine.Single, OneExactlyIfNamed, Survives, Runs;
    ghost var clean;
    engine, r, clean := Replace(before);
  }

  // ---------------------------------------------------------------- whole lives

  /** A command and its result, and how things stood when it came: whether the agent had taken over, its
      handle, and the record on disk. For a new agent the result is that of taking over, and `clean` says
      that meanwhile no look at a file or a start token failed. */
  datatype Turn = Turn(command: Command, result: Result<Unit, Failure>, taken: bool, handle: Handle, record: Doc,
    clean: bool)

  /** An agent died only while the record named the process it ran, and the next one looked without a
      fault; an agent that could not take over was given no command that starts a process. */
  ghost predicate Careful(turn: Turn, boot: CText) {
    if turn.command.NewAgent?
    then turn.clean && (RecordFits(turn.record, turn.handle, boot) || (!turn.taken && turn.handle.None?))
    else turn.taken || turn.handle.Some? || Idle(turn.command)
  }

  ghost predicate AllCareful(turns: seq<Turn>, boot: CText) {
    forall n | 0 <= n < |turns| :: Careful(turns[n], boot)
  }

  /** Whether the agent is in charge after a turn. */
  predicate TakenAfter(turn: Turn) {
    if turn.command.NewAgent? then TookOver(turn.result) else turn.taken || !Idle(turn.command)
  }

  /** Whether the agent is in charge after the turns; `first` is how the first one started. */
  predicate InCharge(turns: seq<Turn>, first: Result<Unit, Failure>) {
    if turns == [] then TookOver(first) else TakenAfter(turns[|turns|-1])
  }

  ghost predicate TakenInTurn(turns: seq<Turn>, first: Result<Unit, Failure>) {
    forall n | 0 <= n < |turns| :: turns[n].taken == InCharge(turns[..n], first)
  }

  /** The agent died after a command that succeeded, while no start token was unread. */
  predicate AfterSuccess(earlier: Turn, turn: Turn) {
    turn.command.NewAgent? && turn.clean && Told(earlier.command, earlier.result, turn.handle)
  }

  /** The releases that were made active during the turns. */
  function ActivatedDuring(turns: seq<Turn>): (r: set<CText>) {
    if turns == [] then {}
    else
      var last := turns[|turns|-1];
      ActivatedDuring(turns[..|turns|-1]) + ActivatedBy(last.command, last.result)
  }

  /** The releases that are set aside after the turns. */
  function LostDuring(lost: set<string>, turns: seq<Turn>): (r: set<string>) {
    if turns == [] then lost
    else
      var last := turns[|turns|-1];
      LostBy(LostDuring(lost, turns[..|turns|-1]), last.command, last.result)
  }

  /** A device from its boot on. Whatever fails, there is never a second service process as long as one
      agent lives. Agents may die between commands: there is still no second process if every turn was
      careful, and a turn of a new agent is careful when it comes after a success. Whatever agents and
      faults there were, the pointers tell about the releases the commands made active, as long as
      `state.json` was not misread. */
  method Live(kernel: Kernel, clock: Clock, disk: Disk, installer: ReleaseInstaller, network: Network,
      service: ServiceSpec, health: HealthSpec, commands: seq<Command>, ghost lost: set<string>)
    returns (first: Result<Unit, Failure>, ghost turns: seq<Turn>)
    requires installer.disk == disk && disk.Valid() && installer.Safe(lost)
    requires kernel.world == NOBODY
    requires Honest(kernel.world, disk.view.runtime, kernel.bootIdentity)
    modifies kernel, clock, disk, installer, network
    ensures |turns| == |commands| && forall n | 0 <= n < |turns| :: turns[n].command == commands[n]
    ensures TakenInTurn(turns, first)
    ensures FaultsOf(disk, kernel) == old(FaultsOf(disk, kernel)) ==> forall n | 0 <= n < |turns| :: turns[n].clean
    ensures NewAgent !in commands ==> kernel.world.peak <= 1
    ensures AllCareful(turns, kernel.bootIdentity) ==> kernel.world.peak <= 1
    ensures forall n | 0 < n < |turns| && AfterSuccess(turns[n-1], turns[n]) :: Careful(turns[n], kernel.bootIdentity)
    ensures installer.activated == old(installer.activated) + ActivatedDuring(turns)
    ensures disk.stateFaults == old(disk.stateFaults) ==> installer.misled == old(installer.misled)
    ensures installer.misled == 0 ==>
      SafeIn(disk.view, old(installer.activated) + ActivatedDuring(turns), LostDuring(lost, turns))
    ensures disk.Valid() && old(disk.history) <= disk.history
  {
    hide *;
    turns := [];
    ghost var faults, activated, misled := FaultsOf(disk, kernel), installer.activated, installer.misled;
    FaultsRead(disk, kernel);
    var engine;
    engine, first := FirstAgent(kernel, clock, disk, installer, network, service, health, lost);
    NoTurns(engine, first, faults, lost);
    for n := 0 to |commands|
      invariant engine.Inv() && fresh(engine) && fresh(engine.supervisor)
      invariant engine.kernel == kernel && engine.clock == clock && engine.disk == disk
      invariant engine.installer == installer && engine.network == network
      invariant old(disk.history) <= disk.history
      invariant |turns| == n && forall i | 0 <= i < n :: turns[i].command == commands[i]
      invariant NewAgent !in commands[..n] ==> engine.Single()
      invariant Chronicle(turns, engine, first, faults, lost, activated, misled)
    {
      assert commands[..n+1] == commands[..n] + [commands[n]];
      ghost var turn;
      engine, turn := Step(engine, commands[n], turns, first, faults, lost, activated, misled);
      turns := turns + [turn];
    }
    assert commands[..|commands|] == commands;
    AtTheEnd(turns, engine, first, faults, lost, activated, misled);
  }

  /** What the turns so far tell about the engine. */
  ghost predicate Chronicle(turns: seq<Turn>, engine: DeploymentEngine, first: Result<Unit, Failure>, faults: Faults,
      lost: set<string>, activated: set<CText>, misled: nat)
    reads engine, engine.kernel, engine.supervisor, engine.disk, engine.installer
  {
    var boot := engine.kernel.bootIdentity;
    && (AllCareful(turns, boot) ==> Managed(engine, InCharge(turns, first)))
    && LastTold(turns, engine) && SuccessIsCareful(turns, boot) && TakenInTurn(turns, first)
    && FaultsGrow(faults, FaultsOf(engine.disk, engine.kernel))
    && (FaultsOf(engine.disk, engine.kernel) == faults ==> AllClean(turns))
    && engine.installer.activated == activated + ActivatedDuring(turns)
    && engine.lost == LostDuring(lost, turns)
    && (engine.disk.stateFaults == faults.state ==> engine.installer.misled == misled)
  }

  /** After a success the record fits. */
  ghost predicate LastTold(turns: seq<Turn>, engine: DeploymentEngine)
    reads engine, engine.disk
  {
    turns != [] && Told(turns[|turns|-1].command, turns[|turns|-1].result, engine.handle) ==>
      RecordFits(engine.disk.view.runtime, engine.handle, engine.kernel.bootIdentity)
  }

  ghost predicate AllClean(turns: seq<Turn>) {
    forall n | 0 <= n < |turns| :: turns[n].clean
  }

  ghost predicate SuccessIsCareful(turns: seq<Turn>, boot: CText) {
    forall n | 0 < n < |turns| && AfterSuccess(turns[n-1], turns[n]) :: Careful(turns[n], boot)
  }

  method FirstAgent(kernel: Kernel, clock: Clock, disk: Disk, installer: ReleaseInstaller, network: Network,
      service: ServiceSpec, health: HealthSpec, ghost lost: set<string>)
    returns (engine: DeploymentEngine, first: Result<Unit, Failure>)
    requires installer.disk == disk && disk.Valid() && installer.Safe(lost)
    requires kernel.world == NOBODY
    requires Honest(kernel.world, disk.view.runtime, kernel.bootIdentity)
    modifies kernel, clock, disk
    ensures engine.Inv() && fresh(engine) && fresh(engine.supervisor) && engine.lost == lost
    ensures engine.kernel == kernel && engine.clock == clock && engine.disk == disk
    ensures engine.installer == installer && engine.network == network
    ensures old(disk.history) <= disk.history && engine.Single() && Managed(engine, TookOver(first))
    ensures OnlyRecord(old(disk.view), disk.view) && disk.stagingFaults == old(disk.stagingFaults)
    ensures LaunchedFrom(old(kernel.world), kernel.world, disk.view.dirs)
    ensures FaultsGrow(old(FaultsOf(disk, kernel)), FaultsOf(disk, kernel))
  {
    hide DeploymentEngine.Excused, DeploymentEngine.Inv, MoreMishaps, MishapsOf;
    hide Honest, Held, SafeIn, Proper, Recorded, Runs, OneExactlyIfNamed, Doubles, NoneRevived, RecordSince,
      PointersOf, RecordOf, Tracked, Covered, LaunchedFrom, Doubles, Survives;
    hide DeploymentEngine.InStep, DeploymentEngine.Usable, DeploymentEngine.IsNew;
    var supervisor := new PosixProcessSupervisor(kernel, clock);
    engine := new DeploymentEngine(supervisor, installer, network, service, health, lost);
    NobodyTracked(kernel.world, supervisor.View());
    first := engine.StartActive();
  }

  method Step(before: DeploymentEngine, command: Command, ghost turns: seq<Turn>, ghost first: Result<Unit, Failure>,
      ghost faults: Faults, ghost lost: set<string>, ghost activated: set<CText>,
      ghost misled: nat)
    returns (engine: DeploymentEngine, ghost turn: Turn)
    requires before.Inv() && Chronicle(turns, before, first, faults, lost, activated, misled)
    modifies before, before.supervisor, before.network, before.installer, before.kernel, before.clock, before.disk
    ensures engine.Inv() && (engine == before || (fresh(engine) && fresh(engine.supervisor)))
    ensures engine.kernel == before.kernel && engine.clock == before.clock
    ensures engine.disk == before.disk && engine.installer == before.installer && engine.network == before.network
    ensures old(before.disk.history) <= before.disk.history
    ensures turn.command == command && turn.handle == old(before.handle) && turn.record == old(before.disk.view.runtime)
    ensures !command.NewAgent? && old(before.Single()) ==> engine.Single()
    ensures Chronicle(turns + [turn], engine, first, faults, lost, activated, misled)
  {
    hide *;
    ghost var taken, now := InCharge(turns, first), FaultsOf(before.disk, before.kernel);
    FaultsRead(before.disk, before.kernel);
    BeforeTurn(turns, before, first, faults, lost, activated, misled);
    engine, turn := TakeTurn(before, command, taken);
    FaultsRead(engine.disk, engine.kernel);
    StateOnlyGrows(faults, now, FaultsOf(engine.disk, engine.kernel));
    CarefulLast(turns, turn, before.kernel.bootIdentity);
    SuccessLast(turns, turn, before.kernel.bootIdentity);
    CleanLast(turns, turn, first, faults, now, FaultsOf(engine.disk, engine.kernel));
    OneMoreTurn(lost, turns, turn);
    AfterTurn(turns, turn, engine, first, faults, lost, activated, misled);
  }

  /** One turn, whatever came before it. */
  method TakeTurn(before: DeploymentEngine, command: Command, ghost wasTaken: bool)
    returns (engine: DeploymentEngine, ghost turn: Turn)
    requires before.Inv()
    modifies before, before.supervisor, before.network, before.installer, before.kernel, before.clock, before.disk
    ensures engine.Inv() && (engine == before || (fresh(engine) && fresh(engine.supervisor)))
    ensures engine.kernel == before.kernel && engine.clock == before.clock
    ensures engine.disk == before.disk && engine.installer == before.installer && engine.network == before.network
    ensures old(before.disk.history) <= before.disk.history
    ensures turn == Turn(command, turn.result, wasTaken, old(before.handle), old(before.disk.view.runtime), turn.clean)
    ensures turn.clean <==>
      (command.NewAgent? ==> FaultsOf(engine.disk, engine.kernel) == old(FaultsOf(before.disk, before.kernel)))
    ensures FaultsGrow(old(FaultsOf(before.disk, before.kernel)), FaultsOf(engine.disk, engine.kernel))
    ensures !command.NewAgent? && old(before.Single()) ==> engine.Single()
    ensures Careful(turn, before.kernel.bootIdentity) && old(Managed(before, wasTaken)) ==>
      Managed(engine, TakenAfter(turn))
    ensures Told(command, turn.result, engine.handle) ==>
      RecordFits(engine.disk.view.runtime, engine.handle, engine.kernel.bootIdentity)
    ensures engine.installer.activated == old(before.installer.activated) + ActivatedBy(command, turn.result)
    ensures engine.lost == LostBy(old(before.lost), command, turn.result)
    ensures turn.result.Err? && engine.Mishaps() == old(before.Mishaps()) ==>
      engine.Excused(turn.result.error, About(command, old(before.disk.view)), Source(command), engine.disk.view.dirs,
        PointersOf(old(before.disk.view)), old(before.kernel.world))
    ensures engine.disk.stateFaults == old(before.disk.stateFaults) ==>
      engine.installer.misled == old(before.installer.misled)
  {
    hide Coherent, Honest, Held, SafeIn, Proper, Tracked, Covered, RecordFits, OneExactlyIfNamed, Doubles,
      ActivatedIds, LostAfter, PointersOf;
    ghost var handle, record := before.handle, before.disk.view.runtime;
    var result;
    ghost var clean := true;
    if command.NewAgent? {
      HandoverIfFit(before, wasTaken);
      engine, result, clean := Replace(before);
    } else {
      engine := before;
      result := Perform(engine, command);
    }
    turn := Turn(command, result, wasTaken, handle, record, clean);
  }

  lemma BeforeTurn(turns: seq<Turn>, engine: DeploymentEngine, first: Result<Unit, Failure>, faults: Faults,
      lost: set<string>, activated: set<CText>, misled: nat)
    requires Chronicle(turns, engine, first, faults, lost, activated, misled)
    ensures AllCareful(turns, engine.kernel.bootIdentity) ==> Managed(engine, InCharge(turns, first))
    ensures forall turn: Turn |
      turn.handle == engine.handle && turn.record == engine.disk.view.runtime ::
        FitsAfter(turns, turn, engine.kernel.bootIdentity)
    ensures SuccessIsCareful(turns, engine.kernel.bootIdentity) && TakenInTurn(turns, first)
    ensures FaultsGrow(faults, FaultsOf(engine.disk, engine.kernel))
    ensures FaultsOf(engine.disk, engine.kernel) == faults ==> AllClean(turns)
    ensures engine.installer.activated == activated + ActivatedDuring(turns) && engine.lost == LostDuring(lost, turns)
    ensures engine.disk.stateFaults == faults.state ==> engine.installer.misled == misled
  {
  }

  lemma AfterTurn(turns: seq<Turn>, turn: Turn, engine: DeploymentEngine, first: Result<Unit, Failure>, faults: Faults,
      lost: set<string>, activated: set<CText>, misled: nat)
    requires var all, boot := turns + [turn], engine.kernel.bootIdentity;
      && (AllCareful(all, boot) ==> Managed(engine, TakenAfter(turn)))
      && SuccessIsCareful(all, boot) && TakenInTurn(all, first)
      && FaultsGrow(faults, FaultsOf(engine.disk, engine.kernel))
      && (FaultsOf(engine.disk, engine.kernel) == faults ==> AllClean(all))
      && engine.installer.activated == activated + ActivatedDuring(all)
      && engine.lost == LostDuring(lost, all)
      && (engine.disk.stateFaults == faults.state ==> engine.installer.misled == misled)
      && (Told(turn.command, turn.result, engine.handle) ==> RecordFits(engine.disk.view.runtime, engine.handle, boot))
    ensures Chronicle(turns + [turn], engine, first, faults, lost, activated, misled)
  {
  }

  /** If the last turn was a success, the record of the next one fits. */
  ghost predicate FitsAfter(turns: seq<Turn>, turn: Turn, boot: CText) {
    turns != [] && Told(turns[|turns|-1].command, turns[|turns|-1].result, turn.handle) ==>
      RecordFits(turn.record, turn.handle, boot)
  }

  lemma CarefulLast(turns: seq<Turn>, turn: Turn, boot: CText)
    ensures AllCareful(turns + [turn], boot) ==> AllCareful(turns, boot) && Careful(turn, boot)
  {
    if AllCareful(turns + [turn], boot) {
      assert (turns + [turn])[|turns|] == turn;
      assert forall n | 0 <= n < |turns| :: (turns + [turn])[n] == turns[n];
    }
  }

  lemma CleanLast(turns: seq<Turn>, turn: Turn, first: Result<Unit, Failure>, f0: Faults, f1: Faults, f2: Faults)
    requires TakenInTurn(turns, first) && turn.taken == InCharge(turns, first)
    requires FaultsGrow(f0, f1) && FaultsGrow(f1, f2)
    requires f1 == f0 ==> AllClean(turns)
    requires f2 == f1 ==> turn.clean
    ensures TakenInTurn(turns + [turn], first) && FaultsGrow(f0, f2)
    ensures f2 == f0 ==> AllClean(turns + [turn])
  {
    var all := turns + [turn];
    forall n | 0 <= n < |all| ensures all[n].taken == InCharge(all[..n], first) {
      assert all[..n] == turns[..n];
      assert n == |turns| ==> turns[..n] == turns;
    }
  }

  lemma SuccessLast(turns: seq<Turn>, turn: Turn, boot: CText)
    requires SuccessIsCareful(turns, boot)
    requires FitsAfter(turns, turn, boot)
    ensures SuccessIsCareful(turns + [turn], boot)
  {
    var all := turns + [turn];
    forall n | 0 < n < |all| && AfterSuccess(all[n-1], all[n]) ensures Careful(all[n], boot) {
      if n < |turns| { assert all[n-1] == turns[n-1] && all[n] == turns[n]; }
    }
  }

  ghost predicate MayDie(engine: DeploymentEngine, taken: bool)
    reads engine, engine.disk
  {
    || RecordFits(engine.disk.view.runtime, engine.handle, engine.kernel.bootIdentity)
    || (!taken && engine.handle.None?)
  }

  /** When the agent dies now, the record will name the service there may be. */
  lemma HandoverIfFit(engine: DeploymentEngine, taken: bool)
    requires engine.Inv()
    ensures Managed(engine, taken) && MayDie(engine, taken) ==> engine.ByRecord()
  {
    var doc, boot := engine.disk.view.runtime, engine.kernel.bootIdentity;
    if engine.Single() && RecordFits(doc, engine.handle, boot) {
      FitsIsCovered(engine.kernel.world, engine.supervisor.View(), engine.handle, doc, boot);
    }
    if engine.Single() && engine.handle.None? {
      assert RecordFits(doc, engine.handle, boot);
    }
  }

  lemma OneMoreTurn(lost: set<string>, turns: seq<Turn>, turn: Turn)
    ensures ActivatedDuring(turns + [turn]) == ActivatedDuring(turns) + ActivatedBy(turn.command, turn.result)
    ensures LostDuring(lost, turns + [turn]) == LostBy(LostDuring(lost, turns), turn.command, turn.result)
  {
    assert (turns + [turn])[..|turns|] == turns;
  }

  lemma AtTheEnd(turns: seq<Turn>, engine: DeploymentEngine, first: Result<Unit, Failure>, faults: Faults,
      lost: set<string>, activated: set<CText>, misled: nat)
    requires engine.Inv() && Chronicle(turns, engine, first, faults, lost, activated, misled)
    ensures engine.Single() || AllCareful(turns, engine.kernel.bootIdentity) ==> engine.kernel.world.peak <= 1
    ensures FaultsOf(engine.disk, engine.kernel) == faults ==> forall n | 0 <= n < |turns| :: turns[n].clean
    ensures forall n | 0 < n < |turns| && AfterSuccess(turns[n-1], turns[n]) ::
      Careful(turns[n], engine.kernel.bootIdentity)
    ensures TakenInTurn(turns, first) && engine.disk.Valid()
    ensures engine.installer.activated == activated + ActivatedDuring(turns)
    ensures engine.disk.stateFaults == faults.state ==> engine.installer.misled == misled
    ensures engine.installer.misled == 0 ==>
      SafeIn(engine.disk.view, activated + ActivatedDuring(turns), LostDuring(lost, turns))
  {
  }

  lemma NoTurns(engine: DeploymentEngine, first: Result<Unit, Failure>, faults: Faults, lost: set<string>)
    requires Managed(engine, TookOver(first)) && engine.lost == lost
    requires FaultsGrow(faults, FaultsOf(engine.disk, engine.kernel))
    ensures Chronicle([], engine, first, faults, lost, engine.installer.activated, engine.installer.misled)
  {
  }
}
