/** One life of a device between two boots: agents that start, take over the service, carry out messages and
    die, one after the other, with failures everywhere. */
module DeviceLife {
  import opened Prelude
  import opened Json
  import opened ReleaseTree
  import opened ProcessTable
  import opened ProcessSupervisor
  import opened Storage
  import opened ReleaseInstaller
  import opened DeploymentEngine
  import opened EngineRuns
  import opened VerifiedFiles
  import opened AgentService
  import opened ArtifactStore
  import opened HealthChecker

  /** What an agent works with. */
  datatype Setup = Setup(options: Options, service: ServiceSpec, health: HealthSpec, digest: Content -> string,
    parse: Content -> Option<Json>, serialize: Json -> Content)

  type Messages = seq<(string, Option<AgentMessage>)>

  /** One agent: the messages it got, and how long the disk's history was after each; how it took over, whether
      no look failed meanwhile, and its handle then; its handle and the record when it died. */
  datatype Agent = Agent(messages: Messages, moments: seq<nat>, takeover: Result<Unit, Failure>, clean: bool,
    held: Handle, handle: Handle, record: Doc)

  /** The agent took over without a failed look, from one that died while the record named the process it ran;
      and if it could not take over it got no message. */
  ghost predicate CarefulAgent(agents: seq<Agent>, n: nat, boot: CText)
    requires n < |agents|
  {
    && (n > 0 ==> agents[n].clean && LeftBehind(agents[n-1], boot))
    && (TookOver(agents[n].takeover) || agents[n].held.Some? || agents[n].messages == [])
  }

  ghost predicate LeftBehind(agent: Agent, boot: CText) {
    RecordFits(agent.record, agent.handle, boot) || (!TookOver(agent.takeover) && agent.handle.None?)
  }

  ghost predicate AllCarefulAgents(agents: seq<Agent>, boot: CText) {
    forall n | 0 <= n < |agents| :: CarefulAgent(agents, n, boot)
  }

  /** All messages of all agents, in order. */
  function Everything(runs: seq<Messages>): (r: Messages) {
    if runs == [] then [] else Everything(runs[..|runs|-1]) + runs[|runs|-1]
  }

  /** When all these messages had been dealt with. */
  function AllMoments(agents: seq<Agent>): (r: seq<nat>) {
    if agents == [] then [] else AllMoments(agents[..|agents|-1]) + agents[|agents|-1].moments
  }

  /** What was checked so far: every listing and every rewritten file that is new came from a message. */
  datatype Ghosts = Ghosts(listings: set<Listing>, rewritten: set<FileId>, badDiscards: nat, badApplies: nat)

  /** What the files and processes of the device were checked against. */
  ghost predicate Checks(s: Snapshot, releases: Snapshot, w: World, digest: Content -> string, g: Ghosts) {
    && (g.badDiscards == 0 ==> VersionsChecked(s, digest, g.listings))
    && (g.badApplies == 0 ==>
          && ReleasesChecked(releases, digest, g.listings, g.rewritten)
          && LaunchesChecked(w, digest, g.listings, g.rewritten))
  }

  /** The state of the device after the agents that have died or will die next. */
  ghost predicate Story(setup: Setup, versions: Disk, engine: DeploymentEngine, runs: seq<Messages>, agents: seq<Agent>,
      first: Result<Unit, Failure>, g0: Ghosts, g: Ghosts, n0: nat, activated: set<CText>, lost: set<string>)
    reads versions, engine, engine.kernel, engine.supervisor, engine.disk, engine.installer
  {
    && Checks(versions.view, engine.disk.view, engine.kernel.world, setup.digest, g)
    && g0.listings <= g.listings && g0.rewritten <= g.rewritten
    && |AllMoments(agents)| == |Everything(runs)| && Ordered(AllMoments(agents), n0, |engine.disk.history|)
    && FromRun(setup.options, Everything(runs), AllMoments(agents), engine.disk.history, g.listings - g0.listings,
         g.rewritten - g0.rewritten)
    && activated <= engine.installer.activated
    && (forall x | x in engine.installer.activated - activated ::
          NamedByRun(setup.options, Everything(runs), ACTIVATING, x))
    && (forall x | x in engine.lost - lost :: NamedByRun(setup.options, Everything(runs), APPLYING, x))
    && |agents| == |runs| && (forall i | 0 <= i < |agents| :: agents[i].messages == runs[i])
    && (agents != [] ==>
          && agents[|agents|-1].handle == engine.handle && agents[|agents|-1].record == engine.disk.view.runtime)
    && (AllCarefulAgents(agents, engine.kernel.bootIdentity) ==> Managed(engine, TookOver(LastTakeover(agents, first))))
    && (|agents| <= 1 ==> engine.Single())
  }

  /** How the last agent took over; `first` is how the first one did. */
  function LastTakeover(agents: seq<Agent>, first: Result<Unit, Failure>): Result<Unit, Failure> {
    if agents == [] then first else agents[|agents|-1].takeover
  }

  /** An agent carries out its messages. */
  method Work(setup: Setup, versions: Disk, store: Store, engine: DeploymentEngine, messages: Messages, ghost g: Ghosts)
    returns (ghost g': Ghosts, ghost moments: seq<nat>)
    requires versions != engine.disk && versions.Valid() && engine.Inv()
    requires Checks(versions.view, engine.disk.view, engine.kernel.world, setup.digest, g)
    modifies store, versions, engine, engine.supervisor, engine.network, engine.installer, engine.kernel, engine.clock
    modifies engine.disk
    ensures versions.Valid() && engine.Inv() && old(engine.disk.history) <= engine.disk.history
    ensures FaultsGrow(old(FaultsOf(engine.disk, engine.kernel)), FaultsOf(engine.disk, engine.kernel))
    ensures Checks(versions.view, engine.disk.view, engine.kernel.world, setup.digest, g')
    ensures g.listings <= g'.listings && g.rewritten <= g'.rewritten
    ensures |moments| == |messages| && Ordered(moments, old(|engine.disk.history|), |engine.disk.history|)
    ensures FromRun(setup.options, messages, moments, engine.disk.history, g'.listings - g.listings,
      g'.rewritten - g.rewritten)
    ensures old(engine.installer.activated) <= engine.installer.activated
    ensures forall x | x in engine.installer.activated - old(engine.installer.activated) ::
      NamedByRun(setup.options, messages, ACTIVATING, x)
    ensures forall x | x in engine.lost - old(engine.lost) :: NamedByRun(setup.options, messages, APPLYING, x)
    ensures engine.disk.stateFaults == old(engine.disk.stateFaults) ==>
      engine.installer.misled == old(engine.installer.misled)
    ensures old(engine.Single()) ==> engine.Single()
    ensures messages == [] ==>
      && engine.handle == old(engine.handle) && engine.kernel.world == old(engine.kernel.world)
      && engine.supervisor.View() == old(engine.supervisor.View()) && engine.disk.view == old(engine.disk.view)
    ensures g'.badDiscards >= g.badDiscards && engine.disk.stagingFaults >= old(engine.disk.stagingFaults)
    ensures versions.failedRemovals >= old(versions.failedRemovals)
    ensures g'.badDiscards == g.badDiscards || versions.failedRemovals > old(versions.failedRemovals)
    ensures g'.badDiscards == 0 && engine.disk.stagingFaults == old(engine.disk.stagingFaults) ==>
      g'.badApplies == g.badApplies
  {
    hide ReleasesChecked, LaunchesChecked, VersionsChecked, FromRun, NamedByRun, Vetted;
    hide DeploymentEngine.Inv, DeploymentEngine.Single;
    var agent := new AgentService(setup.options, versions, store, engine, setup.digest, setup.parse, setup.serialize,
      g.listings, g.rewritten, g.badDiscards, g.badApplies);
    var answers := agent.HandleAll(messages);
    moments := agent.moments;
    g' := Ghosts(agent.listings, agent.rewritten, agent.badDiscards, agent.badApplies);
  }

  /** An agent takes over from one that died. */
  method Handover(ghost versions: Snapshot, before: DeploymentEngine, ghost digest: Content -> string, ghost g: Ghosts,
      ghost taken: bool)
    returns (engine: DeploymentEngine, takeover: Result<Unit, Failure>, ghost clean: bool)
    requires before.Inv() && Checks(versions, before.disk.view, before.kernel.world, digest, g)
    modifies before.kernel, before.clock, before.disk
    ensures fresh(engine) && fresh(engine.supervisor) && engine.Inv() && engine.lost == before.lost
    ensures engine.kernel == before.kernel && engine.clock == before.clock && engine.disk == before.disk
    ensures engine.installer == before.installer && engine.network == before.network
    ensures old(before.disk.history) <= before.disk.history
    ensures engine.disk.stagingFaults == old(before.disk.stagingFaults)
    ensures Checks(versions, engine.disk.view, engine.kernel.world, digest, g)
    ensures clean <==> FaultsOf(engine.disk, engine.kernel) == old(FaultsOf(before.disk, before.kernel))
    ensures FaultsGrow(old(FaultsOf(before.disk, before.kernel)), FaultsOf(engine.disk, engine.kernel))
    ensures old(Managed(before, taken)) && old(MayDie(before, taken)) && clean ==> Managed(engine, TookOver(takeover))
    ensures takeover.Err? && engine.Mishaps() == old(before.Mishaps()) ==>
      engine.Excused(takeover.error, ActiveOf(old(before.disk.view)), None, engine.disk.view.dirs,
        PointersOf(old(before.disk.view)), old(before.kernel.world))
  {
    hide Checks, DeploymentEngine.Inv, Tracked, Covered, RecordFits, LaunchedFrom, OneExactlyIfNamed, Doubles,
      OnlyRecord;
    hide MishapsOf, Managed, MayDie, FaultsOf, FaultsGrow, DeploymentEngine.Single, DeploymentEngine.Excused,
      DeploymentEngine.ByRecord;
    ghost var s, w := before.disk.view, before.kernel.world;
    HandoverIfFit(before, taken);
    engine, takeover, clean := Replace(before);
    ChecksAfterLaunch(versions, s, engine.disk.view, w, engine.kernel.world, digest, g);
  }

  /** The next agent: the first one is there already, and every other one begins with the files alone. */
  method NextAgent(setup: Setup, versions: Disk, store: Store, before: DeploymentEngine, messages: Messages,
      later: bool, ghost runs: seq<Messages>, ghost agents: seq<Agent>, first: Result<Unit, Failure>, ghost g0: Ghosts,
      ghost g: Ghosts, ghost n0: nat, ghost activated: set<CText>, ghost lost: set<string>)
    returns (engine: DeploymentEngine, ghost agents': seq<Agent>, ghost g': Ghosts)
    requires versions != before.disk && versions.Valid() && before.Inv() && n0 <= |before.disk.history|
    requires Story(setup, versions, before, runs, agents, first, g0, g, n0, activated, lost)
    requires later <==> agents != []
    modifies store, versions, before, before.supervisor, before.network, before.installer, before.kernel, before.clock
    modifies before.disk
    ensures engine.Inv() && (engine == before || (fresh(engine) && fresh(engine.supervisor)))
    ensures engine.kernel == before.kernel && engine.clock == before.clock && engine.disk == before.disk
    ensures engine.installer == before.installer && engine.network == before.network
    ensures versions.Valid() && old(before.disk.history) <= before.disk.history
    ensures |agents'| == |agents| + 1 && agents' == agents + [agents'[|agents|]]
    ensures FaultsGrow(old(FaultsOf(before.disk, before.kernel)), FaultsOf(engine.disk, engine.kernel))
    ensures FaultsOf(engine.disk, engine.kernel) == old(FaultsOf(before.disk, before.kernel)) ==>
      agents'[|agents|].clean
    ensures Story(setup, versions, engine, runs + [messages], agents', first, g0, g', n0, activated, lost)
    ensures engine.disk.stateFaults == old(before.disk.stateFaults) ==>
      engine.installer.misled == old(before.installer.misled)
    ensures g'.badDiscards >= g.badDiscards && before.disk.stagingFaults >= old(before.disk.stagingFaults)
    ensures versions.failedRemovals >= old(versions.failedRemovals)
    ensures g'.badDiscards == g.badDiscards || versions.failedRemovals > old(versions.failedRemovals)
    ensures g'.badDiscards == 0 && before.disk.stagingFaults == old(before.disk.stagingFaults) ==>
      g'.badApplies == g.badApplies
  {
    hide Ordered, AllMoments, DeploymentEngine.Single, DeploymentEngine.Inv, Checks, FromRun, NamedByRun, Tracked,
      Covered, RecordFits, AllCarefulAgents, Everything;
    var takeover := first;
    ghost var clean := true;
    engine := before;
    if later {
      engine, takeover, clean :=
        Handover(versions.view, before, setup.digest, g, TookOver(LastTakeover(agents, first)));
    }
    ghost var held, h := engine.handle, engine.disk.history;
    FromRunLater(setup.options, Everything(runs), AllMoments(agents), old(before.disk.history), h,
      g.listings - g0.listings, g.rewritten - g0.rewritten);
    ghost var ids, gone := engine.installer.activated, engine.lost;
    ghost var moments;
    g', moments := Work(setup, versions, store, engine, messages, g);
    ghost var agent := Agent(messages, moments, takeover, clean, held, engine.handle, engine.disk.view.runtime);
    agents' := agents + [agent];
    CarefulAgentsLast(agents, agent, engine.kernel.bootIdentity);
    EverythingNext(runs, messages);
    MomentsNext(agents, agent, n0, |old(before.disk.history)|, |h|, |engine.disk.history|);
    FromRunJoin(setup.options, Everything(runs), AllMoments(agents), messages, moments, h, engine.disk.history, g0, g,
      g');
    NamedJoin(setup.options, Everything(runs), messages, ACTIVATING, activated, ids, engine.installer.activated);
    NamedJoin(setup.options, Everything(runs), messages, APPLYING, lost, gone, engine.lost);
  }

  lemma ChecksAfterLaunch(versions: Snapshot, s: Snapshot, s': Snapshot, w: World, w': World, digest: Content -> string,
      g: Ghosts)
    requires Checks(versions, s, w, digest, g) && OnlyRecord(s, s') && LaunchedFrom(w, w', s'.dirs)
    ensures Checks(versions, s', w', digest, g)
  {
    LaunchKeepsChecked(s, s', w, w', digest, g.listings, g.rewritten);
  }

  lemma CarefulAgentsLast(agents: seq<Agent>, agent: Agent, boot: CText)
    ensures AllCarefulAgents(agents + [agent], boot) ==>
      AllCarefulAgents(agents, boot) && CarefulAgent(agents + [agent], |agents|, boot)
  {
    if AllCarefulAgents(agents + [agent], boot) {
      forall n | 0 <= n < |agents| ensures CarefulAgent(agents, n, boot) {
        assert CarefulAgent(agents + [agent], n, boot);
      }
    }
  }

  lemma EverythingNext(runs: seq<Messages>, messages: Messages)
    ensures Everything(runs + [messages]) == Everything(runs) + messages
  {
    assert (runs + [messages])[..|runs|] == runs;
  }

  lemma MomentsNext(agents: seq<Agent>, agent: Agent, n0: nat, m: nat, n: nat, n': nat)
    requires m <= n
    ensures AllMoments(agents + [agent]) == AllMoments(agents) + agent.moments
    ensures Ordered(AllMoments(agents), n0, m) && Ordered(agent.moments, n, n') ==>
      Ordered(AllMoments(agents + [agent]), n0, n')
  {
    assert (agents + [agent])[..|agents|] == agents;
  }

  lemma FromRunLater(options: Options, messages: Messages, moments: seq<nat>, h: seq<Snapshot>, h': seq<Snapshot>,
      listings: set<Listing>, files: set<FileId>)
    requires FromRun(options, messages, moments, h, listings, files) && h <= h'
    ensures FromRun(options, messages, moments, h', listings, files)
  {
    hide MessageRewrites, ListedByRun;
    forall f | f in files ensures RewrittenByRun(options, messages, moments, h', f) {
      var k :| 0 <= k < |messages| && k < |moments| && 0 < moments[k] <= |h| &&
        MessageRewrites(options, messages[k].1, h[moments[k] - 1], f);
      assert h'[moments[k] - 1] == h[moments[k] - 1];
    }
  }

  /** What came from the earlier messages or from the later ones came from all of them. */
  lemma FromRunJoin(options: Options, a: Messages, atA: seq<nat>, b: Messages, atB: seq<nat>, h: seq<Snapshot>,
      h': seq<Snapshot>, g0: Ghosts, g: Ghosts, g': Ghosts)
    requires h <= h' && |atA| == |a| && |atB| == |b|
    requires FromRun(options, a, atA, h, g.listings - g0.listings, g.rewritten - g0.rewritten)
    requires FromRun(options, b, atB, h', g'.listings - g.listings, g'.rewritten - g.rewritten)
    ensures FromRun(options, a + b, atA + atB, h', g'.listings - g0.listings, g'.rewritten - g0.rewritten)
  {
    hide MessageLists, MessageRewrites;
    forall l | l in g'.listings - g0.listings ensures ListedByRun(options, a + b, l) {
      if l in g.listings {
        assert l in g.listings - g0.listings;
        var k :| 0 <= k < |a| && MessageLists(options, a[k].1, l);
        assert (a + b)[k] == a[k];
      } else {
        assert l in g'.listings - g.listings;
        var k :| 0 <= k < |b| && MessageLists(options, b[k].1, l);
        assert (a + b)[|a| + k] == b[k];
      }
    }
    forall f | f in g'.rewritten - g0.rewritten ensures RewrittenByRun(options, a + b, atA + atB, h', f) {
      if f in g.rewritten {
        assert f in g.rewritten - g0.rewritten;
        var k :| 0 <= k < |a| && 0 < atA[k] <= |h| && MessageRewrites(options, a[k].1, h[atA[k] - 1], f);
        assert (a + b)[k] == a[k] && (atA + atB)[k] == atA[k] && h'[atA[k] - 1] == h[atA[k] - 1];
      } else {
        assert f in g'.rewritten - g.rewritten;
        var k :| 0 <= k < |b| && 0 < atB[k] <= |h'| && MessageRewrites(options, b[k].1, h'[atB[k] - 1], f);
        assert (a + b)[|a| + k] == b[k] && (atA + atB)[|a| + k] == atB[k];
      }
    }
  }

  lemma NamedJoin(options: Options, a: Messages, b: Messages, commands: set<string>, ids0: set<string>,
      ids: set<string>, ids': set<string>)
    requires forall x | x in ids - ids0 :: NamedByRun(options, a, commands, x)
    requires forall x | x in ids' - ids :: NamedByRun(options, b, commands, x)
    ensures forall x | x in ids' - ids0 :: NamedByRun(options, a + b, commands, x)
  {
    hide MessageNames;
    forall x | x in ids' - ids0 ensures NamedByRun(options, a + b, commands, x) {
      if x in ids {
        assert x in ids - ids0;
        var k :| 0 <= k < |a| && MessageNames(options, a[k].1, commands, x);
        assert (a + b)[k] == a[k];
      } else {
        assert x in ids' - ids;
        var k :| 0 <= k < |b| && MessageNames(options, b[k].1, commands, x);
        assert (a + b)[|a| + k] == b[k];
      }
    }
  }

  /** A device from its boot on, with agents that carry out messages and die. Every file of every process that
      was ever launched was listed or written by the messages, or checked before; there is never a second
      service process as long as one agent lives, or if every agent was careful; and the pointers account for
      the releases that messages activated. */
  method Live(setup: Setup, kernel: Kernel, clock: Clock, disk: Disk, versions: Disk, store: Store,
      installer: ReleaseInstaller, network: Network, runs: seq<Messages>, ghost g0: Ghosts, ghost lost0: set<string>)
    returns (ghost agents: seq<Agent>, ghost g: Ghosts, ghost lost: set<string>)
    requires installer.disk == disk && disk.Valid() && versions.Valid() && versions != disk && installer.Safe(lost0)
    requires kernel.world == NOBODY
    requires Honest(kernel.world, disk.view.runtime, kernel.bootIdentity)
    requires Checks(versions.view, disk.view, kernel.world, setup.digest, g0)
    modifies kernel, clock, disk, versions, store, installer, network
    ensures |agents| == |runs| && forall i | 0 <= i < |agents| :: agents[i].messages == runs[i]
    // files
    ensures g.badApplies == 0 ==>
      AllVetted(kernel.world, setup, g0, Everything(runs), AllMoments(agents), disk.history)
    ensures |AllMoments(agents)| == |Everything(runs)|
    ensures Ordered(AllMoments(agents), old(|disk.history|), |disk.history|)
    ensures g.badDiscards >= g0.badDiscards
    ensures g.badDiscards == g0.badDiscards || versions.failedRemovals > old(versions.failedRemovals)
    ensures g.badDiscards == 0 && disk.stagingFaults == old(disk.stagingFaults) ==> g.badApplies == g0.badApplies
    // processes
    ensures FaultsOf(disk, kernel) == old(FaultsOf(disk, kernel)) ==> forall n | 0 <= n < |agents| :: agents[n].clean
    ensures |runs| <= 1 || AllCarefulAgents(agents, kernel.bootIdentity) ==> kernel.world.peak <= 1
    // pointers
    ensures old(installer.activated) <= installer.activated && installer.Safe(lost)
    ensures disk.stateFaults == old(disk.stateFaults) ==> installer.misled == old(installer.misled)
    ensures forall x | x in lost - lost0 :: NamedByRun(setup.options, Everything(runs), APPLYING, x)
    ensures forall x | x in installer.activated - old(installer.activated) ::
      NamedByRun(setup.options, Everything(runs), ACTIVATING, x)
  {
    hide Checks, FromRun, NamedByRun, DeploymentEngine.Inv, DeploymentEngine.Single, AllCarefulAgents, Everything,
      LaunchedFrom, OnlyRecord, Honest, Managed, Story, SafeIn, Proper, AllVetted;
    ghost var n0, activated, s, w := |disk.history|, installer.activated, disk.view, kernel.world;
    ghost var faults, misled := FaultsOf(disk, kernel), installer.misled;
    var engine, first := FirstAgent(kernel, clock, disk, installer, network, setup.service, setup.health, lost0);
    ChecksAfterLaunch(versions.view, s, disk.view, w, kernel.world, setup.digest, g0);
    agents, g := [], g0;
    NoStory(setup, versions, engine, first, g0, n0);
    assert runs[..0] == [];
    for n := 0 to |runs|
      invariant engine.Inv() && fresh(engine) && fresh(engine.supervisor)
      invariant engine.kernel == kernel && engine.clock == clock && engine.disk == disk && engine.installer == installer
      invariant engine.network == network && versions.Valid() && old(disk.history) <= disk.history
      invariant |agents| == n && FaultsGrow(faults, FaultsOf(disk, kernel))
      invariant disk.stateFaults == faults.state ==> installer.misled == misled
      invariant FaultsOf(disk, kernel) == faults ==> forall i | 0 <= i < n :: agents[i].clean
      invariant Story(setup, versions, engine, runs[..n], agents, first, g0, g, n0, activated, lost0)
      invariant g.badDiscards >= g0.badDiscards && disk.stagingFaults >= old(disk.stagingFaults)
      invariant versions.failedRemovals >= old(versions.failedRemovals)
      invariant g.badDiscards == g0.badDiscards || versions.failedRemovals > old(versions.failedRemovals)
      invariant g.badDiscards == 0 && disk.stagingFaults == old(disk.stagingFaults) ==> g.badApplies == g0.badApplies
    {
      assert runs[..n+1] == runs[..n] + [runs[n]];
      engine, agents, g := NextAgent(setup, versions, store, engine, runs[n], n > 0, runs[..n], agents, first, g0, g,
        n0, activated, lost0);
    }
    assert runs[..|runs|] == runs;
    lost := engine.lost;
    StoryEnds(setup, versions, engine, runs, agents, first, g0, g, n0, activated, lost0);
  }

  /** Every process that was launched runs vetted files only. */
  ghost predicate AllVetted(w: World, setup: Setup, g0: Ghosts, messages: Messages, moments: seq<nat>,
      history: seq<Snapshot>) {
    forall i | i in w.launched ::
      Vetted(w.launched[i].release, w.launched[i].tree, setup.digest, g0.listings, g0.rewritten, setup.options,
        messages, moments, history)
  }

  lemma NoStory(setup: Setup, versions: Disk, engine: DeploymentEngine, first: Result<Unit, Failure>, g0: Ghosts,
      n0: nat)
    requires Checks(versions.view, engine.disk.view, engine.kernel.world, setup.digest, g0)
    requires n0 <= |engine.disk.history|
    requires engine.Single() && Managed(engine, TookOver(first))
    ensures Story(setup, versions, engine, [], [], first, g0, g0, n0, engine.installer.activated, engine.lost)
  {
    hide Checks;
    assert g0.listings - g0.listings == {} && g0.rewritten - g0.rewritten == {};
  }

  lemma StoryEnds(setup: Setup, versions: Disk, engine: DeploymentEngine, runs: seq<Messages>, agents: seq<Agent>,
      first: Result<Unit, Failure>, g0: Ghosts, g: Ghosts, n0: nat, activated: set<CText>,
      lost: set<string>)
    requires engine.Inv() && Story(setup, versions, engine, runs, agents, first, g0, g, n0, activated, lost)
    ensures |agents| == |runs| && forall i | 0 <= i < |agents| :: agents[i].messages == runs[i]
    ensures g.badApplies == 0 ==>
      AllVetted(engine.kernel.world, setup, g0, Everything(runs), AllMoments(agents), engine.disk.history)
    ensures |runs| <= 1 || AllCarefulAgents(agents, engine.kernel.bootIdentity) ==> engine.kernel.world.peak <= 1
    ensures activated <= engine.installer.activated && engine.installer.Safe(engine.lost)
    ensures engine.installer.disk == engine.disk
    ensures |AllMoments(agents)| == |Everything(runs)|
    ensures Ordered(AllMoments(agents), n0, |engine.disk.history|)
    ensures forall x | x in engine.lost - lost :: NamedByRun(setup.options, Everything(runs), APPLYING, x)
    ensures forall x | x in engine.installer.activated - activated ::
      NamedByRun(setup.options, Everything(runs), ACTIVATING, x)
  {
    hide FromRun, NamedByRun, Everything, AllCarefulAgents, Vetted, Checked, SafeIn, Proper;
    var w := engine.kernel.world;
    if g.badApplies == 0 {
      forall i | i in w.launched
        ensures Vetted(w.launched[i].release, w.launched[i].tree, setup.digest, g0.listings, g0.rewritten,
          setup.options, Everything(runs), AllMoments(agents), engine.disk.history)
      {
        CheckedIsVetted(w.launched[i].release, w.launched[i].tree, setup.digest, g0.listings, g0.rewritten,
          setup.options, Everything(runs), AllMoments(agents), engine.disk.history, g.listings, g.rewritten);
      }
    }
  }
}
