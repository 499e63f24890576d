/** The operating system as the agent meets it: a process table in which a pid stays taken until
    its process has been reaped, and in which anything the agent does not own may come and go
    between two system calls. */
module ProcessTable {
  import opened Prelude
  import opened ReleaseTree

  datatype WaitStatus = ExitCode(code: int) | KilledBy(signal: int)

  datatype Life = Running | Zombie(status: WaitStatus)

  /** `instance` numbers every process of this boot; the agent never sees it. */
  datatype Process = Process(instance: nat, token: Uint64, child: bool, life: Life)

  datatype Birth = Birth(pid: int, token: Uint64)

  /** What a service process was started from: a file of a release. */
  datatype Launch = Launch(release: CText, tree: Tree, executable: string)

  datatype SignalKind = Sigterm | Sigkill

  /** A delivered signal, the process that held the pid at that moment, and the moment. */
  datatype Signal = Signal(pid: int, kind: SignalKind, hit: Option<nat>, at: int)

  /** All but the table and the births is history: which processes are services the agent started, which signals
      were delivered, how many services were ever alive at once, how often the start token of an existing process
      could not be read, how the children that were waited for ended, and how often another system call failed. */
  datatype World = World(
    table: map<int, Process>,
    births: map<nat, Birth>,
    launched: map<nat, Launch>,
    signals: seq<Signal>,
    peak: nat,
    tokenFaults: nat,
    ended: map<nat, WaitStatus>,
    callFaults: nat)

  const NOBODY := World(map[], map[], map[], [], 0, 0, map[], 0)

  // ---------------------------------------------------------------- consistency

  /** Every process was born under its pid and start token, and no two births share both. */
  predicate Sound(w: World) {
    && (forall pid | pid in w.table ::
          && 0 < pid < TWO_63
          && w.table[pid].instance in w.births
          && w.births[w.table[pid].instance] == Birth(pid, w.table[pid].token))
    && (forall i, j | i in w.births && j in w.births && w.births[i] == w.births[j] :: i == j)
    && w.launched.Keys <= w.births.Keys
    && (forall i | i in w.ended :: i in w.births && !Present(w, i))
  }

  /** The process is still in the table, running or not yet reaped. */
  predicate Present(w: World, instance: nat) {
    && instance in w.births
    && w.births[instance].pid in w.table
    && w.table[w.births[instance].pid].instance == instance
  }

  /** The service processes that are running. */
  function Live(w: World): (r: set<nat>) {
    set pid | pid in w.table && w.table[pid].life.Running? && w.table[pid].instance in w.launched
      :: w.table[pid].instance
  }

  /** A service process that was running then is running still. */
  ghost predicate Survives(w: World, w': World) {
    exists i :: i in Live(w) && i in Live(w')
  }

  /** No service process is in the table. */
  predicate NoService(w: World) {
    forall pid | pid in w.table :: w.table[pid].instance !in w.launched
  }

  // ---------------------------------------------------------------- change over time

  predicate Later(p: Process, q: Process) {
    && q.instance == p.instance && q.token == p.token && q.child == p.child
    && (q.life == p.life || p.life.Running?)
  }

  /** What may happen while the agent starts nothing: nobody comes back from the dead, and whoever
      appears is a newcomer that is not a child of the agent. */
  predicate Steps(w: World, w': World) {
    && Sound(w')
    && (forall i | i in w.births :: i in w'.births && w'.births[i] == w.births[i])
    && (forall pid | pid in w'.table ::
          if w'.table[pid].instance in w.births
          then pid in w.table && Later(w.table[pid], w'.table[pid])
          else !w'.table[pid].child)
    && w'.launched == w.launched
    && w'.peak == w.peak
    && w.signals <= w'.signals
    && w.tokenFaults <= w'.tokenFaults && w.callFaults <= w'.callFaults
    && (forall i | i in w.ended :: i in w'.ended && w'.ended[i] == w.ended[i])
    && (forall i | i in w'.ended && i !in w.ended && i in w.births :: Present(w, i) && OwnChild(w, w.births[i].pid))
  }

  /** Every child that is not in `except` keeps its pid: only the agent can reap it. */
  predicate KeepsChildren(w: World, w': World, except: set<int>) {
    forall pid | pid in w.table && w.table[pid].child && pid !in except ::
      pid in w'.table && w'.table[pid].instance == w.table[pid].instance
  }

  /** Nothing was started, reaped or signalled. */
  predicate Quiet(w: World, w': World) {
    && Steps(w, w')
    && KeepsChildren(w, w', {})
    && w'.signals == w.signals && w'.ended == w.ended
  }

  /** The other processes moved on by themselves. */
  predicate Drift(w: World, w': World) {
    Quiet(w, w') && w'.tokenFaults == w.tokenFaults && w'.callFaults == w.callFaults
  }

  /** The pid is held by an unreaped child of the agent. */
  predicate OwnChild(w: World, pid: int) {
    pid in w.table && w.table[pid].child
  }

  predicate HasToken(w: World, pid: int, token: Uint64) {
    pid in w.table && w.table[pid].token == token
  }

  /** Since then a system call, or a look at a start token, has failed for a reason of its own. */
  predicate SomeCallFailed(w: World, w': World) {
    w'.callFaults > w.callFaults || w'.tokenFaults > w.tokenFaults
  }

  /** Since then the pid was given to another process. */
  ghost predicate PidReused(w: World, w': World, pid: int) {
    exists i :: i in w'.births && i !in w.births && w'.births[i].pid == pid
  }

  ghost predicate Hindered(w: World, w': World, pid: int) {
    SomeCallFailed(w, w') || PidReused(w, w', pid)
  }

  /** The agent's child at `pid` was reaped; this is how it ended. */
  predicate ReapedFrom(w: World, w': World, pid: int, status: WaitStatus) {
    && Steps(w, w')
    && KeepsChildren(w, w', {pid})
    && w'.signals == w.signals
    && OwnChild(w, pid) && pid !in w'.table
    && w'.ended == w.ended[w.table[pid].instance := status]
  }

  /** One signal was delivered, at that moment, to whatever held the pid, if it was delivered at all. */
  predicate Signalled(w: World, w': World, pid: int, kind: SignalKind, at: int, delivered: bool) {
    && Steps(w, w')
    && KeepsChildren(w, w', {})
    && (if delivered
        then pid in w'.table && w'.signals == w.signals + [Signal(pid, kind, Some(w'.table[pid].instance), at)]
        else w'.signals == w.signals)
    && w'.ended == w.ended
  }

  lemma StepsTransitive(w0: World, w1: World, w2: World)
    requires Steps(w0, w1) && Steps(w1, w2)
    ensures Steps(w0, w2)
  {
    forall pid | pid in w2.table
      ensures if w2.table[pid].instance in w0.births
              then pid in w0.table && Later(w0.table[pid], w2.table[pid])
              else !w2.table[pid].child
    {
      if w2.table[pid].instance in w1.births {
        assert Later(w1.table[pid], w2.table[pid]);
      }
    }
  }

  lemma QuietTransitive(w0: World, w1: World, w2: World)
    requires Sound(w0) && Quiet(w0, w1) && Quiet(w1, w2)
    ensures Quiet(w0, w2)
  {
    StepsTransitive(w0, w1, w2);
    KeepsChildrenTransitive(w0, w1, w2, {}, {});
    var none: set<int> := {};
    assert none + none == none;
  }

  lemma KeepsChildrenTransitive(w0: World, w1: World, w2: World, a: set<int>, b: set<int>)
    requires Steps(w0, w1) && Sound(w0)
    requires KeepsChildren(w0, w1, a) && KeepsChildren(w1, w2, b)
    ensures KeepsChildren(w0, w2, a + b)
  {
    forall pid | pid in w0.table && w0.table[pid].child && pid !in a + b
      ensures pid in w2.table && w2.table[pid].instance == w0.table[pid].instance
    {
      assert Later(w0.table[pid], w1.table[pid]);
    }
  }

  /** A process that left the table never returns. */
  lemma GoneForever(w: World, w': World, instance: nat)
    requires Sound(w) && Steps(w, w') && instance in w.births && !Present(w, instance)
    ensures !Present(w', instance)
  {
  }

  lemma NoServiceStays(w: World, w': World)
    requires Sound(w) && Steps(w, w') && NoService(w)
    ensures NoService(w')
  {
  }

  lemma ReapedLater(w0: World, w: World, w': World, pid: int, status: WaitStatus)
    requires Sound(w0) && Quiet(w0, w) && ReapedFrom(w, w', pid, status)
    ensures ReapedFrom(w0, w', pid, status)
  {
    StepsTransitive(w0, w, w');
    KeepsChildrenTransitive(w0, w, w', {}, {pid});
    var none: set<int> := {};
    assert none + {pid} == {pid};
    assert Later(w0.table[pid], w.table[pid]);
  }

  /** A new child, and the count of services alive at once. */
  function Born(w: World, pid: int, token: Uint64, number: nat, launch: Launch): (w': World) {
    var born := w.(
      table := w.table[pid := Process(number, token, true, Running)],
      births := w.births[number := Birth(pid, token)],
      launched := w.launched[number := launch]);
    born.(peak := Max(born.peak, |Live(born)|))
  }

  lemma BornPeak(w: World, pid: int, token: Uint64, number: nat, launch: Launch)
    requires Sound(w) && NoService(w) && pid !in w.table && number !in w.births
    ensures Born(w, pid, token, number, launch).peak <= Max(w.peak, 1)
  {
    var born := Born(w, pid, token, number, launch);
    assert Live(born.(peak := w.peak)) <= {number};
    SubsetSize(Live(born.(peak := w.peak)), {number});
  }

  /** Starting a service while one is running makes two. */
  lemma SecondInstance(w: World, pid: int, token: Uint64, number: nat, launch: Launch)
    requires Sound(w) && Live(w) != {} && pid !in w.table && number !in w.births
    ensures Born(w, pid, token, number, launch).peak >= 2
  {
    var born := Born(w, pid, token, number, launch);
    var first :| first in Live(w);
    var p :| p in w.table && w.table[p].life.Running? && w.table[p].instance == first;
    assert born.table[p] == w.table[p] && born.table[pid].instance == number;
    assert first != number;
    SubsetSize({first, number}, Live(born.(peak := w.peak)));
  }

  lemma BornSound(w: World, pid: int, token: Uint64, number: nat, launch: Launch)
    requires Sound(w)
    requires 0 < pid < TWO_63 && pid !in w.table && number !in w.births && Birth(pid, token) !in w.births.Values
    ensures Sound(Born(w, pid, token, number, launch))
  {
    var births := Born(w, pid, token, number, launch).births;
    forall i, j | i in births && j in births && births[i] == births[j] ensures i == j {
      assert i in w.births ==> w.births[i] in w.births.Values;
      assert j in w.births ==> w.births[j] in w.births.Values;
    }
  }

  /** Nobody but the newborn is new to those who could be asked before. */
  lemma BornTable(w0: World, w: World, pid: int, token: Uint64, number: nat, launch: Launch)
    requires Sound(w0) && Drift(w0, w) && pid !in w.table && number !in w.births
    ensures var w' := Born(w, pid, token, number, launch);
      && (forall i | i in w0.births :: i in w'.births && w'.births[i] == w0.births[i])
      && (forall p | p in w'.table && p != pid ::
            if w'.table[p].instance in w0.births
            then p in w0.table && Later(w0.table[p], w'.table[p])
            else !w'.table[p].child)
      && !(pid in w0.table && w0.table[pid].child) && KeepsChildren(w0, w', {})
  {
    hide Live;
  }

  lemma BornIsSpawned(w0: World, w: World, pid: int, token: Uint64, number: nat, launch: Launch)
    requires Sound(w0) && Drift(w0, w)
    requires 1 < pid < TWO_63 && pid !in w.table && number !in w.births && Birth(pid, token) !in w.births.Values
    ensures Spawned(w0, Born(w, pid, token, number, launch), pid, number, launch)
  {
    BornTable(w0, w, pid, token, number, launch);
    hide Survives, NoService, Live, Sound, KeepsChildren;
    BornSound(w, pid, token, number, launch);
    if NoService(w0) {
      NoServiceStays(w0, w);
      BornPeak(w, pid, token, number, launch);
    }
    if Survives(w0, Born(w, pid, token, number, launch)) {
      SurvivorAtBirth(w0, w, pid, token, number, launch);
      SecondInstance(w, pid, token, number, launch);
    }
  }

  /** Who survives a start was running when it happened. */
  lemma SurvivorAtBirth(w0: World, w: World, pid: int, token: Uint64, number: nat, launch: Launch)
    requires Sound(w0) && Drift(w0, w) && pid !in w.table && number !in w.births
    requires Survives(w0, Born(w, pid, token, number, launch))
    ensures Live(w) != {}
  {
    var born := Born(w, pid, token, number, launch);
    var i :| i in Live(w0) && i in Live(born);
    var p :| p in born.table && born.table[p].life.Running? && born.table[p].instance == i;
    assert i != number;
    assert p in w.table && w.table[p] == born.table[p];
    assert i in Live(w);
  }

  // ---------------------------------------------------------------- system calls

  datatype WaitResult = StillRunning | Reaped(status: WaitStatus) | NoChild | WaitFailed

  datatype KillResult = Delivered | NoProcess | Refused

  datatype ProbeResult = Exists | Gone

  class Kernel {
    var world: World
    const bootIdentity: CText
    /** How often the boot identity could not be read. */
    ghost var identityFaults: nat

    constructor (bootIdentity: CText)
      ensures this.bootIdentity == bootIdentity
      ensures world == NOBODY && Sound(world)
    {
      this.bootIdentity := bootIdentity;
      world := NOBODY;
      identityFaults := 0;
    }

    /** Anything else on the machine makes any number of moves. */
    method Pause()
      requires Sound(world)
      modifies this`world
      ensures Sound(world) && Drift(old(world), world)
    {
      var table: map<int, Process> := *;
      var births: map<nat, Birth> := *;
      var next := world.(table := table, births := births);
      if Drift(world, next) {
        world := next;
      }
    }

    /** fork and execve. A child whose execve failed has been waited for and leaves no trace. */
    method Spawn(launch: Launch) returns (r: Option<int>, instance: nat)
      requires Sound(world)
      modifies this`world
      ensures Sound(world)
      ensures r.None? ==> Quiet(old(world), world) && world.callFaults > old(world).callFaults
      ensures r.Some? ==> Spawned(old(world), world, r.value, instance, launch)
    {
      Pause();
      r, instance := None, 0;
      var pid: int := *;
      var token: int := *;
      var number: int := *;
      var free := 1 < pid < TWO_63 && 0 <= token < TWO_64 && 0 <= number;
      if !free || pid in world.table || number in world.births || Birth(pid, token) in world.births.Values {
        world := world.(callFaults := world.callFaults + 1);
        return;
      }
      BornIsSpawned(old(world), world, pid, token, number, launch);
      world := Born(world, pid, token, number, launch);
      r, instance := Some(pid), number;
    }

    /** A system call fails for a reason of its own. */
    method Fail()
      requires Sound(world)
      modifies this`world
      ensures Sound(world) && Quiet(old(world), world) && world.callFaults > old(world).callFaults
    {
      world := world.(callFaults := world.callFaults + 1);
    }

    /** The child at `pid` is waited for, and leaves the table. */
    method Bury(pid: int, status: WaitStatus)
      requires Sound(world) && OwnChild(world, pid)
      modifies this`world
      ensures ReapedFrom(old(world), world, pid, status)
    {
      world := world.(
        table := world.table - {pid},
        ended := world.ended[world.table[pid].instance := status]);
    }

    /** waitpid(pid, WNOHANG). */
    method WaitNoHang(pid: int) returns (r: WaitResult)
      requires Sound(world)
      modifies this`world
      ensures if r.Reaped? then ReapedFrom(old(world), world, pid, r.status) else Quiet(old(world), world)
      ensures r.WaitFailed? ==> world.callFaults > old(world).callFaults
      ensures r.StillRunning? ==> OwnChild(world, pid)
      ensures r.NoChild? ==> !OwnChild(world, pid)
    {
      hide Steps, KeepsChildren, Sound;
      Pause();
      ghost var w := world;
      var failing: bool := *;
      if failing {
        Fail();
        QuietTransitive(old(world), w, world);
        r := WaitFailed;
      } else if pid !in world.table || !world.table[pid].child {
        r := NoChild;
      } else if world.table[pid].life.Running? {
        r := StillRunning;
      } else {
        r := Reaped(world.table[pid].life.status);
        Bury(pid, r.status);
        ReapedLater(old(world), w, world, pid, r.status);
      }
    }

    /** waitpid(pid, 0), retried while it is interrupted: a child is reaped however long it takes. */
    method WaitBlocking(pid: int) returns (r: WaitResult)
      requires Sound(world)
      modifies this`world
      ensures if r.Reaped? then ReapedFrom(old(world), world, pid, r.status) else Quiet(old(world), world)
      ensures r.WaitFailed? ==> world.callFaults > old(world).callFaults
      ensures !r.StillRunning?
      ensures r.NoChild? ==> !OwnChild(world, pid)
    {
      hide Steps, KeepsChildren, Sound;
      Pause();
      ghost var w := world;
      var failing: bool := *;
      if failing {
        Fail();
        QuietTransitive(old(world), w, world);
        r := WaitFailed;
      } else if pid !in world.table || !world.table[pid].child {
        r := NoChild;
      } else {
        var code: int := *;
        r := Reaped(if world.table[pid].life.Running? then KilledBy(code) else world.table[pid].life.status);
        Bury(pid, r.status);
        ReapedLater(old(world), w, world, pid, r.status);
      }
    }

    /** kill(-pid, kind): the signal goes to whatever holds the pid now. */
    method Kill(pid: int, kind: SignalKind, clock: Clock) returns (r: KillResult)
      requires Sound(world)
      modifies this`world
      ensures r.Refused? ==> world.callFaults > old(world).callFaults
      ensures Signalled(old(world), world, pid, kind, clock.now, r.Delivered?)
      ensures r.NoProcess? ==> pid !in world.table
    {
      Pause();
      var refused: bool := *;
      if pid !in world.table {
        r := NoProcess;
      } else if refused {
        world := world.(callFaults := world.callFaults + 1);
        r := Refused;
      } else {
        r := Delivered;
        world := world.(
          signals := world.signals + [Signal(pid, kind, Some(world.table[pid].instance), clock.now)]);
      }
    }

    /** kill(pid, 0): a zombie and a process of another user exist too. */
    method Probe(pid: int) returns (r: ProbeResult)
      requires Sound(world)
      modifies this`world
      ensures Drift(old(world), world)
      ensures r.Exists? <==> pid in world.table
    {
      Pause();
      r := if pid in world.table then Exists else Gone;
    }

    /** The start token of a process, from /proc. Reading it may fail. */
    method StartToken(pid: int) returns (r: Option<Uint64>)
      requires Sound(world)
      modifies this`world
      ensures Quiet(old(world), world) && world.callFaults == old(world).callFaults
      ensures r.Some? ==> HasToken(world, pid, r.value)
      ensures r.None? ==> pid !in world.table || world.tokenFaults > old(world).tokenFaults
    {
      Pause();
      var failing: bool := *;
      if pid !in world.table {
        r := None;
      } else if failing {
        world := world.(tokenFaults := world.tokenFaults + 1);
        r := None;
      } else {
        r := Some(world.table[pid].token);
      }
    }

    method BootIdentity() returns (r: Option<CText>)
      modifies this`identityFaults
      ensures identityFaults == if r.None? then old(identityFaults) + 1 else old(identityFaults)
      ensures r.Some? ==> r.value == bootIdentity
    {
      var failing: bool := *;
      r := if failing then None else Some(bootIdentity);
      if failing { identityFaults := identityFaults + 1; }
    }

    /** The agent ends: its children are handed to init, which reaps the dead ones. */
    method AgentDies()
      requires Sound(world)
      modifies this`world
      ensures Orphaned(old(world), world)
    {
      Pause();
      world := world.(table := map pid |
        pid in world.table && !(world.table[pid].child && world.table[pid].life.Zombie?)
        :: world.table[pid].(child := false));
    }
  }

  /** One more child, and otherwise only the usual moves. */
  ghost predicate Spawned(w: World, w': World, pid: int, instance: nat, launch: Launch) {
    && Sound(w')
    && 1 < pid < TWO_63 && pid in w'.table && instance !in w.births && instance in w'.births
    && w'.table[pid].instance == instance && w'.table[pid].child
    && (forall i | i in w.births :: i in w'.births && w'.births[i] == w.births[i])
    && (forall p | p in w'.table && p != pid ::
          if w'.table[p].instance in w.births
          then p in w.table && Later(w.table[p], w'.table[p])
          else !w'.table[p].child)
    && !(pid in w.table && w.table[pid].child)
    && KeepsChildren(w, w', {})
    && w'.launched == w.launched[instance := launch]
    && w'.signals == w.signals
    && w'.tokenFaults == w.tokenFaults && w'.callFaults == w.callFaults && w'.ended == w.ended
    && w'.peak >= w.peak
    && (NoService(w) ==> w'.peak <= Max(w.peak, 1))
    && (Survives(w, w') ==> w'.peak >= 2)
  }

  /** The table once the agent is gone: no process has a parent that would reap it. */
  predicate Orphaned(w: World, w': World) {
    && Sound(w')
    && (forall i | i in w.births :: i in w'.births && w'.births[i] == w.births[i])
    && (forall pid | pid in w'.table :: !w'.table[pid].child)
    && (forall pid | pid in w'.table && w'.table[pid].instance in w.births ::
          pid in w.table && w.table[pid].instance == w'.table[pid].instance)
    && w'.launched == w.launched
    && w'.signals == w.signals
    && w'.peak == w.peak
    && w'.tokenFaults == w.tokenFaults && w'.callFaults == w.callFaults && w'.ended == w.ended
  }
}
