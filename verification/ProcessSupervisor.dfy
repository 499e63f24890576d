/** The POSIX process supervisor: it starts, adopts, stops and asks after processes, with a cache of
    finished children and a set of adopted pids. Its calls arrive one at a time. */
module ProcessSupervisor {
  import opened Prelude
  import opened ProcessTable

  datatype ProcessHandle = ProcessHandle(id: int, startToken: Uint64)

  datatype ProcessState = Alive | Exited | Signaled | Unknown

  datatype ProcessStatus = ProcessStatus(state: ProcessState, exitCode: Option<int>, signal: Option<int>)

  datatype Fault = InvalidHandle | NoStartToken | NotTheRecordedInstance | NotStarted | SystemError | StillAlive

  const ALIVE := ProcessStatus(Alive, None, None)
  const UNKNOWN := ProcessStatus(Unknown, None, None)
  const EXITED := ProcessStatus(Exited, None, None)

  const POLL_INTERVAL := 20

  function ToStatus(waited: WaitStatus): (r: ProcessStatus) {
    match waited
    case ExitCode(code) => ProcessStatus(Exited, Some(code), None)
    case KilledBy(signal) => ProcessStatus(Signaled, None, Some(signal))
  }

  type Cache = map<int, ProcessStatus>

  /** The status says how the process ended, if it was waited for, and otherwise only that it did. */
  predicate Tells(status: ProcessStatus, w: World, instance: nat) {
    if instance in w.ended
    then
      match w.ended[instance]
      case ExitCode(code) => status.state.Exited? && status.exitCode == Some(code) && status.signal.None?
      case KilledBy(signal) => status.state.Signaled? && status.signal == Some(signal) && status.exitCode.None?
    else status.state.Exited? && status.exitCode.None? && status.signal.None?
  }

  // ---------------------------------------------------------------- the caches against the table

  /** The supervisor's caches; `mine` names, for every pid, the process it last started or adopted there,
      until it was taken for over although it was not (see `Mistaken`). */
  datatype Books = Books(finished: Cache, adopted: set<int>, mine: map<int, nat>)

  /** A cached pid is over, an adopted pid is not cached, any other tracked pid is an unreaped child,
      and every child of the agent is tracked. */
  ghost predicate Coherent(w: World, b: Books) {
    && Sound(w)
    && b.finished.Keys !! b.adopted
    && b.adopted <= b.mine.Keys
    && (forall id | id in b.mine :: b.mine[id] in w.births && w.births[b.mine[id]].pid == id)
    && (forall id | id in b.finished :: !b.finished[id].state.Alive?)
    && (forall id | id in b.finished && id in b.mine ::
          !Present(w, b.mine[id]) && Tells(b.finished[id], w, b.mine[id]))
    && (forall id | id in b.adopted :: b.mine[id] !in w.ended)
    && (forall id | id in b.mine && id !in b.finished && id !in b.adopted ::
          OwnChild(w, id) && w.table[id].instance == b.mine[id])
    && (forall pid | OwnChild(w, pid) ::
          pid in b.mine && b.mine[pid] == w.table[pid].instance && pid !in b.finished)
  }

  /** The process with the handle's pid and start token is tracked from now on; it existed. */
  ghost predicate Adopted(w: World, b: Books, w': World, b': Books, handle: ProcessHandle) {
    && handle.id > 1 && handle.startToken != 0 && handle.id in b'.mine
    && var i := b'.mine[handle.id];
      && i in w'.births && w'.births[i] == Birth(handle.id, handle.startToken) && (i in w.births ==> Present(w, i))
      && (handle.id in w'.table ==> w'.table[handle.id].instance in {i} + (w'.births.Keys - w.births.Keys))
      && b' == Books(b.finished - {handle.id}, b.adopted + {handle.id}, b.mine[handle.id := i])
  }

  /** The handle fits what is tracked at its pid: an adopted pid comes with its token. */
  ghost predicate Issued(w: World, b: Books, handle: ProcessHandle) {
    handle.id in b.adopted ==>
      handle.id in b.mine && b.mine[handle.id] in w.births && w.births[b.mine[handle.id]].token == handle.startToken
  }

  /** An adopted process was taken for over because the handle had another token than the process. */
  ghost predicate Mistaken(b: Books, b': Books, id: int) {
    id in b.adopted && id in b'.finished && b'.mine == b.mine - {id}
  }

  /** What asking after a process may change: the caches only at its pid, and a cached answer never. */
  ghost predicate Polled(w: World, b: Books, w': World, b': Books, id: int) {
    && Steps(w, w')
    && w'.signals == w.signals
    && KeepsChildren(w, w', {id})
    && (b'.mine == b.mine || Mistaken(b, b', id))
    && b.finished.Keys <= b'.finished.Keys <= b.finished.Keys + {id}
    && (forall i | i in b.finished :: b'.finished[i] == b.finished[i])
    && b.adopted - {id} <= b'.adopted <= b.adopted
    && (id in b.adopted && id !in b'.finished ==> id in b'.adopted)
    && (id !in b'.finished && OwnChild(w, id) ==> OwnChild(w', id))
  }

  /** What an answer about `handle` means. */
  ghost predicate Means(w: World, b: Books, handle: ProcessHandle, r: Result<ProcessStatus, Fault>) {
    var id := handle.id;
    r.Ok? ==>
      if r.value.state.Alive?
      then
        && id !in b.finished && id in b.mine && id in w.table
        && (w.table[id].child ==> w.table[id].instance == b.mine[id])
        && (!w.table[id].child ==> id in b.adopted && w.table[id].token == handle.startToken)
      else if id in b.finished
      then b.finished[id] == r.value && (id in b.mine ==> !Present(w, b.mine[id]) && Tells(r.value, w, b.mine[id]))
      else id !in b.mine && r.value == ProcessStatus(ProcessState.Unknown, None, None)
  }

  /** The process the handle names has left the table. */
  ghost predicate Over(w: World, b: Books, id: int) {
    id in b.mine ==> !Present(w, b.mine[id])
  }

  /** Every signal since `w0` went to pid `id`, and reached `named` or a process born after `w0`;
      if an unreaped child held the pid then, every one reached `named`. */
  ghost predicate Aimed(w0: World, w: World, id: int, named: nat) {
    && w0.signals <= w.signals
    && (forall i | |w0.signals| <= i < |w.signals| ::
          && w.signals[i].pid == id
          && w.signals[i].hit.Some?
          && (w.signals[i].hit.value == named || (!OwnChild(w0, id) && w.signals[i].hit.value !in w0.births)))
  }

  /** In a stop that began at `since`: SIGTERM first, SIGKILL only when the time is up since then, each once at
      most; and a SIGKILL that hits the process that was to be stopped follows a SIGTERM that hit it. */
  predicate Escalates(before: seq<Signal>, after: seq<Signal>, named: nat, since: int, timeout: nat) {
    && before <= after && |after| <= |before| + 2
    && (forall i | |before| <= i < |after| :: after[i].at >= since + if after[i].kind.Sigkill? then timeout else 0)
    && (|after| == |before| + 2 ==>
          && after[|before|].kind.Sigterm? && after[|before| + 1].kind.Sigkill?
          && after[|before| + 1].at >= after[|before|].at + timeout)
    && (forall i | |before| <= i < |after| && after[i].kind.Sigkill? && after[i].hit == Some(named) ::
          i == |before| + 1 && after[|before|].hit == Some(named))
  }

  lemma EscalatesSo(before: seq<Signal>, termed: seq<Signal>, after: seq<Signal>, named: nat, since: int, timeout: nat,
      at: int, gone: bool)
    requires before <= termed <= after && |termed| <= |before| + 1 && |after| <= |termed| + 1 && since <= at
    requires |termed| > |before| ==> termed[|before|].kind.Sigterm? && termed[|before|].at == at
    requires |after| > |termed| ==>
      && after[|termed|].kind.Sigkill? && after[|termed|].at >= at + timeout
      && (gone ==> after[|termed|].hit != Some(named))
      && (gone || (|termed| > |before| && termed[|before|].hit == Some(named)))
    ensures Escalates(before, after, named, since, timeout)
  {
  }

  /** A child was hit by a SIGKILL only after a SIGTERM. */
  lemma ChildIsAskedFirst(w0: World, w: World, id: int, named: nat, since: int, timeout: nat)
    requires OwnChild(w0, id) && Aimed(w0, w, id, named) && Escalates(w0.signals, w.signals, named, since, timeout)
    ensures w.signals != w0.signals ==> w.signals[|w0.signals|].kind.Sigterm?
  {
    if w.signals != w0.signals {
      assert |w.signals| > |w0.signals|;
      assert w.signals[|w0.signals|].hit == Some(named);
    }
  }

  /** What the supervisor was asked about a process, what it answered, and when it was asked. */
  datatype Asked = Asked(handle: ProcessHandle, answer: Result<ProcessStatus, Fault>, at: int)

  /** Since then, questions were about this handle only. */
  ghost predicate OnlyAbout(asked: seq<Asked>, asked': seq<Asked>, handle: ProcessHandle) {
    && asked <= asked'
    && forall i | |asked| <= i < |asked'| :: asked'[i].handle == handle
  }

  /** An adopted process was watched until time was up, and found alive every time. */
  ghost predicate WatchedInVain(ticks: seq<Tick>, found: seq<int>, timeout: nat) {
    exists moments, start, last :: Watched(ticks, found, timeout, moments, start, last)
  }

  ghost predicate Watched(ticks: seq<Tick>, found: seq<int>, timeout: nat, moments: seq<int>, start: int, last: int) {
    var loop := [Look(start)] + Rounds(moments, 20) + [Look(last)];
    && |ticks| >= |loop| && ticks[|ticks|-|loop|..] == loop
    && |found| >= |moments| && found[|found|-|moments|..] == moments
    && (forall t | t in moments :: start <= t < start + timeout) && last >= start + timeout
  }

  /** At each of these moments the handle's process was asked after, and it was alive. */
  ghost predicate AskedAt(asked: seq<Asked>, asked': seq<Asked>, handle: ProcessHandle, moments: seq<int>) {
    && asked <= asked' && |asked'| == |asked| + |moments|
    && forall i | 0 <= i < |moments| ::
      var a := asked'[|asked| + i];
      a.handle == handle && a.answer.Ok? && a.answer.value.state.Alive? && a.at == moments[i]
  }

  lemma AskedAtNext(asked: seq<Asked>, asked': seq<Asked>, handle: ProcessHandle, moments: seq<int>, a: Asked)
    requires AskedAt(asked, asked', handle, moments)
    requires a.handle == handle && a.answer.Ok? && a.answer.value.state.Alive?
    ensures AskedAt(asked, asked' + [a], handle, moments + [a.at])
  {
  }

  lemma NotAskedYet(asked: seq<Asked>, handle: ProcessHandle)
    ensures AskedAt(asked, asked, handle, [])
  {
  }

  /** The wait after SIGTERM was over: the process was asked after at every look before the deadline. */
  ghost predicate Outlasted(ticks: seq<Tick>, ticks': seq<Tick>, asked: seq<Asked>, asked': seq<Asked>,
      handle: ProcessHandle, deadline: int) {
    exists moments, last ::
      && ticks' == ticks + Rounds(moments, 20) + [Look(last)] && AskedAt(asked, asked', handle, moments)
      && (forall t | t in moments :: t < deadline) && last >= deadline
  }

  /** A SIGKILL among these signals came after a wait that began with a look at the clock: the process, asked after
      before that `n` times, was alive at every look, until the timeout was over. */
  ghost predicate KilledLate(before: seq<Signal>, after: seq<Signal>, ticks: seq<Tick>, ticks': seq<Tick>, n: nat,
      asked: seq<Asked>, handle: ProcessHandle, timeout: nat) {
    (exists i :: |before| <= i < |after| && after[i].kind.Sigkill?) ==>
      n <= |asked| && exists start, mid ::
        mid <= ticks' && OutlastedFrom(ticks, mid, start, asked[..n], asked, handle, timeout)
  }

  ghost predicate OutlastedFrom(ticks: seq<Tick>, mid: seq<Tick>, start: int, asked: seq<Asked>, asked': seq<Asked>,
      handle: ProcessHandle, timeout: nat) {
    Outlasted(ticks + [Look(start)], mid, asked, asked', handle, start + timeout)
  }

  lemma KilledAfter(before: seq<Signal>, after: seq<Signal>, ticks: seq<Tick>, mid: seq<Tick>, ticks': seq<Tick>,
      asked: seq<Asked>, asked': seq<Asked>, handle: ProcessHandle, timeout: nat, start: int)
    requires asked <= asked' && mid <= ticks'
    requires Outlasted(ticks + [Look(start)], mid, asked, asked', handle, start + timeout)
    ensures KilledLate(before, after, ticks, ticks', |asked|, asked', handle, timeout)
  {
    assert asked'[..|asked|] == asked;
    assert OutlastedFrom(ticks, mid, start, asked, asked', handle, timeout);
  }

  lemma ErrorMeansNothing(w: World, b: Books, handle: ProcessHandle, fault: Fault)
    ensures Means(w, b, handle, Err(fault))
  {
  }

  /** A loop so far: it was entered with this log, and the last look was now. */
  ghost predicate Looping(ticks0: seq<Tick>, ticks: seq<Tick>, moments: seq<int>, start: int, deadline: int, now: int) {
    && ticks == ticks0 + Rounds(moments, POLL_INTERVAL) + [Look(now)]
    && forall t | t in moments :: start <= t < deadline
  }

  lemma LoopingFirst(ticks0: seq<Tick>, start: int, deadline: int, now: int)
    ensures Looping(ticks0, ticks0 + [Look(now)], [], start, deadline, now)
  {
  }

  lemma LoopingOn(ticks0: seq<Tick>, ticks: seq<Tick>, moments: seq<int>, start: int, deadline: int, now: int)
    requires Looping(ticks0, ticks, moments, start, deadline, now)
    ensures ticks0 <= ticks
  {
  }

  lemma LoopingNext(ticks0: seq<Tick>, ticks: seq<Tick>, moments: seq<int>, start: int, deadline: int, now: int,
      next: int)
    requires Looping(ticks0, ticks, moments, start, deadline, now) && start <= now < deadline
    ensures Looping(ticks0, ticks + [Pause(POLL_INTERVAL)] + [Look(next)], moments + [now], start, deadline, next)
  {
    RoundsNext(moments, now, POLL_INTERVAL);
  }

  lemma LoopingEnds(ticks0: seq<Tick>, ticks: seq<Tick>, found0: seq<int>, found: seq<int>, moments: seq<int>,
      start: int, timeout: nat, now: int)
    requires ticks0 != [] && ticks0[|ticks0|-1] == Look(start) && found == found0 + moments && now >= start + timeout
    requires Looping(ticks0, ticks, moments, start, start + timeout, now)
    ensures WatchedInVain(ticks, found, timeout) && ticks0 <= ticks
  {
    assert Watched(ticks, found, timeout, moments, start, now);
  }

  lemma CallFailed(w: World, w': World, id: int)
    requires w'.callFaults > w.callFaults
    ensures Hindered(w, w', id)
  {
  }

  /** The start token at a taken pid could not be read: reading it failed, or somebody else took the pid then. */
  lemma TokenUnread(w0: World, w: World, w': World, w'': World, id: int)
    requires Steps(w0, w) && Steps(w, w') && Steps(w', w'') && id in w''.table
    requires id !in w'.table || w'.tokenFaults > w.tokenFaults
    ensures Hindered(w0, w'', id)
  {
    if w'.tokenFaults == w.tokenFaults {
      assert w''.births[w''.table[id].instance] == Birth(id, w''.table[id].token);
      assert PidReused(w0, w'', id);
    }
  }

  lemma PolledFaults(w0: World, b0: Books, w: World, b: Books, w': World, id: int)
    requires Polled(w0, b0, w, b, id)
    ensures Hindered(w, w', id) ==> Hindered(w0, w', id)
  {
  }

  lemma FaultsSince(w0: World, b0: Books, w: World, b: Books, w': World, id: int)
    requires Moved(w0, b0, w, b)
    ensures Hindered(w, w', id) ==> Hindered(w0, w', id)
  {
  }

  lemma CoherentQuiet(w: World, w': World, b: Books)
    requires Coherent(w, b) && Steps(w, w') && KeepsChildren(w, w', {})
    ensures Sound(w') && Coherent(w', b)
  {
    CoherentFacts(w, b);
    forall id | id in b.mine ensures TrackedRight(w', b, id) { TrackedQuiet(w, w', b, id, {}); }
    forall p | p in w'.table ensures ChildRight(w', b, p) { ChildQuiet(w, w', b, p, {}); }
    assert Sound(w');
    hide *;
    CoherentByParts(w', b);
  }

  lemma CoherentFacts(w: World, b: Books)
    requires Coherent(w, b)
    ensures b.finished.Keys !! b.adopted && b.adopted <= b.mine.Keys
    ensures forall id | id in b.finished :: !b.finished[id].state.Alive?
  {
  }

  lemma TrackedQuiet(w: World, w': World, b: Books, id: int, except: set<int>)
    requires Coherent(w, b) && Steps(w, w') && KeepsChildren(w, w', except) && id in b.mine && id !in except
    ensures TrackedRight(w', b, id)
  {
  }

  lemma ChildQuiet(w: World, w': World, b: Books, pid: int, except: set<int>)
    requires Coherent(w, b) && Steps(w, w') && KeepsChildren(w, w', except) && pid in w'.table
    ensures ChildRight(w', b, pid)
  {
    if OwnChild(w', pid) {
      assert Later(w.table[pid], w'.table[pid]);
    }
  }

  lemma PolledQuiet(w: World, w': World, b: Books, id: int)
    requires Coherent(w, b) && Quiet(w, w')
    ensures Sound(w') && Coherent(w', b) && Polled(w, b, w', b, id)
  {
    CoherentQuiet(w, w', b);
  }

  /** A running process under a fitting handle is the one tracked at its pid. */
  lemma AliveIsMine(w: World, b: Books, handle: ProcessHandle)
    requires Coherent(w, b) && Issued(w, b, handle) && Means(w, b, handle, Ok(ALIVE))
    ensures handle.id in b.mine && handle.id in w.table && w.table[handle.id].instance == b.mine[handle.id]
  {
    if !w.table[handle.id].child {
      assert w.births[b.mine[handle.id]] == Birth(handle.id, w.table[handle.id].token);
    }
  }

  lemma PolledReap(w: World, w': World, b: Books, handle: ProcessHandle, waited: WaitStatus)
    requires Coherent(w, b) && ReapedFrom(w, w', handle.id, waited)
    ensures
      var status := ToStatus(waited);
      var b' := b.(finished := b.finished[handle.id := status], adopted := b.adopted - {handle.id});
      Sound(w') && Coherent(w', b') && Polled(w, b, w', b', handle.id) && Means(w', b', handle, Ok(status))
  {
    CoherentReap(w, w', b, handle.id, waited);
    hide Tells, Present, Sound;
  }

  lemma CoherentReap(w: World, w': World, b: Books, id: int, waited: WaitStatus)
    requires Coherent(w, b) && ReapedFrom(w, w', id, waited)
    ensures Sound(w') && id in b.mine && !Present(w', b.mine[id]) && Tells(ToStatus(waited), w', b.mine[id])
    ensures Coherent(w', b.(finished := b.finished[id := ToStatus(waited)], adopted := b.adopted - {id}))
  {
    var b' := b.(finished := b.finished[id := ToStatus(waited)], adopted := b.adopted - {id});
    CoherentFacts(w, b);
    assert id in b.mine && b.mine[id] == w.table[id].instance;
    assert TrackedRight(w', b', id);
    forall i | i in b.mine && i != id ensures TrackedRight(w', b', i) { TrackedQuiet(w, w', b, i, {id}); }
    forall p | p in w'.table ensures ChildRight(w', b', p) { ChildQuiet(w, w', b, p, {id}); }
    hide Coherent, TrackedRight, ChildRight, Steps;
    CoherentByParts(w', b');
  }

  /** A pid is marked as over: its process has left the table, or is not tracked any more. */
  lemma CoherentOver(w: World, b: Books, id: int, status: ProcessStatus, mine: map<int, nat>)
    requires Coherent(w, b) && !OwnChild(w, id) && !status.state.Alive?
    requires (mine == b.mine && Over(w, b, id) && id in b.adopted && status == EXITED) || mine == b.mine - {id}
    ensures Coherent(w, Books(b.finished[id := status], b.adopted - {id}, mine))
  {
    hide Present;
  }

  lemma PolledOver(w: World, w': World, b: Books, id: int, status: ProcessStatus, mine: map<int, nat>)
    requires Coherent(w, b) && Quiet(w, w') && id in b.adopted && (mine == b.mine || mine == b.mine - {id})
    ensures Polled(w, b, w', Books(b.finished[id := status], b.adopted - {id}, mine), id)
  {
    hide Steps, KeepsChildren;
    KeepsAnyway(w, w', id);
  }

  lemma KeepsAnyway(w: World, w': World, id: int)
    requires KeepsChildren(w, w', {})
    ensures KeepsChildren(w, w', {id})
  {
  }

  lemma PolledGone(w: World, w': World, b: Books, handle: ProcessHandle)
    requires Coherent(w, b) && Quiet(w, w') && handle.id in b.adopted && Issued(w', b, handle)
    requires handle.id !in w'.table || w'.table[handle.id].token != handle.startToken
    ensures var b' := b.(finished := b.finished[handle.id := EXITED], adopted := b.adopted - {handle.id});
      Sound(w') && Coherent(w', b') && Polled(w, b, w', b', handle.id) && Means(w', b', handle, Ok(EXITED))
  {
    CoherentQuiet(w, w', b);
    NobodyThere(w', b, handle);
    hide Coherent, Polled, Steps, KeepsChildren;
    CoherentOver(w', b, handle.id, EXITED, b.mine);
    PolledOver(w, w', b, handle.id, EXITED, b.mine);
  }

  /** Nobody has the tracked process's token at an adopted pid, so that process is over. */
  lemma NobodyThere(w: World, b: Books, handle: ProcessHandle)
    requires Coherent(w, b) && handle.id in b.adopted && Issued(w, b, handle)
    requires handle.id !in w.table || w.table[handle.id].token != handle.startToken
    ensures Sound(w) && Over(w, b, handle.id) && !OwnChild(w, handle.id) && b.mine[handle.id] !in w.ended
  {
  }

  /** A handle with another token than the adopted process: the process is no longer tracked. */
  lemma PolledMistaken(w: World, w': World, b: Books, handle: ProcessHandle, status: ProcessStatus)
    requires Coherent(w, b) && Quiet(w, w') && handle.id in b.adopted && !OwnChild(w', handle.id)
    requires !status.state.Alive?
    ensures var b' := Books(b.finished[handle.id := status], b.adopted - {handle.id}, b.mine - {handle.id});
      Sound(w') && Coherent(w', b') && Polled(w, b, w', b', handle.id) && Means(w', b', handle, Ok(status))
  {
    CoherentQuiet(w, w', b);
    hide Coherent, Polled, Steps, KeepsChildren;
    CoherentOver(w', b, handle.id, status, b.mine - {handle.id});
    PolledOver(w, w', b, handle.id, status, b.mine - {handle.id});
  }

  lemma AliveChild(w: World, b: Books, handle: ProcessHandle)
    requires Coherent(w, b) && OwnChild(w, handle.id)
    ensures Means(w, b, handle, Ok(ALIVE))
  {
  }

  lemma AliveToken(w: World, b: Books, handle: ProcessHandle)
    requires Coherent(w, b) && handle.id in b.adopted && HasToken(w, handle.id, handle.startToken)
    requires !OwnChild(w, handle.id)
    ensures Means(w, b, handle, Ok(ALIVE))
  {
  }

  lemma ChildStays(w: World, b: Books, id: int)
    requires Coherent(w, b) && id in b.mine && id !in b.finished && id !in b.adopted
    ensures OwnChild(w, id)
  {
  }

  lemma Untracked(w: World, b: Books, handle: ProcessHandle)
    requires Coherent(w, b) && !OwnChild(w, handle.id) && handle.id !in b.adopted && handle.id !in b.finished
    ensures Means(w, b, handle, Ok(UNKNOWN)) && handle.id !in b.mine
  {
  }

  lemma CachedAnswer(w: World, b: Books, handle: ProcessHandle)
    requires Coherent(w, b) && handle.id in b.finished
    ensures Means(w, b, handle, Ok(b.finished[handle.id])) && Polled(w, b, w, b, handle.id)
  {
  }

  lemma OthersAfterStart(w: World, w': World, b: Books, pid: int, instance: nat, launch: Launch, id: int)
    requires Coherent(w, b) && Spawned(w, w', pid, instance, launch) && id in b.mine && id != pid
    ensures b.mine[id] in w'.births && w'.births[b.mine[id]].pid == id
    ensures id in b.finished ==> !Present(w', b.mine[id]) && Tells(b.finished[id], w', b.mine[id])
    ensures id in b.adopted ==> b.mine[id] !in w'.ended
    ensures id !in b.finished && id !in b.adopted ==> OwnChild(w', id) && w'.table[id].instance == b.mine[id]
  {
  }

  lemma ChildAfterStart(w: World, w': World, b: Books, pid: int, instance: nat, launch: Launch, p: int)
    requires Coherent(w, b) && Spawned(w, w', pid, instance, launch) && p in w'.table
    ensures ChildRight(w', Books(b.finished - {pid}, b.adopted - {pid}, b.mine[pid := instance]), p)
  {
    if OwnChild(w', p) && p != pid {
      assert OwnChild(w, p) && w.table[p].instance == w'.table[p].instance;
    }
  }

  lemma StartFacts(w: World, w': World, b: Books, pid: int, instance: nat, launch: Launch)
    requires Coherent(w, b) && Spawned(w, w', pid, instance, launch)
    ensures Sound(w') && OwnChild(w', pid) && w'.table[pid].instance == instance
    ensures instance in w'.births && w'.births[instance].pid == pid
    ensures b.finished.Keys !! b.adopted && b.adopted <= b.mine.Keys
    ensures forall id | id in b.finished :: !b.finished[id].state.Alive?
  {
    assert w'.births[instance] == Birth(pid, w'.table[pid].token);
  }

  /** What coherence says of one tracked pid, and of one child. */
  ghost predicate TrackedRight(w: World, b: Books, id: int)
    requires id in b.mine
  {
    && b.mine[id] in w.births && w.births[b.mine[id]].pid == id
    && (id in b.finished ==> !Present(w, b.mine[id]) && Tells(b.finished[id], w, b.mine[id]))
    && (id in b.adopted ==> b.mine[id] !in w.ended)
    && (id !in b.finished && id !in b.adopted ==> OwnChild(w, id) && w.table[id].instance == b.mine[id])
  }

  ghost predicate ChildRight(w: World, b: Books, pid: int) {
    OwnChild(w, pid) ==> pid in b.mine && b.mine[pid] == w.table[pid].instance && pid !in b.finished
  }

  lemma CoherentByParts(w: World, b: Books)
    requires Sound(w) && b.finished.Keys !! b.adopted && b.adopted <= b.mine.Keys
    requires forall id | id in b.finished :: !b.finished[id].state.Alive?
    requires forall id | id in b.mine :: TrackedRight(w, b, id)
    requires forall pid | pid in w.table :: ChildRight(w, b, pid)
    ensures Coherent(w, b)
  {
    forall id | id in b.mine
      ensures b.mine[id] in w.births && w.births[b.mine[id]].pid == id
      ensures id in b.finished ==> !Present(w, b.mine[id]) && Tells(b.finished[id], w, b.mine[id])
      ensures id in b.adopted ==> b.mine[id] !in w.ended
      ensures id !in b.finished && id !in b.adopted ==> OwnChild(w, id) && w.table[id].instance == b.mine[id]
    {
      assert TrackedRight(w, b, id);
    }
    forall pid | OwnChild(w, pid) ensures pid in b.mine && b.mine[pid] == w.table[pid].instance && pid !in b.finished {
      assert ChildRight(w, b, pid);
    }
  }

  lemma TrackedAfterStart(w: World, w': World, b: Books, pid: int, instance: nat, launch: Launch, id: int)
    requires Coherent(w, b) && Spawned(w, w', pid, instance, launch) && (id in b.mine || id == pid)
    ensures TrackedRight(w', Books(b.finished - {pid}, b.adopted - {pid}, b.mine[pid := instance]), id)
  {
    StartFacts(w, w', b, pid, instance, launch);
    if id != pid { OthersAfterStart(w, w', b, pid, instance, launch, id); }
  }

  lemma CoherentStart(w: World, w': World, b: Books, pid: int, instance: nat, launch: Launch)
    requires Coherent(w, b) && Spawned(w, w', pid, instance, launch)
    ensures Sound(w') && Coherent(w', Books(b.finished - {pid}, b.adopted - {pid}, b.mine[pid := instance]))
  {
    hide Coherent, Spawned, TrackedRight, ChildRight, Sound;
    var b' := Books(b.finished - {pid}, b.adopted - {pid}, b.mine[pid := instance]);
    StartFacts(w, w', b, pid, instance, launch);
    forall id | id in b'.mine ensures TrackedRight(w', b', id) {
      TrackedAfterStart(w, w', b, pid, instance, launch, id);
    }
    forall p | p in w'.table ensures ChildRight(w', b', p) {
      ChildAfterStart(w, w', b, pid, instance, launch, p);
    }
    CoherentByParts(w', b');
  }

  lemma CoherentAdopt(w: World, w': World, b: Books, id: int, instance: nat)
    requires Coherent(w, b) && Steps(w, w') && KeepsChildren(w, w', {})
    requires id in w.table && w.table[id].instance == instance
    ensures Sound(w') && Coherent(w', Books(b.finished - {id}, b.adopted + {id}, b.mine[id := instance]))
  {
    CoherentQuiet(w, w', b);
  }

  lemma PolledTransitive(w: World, b: Books, w1: World, b1: Books, w2: World, b2: Books, id: int)
    requires Sound(w) && Polled(w, b, w1, b1, id) && Polled(w1, b1, w2, b2, id)
    ensures Polled(w, b, w2, b2, id)
  {
    StepsTransitive(w, w1, w2);
    KeepsChildrenTransitive(w, w1, w2, {id}, {id});
    assert {id} + {id} == {id};
  }

  /** Whoever holds a pid at which `named` was seen is `named` or a newcomer, and no child but `named`. */
  lemma HolderIsNamed(w0: World, w1: World, w: World, id: int, named: nat)
    requires Steps(w0, w1) && Steps(w1, w) && id in w1.table && w1.table[id].instance == named && id in w.table
    ensures w.table[id].instance == named || (!w.table[id].child && w.table[id].instance !in w0.births)
  {
    if w.table[id].instance in w1.births {
      assert Later(w1.table[id], w.table[id]);
    }
  }

  /** A signal sent after the named process was seen at its pid. */
  lemma AimedSignal(w0: World, w1: World, w: World, w': World, id: int, named: nat, kind: SignalKind,
      at: int, delivered: bool)
    requires Steps(w0, w1) && Steps(w1, w') && id in w1.table && w1.table[id].instance == named
    requires OwnChild(w0, id) ==> OwnChild(w', id)
    requires Aimed(w0, w, id, named) && Signalled(w, w', id, kind, at, delivered)
    ensures Aimed(w0, w', id, named)
  {
    hide Steps, KeepsChildren;
    if delivered {
      HolderIsNamed(w0, w1, w', id, named);
    }
  }

  /** The process has left the table. */
  ghost predicate Left(w: World, instance: nat) {
    instance in w.births && !Present(w, instance)
  }

  /** The SIGTERM hit the named process, if it hit anybody that was there; or that process is gone. */
  lemma SoughtNamed(w0: World, w1: World, w: World, w': World, id: int, named: nat, at: int)
    requires Sound(w1) && Steps(w0, w1) && Steps(w1, w) && Sound(w) && Steps(w, w') && w.signals == w0.signals
    requires id in w1.table && w1.table[id].instance == named
    requires Signalled(w, w', id, Sigterm, at, |w'.signals| > |w.signals|)
    requires |w'.signals| == |w.signals| ==> id !in w'.table
    ensures |w'.signals| == |w.signals| ==> Left(w', named)
    ensures |w'.signals| > |w.signals| ==> w'.signals[|w.signals|].hit == Some(named) || Left(w', named)
  {
  }

  lemma LeftStays(w: World, b: Books, w': World, b': Books, id: int, named: nat)
    requires Sound(w) && Polled(w, b, w', b', id)
    ensures Left(w, named) ==> Left(w', named)
  {
    if Left(w, named) { GoneForever(w, w', named); }
  }

  lemma HitsNobodyLeft(w: World, w': World, id: int, named: nat, at: int)
    requires Sound(w) && Signalled(w, w', id, Sigkill, at, |w'.signals| > |w.signals|)
    ensures |w'.signals| > |w.signals| && Left(w, named) ==> w'.signals[|w.signals|].hit != Some(named)
  {
    if Left(w, named) { GoneForever(w, w', named); }
  }

  /** A signal changes nothing else. */
  lemma SignalKeeps(w0: World, w1: World, w: World, w': World, b: Books, id: int, kind: SignalKind, at: int,
      delivered: bool)
    requires Steps(w0, w1) && Steps(w1, w) && Steps(w0, w) && Coherent(w, b) && Signalled(w, w', id, kind, at,
      delivered)
    ensures Steps(w1, w') && Steps(w0, w') && Sound(w') && Coherent(w', b)
    ensures OwnChild(w, id) ==> OwnChild(w', id)
  {
    StepsTransitive(w1, w, w');
    StepsTransitive(w0, w, w');
    CoherentQuiet(w, w', b);
    if OwnChild(w, id) { assert Later(w.table[id], w'.table[id]); }
  }

  // ---------------------------------------------------------------- the supervisor

  class PosixProcessSupervisor {
    const kernel: Kernel
    const clock: Clock
    var finished: Cache
    var adopted: set<int>
    ghost var mine: map<int, nat>
    /** Every question about a process and its answer. */
    ghost var asked: seq<Asked>
    /** When an adopted process was found alive. */
    ghost var found: seq<int>

    constructor (kernel: Kernel, clock: Clock)
      requires Sound(kernel.world)
      requires forall pid | pid in kernel.world.table :: !kernel.world.table[pid].child
      ensures this.kernel == kernel && this.clock == clock
      ensures Valid() && View() == Books(map[], {}, map[]) && asked == []
    {
      this.kernel := kernel;
      this.clock := clock;
      finished := map[];
      adopted := {};
      mine := map[];
      asked, found := [], [];
    }

    ghost function View(): Books
      reads this`finished, this`adopted, this`mine
    {
      Books(finished, adopted, mine)
    }

    ghost predicate Valid()
      reads this`finished, this`adopted, this`mine, kernel`world
    {
      Sound(kernel.world) && Coherent(kernel.world, View())
    }

    method Start(launch: Launch) returns (r: Result<ProcessHandle, Fault>, ghost instance: nat)
      requires Valid()
      modifies this`finished, this`adopted, this`mine, kernel`world
      ensures Valid()
      ensures r.Err? ==> Quiet(old(kernel.world), kernel.world) && View() == old(View())
      ensures r.Err? ==> launch.executable == "" || kernel.world.callFaults > old(kernel.world).callFaults
      ensures launch.executable == "" ==> r.Err?
      ensures r.Ok? ==>
        && Begun(old(kernel.world), kernel.world, r.value, instance, launch)
        && View() == Books(old(finished) - {r.value.id}, old(adopted) - {r.value.id}, old(mine)[r.value.id := instance])
    {
      hide Coherent, Steps, KeepsChildren, Sound;
      instance := 0;
      QuietSelf(kernel.world, View());
      if launch.executable == "" {
        return Err(NotStarted), instance;
      }
      var spawned;
      spawned, instance := kernel.Spawn(launch);
      if spawned.None? {
        CoherentQuiet(old(kernel.world), kernel.world, View());
        return Err(NotStarted), instance;
      }
      var id := spawned.value;
      CoherentStart(old(kernel.world), kernel.world, View(), id, instance, launch);
      finished, adopted, mine := finished - {id}, adopted - {id}, mine[id := instance];
      ghost var begun := kernel.world;
      var token := kernel.StartToken(id);
      CoherentQuiet(begun, kernel.world, View());
      var handle := ProcessHandle(id, if token.Some? then token.value else 0);
      BegunAfter(old(kernel.world), begun, kernel.world, handle, instance, launch);
      r := Ok(handle);
    }

    method Adopt(handle: ProcessHandle) returns (r: Result<ProcessHandle, Fault>)
      requires Valid()
      modifies this`finished, this`adopted, this`mine, kernel`world
      ensures Valid() && Quiet(old(kernel.world), kernel.world)
      ensures r.Err? ==>
        && View() == old(View())
        && (handle.id <= 1 || handle.startToken == 0
            || kernel.world.tokenFaults > old(kernel.world).tokenFaults
            || NoLonger(kernel.world, handle))
      ensures r.Ok? ==>
        r.value == handle && Adopted(old(kernel.world), old(View()), kernel.world, View(), handle)
    {
      hide Coherent, KeepsChildren;
      QuietSelf(kernel.world, View());
      if handle.id <= 1 {
        return Err(InvalidHandle);
      }
      if handle.startToken == 0 {
        return Err(NoStartToken);
      }
      var token := kernel.StartToken(handle.id);
      ghost var read := kernel.world;
      CoherentQuiet(old(kernel.world), read, View());
      if token.None? {
        return Err(SystemError);
      }
      if token.value != handle.startToken {
        return Err(NotTheRecordedInstance);
      }
      ghost var instance := kernel.world.table[handle.id].instance;
      var probe := kernel.Probe(handle.id);
      CoherentQuiet(read, kernel.world, View());
      QuietTransitive(old(kernel.world), read, kernel.world);
      if probe.Gone? {
        return Err(SystemError);
      }
      CoherentAdopt(read, kernel.world, View(), handle.id, instance);
      finished, adopted, mine := finished - {handle.id}, adopted + {handle.id}, mine[handle.id := instance];
      r := Ok(handle);
    }

    method Status(handle: ProcessHandle) returns (r: Result<ProcessStatus, Fault>)
      requires Valid()
      modifies this, kernel`world
      ensures asked == old(asked) + [Asked(handle, r, clock.now)]
      ensures Valid() && Polled(old(kernel.world), old(View()), kernel.world, View(), handle.id)
      ensures Means(kernel.world, View(), handle, r)
      ensures handle.id > 0 && handle.id in old(finished) ==> r == Ok(old(finished)[handle.id])
      ensures handle.id <= 0 ==> r.Err?
      ensures r.Err? ==> handle.id <= 0 || Hindered(old(kernel.world), kernel.world, handle.id)
      ensures old(Fits(handle)) ==> Fits(handle) && mine == old(mine)
      ensures old(found) <= found
    {
      hide Coherent, Steps, KeepsChildren, Sound, Polled, Issued, Means;
      r := Answer(handle);
      asked := asked + [Asked(handle, r, clock.now)];
    }

    /** Cache first, then the adopted ones, then waitpid. */
    method Answer(handle: ProcessHandle) returns (r: Result<ProcessStatus, Fault>)
      requires Valid()
      modifies this`finished, this`adopted, this`mine, this`found, kernel`world
      ensures Valid() && Polled(old(kernel.world), old(View()), kernel.world, View(), handle.id)
      ensures Means(kernel.world, View(), handle, r)
      ensures handle.id > 0 && handle.id in old(finished) ==> r == Ok(old(finished)[handle.id])
      ensures handle.id <= 0 ==> r.Err?
      ensures r.Err? ==> handle.id <= 0 || Hindered(old(kernel.world), kernel.world, handle.id)
      ensures old(found) <= found
      ensures old(Fits(handle)) ==> Fits(handle) && mine == old(mine)
    {
      hide Coherent, Steps, KeepsChildren, Sound, Polled, Issued;
      if handle.id <= 0 {
        QuietSelf(kernel.world, View());
        PolledQuiet(kernel.world, kernel.world, View(), handle.id);
        return Err(InvalidHandle);
      }
      if handle.id in finished {
        CachedAnswer(kernel.world, View(), handle);
        return Ok(finished[handle.id]);
      }
      if handle.id in adopted {
        r := AdoptedStatus(handle);
        return;
      }
      var waited := kernel.WaitNoHang(handle.id);
      if waited.Reaped? {
        var status := ToStatus(waited.status);
        r := Ok(status);
        PolledReap(old(kernel.world), kernel.world, View(), handle, waited.status);
        finished := finished[handle.id := status];
        FitsStays(old(kernel.world), kernel.world, old(View()), View(), handle);
        assert adopted == old(adopted) - {handle.id};
        return;
      }
      PolledQuiet(old(kernel.world), kernel.world, View(), handle.id);
      FitsStays(old(kernel.world), kernel.world, View(), View(), handle);
      match waited {
        case StillRunning =>
          AliveChild(kernel.world, View(), handle);
          r := Ok(ALIVE);
        case NoChild =>
          Untracked(kernel.world, View(), handle);
          r := Ok(UNKNOWN);
        case WaitFailed =>
          r := Err(SystemError);
      }
    }

    ghost predicate Fits(handle: ProcessHandle)
      reads this`finished, this`adopted, this`mine, kernel`world
    {
      Issued(kernel.world, View(), handle)
    }

    /** An adopted process is waited for if it is a child, and otherwise judged by its start token. */
    method AdoptedStatus(handle: ProcessHandle) returns (r: Result<ProcessStatus, Fault>)
      requires Valid() && handle.id in adopted
      modifies this`finished, this`adopted, this`mine, this`found, kernel`world
      ensures Valid() && Polled(old(kernel.world), old(View()), kernel.world, View(), handle.id)
      ensures Means(kernel.world, View(), handle, r)
      ensures r.Err? ==> Hindered(old(kernel.world), kernel.world, handle.id)
      ensures found == if r.Ok? && r.value.state.Alive? then old(found) + [clock.now] else old(found)
      ensures old(Fits(handle)) ==> Fits(handle) && mine == old(mine)
    {
      hide Coherent, Steps, KeepsChildren, Sound, Polled, Issued, Hindered, Means;
      var id := handle.id;
      var waited := kernel.WaitNoHang(id);
      if waited.Reaped? {
        var status := ToStatus(waited.status);
        PolledReap(old(kernel.world), kernel.world, View(), handle, waited.status);
        finished := finished[id := status];
        adopted := adopted - {id};
        FitsStays(old(kernel.world), kernel.world, old(View()), View(), handle);
        return Ok(status);
      }
      QuietPoll(old(kernel.world), old(kernel.world), kernel.world, View(), handle);
      if waited.StillRunning? {
        AliveChild(kernel.world, View(), handle);
        found := found + [clock.now];
        return Ok(ALIVE);
      }
      if waited.WaitFailed? {
        CallFailed(old(kernel.world), kernel.world, id);
        ErrorMeansNothing(kernel.world, View(), handle, SystemError);
        return Err(SystemError);
      }
      ghost var w := kernel.world;
      var probe := kernel.Probe(id);
      NoChildStays(w, kernel.world, id);
      QuietPoll(old(kernel.world), w, kernel.world, View(), handle);
      if probe.Exists? {
        w := kernel.world;
        ghost var asked_ := w;
        var token := kernel.StartToken(id);
        NoChildStays(w, kernel.world, id);
        QuietPoll(old(kernel.world), w, kernel.world, View(), handle);
        if token.Some? {
          if token.value == handle.startToken {
            AliveToken(kernel.world, View(), handle);
            found := found + [clock.now];
            return Ok(ALIVE);
          }
        } else {
          w := kernel.world;
          var again := kernel.Probe(id);
          NoChildStays(w, kernel.world, id);
          QuietPoll(old(kernel.world), w, kernel.world, View(), handle);
          if again.Exists? {
            TokenUnread(old(kernel.world), asked_, w, kernel.world, id);
            ErrorMeansNothing(kernel.world, View(), handle, SystemError);
            return Err(SystemError);
          }
        }
      }
      if Fits(handle) {
        PolledGone(old(kernel.world), kernel.world, View(), handle);
      } else {
        PolledMistaken(old(kernel.world), kernel.world, View(), handle, EXITED);
        mine := mine - {id};
      }
      finished := finished[id := EXITED];
      adopted := adopted - {id};
      FitsStays(old(kernel.world), kernel.world, old(View()), View(), handle);
      r := Ok(EXITED);
    }

    /** `stop` ends the process that runs under the handle's pid. It signals no process that existed when
        it was called other than that one, no process at all once that one is known to be over, and a
        child only while it is unreaped; when it reports success to a fitting handle the tracked process
        has left the table. */
    method Stop(handle: ProcessHandle, timeout: nat) returns (r: Result<Unit, Fault>, ghost named: nat)
      requires Valid()
      modifies this, kernel`world, clock
      ensures Valid() && Moved(old(kernel.world), old(View()), kernel.world, View())
      ensures old(Fits(handle)) ==> Fits(handle) && Settled(old(kernel.world), old(View()), kernel.world, View())
      ensures handle.id !in old(mine) || handle.id in old(finished) ==>
        kernel.world.signals == old(kernel.world).signals
      ensures Aimed(old(kernel.world), kernel.world, handle.id, named)
      ensures kernel.world.signals != old(kernel.world).signals ==>
        && (named in old(kernel.world).births ==>
              handle.id in old(kernel.world).table && old(kernel.world).table[handle.id].instance == named)
        && (if OwnChild(old(kernel.world), handle.id) then named in old(kernel.world).births
            else handle.id in old(adopted))
      ensures old(Fits(handle)) && handle.id in mine ==>
        Aimed(old(kernel.world), kernel.world, handle.id, mine[handle.id])
      ensures old(Fits(handle)) && r.Ok? ==> Over(kernel.world, View(), handle.id)
      ensures Escalates(old(kernel.world).signals, kernel.world.signals, named, old(clock.now), timeout)
      ensures KilledLate(old(kernel.world).signals, kernel.world.signals, old(clock.ticks), clock.ticks,
        |old(asked)| + 1, asked, handle, timeout)
      ensures OnlyAbout(old(asked), asked, handle)
      ensures r.Err? ==>
        || handle.id <= 0 || Hindered(old(kernel.world), kernel.world, handle.id)
        || (r.error == StillAlive && WatchedInVain(clock.ticks, found, timeout))
      ensures old(clock.ticks) <= clock.ticks
    {
      hide Coherent, KeepsChildren, Sound, Polled, Issued, Moved, Aimed, Present, WatchedInVain;
      var id := handle.id;
      named := 0;
      ghost var w0, b0 := kernel.world, View();
      MovedSelf(w0, b0, id);
      if id <= 0 {
        return Err(InvalidHandle), named;
      }
      var isAdopted := id in adopted;
      var current := Status(handle);
      MovedPoll(w0, b0, w0, b0, kernel.world, View(), id);
      AimedPoll(w0, w0, b0, kernel.world, View(), id);
      if current.Err? {
        return Err(current.error), named;
      }
      if !current.value.state.Alive? {
        OverByAnswer(kernel.world, View(), handle, current);
        return Ok(Unit.Unit), named;
      }
      ghost var w1 := kernel.world;
      named := w1.table[id].instance;
      SeenAlive(w0, b0, w1, View(), handle);
      NobodyHit(w0, w1, id, named);
      r := Terminate(handle, timeout, isAdopted, w0, b0, w1, named);
    }

    /** SIGTERM, a wait, and SIGKILL for a process that was just seen running. */
    method Terminate(handle: ProcessHandle, timeout: nat, isAdopted: bool, ghost w0: World, ghost b0: Books,
        ghost w1: World, ghost named: nat) returns (r: Result<Unit, Fault>)
      requires Valid() && Pursued(w0, b0, w1, handle.id, named) && (handle.id in adopted) == isAdopted
      requires kernel.world.signals == w0.signals
      modifies this, kernel`world, clock
      ensures Valid() && Moved(w0, b0, kernel.world, View()) && Aimed(w0, kernel.world, handle.id, named)
      ensures old(Fits(handle)) ==>
        Fits(handle) && mine == old(mine) && (r.Ok? ==> Over(kernel.world, View(), handle.id))
      ensures Escalates(w0.signals, kernel.world.signals, named, old(clock.now), timeout)
      ensures KilledLate(w0.signals, kernel.world.signals, old(clock.ticks), clock.ticks, |old(asked)|, asked, handle,
        timeout)
      ensures OnlyAbout(old(asked), asked, handle)
      ensures r.Err? ==>
        || handle.id <= 0 || Hindered(w0, kernel.world, handle.id)
        || (r.error == StillAlive && WatchedInVain(clock.ticks, found, timeout))
      ensures old(clock.ticks) <= clock.ticks
    {
      hide Coherent, Steps, KeepsChildren, Sound, Polled, Issued, Settled, Moved, Aimed, Present, Pursued, Signalled,
        Left, WatchedInVain, Hindered, Outlasted, Escalates, PosixProcessSupervisor.Fits;
      SoundWhilePursued(w0, b0, w1, handle.id, named);
      var killed := SendSignal(handle, Sigterm, w0, b0, w1, named);
      MovedWhilePursued(w0, b0, w1, handle.id, named);
      EscalatesSo(w0.signals, kernel.world.signals, kernel.world.signals, named, clock.now, timeout, clock.now, false);
      if !killed {
        return Err(SystemError);
      }
      ghost var termed, at := kernel.world.signals, clock.now;
      SoughtNamed(w0, w1, old(kernel.world), kernel.world, handle.id, named, clock.now);
      var started := clock.Read();
      var waited := AwaitEnd(handle, started + timeout, w0, b0, w1, named);
      if waited.Some? {
        return waited.value;
      }
      ghost var mid, gone := clock.ticks, Left(kernel.world, named);
      r := ForceEnd(handle, timeout, isAdopted, w0, b0, w1, named);
      EscalatesSo(w0.signals, termed, kernel.world.signals, named, old(clock.now), timeout, at, gone);
      KilledAfter(w0.signals, kernel.world.signals, old(clock.ticks), mid, clock.ticks, old(asked), asked, handle,
        timeout, started);
    }

    /** SIGKILL, and the wait for the end. */
    method ForceEnd(handle: ProcessHandle, timeout: nat, isAdopted: bool, ghost w0: World, ghost b0: Books,
        ghost w1: World, ghost named: nat) returns (r: Result<Unit, Fault>)
      requires Valid() && Pursued(w0, b0, w1, handle.id, named) && (handle.id in adopted) == isAdopted
      modifies this`finished, this`adopted, this`mine, this`found, kernel`world, clock
      ensures Valid() && Moved(w0, b0, kernel.world, View()) && Aimed(w0, kernel.world, handle.id, named)
      ensures old(Fits(handle)) ==>
        Fits(handle) && mine == old(mine) && (r.Ok? ==> Over(kernel.world, View(), handle.id))
      ensures var n := |old(kernel.world).signals|;
        && old(kernel.world).signals <= kernel.world.signals && |kernel.world.signals| <= n + 1
        && (|kernel.world.signals| > n ==>
              && kernel.world.signals[n].kind.Sigkill? && kernel.world.signals[n].at == old(clock.now)
              && (Left(old(kernel.world), named) ==> kernel.world.signals[n].hit != Some(named)))
      ensures r.Err? ==>
        || Hindered(w0, kernel.world, handle.id)
        || (r.error == StillAlive && WatchedInVain(clock.ticks, found, timeout))
      ensures old(clock.ticks) <= clock.ticks
    {
      hide Coherent, Steps, KeepsChildren, Sound, Polled, Issued, Settled, Moved, Aimed, Present, Pursued, Signalled,
        Left, WatchedInVain, Hindered, PosixProcessSupervisor.Fits;
      ghost var w := kernel.world;
      SoundWhilePursued(w0, b0, w1, handle.id, named);
      var killed := SendSignal(handle, Sigkill, w0, b0, w1, named);
      MovedWhilePursued(w0, b0, w1, handle.id, named);
      HitsNobodyLeft(w, kernel.world, handle.id, named, clock.now);
      if !killed {
        return Err(SystemError);
      }
      r := Finish(handle, timeout, isAdopted, w0, b0, w1, named);
    }

    /** Polls until the process is over, or a question fails, or time is up. */
    method AwaitEnd(handle: ProcessHandle, deadline: int, ghost w0: World, ghost b0: Books, ghost w1: World,
        ghost named: nat) returns (r: Option<Result<Unit, Fault>>)
      requires Valid() && Pursued(w0, b0, w1, handle.id, named)
      modifies this, kernel`world, clock
      ensures Valid() && Moved(w0, b0, kernel.world, View()) && Aimed(w0, kernel.world, handle.id, named)
      ensures kernel.world.signals == old(kernel.world).signals && OnlyAbout(old(asked), asked, handle)
      ensures clock.now >= old(clock.now)
      ensures r.Some? && r.value.Err? ==> handle.id <= 0 || Hindered(w0, kernel.world, handle.id)
      ensures r.None? ==> Outlasted(old(clock.ticks), clock.ticks, old(asked), asked, handle, deadline)
      ensures old(Fits(handle)) ==> Fits(handle) && mine == old(mine)
      ensures old(Fits(handle)) && r.Some? && r.value.Ok? ==> Over(kernel.world, View(), handle.id)
      ensures r.None? ==>
        && Pursued(w0, b0, w1, handle.id, named) && clock.now >= deadline
        && (handle.id in adopted <==> handle.id in old(adopted))
      ensures Left(old(kernel.world), named) ==> Left(kernel.world, named)
      ensures old(clock.ticks) <= clock.ticks
    {
      hide Coherent, Steps, KeepsChildren, Sound, Polled, Issued, Settled, Moved, Aimed, Present, Left, Rounds, AskedAt,
        SomeCallFailed, PidReused, Hindered;
      var id := handle.id;
      ghost var moments: seq<int> := [];
      NotAskedYet(asked, handle);
      NoRounds(POLL_INTERVAL);
      var now := clock.Read();
      while now < deadline
        invariant Valid() && Pursued(w0, b0, w1, id, named) && mine == old(mine)
        invariant id in adopted <==> id in old(adopted)
        invariant old(Fits(handle)) ==> Fits(handle)
        invariant kernel.world.signals == old(kernel.world).signals && OnlyAbout(old(asked), asked, handle)
        invariant Left(old(kernel.world), named) ==> Left(kernel.world, named)
        invariant old(clock.now) <= now == clock.now && old(clock.ticks) <= clock.ticks
        invariant clock.ticks == old(clock.ticks) + Rounds(moments, POLL_INTERVAL) + [Look(now)]
        invariant AskedAt(old(asked), asked, handle, moments) && forall t | t in moments :: t < deadline
        decreases deadline - now
      {
        ghost var w, b, before := kernel.world, View(), asked;
        var polled := Status(handle);
        MovedPoll(w0, b0, w, b, kernel.world, View(), id);
        AimedPoll(w0, w, b, kernel.world, View(), id);
        LeftStays(w, b, kernel.world, View(), id, named);
        FaultsSince(w0, b0, w, b, kernel.world, handle.id);
        if polled.Err? {
          return Some(Err(polled.error));
        }
        if !polled.value.state.Alive? {
          OverByAnswer(kernel.world, View(), handle, polled);
          return Some(Ok(Unit.Unit));
        }
        AskedAtNext(old(asked), before, handle, moments, Asked(handle, polled, now));
        SeenAgain(w0, w1, w, b, kernel.world, View(), handle);
        RoundsNext(moments, now, POLL_INTERVAL);
        moments := moments + [now];
        clock.Sleep(POLL_INTERVAL);
        now := clock.Read();
      }
      assert Outlasted(old(clock.ticks), clock.ticks, old(asked), asked, handle, deadline);
      r := None;
    }

    /** After SIGKILL an adopted process is waited for by polling, and a child by waiting. */
    method Finish(handle: ProcessHandle, timeout: nat, isAdopted: bool, ghost w0: World, ghost b0: Books,
        ghost w1: World, ghost named: nat) returns (r: Result<Unit, Fault>)
      requires Valid() && Pursued(w0, b0, w1, handle.id, named) && (handle.id in adopted) == isAdopted
      modifies this`finished, this`adopted, this`mine, this`found, kernel`world, clock
      ensures Valid() && Moved(w0, b0, kernel.world, View()) && Aimed(w0, kernel.world, handle.id, named)
      ensures kernel.world.signals == old(kernel.world).signals && clock.now >= old(clock.now)
      ensures old(Fits(handle)) ==>
        Fits(handle) && mine == old(mine) && (r.Ok? ==> Over(kernel.world, View(), handle.id))
      ensures r.Err? ==>
        || Hindered(w0, kernel.world, handle.id)
        || (r.error == StillAlive && WatchedInVain(clock.ticks, found, timeout))
      ensures old(clock.ticks) <= clock.ticks
    {
      hide Coherent, Steps, KeepsChildren, Sound, Polled, Issued, Settled, Moved, Aimed, Present;
      ghost var w, b := kernel.world, View();
      if isAdopted {
        r := Settle(handle, timeout);
      } else {
        var reaped := Reap(handle);
        r := if reaped.Err? then Err(reaped.error) else Ok(Unit.Unit);
      }
      FaultsSince(w0, b0, w, b, kernel.world, handle.id);
      MovedPoll(w0, b0, w, b, kernel.world, View(), handle.id);
      AimedPoll(w0, w, b, kernel.world, View(), handle.id);
    }

    lemma SoundWhilePursued(w0: World, b0: Books, w1: World, id: int, named: nat)
      requires Valid() && Pursued(w0, b0, w1, id, named)
      ensures Sound(w1) && Steps(w0, w1) && Steps(w1, kernel.world) && Sound(kernel.world)
      ensures id in w1.table && w1.table[id].instance == named
    {
    }

    lemma MovedWhilePursued(w0: World, b0: Books, w1: World, id: int, named: nat)
      requires Valid() && Pursued(w0, b0, w1, id, named)
      ensures Moved(w0, b0, kernel.world, View()) && Aimed(w0, kernel.world, id, named)
    {
    }

    /** The process seen at the pid is being stopped, and nobody else was hit. */
    ghost predicate Pursued(w0: World, b0: Books, w1: World, id: int, named: nat)
      reads this`finished, this`adopted, this`mine, kernel`world
    {
      && Moved(w0, b0, kernel.world, View()) && Seen(w0, w1, kernel.world, id)
      && id in w1.table && w1.table[id].instance == named
      && Aimed(w0, kernel.world, id, named)
      && id in mine && id !in finished
    }

    /** One kill(2): `false` when it fails for another reason than that nobody is there. */
    method SendSignal(handle: ProcessHandle, kind: SignalKind, ghost w0: World, ghost b0: Books,
        ghost w1: World, ghost named: nat) returns (sent: bool)
      requires Valid() && Pursued(w0, b0, w1, handle.id, named)
      modifies kernel`world
      ensures Valid() && Pursued(w0, b0, w1, handle.id, named)
      ensures old(Fits(handle)) ==> Fits(handle)
      ensures var n := |old(kernel.world).signals|;
        && old(kernel.world).signals <= kernel.world.signals && |kernel.world.signals| <= n + 1
        && Steps(old(kernel.world), kernel.world)
        && (|kernel.world.signals| > n ==>
              kernel.world.signals[n].kind == kind && kernel.world.signals[n].at == clock.now)
        && Signalled(old(kernel.world), kernel.world, handle.id, kind, clock.now, |kernel.world.signals| > n)
        && (sent && |kernel.world.signals| == n ==> handle.id !in kernel.world.table)
      ensures !sent ==> Hindered(w0, kernel.world, handle.id)
    {
      hide Coherent, KeepsChildren, Sound, Polled, Issued, Aimed, Present;
      ghost var w := kernel.world;
      var killed := kernel.Kill(handle.id, kind, clock);
      SignalKeeps(w0, w1, w, kernel.world, View(), handle.id, kind, clock.now, killed.Delivered?);
      AimedSignal(w0, w1, w, kernel.world, handle.id, named, kind, clock.now, killed.Delivered?);
      FitsStays(w, kernel.world, View(), View(), handle);
      sent := !killed.Refused?;
    }

    /** Waits for an adopted process to disappear after SIGKILL. */
    method Settle(handle: ProcessHandle, timeout: nat) returns (r: Result<Unit, Fault>)
      requires Valid() && handle.id in adopted
      modifies this`finished, this`adopted, this`mine, this`found, kernel`world, clock
      ensures Valid() && Polled(old(kernel.world), old(View()), kernel.world, View(), handle.id)
      ensures old(Fits(handle)) ==> Fits(handle) && mine == old(mine)
      ensures r.Ok? ==> Over(kernel.world, View(), handle.id)
      ensures clock.now >= old(clock.now)
      ensures r.Err? ==>
        || Hindered(old(kernel.world), kernel.world, handle.id)
        || (r.error == StillAlive && WatchedInVain(clock.ticks, found, timeout))
      ensures old(clock.ticks) <= clock.ticks
    {
      hide Coherent, Steps, KeepsChildren, Sound, Issued, Present, Hindered, Polled, Means, Over, Looping,
        WatchedInVain, PosixProcessSupervisor.Fits;
      ghost var moments: seq<int> := [];
      var started := clock.Read();
      ghost var ticks := clock.ticks;
      var deadline := started + timeout;
      var now := clock.Read();
      LoopingFirst(ticks, started, deadline, now);
      QuietSelf(kernel.world, View());
      PolledQuiet(kernel.world, kernel.world, View(), handle.id);
      ghost var w0, b0 := kernel.world, View();
      while now < deadline
        invariant Valid() && handle.id in adopted && mine == old(mine)
        invariant old(Fits(handle)) ==> Fits(handle)
        invariant Polled(w0, b0, kernel.world, View(), handle.id)
        invariant old(clock.now) <= started <= now == clock.now
        invariant Looping(ticks, clock.ticks, moments, started, deadline, now) && found == old(found) + moments
        decreases deadline - now
      {
        LoopingOn(ticks, clock.ticks, moments, started, deadline, now);
        var polled := AskAgain(handle, w0, b0);
        if polled.Err? {
          return Err(polled.error);
        }
        if !polled.value.state.Alive? {
          return Ok(Unit.Unit);
        }
        ghost var before, looked := clock.ticks, now;
        clock.Sleep(POLL_INTERVAL);
        now := clock.Read();
        LoopingNext(ticks, before, moments, started, deadline, looked, now);
        moments := moments + [looked];
      }
      LoopingEnds(ticks, clock.ticks, old(found), found, moments, started, timeout, now);
      r := Err(StillAlive);
    }

    /** One more question about an adopted process since `w0`. */
    method AskAgain(handle: ProcessHandle, ghost w0: World, ghost b0: Books) returns (r: Result<ProcessStatus, Fault>)
      requires Valid() && handle.id in adopted && Sound(w0) && Polled(w0, b0, kernel.world, View(), handle.id)
      modifies this`finished, this`adopted, this`mine, this`found, kernel`world
      ensures Valid() && Polled(w0, b0, kernel.world, View(), handle.id)
      ensures old(Fits(handle)) ==> Fits(handle) && mine == old(mine)
      ensures r.Err? ==> Hindered(w0, kernel.world, handle.id)
      ensures r.Ok? && r.value.state.Alive? ==>
        handle.id in adopted && mine == old(mine) && found == old(found) + [clock.now]
      ensures r.Ok? && !r.value.state.Alive? ==> Over(kernel.world, View(), handle.id)
    {
      hide Coherent, Steps, KeepsChildren, Sound, Issued, Present, Hindered, Polled;
      ghost var w, b := kernel.world, View();
      r := AdoptedStatus(handle);
      PolledTransitive(w0, b0, w, b, kernel.world, View(), handle.id);
      PolledFaults(w0, b0, w, b, kernel.world, handle.id);
      AimedPoll(w, w, b, kernel.world, View(), handle.id);
      if r.Ok? && r.value.state.Alive? { StillAdopted(kernel.world, View(), b, handle, r); }
      if r.Ok? && !r.value.state.Alive? { OverByAnswer(kernel.world, View(), handle, r); }
    }

    /** Waits for a child, however long it takes, and caches how it ended. */
    method Reap(handle: ProcessHandle) returns (r: Result<ProcessStatus, Fault>)
      requires Valid() && handle.id !in finished && handle.id !in adopted && handle.id in mine
      modifies this`finished, kernel`world
      ensures Valid() && Polled(old(kernel.world), old(View()), kernel.world, View(), handle.id)
      ensures old(Fits(handle)) ==> Fits(handle)
      ensures r.Ok? ==> handle.id in finished && finished[handle.id] == r.value && Over(kernel.world, View(), handle.id)
      ensures r.Err? ==> Hindered(old(kernel.world), kernel.world, handle.id)
    {
      hide Coherent, Steps, KeepsChildren, Sound, Polled, Issued, Present;
      var waited := kernel.WaitBlocking(handle.id);
      if waited.Reaped? {
        var status := ToStatus(waited.status);
        PolledReap(old(kernel.world), kernel.world, View(), handle, waited.status);
        finished := finished[handle.id := status];
        FitsStays(old(kernel.world), kernel.world, old(View()), View(), handle);
        assert adopted - {handle.id} == adopted;
        return Ok(status);
      }
      QuietPoll(old(kernel.world), old(kernel.world), kernel.world, View(), handle);
      ChildStays(kernel.world, View(), handle.id);
      r := if waited.NoChild? then Ok(UNKNOWN) else Err(SystemError);
    }
  }

  // ---------------------------------------------------------------- what whole calls change

  /** A stop: nothing is started, nothing new is tracked, cached answers stay. */
  ghost predicate Moved(w: World, b: Books, w': World, b': Books) {
    && Steps(w, w')
    && b'.mine.Keys <= b.mine.Keys && (forall i | i in b'.mine :: b'.mine[i] == b.mine[i])
    && b.finished.Keys <= b'.finished.Keys
    && (forall i | i in b.finished :: b'.finished[i] == b.finished[i])
    && b'.adopted <= b.adopted
  }

  /** A stop through a fitting handle: what was tracked stays tracked as well. */
  ghost predicate Settled(w: World, b: Books, w': World, b': Books) {
    Moved(w, b, w', b') && b'.mine == b.mine
  }

  /** `w1` is where the process was last seen alive under its pid since `w0`. */
  ghost predicate Seen(w0: World, w1: World, w: World, id: int) {
    && Sound(w0) && Sound(w1) && Steps(w0, w1) && Steps(w1, w) && Steps(w0, w)
    && (OwnChild(w0, id) ==> OwnChild(w, id))
  }

  lemma CoherentSound(w: World, b: Books)
    requires Coherent(w, b)
    ensures Sound(w)
  {
  }

  lemma QuietSelf(w: World, b: Books)
    requires Coherent(w, b)
    ensures Quiet(w, w)
  {
  }

  lemma NoChildStays(w: World, w': World, id: int)
    requires Quiet(w, w') && !OwnChild(w, id)
    ensures !OwnChild(w', id)
  {
  }

  lemma FitsStays(w: World, w': World, b: Books, b': Books, handle: ProcessHandle)
    requires Coherent(w, b) && Steps(w, w') && b'.adopted <= b.adopted
    requires b'.mine == b.mine || handle.id !in b'.adopted
    ensures Issued(w, b, handle) ==> Issued(w', b', handle)
  {
  }

  lemma MovedSelf(w: World, b: Books, id: int)
    requires Coherent(w, b)
    ensures Moved(w, b, w, b)
    ensures forall named: nat :: Aimed(w, w, id, named)
  {
  }

  lemma SettledSelf(w: World, b: Books, id: int)
    requires Coherent(w, b)
    ensures Settled(w, b, w, b)
    ensures id in b.mine ==> Aimed(w, w, id, b.mine[id])
  {
  }

  lemma MovedPoll(w0: World, b0: Books, w: World, b: Books, w': World, b': Books, id: int)
    requires Moved(w0, b0, w, b) && Polled(w, b, w', b', id)
    ensures Moved(w0, b0, w', b')
  {
    StepsTransitive(w0, w, w');
  }

  lemma SettledPoll(w0: World, b0: Books, w: World, b: Books, w': World, b': Books, id: int)
    requires Settled(w0, b0, w, b) && Polled(w, b, w', b', id) && b'.mine == b.mine
    ensures Settled(w0, b0, w', b')
  {
    MovedPoll(w0, b0, w, b, w', b', id);
  }

  lemma AimedPoll(w0: World, w: World, b: Books, w': World, b': Books, id: int)
    requires Polled(w, b, w', b', id)
    ensures w'.signals == w.signals
    ensures id !in b'.finished ==> b'.mine == b.mine && (id in b'.adopted <==> id in b.adopted)
    ensures forall named: nat :: Aimed(w0, w, id, named) ==> Aimed(w0, w', id, named)
  {
  }

  lemma NobodyHit(w0: World, w: World, id: int, named: nat)
    requires w.signals == w0.signals
    ensures Aimed(w0, w, id, named)
  {
  }

  lemma OverByAnswer(w: World, b: Books, handle: ProcessHandle, r: Result<ProcessStatus, Fault>)
    requires Means(w, b, handle, r) && r.Ok? && !r.value.state.Alive?
    ensures Over(w, b, handle.id)
  {
  }

  lemma StillAdopted(w: World, b: Books, b0: Books, handle: ProcessHandle, r: Result<ProcessStatus, Fault>)
    requires Means(w, b, handle, r) && r.Ok? && r.value.state.Alive?
    ensures handle.id !in b.finished
  {
  }

  lemma SeenAlive(w0: World, b0: Books, w1: World, b1: Books, handle: ProcessHandle)
    requires Coherent(w0, b0) && Coherent(w1, b1) && Polled(w0, b0, w1, b1, handle.id)
    requires Means(w1, b1, handle, Ok(ALIVE))
    ensures Seen(w0, w1, w1, handle.id) && handle.id in b1.mine && handle.id !in b1.finished
    ensures b1.mine == b0.mine && (!OwnChild(w0, handle.id) ==> handle.id in b0.adopted)
    ensures OwnChild(w0, handle.id) ==> w1.table[handle.id].instance in w0.births
    ensures var named := w1.table[handle.id].instance;
      && named in w1.births
      && (named in w0.births ==> handle.id in w0.table && w0.table[handle.id].instance == named)
      && (Issued(w1, b1, handle) ==> named == b1.mine[handle.id])
  {
    if Issued(w1, b1, handle) { AliveIsMine(w1, b1, handle); }
  }

  lemma SeenAgain(w0: World, w1: World, w: World, b: Books, w': World, b': Books, handle: ProcessHandle)
    requires Coherent(w, b) && Seen(w0, w1, w, handle.id) && Polled(w, b, w', b', handle.id) && Coherent(w', b')
    requires Means(w', b', handle, Ok(ALIVE))
    ensures Seen(w0, w1, w', handle.id) && handle.id in b'.mine && handle.id !in b'.finished
  {
    StepsTransitive(w1, w, w');
    StepsTransitive(w0, w, w');
  }

  /** Several quiet system calls in a row are one quiet poll. */
  lemma QuietPoll(w0: World, w: World, w': World, b: Books, handle: ProcessHandle)
    requires Coherent(w0, b) && (w == w0 || Quiet(w0, w)) && Quiet(w, w')
    ensures Sound(w') && Quiet(w0, w') && Coherent(w', b) && Polled(w0, b, w', b, handle.id)
    ensures Issued(w0, b, handle) <==> Issued(w', b, handle)
  {
    if w != w0 {
      QuietTransitive(w0, w, w');
    }
    PolledQuiet(w0, w', b, handle.id);
  }

  /** A start that has been followed by other moves. A start token that could not be read is 0. */
  ghost predicate Begun(w: World, w': World, handle: ProcessHandle, instance: nat, launch: Launch) {
    && Sound(w')
    && handle.id > 1 && OwnChild(w', handle.id) && w'.table[handle.id].instance == instance
    && instance !in w.births && instance in w'.births && w'.births[instance].pid == handle.id
    && (handle.startToken != 0 ==> w'.births[instance].token == handle.startToken)
    && (forall i | i in w.births :: i in w'.births && w'.births[i] == w.births[i])
    && (forall p | p in w'.table && p != handle.id && w'.table[p].instance in w.births ::
          p in w.table && Later(w.table[p], w'.table[p]))
    && w'.launched == w.launched[instance := launch]
    && w'.signals == w.signals
    && w'.tokenFaults >= w.tokenFaults && w'.callFaults >= w.callFaults && w'.ended == w.ended
    && (NoService(w) ==> w'.peak <= Max(w.peak, 1))
    && (Survives(w, w') ==> w'.peak >= 2)
  }

  lemma SurvivedEarlier(w: World, w1: World, w': World)
    requires Sound(w1) && Steps(w1, w') && w.births.Keys <= w1.births.Keys && w.launched.Keys <= w.births.Keys
    ensures Survives(w, w') ==> Survives(w, w1)
  {
    if i :| i in Live(w) && i in Live(w') {
      var p :| p in w'.table && w'.table[p].life.Running? && w'.table[p].instance == i;
      assert Later(w1.table[p], w'.table[p]);
      assert i in Live(w1);
    }
  }

  lemma BegunAfter(w: World, w1: World, w': World, handle: ProcessHandle, instance: nat, launch: Launch)
    requires Sound(w) && Spawned(w, w1, handle.id, instance, launch) && Quiet(w1, w')
    requires handle.startToken != 0 ==> HasToken(w', handle.id, handle.startToken)
    ensures Begun(w, w', handle, instance, launch)
  {
    SurvivedEarlier(w, w1, w');
    forall p | p in w'.table && p != handle.id && w'.table[p].instance in w.births
      ensures p in w.table && Later(w.table[p], w'.table[p])
    {
      assert Later(w1.table[p], w'.table[p]);
    }
  }

  /** No process with the handle's pid and start token is left. */
  ghost predicate NoLonger(w: World, handle: ProcessHandle) {
    forall i | i in w.births && w.births[i] == Birth(handle.id, handle.startToken) :: !Present(w, i)
  }
}
