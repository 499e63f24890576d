/** Whole runs of the supervisor: any calls in any order, through any handle it ever gave out, with the
    rest of the machine moving freely. */
module SupervisorRuns {
  import opened Prelude
  import opened ProcessTable
  import opened ProcessSupervisor

  /** Status and stop name a handle by its place among those given out so far. */
  datatype Call =
    | StartCall(launch: Launch)
    | AdoptCall(handle: ProcessHandle)
    | StatusCall(which: nat)
    | StopCall(which: nat, timeout: nat)

  /** What a call returned. */
  datatype Event =
    | Started(start: Result<ProcessHandle, Fault>)
    | Taken(adoption: Result<ProcessHandle, Fault>)
    | Answered(handle: ProcessHandle, answer: Result<ProcessStatus, Fault>)
    | Stopped(stop: Result<Unit, Fault>)
    | NoSuchHandle

  /** The handle that an event gave out. */
  function GivenBy(e: Event): (r: Option<ProcessHandle>) {
    match e
    case Started(Ok(handle)) => Some(handle)
    case Taken(Ok(handle)) => Some(handle)
    case _ => None
  }

  // ---------------------------------------------------------------- answers

  /** The process of that pid was said to be over. */
  predicate IsOver(e: Event, id: int) {
    && e.Answered? && e.handle.id == id && e.answer.Ok?
    && (e.answer.value.state.Exited? || e.answer.value.state.Signaled?)
  }

  predicate Restarts(e: Event, id: int) {
    GivenBy(e).Some? && GivenBy(e).value.id == id
  }

  ghost predicate NoRestart(log: seq<Event>, from: nat, to: nat, id: int)
    requires to <= |log|
  {
    forall k | from <= k < to :: !Restarts(log[k], id)
  }

  /** What an answer of the past still says about the cache. */
  ghost predicate Remembered(log: seq<Event>, finished: Cache) {
    forall i | 0 <= i < |log| && log[i].Answered? && IsOver(log[i], log[i].handle.id)
      && NoRestart(log, i, |log|, log[i].handle.id) :: Holds(finished, log[i])
  }

  predicate Holds(finished: Cache, e: Event)
    requires e.Answered?
  {
    e.handle.id > 0 && e.handle.id in finished && e.answer == Ok(finished[e.handle.id])
  }

  /** Once a process has been answered Exited or Signaled, every answer about its pid is the same until that
      pid is started or adopted again. */
  ghost predicate AnswersStay(log: seq<Event>) {
    forall i, j | 0 <= i < j < |log| && log[i].Answered? && log[j].Answered? && log[j].handle.id == log[i].handle.id
      && IsOver(log[i], log[i].handle.id) && NoRestart(log, i, j, log[i].handle.id) ::
      log[j].answer == log[i].answer
  }

  /** The cache after one call whose outcome was `e`. */
  ghost predicate CacheAfter(e: Event, finished: Cache, finished': Cache) {
    && (forall id | id in finished && !Restarts(e, id) :: id in finished' && finished'[id] == finished[id])
    && (e.Answered? && e.handle.id > 0 && e.handle.id in finished ==> e.answer == Ok(finished[e.handle.id]))
    && (e.Answered? && IsOver(e, e.handle.id) ==> Holds(finished', e))
  }

  lemma RememberNext(log: seq<Event>, e: Event, finished: Cache, finished': Cache)
    requires Remembered(log, finished) && AnswersStay(log)
    requires CacheAfter(e, finished, finished')
    ensures Remembered(log + [e], finished') && AnswersStay(log + [e])
  {
    var log' := log + [e];
    forall i | 0 <= i < |log| && log[i].Answered? && IsOver(log[i], log[i].handle.id)
      && NoRestart(log', i, |log'|, log[i].handle.id)
      ensures Holds(finished', log[i])
    {
      assert forall k | i <= k < |log| :: log'[k] == log[k];
      assert NoRestart(log, i, |log|, log[i].handle.id);
      assert log'[|log|] == e;
    }
    forall i, j | 0 <= i < j < |log'| && log'[i].Answered? && log'[j].Answered?
      && log'[j].handle.id == log'[i].handle.id
      && IsOver(log'[i], log'[i].handle.id) && NoRestart(log', i, j, log'[i].handle.id)
      ensures log'[j].answer == log'[i].answer
    {
      assert forall k | i <= k < j :: log'[k] == log[k];
      assert NoRestart(log, i, j, log[i].handle.id);
    }
  }

  lemma AnswerIsCached(w: World, b: Books, handle: ProcessHandle, r: Result<ProcessStatus, Fault>)
    requires Means(w, b, handle, r) && r.Ok? && !r.value.state.Alive?
    ensures r.value.state.Exited? || r.value.state.Signaled? ==>
      handle.id in b.finished && b.finished[handle.id] == r.value
  {
  }

  // ---------------------------------------------------------------- handles and the processes they are for

  /** Every handle given out, in order, the process it was given out for, and whether by an adoption. */
  datatype Ledger = Ledger(handles: seq<ProcessHandle>, origins: seq<nat>, adoptions: seq<bool>)

  ghost predicate Even(l: Ledger) {
    |l.handles| == |l.origins| == |l.adoptions|
  }

  /** No later start or adoption gave the handle's pid to another process. */
  ghost predicate Latest(l: Ledger, j: nat, n: nat)
    requires Even(l) && j < n <= |l.handles|
  {
    forall k | j < k < n && l.handles[k].id == l.handles[j].id :: l.origins[k] == l.origins[j]
  }

  /** The last of the first `n` handles for this pid came from an adoption. */
  ghost predicate LastAdopted(l: Ledger, p: int, n: nat)
    requires Even(l) && n <= |l.handles|
  {
    exists k :: 0 <= k < n && l.handles[k].id == p && l.adoptions[k] && NotAgain(l, p, k, n)
  }

  ghost predicate NotAgain(l: Ledger, p: int, k: nat, n: nat)
    requires n <= |l.handles|
  {
    forall m | k < m < n :: l.handles[m].id != p
  }

  /** What is tracked at a pid is what its last handle was given out for; a process whose pid was given
      to another one is over; an adopted pid is held by its process or by a newcomer of this run. */
  ghost predicate Kept(w0: World, w: World, b: Books, l: Ledger) {
    && Even(l) && w0.births.Keys <= w.births.Keys
    && (forall j | 0 <= j < |l.handles| :: HandleKept(w, b, l, j))
    && (forall p | p in b.mine :: b.mine[p] in l.origins)
    && (forall p | p in b.adopted :: AdoptedKept(w0, w, b, p) && LastAdopted(l, p, |l.handles|))
  }

  ghost predicate HandleKept(w: World, b: Books, l: Ledger, j: nat)
    requires Even(l) && j < |l.handles|
  {
    && l.origins[j] in w.births && w.births[l.origins[j]].pid == l.handles[j].id
    && (if Latest(l, j, |l.handles|)
        then l.handles[j].id in b.mine ==> b.mine[l.handles[j].id] == l.origins[j]
        else !Present(w, l.origins[j]))
  }

  ghost predicate AdoptedKept(w0: World, w: World, b: Books, p: int) {
    p in w.table && p in b.mine ==> w.table[p].instance == b.mine[p] || w.table[p].instance !in w0.births
  }

  lemma KeptStays(w0: World, w: World, b: Books, w': World, b': Books, l: Ledger)
    requires Coherent(w, b) && Kept(w0, w, b, l) && Moved(w, b, w', b')
    ensures Kept(w0, w', b', l)
  {
    hide Coherent, LastAdopted;
    forall j | 0 <= j < |l.handles| ensures HandleKept(w', b', l, j) {
      assert HandleKept(w, b, l, j);
    }
    forall p | p in b'.adopted ensures AdoptedKept(w0, w', b', p) {
      assert AdoptedKept(w0, w, b, p);
    }
  }

  function Given(l: Ledger, handle: ProcessHandle, origin: nat, adoption: bool): Ledger {
    Ledger(l.handles + [handle], l.origins + [origin], l.adoptions + [adoption])
  }

  /** The ledger only grew. */
  ghost predicate Extends(l: Ledger, l': Ledger) {
    Even(l) && Even(l') && l.handles <= l'.handles && l.origins <= l'.origins && l.adoptions <= l'.adoptions
  }

  lemma LatestThen(l: Ledger, handle: ProcessHandle, origin: nat, adoption: bool, j: nat)
    requires Even(l) && j < |l.handles|
    ensures var l' := Given(l, handle, origin, adoption);
      Latest(l', j, |l'.handles|) <==>
        Latest(l, j, |l.handles|) && (handle.id == l.handles[j].id ==> origin == l.origins[j])
  {
    var l' := Given(l, handle, origin, adoption);
    assert forall k | 0 <= k < |l.handles| :: l'.handles[k] == l.handles[k] && l'.origins[k] == l.origins[k];
    assert l'.handles[|l.handles|] == handle && l'.origins[|l.handles|] == origin;
  }

  lemma LatestExtends(l: Ledger, l': Ledger, j: nat, n: nat)
    requires Extends(l, l') && j < n <= |l.handles|
    ensures Latest(l', j, n) <==> Latest(l, j, n)
  {
    assert forall k | 0 <= k < n :: l'.handles[k] == l.handles[k] && l'.origins[k] == l.origins[k];
  }

  lemma AdoptedExtends(l: Ledger, l': Ledger, p: int, n: nat)
    requires Extends(l, l') && n <= |l.handles| && LastAdopted(l, p, n)
    ensures LastAdopted(l', p, n)
  {
    var k :| 0 <= k < n && l.handles[k].id == p && l.adoptions[k] && NotAgain(l, p, k, n);
    assert forall m | 0 <= m < n :: l'.handles[m] == l.handles[m];
    assert NotAgain(l', p, k, n);
  }

  /** Another handle leaves the last adoption of other pids the last one. */
  lemma AdoptedThen(l: Ledger, handle: ProcessHandle, origin: nat, adoption: bool, p: int)
    requires Even(l) && if p == handle.id then adoption else LastAdopted(l, p, |l.handles|)
    ensures var l' := Given(l, handle, origin, adoption); LastAdopted(l', p, |l'.handles|)
  {
    var l', n := Given(l, handle, origin, adoption), |l.handles|;
    if p == handle.id {
      assert l'.handles[n].id == p && l'.adoptions[n] && NotAgain(l', p, n, n + 1);
    } else {
      var k :| 0 <= k < n && l.handles[k].id == p && l.adoptions[k] && NotAgain(l, p, k, n);
      assert l'.handles[k].id == p && l'.adoptions[k] && NotAgain(l', p, k, n + 1);
    }
  }

  /** One more handle: its process holds the pid, so every other process of that pid is over. */
  lemma KeptGiven(w0: World, w: World, b: Books, l: Ledger, w': World, b': Books, handle: ProcessHandle, origin: nat,
      adoption: bool)
    requires Kept(w0, w, b, l) && Sound(w') && w.births.Keys <= w'.births.Keys
    requires forall i | i in w.births :: w'.births[i] == w.births[i]
    requires origin in w'.births && w'.births[origin].pid == handle.id
    requires b'.mine == b.mine[handle.id := origin] && b'.adopted <= b.adopted + {handle.id}
    requires handle.id in b'.adopted ==> adoption
    requires forall i | i in w.births && Present(w', i) ::
      Present(w, i) && (w.births[i].pid == handle.id ==> i == origin)
    requires forall p | p in b.adopted && p != handle.id && p in w'.table ::
      w'.table[p].instance !in w.births || (p in w.table && w.table[p].instance == w'.table[p].instance)
    requires handle.id in w'.table ==>
      w'.table[handle.id].instance == origin || w'.table[handle.id].instance !in w.births
    ensures Kept(w0, w', b', Given(l, handle, origin, adoption))
  {
    hide LastAdopted;
    var l' := Given(l, handle, origin, adoption);
    assert l'.origins[|l.handles|] == origin && l'.handles[|l.handles|] == handle;
    forall j | 0 <= j < |l'.handles| ensures HandleKept(w', b', l', j) {
      if j < |l.handles| {
        assert HandleKept(w, b, l, j);
        LatestThen(l, handle, origin, adoption, j);
        assert l'.handles[j] == l.handles[j] && l'.origins[j] == l.origins[j];
      }
    }
    forall p | p in b'.mine ensures b'.mine[p] in l'.origins {
      if p != handle.id { assert b.mine[p] in l.origins; }
    }
    forall p | p in b'.adopted ensures AdoptedKept(w0, w', b', p) && LastAdopted(l', p, |l'.handles|) {
      if p != handle.id { assert AdoptedKept(w0, w, b, p); }
      AdoptedThen(l, handle, origin, adoption, p);
    }
  }

  // ---------------------------------------------------------------- turns

  /** One call and what it returned, the number of handles given out before it, the world and the books
      before and after it, and what the supervisor was asked meanwhile. */
  datatype Turn = Turn(call: Call, event: Event, issued: nat, w: World, b: Books, w': World, b': Books,
      asked: seq<Asked>)

  /** The signals of a call. */
  function Sent(t: Turn): (r: seq<Signal>) {
    if |t.w.signals| <= |t.w'.signals| then t.w'.signals[|t.w.signals|..] else []
  }

  /** It came to an adopted pid during the run. */
  predicate Newcomer(s: Signal, adopted: set<int>, born: set<nat>) {
    s.pid in adopted && s.hit.Some? && s.hit.value !in born
  }

  /** What a call did is what its event says. */
  ghost predicate TurnRight(t: Turn, l: Ledger, born: set<nat>) {
    && Even(l) && t.issued + (if GivenBy(t.event).Some? then 1 else 0) <= |l.handles|
    && t.w.signals <= t.w'.signals
    && (forall p | p in t.b.adopted :: LastAdopted(l, p, t.issued))
    && CallRight(t, l, born)
  }

  ghost predicate CallRight(t: Turn, l: Ledger, born: set<nat>)
    requires Even(l) && t.issued + (if GivenBy(t.event).Some? then 1 else 0) <= |l.handles|
  {
    match t.call
    case StartCall(launch) => StartRight(t, l, launch)
    case AdoptCall(handle) => AdoptRight(t, l, handle)
    case StatusCall(which) => StatusRight(t, l, which)
    case StopCall(which, _) => StopRight(t, l, which, born)
  }

  /** A start gives out a handle for the child it started. */
  ghost predicate StartRight(t: Turn, l: Ledger, launch: Launch)
    requires Even(l) && t.issued + (if GivenBy(t.event).Some? then 1 else 0) <= |l.handles|
  {
    && t.event.Started? && t.asked == [] && t.w'.signals == t.w.signals
    && (t.event.start.Err? ==> launch.executable == "" || SomeCallFailed(t.w, t.w'))
    && (t.event.start.Ok? ==>
          && l.handles[t.issued] == t.event.start.value && !l.adoptions[t.issued]
          && Begun(t.w, t.w', t.event.start.value, l.origins[t.issued], launch))
  }

  /** An adoption gives out the handle it was asked for, for the process with that pid and start token. */
  ghost predicate AdoptRight(t: Turn, l: Ledger, handle: ProcessHandle)
    requires Even(l) && t.issued + (if GivenBy(t.event).Some? then 1 else 0) <= |l.handles|
  {
    && t.event.Taken? && t.asked == [] && t.w'.signals == t.w.signals
    && (t.event.adoption.Err? ==>
          || handle.id <= 1 || handle.startToken == 0 || SomeCallFailed(t.w, t.w') || NoLonger(t.w', handle))
    && (t.event.adoption.Ok? ==>
          && t.event.adoption.value == handle && l.handles[t.issued] == handle && l.adoptions[t.issued]
          && handle.startToken != 0
          && l.origins[t.issued] in t.w'.births
          && t.w'.births[l.origins[t.issued]] == Birth(handle.id, handle.startToken)
          && (l.origins[t.issued] in t.w.births ==> Present(t.w, l.origins[t.issued])))
  }

  /** An answer is the supervisor's answer about the handle that was meant, and it is true. */
  ghost predicate StatusRight(t: Turn, l: Ledger, which: nat)
    requires Even(l) && t.issued <= |l.handles|
  {
    && t.w'.signals == t.w.signals
    && if which < t.issued
       then
         && t.event.Answered? && t.event.handle == l.handles[which]
         && |t.asked| == 1 && t.asked[0].handle == l.handles[which] && t.asked[0].answer == t.event.answer
         && Means(t.w', t.b', l.handles[which], t.event.answer)
         && (t.event.answer.Err? ==> l.handles[which].id <= 0 || Hindered(t.w, t.w', l.handles[which].id))
       else t.event == NoSuchHandle && t.asked == []
  }

  /** Whom the signals of a stop reached: the process its handle was given out for, if no later start or
      adoption gave the pid to another process, and otherwise anybody but that one. */
  ghost predicate StopRight(t: Turn, l: Ledger, which: nat, born: set<nat>)
    requires Even(l) && t.issued <= |l.handles|
  {
    if which < t.issued
    then
      && t.event.Stopped? && OnlyAbout([], t.asked, l.handles[which])
      && (t.event.stop.Err? ==>
            || l.handles[which].id <= 0 || Hindered(t.w, t.w', l.handles[which].id) || t.event.stop.error == StillAlive)
      && forall s | s in Sent(t) :: HitRight(s, l, which, t.issued, t.b.adopted, born)
    else t.event == NoSuchHandle && t.asked == [] && t.w'.signals == t.w.signals
  }

  ghost predicate HitRight(s: Signal, l: Ledger, which: nat, issued: nat, adopted: set<int>, born: set<nat>)
    requires Even(l) && which < issued <= |l.handles|
  {
    && s.pid == l.handles[which].id && s.hit.Some?
    && (s.hit.value in l.origins[..issued] || Newcomer(s, adopted, born))
    && (if Latest(l, which, issued)
        then s.hit.value == l.origins[which] || Newcomer(s, adopted, born)
        else s.hit.value != l.origins[which])
  }

  lemma TurnRightLater(t: Turn, l: Ledger, l': Ledger, born: set<nat>)
    requires TurnRight(t, l, born) && Extends(l, l')
    ensures TurnRight(t, l', born)
  {
    hide Begun, Means, LastAdopted, Latest;
    forall p | p in t.b.adopted ensures LastAdopted(l', p, t.issued) {
      AdoptedExtends(l, l', p, t.issued);
    }
    if t.issued < |l.handles| {
      assert l'.handles[t.issued] == l.handles[t.issued] && l'.origins[t.issued] == l.origins[t.issued];
      assert l'.adoptions[t.issued] == l.adoptions[t.issued];
    }
    if (t.call.StatusCall? || t.call.StopCall?) && t.call.which < t.issued {
      assert l'.handles[t.call.which] == l.handles[t.call.which];
      assert l'.origins[t.call.which] == l.origins[t.call.which];
      assert l'.origins[..t.issued] == l.origins[..t.issued];
      LatestExtends(l, l', t.call.which, t.issued);
    }
  }

  /** What one stop says about its signals. */
  lemma StopHits(w0: World, w: World, b: Books, w': World, l: Ledger, which: nat, named: nat)
    requires Coherent(w, b) && Kept(w0, w, b, l) && which < |l.handles|
    requires Aimed(w, w', l.handles[which].id, named)
    requires var id := l.handles[which].id;
      w'.signals != w.signals ==>
        && id in b.mine
        && (named in w.births ==> id in w.table && w.table[id].instance == named)
        && (if OwnChild(w, id) then named in w.births else id in b.adopted)
    ensures w.signals <= w'.signals
    ensures forall s | s in w'.signals[|w.signals|..] ::
      HitRight(s, l, which, |l.handles|, b.adopted, w0.births.Keys)
  {
    var new_ := w'.signals[|w.signals|..];
    forall s | s in new_ ensures HitRight(s, l, which, |l.handles|, b.adopted, w0.births.Keys) {
      var i :| 0 <= i < |new_| && new_[i] == s;
      assert s == w'.signals[|w.signals| + i];
      OneHit(w0, w, b, l, which, named, s);
    }
  }

  lemma OneHit(w0: World, w: World, b: Books, l: Ledger, which: nat, named: nat, s: Signal)
    requires Coherent(w, b) && Kept(w0, w, b, l) && which < |l.handles|
    requires s.pid == l.handles[which].id && s.hit.Some? && s.pid in b.mine
    requires s.hit.value == named || (!OwnChild(w, s.pid) && s.hit.value !in w.births)
    requires named in w.births ==> s.pid in w.table && w.table[s.pid].instance == named
    requires if OwnChild(w, s.pid) then named in w.births else s.pid in b.adopted
    ensures HitRight(s, l, which, |l.handles|, b.adopted, w0.births.Keys)
  {
    assert HandleKept(w, b, l, which);
    assert l.origins[..|l.handles|] == l.origins;
    if s.hit.value == named && named in w.births {
      assert Present(w, named);
      assert b.mine[s.pid] in l.origins;
      assert s.pid in b.adopted ==> AdoptedKept(w0, w, b, s.pid);
    }
  }

  /** Unless the pid was adopted last, the condition is exact: a stop that signals at all signals only the
      process its handle was given out for if and only if no later start or adoption gave the pid to
      another process. */
  lemma OnlyItsOwn(t: Turn, l: Ledger, born: set<nat>)
    requires TurnRight(t, l, born) && Sent(t) != [] && t.call.StopCall? && t.call.which < t.issued
    requires l.handles[t.call.which].id !in t.b.adopted
    ensures Latest(l, t.call.which, t.issued) <==> forall s | s in Sent(t) :: s.hit == Some(l.origins[t.call.which])
  {
    assert Sent(t)[0] in Sent(t);
  }

  // ---------------------------------------------------------------- the run

  /** What happened since then, as a turn. */
  twostate function TurnOf(supervisor: PosixProcessSupervisor, call: Call, e: Event, issued: nat): (t: Turn)
    reads supervisor, supervisor.kernel
  {
    Turn(call, e, issued, old(supervisor.kernel.world), old(supervisor.View()), supervisor.kernel.world,
      supervisor.View(), Since(old(supervisor.asked), supervisor.asked))
  }

  function Since(q: seq<Asked>, q': seq<Asked>): (r: seq<Asked>)
    ensures q <= q' ==> q' == q + r
  {
    if q <= q' then q'[|q|..] else []
  }

  method ServeOne(supervisor: PosixProcessSupervisor, call: Call, handles: seq<ProcessHandle>, ghost l: Ledger,
      ghost w0: World)
    returns (handles': seq<ProcessHandle>, e: Event, ghost l': Ledger, ghost turn: Turn)
    requires supervisor.Valid() && l.handles == handles && Kept(w0, supervisor.kernel.world, supervisor.View(), l)
    modifies supervisor, supervisor.kernel`world, supervisor.clock
    ensures supervisor.Valid() && l'.handles == handles' && Kept(w0, supervisor.kernel.world, supervisor.View(), l')
    ensures Extends(l, l') && |l'.handles| == |l.handles| + if GivenBy(e).Some? then 1 else 0
    ensures CacheAfter(e, old(supervisor.finished), supervisor.finished)
    ensures old(supervisor.asked) <= supervisor.asked && turn == TurnOf(supervisor, call, e, |l.handles|)
    ensures TurnRight(turn, l', w0.births.Keys)
  {
    KeptEven(w0, supervisor.kernel.world, supervisor.View(), l);
    hide Coherent, Kept, CacheAfter, LastAdopted, TurnRight, CallRight;
    match call {
      case StartCall(launch) =>
        handles', e, l' := ServeStart(supervisor, launch, handles, l, w0);
      case AdoptCall(handle) =>
        handles', e, l' := ServeAdopt(supervisor, handle, handles, l, w0);
      case StatusCall(which) =>
        handles', l' := handles, l;
        if which < |handles| {
          e := ServeStatus(supervisor, which, handles, l, w0);
        } else {
          e := ServeNobody(supervisor, call, l);
        }
      case StopCall(which, timeout) =>
        handles', l' := handles, l;
        if which < |handles| {
          e := ServeStop(supervisor, which, timeout, handles, l, w0);
        } else {
          e := ServeNobody(supervisor, call, l);
        }
    }
    turn := TurnOf(supervisor, call, e, |l.handles|);
    RightByCall(turn, l, l', w0.births.Keys);
  }

  lemma NothingCached(finished: Cache)
    ensures CacheAfter(NoSuchHandle, finished, finished)
  {
  }

  lemma CacheKept(e: Event, w: World, b: Books, w': World, b': Books)
    requires e.Stopped? && Moved(w, b, w', b')
    ensures CacheAfter(e, b.finished, b'.finished)
  {
  }

  lemma SinceOne(q: seq<Asked>, a: Asked)
    ensures Since(q, q + [a]) == [a]
  {
  }

  lemma CacheLess(e: Event, finished: Cache, finished': Cache)
    requires !e.Answered? && finished' == if GivenBy(e).Some? then finished - {GivenBy(e).value.id} else finished
    ensures CacheAfter(e, finished, finished')
  {
  }

  lemma StartTurn(t: Turn, l: Ledger, l': Ledger, launch: Launch, born: set<nat>)
    requires t.call == StartCall(launch)
    requires t.event.Started? && t.issued == |l.handles| && Even(l) && t.asked == [] && t.w'.signals == t.w.signals
    requires if t.event.start.Ok?
      then
        && |l'.origins| == |l.handles| + 1 && l' == Given(l, t.event.start.value, l'.origins[|l.handles|], false)
        && Begun(t.w, t.w', t.event.start.value, l'.origins[|l.handles|], launch)
      else l' == l && (launch.executable == "" || SomeCallFailed(t.w, t.w'))
    ensures Even(l') && |l'.handles| == |l.handles| + if GivenBy(t.event).Some? then 1 else 0
    ensures CallRight(t, l', born)
  {
    hide Begun;
  }

  lemma AdoptTurn(t: Turn, l: Ledger, l': Ledger, handle: ProcessHandle, born: set<nat>)
    requires t.call == AdoptCall(handle)
    requires t.event.Taken? && t.issued == |l.handles| && Even(l) && t.asked == [] && t.w'.signals == t.w.signals
    requires if t.event.adoption.Ok?
      then
        && t.event.adoption.value == handle && Adopted(t.w, t.b, t.w', t.b', handle)
        && l' == Given(l, handle, t.b'.mine[handle.id], true)
      else
        l' == l &&
        (handle.id <= 1 || handle.startToken == 0 || SomeCallFailed(t.w, t.w') || NoLonger(t.w', handle))
    ensures Even(l') && |l'.handles| == |l.handles| + if GivenBy(t.event).Some? then 1 else 0
    ensures CallRight(t, l', born)
  {
    hide NoLonger;
  }

  lemma StatusTurn(t: Turn, l: Ledger, which: nat, born: set<nat>)
    requires t.call == StatusCall(which) && Even(l) && t.issued == |l.handles| && t.w'.signals == t.w.signals
    requires if which < |l.handles|
      then
        && t.event.Answered? && t.event.handle == l.handles[which]
        && |t.asked| == 1 && t.asked[0].handle == l.handles[which] && t.asked[0].answer == t.event.answer
        && Means(t.w', t.b', l.handles[which], t.event.answer)
        && (t.event.answer.Err? ==> l.handles[which].id <= 0 || Hindered(t.w, t.w', l.handles[which].id))
      else t.event == NoSuchHandle && t.asked == []
    ensures CallRight(t, l, born)
  {
    hide Means, Hindered;
  }

  lemma StopTurn(t: Turn, l: Ledger, which: nat, born: set<nat>)
    requires t.call.StopCall? && t.call.which == which
    requires Even(l) && t.issued == |l.handles| && t.w.signals <= t.w'.signals
    requires if which < |l.handles|
      then
        && t.event.Stopped? && OnlyAbout([], t.asked, l.handles[which])
        && (t.event.stop.Err? ==>
              || l.handles[which].id <= 0 || Hindered(t.w, t.w', l.handles[which].id)
              || t.event.stop.error == StillAlive)
        && forall s | s in t.w'.signals[|t.w.signals|..] :: HitRight(s, l, which, |l.handles|, t.b.adopted, born)
      else t.event == NoSuchHandle && t.asked == [] && t.w'.signals == t.w.signals
    ensures CallRight(t, l, born)
  {
    hide HitRight, Hindered;
  }

  lemma RightByCall(t: Turn, l: Ledger, l': Ledger, born: set<nat>)
    requires Extends(l, l') && t.issued == |l.handles|
    requires |l'.handles| == |l.handles| + if GivenBy(t.event).Some? then 1 else 0
    requires t.w.signals <= t.w'.signals && CallRight(t, l', born)
    requires forall p | p in t.b.adopted :: LastAdopted(l, p, |l.handles|)
    ensures TurnRight(t, l', born)
  {
    hide CallRight, LastAdopted;
    forall p | p in t.b.adopted ensures LastAdopted(l', p, |l.handles|) {
      AdoptedExtends(l, l', p, |l.handles|);
    }
  }

  method ServeStart(supervisor: PosixProcessSupervisor, launch: Launch, handles: seq<ProcessHandle>,
      ghost l: Ledger, ghost w0: World)
    returns (handles': seq<ProcessHandle>, e: Event, ghost l': Ledger)
    requires supervisor.Valid() && l.handles == handles && Kept(w0, supervisor.kernel.world, supervisor.View(), l)
    modifies supervisor, supervisor.kernel`world
    ensures supervisor.Valid() && l'.handles == handles' && Kept(w0, supervisor.kernel.world, supervisor.View(), l')
    ensures Extends(l, l') && |l'.handles| == |l.handles| + if GivenBy(e).Some? then 1 else 0
    ensures old(supervisor.asked) <= supervisor.asked
    ensures old(supervisor.kernel.world).signals <= supervisor.kernel.world.signals
    ensures CallRight(TurnOf(supervisor, StartCall(launch), e, |l.handles|), l', w0.births.Keys)
    ensures CacheAfter(e, old(supervisor.finished), supervisor.finished)
  {
    KeptEven(w0, supervisor.kernel.world, supervisor.View(), l);
    hide Coherent, Issued, KeepsChildren, Kept, Steps, Begun, Quiet, CallRight, CacheAfter, SomeCallFailed, Even;
    ghost var w, b := supervisor.kernel.world, supervisor.View();
    handles', l' := handles, l;
    var r, instance := supervisor.Start(launch);
    e := Started(r);
    StartSilent(w, supervisor.kernel.world, r, instance, launch);
    if r.Ok? {
      KeptStart(w0, w, b, l, supervisor.kernel.world, supervisor.View(), r.value, instance, launch);
      l', handles' := Given(l, r.value, instance, false), handles + [r.value];
    } else {
      KeptQuiet(w0, w, b, supervisor.kernel.world, l);
    }
    CacheLess(e, b.finished, supervisor.finished);
    StartTurn(TurnOf(supervisor, StartCall(launch), e, |l.handles|), l, l', launch, w0.births.Keys);
  }

  method ServeAdopt(supervisor: PosixProcessSupervisor, handle: ProcessHandle, handles: seq<ProcessHandle>,
      ghost l: Ledger, ghost w0: World)
    returns (handles': seq<ProcessHandle>, e: Event, ghost l': Ledger)
    requires supervisor.Valid() && l.handles == handles && Kept(w0, supervisor.kernel.world, supervisor.View(), l)
    modifies supervisor, supervisor.kernel`world
    ensures supervisor.Valid() && l'.handles == handles' && Kept(w0, supervisor.kernel.world, supervisor.View(), l')
    ensures Extends(l, l') && |l'.handles| == |l.handles| + if GivenBy(e).Some? then 1 else 0
    ensures old(supervisor.asked) <= supervisor.asked
    ensures old(supervisor.kernel.world).signals <= supervisor.kernel.world.signals
    ensures CallRight(TurnOf(supervisor, AdoptCall(handle), e, |l.handles|), l', w0.births.Keys)
    ensures CacheAfter(e, old(supervisor.finished), supervisor.finished)
  {
    KeptEven(w0, supervisor.kernel.world, supervisor.View(), l);
    hide Coherent, Kept, NoLonger, Present, CallRight, CacheAfter, Even, Adopted;
    var r;
    r, l' := AdoptKept(supervisor, handle, l, w0);
    e := Taken(r);
    handles' := if r.Ok? then handles + [handle] else handles;
    AdoptTurn(TurnOf(supervisor, AdoptCall(handle), e, |l.handles|), l, l', handle, w0.births.Keys);
  }

  /** The adoption itself. */
  method AdoptKept(supervisor: PosixProcessSupervisor, handle: ProcessHandle, ghost l: Ledger, ghost w0: World)
    returns (r: Result<ProcessHandle, Fault>, ghost l': Ledger)
    requires supervisor.Valid() && Kept(w0, supervisor.kernel.world, supervisor.View(), l)
    modifies supervisor, supervisor.kernel`world
    ensures supervisor.Valid() && Kept(w0, supervisor.kernel.world, supervisor.View(), l')
    ensures supervisor.asked == old(supervisor.asked)
    ensures supervisor.kernel.world.signals == old(supervisor.kernel.world).signals
    ensures CacheAfter(Taken(r), old(supervisor.finished), supervisor.finished)
    ensures if r.Ok?
      then
        && r.value == handle && Adopted(old(supervisor.kernel.world), old(supervisor.View()), supervisor.kernel.world,
             supervisor.View(), handle)
        && handle.id in supervisor.mine && l' == Given(l, handle, supervisor.mine[handle.id], true)
      else
        l' == l &&
        (handle.id <= 1 || handle.startToken == 0
        || SomeCallFailed(old(supervisor.kernel.world), supervisor.kernel.world)
        || NoLonger(supervisor.kernel.world, handle))
  {
    hide Coherent, Issued, KeepsChildren, Kept, Steps, NoLonger, Present, Quiet, CacheAfter, Even, Adopted;
    ghost var w, b := supervisor.kernel.world, supervisor.View();
    l' := l;
    r := supervisor.Adopt(handle);
    QuietSilent(w, supervisor.kernel.world);
    if r.Ok? {
      KeptAdopt(w0, w, b, l, supervisor.kernel.world, supervisor.View(), handle);
      l' := Given(l, handle, supervisor.mine[handle.id], true);
    } else {
      KeptQuiet(w0, w, b, supervisor.kernel.world, l);
    }
    CacheLess(Taken(r), b.finished, supervisor.finished);
  }

  /** A call about a handle that was never given out. */
  method ServeNobody(supervisor: PosixProcessSupervisor, call: Call, ghost l: Ledger) returns (e: Event)
    requires Even(l) && (call.StatusCall? || call.StopCall?) && call.which >= |l.handles|
    ensures e == NoSuchHandle && CacheAfter(e, supervisor.finished, supervisor.finished)
    ensures forall born :: CallRight(TurnOf(supervisor, call, e, |l.handles|), l, born)
  {
    e := NoSuchHandle;
  }

  method ServeStatus(supervisor: PosixProcessSupervisor, which: nat, handles: seq<ProcessHandle>, ghost l: Ledger,
      ghost w0: World)
    returns (e: Event)
    requires supervisor.Valid() && Kept(w0, supervisor.kernel.world, supervisor.View(), l) && l.handles == handles
    requires which < |handles|
    modifies supervisor, supervisor.kernel`world
    ensures supervisor.Valid() && Kept(w0, supervisor.kernel.world, supervisor.View(), l) && GivenBy(e).None?
    ensures old(supervisor.asked) <= supervisor.asked
    ensures old(supervisor.kernel.world).signals <= supervisor.kernel.world.signals
    ensures Even(l) && CallRight(TurnOf(supervisor, StatusCall(which), e, |l.handles|), l, w0.births.Keys)
    ensures CacheAfter(e, old(supervisor.finished), supervisor.finished)
  {
    KeptEven(w0, supervisor.kernel.world, supervisor.View(), l);
    hide Coherent, Means, Kept, CallRight, CacheAfter, Hindered, Since;
    ghost var asked := supervisor.asked;
    var r := AskKept(supervisor, handles[which], l, w0);
    e := Answered(handles[which], r);
    SinceOne(asked, supervisor.asked[|asked|]);
    StatusTurn(TurnOf(supervisor, StatusCall(which), e, |l.handles|), l, which, w0.births.Keys);
  }

  /** The question itself. */
  method AskKept(supervisor: PosixProcessSupervisor, handle: ProcessHandle, ghost l: Ledger, ghost w0: World)
    returns (r: Result<ProcessStatus, Fault>)
    requires supervisor.Valid() && Kept(w0, supervisor.kernel.world, supervisor.View(), l)
    modifies supervisor, supervisor.kernel`world
    ensures supervisor.Valid() && Kept(w0, supervisor.kernel.world, supervisor.View(), l)
    ensures |supervisor.asked| == |old(supervisor.asked)| + 1
    ensures supervisor.asked == old(supervisor.asked) + [supervisor.asked[|old(supervisor.asked)|]]
    ensures var a := supervisor.asked[|old(supervisor.asked)|]; a.handle == handle && a.answer == r
    ensures supervisor.kernel.world.signals == old(supervisor.kernel.world).signals
    ensures Means(supervisor.kernel.world, supervisor.View(), handle, r)
    ensures r.Err? ==> handle.id <= 0 || Hindered(old(supervisor.kernel.world), supervisor.kernel.world, handle.id)
    ensures CacheAfter(Answered(handle, r), old(supervisor.finished), supervisor.finished)
  {
    hide Coherent, Issued, Means, KeepsChildren, Kept, Aimed, Steps, Moved, Polled, CacheAfter, Hindered;
    ghost var w, b := supervisor.kernel.world, supervisor.View();
    r := supervisor.Status(handle);
    KeptPolled(w0, w, b, supervisor.kernel.world, supervisor.View(), l, handle, r);
  }

  /** A question leaves the ledger right, and the cache remembers its answer. */
  lemma KeptPolled(w0: World, w: World, b: Books, w': World, b': Books, l: Ledger, handle: ProcessHandle,
      r: Result<ProcessStatus, Fault>)
    requires Coherent(w, b) && Kept(w0, w, b, l) && Polled(w, b, w', b', handle.id) && Means(w', b', handle, r)
    requires handle.id > 0 && handle.id in b.finished ==> r == Ok(b.finished[handle.id])
    requires handle.id <= 0 ==> r.Err?
    ensures Kept(w0, w', b', l) && w'.signals == w.signals
    ensures CacheAfter(Answered(handle, r), b.finished, b'.finished)
  {
    hide Coherent, Means, Kept, Steps, Moved, Polled, Aimed;
    MovedSelf(w, b, 0);
    MovedPoll(w, b, w, b, w', b', handle.id);
    AimedPoll(w, w, b, w', b', handle.id);
    MovedFacts(w, b, w', b');
    KeptStays(w0, w, b, w', b', l);
    if r.Ok? && !r.value.state.Alive? { AnswerIsCached(w', b', handle, r); }
  }

  method ServeStop(supervisor: PosixProcessSupervisor, which: nat, timeout: nat, handles: seq<ProcessHandle>,
      ghost l: Ledger, ghost w0: World)
    returns (e: Event)
    requires supervisor.Valid() && Kept(w0, supervisor.kernel.world, supervisor.View(), l) && l.handles == handles
    requires which < |handles|
    modifies supervisor, supervisor.kernel`world, supervisor.clock
    ensures supervisor.Valid() && Kept(w0, supervisor.kernel.world, supervisor.View(), l) && GivenBy(e).None?
    ensures old(supervisor.asked) <= supervisor.asked
    ensures old(supervisor.kernel.world).signals <= supervisor.kernel.world.signals
    ensures Even(l) && CallRight(TurnOf(supervisor, StopCall(which, timeout), e, |l.handles|), l, w0.births.Keys)
    ensures CacheAfter(e, old(supervisor.finished), supervisor.finished)
  {
    KeptEven(w0, supervisor.kernel.world, supervisor.View(), l);
    hide Coherent, Kept, HitRight, CallRight, Hindered, Since, OnlyAbout, CacheAfter;
    ghost var asked := supervisor.asked;
    var r := StopKept(supervisor, which, timeout, handles, l, w0);
    e := Stopped(r);
    AboutSince(asked, supervisor.asked, handles[which]);
    StopTurn(TurnOf(supervisor, StopCall(which, timeout), e, |l.handles|), l, which, w0.births.Keys);
  }

  /** The stop itself. */
  method StopKept(supervisor: PosixProcessSupervisor, which: nat, timeout: nat, handles: seq<ProcessHandle>,
      ghost l: Ledger, ghost w0: World)
    returns (r: Result<Unit, Fault>)
    requires supervisor.Valid() && Kept(w0, supervisor.kernel.world, supervisor.View(), l) && l.handles == handles
    requires Even(l) && which < |handles|
    modifies supervisor, supervisor.kernel`world, supervisor.clock
    ensures supervisor.Valid() && Kept(w0, supervisor.kernel.world, supervisor.View(), l)
    ensures OnlyAbout(old(supervisor.asked), supervisor.asked, handles[which])
    ensures old(supervisor.kernel.world).signals <= supervisor.kernel.world.signals
    ensures forall s | s in supervisor.kernel.world.signals[|old(supervisor.kernel.world).signals|..] ::
      HitRight(s, l, which, |l.handles|, old(supervisor.adopted), w0.births.Keys)
    ensures r.Err? ==>
      || handles[which].id <= 0
      || Hindered(old(supervisor.kernel.world), supervisor.kernel.world, handles[which].id)
      || r.error == StillAlive
    ensures CacheAfter(Stopped(r), old(supervisor.finished), supervisor.finished)
  {
    hide Coherent, Issued, KeepsChildren, Kept, Aimed, Steps, Moved, HitRight, Hindered, WatchedInVain, Escalates,
      OnlyAbout, Settled, CacheAfter;
    ghost var w, b := supervisor.kernel.world, supervisor.View();
    ghost var named;
    r, named := supervisor.Stop(handles[which], timeout);
    KeptStays(w0, w, b, supervisor.kernel.world, supervisor.View(), l);
    StopHits(w0, w, b, supervisor.kernel.world, l, which, named);
    MovedFacts(w, b, supervisor.kernel.world, supervisor.View());
    CacheKept(Stopped(r), w, b, supervisor.kernel.world, supervisor.View());
  }

  lemma AboutSince(q: seq<Asked>, q': seq<Asked>, handle: ProcessHandle)
    requires OnlyAbout(q, q', handle)
    ensures OnlyAbout([], Since(q, q'), handle)
  {
  }

  lemma KeptEven(w0: World, w: World, b: Books, l: Ledger)
    requires Kept(w0, w, b, l)
    ensures Even(l) && forall p | p in b.adopted :: LastAdopted(l, p, |l.handles|)
  {
  }

  lemma QuietSilent(w: World, w': World)
    requires Quiet(w, w')
    ensures w'.signals == w.signals
  {
  }

  lemma MovedFacts(w: World, b: Books, w': World, b': Books)
    requires Moved(w, b, w', b')
    ensures w.signals <= w'.signals && b'.adopted <= b.adopted
    ensures forall id | id in b.finished :: id in b'.finished && b'.finished[id] == b.finished[id]
  {
  }

  lemma StartSilent(w: World, w': World, r: Result<ProcessHandle, Fault>, instance: nat, launch: Launch)
    requires if r.Ok? then Begun(w, w', r.value, instance, launch) else Quiet(w, w')
    ensures w'.signals == w.signals
  {
  }

  lemma KeptQuiet(w0: World, w: World, b: Books, w': World, l: Ledger)
    requires Coherent(w, b) && Kept(w0, w, b, l) && Quiet(w, w')
    ensures Kept(w0, w', b, l)
  {
    KeptStays(w0, w, b, w', b, l);
  }

  lemma KeptStart(w0: World, w: World, b: Books, l: Ledger, w': World, b': Books, handle: ProcessHandle,
      instance: nat, launch: Launch)
    requires Coherent(w, b) && Kept(w0, w, b, l) && Begun(w, w', handle, instance, launch)
    requires b' == Books(b.finished - {handle.id}, b.adopted - {handle.id}, b.mine[handle.id := instance])
    ensures Kept(w0, w', b', Given(l, handle, instance, false))
  {
    hide Kept;
    forall i | i in w.births && Present(w', i)
      ensures Present(w, i) && (w.births[i].pid == handle.id ==> i == instance)
    {
    }
    KeptGiven(w0, w, b, l, w', b', handle, instance, false);
  }

  lemma KeptAdopt(w0: World, w: World, b: Books, l: Ledger, w': World, b': Books, handle: ProcessHandle)
    requires Coherent(w, b) && Kept(w0, w, b, l) && Quiet(w, w') && Adopted(w, b, w', b', handle)
    ensures b'.finished == b.finished - {handle.id} && handle.id in b'.mine
    ensures Kept(w0, w', b', Given(l, handle, b'.mine[handle.id], true))
  {
    hide Kept;
    KeptGiven(w0, w, b, l, w', b', handle, b'.mine[handle.id], true);
  }

  /** A supervisor serves a sequence of calls, through any handles it ever gave out. The log holds what it
      answered; every call of the run did what its event says; each began where the one before it ended. */
  method Serve(supervisor: PosixProcessSupervisor, calls: seq<Call>)
    returns (log: seq<Event>, ghost l: Ledger, ghost turns: seq<Turn>)
    requires supervisor.Valid() && supervisor.View() == Books(map[], {}, map[])
    modifies supervisor, supervisor.kernel`world, supervisor.clock
    ensures supervisor.Valid() && supervisor.finished.Keys !! supervisor.adopted
    ensures |log| == |calls| && AnswersStay(log)
    ensures AllRight(turns, calls, log, l, old(supervisor.kernel.world).births.Keys)
    ensures Chained(turns, old(supervisor.kernel.world), Books(map[], {}, map[]), 0,
      supervisor.kernel.world, supervisor.View(), |l.handles|)
    ensures supervisor.asked == old(supervisor.asked) + AllAsked(turns)
  {
    hide *;
    log, l, turns := [], Ledger([], [], []), [];
    var handles: seq<ProcessHandle> := [];
    ghost var w0, b0, q0 := supervisor.kernel.world, supervisor.View(), supervisor.asked;
    Beginning(supervisor, q0);
    for n := 0 to |calls|
      invariant supervisor.Valid() && l.handles == handles && |log| == n
      invariant Story(calls[..n], log, l, turns, w0, b0, q0, supervisor)
    {
      assert calls[..n+1] == calls[..n] + [calls[n]];
      var e;
      handles, e, l, turns := ServeNext(supervisor, calls[..n], calls[n], handles, log, l, turns, w0, b0, q0);
      log := log + [e];
    }
    assert calls[..|calls|] == calls;
    Ending(calls, log, l, turns, w0, b0, q0, supervisor);
  }

  /** What the turns so far tell about the supervisor. */
  ghost predicate Story(calls: seq<Call>, log: seq<Event>, l: Ledger, turns: seq<Turn>, w0: World, b0: Books,
      q0: seq<Asked>, supervisor: PosixProcessSupervisor)
    reads supervisor, supervisor.kernel
  {
    && Kept(w0, supervisor.kernel.world, supervisor.View(), l)
    && Remembered(log, supervisor.finished) && AnswersStay(log)
    && AllRight(turns, calls, log, l, w0.births.Keys)
    && Chained(turns, w0, b0, 0, supervisor.kernel.world, supervisor.View(), |l.handles|)
    && supervisor.asked == q0 + AllAsked(turns)
  }

  method ServeNext(supervisor: PosixProcessSupervisor, calls: seq<Call>, call: Call, handles: seq<ProcessHandle>,
      log: seq<Event>, ghost l: Ledger, ghost turns: seq<Turn>, ghost w0: World, ghost b0: Books, ghost q0: seq<Asked>)
    returns (handles': seq<ProcessHandle>, e: Event, ghost l': Ledger, ghost turns': seq<Turn>)
    requires supervisor.Valid() && l.handles == handles
    requires Story(calls, log, l, turns, w0, b0, q0, supervisor)
    modifies supervisor, supervisor.kernel`world, supervisor.clock
    ensures supervisor.Valid() && l'.handles == handles'
    ensures Story(calls + [call], log + [e], l', turns', w0, b0, q0, supervisor)
  {
    hide Coherent, Remembered, AnswersStay, Kept, AllRight, TurnRight, AllAsked, Chained, CacheAfter, Extends, GivenBy;
    ghost var finished, w, b, q := supervisor.finished, supervisor.kernel.world, supervisor.View(), supervisor.asked;
    ghost var turn;
    handles', e, l', turn := ServeOne(supervisor, call, handles, l, w0);
    RememberNext(log, e, finished, supervisor.finished);
    AllRightNext(turns, calls, log, l, l', w0.births.Keys, turn);
    ChainedNext(turns, turn, w0, b0, w, b, |l.handles|);
    AskedNext(turns, turn, q0, q, supervisor.asked);
    turns' := turns + [turn];
  }

  lemma Ending(calls: seq<Call>, log: seq<Event>, l: Ledger, turns: seq<Turn>, w0: World, b0: Books, q0: seq<Asked>,
      supervisor: PosixProcessSupervisor)
    requires supervisor.Valid() && Story(calls, log, l, turns, w0, b0, q0, supervisor)
    ensures supervisor.finished.Keys !! supervisor.adopted
    ensures |log| == |calls| && AnswersStay(log) && AllRight(turns, calls, log, l, w0.births.Keys)
    ensures Chained(turns, w0, b0, 0, supervisor.kernel.world, supervisor.View(), |l.handles|)
    ensures supervisor.asked == q0 + AllAsked(turns)
  {
    Disjoint(supervisor.kernel.world, supervisor.View());
  }

  lemma Beginning(supervisor: PosixProcessSupervisor, q0: seq<Asked>)
    requires supervisor.Valid() && supervisor.View() == Books(map[], {}, map[]) && supervisor.asked == q0
    ensures Story([], [], Ledger([], [], []), [], supervisor.kernel.world, supervisor.View(), q0, supervisor)
  {
  }

  lemma Disjoint(w: World, b: Books)
    requires Coherent(w, b)
    ensures b.finished.Keys !! b.adopted
  {
  }

  ghost predicate AllRight(turns: seq<Turn>, calls: seq<Call>, log: seq<Event>, l: Ledger, born: set<nat>) {
    && |turns| == |calls| == |log|
    && forall n | 0 <= n < |turns| ::
      turns[n].call == calls[n] && turns[n].event == log[n] && TurnRight(turns[n], l, born)
  }

  lemma AllRightNext(turns: seq<Turn>, calls: seq<Call>, log: seq<Event>, l: Ledger, l': Ledger, born: set<nat>,
      turn: Turn)
    requires AllRight(turns, calls, log, l, born) && Extends(l, l') && TurnRight(turn, l', born)
    ensures AllRight(turns + [turn], calls + [turn.call], log + [turn.event], l', born)
  {
    hide TurnRight, Extends;
    forall t | t in turns ensures TurnRight(t, l', born) {
      TurnRightLater(t, l, l', born);
    }
    var all := turns + [turn];
    forall n | 0 <= n < |all| ensures TurnRight(all[n], l', born) {
      if n < |turns| { assert all[n] in turns; }
    }
  }

  /** The turns lead from the first world, books and number of handles to the last. */
  ghost predicate Chained(turns: seq<Turn>, w: World, b: Books, issued: nat, w': World, b': Books, issued': nat) {
    if turns == [] then w' == w && b' == b && issued' == issued
    else
      var last := turns[|turns|-1];
      && w' == last.w' && b' == last.b' && issued' == last.issued + (if GivenBy(last.event).Some? then 1 else 0)
      && Chained(turns[..|turns|-1], w, b, issued, last.w, last.b, last.issued)
  }

  lemma ChainedNext(turns: seq<Turn>, turn: Turn, w0: World, b0: Books, w: World, b: Books, issued: nat)
    requires Chained(turns, w0, b0, 0, w, b, issued) && turn.w == w && turn.b == b && turn.issued == issued
    ensures Chained(turns + [turn], w0, b0, 0, turn.w', turn.b', issued + if GivenBy(turn.event).Some? then 1 else 0)
  {
    assert (turns + [turn])[..|turns|] == turns;
  }

  /** Everything the supervisor was asked, in order. */
  function AllAsked(turns: seq<Turn>): (r: seq<Asked>) {
    if turns == [] then [] else AllAsked(turns[..|turns|-1]) + turns[|turns|-1].asked
  }

  lemma AskedNext(turns: seq<Turn>, turn: Turn, start: seq<Asked>, before: seq<Asked>, after: seq<Asked>)
    requires before == start + AllAsked(turns) && before <= after && turn.asked == Since(before, after)
    ensures after == start + AllAsked(turns + [turn])
  {
    assert (turns + [turn])[..|turns|] == turns;
  }

  // ---------------------------------------------------------------- a stale handle

  /** The worlds of a run in which the older of two handles hits the wrong process: child 0 of pid 2 ends
      and is reaped, and child 1 is started on pid 2. */
  function FirstStarted(launch: Launch): World {
    World(map[2 := Process(0, 7, true, Running)], map[0 := Birth(2, 7)], map[0 := launch], [], 1, 0, map[], 0)
  }

  function FirstEnded(launch: Launch): World {
    FirstStarted(launch).(table := map[2 := Process(0, 7, true, Zombie(ExitCode(0)))])
  }

  function FirstReaped(launch: Launch): World {
    FirstStarted(launch).(table := map[], ended := map[0 := ExitCode(0)])
  }

  function SecondStarted(launch: Launch): World {
    World(map[2 := Process(1, 8, true, Running)], map[0 := Birth(2, 7), 1 := Birth(2, 8)],
      map[0 := launch, 1 := launch], [], 1, 0, map[0 := ExitCode(0)], 0)
  }

  lemma FirstStarts(launch: Launch)
    ensures Sound(NOBODY) && Spawned(NOBODY, FirstStarted(launch), 2, 0, launch)
  {
  }

  lemma FirstEnds(launch: Launch)
    ensures Drift(FirstStarted(launch), FirstEnded(launch)) &&
        ReapedFrom(FirstEnded(launch), FirstReaped(launch), 2, ExitCode(0))
  {
  }

  lemma SecondStarts(launch: Launch)
    ensures Spawned(FirstReaped(launch), SecondStarted(launch), 2, 1, launch)
  {
    assert Live(FirstReaped(launch)) == {};
  }

  lemma StaleBooks(launch: Launch)
    ensures var w, b := SecondStarted(launch), Books(map[], {}, map[2 := 1]);
      Coherent(w, b) && w.births[0] == Birth(2, 7) && !Present(w, 0) && Means(w, b, ProcessHandle(2, 7), Ok(ALIVE))
  {
  }

  lemma StaleSignal(launch: Launch)
    ensures var w := SecondStarted(launch);
      Signalled(w, w.(signals := [Signal(2, Sigterm, Some(1), 0)]), 2, Sigterm, 0, true)
  {
  }

  /** After that run the first handle finds its pid running, and a stop through it signals the second
      child, although its own process is gone. */
  lemma StaleHandle(launch: Launch)
    ensures var w, b := SecondStarted(launch), Books(map[], {}, map[2 := 1]);
      && Spawned(NOBODY, FirstStarted(launch), 2, 0, launch)
      && Drift(FirstStarted(launch), FirstEnded(launch)) &&
        ReapedFrom(FirstEnded(launch), FirstReaped(launch), 2, ExitCode(0))
      && Spawned(FirstReaped(launch), w, 2, 1, launch)
      && Coherent(w, b) && w.births[0] == Birth(2, 7) && !Present(w, 0)
      && Means(w, b, ProcessHandle(2, 7), Ok(ALIVE))
      && Signalled(w, w.(signals := [Signal(2, Sigterm, Some(1), 0)]), 2, Sigterm, 0, true)
  {
    FirstStarts(launch);
    FirstEnds(launch);
    SecondStarts(launch);
    StaleBooks(launch);
    StaleSignal(launch);
    hide *;
  }
}
