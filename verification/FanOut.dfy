/** Publishing one command to every target queue: one goroutine a target, a semaphore that lets at
    most eight of them send at once, and a wait for all. Any goroutine may move at any time. */
module FanOut {
  import opened Prelude
  import opened QueueConfig

  const MAX_CONCURRENT_SENDS := 8

  datatype Delivery = Delivery(queue: string, url: string, messageId: string, error: string)

  /** What the queue service answered to one send. */
  datatype Answer = Accepted(messageId: string) | Refused(text: string)

  /** Where a goroutine is: not started, before the semaphore, in the send, after it, past the
      semaphore, past the wait group. */
  datatype Phase =
    | Unborn
    | Waiting
    | Sending
    | Answered(answer: Answer)
    | Recorded(answer: Answer)
    | Released(answer: Answer)
    | Done(answer: Answer)

  /** `slots` is what the semaphore channel holds, `pending` the wait group's counter; `sends` is every
      send made, in order. */
  datatype State = State(phases: seq<Phase>, slots: nat, pending: nat, deliveries: seq<Delivery>, sends: seq<nat>)

  const NO_DELIVERY := Delivery("", "", "", "")

  function Capacity(n: nat): nat { Min(MAX_CONCURRENT_SENDS, n) }

  function Start(n: nat): State {
    State(seq(n, _ => Unborn), 0, 0, seq(n, _ => NO_DELIVERY), [])
  }

  function Describe(target: DeviceQueue, answer: Answer): Delivery {
    match answer
    case Accepted(id) => Delivery(target.name, target.url, id, "")
    case Refused(text) => Delivery(target.name, target.url, "", text)
  }

  // ---------------------------------------------------------------- one step

  predicate HoldsSlot(p: Phase) { p.Sending? || p.Answered? || p.Recorded? }

  /** The goroutines are started one after the other. */
  predicate CanMove(s: State, i: nat)
    requires i < |s.phases|
  {
    match s.phases[i]
    case Unborn => i == 0 || !s.phases[i-1].Unborn?
    case Waiting => s.slots < Capacity(|s.phases|)
    case Done(_) => false
    case _ => true
  }

  /** Goroutine `i` makes its next move; `answer` is what the queue service says if it sends now. */
  function Move(targets: seq<DeviceQueue>, s: State, i: nat, answer: Answer): (s': State)
    requires |s.phases| == |s.deliveries| == |targets| && i < |targets| && CanMove(s, i)
  {
    match s.phases[i]
    case Unborn => s.(phases := s.phases[i := Waiting], pending := s.pending + 1)
    case Waiting => s.(phases := s.phases[i := Sending], slots := s.slots + 1)
    case Sending => s.(phases := s.phases[i := Answered(answer)], sends := s.sends + [i])
    case Answered(a) =>
      s.(phases := s.phases[i := Recorded(a)], deliveries := s.deliveries[i := Describe(targets[i], a)])
    case Recorded(a) => s.(phases := s.phases[i := Released(a)], slots := if s.slots > 0 then s.slots - 1 else 0)
    case Released(a) => s.(phases := s.phases[i := Done(a)], pending := if s.pending > 0 then s.pending - 1 else 0)
    case Done(_) => s
  }

  // ---------------------------------------------------------------- what every reachable state satisfies

  function Holders(s: State): (r: set<nat>) { set i: nat | i < |s.phases| && HoldsSlot(s.phases[i]) }

  function Unfinished(s: State): (r: set<nat>) {
    set i: nat | i < |s.phases| && !s.phases[i].Unborn? && !s.phases[i].Done?
  }

  predicate HasSent(p: Phase) { p.Answered? || p.Recorded? || p.Released? || p.Done? }

  function Occurrences(sends: seq<nat>, i: nat): (r: nat) { multiset(sends)[i] }

  ghost predicate Invariant(targets: seq<DeviceQueue>, s: State) {
    && |s.phases| == |s.deliveries| == |targets|
    && s.slots == |Holders(s)| <= Capacity(|targets|)
    && s.pending == |Unfinished(s)|
    && SentRight(s) && DeliveredRight(targets, s) && StartedInOrder(s)
  }

  /** A goroutine that is past its send has made one, the others none. */
  ghost predicate SentRight(s: State) {
    && (forall i: nat | i < |s.phases| :: Occurrences(s.sends, i) == if HasSent(s.phases[i]) then 1 else 0)
    && (forall i | i in s.sends :: i < |s.phases|)
  }

  /** A goroutine past its record has left a delivery about its own target and answer. */
  ghost predicate DeliveredRight(targets: seq<DeviceQueue>, s: State)
    requires |s.phases| == |s.deliveries| == |targets|
  {
    forall i: nat | i < |targets| ::
      s.deliveries[i] == match s.phases[i]
        case Recorded(a) => Describe(targets[i], a)
        case Released(a) => Describe(targets[i], a)
        case Done(a) => Describe(targets[i], a)
        case _ => NO_DELIVERY
  }

  predicate StartedInOrder(s: State) {
    forall i, j | 0 <= i < j < |s.phases| && s.phases[i].Unborn? :: s.phases[j].Unborn?
  }

  lemma StartInvariant(targets: seq<DeviceQueue>)
    ensures Invariant(targets, Start(|targets|))
  {
    var s := Start(|targets|);
    assert Holders(s) == {} && Unfinished(s) == {};
  }

  lemma MoveInvariant(targets: seq<DeviceQueue>, s: State, i: nat, answer: Answer)
    requires Invariant(targets, s) && i < |targets| && CanMove(s, i)
    ensures Invariant(targets, Move(targets, s, i, answer))
  {
    MoveCounts(targets, s, i, answer);
    MoveSends(targets, s, i, answer);
    hide SentRight, Holders, Unfinished;
    assert StartedInOrder(Move(targets, s, i, answer));
  }

  lemma MoveSends(targets: seq<DeviceQueue>, s: State, i: nat, answer: Answer)
    requires |s.phases| == |s.deliveries| == |targets| && i < |targets| && CanMove(s, i) && SentRight(s)
    ensures SentRight(Move(targets, s, i, answer))
  {
  }

  lemma MoveCounts(targets: seq<DeviceQueue>, s: State, i: nat, answer: Answer)
    requires |s.phases| == |s.deliveries| == |targets| && i < |targets| && CanMove(s, i)
    requires s.slots == |Holders(s)| <= Capacity(|targets|) && s.pending == |Unfinished(s)|
    ensures var s' := Move(targets, s, i, answer);
      s'.slots == |Holders(s')| <= Capacity(|targets|) && s'.pending == |Unfinished(s')|
  {
    hide Holders, Unfinished;
    var s' := Move(targets, s, i, answer);
    HoldersAfter(s, s', i, s'.phases[i]);
    UnfinishedAfter(s, s', i, s'.phases[i]);
  }

  lemma HoldersAfter(s: State, s': State, i: nat, p: Phase)
    requires i < |s.phases| && s'.phases == s.phases[i := p]
    ensures i in Holders(s) <==> HoldsSlot(s.phases[i])
    ensures Holders(s') == if HoldsSlot(p) then Holders(s) + {i} else Holders(s) - {i}
  {
  }

  lemma UnfinishedAfter(s: State, s': State, i: nat, p: Phase)
    requires i < |s.phases| && s'.phases == s.phases[i := p]
    ensures i in Unfinished(s) <==> !s.phases[i].Unborn? && !s.phases[i].Done?
    ensures Unfinished(s') == if !p.Unborn? && !p.Done? then Unfinished(s) + {i} else Unfinished(s) - {i}
  {
  }

  // ---------------------------------------------------------------- progress

  /** The wait group is empty and every goroutine was started: `Wait` returns. */
  predicate Finished(s: State) {
    s.pending == 0 && forall i | 0 <= i < |s.phases| :: !s.phases[i].Unborn?
  }

  /** The moves goroutine `i` has left. */
  function Left(p: Phase): (r: nat) {
    match p
    case Unborn => 6 case Waiting => 5 case Sending => 4 case Answered(_) => 3
    case Recorded(_) => 2 case Released(_) => 1 case Done(_) => 0
  }

  function Remaining(phases: seq<Phase>): (r: nat) {
    if phases == [] then 0 else Left(phases[0]) + Remaining(phases[1..])
  }

  lemma {:induction false} RemainingUpdate(phases: seq<Phase>, i: nat, p: Phase)
    requires i < |phases|
    ensures Remaining(phases[i := p]) == Remaining(phases) - Left(phases[i]) + Left(p)
    decreases |phases|
  {
    if i > 0 {
      assert phases[i := p][1..] == phases[1..][i-1 := p];
      RemainingUpdate(phases[1..], i - 1, p);
    } else {
      assert phases[i := p][1..] == phases[1..];
    }
  }

  /** Every move uses one of a fixed number up, so every schedule ends. */
  lemma MoveDescends(targets: seq<DeviceQueue>, s: State, i: nat, answer: Answer)
    requires Invariant(targets, s) && i < |targets| && CanMove(s, i)
    ensures Remaining(Move(targets, s, i, answer).phases) == Remaining(s.phases) - 1
  {
    RemainingUpdate(s.phases, i, Move(targets, s, i, answer).phases[i]);
  }

  lemma {:induction false} RemainingAtStart(n: nat)
    ensures Remaining(Start(n).phases) == 6 * n
  {
    if n > 0 {
      RemainingAtStart(n - 1);
      assert Start(n).phases[1..] == Start(n - 1).phases;
    }
  }

  /** A state in which nobody can move is the final one. */
  lemma NoDeadlock(targets: seq<DeviceQueue>, s: State)
    requires Invariant(targets, s)
    ensures Finished(s) <==> forall i: nat | i < |targets| :: !CanMove(s, i)
  {
    if Finished(s) {
      forall i: nat | i < |targets| ensures !CanMove(s, i) {
        assert i !in Unfinished(s);
      }
    } else {
      var i := SomeoneMoves(targets, s);
    }
  }

  lemma SomeoneMoves(targets: seq<DeviceQueue>, s: State) returns (i: nat)
    requires Invariant(targets, s) && !Finished(s)
    ensures i < |targets| && CanMove(s, i)
  {
    if k :| 0 <= k < |targets| && s.phases[k].Unborn? {
      FirstUnborn(s.phases, k);
      i :| i < |s.phases| && s.phases[i].Unborn? && (i == 0 || !s.phases[i-1].Unborn?);
      return;
    }
    assert Unfinished(s) != {};
    i :| i in Unfinished(s);
    if s.phases[i].Waiting? && s.slots == Capacity(|targets|) {
      assert Holders(s) != {};
      i :| i in Holders(s);
    }
  }

  lemma {:induction false} FirstUnborn(phases: seq<Phase>, i: nat)
    requires i < |phases| && phases[i].Unborn?
    ensures exists k: nat :: k < |phases| && phases[k].Unborn? && (k == 0 || !phases[k-1].Unborn?)
    decreases i
  {
    if i > 0 && phases[i-1].Unborn? {
      FirstUnborn(phases, i - 1);
    }
  }

  /** At most eight sends, and never more than there are targets, are in flight. */
  lemma FewInFlight(targets: seq<DeviceQueue>, s: State)
    requires Invariant(targets, s)
    ensures |set i: nat | i < |s.phases| && s.phases[i].Sending?| <= Min(8, |targets|)
  {
    var sending := set i: nat | i < |s.phases| && s.phases[i].Sending?;
    SubsetSize(sending, Holders(s));
  }

  /** A waiting goroutine may send if and only if fewer than eight are past the semaphore, or fewer than there
      are targets. */
  lemma MayPass(targets: seq<DeviceQueue>, s: State, i: nat)
    requires Invariant(targets, s) && i < |targets| && s.phases[i].Waiting?
    ensures CanMove(s, i) <==> |Holders(s)| < Min(8, |targets|)
  {
  }

  // ---------------------------------------------------------------- whole schedules

  datatype Turn = Turn(goroutine: nat, answer: Answer)

  /** The states a schedule goes through. */
  ghost predicate Runs(targets: seq<DeviceQueue>, schedule: seq<Turn>, states: seq<State>) {
    && |states| == |schedule| + 1
    && states[0] == Start(|targets|)
    && forall k | 0 <= k < |schedule| ::
      && |states[k].phases| == |states[k].deliveries| == |targets|
      && schedule[k].goroutine < |targets|
      && CanMove(states[k], schedule[k].goroutine)
      && states[k+1] == Move(targets, states[k], schedule[k].goroutine, schedule[k].answer)
  }

  lemma {:induction false} RunInvariant(targets: seq<DeviceQueue>, schedule: seq<Turn>, states: seq<State>, k: nat)
    requires Runs(targets, schedule, states) && k < |states|
    ensures Invariant(targets, states[k]) && Remaining(states[k].phases) == 6 * |targets| - k
  {
    if k == 0 {
      StartInvariant(targets);
      RemainingAtStart(|targets|);
    } else {
      RunInvariant(targets, schedule, states, k - 1);
      MoveInvariant(targets, states[k-1], schedule[k-1].goroutine, schedule[k-1].answer);
      MoveDescends(targets, states[k-1], schedule[k-1].goroutine, schedule[k-1].answer);
    }
  }

  /** However the goroutines interleave: a schedule has at most six moves a target, it gets stuck only
      when the wait is over, and then every target was sent to exactly once and `deliveries[i]` is
      about target `i` and its own answer. */
  lemma EverySchedule(targets: seq<DeviceQueue>, schedule: seq<Turn>, states: seq<State>)
    requires Runs(targets, schedule, states)
    ensures |schedule| <= 6 * |targets|
    ensures var last := states[|schedule|];
      && Invariant(targets, last)
      && (Finished(last) <==> |schedule| == 6 * |targets|)
      && (Finished(last) ==>
            && |last.deliveries| == |targets| == |last.sends|
            && forall i: nat | i < |targets| ::
              && Occurrences(last.sends, i) == 1
              && last.phases[i].Done?
              && last.deliveries[i].queue == targets[i].name && last.deliveries[i].url == targets[i].url
              && match last.phases[i].answer
                case Accepted(id) => last.deliveries[i].messageId == id && last.deliveries[i].error == ""
                case Refused(text) => last.deliveries[i].messageId == "" && last.deliveries[i].error == text)
  {
    var last := states[|schedule|];
    RunInvariant(targets, schedule, states, |schedule|);
    RemainingZero(last.phases);
    if Finished(last) {
      forall i: nat | i < |targets| ensures last.phases[i].Done? {
        assert i !in Unfinished(last);
      }
      SentOnce(last.sends, |targets|);
    } else {
      if Unfinished(last) == {} {
        var i :| 0 <= i < |targets| && last.phases[i].Unborn?;
      } else {
        var i :| i in Unfinished(last);
      }
    }
  }

  lemma {:induction false} RemainingZero(phases: seq<Phase>)
    ensures Remaining(phases) == 0 <==> forall i | 0 <= i < |phases| :: phases[i].Done?
    decreases |phases|
  {
    if phases != [] {
      RemainingZero(phases[1..]);
      assert forall i | 0 < i < |phases| :: phases[i] == phases[1..][i-1];
    }
  }

  lemma SentOnce(sends: seq<nat>, n: nat)
    requires forall i | i in sends :: i < n
    requires forall i: nat | i < n :: Occurrences(sends, i) == 1
    ensures |sends| == n
  {
    FirstNumbers(n);
    var sent, all := multiset(sends), multiset(Below(n));
    forall i: nat ensures sent[i] == all[i] {
      if i < n { assert Occurrences(sends, i) == 1; } else { assert i !in sends; }
    }
    assert sent == all;
  }

  function Below(n: nat): (r: set<nat>) { if n == 0 then {} else Below(n - 1) + {n - 1} }

  lemma {:induction false} FirstNumbers(n: nat)
    ensures |Below(n)| == n && forall i: nat :: i in Below(n) <==> i < n
  {
    if n > 0 { FirstNumbers(n - 1); }
  }

  // ---------------------------------------------------------------- the result

  datatype PublishResult = PublishResult(targeted: nat, published: nat, deliveries: seq<Delivery>)

  datatype PublishError = AllTargetsFailed(targeted: nat)

  function Clean(deliveries: seq<Delivery>): (r: set<nat>) {
    set i: nat | i < |deliveries| && deliveries[i].error == ""
  }

  /** The loop that counts what was published. */
  method Summarize(deliveries: seq<Delivery>) returns (r: Result<PublishResult, PublishError>)
    ensures r.Err? <==> forall i | 0 <= i < |deliveries| :: deliveries[i].error != ""
    ensures r.Ok? ==> r.value == PublishResult(|deliveries|, |Clean(deliveries)|, deliveries)
    ensures r.Err? ==> r.error == AllTargetsFailed(|deliveries|)
  {
    var published := 0;
    assert Clean(deliveries[..0]) == {};
    for i := 0 to |deliveries|
      invariant published == |Clean(deliveries[..i])|
    {
      if deliveries[i].error == "" {
        assert Clean(deliveries[..i+1]) == Clean(deliveries[..i]) + {i};
        published := published + 1;
      } else {
        assert Clean(deliveries[..i+1]) == Clean(deliveries[..i]);
      }
    }
    assert deliveries[..|deliveries|] == deliveries;
    assert forall i: nat | i < |deliveries| && deliveries[i].error == "" :: i in Clean(deliveries);
    if published == 0 {
      return Err(AllTargetsFailed(|deliveries|));
    }
    var i :| i in Clean(deliveries);
    r := Ok(PublishResult(|deliveries|, published, deliveries));
  }

  function AcceptedBy(s: State): (r: set<nat>) {
    set i: nat | i < |s.phases| && s.phases[i].Done? && s.phases[i].answer.Accepted?
  }

  /** The count is the number of accepted sends exactly when no queue refused with an empty text; then
      the call fails exactly when every send was refused. */
  lemma PublishedMeansAccepted(targets: seq<DeviceQueue>, schedule: seq<Turn>, states: seq<State>)
    requires Runs(targets, schedule, states) && Finished(states[|schedule|])
    ensures var last := states[|schedule|];
      |Clean(last.deliveries)| == |AcceptedBy(last)| <==>
        forall i: nat | i < |last.phases| && last.phases[i].Done? :: last.phases[i].answer != Refused("")
    ensures AcceptedBy(states[|schedule|]) <= Clean(states[|schedule|].deliveries)
  {
    EverySchedule(targets, schedule, states);
    var last := states[|schedule|];
    if forall i: nat | i < |targets| && last.phases[i].Done? :: last.phases[i].answer != Refused("") {
      assert Clean(last.deliveries) == AcceptedBy(last);
    } else {
      var i: nat :| i < |targets| && last.phases[i].Done? && last.phases[i].answer == Refused("");
      SubsetSize(AcceptedBy(last), Clean(last.deliveries) - {i});
    }
  }

  /** In a valid configuration the queue behind each URL gets the command exactly once. */
  lemma EachUrlOnce(c: Config, group: string, targets: seq<DeviceQueue>, at: seq<nat>, schedule: seq<Turn>,
      states: seq<State>)
    requires WellFormed(c) && Selects(c.queues, group, targets, at)
    requires Runs(targets, schedule, states) && Finished(states[|schedule|])
    ensures var sends := states[|schedule|].sends;
      && |sends| == |targets|
      && (forall k, l | 0 <= k < l < |sends| && sends[k] < |targets| && sends[l] < |targets| ::
            targets[sends[k]].url != targets[sends[l]].url)
      && (forall queue | queue in c.queues && InGroup(queue, group) ::
            exists k :: 0 <= k < |sends| && sends[k] < |targets| && targets[sends[k]] == queue)
  {
    EverySchedule(targets, schedule, states);
    TargetsAreDistinct(c, group, targets, at);
    hide WellFormed, Runs, Finished, Invariant, Selects, Occurrences;
    var sends := states[|schedule|].sends;
    SendsDiffer(targets, sends);
    forall queue | queue in c.queues && InGroup(queue, group)
      ensures exists k :: 0 <= k < |sends| && sends[k] < |targets| && targets[sends[k]] == queue
    {
      QueueIsSent(c.queues, group, targets, at, sends, queue);
    }
  }

  lemma SendsDiffer(targets: seq<DeviceQueue>, sends: seq<nat>)
    requires ProperQueues(targets) && forall i: nat | i < |targets| :: Occurrences(sends, i) == 1
    ensures forall k, l | 0 <= k < l < |sends| && sends[k] < |targets| && sends[l] < |targets| ::
      targets[sends[k]].url != targets[sends[l]].url
  {
    forall k, l | 0 <= k < l < |sends| && sends[k] < |targets| && sends[l] < |targets|
      ensures sends[k] != sends[l]
    {
      TwiceSent(sends, k, l);
    }
  }

  lemma QueueIsSent(queues: seq<DeviceQueue>, group: string, targets: seq<DeviceQueue>, at: seq<nat>,
      sends: seq<nat>, queue: DeviceQueue)
    requires Selects(queues, group, targets, at) && queue in queues && InGroup(queue, group)
    requires forall i: nat | i < |targets| :: Occurrences(sends, i) == 1
    ensures exists k :: 0 <= k < |sends| && sends[k] < |targets| && targets[sends[k]] == queue
  {
    var i :| 0 <= i < |queues| && queues[i] == queue;
    var t :| 0 <= t < |at| && at[t] == i;
    assert Occurrences(sends, t) == 1;
    assert t in sends;
  }

  lemma TwiceSent(sends: seq<nat>, k: nat, l: nat)
    requires k < l < |sends|
    ensures sends[k] == sends[l] ==> Occurrences(sends, sends[k]) >= 2
  {
    assert sends == sends[..k] + [sends[k]] + sends[k+1..l] + [sends[l]] + sends[l+1..];
  }
}
