/** The REST API's configuration: which device queues there are, and which of them a group means. */
module QueueConfig {
  import opened Prelude

  datatype DeviceQueue = DeviceQueue(name: string, url: string, group: string)

  datatype Config = Config(
    port: int, bindAddress: string, queues: seq<DeviceQueue>,
    resultQueueUrl: string, resultBatchSize: int, resultWaitSeconds: int)

  datatype ConfigError =
    | BadPort | NoBindAddress | NoQueues
    | NoName(index: nat) | NoUrl(index: nat) | DuplicateName(index: nat) | DuplicateUrl(index: nat)
    | ResultQueueIsDeviceQueue | BadBatchSize | BadWaitSeconds

  // ---------------------------------------------------------------- validation

  /** Every queue has a name and a URL of its own. */
  predicate ProperQueues(queues: seq<DeviceQueue>) {
    && (forall i | 0 <= i < |queues| :: queues[i].name != "" && queues[i].url != "")
    && (forall i, j | 0 <= i < j < |queues| :: queues[i].name != queues[j].name && queues[i].url != queues[j].url)
  }

  predicate WellFormed(c: Config) {
    && 1 <= c.port <= 65535 && c.bindAddress != "" && c.queues != []
    && ProperQueues(c.queues)
    && (c.resultQueueUrl != "" ==> forall i | 0 <= i < |c.queues| :: c.queues[i].url != c.resultQueueUrl)
    && 1 <= c.resultBatchSize <= 10 && 0 <= c.resultWaitSeconds <= 20
  }

  /** What a rejection says about the queues: the ones before `index` are in order, that one is not. */
  predicate Explains(e: ConfigError, queues: seq<DeviceQueue>) {
    match e
    case NoName(i) => i < |queues| && ProperQueues(queues[..i]) && queues[i].name == ""
    case NoUrl(i) => i < |queues| && ProperQueues(queues[..i]) && queues[i].name != "" && queues[i].url == ""
    case DuplicateName(i) =>
      i < |queues| && ProperQueues(queues[..i]) && exists j :: 0 <= j < i && queues[j].name == queues[i].name
    case DuplicateUrl(i) =>
      && i < |queues| && ProperQueues(queues[..i])
      && (forall j | 0 <= j < i :: queues[j].name != queues[i].name)
      && exists j :: 0 <= j < i && queues[j].url == queues[i].url
    case _ => true
  }

  function Names(queues: seq<DeviceQueue>): (r: set<string>) { set q | q in queues :: q.name }

  function Urls(queues: seq<DeviceQueue>): (r: set<string>) { set q | q in queues :: q.url }

  lemma OneMoreQueue(queues: seq<DeviceQueue>, i: nat)
    requires i < |queues|
    ensures Names(queues[..i+1]) == Names(queues[..i]) + {queues[i].name}
    ensures Urls(queues[..i+1]) == Urls(queues[..i]) + {queues[i].url}
  {
    assert queues[..i+1] == queues[..i] + [queues[i]];
  }

  /** Membership in the two sets is a clash with an earlier queue. */
  lemma Clashes(queues: seq<DeviceQueue>, i: nat)
    requires i < |queues|
    ensures queues[i].name in Names(queues[..i]) <==> exists j :: 0 <= j < i && queues[j].name == queues[i].name
    ensures queues[i].url in Urls(queues[..i]) <==> exists j :: 0 <= j < i && queues[j].url == queues[i].url
  {
    var before := queues[..i];
    forall j | 0 <= j < i ensures before[j] == queues[j] && queues[j] in before {
      assert before[j] in before;
    }
    if queues[i].name in Names(before) {
      var q :| q in before && q.name == queues[i].name;
    }
    if queues[i].url in Urls(before) {
      var q :| q in before && q.url == queues[i].url;
    }
  }

  lemma ProperStep(queues: seq<DeviceQueue>, i: nat)
    requires i < |queues| && ProperQueues(queues[..i])
    ensures ProperQueues(queues[..i+1]) <==>
      && queues[i].name != "" && queues[i].url != ""
      && (forall j | 0 <= j < i :: queues[j].name != queues[i].name)
      && (forall j | 0 <= j < i :: queues[j].url != queues[i].url)
  {
    var a, b := queues[..i], queues[..i+1];
    assert forall j | 0 <= j < i :: b[j] == a[j] == queues[j];
    assert b[i] == queues[i];
  }

  lemma ProperPrefix(queues: seq<DeviceQueue>, i: nat)
    requires i <= |queues| && ProperQueues(queues)
    ensures ProperQueues(queues[..i])
  {
  }

  /** The loop over the queues; the first one that is out of order is reported. */
  method CheckQueues(queues: seq<DeviceQueue>) returns (r: Result<set<string>, ConfigError>)
    ensures r.Ok? <==> ProperQueues(queues)
    ensures r.Ok? ==> r.value == Urls(queues)
    ensures r.Err? ==> Explains(r.error, queues)
  {
    hide ProperQueues, Names, Urls;
    var names: set<string> := {};
    var urls: set<string> := {};
    NoQueuesYet(queues);
    for index := 0 to |queues|
      invariant ProperQueues(queues[..index]) && names == Names(queues[..index]) && urls == Urls(queues[..index])
    {
      var queue := queues[index];
      Clashes(queues, index);
      ProperStep(queues, index);
      if ProperQueues(queues) { ProperPrefix(queues, index + 1); }
      if queue.name == "" { return Err(NoName(index)); }
      if queue.url == "" { return Err(NoUrl(index)); }
      if queue.name in names { return Err(DuplicateName(index)); }
      if queue.url in urls { return Err(DuplicateUrl(index)); }
      OneMoreQueue(queues, index);
      names := names + {queue.name};
      urls := urls + {queue.url};
    }
    assert queues[..|queues|] == queues;
    r := Ok(urls);
  }

  lemma NoQueuesYet(queues: seq<DeviceQueue>)
    ensures ProperQueues(queues[..0]) && Names(queues[..0]) == {} && Urls(queues[..0]) == {}
  {
  }

  lemma InUrls(queues: seq<DeviceQueue>, url: string)
    ensures url in Urls(queues) <==> !forall i | 0 <= i < |queues| :: queues[i].url != url
  {
    if !forall i | 0 <= i < |queues| :: queues[i].url != url {
      var i :| 0 <= i < |queues| && queues[i].url == url;
      assert queues[i] in queues;
    }
  }

  method Validate(c: Config) returns (r: Result<Unit, ConfigError>)
    ensures r.Ok? <==> WellFormed(c)
    ensures r.Err? ==> Explains(r.error, c.queues)
  {
    if c.port < 1 || c.port > 65535 { return Err(BadPort); }
    if c.bindAddress == "" { return Err(NoBindAddress); }
    if |c.queues| == 0 { return Err(NoQueues); }
    var urls := CheckQueues(c.queues);
    if urls.Err? { return Err(urls.error); }
    InUrls(c.queues, c.resultQueueUrl);
    if c.resultQueueUrl != "" && c.resultQueueUrl in urls.value { return Err(ResultQueueIsDeviceQueue); }
    if c.resultBatchSize < 1 || c.resultBatchSize > 10 { return Err(BadBatchSize); }
    if c.resultWaitSeconds < 0 || c.resultWaitSeconds > 20 { return Err(BadWaitSeconds); }
    r := Ok(Unit.Unit);
  }

  // ---------------------------------------------------------------- groups

  predicate InGroup(queue: DeviceQueue, group: string) { group == "" || queue.group == group }

  /** `targets` are the queues of the group, in their order: `at` gives their positions. */
  ghost predicate Selects(queues: seq<DeviceQueue>, group: string, targets: seq<DeviceQueue>, at: seq<nat>) {
    && |at| == |targets|
    && (forall k | 0 <= k < |at| :: at[k] < |queues| && InGroup(queues[at[k]], group) && targets[k] == queues[at[k]])
    && (forall k, l | 0 <= k < l < |at| :: at[k] < at[l])
    && (forall i | 0 <= i < |queues| && InGroup(queues[i], group) :: i in at)
  }

  lemma SelectsNext(queues: seq<DeviceQueue>, group: string, targets: seq<DeviceQueue>, at: seq<nat>, i: nat)
    requires i < |queues| && Selects(queues[..i], group, targets, at)
    ensures if InGroup(queues[i], group)
      then Selects(queues[..i+1], group, targets + [queues[i]], at + [i])
      else Selects(queues[..i+1], group, targets, at)
  {
    var a, b := queues[..i], queues[..i+1];
    assert b[i] == queues[i] && forall j | 0 <= j < i :: b[j] == a[j];
    assert (at + [i])[|at|] == i;
    assert forall j | j in at :: j in at + [i];
  }

  lemma SelectsMembers(queues: seq<DeviceQueue>, group: string, targets: seq<DeviceQueue>, at: seq<nat>)
    requires Selects(queues, group, targets, at)
    ensures forall q :: q in targets <==> q in queues && InGroup(q, group)
  {
    forall q | q in queues && InGroup(q, group) ensures q in targets {
      var i :| 0 <= i < |queues| && queues[i] == q;
      var k :| 0 <= k < |at| && at[k] == i;
      assert targets[k] == q;
    }
  }

  method QueuesForGroup(c: Config, group: string) returns (targets: seq<DeviceQueue>, ghost at: seq<nat>)
    ensures Selects(c.queues, group, targets, at)
    ensures forall q :: q in targets <==> q in c.queues && (group == "" || q.group == group)
  {
    if group == "" {
      targets, at := c.queues, seq(|c.queues|, i requires 0 <= i => i);
      assert forall i | 0 <= i < |c.queues| :: at[i] == i;
      SelectsMembers(c.queues, group, targets, at);
      return;
    }
    hide Selects;
    targets, at := [], [];
    SelectsNothing(c.queues, group);
    for i := 0 to |c.queues|
      invariant Selects(c.queues[..i], group, targets, at)
    {
      SelectsNext(c.queues, group, targets, at, i);
      if c.queues[i].group == group {
        targets := targets + [c.queues[i]];
        at := at + [i];
      }
    }
    assert c.queues[..|c.queues|] == c.queues;
    SelectsMembers(c.queues, group, targets, at);
  }

  lemma SelectsNothing(queues: seq<DeviceQueue>, group: string)
    ensures Selects(queues[..0], group, [], [])
  {
  }

  /** In a valid configuration the targets of a group have URLs of their own, none of them the result
      queue's. */
  lemma TargetsAreDistinct(c: Config, group: string, targets: seq<DeviceQueue>, at: seq<nat>)
    requires WellFormed(c) && Selects(c.queues, group, targets, at)
    ensures ProperQueues(targets)
    ensures forall k | 0 <= k < |targets| :: targets[k].url != c.resultQueueUrl
  {
    forall k, l | 0 <= k < l < |targets|
      ensures targets[k].name != targets[l].name && targets[k].url != targets[l].url
    {
      assert at[k] < at[l];
    }
  }
}
