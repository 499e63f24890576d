/** The device agent: it carries out command messages, reports on each, and decides which failures are
    worth another delivery. */
module AgentService {
  import opened Prelude
  import opened Json
  import opened ReleaseTree
  import opened Paths
  import opened ProcessTable
  import opened Storage
  import opened ReleaseInstaller
  import opened DeploymentEngine
  import opened ConfigurationMerge
  import opened Redelivery
  import opened VerifiedFiles
  import opened ArtifactStore

  /** A message as parsed; the payload is `None` when it is not JSON. */
  datatype AgentMessage = AgentMessage(command: string, targetGroup: string, replyQueueUrl: string,
    payload: Option<Json>)

  datatype Report = Report(destination: string, command: string, success: bool, detail: string)

  datatype Options = Options(
    group: string, versionRoot: string, sameRoots: bool, resultQueueUrl: string,
    hasStore: bool, hasPublisher: bool, hasEngine: bool, hasSystem: bool)

  // ---------------------------------------------------------------- payloads

  function ObjectOf(payload: Option<Json>): (r: Option<Members>) {
    if payload.Some? && payload.value.Object? then Some(payload.value.members) else None
  }

  /** `validated_release_id`. */
  function ReleaseIdOf(members: Members): (r: Option<CText>) {
    var id := StringMember(members, "release_id");
    if id.Some? && ArtifactReleaseId(id.value).Ok? then id else None
  }

  /** The release a command is about. */
  function VersionOf(payload: Option<Json>): (r: Option<CText>) {
    var members := ObjectOf(payload);
    if members.None? then None else ReleaseIdOf(members.value)
  }

  predicate IsAbout(payload: Option<Json>, id: string) {
    VersionOf(payload).Some? && VersionOf(payload).value == id
  }

  /** What an entry of `artifacts` lists, if it is let through. */
  function EntryOf(id: CText, element: Json): (r: Option<Listing>) {
    if !element.Object? then None
    else
      var path, sha := StringMember(element.members, "install_path"), StringMember(element.members, "sha256");
      if path.None? || sha.None? || ApiAcceptsArtifact(id, path.value).Err? then None
      else Some(Listing(id, Canonical(path.value), sha.value))
  }

  datatype Download = Download(id: CText, artifacts: seq<Json>)

  function DownloadOf(payload: Option<Json>): (r: Option<Download>) {
    var members := ObjectOf(payload);
    if members.None? then None
    else
      var id := ReleaseIdOf(members.value);
      if id.None? || "artifacts" !in members.value || !members.value["artifacts"].Array?
        || members.value["artifacts"].items == []
      then None
      else Some(Download(id.value, members.value["artifacts"].items))
  }

  datatype Update = Update(file: string, values: Members)

  function UpdateOf(payload: Option<Json>): (r: Option<Update>) {
    var members := ObjectOf(payload);
    if members.None? then None
    else
      var path := StringMember(members.value, "path");
      if path.None? || DeviceAcceptsPath(path.value).Err? || "values" !in members.value
        || !members.value["values"].Object?
      then None
      else Some(Update(Canonical(path.value), members.value["values"].members))
  }

  /** How far one entry of a download got: it was not let through; the store did not send it, and answered this when
      asked whether it has it; it could not be opened for its digest; its digest differs; it is there and right. */
  datatype Step = NotLetThrough | NotFetched(present: Option<bool>) | NotHashed | Differs | Passed

  /** Another delivery would fail the same way. */
  predicate ForGood(step: Step) {
    step.NotLetThrough? || step == NotFetched(Some(false)) || step.Differs?
  }

  /** What the store was asked for an entry, and answered. */
  function RepliesOf(id: CText, element: Json, step: Step): (r: seq<Reply>) {
    if !element.Object? || StringMember(element.members, "install_path").None? || step.NotLetThrough? then []
    else
      var key := Key(id, StringMember(element.members, "install_path").value);
      if step.NotFetched? then [Fetched(key, false), Presence(key, step.present)] else [Fetched(key, true)]
  }

  function AllReplies(id: CText, artifacts: seq<Json>, steps: seq<Step>): (r: seq<Reply>)
    requires |steps| <= |artifacts|
  {
    if steps == [] then []
    else
      var n := |steps| - 1;
      AllReplies(id, artifacts, steps[..n]) + RepliesOf(id, artifacts[n], steps[n])
  }

  /** The step is the right one: for a digest, some state of the disk shows the file that was compared. */
  ghost predicate StepRight(id: CText, element: Json, step: Step, history: seq<Snapshot>, n0: nat,
      digest: Content -> string) {
    && (step.NotLetThrough? <==> EntryOf(id, element).None?)
    && (step.Differs? || step.Passed? ==>
          exists j :: 0 <= j < |history| && j + 1 >= n0 && Compared(id, element, step.Passed?, history[j], digest))
  }

  ghost predicate Compared(id: CText, element: Json, same: bool, s: Snapshot, digest: Content -> string) {
    && EntryOf(id, element).Some?
    && var entry := EntryOf(id, element).value;
      && id in s.dirs && entry.path in s.dirs[id]
      && (same <==> digest(s.dirs[id][entry.path]) == entry.sha256)
  }

  /** The entries were dealt with in order, all but the last with success; the store was asked for nothing else. */
  ghost predicate StepsRight(id: CText, artifacts: seq<Json>, steps: seq<Step>, replies0: seq<Reply>,
      replies: seq<Reply>, history: seq<Snapshot>, n0: nat, digest: Content -> string) {
    && |steps| <= |artifacts|
    && (forall i | 0 <= i < |steps| :: StepRight(id, artifacts[i], steps[i], history, n0, digest))
    && (forall i | 0 <= i < |steps| - 1 :: steps[i].Passed?)
    && replies == replies0 + AllReplies(id, artifacts, steps)
  }

  /** What the last step makes of the download. */
  ghost predicate OutcomeOf(o: Outcome, steps: seq<Step>, n: nat) {
    if steps != [] && !steps[|steps|-1].Passed?
    then if ForGood(steps[|steps|-1]) then o.PermanentFailure? else o.TransientFailure?
    else o.Success? && |steps| == n
  }

  lemma NoSteps(id: CText, artifacts: seq<Json>, replies: seq<Reply>, history: seq<Snapshot>, n0: nat,
      digest: Content -> string)
    ensures StepsRight(id, artifacts, [], replies, replies, history, n0, digest)
  {
  }

  lemma OneStepMore(id: CText, artifacts: seq<Json>, steps: seq<Step>, step: Step, r0: seq<Reply>, r: seq<Reply>,
      r': seq<Reply>, h: seq<Snapshot>, h': seq<Snapshot>, n0: nat, digest: Content -> string)
    requires |steps| < |artifacts| && StepsRight(id, artifacts, steps, r0, r, h, n0, digest) && h <= h' && n0 <= |h|
    requires steps != [] ==> steps[|steps|-1].Passed?
    requires StepRight(id, artifacts[|steps|], step, h', |h|, digest)
    requires r' == r + RepliesOf(id, artifacts[|steps|], step)
    ensures StepsRight(id, artifacts, steps + [step], r0, r', h', n0, digest)
  {
    var all := steps + [step];
    hide Compared, RepliesOf, EntryOf;
    StepsLater(id, artifacts, steps, r0, r, h, h', n0, n0, digest);
    assert all[..|steps|] == steps;
    if step.Differs? || step.Passed? {
      var j :| 0 <= j < |h'| && j + 1 >= |h| && Compared(id, artifacts[|steps|], step.Passed?, h'[j], digest);
      assert j + 1 >= n0;
    }
  }

  /** The download was decided rightly: the directory could not be created, or the last entry decided. */
  ghost predicate Decided(id: CText, artifacts: seq<Json>, o: Outcome, created: bool, steps: seq<Step>,
      replies0: seq<Reply>, replies: seq<Reply>, history: seq<Snapshot>, n0: nat, digest: Content -> string) {
    if created
    then StepsRight(id, artifacts, steps, replies0, replies, history, n0, digest) && OutcomeOf(o, steps, |artifacts|)
    else o.TransientFailure? && replies == replies0 && steps == []
  }

  lemma StepsLater(id: CText, artifacts: seq<Json>, steps: seq<Step>, r0: seq<Reply>, r: seq<Reply>, h: seq<Snapshot>,
      h': seq<Snapshot>, n0: nat, n: nat, digest: Content -> string)
    requires StepsRight(id, artifacts, steps, r0, r, h, n, digest) && h <= h' && n0 <= n
    ensures StepsRight(id, artifacts, steps, r0, r, h', n0, digest)
  {
    hide Compared, AllReplies, EntryOf;
    forall i | 0 <= i < |steps| ensures StepRight(id, artifacts[i], steps[i], h', n0, digest) {
      if steps[i].Differs? || steps[i].Passed? {
        var j :| 0 <= j < |h| && j + 1 >= n && Compared(id, artifacts[i], steps[i].Passed?, h[j], digest);
        assert h'[j] == h[j];
      }
    }
  }

  /** How often a step failed to open its file. */
  function Unread(steps: seq<Step>): (n: nat) {
    if steps != [] && steps[|steps|-1].NotHashed? then 1 else 0
  }

  function TemporaryName(file: string): (r: string)
    ensures r != file
  {
    assert |file + ".tmp"| > |file|;
    file + ".tmp"
  }

  // ---------------------------------------------------------------- the agent

  class AgentService {
    const options: Options
    const versions: Disk
    const store: Store
    const engine: DeploymentEngine
    /** SHA-256 in hexadecimal, and the JSON library. */
    const digest: Content -> string
    const parse: Content -> Option<Json>
    const serialize: Json -> Content
    var lastReport: string
    var failureIsPermanent: bool
    var failingMessage: string
    var failingAttempts: nat
    /** History: every delivery, every report, every listing of a download, every file a configuration
        update wrote; how often a discarded version kept a file that nothing lists; and how often a release
        was applied from an unchecked version or over an unchecked stale file. */
    ghost var deliveries: seq<Delivery>
    ghost var reports: seq<Report>
    ghost var listings: set<Listing>
    ghost var rewritten: set<FileId>
    ghost var badDiscards: nat
    ghost var badApplies: nat
    /** How long the disk's history was when each delivery had been dealt with. */
    ghost var moments: seq<nat>
    /** Whether each replacement of a file by an update worked, and what the system answered to each request. */
    ghost var replacements: seq<bool>
    ghost var requests: seq<bool>

    /** An agent starts on a device as the last one left it; `listings` and `rewritten` are what the files
        there were checked against, and the two counts are of what went wrong with them so far. */
    constructor (options: Options, versions: Disk, store: Store, engine: DeploymentEngine, digest: Content -> string,
        parse: Content -> Option<Json>, serialize: Json -> Content, ghost listings: set<Listing>,
        ghost rewritten: set<FileId>, ghost badDiscards: nat, ghost badApplies: nat)
      requires versions != engine.disk && versions.Valid() && engine.Inv()
      requires badDiscards == 0 ==> VersionsChecked(versions.view, digest, listings)
      requires badApplies == 0 ==>
        && ReleasesChecked(engine.disk.view, digest, listings, rewritten)
        && LaunchesChecked(engine.kernel.world, digest, listings, rewritten)
      ensures Valid() && Counting() && deliveries == [] && reports == [] && moments == []
      ensures this.listings == listings && this.rewritten == rewritten
      ensures this.badDiscards == badDiscards && this.badApplies == badApplies
      ensures this.options == options && this.versions == versions && this.engine == engine
      ensures this.digest == digest && this.store == store
      ensures this.parse == parse && this.serialize == serialize
    {
      this.options := options;
      this.versions := versions;
      this.store := store;
      this.engine := engine;
      this.digest := digest;
      this.parse := parse;
      this.serialize := serialize;
      lastReport, failureIsPermanent, failingMessage, failingAttempts := "", false, "", 0;
      deliveries, reports, moments, replacements, requests := [], [], [], [], [];
      this.listings, this.rewritten := listings, rewritten;
      this.badDiscards, this.badApplies := badDiscards, badApplies;
    }

    /** The retry counter stands for the block of failures that ends the history. */
    ghost predicate Counting()
      reads this`failingAttempts, this`failingMessage, this`deliveries
    {
      && failingAttempts == Block(deliveries) % MAX_TRANSIENT_ATTEMPTS
      && (failingAttempts > 0 ==> failingMessage == deliveries[|deliveries|-1].raw)
      && Bounded(deliveries)
    }

    /** Unless a discarded version kept an unlisted file, every file in a version was checked; and unless a
        release was applied from unchecked files, so was every file in a release or in a process. */
    ghost predicate Guarded()
      reads this`listings, this`rewritten, this`badDiscards, this`badApplies, versions, engine, engine.disk
      reads engine.kernel
    {
      && (badDiscards == 0 ==> VersionsChecked(versions.view, digest, listings))
      && (badApplies == 0 ==>
            && ReleasesChecked(engine.disk.view, digest, listings, rewritten)
            && LaunchesChecked(engine.kernel.world, digest, listings, rewritten))
    }

    ghost predicate Valid()
      reads this`listings, this`rewritten, this`badDiscards, this`badApplies, versions, engine, engine.kernel
      reads engine.supervisor, engine.disk, engine.installer
    {
      versions != engine.disk && versions.Valid() && engine.Inv() && Guarded()
    }

    /** Failed looks are only added to, and only a failed look at `state.json` misleads the installer. */
    twostate predicate MoreFaults()
      reads engine, engine.disk, engine.kernel, engine.installer
    {
      && engine.disk.queryFaults >= old(engine.disk.queryFaults)
      && engine.disk.stateFaults >= old(engine.disk.stateFaults)
      && engine.kernel.world.tokenFaults >= old(engine.kernel.world.tokenFaults)
      && (engine.disk.stateFaults == old(engine.disk.stateFaults) ==>
            engine.installer.misled == old(engine.installer.misled))
    }

    /** Unless something went wrong by itself, the engine had a reason to fail. */
    twostate predicate EngineFailed(id: CText, source: Option<Tree>)
      reads engine.disk, engine.kernel, engine.supervisor, engine.clock, engine.network
    {
      engine.Mishaps() == old(engine.Mishaps()) ==> exists e ::
        engine.Reason(e, id, source, engine.disk.view.dirs, PointersOf(old(engine.disk.view)), old(engine.kernel.world),
          |old(engine.supervisor.asked)|, |old(engine.network.answers)|, |old(engine.clock.ticks)|)
    }

    /** `permanent`: another delivery would fail the same way. */
    method Permanent(reason: string) returns (o: Outcome)
      modifies this`failureIsPermanent
      ensures o == PermanentFailure(reason) && failureIsPermanent
    {
      failureIsPermanent := true;
      o := PermanentFailure(reason);
    }

    // -------------------------------------------------------------- download_version

    /** Fetches and checks one artifact after the other. */
    method Fetch(id: CText, artifacts: seq<Json>)
      returns (o: Outcome, ghost bad: Option<string>, ghost steps: seq<Step>)
      requires versions.Valid() && id in versions.view.dirs && !failureIsPermanent
      modifies this`failureIsPermanent, this`listings, store, versions`view, versions`history, versions`written
      modifies versions`ioFaults, versions`unread
      ensures versions.Valid() && OnlyDirectory(old(versions.view), versions.view, id) && id in versions.view.dirs
      ensures failureIsPermanent == o.PermanentFailure?
      ensures old(listings) <= listings && Listed(id, artifacts, listings - old(listings))
      ensures o.Success? ==>
        && FilesListed(id, artifacts, |artifacts|, versions.view.dirs[id], digest)
        && (Checked(id, old(versions.view).dirs[id], digest, old(listings), {}) ==>
              Checked(id, versions.view.dirs[id], digest, listings, {}))
      ensures o.Success? ==> bad.None?
      ensures !o.Success? ==>
        && Suspect(id, artifacts, bad)
        && (Checked(id, old(versions.view).dirs[id], digest, old(listings), {}) ==>
              CheckedBut(id, versions.view.dirs[id], bad, digest, listings))
      ensures old(versions.history) <= versions.history && versions.unread >= old(versions.unread)
      ensures StepsRight(id, artifacts, steps, old(store.replies), store.replies, versions.history,
        |old(versions.history)|, digest)
      ensures OutcomeOf(o, steps, |artifacts|)
      ensures versions.unread == old(versions.unread) + Unread(steps)
    {
      hide FilesListed, Checked, CheckedBut, EntryOf, OnlyDirectory, OnlyFile, StepsRight, StepRight, RepliesOf,
        Suspect, FileOf, OutcomeOf;
      bad, steps := None, [];
      NothingFetched(id, artifacts, versions.view, digest, listings);
      NoSteps(id, artifacts, store.replies, versions.history, |versions.history|, digest);
      for i := 0 to |artifacts|
        invariant versions.Valid() && OnlyDirectory(old(versions.view), versions.view, id) && id in versions.view.dirs
        invariant !failureIsPermanent && old(versions.history) <= versions.history
        invariant versions.unread == old(versions.unread) && |steps| == i && (steps != [] ==> steps[i-1].Passed?)
        invariant StepsRight(id, artifacts, steps, old(store.replies), store.replies, versions.history,
          |old(versions.history)|, digest)
        invariant old(listings) <= listings && Listed(id, artifacts, listings - old(listings))
        invariant FilesListed(id, artifacts, i, versions.view.dirs[id], digest)
        invariant Checked(id, old(versions.view).dirs[id], digest, old(listings), {}) ==>
          Checked(id, versions.view.dirs[id], digest, listings, {})
      {
        ghost var replies, history := store.replies, versions.history;
        ghost var tree, s := versions.view.dirs[id], versions.view;
        ghost var entry, step;
        o, entry, step := FetchEntry(id, artifacts[i]);
        OneStepMore(id, artifacts, steps, step, old(store.replies), replies, store.replies, history, versions.history,
          |old(versions.history)|, digest);
        steps := steps + [step];
        SameDirectory(old(versions.view), s, versions.view, id);
        if !o.Success? {
          StepDecides(o, steps, |artifacts|);
          bad := FileOf(id, artifacts[i]);
          SuspectNamed(id, artifacts, i);
          if Checked(id, tree, digest, listings, {}) {
            FetchedNot(id, tree, versions.view.dirs[id], bad, digest, listings);
          }
          return;
        }
        FetchedOne(id, artifacts, i, tree, versions.view.dirs[id], entry.path, digest, listings);
        ListedNext(id, artifacts, i, listings - old(listings), entry);
        listings := listings + {entry};
      }
      o := Success;
      StepDecides(o, steps, |artifacts|);
    }

    method FetchEntry(id: CText, element: Json) returns (o: Outcome, ghost entry: Listing, ghost step: Step)
      requires versions.Valid() && id in versions.view.dirs && !failureIsPermanent
      modifies this`failureIsPermanent, store, versions`view, versions`history, versions`written
      modifies versions`ioFaults, versions`unread
      ensures versions.Valid() && OnlyDirectory(old(versions.view), versions.view, id) && id in versions.view.dirs
      ensures failureIsPermanent == o.PermanentFailure?
      ensures !o.Success? ==>
        if FileOf(id, element).Some?
        then OnlyFile(old(versions.view).dirs[id], versions.view.dirs[id], FileOf(id, element).value)
        else versions.view == old(versions.view)
      ensures o.Success? ==>
        && entry.path in versions.view.dirs[id]
        && versions.view.dirs[id] == old(versions.view).dirs[id][entry.path := versions.view.dirs[id][entry.path]]
        && entry == Listing(id, entry.path, digest(versions.view.dirs[id][entry.path]))
        && EntryOf(id, element) == Some(entry)
      ensures old(versions.history) <= versions.history
      ensures StepRight(id, element, step, versions.history, |old(versions.history)|, digest)
      ensures store.replies == old(store.replies) + RepliesOf(id, element, step)
      ensures versions.unread == old(versions.unread) + if step.NotHashed? then 1 else 0
      ensures (o.Success? <==> step.Passed?) && (o.PermanentFailure? <==> ForGood(step))
    {
      hide Canonical, ApiAcceptsArtifact, OnlyDirectory, Compared;
      SameDirectories(versions.view);
      entry, step := Listing(id, "", ""), NotLetThrough;
      if !element.Object? {
        o := Permanent("artifact entry is not an object");
        return;
      }
      var path := StringMember(element.members, "install_path");
      if path.None? {
        o := Permanent("payload field 'install_path' is missing or not a string");
        return;
      }
      var sha := StringMember(element.members, "sha256");
      if sha.None? {
        o := Permanent("payload field 'sha256' is missing or not a string");
        return;
      }
      var key := MakeObjectKey(id, path.value);
      if key.Err? {
        o := Permanent("the key is not allowed");
        return;
      }
      o, entry, step := FetchListed(id, element, path.value, sha.value, key.value);
    }

    /** Fetches and checks the file of an entry that was let through. */
    method FetchListed(id: CText, ghost element: Json, path: CText, sha: CText, key: string)
      returns (o: Outcome, ghost entry: Listing, ghost step: Step)
      requires versions.Valid() && id in versions.view.dirs && !failureIsPermanent
      requires EntryOf(id, element) == Some(Listing(id, Canonical(path), sha)) && key == Key(id, path)
      requires element.Object? && StringMember(element.members, "install_path") == Some(path)
      modifies this`failureIsPermanent, store, versions`view, versions`history, versions`written
      modifies versions`ioFaults, versions`unread
      ensures versions.Valid() && OnlyDirectory(old(versions.view), versions.view, id) && id in versions.view.dirs
      ensures failureIsPermanent == o.PermanentFailure?
      ensures OnlyFile(old(versions.view).dirs[id], versions.view.dirs[id], Canonical(path))
      ensures o.Success? ==>
        && entry.path in versions.view.dirs[id]
        && versions.view.dirs[id] == old(versions.view).dirs[id][entry.path := versions.view.dirs[id][entry.path]]
        && entry == Listing(id, entry.path, digest(versions.view.dirs[id][entry.path]))
        && EntryOf(id, element) == Some(entry)
      ensures old(versions.history) <= versions.history
      ensures StepRight(id, element, step, versions.history, |old(versions.history)|, digest)
      ensures store.replies == old(store.replies) + RepliesOf(id, element, step)
      ensures versions.unread == old(versions.unread) + if step.NotHashed? then 1 else 0
      ensures (o.Success? <==> step.Passed?) && (o.PermanentFailure? <==> ForGood(step))
    {
      hide Canonical, Key, EntryOf, OnlyDirectory, OnlyFile;
      entry := Listing(id, "", "");
      var file := Canonical(path);
      var downloaded := DownloadFile(id, file, key);
      if !downloaded {
        var present := store.Exists(key);
        step := NotFetched(present);
        if present == Some(false) {
          o := Permanent("artifact does not exist in the store");
        } else {
          o := TransientFailure("the download failed");
        }
        return;
      }
      var hashed := versions.Open(id, file);
      if !hashed {
        return TransientFailure("cannot open the file for hashing"), entry, NotHashed;
      }
      ghost var last := |versions.history| - 1;
      assert versions.history[last] == versions.view;
      if digest(versions.view.dirs[id][file]) != sha {
        o := Permanent("sha256 mismatch");
        step := Differs;
        assert Compared(id, element, false, versions.history[last], digest);
        return;
      }
      entry, step := Listing(id, file, sha), Passed;
      assert Compared(id, element, true, versions.history[last], digest);
      o := Success;
    }

    /** The store's download into the version. */
    method DownloadFile(id: CText, file: string, key: string) returns (ok: bool)
      requires versions.Valid() && id in versions.view.dirs
      modifies store, versions`view, versions`history, versions`written, versions`ioFaults
      ensures versions.Valid() && OnlyDirectory(old(versions.view), versions.view, id) && id in versions.view.dirs
      ensures old(versions.history) <= versions.history && store.replies == old(store.replies) + [Fetched(key, ok)]
      ensures OnlyFile(old(versions.view).dirs[id], versions.view.dirs[id], file)
      ensures ok ==>
        && file in versions.view.dirs[id]
        && versions.view.dirs[id] == old(versions.view).dirs[id][file := versions.view.dirs[id][file]]
    {
      ok := store.Download(key, versions, id, file);
      OnlyFileWritten(old(versions.view.dirs[id]), versions.view.dirs[id], file);
    }

    /** A download fails for good exactly if it cannot be one, an entry is not let through or has another digest, or
        the store says that an artifact does not exist; every other failure may pass. */
    twostate predicate DownloadDecided(payload: Option<Json>, o: Outcome)
      reads versions, store
    {
      if !options.hasStore || options.versionRoot == "" || DownloadOf(payload).None?
      then o.PermanentFailure? && store.replies == old(store.replies)
      else
        var d := DownloadOf(payload).value;
        exists created, steps ::
          && Decided(d.id, d.artifacts, o, created, steps, old(store.replies), store.replies, versions.history,
               |old(versions.history)|, digest)
          && versions.unread == old(versions.unread) + Unread(steps)
          && (!created ==> versions.ioFaults > old(versions.ioFaults))
    }

    /** Downloads a version; unless every artifact was fetched and checked, the version is removed again. */
    method DownloadVersion(payload: Option<Json>) returns (o: Outcome, ghost bad: Option<string>)
      requires Valid() && !failureIsPermanent
      modifies this`lastReport, this`failureIsPermanent, this`listings, this`badDiscards, store, versions
      ensures Valid() && failureIsPermanent == o.PermanentFailure? && old(listings) <= listings
      ensures DownloadOf(payload).None? ==>
        !o.Success? && versions.view == old(versions.view) && listings == old(listings)
      ensures versions.failedRemovals >= old(versions.failedRemovals)
      ensures badDiscards == old(badDiscards) || versions.failedRemovals > old(versions.failedRemovals)
      ensures DownloadOf(payload).None? ==> badDiscards == old(badDiscards)
      ensures DownloadOf(payload).Some? ==>
        var d := DownloadOf(payload).value;
        && OnlyDirectory(old(versions.view), versions.view, d.id)
        && Listed(d.id, d.artifacts, listings - old(listings))
        && (o.Success? ==>
              && d.id in versions.view.dirs
              && FilesListed(d.id, d.artifacts, |d.artifacts|, versions.view.dirs[d.id], digest))
        && (!o.Success? && versions.failedRemovals == old(versions.failedRemovals) ==>
              d.id !in versions.view.dirs || versions.view == old(versions.view))
        && (VersionsChecked(old(versions.view), digest, old(listings)) ==>
              (VersionsChecked(versions.view, digest, listings) <==>
                !UncheckedStays(versions.view, d.id, bad, digest, listings)))
        && Suspect(d.id, d.artifacts, bad) && (o.Success? ==> bad.None?)
        && badDiscards ==
             old(badDiscards) + if UncheckedStays(versions.view, d.id, bad, digest, listings) then 1 else 0
      ensures DownloadDecided(payload, o)
      ensures o.Success? ==> lastReport in Texts("download_version")
    {
      hide Valid, Guarded, VersionsChecked, UncheckedStays, Suspect, FilesListed, Listed, OnlyDirectory, Decided;
      bad := None;
      NothingListed(versions.view, payload, digest, listings);
      if !options.hasStore {
        o := Permanent("artifact store is not configured");
        return;
      }
      if options.versionRoot == "" {
        o := Permanent("version_root is not configured");
        return;
      }
      var request := DownloadOf(payload);
      if request.None? {
        o := Permanent("the payload is not a download");
        return;
      }
      ghost var created, steps;
      o, bad, created, steps := DownloadInto(request.value.id, request.value.artifacts);
    }

    /** Creates the directory and fills it. `bad` is the file whose download failed. */
    method DownloadInto(id: CText, artifacts: seq<Json>)
      returns (o: Outcome, ghost bad: Option<string>, ghost created: bool, ghost steps: seq<Step>)
      requires Valid() && !failureIsPermanent
      modifies this`lastReport, this`failureIsPermanent, this`listings, this`badDiscards, store, versions
      ensures Valid() && failureIsPermanent == o.PermanentFailure? && old(listings) <= listings
      ensures OnlyDirectory(old(versions.view), versions.view, id) && Listed(id, artifacts, listings - old(listings))
      ensures o.Success? ==>
        id in versions.view.dirs && FilesListed(id, artifacts, |artifacts|, versions.view.dirs[id], digest)
      ensures badDiscards ==
        old(badDiscards) + if UncheckedStays(versions.view, id, bad, digest, listings) then 1 else 0
      ensures versions.failedRemovals >= old(versions.failedRemovals)
      ensures badDiscards == old(badDiscards) || versions.failedRemovals > old(versions.failedRemovals)
      ensures !o.Success? && versions.failedRemovals == old(versions.failedRemovals) ==>
        id !in versions.view.dirs || versions.view == old(versions.view)
      ensures Suspect(id, artifacts, bad) && (o.Success? ==> bad.None?)
      ensures VersionsChecked(old(versions.view), digest, old(listings)) ==>
        (VersionsChecked(versions.view, digest, listings) <==>
          !UncheckedStays(versions.view, id, bad, digest, listings))
      ensures old(versions.history) <= versions.history && versions.unread == old(versions.unread) + Unread(steps)
      ensures !created ==> versions.ioFaults > old(versions.ioFaults)
      ensures Decided(id, artifacts, o, created, steps, old(store.replies), store.replies, versions.history,
        |old(versions.history)|, digest)
      ensures o.Success? ==> lastReport in Texts("download_version")
    {
      hide ReleasesChecked, LaunchesChecked, VersionsChecked, Checked, FilesListed, StepsRight, OutcomeOf, Decided,
        Listed, OnlyDirectory, UncheckedStays, Suspect;
      hide DeploymentEngine.Inv, DeploymentEngine.Single;
      bad, steps := None, [];
      ghost var s0, l0 := versions.view, listings;
      NothingFetched(id, artifacts, s0, digest, listings);
      NothingStays(s0, id, digest, listings);
      var made := versions.CreateDirectory(id);
      created := made;
      if !made {
        o := TransientFailure("cannot create the version directory");
        DecidedEarly(id, artifacts, o, store.replies, versions.history, |old(versions.history)|, digest);
        return;
      }
      ghost var n1 := |versions.history|;
      if VersionsChecked(s0, digest, l0) { CreatedIsChecked(s0, versions.view, id, digest, l0); }
      o, bad, steps := Fill(id, artifacts, s0);
      DecidedLate(id, artifacts, o, steps, old(store.replies), store.replies, versions.history,
        |old(versions.history)|, n1, digest);
      ReleasesCheckedMore(engine.disk.view, digest, l0, rewritten, listings, rewritten);
      LaunchesCheckedMore(engine.kernel.world, digest, l0, rewritten, listings, rewritten);
    }

    /** Fetches the artifacts into the directory of the version, and removes it again if that fails. */
    method Fill(id: CText, artifacts: seq<Json>, ghost s0: Snapshot)
      returns (o: Outcome, ghost bad: Option<string>, ghost steps: seq<Step>)
      requires versions.Valid() && !failureIsPermanent
      requires OnlyDirectory(s0, versions.view, id) && id in versions.view.dirs
      requires VersionsChecked(s0, digest, listings) ==> Checked(id, versions.view.dirs[id], digest, listings, {})
      modifies this`lastReport, this`failureIsPermanent, this`listings, this`badDiscards, store, versions
      ensures versions.Valid() && failureIsPermanent == o.PermanentFailure? && old(listings) <= listings
      ensures OnlyDirectory(s0, versions.view, id) && Listed(id, artifacts, listings - old(listings))
      ensures o.Success? ==>
        id in versions.view.dirs && FilesListed(id, artifacts, |artifacts|, versions.view.dirs[id], digest)
      ensures badDiscards ==
        old(badDiscards) + if UncheckedStays(versions.view, id, bad, digest, listings) then 1 else 0
      ensures versions.failedRemovals >= old(versions.failedRemovals)
      ensures badDiscards == old(badDiscards) || versions.failedRemovals > old(versions.failedRemovals)
      ensures !o.Success? && versions.failedRemovals == old(versions.failedRemovals) ==> id !in versions.view.dirs
      ensures Suspect(id, artifacts, bad) && (o.Success? ==> bad.None?)
      ensures VersionsChecked(s0, digest, old(listings)) ==>
        (VersionsChecked(versions.view, digest, listings) <==>
          !UncheckedStays(versions.view, id, bad, digest, listings))
      ensures old(versions.history) <= versions.history && versions.unread == old(versions.unread) + Unread(steps)
      ensures StepsRight(id, artifacts, steps, old(store.replies), store.replies, versions.history,
        |old(versions.history)|, digest)
      ensures OutcomeOf(o, steps, |artifacts|)
      ensures o.Success? ==> lastReport in Texts("download_version")
    {
      hide VersionsChecked, Checked, CheckedBut, FilesListed, Listed, OnlyDirectory, RemovedPartly, StepsRight,
        OutcomeOf;
      ghost var s1, l0 := versions.view, listings;
      o, bad, steps := Fetch(id, artifacts);
      ghost var history := versions.history;
      SameDirectory(s0, s1, versions.view, id);
      if o.Success? {
        if VersionsChecked(s0, digest, l0) { DownloadIsChecked(s0, s1, versions.view, id, digest, l0, listings); }
        lastReport := "downloaded release";
      } else {
        Discard(id, bad, s0, l0);
        StepsLater(id, artifacts, steps, old(store.replies), store.replies, history, versions.history,
          |old(versions.history)|, |old(versions.history)|, digest);
      }
    }

    /** What the guard does when a download has failed. */
    method Discard(id: CText, ghost bad: Option<string>, ghost s0: Snapshot, ghost l0: set<Listing>)
      requires versions.Valid() && OnlyDirectory(s0, versions.view, id) && id in versions.view.dirs && l0 <= listings
      requires VersionsChecked(s0, digest, l0) ==> CheckedBut(id, versions.view.dirs[id], bad, digest, listings)
      modifies this`badDiscards, versions`view, versions`history, versions`written, versions`failedRemovals
      modifies versions`stagingFaults, versions`ioFaults
      ensures versions.Valid() && OnlyDirectory(s0, versions.view, id) && old(versions.history) <= versions.history
      ensures badDiscards ==
        old(badDiscards) + if UncheckedStays(versions.view, id, bad, digest, listings) then 1 else 0
      ensures versions.failedRemovals >= old(versions.failedRemovals)
      ensures id in versions.view.dirs ==> versions.failedRemovals > old(versions.failedRemovals)
      ensures VersionsChecked(s0, digest, l0) ==>
        (VersionsChecked(versions.view, digest, listings) <==>
          !UncheckedStays(versions.view, id, bad, digest, listings))
    {
      hide VersionsChecked, CheckedBut, OnlyDirectory, RemovedPartly;
      ghost var s := versions.view;
      var removed := versions.RemoveAll(id);
      RemovedOnly(s, versions.view, id);
      SameDirectory(s0, s, versions.view, id);
      if VersionsChecked(s0, digest, l0) { DiscardedExactly(s0, s, versions.view, id, bad, digest, l0, listings); }
      if UncheckedStays(versions.view, id, bad, digest, listings) { badDiscards := badDiscards + 1; }
    }

    // -------------------------------------------------------------- the other commands

    /** Cleaning fails for good exactly if no version root is configured, or it is there and is the service root as
        well; then, and when it is not there, nothing is removed. */
    twostate predicate CleanDecided(o: Outcome)
      reads versions
    {
      && (o.TransientFailure? ==> versions.ioFaults > old(versions.ioFaults))
      && if options.versionRoot == ""
         then
           && o.PermanentFailure? && versions.view == old(versions.view)
           && versions.rootLooks == old(versions.rootLooks)
         else
           || (&& versions.rootLooks == old(versions.rootLooks) + [false] && o.Success?
               && versions.view == old(versions.view))
           || (&& versions.rootLooks == old(versions.rootLooks) + [true] && (o.PermanentFailure? <==> options.sameRoots)
               && (o.PermanentFailure? ==> versions.view == old(versions.view))
               && (o.Success? ==> versions.view.dirs == map[]))
    }

    method CleanOldVersion() returns (o: Outcome)
      requires Valid() && !failureIsPermanent
      modifies this`lastReport, this`failureIsPermanent, versions
      ensures Valid() && failureIsPermanent == o.PermanentFailure?
      ensures Shrunk(old(versions.view), versions.view) && versions.failedRemovals >= old(versions.failedRemovals)
      ensures o.Success? ==> versions.view.dirs == map[] || versions.queryFaults > old(versions.queryFaults)
      ensures versions.queryFaults > old(versions.queryFaults) ==> versions.view == old(versions.view)
      ensures CleanDecided(o)
      ensures o.Success? ==> lastReport in Texts("clean_old_version")
    {
      hide ReleasesChecked, LaunchesChecked, VersionsChecked, DeploymentEngine.Inv, Shrunk;
      ShrunkSelf(versions.view);
      if options.versionRoot == "" {
        o := Permanent("version_root is not configured");
        return;
      }
      var there := versions.RootExists();
      if !there {
        lastReport := "nothing to clean";
        return Success;
      }
      if options.sameRoots {
        o := Permanent("version_root must not be the same as service_root");
        return;
      }
      var names := versions.List();
      if names.None? {
        return TransientFailure("cannot list the versions");
      }
      var removed := RemoveVersions(names.value);
      if !removed {
        return TransientFailure("cannot remove a version");
      }
      lastReport := "removed the versions";
      o := Success;
    }

    method RemoveVersions(names: seq<string>) returns (ok: bool)
      requires Valid() && forall n :: n in names <==> n in versions.view.dirs
      modifies versions
      ensures Valid() && Shrunk(old(versions.view), versions.view)
      ensures versions.failedRemovals >= old(versions.failedRemovals)
      ensures versions.queryFaults == old(versions.queryFaults) && versions.rootLooks == old(versions.rootLooks)
      ensures ok ==> versions.view.dirs == map[]
      ensures versions.ioFaults >= old(versions.ioFaults) && (!ok ==> versions.ioFaults > old(versions.ioFaults))
    {
      hide ReleasesChecked, LaunchesChecked, VersionsChecked, Checked, DeploymentEngine.Inv, Shrunk;
      ghost var s0 := versions.view;
      ShrunkSelf(s0);
      for i := 0 to |names|
        invariant versions.Valid() && Shrunk(s0, versions.view)
        invariant versions.failedRemovals >= old(versions.failedRemovals)
        invariant versions.queryFaults == old(versions.queryFaults) && versions.ioFaults >= old(versions.ioFaults)
        invariant versions.rootLooks == old(versions.rootLooks)
        invariant forall n | n in versions.view.dirs :: n in names[i..]
      {
        ghost var s := versions.view;
        var removed := versions.RemoveAll(names[i]);
        ShrunkNext(s0, s, versions.view, names[i]);
        if !removed {
          if VersionsChecked(s0, digest, listings) { ShrunkChecked(s0, versions.view, digest, listings); }
          return false;
        }
        assert names[i..] == [names[i]] + names[i+1..];
      }
      if VersionsChecked(s0, digest, listings) { ShrunkChecked(s0, versions.view, digest, listings); }
      ok := true;
    }

    /** The system is asked for something, and may refuse. */
    method AskSystem() returns (ok: bool)
      modifies this`requests
      ensures requests == old(requests) + [ok]
    {
      ok := *;
      requests := requests + [ok];
    }

    method CurrentStatus() returns (o: Outcome)
      requires Valid() && !failureIsPermanent
      modifies this`lastReport, this`requests
      ensures Valid() && !o.PermanentFailure? && requests == old(requests) + [o.Success?]
      ensures o.Success? ==> lastReport in Texts("current_status")
    {
      var known := AskSystem();
      if !known {
        return TransientFailure("cannot query disk space");
      }
      lastReport := "status";
      o := Success;
    }

    method ApplyVersion(payload: Option<Json>) returns (o: Outcome)
      requires Valid() && !failureIsPermanent
      modifies this`lastReport, this`failureIsPermanent, this`badApplies, versions`queryFaults
      modifies engine, engine.supervisor, engine.network, engine.installer, engine.kernel, engine.clock, engine.disk
      ensures old(engine.installer.activated) <= engine.installer.activated
      ensures forall x | x in engine.installer.activated - old(engine.installer.activated) ::
        IsAbout(payload, x)
      ensures forall x | x in engine.lost - old(engine.lost) :: IsAbout(payload, x)
      ensures engine.disk.stagingFaults >= old(engine.disk.stagingFaults)
      ensures badDiscards == 0 && engine.disk.stagingFaults == old(engine.disk.stagingFaults) ==>
        badApplies == old(badApplies)
      ensures old(engine.disk.history) <= engine.disk.history && MoreFaults()
      ensures Valid() && failureIsPermanent == o.PermanentFailure? && !o.TransientFailure?
      ensures old(engine.Single()) ==> engine.Single()
      ensures o.Success? ==>
        && VersionOf(payload).Some?
        && Deployed(VersionOf(payload).value, old(engine.disk.stagingFaults), old(engine.disk.view))
        && engine.IsNew(old(engine.kernel.world))
        && engine.FoundReady(|old(engine.supervisor.asked)|, |old(engine.network.answers)|)
      ensures badApplies == old(badApplies) || (badApplies == old(badApplies) + 1 && VersionOf(payload).Some? &&
        BadSource(VersionOf(payload).value, old(engine.disk.view), old(engine.disk.stagingFaults)))
      ensures !o.Success? ==> NotApplied(payload)
      ensures o.Success? ==> lastReport in Texts("apply_version")
    {
      hide Valid, Deployed, BadSource, VersionOf, DeploymentEngine.Single, DeploymentEngine.InStep,
        DeploymentEngine.IsNew, DeploymentEngine.FoundReady, DeploymentEngine.Reason, MishapsOf;
      var id := VersionOf(payload);
      if id.None? {
        o := Permanent("payload field 'release_id' is not valid");
        return;
      }
      if !options.hasEngine {
        o := Permanent("deployment engine is not configured");
        return;
      }
      Apart();
      var present := HasVersion(id.value);
      if !present {
        o := Permanent("version is not downloaded");
        return;
      }
      var applied := ApplyDownloaded(id.value);
      if !applied {
        o := Permanent("the release was not applied");
        return;
      }
      lastReport := "applied";
      o := Success;
    }

    method HasVersion(id: CText) returns (b: bool)
      requires Valid()
      modifies versions`queryFaults
      ensures Valid()
      ensures versions.queryFaults >= old(versions.queryFaults)
      ensures !b ==> id !in versions.view.dirs || versions.queryFaults > old(versions.queryFaults)
    {
      hide ReleasesChecked, LaunchesChecked, VersionsChecked, DeploymentEngine.Inv;
      b := versions.Exists(Directory(id));
    }

    /** What a version is applied from. */
    function SourceOf(id: CText): (r: Option<Tree>)
      reads versions`view
    {
      if id in versions.view.dirs then Some(versions.view.dirs[id]) else None
    }

    twostate predicate NotRolledBack(payload: Option<Json>)
      reads engine.disk, engine.kernel, engine.supervisor, engine.clock, engine.network
    {
      VersionOf(payload).None? || !options.hasEngine || EngineFailed(VersionOf(payload).value, None)
    }

    twostate predicate NotRestarted()
      reads engine.disk, engine.kernel, engine.supervisor, engine.clock, engine.network
    {
      !options.hasEngine || EngineFailed(ActiveOf(old(engine.disk.view)), None)
    }

    /** Why a release was not applied: the message, the agent, a version that is not there, or the engine. */
    twostate predicate NotApplied(payload: Option<Json>)
      reads versions, engine.disk, engine.kernel, engine.supervisor, engine.clock, engine.network
    {
      || VersionOf(payload).None? || !options.hasEngine
      || (versions.queryFaults > old(versions.queryFaults) || VersionOf(payload).value !in versions.view.dirs)
      || EngineFailed(VersionOf(payload).value, SourceOf(VersionOf(payload).value))
    }

    /** The process runs the files of the downloaded version, unless a stale file was in the way. */
    ghost predicate Deployed(id: CText, stagingFaults: nat, s: Snapshot)
      reads versions, engine, engine.kernel, engine.supervisor, engine.disk
    {
      && id in versions.view.dirs && engine.InStep(id)
      && (engine.disk.stagingFaults == stagingFaults || NoneStale(s, StagingName(id), versions.view.dirs[id]) ==>
            engine.kernel.world.launched[engine.supervisor.mine[engine.handle.value.id]].tree == versions.view.dirs[id])
    }

    /** What a release was applied from was not checked: a file of the version, or a stale file that the version
        does not have and that lay in a staging directory which was not removed. */
    ghost predicate BadSource(id: CText, s: Snapshot, stagingFaults: nat)
      reads this`listings, this`rewritten, versions, engine.disk
    {
      id in versions.view.dirs &&
      var source := versions.view.dirs[id];
      || !Checked(id, source, digest, listings, rewritten)
      || (engine.disk.stagingFaults > stagingFaults
          && !StaleChecked(s, StagingName(id), source, id, digest, listings, rewritten))
    }

    method ApplyDownloaded(id: CText) returns (ok: bool)
      requires Valid()
      modifies this`badApplies
      modifies engine, engine.supervisor, engine.network, engine.installer, engine.kernel, engine.clock, engine.disk
      ensures old(engine.installer.activated) <= engine.installer.activated
      ensures engine.installer.activated <= old(engine.installer.activated) + {id}
      ensures engine.lost <= old(engine.lost) + {id}
      ensures engine.disk.stagingFaults >= old(engine.disk.stagingFaults)
      ensures badDiscards == 0 && engine.disk.stagingFaults == old(engine.disk.stagingFaults) ==>
        badApplies == old(badApplies)
      ensures old(engine.disk.history) <= engine.disk.history && MoreFaults()
      ensures Valid() && (old(engine.Single()) ==> engine.Single())
      ensures ok ==>
        && Deployed(id, old(engine.disk.stagingFaults), old(engine.disk.view)) && engine.IsNew(old(engine.kernel.world))
        && engine.FoundReady(|old(engine.supervisor.asked)|, |old(engine.network.answers)|)
      ensures badApplies ==
        old(badApplies) + if BadSource(id, old(engine.disk.view), old(engine.disk.stagingFaults)) then 1 else 0
      ensures !ok ==> EngineFailed(id, SourceOf(id))
    {
      hide ReleasesChecked, LaunchesChecked, VersionsChecked, Checked, Derived, LaunchedBy, Leftover, StaleChecked,
        NoneStale;
      hide DeploymentEngine.Inv, DeploymentEngine.Single, DeploymentEngine.FoundReady, DeploymentEngine.IsNew,
        DeploymentEngine.InStep, DeploymentEngine.Reason, MishapsOf;
      var source := SourceOf(id);
      ghost var s0, w0, faults := engine.disk.view, engine.kernel.world, engine.disk.stagingFaults;
      ghost var tree;
      ok, tree := RunApply(id, source);
      if badDiscards == 0 { VersionIsChecked(versions.view, id, digest, listings, rewritten); }
      TreeApplied(s0, id, versions.view, tree, engine.disk.stagingFaults > faults, digest, listings, rewritten);
      if BadSource(id, s0, faults) { badApplies := badApplies + 1; }
      if badApplies == 0 {
        CheckedAfterApply(s0, engine.disk.view, w0, engine.kernel.world, id, tree, digest, listings, rewritten);
      }
    }

    /** The call of the engine, and what of its contract matters for the files. */
    method RunApply(id: CText, source: Option<Tree>) returns (ok: bool, ghost tree: Tree)
      requires engine.Inv()
      modifies engine, engine.supervisor, engine.network, engine.installer, engine.kernel, engine.clock, engine.disk
      ensures engine.Inv() && old(engine.disk.history) <= engine.disk.history && MoreFaults()
      ensures old(engine.Single()) ==> engine.Single()
      ensures engine.disk.stagingFaults >= old(engine.disk.stagingFaults)
      ensures old(engine.installer.activated) <= engine.installer.activated
      ensures engine.installer.activated <= old(engine.installer.activated) + {id}
      ensures engine.lost <= old(engine.lost) + {id}
      ensures Derived(old(engine.disk.view), engine.disk.view, id, tree)
      ensures LaunchedBy(old(engine.kernel.world), engine.kernel.world, old(engine.disk.view), id, tree)
      ensures if source.Some?
        then
          Leftover(old(engine.disk.view), tree, StagingName(id), source.value,
            engine.disk.stagingFaults > old(engine.disk.stagingFaults))
        else tree == map[]
      ensures ok ==>
        && source.Some? && engine.InStep(id) && engine.IsNew(old(engine.kernel.world))
        && engine.FoundReady(|old(engine.supervisor.asked)|, |old(engine.network.answers)|)
        && engine.kernel.world.launched[engine.supervisor.mine[engine.handle.value.id]].tree == tree
      ensures !ok ==> EngineFailed(id, source)
    {
      hide LaunchedBy, Derived, Leftover, Published, DirsSince, PointersOf, ActivatedIds, LostAfter;
      hide DeploymentEngine.Inv, DeploymentEngine.Single, DeploymentEngine.FoundReady, DeploymentEngine.IsNew,
        DeploymentEngine.StopExcused, DeploymentEngine.LaunchExcused, DeploymentEngine.RecoveryExcused,
        DeploymentEngine.Waited, MoreMishaps, MishapsOf;
      ghost var w, s := engine.kernel.world, engine.disk.view;
      var applied, pruned;
      ghost var trace, start;
      applied, pruned, tree, trace, start := engine.Apply(id, source);
      ok := applied.Ok?;
      if ok {
        engine.Found(trace, start, |old(engine.supervisor.asked)|, |old(engine.network.answers)|);
      } else if engine.Mishaps() == old(engine.Mishaps()) {
        assert engine.Reason(applied.error, id, source, engine.disk.view.dirs, PointersOf(s), w,
          |old(engine.supervisor.asked)|, |old(engine.network.answers)|, |old(engine.clock.ticks)|);
      }
      OnlyThisOne(id, applied, old(engine.lost));
      LaunchedByFaults(w, engine.kernel.world, s, id, tree);
    }

    method RollbackVersion(payload: Option<Json>) returns (o: Outcome)
      requires Valid() && !failureIsPermanent
      modifies this`lastReport, this`failureIsPermanent
      modifies engine`handle, engine.supervisor, engine.network, engine.installer, engine.kernel, engine.clock
      modifies engine.disk
      ensures old(engine.installer.activated) <= engine.installer.activated
      ensures forall x | x in engine.installer.activated - old(engine.installer.activated) ::
        IsAbout(payload, x)
      ensures engine.disk.stagingFaults == old(engine.disk.stagingFaults)
      ensures old(engine.disk.history) <= engine.disk.history && MoreFaults()
      ensures Valid() && failureIsPermanent == o.PermanentFailure? && !o.TransientFailure?
      ensures old(engine.Single()) ==> engine.Single()
      ensures o.Success? ==> VersionOf(payload).Some? && engine.InStep(VersionOf(payload).value)
      ensures !o.Success? ==> NotRolledBack(payload)
      ensures o.Success? ==> lastReport in Texts("rollback_version")
    {
      hide Valid, Deployed, BadSource, VersionOf, DeploymentEngine.Single, DeploymentEngine.InStep,
        DeploymentEngine.IsNew, DeploymentEngine.FoundReady;
      var id := VersionOf(payload);
      if id.None? {
        o := Permanent("payload field 'release_id' is not valid");
        return;
      }
      if !options.hasEngine {
        o := Permanent("deployment engine is not configured");
        return;
      }
      var reverted := RollbackInstalled(id.value);
      if !reverted {
        o := Permanent("the release was not rolled back to");
        return;
      }
      lastReport := "rolled back";
      o := Success;
    }

    method RollbackInstalled(id: CText) returns (ok: bool)
      requires Valid()
      modifies engine`handle, engine.supervisor, engine.network, engine.installer, engine.kernel, engine.clock
      modifies engine.disk
      ensures old(engine.installer.activated) <= engine.installer.activated
      ensures engine.installer.activated <= old(engine.installer.activated) + {id}
      ensures engine.disk.stagingFaults == old(engine.disk.stagingFaults)
      ensures old(engine.disk.history) <= engine.disk.history && MoreFaults()
      ensures Valid() && (old(engine.Single()) ==> engine.Single())
      ensures ok ==> engine.InStep(id)
      ensures !ok ==> EngineFailed(id, None)
    {
      hide ReleasesChecked, LaunchesChecked, VersionsChecked, LaunchedFrom, DirsSince, PointersOf;
      hide DeploymentEngine.Inv, DeploymentEngine.Started, DeploymentEngine.Single, DeploymentEngine.InStep,
        DeploymentEngine.StopExcused, DeploymentEngine.LaunchExcused, DeploymentEngine.RecoveryExcused,
        DeploymentEngine.Waited, MoreMishaps, MishapsOf;
      ghost var s0, w0 := engine.disk.view, engine.kernel.world;
      var reverted := engine.RollbackTo(id);
      LaunchKeepsChecked(s0, engine.disk.view, w0, engine.kernel.world, digest, listings, rewritten);
      LaunchedFaults(w0, engine.kernel.world, engine.disk.view.dirs);
      ok := reverted.Ok?;
      if !ok && engine.Mishaps() == old(engine.Mishaps()) {
        assert engine.Reason(reverted.error, id, None, engine.disk.view.dirs, PointersOf(s0), w0,
          |old(engine.supervisor.asked)|, |old(engine.network.answers)|, |old(engine.clock.ticks)|);
      }
    }

    method RestartService() returns (o: Outcome)
      requires Valid() && !failureIsPermanent
      modifies this`lastReport, this`failureIsPermanent
      modifies engine`handle, engine.supervisor, engine.network, engine.kernel, engine.clock, engine.disk
      ensures engine.disk.stagingFaults == old(engine.disk.stagingFaults)
      ensures old(engine.disk.history) <= engine.disk.history && MoreFaults()
      ensures Valid() && failureIsPermanent == o.PermanentFailure? && !o.TransientFailure?
      ensures old(engine.Single()) ==> engine.Single()
      ensures o.Success? ==>
        && engine.IsNew(old(engine.kernel.world)) && engine.ActiveRuns()
        && engine.FoundReady(|old(engine.supervisor.asked)|, |old(engine.network.answers)|)
      ensures !o.Success? ==> NotRestarted()
      ensures o.Success? ==> lastReport in Texts("restart_service")
    {
      hide Valid, DeploymentEngine.Single, DeploymentEngine.ActiveRuns, DeploymentEngine.IsNew,
        DeploymentEngine.FoundReady;
      if !options.hasEngine {
        o := Permanent("deployment engine is not configured");
        return;
      }
      var restarted := RestartActive();
      if !restarted {
        o := Permanent("the service was not restarted");
        return;
      }
      lastReport := "restarted";
      o := Success;
    }

    method RestartActive() returns (ok: bool)
      requires Valid()
      modifies engine`handle, engine.supervisor, engine.network, engine.kernel, engine.clock, engine.disk
      ensures engine.disk.stagingFaults == old(engine.disk.stagingFaults)
      ensures old(engine.disk.history) <= engine.disk.history && MoreFaults()
      ensures Valid() && (old(engine.Single()) ==> engine.Single())
      ensures ok ==>
        && engine.IsNew(old(engine.kernel.world)) && engine.ActiveRuns()
        && engine.FoundReady(|old(engine.supervisor.asked)|, |old(engine.network.answers)|)
      ensures !ok ==> EngineFailed(ActiveOf(old(engine.disk.view)), None)
    {
      hide ReleasesChecked, LaunchesChecked, VersionsChecked, LaunchedFrom, DirsSince, PointersOf;
      hide DeploymentEngine.Inv, DeploymentEngine.Started, DeploymentEngine.Single, DeploymentEngine.InStep,
        DeploymentEngine.ReadyAt, DeploymentEngine.LoggedLast, DeploymentEngine.FoundReady,
        DeploymentEngine.StopExcused, DeploymentEngine.LaunchExcused, DeploymentEngine.RecoveryExcused,
        DeploymentEngine.Waited, MoreMishaps, MishapsOf;
      ghost var s0, w0 := engine.disk.view, engine.kernel.world;
      var restarted, trace, start := engine.Restart();
      LaunchKeepsChecked(s0, engine.disk.view, w0, engine.kernel.world, digest, listings, rewritten);
      LaunchedFaults(w0, engine.kernel.world, engine.disk.view.dirs);
      if restarted.Ok? {
        engine.Found(trace, start, |old(engine.supervisor.asked)|, |old(engine.network.answers)|);
      } else if engine.Mishaps() == old(engine.Mishaps()) {
        assert engine.Reason(restarted.error, ActiveOf(s0), None, engine.disk.view.dirs, PointersOf(s0), w0,
          |old(engine.supervisor.asked)|, |old(engine.network.answers)|, |old(engine.clock.ticks)|);
      }
      ok := restarted.Ok?;
    }

    // -------------------------------------------------------------- update_configuration

    /** Lays values over a JSON file of the active release. */
    method UpdateConfiguration(payload: Option<Json>) returns (o: Outcome, ghost release: string)
      requires Valid() && !failureIsPermanent
      modifies this`lastReport, this`failureIsPermanent, this`rewritten, this`replacements
      modifies engine.disk`view, engine.disk`history, engine.disk`written, engine.disk`queryFaults
      modifies engine.disk`stateFaults, engine.disk`ioFaults, engine.disk`unread
      ensures old(engine.disk.history) <= engine.disk.history && MoreFaults()
      ensures Valid() && failureIsPermanent == o.PermanentFailure? && old(rewritten) <= rewritten
      ensures engine.disk.view.state == old(engine.disk.view).state
      ensures engine.disk.view.runtime == old(engine.disk.view).runtime
      ensures OnlyDirectory(old(engine.disk.view), engine.disk.view, release)
      ensures Rewrote(payload, engine.disk.view, rewritten - old(rewritten))
      ensures o.Success? ==>
        && UpdateOf(payload).Some?
        && Edited(old(engine.disk.view), engine.disk.view, release, UpdateOf(payload).value)
        && rewritten == old(rewritten) + EditedFiles(release, UpdateOf(payload).value.file)
      ensures !o.Success? && UpdateOf(payload).Some? ==>
        Unedited(old(engine.disk.view), engine.disk.view, release, UpdateOf(payload).value.file)
      ensures UpdateDecided(payload, o)
      ensures o.Success? ==> lastReport in Texts("update_configuration")
    {
      hide Valid, Edited, OnlyDirectory, UpdateOf, AimedAt;
      SameDirectories(engine.disk.view);
      release := "";
      var update := UpdateOf(payload);
      if update.None? {
        o := Permanent("the payload is not an update");
        return;
      }
      if !options.hasEngine {
        o := Permanent("deployment engine is not configured");
        return;
      }
      o, release := UpdateActive(update.value);
    }

    /** Finds the file in the active release and edits it. */
    method UpdateActive(u: Update) returns (o: Outcome, ghost release: string)
      requires Valid() && !failureIsPermanent
      modifies this`lastReport, this`failureIsPermanent, this`rewritten, this`replacements
      modifies engine.disk`view, engine.disk`history, engine.disk`written, engine.disk`queryFaults
      modifies engine.disk`stateFaults, engine.disk`ioFaults, engine.disk`unread
      ensures old(engine.disk.history) <= engine.disk.history && MoreFaults()
      ensures Valid() && failureIsPermanent == o.PermanentFailure? && old(rewritten) <= rewritten
      ensures engine.disk.view.state == old(engine.disk.view).state
      ensures engine.disk.view.runtime == old(engine.disk.view).runtime
      ensures OnlyDirectory(old(engine.disk.view), engine.disk.view, release)
      ensures forall f | f in rewritten - old(rewritten) :: AimedAt(u, engine.disk.view, f)
      ensures o.Success? ==>
        && Edited(old(engine.disk.view), engine.disk.view, release, u)
        && rewritten == old(rewritten) + EditedFiles(release, u.file)
      ensures !o.Success? ==> Unedited(old(engine.disk.view), engine.disk.view, release, u.file)
      ensures if o.PermanentFailure? then replacements == old(replacements) && NotEdited(u.file)
        else
          && replacements == old(replacements) + [o.Success?]
          && (o.TransientFailure? ==> engine.disk.ioFaults > old(engine.disk.ioFaults))
      ensures o.Success? ==> lastReport in Texts("update_configuration")
    {
      hide Valid, PointersOf, Merged, OnlyDirectory, InstallerReleaseId, TemporaryName;
      SameDirectories(engine.disk.view);
      release := "";
      var active := ActiveRelease();
      if active.None? {
        o := Permanent("there is no active release");
        return;
      }
      release := active.value;
      ActiveRead(engine.disk.view);
      var present := HasReleaseFile(active.value, u.file);
      if !present {
        o := Permanent("configuration is not a file in the active release");
        return;
      }
      o := EditFile(active.value, u.file, u.values);
      SameStateSamePointers(old(engine.disk.view), engine.disk.view);
      if o.Success? { lastReport := "updated"; }
    }

    predicate IsDocument(content: Content) {
      parse(content).Some? && parse(content).value.Object?
    }

    /** An update that fails for good wrote nothing: it is not one, or there is no file to edit; one that may work
        another time failed to replace the file. */
    twostate predicate UpdateDecided(payload: Option<Json>, o: Outcome)
      reads this`replacements, engine.disk
    {
      if o.PermanentFailure?
      then replacements == old(replacements) && (UpdateOf(payload).None? || NotEdited(UpdateOf(payload).value.file))
      else
        && replacements == old(replacements) + [o.Success?] && UpdateOf(payload).Some? && options.hasEngine
        && (o.TransientFailure? ==> engine.disk.ioFaults > old(engine.disk.ioFaults))
    }

    twostate predicate NotEdited(file: string)
      reads engine.disk
    {
      var s := old(engine.disk.view);
      || !options.hasEngine || !HasActive(s)
      || engine.disk.ioFaults > old(engine.disk.ioFaults) || engine.disk.stateFaults > old(engine.disk.stateFaults)
      || engine.disk.queryFaults > old(engine.disk.queryFaults) || engine.disk.unread > old(engine.disk.unread)
      || !(ActiveOf(s) in s.dirs && file in s.dirs[ActiveOf(s)] && IsDocument(s.dirs[ActiveOf(s)][file]))
    }

    /** The file of the active release was edited. */
    ghost predicate Edited(s: Snapshot, s': Snapshot, release: string, u: Update) {
      && PointersOf(s').Some? && PointersOf(s').value.active == release
      && release in s.dirs && release in s'.dirs
      && Merged(s.dirs[release], s'.dirs[release], u.file, u.values)
    }

    /** Reads, merges, and writes through a temporary file that is renamed over the old one. */
    method EditFile(id: string, file: string, values: Members) returns (o: Outcome)
      requires Valid() && !failureIsPermanent && ValidId(id)
      requires id in engine.disk.view.dirs && file in engine.disk.view.dirs[id]
      modifies this`failureIsPermanent, this`rewritten, this`replacements, engine.disk`view, engine.disk`history
      modifies engine.disk`written, engine.disk`ioFaults, engine.disk`unread
      ensures old(engine.disk.history) <= engine.disk.history && MoreFaults()
      ensures Valid() && failureIsPermanent == o.PermanentFailure?
      ensures old(rewritten) <= rewritten <= old(rewritten) + EditedFiles(id, file)
      ensures OnlyDirectory(old(engine.disk.view), engine.disk.view, id) && id in engine.disk.view.dirs
      ensures engine.disk.view.state == old(engine.disk.view).state
      ensures engine.disk.view.runtime == old(engine.disk.view).runtime
      ensures o.Success? ==>
        && Merged(old(engine.disk.view).dirs[id], engine.disk.view.dirs[id], file, values)
        && rewritten == old(rewritten) + EditedFiles(id, file)
      ensures !o.Success? ==> OnlyFile(old(engine.disk.view).dirs[id], engine.disk.view.dirs[id], TemporaryName(file))
      ensures replacements == if o.PermanentFailure? then old(replacements) else old(replacements) + [o.Success?]
      ensures o.TransientFailure? ==> engine.disk.ioFaults > old(engine.disk.ioFaults)
      ensures o.PermanentFailure? ==>
        engine.disk.unread > old(engine.disk.unread) || !IsDocument(old(engine.disk.view).dirs[id][file])
      ensures engine.disk.unread >= old(engine.disk.unread) && engine.disk.ioFaults >= old(engine.disk.ioFaults)
    {
      hide ReleasesChecked, LaunchesChecked, VersionsChecked, Overlay, Edits, Merged, DeploymentEngine.Inv;
      var readable := engine.disk.Open(id, file);
      if !readable {
        o := Permanent("cannot open the file");
        return;
      }
      var document := parse(engine.disk.view.dirs[id][file]);
      if document.None? || !document.value.Object? {
        o := Permanent("the file is not a JSON object");
        return;
      }
      var merged, changed := MergeObject(document.value.members, values);
      ghost var tree := engine.disk.view.dirs[id];
      var replaced := ReplaceFile(id, file, serialize(Object(merged)));
      if !replaced {
        return TransientFailure("cannot replace the file");
      }
      ReplacedIsMerged(tree, engine.disk.view.dirs[id], file, document.value.members, values);
      o := Success;
    }

    method ActiveRelease() returns (r: Option<CText>)
      requires Valid()
      modifies engine.disk`stateFaults, engine.disk`ioFaults
      ensures Valid() && engine.disk.stateFaults >= old(engine.disk.stateFaults)
      ensures r.Some? ==>
        PointersOf(engine.disk.view).Some? && PointersOf(engine.disk.view).value.active == r.value && ValidId(r.value)
      ensures engine.disk.ioFaults >= old(engine.disk.ioFaults)
      ensures r.None? ==>
        || engine.disk.ioFaults > old(engine.disk.ioFaults) || engine.disk.stateFaults > old(engine.disk.stateFaults)
        || !HasActive(engine.disk.view)
    {
      hide ReleasesChecked, LaunchesChecked, VersionsChecked, PointersOf, DeploymentEngine.Inv;
      var active := engine.ActiveReleaseDirectory();
      r := if active.Ok? then Some(active.value) else None;
    }

    method HasReleaseFile(id: CText, file: string) returns (b: bool)
      requires Valid()
      modifies engine.disk`queryFaults
      ensures engine.disk.queryFaults >= old(engine.disk.queryFaults)
      ensures Valid() && (b ==> id in engine.disk.view.dirs && file in engine.disk.view.dirs[id])
      ensures !b ==>
        || engine.disk.queryFaults > old(engine.disk.queryFaults)
        || !(id in engine.disk.view.dirs && file in engine.disk.view.dirs[id])
    {
      hide ReleasesChecked, LaunchesChecked, VersionsChecked, SafeIn, Proper, Honest, Held, Checked, NoService;
      b := engine.disk.HasFile(id, file);
      b := b && file in engine.disk.view.dirs[id];
    }

    /** Writes a temporary file next to the file and renames it over it. */
    method ReplaceFile(id: string, file: string, content: Content) returns (ok: bool)
      requires Valid() && ValidId(id) && id in engine.disk.view.dirs && file in engine.disk.view.dirs[id]
      modifies this`rewritten, this`replacements, engine.disk`view, engine.disk`history, engine.disk`written
      modifies engine.disk`ioFaults
      ensures old(engine.disk.history) <= engine.disk.history && MoreFaults()
      ensures Valid() && rewritten == old(rewritten) + EditedFiles(id, file)
      ensures OnlyDirectory(old(engine.disk.view), engine.disk.view, id) && id in engine.disk.view.dirs
      ensures engine.disk.view.state == old(engine.disk.view).state
      ensures engine.disk.view.runtime == old(engine.disk.view).runtime
      ensures ok ==>
        engine.disk.view.dirs[id] == (old(engine.disk.view).dirs[id] - {TemporaryName(file)})[file := content]
      ensures !ok ==> OnlyFile(old(engine.disk.view).dirs[id], engine.disk.view.dirs[id], TemporaryName(file))
      ensures replacements == old(replacements) + [ok]
      ensures engine.disk.ioFaults >= old(engine.disk.ioFaults)
      ensures !ok ==> engine.disk.ioFaults > old(engine.disk.ioFaults)
    {
      hide ReleasesChecked, LaunchesChecked, VersionsChecked, SafeIn, Proper, Honest, Held, Checked, NoService,
        TemporaryName, DeploymentEngine.Single;
      var temporary := TemporaryName(file);
      ghost var s0 := engine.disk.view;
      ghost var next := rewritten + EditedFiles(id, file);
      ReleasesCheckedMore(s0, digest, listings, rewritten, listings, next);
      LaunchesCheckedMore(engine.kernel.world, digest, listings, rewritten, listings, next);
      ok := engine.disk.ReplaceFile(id, file, temporary, content);
      rewritten, replacements := next, replacements + [ok];
      EditSafe(s0, engine.disk.view, id, engine.installer.activated, engine.lost);
      if ReleasesChecked(s0, digest, listings, rewritten) {
        OtherFilesStay(s0.dirs[id], engine.disk.view.dirs[id], file, temporary, content);
        CheckedAfterEdit(s0, engine.disk.view, id, file, temporary, digest, listings, rewritten);
      }
    }

    lemma ReplacedIsMerged(tree: Tree, tree': Tree, file: string, document: Members, values: Members)
      requires file in tree && parse(tree[file]) == Some(Object(document))
      requires tree' == (tree - {TemporaryName(file)})[file := serialize(Object(Overlay(document, values)))]
      ensures Merged(tree, tree', file, values)
    {
    }

    /** The file holds its old document with the values laid over it; no other file changed, and a
        temporary file of that name is gone. */
    ghost predicate Merged(tree: Tree, tree': Tree, file: string, values: Members) {
      && file in tree && parse(tree[file]).Some? && parse(tree[file]).value.Object?
      && file in tree' && tree'[file] == serialize(Object(Overlay(parse(tree[file]).value.members, values)))
      && tree' - {file, TemporaryName(file)} == tree - {file, TemporaryName(file)}
      && TemporaryName(file) !in tree'
    }

    method RebootDevice() returns (o: Outcome)
      requires Valid() && !failureIsPermanent
      modifies this`lastReport, this`failureIsPermanent, this`requests
      ensures Valid() && failureIsPermanent == o.PermanentFailure? && !o.TransientFailure?
      ensures requests == if options.hasSystem then old(requests) + [o.Success?] else old(requests)
      ensures !options.hasSystem ==> o.PermanentFailure?
      ensures o.Success? ==> lastReport in Texts("reboot_device")
    {
      if !options.hasSystem {
        o := Permanent("rebooting is not available");
        return;
      }
      var requested := AskSystem();
      if !requested {
        o := Permanent("the reboot was refused");
        return;
      }
      lastReport := "reboot scheduled";
      o := Success;
    }
  
    // -------------------------------------------------------------- messages

    /** What the success of a command means, and what the command leaves alone. */
    twostate predicate CarriedOut(command: string, payload: Option<Json>)
      reads versions, engine, engine.disk, engine.kernel, engine.supervisor, engine.clock, engine.network
    {
      match command
      case "download_version" =>
        DownloadOf(payload).Some? &&
        var d := DownloadOf(payload).value;
        && d.id in versions.view.dirs
        && FilesListed(d.id, d.artifacts, |d.artifacts|, versions.view.dirs[d.id], digest)
      case "apply_version" =>
        && VersionOf(payload).Some?
        && Deployed(VersionOf(payload).value, old(engine.disk.stagingFaults), old(engine.disk.view))
        && engine.IsNew(old(engine.kernel.world))
        && engine.FoundReady(|old(engine.supervisor.asked)|, |old(engine.network.answers)|)
      case "rollback_version" => VersionOf(payload).Some? && engine.InStep(VersionOf(payload).value)
      case "restart_service" =>
        && engine.IsNew(old(engine.kernel.world)) && engine.ActiveRuns()
        && engine.FoundReady(|old(engine.supervisor.asked)|, |old(engine.network.answers)|)
      case "clean_old_version" => versions.view.dirs == map[] || versions.queryFaults > old(versions.queryFaults)
      case "update_configuration" =>
        && UpdateOf(payload).Some?
        && exists release :: Edited(old(engine.disk.view), engine.disk.view, release, UpdateOf(payload).value)
      case _ => true
    }

    /** Versions are the business of two commands, processes of three, and releases of those and the update. */
    twostate predicate LeftAlone(command: string)
      reads versions, engine, engine.disk, engine.kernel
    {
      && (command !in {"download_version", "clean_old_version"} ==> versions.view == old(versions.view))
      && (command !in {"apply_version", "rollback_version", "restart_service"} ==>
            engine.kernel.world == old(engine.kernel.world))
      && (command !in {"apply_version", "rollback_version", "restart_service", "update_configuration"} ==>
            engine.disk.view == old(engine.disk.view))
    }

    /** Only a download can leave an unchecked version, and only an apply can use unchecked files. */
    twostate predicate Blamed(command: string, payload: Option<Json>)
      reads this`badDiscards, this`badApplies, this`listings, this`rewritten, versions, engine.disk
    {
      && (badDiscards != old(badDiscards) ==>
            && badDiscards == old(badDiscards) + 1 && command == "download_version" && DownloadOf(payload).Some?
            && var d := DownloadOf(payload).value;
              exists bad ::
                Suspect(d.id, d.artifacts, bad) && UncheckedStays(versions.view, d.id, bad, digest, listings))
      && (badApplies != old(badApplies) ==>
            && badApplies == old(badApplies) + 1 && command == "apply_version" && VersionOf(payload).Some?
            && BadSource(VersionOf(payload).value, old(engine.disk.view), old(engine.disk.stagingFaults)))
    }

    /** The commands about the service process always fail for good. */
    twostate predicate NotDeployed(command: string, payload: Option<Json>, o: Outcome)
      reads versions, engine.disk, engine.kernel, engine.supervisor, engine.clock, engine.network
    {
      && !o.TransientFailure?
      && (!o.Success? ==>
            if command == "apply_version" then NotApplied(payload)
            else if command == "rollback_version" then NotRolledBack(payload)
            else NotRestarted())
    }

    /** What a failure of each command means: for good or for now, and for which reason. */
    twostate predicate FailedAs(command: string, payload: Option<Json>, o: Outcome)
      reads this`replacements, this`requests, versions, store, engine.disk, engine.kernel, engine.supervisor
      reads engine.clock, engine.network
    {
      match command
      case "download_version" => DownloadDecided(payload, o)
      case "apply_version" => NotDeployed(command, payload, o)
      case "rollback_version" => NotDeployed(command, payload, o)
      case "restart_service" => NotDeployed(command, payload, o)
      case "clean_old_version" => CleanDecided(o)
      case "update_configuration" => UpdateDecided(payload, o)
      case "current_status" => !o.PermanentFailure? && requests == old(requests) + [o.Success?]
      case "reboot_device" =>
        && !o.TransientFailure? && (!options.hasSystem ==> !o.Success?)
        && requests == if options.hasSystem then old(requests) + [o.Success?] else old(requests)
      case _ => true
    }

    /** A message that is not for this device fails and changes nothing; any other one leaves alone what is not
        its business, and when it succeeds it was carried out. */
    twostate predicate Handled(parsed: Option<AgentMessage>, o: Outcome)
      reads this`badDiscards, this`badApplies, this`listings, this`rewritten, versions, engine, engine.disk
      reads engine.kernel, engine.supervisor, engine.clock, engine.network, store, this`replacements, this`requests
    {
      if Accepted(options, parsed)
      then
        && LeftAlone(parsed.value.command) && Blamed(parsed.value.command, parsed.value.payload)
        && (o.Success? ==> CarriedOut(parsed.value.command, parsed.value.payload))
        && FailedAs(parsed.value.command, parsed.value.payload, o)
      else
        && o.PermanentFailure?
        && versions.view == old(versions.view) && engine.disk.view == old(engine.disk.view)
        && engine.kernel.world == old(engine.kernel.world)
        && badDiscards == old(badDiscards) && badApplies == old(badApplies)
    }

    /** Carries out a command, if there is such a command. */
    method Dispatch(command: string, payload: Option<Json>) returns (o: Outcome)
      requires Valid() && command in COMMANDS
      modifies this`lastReport, this`failureIsPermanent, this`listings, this`rewritten, this`badDiscards
      modifies this`replacements, this`requests, this`badApplies, store, versions
      modifies engine, engine.supervisor, engine.network, engine.installer, engine.kernel, engine.clock, engine.disk
      ensures old(engine.installer.activated) <= engine.installer.activated
      ensures forall x | x in engine.installer.activated - old(engine.installer.activated) ::
        command in ACTIVATING && IsAbout(payload, x)
      ensures forall x | x in engine.lost - old(engine.lost) :: command in APPLYING && IsAbout(payload, x)
      ensures engine.disk.stagingFaults >= old(engine.disk.stagingFaults)
      ensures badDiscards == 0 && engine.disk.stagingFaults == old(engine.disk.stagingFaults) ==>
        badApplies == old(badApplies)
      ensures old(engine.disk.history) <= engine.disk.history && MoreFaults()
      ensures Valid() && failureIsPermanent == o.PermanentFailure?
      ensures old(listings) <= listings && old(rewritten) <= rewritten
      ensures command != "download_version" ==> listings == old(listings)
      ensures command == "download_version" ==> ListedIn(payload, listings - old(listings))
      ensures command != "update_configuration" ==> rewritten == old(rewritten)
      ensures command == "update_configuration" ==> Rewrote(payload, engine.disk.view, rewritten - old(rewritten))
      ensures badDiscards >= old(badDiscards)
      ensures versions.failedRemovals >= old(versions.failedRemovals)
      ensures badDiscards == old(badDiscards) || versions.failedRemovals > old(versions.failedRemovals)
      ensures Blamed(command, payload)
      ensures LeftAlone(command) && (o.Success? ==> CarriedOut(command, payload))
      ensures old(engine.Single()) ==> engine.Single()
      ensures FailedAs(command, payload, o)
      ensures o.Success? ==> lastReport in Texts(command)
    {
      hide Valid, Listed, ListedIn, Rewrote, DeploymentEngine.Single;
      hide FilesListed, Edited, UncheckedStays, Suspect, Deployed, BadSource, UpdateOf, DownloadOf, VersionOf, IsAbout;
      hide DeploymentEngine.InStep, DeploymentEngine.IsNew, DeploymentEngine.ActiveRuns, DeploymentEngine.FoundReady;
      hide Decided, ActiveOf, HasActive, MishapsOf, DeploymentEngine.Reason, AgentService.IsDocument;
      failureIsPermanent := false;
      o := CarryOut(command, payload);
    }

    /** The choice of the command. */
    method CarryOut(command: string, payload: Option<Json>) returns (o: Outcome)
      requires Valid() && !failureIsPermanent && command in COMMANDS
      modifies this`lastReport, this`failureIsPermanent, this`listings, this`rewritten, this`badDiscards
      modifies this`replacements, this`requests, this`badApplies, store, versions
      modifies engine, engine.supervisor, engine.network, engine.installer, engine.kernel, engine.clock, engine.disk
      ensures old(engine.installer.activated) <= engine.installer.activated
      ensures forall x | x in engine.installer.activated - old(engine.installer.activated) ::
        command in ACTIVATING && IsAbout(payload, x)
      ensures forall x | x in engine.lost - old(engine.lost) :: command in APPLYING && IsAbout(payload, x)
      ensures engine.disk.stagingFaults >= old(engine.disk.stagingFaults)
      ensures badDiscards == 0 && engine.disk.stagingFaults == old(engine.disk.stagingFaults) ==>
        badApplies == old(badApplies)
      ensures old(engine.disk.history) <= engine.disk.history && MoreFaults()
      ensures Valid() && failureIsPermanent == o.PermanentFailure?
      ensures old(listings) <= listings && old(rewritten) <= rewritten
      ensures command != "download_version" ==> listings == old(listings)
      ensures command == "download_version" ==> ListedIn(payload, listings - old(listings))
      ensures command != "update_configuration" ==> rewritten == old(rewritten)
      ensures command == "update_configuration" ==> Rewrote(payload, engine.disk.view, rewritten - old(rewritten))
      ensures badDiscards >= old(badDiscards)
      ensures versions.failedRemovals >= old(versions.failedRemovals)
      ensures badDiscards == old(badDiscards) || versions.failedRemovals > old(versions.failedRemovals)
      ensures Blamed(command, payload)
      ensures LeftAlone(command) && (o.Success? ==> CarriedOut(command, payload))
      ensures old(engine.Single()) ==> engine.Single()
      ensures FailedAs(command, payload, o)
      ensures o.Success? ==> lastReport in Texts(command)
    {
      hide Valid, Guarded, Deployed, Edited, FilesListed, Listed, ListedIn, Rewrote, Shrunk, OnlyDirectory, Suspect;
      hide UpdateOf, DownloadOf, VersionOf, VersionsChecked, UncheckedStays, EditedFiles, Unedited;
      hide BadSource, Merged, AimedAt, IsAbout, DeploymentEngine.ActiveRuns, DeploymentEngine.FoundReady;
      hide DeploymentEngine.Single, DeploymentEngine.InStep, DeploymentEngine.IsNew;
      hide AgentService.DownloadDecided, AgentService.UpdateDecided, AgentService.NotApplied,
        AgentService.NotRolledBack, AgentService.NotRestarted, AgentService.CleanDecided,
        AgentService.EngineFailed, AgentService.NotDeployed;
      Apart();
      if command in {"download_version", "clean_old_version"} {
        o := ChangeVersions(command, payload);
      } else if command in {"apply_version", "rollback_version", "restart_service"} {
        o := Deploy(command, payload);
      } else if command == "update_configuration" {
        ghost var release;
        o, release := UpdateConfiguration(payload);
      } else {
        o := TellOrReboot(command, payload);
      }
    }

    /** Carries out a command that is about the downloaded versions. */
    method ChangeVersions(command: string, payload: Option<Json>) returns (o: Outcome)
      requires Valid() && !failureIsPermanent && command in {"download_version", "clean_old_version"}
      modifies this`lastReport, this`failureIsPermanent, this`listings, this`badDiscards, store, versions
      ensures Valid() && failureIsPermanent == o.PermanentFailure? && old(listings) <= listings
      ensures command != "download_version" ==> listings == old(listings)
      ensures command == "download_version" ==> ListedIn(payload, listings - old(listings))
      ensures badDiscards >= old(badDiscards) && versions.failedRemovals >= old(versions.failedRemovals)
      ensures badDiscards == old(badDiscards) || versions.failedRemovals > old(versions.failedRemovals)
      ensures Blamed(command, payload) && (o.Success? ==> CarriedOut(command, payload))
      ensures FailedAs(command, payload, o) && (o.Success? ==> lastReport in Texts(command))
    {
      hide Valid, Guarded, FilesListed, Listed, ListedIn, Shrunk, OnlyDirectory, Suspect, DownloadOf, VersionsChecked;
      hide UncheckedStays, BadSource, AgentService.DownloadDecided, AgentService.CleanDecided;
      Apart();
      if command == "download_version" {
        ghost var bad;
        o, bad := DownloadVersion(payload);
        ListedByDownload(payload, listings - old(listings));
      } else {
        o := CleanOldVersion();
      }
    }

    /** Carries out a command that asks the system for something. */
    method TellOrReboot(command: string, payload: Option<Json>) returns (o: Outcome)
      requires Valid() && !failureIsPermanent && command in {"current_status", "reboot_device"}
      modifies this`lastReport, this`failureIsPermanent, this`requests
      ensures Valid() && failureIsPermanent == o.PermanentFailure?
      ensures FailedAs(command, payload, o)
      ensures o.Success? ==> lastReport in Texts(command)
    {
      hide Valid;
      if command == "current_status" {
        o := CurrentStatus();
      } else {
        o := RebootDevice();
      }
    }

    /** Carries out a command that is about the service process. */
    method Deploy(command: string, payload: Option<Json>) returns (o: Outcome)
      requires Valid() && !failureIsPermanent && command in {"apply_version", "rollback_version", "restart_service"}
      modifies this`lastReport, this`failureIsPermanent, this`badApplies, versions`queryFaults
      modifies engine, engine.supervisor, engine.network, engine.installer, engine.kernel, engine.clock, engine.disk
      ensures old(engine.installer.activated) <= engine.installer.activated
      ensures forall x | x in engine.installer.activated - old(engine.installer.activated) ::
        command in ACTIVATING && IsAbout(payload, x)
      ensures forall x | x in engine.lost - old(engine.lost) :: command in APPLYING && IsAbout(payload, x)
      ensures engine.disk.stagingFaults >= old(engine.disk.stagingFaults)
      ensures badDiscards == 0 && engine.disk.stagingFaults == old(engine.disk.stagingFaults) ==>
        badApplies == old(badApplies)
      ensures old(engine.disk.history) <= engine.disk.history && MoreFaults()
      ensures Valid() && failureIsPermanent == o.PermanentFailure?
      ensures Blamed(command, payload) && (o.Success? ==> CarriedOut(command, payload))
      ensures old(engine.Single()) ==> engine.Single()
      ensures NotDeployed(command, payload, o)
      ensures o.Success? ==> lastReport in Texts(command)
    {
      hide Valid, Guarded, Deployed, BadSource, VersionOf, IsAbout;
      hide MishapsOf, DeploymentEngine.Reason;
      hide DeploymentEngine.Single, DeploymentEngine.InStep, DeploymentEngine.IsNew, DeploymentEngine.ActiveRuns,
        DeploymentEngine.FoundReady;
      if command == "apply_version" {
        o := ApplyVersion(payload);
      } else if command == "rollback_version" {
        o := RollbackVersion(payload);
      } else {
        o := RestartService();
      }
    }

    lemma Apart()
      requires Valid()
      ensures versions != engine.disk
    {
    }

    /** One attempt to report, if there is anybody to report to. */
    method SendReport(command: string, replyQueueUrl: string, success: bool, detail: string)
      modifies this`reports
      ensures !options.hasPublisher ==> reports == old(reports)
      ensures options.hasPublisher && replyQueueUrl != "" ==>
        reports == old(reports) + [Report(replyQueueUrl, command, success, detail)]
      ensures options.hasPublisher && replyQueueUrl == "" && options.resultQueueUrl != "" ==>
        reports == old(reports) + [Report(options.resultQueueUrl, command, success, detail)]
      ensures replyQueueUrl == "" && options.resultQueueUrl == "" ==> reports == old(reports)
    {
      var destination := if replyQueueUrl == "" then options.resultQueueUrl else replyQueueUrl;
      if !options.hasPublisher || destination == "" {
        return;
      }
      reports := reports + [Report(destination, command, success, detail)];
    }

    method RecordFailure(raw: string) returns (attempts: nat)
      modifies this`failingMessage, this`failingAttempts
      ensures attempts == failingAttempts == (if old(failingMessage) == raw then old(failingAttempts) + 1 else 1)
      ensures failingMessage == raw
    {
      if failingMessage != raw {
        failingMessage := raw;
        failingAttempts := 0;
      }
      failingAttempts := failingAttempts + 1;
      attempts := failingAttempts;
    }

    method ForgetFailure()
      modifies this`failingMessage, this`failingAttempts
      ensures failingMessage == "" && failingAttempts == 0
    {
      failingMessage := "";
      failingAttempts := 0;
    }

    /** Carries out a message that is meant for this device, and reports on it. */
    method Execute(message: AgentMessage) returns (o: Outcome)
      requires Valid() && Accepted(options, Some(message))
      modifies this`lastReport, this`failureIsPermanent, this`listings, this`rewritten, this`badDiscards
      modifies this`replacements, this`requests, this`badApplies,
        this`reports
      modifies store, versions, engine, engine.supervisor, engine.network, engine.installer, engine.kernel, engine.clock
      modifies engine.disk
      ensures old(engine.installer.activated) <= engine.installer.activated
      ensures forall x | x in engine.installer.activated - old(engine.installer.activated) ::
        MessageNames(options, Some(message), ACTIVATING, x)
      ensures forall x | x in engine.lost - old(engine.lost) :: MessageNames(options, Some(message), APPLYING, x)
      ensures badDiscards >= old(badDiscards)
      ensures engine.disk.stagingFaults >= old(engine.disk.stagingFaults)
      ensures badDiscards == 0 && engine.disk.stagingFaults == old(engine.disk.stagingFaults) ==>
        badApplies == old(badApplies)
      ensures Valid() && failureIsPermanent == o.PermanentFailure?
      ensures old(engine.disk.history) <= engine.disk.history && MoreFaults()
      ensures Handled(Some(message), o)
      ensures old(engine.Single()) ==> engine.Single()
      ensures reports == old(reports) + Reported(options, message.command, message.replyQueueUrl, o, lastReport)
      ensures old(listings) <= listings && old(rewritten) <= rewritten
      ensures versions.failedRemovals >= old(versions.failedRemovals)
      ensures badDiscards == old(badDiscards) || versions.failedRemovals > old(versions.failedRemovals)
      ensures forall l | l in listings - old(listings) :: MessageLists(options, Some(message), l)
      ensures forall f | f in rewritten - old(rewritten) :: MessageRewrites(options, Some(message), engine.disk.view, f)
      ensures o.Success? ==> lastReport in Texts(message.command)
    {
      hide Valid, Listed, ListedIn, Rewrote, MessageLists, MessageRewrites, DeploymentEngine.Single;
      hide AgentService.CarriedOut, AgentService.LeftAlone, AgentService.Blamed, AgentService.FailedAs;
      ghost var l0, f0 := listings, rewritten;
      o := Dispatch(message.command, message.payload);
      EachFrom(options, Some(message), engine.disk.view, listings - l0, rewritten - f0);
      SendReport(message.command, message.replyQueueUrl, o.Success?, if o.Success? then lastReport else o.reason);
    }

    /** One delivery of a message. An error sends it back to the queue. */
    method Handle(raw: string, parsed: Option<AgentMessage>) returns (r: Result<Unit, string>, ghost o: Outcome)
      requires Valid() && Counting()
      modifies this, store, versions
      modifies engine, engine.supervisor, engine.network, engine.installer, engine.kernel, engine.clock, engine.disk
      ensures old(engine.installer.activated) <= engine.installer.activated
      ensures forall x | x in engine.installer.activated - old(engine.installer.activated) ::
        MessageNames(options, parsed, ACTIVATING, x)
      ensures forall x | x in engine.lost - old(engine.lost) :: MessageNames(options, parsed, APPLYING, x)
      ensures badDiscards >= old(badDiscards)
      ensures engine.disk.stagingFaults >= old(engine.disk.stagingFaults)
      ensures badDiscards == 0 && engine.disk.stagingFaults == old(engine.disk.stagingFaults) ==>
        badApplies == old(badApplies)
      ensures Valid() && Counting() && failingAttempts < MAX_TRANSIENT_ATTEMPTS
      ensures old(engine.disk.history) <= engine.disk.history
      ensures engine.disk.queryFaults >= old(engine.disk.queryFaults)
      ensures engine.disk.stateFaults >= old(engine.disk.stateFaults)
      ensures engine.kernel.world.tokenFaults >= old(engine.kernel.world.tokenFaults)
      ensures engine.disk.stateFaults == old(engine.disk.stateFaults) ==>
        engine.installer.misled == old(engine.installer.misled)
      ensures old(engine.Single()) ==> engine.Single()
      ensures Handled(parsed, o) && (!Accepted(options, parsed) ==> r.Ok?)
      ensures deliveries == old(deliveries) + [Delivery(raw, o, r.Err?)]
      ensures moments == old(moments) + [|engine.disk.history|]
      ensures reports == old(reports) + ReportedOn(options, parsed, o, lastReport)
      ensures old(listings) <= listings && old(rewritten) <= rewritten
      ensures versions.failedRemovals >= old(versions.failedRemovals)
      ensures badDiscards == old(badDiscards) || versions.failedRemovals > old(versions.failedRemovals)
      ensures forall l | l in listings - old(listings) :: MessageLists(options, parsed, l)
      ensures forall f | f in rewritten - old(rewritten) :: MessageRewrites(options, parsed, engine.disk.view, f)
      ensures Accepted(options, parsed) && o.Success? ==> lastReport in Texts(parsed.value.command)
    {
      hide Valid, Counting, MessageLists, MessageRewrites, DeploymentEngine.Single;
      hide AgentService.CarriedOut, AgentService.LeftAlone, AgentService.Blamed, AgentService.FailedAs;
      if parsed.None? {
        r, o := Refuse(raw, "", "", "cannot parse agent message");
        return;
      }
      var message := parsed.value;
      if message.targetGroup != "" && message.targetGroup != options.group {
        r, o := Refuse(raw, message.command, message.replyQueueUrl, "the command targets another group");
        return;
      }
      if message.command !in COMMANDS {
        r, o := Refuse(raw, message.command, message.replyQueueUrl, "command is not found");
        return;
      }
      var outcome := Execute(message);
      o := outcome;
      if failureIsPermanent {
        r := Settle(raw, PermanentFailure(outcome.reason));
      } else {
        r := Settle(raw, outcome);
      }
    }

    /** The message is not for this device: it is reported on and dropped. */
    method Refuse(raw: string, command: string, replyQueueUrl: string, reason: string)
      returns (r: Result<Unit, string>, ghost o: Outcome)
      requires Counting()
      modifies this`failingMessage, this`failingAttempts, this`deliveries, this`moments, this`reports
      ensures Counting() && failingAttempts < MAX_TRANSIENT_ATTEMPTS && r.Ok? && o.PermanentFailure?
      ensures deliveries == old(deliveries) + [Delivery(raw, o, r.Err?)]
      ensures moments == old(moments) + [|engine.disk.history|]
      ensures reports == old(reports) + Reported(options, command, replyQueueUrl, o, lastReport)
    {
      hide Counting;
      o := PermanentFailure(reason);
      SendReport(command, replyQueueUrl, false, reason);
      r := Settle(raw, PermanentFailure(reason));
    }

    /** Whether the message goes back to the queue. */
    method Settle(raw: string, o: Outcome) returns (r: Result<Unit, string>)
      requires Counting()
      modifies this`failingMessage, this`failingAttempts, this`deliveries, this`moments
      ensures Counting() && failingAttempts < MAX_TRANSIENT_ATTEMPTS
      ensures deliveries == old(deliveries) + [Delivery(raw, o, r.Err?)]
      ensures moments == old(moments) + [|engine.disk.history|]
      ensures !o.TransientFailure? ==> r.Ok?
    {
      hide Bounded, Block;
      ghost var h := deliveries;
      BlockNext(h, Delivery(raw, o, false));
      BlockNext(h, Delivery(raw, o, true));
      CountsToFive(Block(h), failingAttempts);
      if !o.TransientFailure? {
        ForgetFailure();
        r := Ok(Unit.Unit);
      } else {
        var attempts := RecordFailure(raw);
        if attempts >= MAX_TRANSIENT_ATTEMPTS {
          ForgetFailure();
          r := Ok(Unit.Unit);
        } else {
          r := Err(o.reason);
        }
      }
      BoundedNext(h, Delivery(raw, o, r.Err?));
      deliveries := deliveries + [Delivery(raw, o, r.Err?)];
      moments := moments + [|engine.disk.history|];
    }

    /** A run of the agent: any messages in any order, with any failures. No message comes back five times
        in a row, every delivery is reported on, and nothing is ever run but files that a download message
        listed or an update message wrote. */
    method HandleAll(messages: seq<(string, Option<AgentMessage>)>) returns (answers: seq<Result<Unit, string>>)
      requires Valid() && Counting() && deliveries == [] && moments == []
      modifies this, store, versions
      modifies engine, engine.supervisor, engine.network, engine.installer, engine.kernel, engine.clock, engine.disk
      ensures old(engine.installer.activated) <= engine.installer.activated
      ensures forall x | x in engine.installer.activated - old(engine.installer.activated) ::
        NamedByRun(options, messages, ACTIVATING, x)
      ensures forall x | x in engine.lost - old(engine.lost) :: NamedByRun(options, messages, APPLYING, x)
      ensures messages == [] ==>
        && engine.handle == old(engine.handle) && engine.kernel.world == old(engine.kernel.world)
        && engine.supervisor.View() == old(engine.supervisor.View()) && engine.disk.view == old(engine.disk.view)
      ensures engine.disk.stagingFaults >= old(engine.disk.stagingFaults)
      ensures badDiscards == 0 && engine.disk.stagingFaults == old(engine.disk.stagingFaults) ==>
        badApplies == old(badApplies)
      ensures Valid() && Counting() && |answers| == |messages| && AnswersFit(messages, deliveries, answers)
      ensures old(engine.disk.history) <= engine.disk.history
      ensures engine.disk.queryFaults >= old(engine.disk.queryFaults)
      ensures engine.disk.stateFaults >= old(engine.disk.stateFaults)
      ensures engine.kernel.world.tokenFaults >= old(engine.kernel.world.tokenFaults)
      ensures engine.disk.stateFaults == old(engine.disk.stateFaults) ==>
        engine.installer.misled == old(engine.installer.misled)
      ensures forall i | 0 <= i && i + MAX_TRANSIENT_ATTEMPTS <= |messages| && SameMessage(messages, i) ::
        exists k :: i <= k < i + MAX_TRANSIENT_ATTEMPTS && answers[k].Ok?
      ensures |reports| <= old(|reports|) + |messages|
      ensures options.hasPublisher && options.resultQueueUrl != "" ==> ReportsFit(old(|reports|), reports, deliveries)
      ensures old(engine.Single()) ==> engine.Single()
      ensures old(listings) <= listings && old(rewritten) <= rewritten
      ensures badDiscards >= old(badDiscards) && versions.failedRemovals >= old(versions.failedRemovals)
      ensures badDiscards == old(badDiscards) || versions.failedRemovals > old(versions.failedRemovals)
      ensures |moments| == |messages| && Ordered(moments, old(|engine.disk.history|), |engine.disk.history|)
      ensures FromRun(options, messages, moments, engine.disk.history, listings - old(listings),
        rewritten - old(rewritten))
      ensures badApplies == 0 ==>
        forall i | i in engine.kernel.world.launched ::
          var l := engine.kernel.world.launched[i];
          Vetted(l.release, l.tree, digest, old(listings), old(rewritten), options, messages, moments,
            engine.disk.history)
    {
      hide *;
      answers := [];
      ghost var l0, f0, n0 := listings, rewritten, |engine.disk.history|;
      NothingYet(options, messages[..0], engine.disk.history, |reports|, reports);
      NoAnswers(messages);
      for n := 0 to |messages|
        invariant Valid() && Counting() && |answers| == n && AnswersFit(messages, deliveries, answers)
        invariant old(engine.disk.history) <= engine.disk.history
        invariant engine.disk.queryFaults >= old(engine.disk.queryFaults)
        invariant engine.disk.stateFaults >= old(engine.disk.stateFaults)
        invariant engine.kernel.world.tokenFaults >= old(engine.kernel.world.tokenFaults)
        invariant engine.disk.stateFaults == old(engine.disk.stateFaults) ==>
          engine.installer.misled == old(engine.installer.misled)
        invariant |reports| <= old(|reports|) + n
        invariant options.hasPublisher && options.resultQueueUrl != "" ==>
          ReportsFit(old(|reports|), reports, deliveries)
        invariant old(engine.Single()) ==> engine.Single()
        invariant old(engine.installer.activated) <= engine.installer.activated
        invariant forall x | x in engine.installer.activated - old(engine.installer.activated) ::
          NamedByRun(options, messages[..n], ACTIVATING, x)
        invariant forall x | x in engine.lost - old(engine.lost) :: NamedByRun(options, messages[..n], APPLYING, x)
        invariant n == 0 ==>
          && engine.handle == old(engine.handle) && engine.kernel.world == old(engine.kernel.world)
          && engine.supervisor.View() == old(engine.supervisor.View()) && engine.disk.view == old(engine.disk.view)
        invariant |deliveries| == n && versions.failedRemovals >= old(versions.failedRemovals)
        invariant badDiscards == old(badDiscards) || versions.failedRemovals > old(versions.failedRemovals)
        invariant engine.disk.stagingFaults >= old(engine.disk.stagingFaults) && badDiscards >= old(badDiscards)
        invariant badDiscards == 0 && engine.disk.stagingFaults == old(engine.disk.stagingFaults) ==>
          badApplies == old(badApplies)
        invariant l0 <= listings && f0 <= rewritten
        invariant |moments| == n && Ordered(moments, n0, |engine.disk.history|)
        invariant FromRun(options, messages[..n], moments, engine.disk.history, listings - l0, rewritten - f0)
      {
        ghost var h, told, disks, l1, f1, marks := deliveries, reports, engine.disk.history, listings, rewritten,
          moments;
        ghost var activated, lost := engine.installer.activated, engine.lost;
        var r, o := Handle(messages[n].0, messages[n].1);
        AnswersFitNext(messages, h, answers, Delivery(messages[n].0, o, r.Err?), r);
        ReportsNext(options, messages[n].1, old(|reports|), told, h, Delivery(messages[n].0, o, r.Err?), lastReport);
        LastIsView();
        FromRunNext(options, messages, n, marks, n0, disks, engine.disk.history, l1 - l0, f1 - f0, listings - l0,
          rewritten - f0);
        NamedNext(options, messages, n, ACTIVATING, activated - old(engine.installer.activated),
          engine.installer.activated - old(engine.installer.activated));
        NamedNext(options, messages, n, APPLYING, lost - old(engine.lost), engine.lost - old(engine.lost));
        answers := answers + [r];
      }
      assert messages[..|messages|] == messages;
      CountingIsBounded();
      NobodyFiveTimes(messages, deliveries, answers);
      NothingElseRuns(messages, l0, f0);
    }

    lemma CountingIsBounded()
      requires Counting()
      ensures Bounded(deliveries)
    {
    }

    lemma LastIsView()
      requires Valid()
      ensures engine.disk.history != [] && engine.disk.history[|engine.disk.history|-1] == engine.disk.view
    {
    }

    lemma NothingElseRuns(messages: seq<(string, Option<AgentMessage>)>, l0: set<Listing>, f0: set<FileId>)
      requires Valid() && FromRun(options, messages, moments, engine.disk.history, listings - l0, rewritten - f0)
      ensures badApplies == 0 ==>
        forall i | i in engine.kernel.world.launched ::
          var l := engine.kernel.world.launched[i];
          Vetted(l.release, l.tree, digest, l0, f0, options, messages, moments, engine.disk.history)
    {
      if badApplies == 0 {
        forall i | i in engine.kernel.world.launched
          ensures var l := engine.kernel.world.launched[i];
            Vetted(l.release, l.tree, digest, l0, f0, options, messages, moments, engine.disk.history)
        {
          var l := engine.kernel.world.launched[i];
          CheckedIsVetted(l.release, l.tree, digest, l0, f0, options, messages, moments, engine.disk.history, listings,
            rewritten);
        }
      }
    }
  }

  // ---------------------------------------------------------------- where listings come from

  /** A download message among these lists it. */
  ghost predicate ListedByRun(options: Options, messages: seq<(string, Option<AgentMessage>)>, l: Listing) {
    exists k :: 0 <= k < |messages| && MessageLists(options, messages[k].1, l)
  }

  /** An update message among these is aimed at it, in the release that was active when the message was done. */
  ghost predicate RewrittenByRun(options: Options, messages: seq<(string, Option<AgentMessage>)>, moments: seq<nat>,
      history: seq<Snapshot>, f: FileId) {
    exists k ::
      && 0 <= k < |messages| && k < |moments| && 0 < moments[k] <= |history|
      && MessageRewrites(options, messages[k].1, history[moments[k] - 1], f)
  }

  /** One after the other, between these two. */
  ghost predicate Ordered(moments: seq<nat>, first: nat, last: nat) {
    && first <= last
    && (forall i | 0 <= i < |moments| :: first <= moments[i] <= last)
    && forall i, j | 0 <= i < j < |moments| :: moments[i] <= moments[j]
  }

  const APPLYING := {"apply_version"}
  const ACTIVATING := {"apply_version", "rollback_version"}

  /** The message is one of these commands that this device carries out, about this release. */
  ghost predicate MessageNames(options: Options, parsed: Option<AgentMessage>, commands: set<string>, id: string) {
    && Accepted(options, parsed) && parsed.value.command in commands
    && IsAbout(parsed.value.payload, id)
  }

  ghost predicate NamedByRun(options: Options, messages: seq<(string, Option<AgentMessage>)>, commands: set<string>,
      id: string) {
    exists k :: 0 <= k < |messages| && MessageNames(options, messages[k].1, commands, id)
  }

  lemma NamedNext(options: Options, messages: seq<(string, Option<AgentMessage>)>, n: nat, commands: set<string>,
      ids: set<string>, ids': set<string>)
    requires n < |messages| && forall x | x in ids :: NamedByRun(options, messages[..n], commands, x)
    requires forall x | x in ids' - ids :: MessageNames(options, messages[n].1, commands, x)
    ensures forall x | x in ids' :: NamedByRun(options, messages[..n+1], commands, x)
  {
    hide MessageNames;
    var next := messages[..n+1];
    assert next[n] == messages[n];
    forall x | x in ids' ensures NamedByRun(options, next, commands, x) {
      if x in ids {
        var k :| 0 <= k < n && MessageNames(options, messages[..n][k].1, commands, x);
        assert next[k] == messages[..n][k];
      } else {
        assert x in ids' - ids;
        assert MessageNames(options, next[n].1, commands, x);
      }
    }
  }

  ghost predicate FromRun(options: Options, messages: seq<(string, Option<AgentMessage>)>, moments: seq<nat>,
      history: seq<Snapshot>, listings: set<Listing>, files: set<FileId>) {
    && (forall l | l in listings :: ListedByRun(options, messages, l))
    && (forall f | f in files :: RewrittenByRun(options, messages, moments, history, f))
  }

  /** The content of every file is listed by a message of the run for this release and path, or was so
      before, or the file was written by an update message of the run, or before. */
  ghost predicate Vetted(name: string, tree: Tree, digest: Content -> string, listings: set<Listing>,
      rewritten: set<FileId>, options: Options, messages: seq<(string, Option<AgentMessage>)>, moments: seq<nat>,
      history: seq<Snapshot>) {
    forall p | p in tree ::
      || Listing(name, p, digest(tree[p])) in listings || FileId(name, p) in rewritten
      || ListedByRun(options, messages, Listing(name, p, digest(tree[p])))
      || RewrittenByRun(options, messages, moments, history, FileId(name, p))
  }

  lemma CheckedIsVetted(name: string, tree: Tree, digest: Content -> string, l0: set<Listing>, f0: set<FileId>,
      options: Options, messages: seq<(string, Option<AgentMessage>)>, moments: seq<nat>, history: seq<Snapshot>,
      listings: set<Listing>, rewritten: set<FileId>)
    requires Checked(name, tree, digest, listings, rewritten)
    requires FromRun(options, messages, moments, history, listings - l0, rewritten - f0)
    ensures Vetted(name, tree, digest, l0, f0, options, messages, moments, history)
  {
    hide ListedByRun, RewrittenByRun;
  }

  lemma NothingYet(options: Options, messages: seq<(string, Option<AgentMessage>)>, history: seq<Snapshot>,
      before: nat, reports: seq<Report>)
    ensures FromRun(options, messages, [], history, {}, {}) && Ordered([], |history|, |history|)
    ensures |reports| == before ==> ReportsFit(before, reports, [])
    ensures forall l: set<Listing> :: l - l == {}
    ensures forall f: set<FileId> :: f - f == {}
    ensures forall ids: set<string> :: ids - ids == {}
  {
  }

  lemma FromRunNext(options: Options, messages: seq<(string, Option<AgentMessage>)>, n: nat, moments: seq<nat>,
      n0: nat, h: seq<Snapshot>, h': seq<Snapshot>, l: set<Listing>, f: set<FileId>, l': set<Listing>, f': set<FileId>)
    requires n < |messages| && |moments| == n && FromRun(options, messages[..n], moments, h, l, f)
    requires Ordered(moments, n0, |h|) && h <= h' && h' != []
    requires forall x | x in l' - l :: MessageLists(options, messages[n].1, x)
    requires forall x | x in f' - f :: MessageRewrites(options, messages[n].1, h'[|h'|-1], x)
    ensures Ordered(moments + [|h'|], n0, |h'|)
    ensures FromRun(options, messages[..n+1], moments + [|h'|], h', l', f')
  {
    hide MessageLists, MessageRewrites;
    var next, now := messages[..n+1], moments + [|h'|];
    assert next[n] == messages[n];
    forall x | x in l' ensures ListedByRun(options, next, x) {
      if x in l {
        var k :| 0 <= k < n && MessageLists(options, messages[..n][k].1, x);
        assert next[k] == messages[..n][k];
      } else {
        assert x in l' - l;
        assert MessageLists(options, next[n].1, x);
      }
    }
    forall x | x in f' ensures RewrittenByRun(options, next, now, h', x) {
      if x in f {
        var k :| 0 <= k < n && 0 < moments[k] <= |h| &&
          MessageRewrites(options, messages[..n][k].1, h[moments[k] - 1], x);
        assert next[k] == messages[..n][k] && now[k] == moments[k] && h'[now[k] - 1] == h[moments[k] - 1];
      } else {
        assert x in f' - f;
        assert MessageRewrites(options, next[n].1, h'[now[n] - 1], x);
      }
    }
  }

  /** Every delivery has a report, which says whether it succeeded. */
  ghost predicate ReportsFit(before: nat, reports: seq<Report>, deliveries: seq<Delivery>) {
    && |reports| == before + |deliveries|
    && forall i | 0 <= i < |deliveries| :: reports[before + i].success <==> deliveries[i].outcome.Success?
  }

  lemma ReportsNext(options: Options, parsed: Option<AgentMessage>, before: nat, reports: seq<Report>,
      deliveries: seq<Delivery>, d: Delivery, lastReport: string)
    ensures |ReportedOn(options, parsed, d.outcome, lastReport)| <= 1
    ensures options.hasPublisher && options.resultQueueUrl != "" && ReportsFit(before, reports, deliveries) ==>
      ReportsFit(before, reports + ReportedOn(options, parsed, d.outcome, lastReport), deliveries + [d])
  {
    var told := ReportedOn(options, parsed, d.outcome, lastReport);
    if options.hasPublisher && options.resultQueueUrl != "" {
      assert told[0] in told;
    }
  }

  lemma NoAnswers(messages: seq<(string, Option<AgentMessage>)>)
    ensures AnswersFit(messages, [], [])
  {
  }

  /** Delivery `i` is of message `i`, and an error answer is what hands it back. */
  ghost predicate AnswersFit(messages: seq<(string, Option<AgentMessage>)>, deliveries: seq<Delivery>,
      answers: seq<Result<Unit, string>>) {
    && |answers| == |deliveries| <= |messages|
    && forall i | 0 <= i < |answers| :: deliveries[i].raw == messages[i].0 && (deliveries[i].again <==> answers[i].Err?)
  }

  lemma AnswersFitNext(messages: seq<(string, Option<AgentMessage>)>, h: seq<Delivery>, answers: seq<Result<Unit,
      string>>, d: Delivery, r: Result<Unit, string>)
    requires AnswersFit(messages, h, answers) && |h| < |messages| && d.raw == messages[|h|].0 && (d.again <==> r.Err?)
    ensures AnswersFit(messages, h + [d], answers + [r])
    ensures |answers| == |h|
  {
  }

  lemma NobodyFiveTimes(messages: seq<(string, Option<AgentMessage>)>, deliveries: seq<Delivery>,
      answers: seq<Result<Unit, string>>)
    requires Bounded(deliveries) && |answers| == |messages| && AnswersFit(messages, deliveries, answers)
    ensures forall i | 0 <= i && i + MAX_TRANSIENT_ATTEMPTS <= |messages| && SameMessage(messages, i) ::
      exists k :: i <= k < i + MAX_TRANSIENT_ATTEMPTS && answers[k].Ok?
  {
    forall i | 0 <= i && i + MAX_TRANSIENT_ATTEMPTS <= |messages| && SameMessage(messages, i)
      ensures exists k :: i <= k < i + MAX_TRANSIENT_ATTEMPTS && answers[k].Ok?
    {
      NeverFiveInARow(deliveries, i);
      var k :| i <= k < i + MAX_TRANSIENT_ATTEMPTS && !deliveries[k].again;
      assert answers[k].Ok?;
    }
  }

  lemma CountsToFive(block: nat, attempts: nat)
    requires attempts == block % MAX_TRANSIENT_ATTEMPTS
    ensures attempts < MAX_TRANSIENT_ATTEMPTS && 1 % MAX_TRANSIENT_ATTEMPTS == 1
    ensures (block + 1) % MAX_TRANSIENT_ATTEMPTS == if attempts + 1 == MAX_TRANSIENT_ATTEMPTS then 0 else attempts + 1
  {
  }

  /** Five deliveries of one message in a row. */
  predicate SameMessage(messages: seq<(string, Option<AgentMessage>)>, i: nat)
    requires i + MAX_TRANSIENT_ATTEMPTS <= |messages|
  {
    forall k | i <= k < i + MAX_TRANSIENT_ATTEMPTS :: messages[k].0 == messages[i].0
  }

  const COMMANDS: set<string> := {
    "download_version", "apply_version", "current_status", "clean_old_version",
    "rollback_version", "update_configuration", "restart_service", "reboot_device"}

  /** The message is one this device carries out. */
  predicate Accepted(options: Options, parsed: Option<AgentMessage>) {
    && parsed.Some?
    && (parsed.value.targetGroup == "" || parsed.value.targetGroup == options.group)
    && parsed.value.command in {
      "download_version", "apply_version", "current_status", "clean_old_version",
      "rollback_version", "update_configuration", "restart_service", "reboot_device"}
  }

  /** What a success of the command is reported as, in short. */
  function Texts(command: string): (r: set<string>) {
    match command
    case "download_version" => {"downloaded release"}
    case "apply_version" => {"applied"}
    case "current_status" => {"status"}
    case "clean_old_version" => {"nothing to clean", "removed the versions"}
    case "rollback_version" => {"rolled back"}
    case "update_configuration" => {"updated"}
    case "restart_service" => {"restarted"}
    case "reboot_device" => {"reboot scheduled"}
    case _ => {}
  }

  /** Exactly one report, if there is a publisher and a destination: the queue the message names, or else
      the configured one. */
  function Reported(options: Options, command: string, replyQueueUrl: string, o: Outcome,
      lastReport: string): (r: seq<Report>)
    ensures |r| == if options.hasPublisher && (replyQueueUrl != "" || options.resultQueueUrl != "") then 1 else 0
    ensures forall report | report in r ::
      && report.command == command && (report.success <==> o.Success?)
      && report.detail == (if o.Success? then lastReport else o.reason)
      && report.destination == (if replyQueueUrl != "" then replyQueueUrl else options.resultQueueUrl)
  {
    var destination := if replyQueueUrl == "" then options.resultQueueUrl else replyQueueUrl;
    if !options.hasPublisher || destination == "" then []
    else [Report(destination, command, o.Success?, if o.Success? then lastReport else o.reason)]
  }

  function ReportedOn(options: Options, parsed: Option<AgentMessage>, o: Outcome, lastReport: string): (r: seq<Report>)
    ensures |r| <= 1 && (options.hasPublisher && options.resultQueueUrl != "" ==> |r| == 1)
    ensures forall report | report in r :: report.success <==> o.Success?
  {
    if parsed.None? then Reported(options, "", "", o, lastReport)
    else Reported(options, parsed.value.command, parsed.value.replyQueueUrl, o, lastReport)
  }

  /** The file an entry of a download message names, if it gets as far as being fetched. */
  function FileOf(id: CText, element: Json): (r: Option<string>) {
    if EntryOf(id, element).Some? then Some(EntryOf(id, element).value.path) else None
  }

  /** A file that may not be what it should be is one the message names. */
  ghost predicate Suspect(id: CText, artifacts: seq<Json>, bad: Option<string>) {
    bad.Some? ==> exists i :: 0 <= i < |artifacts| && FileOf(id, artifacts[i]) == bad
  }

  /** The message is a download that this device carries out, and one of its entries is this listing. */
  ghost predicate MessageLists(options: Options, parsed: Option<AgentMessage>, l: Listing) {
    && Accepted(options, parsed) && parsed.value.command == "download_version"
    && ListedIn(parsed.value.payload, {l})
  }

  /** The message is an update that this device carries out, and the file is the one it is aimed at in the
      active release, or the temporary file next to it. */
  ghost predicate MessageRewrites(options: Options, parsed: Option<AgentMessage>, s: Snapshot, f: FileId) {
    && Accepted(options, parsed) && parsed.value.command == "update_configuration"
    && Rewrote(parsed.value.payload, s, {f})
  }

  /** The listings come from the message, which is a download. */
  ghost predicate ListedIn(payload: Option<Json>, listings: set<Listing>) {
    listings != {} ==>
      DownloadOf(payload).Some? && Listed(DownloadOf(payload).value.id, DownloadOf(payload).value.artifacts, listings)
  }

  lemma EachFrom(options: Options, parsed: Option<AgentMessage>, s: Snapshot, listings: set<Listing>,
      files: set<FileId>)
    requires Accepted(options, parsed)
    requires listings != {} ==> parsed.value.command == "download_version" && ListedIn(parsed.value.payload, listings)
    requires files != {} ==> parsed.value.command == "update_configuration" && Rewrote(parsed.value.payload, s, files)
    ensures forall l | l in listings :: MessageLists(options, parsed, l)
    ensures forall f | f in files :: MessageRewrites(options, parsed, s, f)
  {
  }

  lemma ListedByDownload(payload: Option<Json>, listings: set<Listing>)
    ensures DownloadOf(payload).None? && listings == {} ==> ListedIn(payload, listings)
    ensures DownloadOf(payload).Some? && Listed(DownloadOf(payload).value.id, DownloadOf(payload).value.artifacts,
      listings) ==>
      ListedIn(payload, listings)
  {
  }

  /** The message is an update, and it is aimed at these files. */
  ghost predicate Rewrote(payload: Option<Json>, s: Snapshot, files: set<FileId>) {
    forall f | f in files :: UpdateOf(payload).Some? && AimedAt(UpdateOf(payload).value, s, f)
  }

  /** The file the update names in the active release, or the temporary one next to it. */
  ghost predicate AimedAt(u: Update, s: Snapshot, f: FileId) {
    && f.path in {u.file, TemporaryName(u.file)}
    && PointersOf(s).Some? && PointersOf(s).value.active == f.release
  }

  /** Every listing is an entry of the message. */
  ghost predicate Listed(id: CText, artifacts: seq<Json>, listings: set<Listing>) {
    forall l | l in listings :: exists i :: 0 <= i < |artifacts| && EntryOf(id, artifacts[i]) == Some(l)
  }

  /** The first `n` entries were let through, and each of their files has a digest that one of them
      lists for it. */
  ghost predicate FilesListed(id: CText, artifacts: seq<Json>, n: nat, tree: Tree, digest: Content -> string)
    requires n <= |artifacts|
  {
    forall i | 0 <= i < n :: FileListed(id, artifacts, i, n, tree, digest)
  }

  ghost predicate FileListed(id: CText, artifacts: seq<Json>, i: nat, n: nat, tree: Tree, digest: Content -> string)
    requires i < n <= |artifacts|
  {
    && EntryOf(id, artifacts[i]).Some?
    && var path := EntryOf(id, artifacts[i]).value.path;
      && path in tree
      && exists j | 0 <= j < n :: EntryOf(id, artifacts[j]) == Some(Listing(id, path, digest(tree[path])))
  }

  lemma NothingFetched(id: CText, artifacts: seq<Json>, s: Snapshot, digest: Content -> string, listings: set<Listing>)
    ensures id in s.dirs ==> FilesListed(id, artifacts, 0, s.dirs[id], digest)
    ensures OnlyDirectory(s, s, id) && Listed(id, artifacts, {}) && Suspect(id, artifacts, None)
    ensures forall l: set<Listing> :: l - l == {}
  {
  }

  lemma NothingStays(s: Snapshot, id: string, digest: Content -> string, listings: set<Listing>)
    ensures !UncheckedStays(s, id, None, digest, listings)
  {
  }

  lemma DecidedEarly(id: CText, artifacts: seq<Json>, o: Outcome, replies: seq<Reply>, history: seq<Snapshot>, n0: nat,
      digest: Content -> string)
    requires o.TransientFailure?
    ensures Decided(id, artifacts, o, false, [], replies, replies, history, n0, digest)
  {
  }

  lemma DecidedLate(id: CText, artifacts: seq<Json>, o: Outcome, steps: seq<Step>, r0: seq<Reply>, r: seq<Reply>,
      history: seq<Snapshot>, n0: nat, n: nat, digest: Content -> string)
    requires StepsRight(id, artifacts, steps, r0, r, history, n, digest) && OutcomeOf(o, steps, |artifacts|) && n0 <= n
    ensures Decided(id, artifacts, o, true, steps, r0, r, history, n0, digest)
  {
    StepsLater(id, artifacts, steps, r0, r, history, history, n0, n, digest);
  }

  lemma SuspectNamed(id: CText, artifacts: seq<Json>, i: nat)
    requires i < |artifacts|
    ensures Suspect(id, artifacts, FileOf(id, artifacts[i]))
  {
  }

  lemma StepDecides(o: Outcome, steps: seq<Step>, n: nat)
    requires if steps != [] && !steps[|steps|-1].Passed?
      then !o.Success? && (o.PermanentFailure? <==> ForGood(steps[|steps|-1]))
      else o.Success? && |steps| == n
    ensures OutcomeOf(o, steps, n)
  {
  }

  lemma SameDirectory(s0: Snapshot, s1: Snapshot, s2: Snapshot, id: string)
    requires OnlyDirectory(s0, s1, id) && OnlyDirectory(s1, s2, id)
    ensures OnlyDirectory(s0, s2, id)
  {
  }

  lemma ListedNext(id: CText, artifacts: seq<Json>, i: nat, listings: set<Listing>, entry: Listing)
    requires i < |artifacts| && Listed(id, artifacts, listings) && EntryOf(id, artifacts[i]) == Some(entry)
    ensures Listed(id, artifacts, listings + {entry})
  {
  }

  lemma NothingListed(s: Snapshot, payload: Option<Json>, digest: Content -> string, listings: set<Listing>)
    ensures DownloadOf(payload).Some? ==>
      var d := DownloadOf(payload).value;
      && OnlyDirectory(s, s, d.id) && Listed(d.id, d.artifacts, {}) && Suspect(d.id, d.artifacts, None)
      && !UncheckedStays(s, d.id, None, digest, listings)
    ensures forall l: set<Listing> :: l - l == {}
  {
  }

  lemma CreatedIsChecked(s0: Snapshot, s1: Snapshot, id: string, digest: Content -> string, listings: set<Listing>)
    requires VersionsChecked(s0, digest, listings) && OnlyDirectory(s0, s1, id) && id in s1.dirs
    requires s1.dirs[id] == if id in s0.dirs then s0.dirs[id] else map[]
    ensures Checked(id, s1.dirs[id], digest, listings, {})
  {
  }

  lemma DownloadIsChecked(s0: Snapshot, s1: Snapshot, s: Snapshot, id: string, digest: Content -> string,
      listings: set<Listing>, listings': set<Listing>)
    requires VersionsChecked(s0, digest, listings) && listings <= listings' && OnlyDirectory(s0, s, id)
    requires id in s.dirs && Checked(id, s.dirs[id], digest, listings', {})
    ensures VersionsChecked(s, digest, listings')
  {
    VersionsCheckedMore(s0, digest, listings, listings');
    VersionsAfter(s0, s, id, digest, listings');
  }

  lemma RemovedOnly(s: Snapshot, s': Snapshot, id: string)
    requires RemovedPartly(s, s', id)
    ensures OnlyDirectory(s, s', id)
  {
  }

  /** Files and directories were only removed. */
  ghost predicate Shrunk(s: Snapshot, s': Snapshot) {
    forall n | n in s'.dirs :: n in s.dirs && SubTree(s'.dirs[n], s.dirs[n])
  }

  lemma ShrunkSelf(s: Snapshot)
    ensures Shrunk(s, s)
  {
  }

  lemma ShrunkNext(s0: Snapshot, s: Snapshot, s': Snapshot, name: string)
    requires Shrunk(s0, s) && RemovedPartly(s, s', name)
    ensures Shrunk(s0, s') && s'.dirs.Keys <= s.dirs.Keys
    ensures name !in s'.dirs ==> s'.dirs.Keys <= s.dirs.Keys - {name}
  {
    forall n | n in s'.dirs && n != name ensures n in s.dirs && s'.dirs[n] == s.dirs[n] {
      OtherDirectory(s, s', name, n);
    }
  }

  lemma ShrunkChecked(s: Snapshot, s': Snapshot, digest: Content -> string, listings: set<Listing>)
    requires VersionsChecked(s, digest, listings) && Shrunk(s, s')
    ensures VersionsChecked(s', digest, listings)
  {
    forall n | n in s'.dirs ensures Checked(n, s'.dirs[n], digest, listings, {}) {
      CheckedMore(n, s.dirs[n], s'.dirs[n], digest, listings, {}, listings, {});
    }
  }

  lemma OnlyThisOne(id: CText, r: Result<Unit, Failure>, lost: set<string>)
    ensures ActivatedIds(id, r) <= {id} && LostAfter(lost, id, r) <= lost + {id}
  {
  }

  lemma VersionIsChecked(s: Snapshot, id: string, digest: Content -> string, listings: set<Listing>,
      rewritten: set<FileId>)
    requires VersionsChecked(s, digest, listings)
    ensures id in s.dirs ==> Checked(id, s.dirs[id], digest, listings, rewritten)
  {
  }

  /** What was applied is the version if no staging directory stayed or nothing stale lay in it, and it is
      checked if the version is, and the stale files too. */
  lemma TreeApplied(s: Snapshot, id: string, versions: Snapshot, tree: Tree, failed: bool, digest: Content -> string,
      listings: set<Listing>, rewritten: set<FileId>)
    requires
      if id in versions.dirs then Leftover(s, tree, StagingName(id), versions.dirs[id], failed) else tree == map[]
    ensures id in versions.dirs && (!failed || NoneStale(s, StagingName(id), versions.dirs[id])) ==>
      tree == versions.dirs[id]
    ensures (id in versions.dirs ==>
      && Checked(id, versions.dirs[id], digest, listings, rewritten)
      && (failed ==> StaleChecked(s, StagingName(id), versions.dirs[id], id, digest, listings, rewritten))) ==>
      Checked(id, tree, digest, listings, rewritten)
  {
    if id in versions.dirs {
      var source := versions.dirs[id];
      if !failed {
        NothingOver(s, tree, StagingName(id), source);
      } else {
        if NoneStale(s, StagingName(id), source) { OnlySource(s, tree, StagingName(id), source); }
        if Checked(id, source, digest, listings, rewritten)
          && StaleChecked(s, StagingName(id), source, id, digest, listings, rewritten)
        {
          CheckedWithStale(s, tree, StagingName(id), source, id, digest, listings, rewritten);
        }
      }
    }
  }

  lemma LaunchKeepsChecked(s0: Snapshot, s: Snapshot, w0: World, w: World, digest: Content -> string,
      listings: set<Listing>, rewritten: set<FileId>)
    requires s.dirs == s0.dirs && LaunchedFrom(w0, w, s.dirs)
    ensures ReleasesChecked(s0, digest, listings, rewritten) ==> ReleasesChecked(s, digest, listings, rewritten)
    ensures ReleasesChecked(s0, digest, listings, rewritten) && LaunchesChecked(w0, digest, listings, rewritten) ==>
      LaunchesChecked(w, digest, listings, rewritten)
  {
    if ReleasesChecked(s0, digest, listings, rewritten) {
      ReleasesCheckedSame(s0, s, digest, listings, rewritten);
      if LaunchesChecked(w0, digest, listings, rewritten) {
        CheckedAfterLaunch(s, w0, w, digest, listings, rewritten);
      }
    }
  }

  lemma SameDirectories(s: Snapshot)
    ensures forall n :: OnlyDirectory(s, s, n)
  {
  }

  /** The files an update of `file` may write. */
  function EditedFiles(release: string, file: string): (r: set<FileId>) {
    {FileId(release, file), FileId(release, TemporaryName(file))}
  }

  /** At most the temporary file next to `file` differs. */
  ghost predicate Unedited(s: Snapshot, s': Snapshot, release: string, file: string) {
    release in s.dirs ==>
      release in s'.dirs && OnlyFile(s.dirs[release], s'.dirs[release], TemporaryName(file))
  }

  /** At most the file `path` differs. */
  ghost predicate OnlyFile(tree: Tree, tree': Tree, path: string) {
    tree' - {path} == tree - {path}
  }

  /** Editing files of an installed release does not touch what the pointers rest on. */
  lemma EditSafe(s: Snapshot, s': Snapshot, name: string, activated: set<CText>, lost: set<string>)
    requires OnlyDirectory(s, s', name) && name in s.dirs && name in s'.dirs
    ensures SafeIn(s, activated, lost) ==> SafeIn(s', activated, lost)
    ensures Proper(s) ==> Proper(s')
  {
    SameStateSamePointers(s, s');
    if PointersOf(s).Some? {
      var p := PointersOf(s).value;
      if p.active != name { OtherDirectory(s, s', name, p.active); }
      if p.previous != name { OtherDirectory(s, s', name, p.previous); }
    }
  }

  lemma OnlyFileWritten(tree: Tree, tree': Tree, path: string)
    requires tree' - {path} == tree - {path} || (path in tree' && tree' == tree[path := tree'[path]])
    ensures OnlyFile(tree, tree', path)
  {
  }

  lemma FetchedNot(id: CText, tree: Tree, tree': Tree, bad: Option<string>, digest: Content -> string,
      listings: set<Listing>)
    requires Checked(id, tree, digest, listings, {})
    requires if bad.Some? then OnlyFile(tree, tree', bad.value) else tree' == tree
    ensures CheckedBut(id, tree', bad, digest, listings)
  {
    if bad.Some? {
      forall p | p in tree' && p != bad.value ensures p in tree && tree'[p] == tree[p] {
        assert p in tree' - {bad.value};
        assert (tree' - {bad.value})[p] == (tree - {bad.value})[p];
      }
    }
  }

  lemma FetchedOne(id: CText, artifacts: seq<Json>, i: nat, tree: Tree, tree': Tree, file: string,
      digest: Content -> string, listings: set<Listing>)
    requires i < |artifacts| && FilesListed(id, artifacts, i, tree, digest)
    requires file in tree' && tree' == tree[file := tree'[file]]
    requires EntryOf(id, artifacts[i]) == Some(Listing(id, file, digest(tree'[file])))
    ensures FilesListed(id, artifacts, i + 1, tree', digest)
    ensures Checked(id, tree, digest, listings, {}) ==>
      Checked(id, tree', digest, listings + {Listing(id, file, digest(tree'[file]))}, {})
  {
    var m := i + 1;
    forall k | 0 <= k < m ensures FileListed(id, artifacts, k, m, tree', digest) {
      if k < i {
        assert FileListed(id, artifacts, k, i, tree, digest);
        var path := EntryOf(id, artifacts[k]).value.path;
        if path != file {
          var j :| 0 <= j < i && EntryOf(id, artifacts[j]) == Some(Listing(id, path, digest(tree[path])));
          assert EntryOf(id, artifacts[j]) == Some(Listing(id, path, digest(tree'[path])));
        }
      }
    }
  }
}
