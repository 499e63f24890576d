/** The release installer: it puts releases under `releases/`, keeps the active and the previous
    release in `state.json`, and prunes old releases. */
module ReleaseInstaller {
  import opened Prelude
  import opened Json
  import opened ReleaseTree
  import opened Paths
  import opened Records
  import opened Storage

  datatype InstallError =
    | RootMissing | BadReleaseId(refusal: Refusal) | NotDownloaded | StagingFailed | CopyFailed | EmptyRelease
    | PublishFailed | Stranded
    | StateUnreadable | StateNotWritten | NotInstalled | NoPrevious
    | ListFailed | RemoveFailed

  function StagingName(id: string): (r: string)
    ensures Internal(r) && !(RETIRED_PREFIX <= r)
  {
    assert (STAGING_PREFIX + id)[1] == 's';
    STAGING_PREFIX + id
  }

  function RetiredName(id: string): (r: string)
    ensures Internal(r) && RETIRED_PREFIX <= r
  { RETIRED_PREFIX + id }

  predicate ValidId(id: string) { InstallerReleaseId(id).Ok? }

  // ---------------------------------------------------------------- publishing

  /** Everything but what was set aside under a retired name. */
  function Unretired(s: Snapshot): (r: map<string, Tree>) {
    map n | n in s.dirs && !(RETIRED_PREFIX <= n) :: s.dirs[n]
  }

  ghost predicate Swept(s: Snapshot, s': Snapshot) {
    s'.state == s.state && s'.runtime == s.runtime && Unretired(s') == Unretired(s)
  }

  /** While `id` is being replaced by `tree`: the release is the whole old tree, the whole new tree or
      absent; while it is absent the whole old tree is set aside; no other release changes. */
  ghost predicate Swap(s0: Snapshot, s: Snapshot, id: string, tree: Tree) {
    && ReleasesKept(s0, s, {id})
    && (id in s.dirs ==> s.dirs[id] == tree || (id in s0.dirs && s.dirs[id] == s0.dirs[id]))
    && (id !in s.dirs && id in s0.dirs ==> RetiredName(id) in s.dirs && s.dirs[RetiredName(id)] == s0.dirs[id])
  }

  /** The release is as it was. */
  ghost predicate Untouched(s0: Snapshot, s: Snapshot, id: string) {
    (id in s.dirs <==> id in s0.dirs) && (id in s.dirs ==> s.dirs[id] == s0.dirs[id])
  }

  lemma SweptStep(s0: Snapshot, s: Snapshot, s': Snapshot, name: string)
    requires Swept(s0, s) && OnlyDirectory(s, s', name) && RETIRED_PREFIX <= name
    ensures Swept(s0, s')
  {
    forall n | n != name
      ensures n in s'.dirs <==> n in s.dirs
      ensures n in s.dirs ==> s'.dirs[n] == s.dirs[n]
    {
      OtherDirectory(s, s', name, n);
    }
  }

  lemma UnretiredAt(s: Snapshot, s': Snapshot, n: string)
    requires Swept(s, s') && !(RETIRED_PREFIX <= n)
    ensures n in s'.dirs <==> n in s.dirs
    ensures n in s.dirs ==> s'.dirs[n] == s.dirs[n]
  {
    assert n in Unretired(s') <==> n in Unretired(s);
    assert n in s.dirs ==> Unretired(s')[n] == Unretired(s)[n];
  }

  lemma SweptIsSwap(s0: Snapshot, s: Snapshot, id: string, tree: Tree)
    requires Swept(s0, s) && ValidId(id)
    ensures Swap(s0, s, id, tree) && Untouched(s0, s, id)
  {
    UnretiredAt(s0, s, id);
    forall n | !Internal(n)
      ensures n in s.dirs <==> n in s0.dirs
      ensures n in s0.dirs ==> s.dirs[n] == s0.dirs[n]
    {
      UnretiredAt(s0, s, n);
    }
  }

  /** `id` has just been set aside. */
  lemma AsideIsSwap(s0: Snapshot, s: Snapshot, s': Snapshot, id: string, tree: Tree)
    requires Swept(s0, s) && ValidId(id) && Renamed(s, s', id, RetiredName(id))
    ensures Swap(s0, s', id, tree) && id in s0.dirs && id !in s'.dirs
    ensures StagingName(id) in s0.dirs ==>
      StagingName(id) in s'.dirs && s'.dirs[StagingName(id)] == s0.dirs[StagingName(id)]
  {
    SweptIsSwap(s0, s, id, tree);
    UnretiredAt(s0, s, StagingName(id));
    assert Releases(s', {id}) == Releases(s, {id});
  }

  /** The staged tree has just become the release. */
  lemma PublishIsSwap(s0: Snapshot, s: Snapshot, s': Snapshot, id: string, tree: Tree)
    requires Swap(s0, s, id, tree) && ValidId(id) && Renamed(s, s', StagingName(id), id)
    requires s.dirs[StagingName(id)] == tree
    ensures Swap(s0, s', id, tree) && id in s'.dirs && s'.dirs[id] == tree
  {
    assert Releases(s', {id}) == Releases(s, {id});
  }

  /** The old release has just been put back. */
  lemma RestoreIsSwap(s0: Snapshot, s: Snapshot, s': Snapshot, id: string, tree: Tree)
    requires Swap(s0, s, id, tree) && ValidId(id) && Renamed(s, s', RetiredName(id), id)
    requires id !in s.dirs && id in s0.dirs
    ensures Swap(s0, s', id, tree) && Untouched(s0, s', id)
  {
    assert Releases(s', {id}) == Releases(s, {id});
  }

  /** Changes to internal directories, once the release is there or never was. */
  lemma InternalIsSwap(s0: Snapshot, s: Snapshot, s': Snapshot, id: string, tree: Tree, name: string)
    requires Swap(s0, s, id, tree) && ValidId(id) && OnlyDirectory(s, s', name) && Internal(name)
    requires id in s.dirs || id !in s0.dirs || name != RetiredName(id)
    ensures Swap(s0, s', id, tree) && Untouched(s, s', id)
  {
    OnlyDirectoryKeepsReleases(s, s', name, {id});
    OtherDirectory(s, s', name, id);
    if name != RetiredName(id) { OtherDirectory(s, s', name, RetiredName(id)); }
  }

  lemma RenameInternalIsSwap(s0: Snapshot, s: Snapshot, s': Snapshot, id: string, tree: Tree, source: string,
      target: string)
    requires Swap(s0, s, id, tree) && ValidId(id) && Renamed(s, s', source, target)
    requires Internal(source) && Internal(target)
    requires id in s.dirs
    ensures Swap(s0, s', id, tree) && Untouched(s, s', id)
  {
    assert Releases(s', {id}) == Releases(s, {id});
  }

  // ---------------------------------------------------------------- the pointers

  datatype Pointers = Pointers(active: CText, previous: CText)

  function ActivationOf(doc: Doc): (r: Option<ActivationState>) {
    match doc
    case Absent => Some(NO_ACTIVATION)
    case Garbage => None
    case Document(json) => if json.Object? then Some(DecodeState(json.members)) else None
  }

  function PointersOf(s: Snapshot): (r: Option<Pointers>) {
    var state := ActivationOf(s.state);
    if state.Some? then Some(Pointers(state.value.active, state.value.previous)) else None
  }

  function AfterActivate(p: Pointers, id: CText): Pointers {
    Pointers(id, if p.active == id then p.previous else p.active)
  }

  function AfterRollback(p: Pointers): Pointers {
    Pointers(p.previous, p.active)
  }

  /** What the two pointers say about the releases that were ever activated. */
  ghost predicate PointersSound(p: Pointers, activated: set<CText>) {
    && (p.active == "" <==> activated == {})
    && (p.active != "" ==> p.active in activated && ValidId(p.active))
    && (p.previous != "" ==> p.previous in activated && ValidId(p.previous) && p.previous != p.active)
    && (p.previous != "" <==> exists x, y :: x in activated && y in activated && x != y)
  }

  lemma ActivateKeepsPointersSound(p: Pointers, activated: set<CText>, id: CText)
    requires PointersSound(p, activated) && ValidId(id)
    ensures PointersSound(AfterActivate(p, id), activated + {id})
  {
    var next, all := AfterActivate(p, id), activated + {id};
    if next.previous != "" {
      assert next.previous in all && id in all && next.previous != id;
    }
    if x, y :| x in all && y in all && x != y {
      if p.active == id {
        assert x in activated && y in activated;
      } else {
        var other := if x == id then y else x;
        assert other in activated;
      }
    }
  }

  lemma RollbackKeepsPointersSound(p: Pointers, activated: set<CText>)
    requires PointersSound(p, activated) && p.previous != ""
    ensures PointersSound(AfterRollback(p), activated)
  {
  }

  ghost predicate Proper(s: Snapshot) {
    PointersOf(s).Some? ==>
      && (PointersOf(s).value.active == "" || ValidId(PointersOf(s).value.active))
      && (PointersOf(s).value.previous == "" || ValidId(PointersOf(s).value.previous))
  }

  /** The pointers name distinct releases that were activated; both are installed unless `lost`. */
  ghost predicate SafeIn(s: Snapshot, activated: set<CText>, lost: set<string>) {
    && PointersOf(s).Some?
    && var p := PointersOf(s).value;
      PointersSound(p, activated) && PointerKept(s, p.active, lost) && PointerKept(s, p.previous, lost)
  }

  lemma SafeTells(s: Snapshot, activated: set<CText>, lost: set<string>)
    requires SafeIn(s, activated, lost)
    ensures PointersOf(s).Some?
    ensures var previous := PointersOf(s).value.previous;
      && (previous == "" || previous in lost || previous in s.dirs)
      && (previous == "" ==> !exists x, y :: x in activated && y in activated && x != y)
  {
  }

  lemma SafeAfterActivate(s: Snapshot, s': Snapshot, activated: set<CText>, lost: set<string>, id: CText)
    requires SafeIn(s, activated, lost) && ValidId(id) && id in s.dirs && s'.dirs == s.dirs
    requires PointersOf(s') == Some(AfterActivate(PointersOf(s).value, id))
    ensures SafeIn(s', activated + {id}, lost)
  {
    ActivateKeepsPointersSound(PointersOf(s).value, activated, id);
  }

  lemma SafeAfterRollback(s: Snapshot, s': Snapshot, activated: set<CText>, lost: set<string>)
    requires SafeIn(s, activated, lost) && PointersOf(s).value.previous != "" && s'.dirs == s.dirs
    requires PointersOf(s') == Some(AfterRollback(PointersOf(s).value))
    ensures SafeIn(s', activated, lost)
  {
    RollbackKeepsPointersSound(PointersOf(s).value, activated);
  }

  ghost predicate PointerKept(s: Snapshot, id: CText, lost: set<string>) {
    id == "" || id in lost || id in s.dirs
  }

  /** Installing a release endangers no pointer, unless both renames of the swap failed. */
  lemma SafeAfterSwap(s: Snapshot, s': Snapshot, id: string, tree: Tree, activated: set<CText>, lost: set<string>)
    requires SafeIn(s, activated, lost) && Swap(s, s', id, tree)
    ensures SafeIn(s', activated, if id in s.dirs && id !in s'.dirs then lost + {id} else lost)
  {
    var p := PointersOf(s).value;
    assert p.active in Releases(s, {id}) <==> p.active in Releases(s', {id});
    assert p.previous in Releases(s, {id}) <==> p.previous in Releases(s', {id});
  }

  /** Activating `id` from empty pointers instead of the true ones loses something. */
  predicate Forgets(s: Snapshot, id: CText) {
    PointersOf(s).None? || (PointersOf(s).value.active != "" && PointersOf(s).value != Pointers(id, ""))
  }

  lemma NothingForgotten(s: Snapshot, p: Pointers, id: CText)
    requires PointersOf(s) == Some(p) || (p == Pointers("", "") && !Forgets(s, id))
    ensures PointersOf(s).Some? && PointersOf(s).value.active == "" ==>
      PointersOf(s) == Some(p) || p == Pointers("", "")
    ensures PointersOf(s).Some? && (PointersOf(s).value.active == "" ==> PointersOf(s).value.previous == "") ==>
      AfterActivate(p, id) == AfterActivate(PointersOf(s).value, id)
  {
  }

  /** A release that a pointer names is gone, or lost files. */
  ghost predicate Loses(s: Snapshot, s': Snapshot) {
    && PointersOf(s).Some?
    && exists n :: n in s.dirs && Pointed(PointersOf(s).value, n) && !(n in s'.dirs && s'.dirs[n] == s.dirs[n])
  }

  lemma NothingLost(s: Snapshot)
    ensures !Loses(s, s)
  {
  }

  lemma RightPrune(s: Snapshot, s': Snapshot, p: Pointers)
    requires Pruned(s, s', p)
    ensures Loses(s, s') ==> PointersOf(s) != Some(p)
  {
  }

  /** Whatever pointers a prune went by: it keeps them safe unless it takes from a release they name. */
  lemma SafeUnlessLost(s: Snapshot, s': Snapshot, p: Pointers, activated: set<CText>, lost: set<string>)
    requires SafeIn(s, activated, lost) && Pruned(s, s', p)
    ensures !Loses(s, s') ==> SafeIn(s', activated, lost)
  {
    var q := PointersOf(s).value;
    if !Loses(s, s') {
      assert q.active in s.dirs ==> Pointed(q, q.active);
      assert q.previous in s.dirs ==> Pointed(q, q.previous);
    }
  }

  /** Only the staging directory differs, so the release is untouched. */
  lemma SwapFromStaged(s0: Snapshot, s1: Snapshot, s: Snapshot, id: string, tree: Tree)
    requires OnlyDirectory(s0, s1, StagingName(id)) && ValidId(id) && Swap(s1, s, id, tree)
    ensures Swap(s0, s, id, tree)
    ensures Untouched(s1, s, id) ==> Untouched(s0, s, id)
  {
    OnlyDirectoryKeepsReleases(s0, s1, StagingName(id), {id});
    OtherDirectory(s0, s1, StagingName(id), id);
  }

  lemma StagedIsSwap(s0: Snapshot, s: Snapshot, id: string, tree: Tree)
    requires OnlyDirectory(s0, s, StagingName(id)) && ValidId(id)
    ensures Swap(s0, s, id, tree) && Untouched(s0, s, id)
  {
    OnlyDirectoryKeepsReleases(s0, s, StagingName(id), {id});
    OtherDirectory(s0, s, StagingName(id), id);
  }

  // ---------------------------------------------------------------- the installer

  /** A tree that can be copied: it is not empty, and no path in it climbs. */
  predicate Copyable(tree: Tree) {
    tree != map[] && forall p | p in tree :: ".." !in Split(p)
  }

  class ReleaseInstaller {
    const disk: Disk
    const serviceRoot: string
    const keepPrevious: int
    /** Every release that was ever made active. */
    ghost var activated: set<CText>
    /** How often activate or prune went by empty pointers, because `state.json` was misread, and harmed
        what the pointers say. */
    ghost var misled: nat

    constructor (disk: Disk, serviceRoot: string, keepPrevious: int)
      ensures this.disk == disk && this.serviceRoot == serviceRoot && this.keepPrevious == keepPrevious
      ensures activated == {} && misled == 0
    {
      this.disk := disk;
      this.serviceRoot := serviceRoot;
      this.keepPrevious := keepPrevious;
      activated, misled := {}, 0;
    }

    /** The pointers are names of releases; they name distinct releases that were activated, and both
        are installed, unless a release was lost in a swap whose two renames both failed. */
    ghost predicate Safe(lost: set<string>)
      reads this`activated, this`misled, disk`view
    {
      Proper(disk.view) && (misled == 0 ==> SafeIn(disk.view, activated, lost))
    }

    // -------------------------------------------------------------- install

    /** Puts the files of a downloaded version into `releases/id`. At every moment the release is the
        old tree, the new tree or absent with the old tree set aside. The new tree is the source laid
        over whatever an earlier failed attempt left in the staging directory. */
    method Install(id: string, source: Option<Tree>) returns (r: Result<Unit, InstallError>, ghost tree: Tree)
      requires disk.Valid()
      modifies disk
      ensures disk.Valid() && old(disk.history) <= disk.history
      ensures ValidId(id) ==> SwapSince(old(disk.view), |old(disk.history)|, disk.history, id, tree)
      ensures ValidId(id) ==> Swap(old(disk.view), disk.view, id, tree)
      ensures !ValidId(id) ==> r.Err? && disk.view == old(disk.view) && disk.history == old(disk.history)
      ensures r.Ok? ==> source.Some? && id in disk.view.dirs && disk.view.dirs[id] == tree
      ensures r.Err? && !r.error.Stranded? ==> Untouched(old(disk.view), disk.view, id)
      ensures r.Err? && r.error.Stranded? ==> id in old(disk.view).dirs && id !in disk.view.dirs
      ensures source.None? ==> tree == map[]
      ensures source.Some? ==>
        Leftover(old(disk.view), tree, StagingName(id), source.value, disk.stagingFaults > old(disk.stagingFaults))
      ensures disk.failedRemovals >= old(disk.failedRemovals) && disk.queryFaults >= old(disk.queryFaults)
      ensures disk.stagingFaults >= old(disk.stagingFaults) && disk.stateFaults == old(disk.stateFaults)
      ensures disk.stagingFaults == old(disk.stagingFaults) && NoStaging(old(disk.view)) ==> NoStaging(disk.view)
      ensures r.Ok? && disk.failedRemovals == old(disk.failedRemovals) && disk.listFaults == old(disk.listFaults) ==>
        NoRetired(disk.view)
      ensures disk.ioFaults >= old(disk.ioFaults)
      ensures r.Ok? ==> serviceRoot != "" && ValidId(id) && source.Some? && Copyable(source.value)
      ensures r.Err? && disk.ioFaults == old(disk.ioFaults) && disk.queryFaults == old(disk.queryFaults) ==>
        serviceRoot == "" || !ValidId(id) || source.None? || !Copyable(source.value)
    {
      hide Swap, ReleasesKept, Leftover, OnlyDirectory, NoRetired, RemovedPartly;
      ghost var s0, n0 := disk.view, |disk.history|;
      tree := if source.Some? then source.value else map[];
      if source.Some? { NothingLeft(s0, StagingName(id), source.value, false); }
      if ValidId(id) { StagedIsSwap(s0, s0, id, tree); }
      UntouchedSelf(s0, id);
      if serviceRoot == "" {
        return Err(RootMissing), tree;
      }
      var valid := InstallerReleaseId(id);
      if valid.Err? {
        return Err(BadReleaseId(valid.error)), tree;
      }
      var missing: bool := *;
      if source.None? || missing {
        if source.Some? { disk.Fail(); }
        return Err(NotDownloaded), tree;
      }
      r, tree := InstallTree(id, source.value);
    }

    /** From staging to publication, and the clean-up after a failure. */
    method InstallTree(id: string, source: Tree) returns (r: Result<Unit, InstallError>, ghost tree: Tree)
      requires disk.Valid() && ValidId(id)
      modifies disk
      ensures disk.Valid() && old(disk.history) <= disk.history
      ensures SwapSince(old(disk.view), |old(disk.history)|, disk.history, id, tree)
      ensures Swap(old(disk.view), disk.view, id, tree)
      ensures r.Ok? ==> id in disk.view.dirs && disk.view.dirs[id] == tree
      ensures r.Err? && !r.error.Stranded? ==> Untouched(old(disk.view), disk.view, id)
      ensures r.Err? && r.error.Stranded? ==> id in old(disk.view).dirs && id !in disk.view.dirs
      ensures Leftover(old(disk.view), tree, StagingName(id), source, disk.stagingFaults > old(disk.stagingFaults))
      ensures disk.failedRemovals >= old(disk.failedRemovals) && disk.queryFaults >= old(disk.queryFaults)
      ensures disk.stagingFaults >= old(disk.stagingFaults) && disk.stateFaults == old(disk.stateFaults)
      ensures disk.stagingFaults == old(disk.stagingFaults) && NoStaging(old(disk.view)) ==> NoStaging(disk.view)
      ensures r.Ok? && disk.failedRemovals == old(disk.failedRemovals) && disk.listFaults == old(disk.listFaults) ==>
        NoRetired(disk.view)
      ensures disk.ioFaults >= old(disk.ioFaults)
      ensures r.Ok? ==> Copyable(source)
      ensures r.Err? && disk.ioFaults == old(disk.ioFaults) && disk.queryFaults == old(disk.queryFaults) ==>
        !Copyable(source)
    {
      hide Swap, ReleasesKept, Leftover, OnlyDirectory, NoRetired, RemovedPartly;
      ghost var s0, n0 := disk.view, |disk.history|;
      var staging := StagingName(id);
      var staged;
      staged, tree := Stage(staging, source);
      StagedSinceIsSwap(s0, n0, disk.history, id, tree);
      StagedIsSwap(s0, disk.view, id, tree);
      ghost var faults := disk.stagingFaults;
      StagingOnlyFrom(s0, disk.view, id);
      if staged.Err? {
        Discard(id, s0, n0, tree);
        LeftoverStays(s0, tree, StagingName(id), source, faults > old(disk.stagingFaults),
          disk.stagingFaults > old(disk.stagingFaults));
        return Err(staged.error), tree;
      }
      ghost var s1, n1 := disk.view, |disk.history|;
      r := PublishStaging(id, tree);
      SwapSinceFromStaged(s0, s1, n0, n1, disk.history, id, tree);
      SwapFromStaged(s0, s1, disk.view, id, tree);
      if r.Err? {
        Discard(id, s0, n0, tree);
      }
      LeftoverStays(s0, tree, StagingName(id), source, faults > old(disk.stagingFaults),
          disk.stagingFaults > old(disk.stagingFaults));
    }

    /** Fills the staging directory with a copy of every source file. */
    method Stage(staging: string, source: Tree) returns (r: Result<Unit, InstallError>, ghost tree: Tree)
      requires disk.Valid()
      modifies disk
      ensures disk.Valid() && old(disk.history) <= disk.history
      ensures StagedSince(old(disk.view), |old(disk.history)|, disk.history, staging)
      ensures OnlyDirectory(old(disk.view), disk.view, staging)
      ensures r.Ok? ==> staging in disk.view.dirs && disk.view.dirs[staging] == tree
      ensures r.Err? ==> !r.error.Stranded?
      requires STAGING_PREFIX <= staging
      ensures Leftover(old(disk.view), tree, staging, source, disk.stagingFaults > old(disk.stagingFaults))
      ensures disk.failedRemovals >= old(disk.failedRemovals) && disk.stagingFaults >= old(disk.stagingFaults)
      ensures disk.queryFaults == old(disk.queryFaults) && disk.stateFaults == old(disk.stateFaults)
      ensures disk.listFaults == old(disk.listFaults)
      ensures disk.ioFaults >= old(disk.ioFaults)
      ensures r.Ok? ==> Copyable(source)
      ensures r.Err? && disk.ioFaults == old(disk.ioFaults) ==> !Copyable(source)
    {
      tree := source;
      NothingLeft(disk.view, staging, source, false);
      NothingLeft(disk.view, staging, source, true);
      var ignored := disk.RemoveAll(staging);
      var created := disk.CreateDirectory(staging);
      if !created {
        return Err(StagingFailed), tree;
      }
      ghost var residue := disk.view.dirs[staging];
      assert Residue(old(disk.view), residue, staging, disk.stagingFaults > old(disk.stagingFaults));
      tree := residue + source;
      r := CopyFiles(staging, source);
    }

    /** The copying loop. Copying nothing at all is a failure. */
    method CopyFiles(staging: string, source: Tree) returns (r: Result<Unit, InstallError>)
      requires disk.Valid() && staging in disk.view.dirs
      modifies disk`view, disk`history, disk`written, disk`ioFaults
      ensures disk.Valid() && old(disk.history) <= disk.history
      ensures StagedSince(old(disk.view), |old(disk.history)|, disk.history, staging)
      ensures OnlyDirectory(old(disk.view), disk.view, staging) && staging in disk.view.dirs
      ensures r.Ok? ==> disk.view.dirs[staging] == old(disk.view).dirs[staging] + source && source != map[]
      ensures r.Err? ==> !r.error.Stranded?
      ensures disk.ioFaults >= old(disk.ioFaults)
      ensures r.Ok? ==> Copyable(source)
      ensures r.Err? && disk.ioFaults == old(disk.ioFaults) ==> !Copyable(source)
    {
      var listed: bool := *;
      if !listed {
        disk.Fail();
        return Err(CopyFailed);
      }
      var copied := 0;
      var rest := source.Keys;
      ghost var done: set<string> := {};
      ghost var residue := disk.view.dirs[staging];
      assert residue == residue + Part(source, done);
      while rest != {}
        invariant disk.Valid() && old(disk.history) <= disk.history
        invariant done + rest == source.Keys && done !! rest && (copied > 0 <==> done != {}) && copied >= 0
        invariant staging in disk.view.dirs && disk.view.dirs[staging] == residue + Part(source, done)
        invariant OnlyDirectory(old(disk.view), disk.view, staging)
        invariant StagedSince(old(disk.view), |old(disk.history)|, disk.history, staging)
        invariant disk.ioFaults == old(disk.ioFaults)
        invariant forall p | p in done :: ".." !in Split(p)
        decreases rest
      {
        var path :| path in rest;
        var resolved: bool := *;
        if !resolved {
          disk.Fail();
          return Err(CopyFailed);
        }
        var climbs := HasParentReference(path);
        if climbs {
          return Err(CopyFailed);
        }
        var ok := disk.CopyFile(staging, path, source[path]);
        copied := copied + 1;
        var walked: bool := *;
        if !ok || !walked {
          if ok { disk.Fail(); }
          return Err(CopyFailed);
        }
        PartStep(residue, source, done, path);
        rest := rest - {path};
        done := done + {path};
      }
      if copied == 0 {
        return Err(EmptyRelease);
      }
      assert Part(source, done) == source;
      r := Ok(Unit.Unit);
    }

    /** Best effort: the staging directory is removed, or part of it stays. */
    method Discard(id: string, ghost s0: Snapshot, ghost n0: nat, ghost tree: Tree)
      requires disk.Valid() && ValidId(id) && n0 <= |disk.history|
      requires SwapSince(s0, n0, disk.history, id, tree) && Swap(s0, disk.view, id, tree)
      modifies disk
      ensures disk.Valid() && old(disk.history) <= disk.history
      ensures SwapSince(s0, n0, disk.history, id, tree) && Swap(s0, disk.view, id, tree)
      ensures Untouched(old(disk.view), disk.view, id)
      ensures disk.queryFaults == old(disk.queryFaults) && disk.stateFaults == old(disk.stateFaults)
      ensures disk.listFaults == old(disk.listFaults)
      ensures disk.failedRemovals >= old(disk.failedRemovals) && disk.stagingFaults >= old(disk.stagingFaults)
      ensures StagingOnly(old(disk.view), disk.view, id)
      ensures StagingName(id) in disk.view.dirs ==> disk.stagingFaults > old(disk.stagingFaults)
      ensures disk.ioFaults >= old(disk.ioFaults)
    {
      hide Swap, ReleasesKept;
      var ignored := disk.RemoveAll(StagingName(id));
      forall i | |old(disk.history)| <= i < |disk.history| ensures Swap(s0, disk.history[i], id, tree) {
        InternalIsSwap(s0, old(disk.view), disk.history[i], id, tree, StagingName(id));
      }
      InternalIsSwap(s0, old(disk.view), disk.view, id, tree, StagingName(id));
      StagingOnlyFrom(old(disk.view), disk.view, id);
    }

    /** Removes what earlier swaps left behind; failures are ignored. */
    method SweepRetired()
      requires disk.Valid()
      modifies disk
      ensures disk.Valid() && old(disk.history) <= disk.history
      ensures forall i | |old(disk.history)| <= i < |disk.history| :: Swept(old(disk.view), disk.history[i])
      ensures Swept(old(disk.view), disk.view)
      ensures disk.queryFaults == old(disk.queryFaults) && disk.failedRemovals >= old(disk.failedRemovals)
      ensures disk.listFaults >= old(disk.listFaults)
      ensures disk.stagingFaults == old(disk.stagingFaults) && disk.stateFaults == old(disk.stateFaults)
      ensures disk.failedRemovals == old(disk.failedRemovals) && disk.listFaults == old(disk.listFaults) ==>
        NoRetired(disk.view)
      ensures disk.ioFaults >= old(disk.ioFaults)
    {
      var names := disk.List();
      if names.None? {
        return;
      }
      NoneSwept(disk.view, names.value);
      for i := 0 to |names.value|
        invariant disk.Valid() && old(disk.history) <= disk.history
        invariant forall i | |old(disk.history)| <= i < |disk.history| :: Swept(old(disk.view), disk.history[i])
        invariant Swept(old(disk.view), disk.view)
        invariant disk.queryFaults == old(disk.queryFaults) && disk.listFaults == old(disk.listFaults)
        invariant disk.stagingFaults == old(disk.stagingFaults) && disk.stateFaults == old(disk.stateFaults)
        invariant disk.failedRemovals >= old(disk.failedRemovals) && disk.ioFaults >= old(disk.ioFaults)
        invariant disk.failedRemovals == old(disk.failedRemovals) ==> RetiredAmong(disk.view, names.value[i..])
      {
        hide Swept, RetiredAmong;
        var name := names.value[i];
        RetiredIsNotStaging(name);
        ghost var s, n := disk.view, |disk.history|;
        assert names.value[i..] == [name] + names.value[i+1..];
        RetiredNext(s, s, name, names.value[i+1..]);
        if RETIRED_PREFIX <= name {
          var ignored := disk.RemoveAll(name);
          forall i | n <= i < |disk.history| ensures Swept(old(disk.view), disk.history[i]) {
            SweptStep(old(disk.view), s, disk.history[i], name);
          }
          SweptStep(old(disk.view), s, disk.view, name);
          RetiredNext(s, disk.view, name, names.value[i+1..]);
        }
      }
    }

    /** Swaps the staged tree in, by two renames; the first failure of the second one is undone. */
    method PublishStaging(id: string, ghost tree: Tree) returns (r: Result<Unit, InstallError>)
      requires disk.Valid() && ValidId(id) && StagingName(id) in disk.view.dirs
      requires disk.view.dirs[StagingName(id)] == tree
      modifies disk
      ensures disk.Valid() && old(disk.history) <= disk.history
      ensures SwapSince(old(disk.view), |old(disk.history)|, disk.history, id, tree)
      ensures Swap(old(disk.view), disk.view, id, tree)
      ensures r.Ok? ==> id in disk.view.dirs && disk.view.dirs[id] == tree
      ensures r.Err? && !r.error.Stranded? ==> Untouched(old(disk.view), disk.view, id)
      ensures r.Err? && r.error.Stranded? ==> id in old(disk.view).dirs && id !in disk.view.dirs
      ensures disk.queryFaults >= old(disk.queryFaults) && disk.failedRemovals >= old(disk.failedRemovals)
      ensures disk.stagingFaults == old(disk.stagingFaults) && disk.stateFaults == old(disk.stateFaults)
      ensures StagingOnly(old(disk.view), disk.view, id) && (r.Ok? ==> StagingName(id) !in disk.view.dirs)
      ensures disk.listFaults >= old(disk.listFaults)
      ensures r.Ok? && disk.failedRemovals == old(disk.failedRemovals) && disk.listFaults == old(disk.listFaults) ==>
        NoRetired(disk.view)
      ensures disk.ioFaults >= old(disk.ioFaults)
      ensures r.Err? ==> disk.ioFaults > old(disk.ioFaults) || disk.queryFaults > old(disk.queryFaults)
    {
      hide Swap, Swept, Untouched, OnlyDirectory, ReleasesKept, StagingOnly, Renamed, NoRetired, OneRetired;
      ghost var s0, n0 := disk.view, |disk.history|;
      SweepRetired();
      SweptSinceIsSwap(s0, n0, disk.history, id, tree);
      SweptIsSwap(s0, disk.view, id, tree);
      SweptStaging(s0, disk.view, id);
      var replacing := disk.Exists(Directory(id));
      NoneIsOne(disk.view, id);
      if replacing {
        var aside := SetAside(id, s0, n0, tree);
        if !aside {
          return Err(PublishFailed);
        }
      }
      r := Swing(id, replacing, s0, n0, tree);
      if r.Err? {
        return;
      }
      ClearRetired(id, s0, n0, tree);
    }

    /** Renames the staged tree to the release; when that fails the old release is put back. */
    method Swing(id: string, replacing: bool, ghost s0: Snapshot, ghost n0: nat, ghost tree: Tree)
      returns (r: Result<Unit, InstallError>)
      requires disk.Valid() && ValidId(id) && n0 <= |disk.history|
      requires SwapSince(s0, n0, disk.history, id, tree) && Swap(s0, disk.view, id, tree)
      requires StagingOnly(s0, disk.view, id)
      requires StagingName(id) in disk.view.dirs && disk.view.dirs[StagingName(id)] == tree
      requires if replacing then id in s0.dirs && id !in disk.view.dirs else Untouched(s0, disk.view, id)
      modifies disk`view, disk`history, disk`written, disk`ioFaults
      ensures disk.Valid() && old(disk.history) <= disk.history
      ensures SwapSince(s0, n0, disk.history, id, tree) && Swap(s0, disk.view, id, tree)
      ensures StagingOnly(s0, disk.view, id)
      ensures r.Ok? ==>
        && id in disk.view.dirs && disk.view.dirs[id] == tree && StagingName(id) !in disk.view.dirs
        && (OneRetired(old(disk.view), id) ==> OneRetired(disk.view, id))
      ensures r.Err? && !r.error.Stranded? ==> Untouched(s0, disk.view, id)
      ensures r.Err? && r.error.Stranded? ==> id in s0.dirs && id !in disk.view.dirs
      ensures r.Err? ==> disk.ioFaults > old(disk.ioFaults) || (!replacing && id in old(disk.view).dirs)
      ensures disk.ioFaults >= old(disk.ioFaults)
    {
      hide Swap, Swept, Untouched, OnlyDirectory, ReleasesKept, StagingOnly, Renamed, NoRetired, OneRetired;
      ghost var s3 := disk.view;
      var published := disk.Rename(StagingName(id), id);
      if !published {
        var restored := true;
        if replacing {
          restored := disk.Rename(RetiredName(id), id);
          if restored {
            RestoreIsSwap(s0, s3, disk.view, id, tree);
            RenamedStaging(s3, disk.view, id, RetiredName(id), id);
            StagingOnlyTransitive(s0, s3, disk.view, id);
          }
        }
        return Err(if replacing && !restored then Stranded else PublishFailed);
      }
      PublishIsSwap(s0, s3, disk.view, id, tree);
      RenamedStaging(s3, disk.view, id, StagingName(id), id);
      OneRetiredRenamed(s3, disk.view, id, StagingName(id), id);
      StagingOnlyTransitive(s0, s3, disk.view, id);
      r := Ok(Unit.Unit);
    }

    /** Moves the release that is being replaced out of the way. */
    method SetAside(id: string, ghost s0: Snapshot, ghost n0: nat, ghost tree: Tree) returns (ok: bool)
      requires disk.Valid() && ValidId(id) && n0 <= |disk.history|
      requires Swept(s0, disk.view) && SwapSince(s0, n0, disk.history, id, tree)
      requires StagingName(id) in disk.view.dirs && disk.view.dirs[StagingName(id)] == tree
      modifies disk
      ensures disk.Valid() && old(disk.history) <= disk.history
      ensures SwapSince(s0, n0, disk.history, id, tree)
      ensures Swap(s0, disk.view, id, tree) && StagingOnly(s0, disk.view, id)
      ensures StagingName(id) in disk.view.dirs && disk.view.dirs[StagingName(id)] == tree
      ensures if ok then id in s0.dirs && id !in disk.view.dirs else Untouched(s0, disk.view, id)
      ensures disk.queryFaults == old(disk.queryFaults) && disk.failedRemovals >= old(disk.failedRemovals)
      ensures disk.listFaults == old(disk.listFaults)
      ensures disk.stagingFaults == old(disk.stagingFaults) && disk.stateFaults == old(disk.stateFaults)
      ensures OneRetired(old(disk.view), id) ==> OneRetired(disk.view, id)
      ensures disk.ioFaults >= old(disk.ioFaults)
      ensures !ok ==> disk.ioFaults > old(disk.ioFaults) || id !in old(disk.view).dirs
    {
      hide Swap, Swept, Untouched, OnlyDirectory, ReleasesKept, StagingOnly, Renamed, OneRetired;
      var retired := RetiredName(id);
      RetiredIsNotStaging(retired);
      ghost var s1, n1 := disk.view, |disk.history|;
      ok := disk.RemoveAll(retired);
      SweptSinceStep(s0, s1, n1, disk.history, retired);
      SweptSinceIsSwap(s0, n1, disk.history, id, tree);
      SweptStep(s0, s1, disk.view, retired);
      SweptIsSwap(s0, disk.view, id, tree);
      SweptStaging(s0, s1, id);
      SweptStaging(s0, disk.view, id);
      OneRetiredRemoved(s1, disk.view, id);
      if ok {
        ghost var s2 := disk.view;
        OtherDirectory(s1, s2, retired, id);
        ok := disk.Rename(id, retired);
        if ok {
          OneRetiredRenamed(s2, disk.view, id, id, retired);
          AsideIsSwap(s0, s2, disk.view, id, tree);
          RenamedStaging(s2, disk.view, id, id, retired);
          StagingOnlyTransitive(s0, s2, disk.view, id);
        }
      }
    }

    /** Removes the release that was replaced, or moves what is left of it to a name of its own. */
    method ClearRetired(id: string, ghost s0: Snapshot, ghost n0: nat, ghost tree: Tree)
      requires disk.Valid() && ValidId(id) && n0 <= |disk.history| && id in disk.view.dirs && disk.view.dirs[id] == tree
      requires SwapSince(s0, n0, disk.history, id, tree)
      requires Swap(s0, disk.view, id, tree) && StagingOnly(s0, disk.view, id)
      requires StagingName(id) !in disk.view.dirs
      modifies disk
      ensures disk.Valid() && old(disk.history) <= disk.history && id in disk.view.dirs && disk.view.dirs[id] == tree
      ensures SwapSince(s0, n0, disk.history, id, tree)
      ensures Swap(s0, disk.view, id, tree) && StagingOnly(s0, disk.view, id)
      ensures StagingName(id) !in disk.view.dirs
      ensures disk.queryFaults == old(disk.queryFaults) && disk.failedRemovals >= old(disk.failedRemovals)
      ensures disk.listFaults == old(disk.listFaults)
      ensures disk.stagingFaults == old(disk.stagingFaults) && disk.stateFaults == old(disk.stateFaults)
      ensures disk.failedRemovals == old(disk.failedRemovals) && OneRetired(old(disk.view), id) ==> NoRetired(disk.view)
      ensures disk.ioFaults >= old(disk.ioFaults)
      ensures RetiredName(id) in disk.view.dirs ==>
        || disk.ioFaults > old(disk.ioFaults) + 1
        || exists n :: n in old(disk.view).dirs && n != RetiredName(id) && RetiredName(id) <= n
    {
      hide Swap, Swept, OnlyDirectory, ReleasesKept, StagingOnly, Renamed, OneRetired, NoRetired;
      var retired := RetiredName(id);
      RetiredIsNotStaging(retired);
      ghost var s4, n4 := disk.view, |disk.history|;
      var cleaned := disk.RemoveAll(retired);
      RetiredSinceIsSwap(s0, s4, n4, disk.history, id, tree);
      InternalIsSwap(s0, s4, disk.view, id, tree, retired);
      RetiredStaging(s4, disk.view, id, retired);
      OneRetiredRemoved(s4, disk.view, id);
      StagingOnlyTransitive(s0, s4, disk.view, id);
      if !cleaned {
        var stamp: string := *;
        ghost var s5 := disk.view;
        var parked := retired + "." + stamp;
        assert |parked| > |retired|;
        var moved := disk.Rename(retired, parked);
        if parked in s5.dirs { OtherDirectory(s4, s5, retired, parked); }
        if moved {
          RenameInternalIsSwap(s0, s5, disk.view, id, tree, retired, parked);
          RenamedStaging(s5, disk.view, id, retired, parked);
          StagingOnlyTransitive(s0, s5, disk.view, id);
        }
      }
    }

    // -------------------------------------------------------------- activate and rollback

    method State() returns (r: Result<ActivationState, InstallError>)
      modifies disk`stateFaults, disk`ioFaults
      ensures disk.stateFaults >= old(disk.stateFaults)
      ensures r.Err? ==> r.error == StateUnreadable
      ensures r.Ok? ==>
        ReadAs(disk.view, Pointers(r.value.active, r.value.previous), disk.stateFaults > old(disk.stateFaults))
      ensures disk.ioFaults >= old(disk.ioFaults)
      ensures r.Err? ==> disk.ioFaults > old(disk.ioFaults) || PointersOf(disk.view).None?
    {
      var exists_ := disk.StateExists();
      if !exists_ {
        return Ok(NO_ACTIVATION);
      }
      var read := disk.ReadDocument(StateFile);
      if read.None? {
        return Err(StateUnreadable);
      }
      var state := ActivationOf(read.value);
      r := if state.Some? then Ok(state.value) else Err(StateUnreadable);
    }

    method WriteState(next: Pointers) returns (ok: bool)
      requires disk.Valid()
      modifies disk`view, disk`history, disk`ioFaults
      ensures disk.Valid() && old(disk.history) <= disk.history
      ensures forall i | |old(disk.history)| <= i < |disk.history| :: disk.history[i] == disk.view
      ensures disk.view.dirs == old(disk.view).dirs && disk.view.runtime == old(disk.view).runtime
      ensures ok ==> PointersOf(disk.view) == Some(next)
      ensures !ok ==> disk.view == old(disk.view) && disk.history == old(disk.history)
      ensures disk.ioFaults >= old(disk.ioFaults)
      ensures !ok ==> disk.ioFaults > old(disk.ioFaults)
    {
      ok := *;
      if ok {
        var stamp: string := *;
        var state := ActivationState(next.active, next.previous, CStr(stamp));
        StateRoundTrip(state);
        ok := disk.ReplaceDocument(StateFile, EncodeState(state));
      } else {
        disk.Fail();
      }
    }

    /** Makes a release active; the one it replaces becomes the previous one. */
    method Activate(id: CText, ghost lost: set<string>) returns (r: Result<Unit, InstallError>)
      requires disk.Valid() && Safe(lost)
      modifies this`activated, this`misled, disk
      ensures disk.Valid() && Safe(lost) && old(disk.history) <= disk.history
      ensures forall i | |old(disk.history)| <= i < |disk.history| :: disk.history[i] == disk.view
      ensures disk.view.dirs == old(disk.view).dirs && disk.view.runtime == old(disk.view).runtime
      ensures disk.queryFaults >= old(disk.queryFaults) && disk.stateFaults >= old(disk.stateFaults)
      ensures disk.failedRemovals == old(disk.failedRemovals) && disk.stagingFaults == old(disk.stagingFaults)
      ensures r.Err? ==> disk.view == old(disk.view) && disk.history == old(disk.history) && activated == old(activated)
      ensures r.Ok? ==> ValidId(id) && id in disk.view.dirs && activated == old(activated) + {id}
      ensures misled == old(misled) +
        if r.Ok? && disk.stateFaults > old(disk.stateFaults) && Forgets(old(disk.view), id) then 1 else 0
      ensures r.Ok? ==> PointersOf(disk.view).Some? && PointersOf(disk.view).value.active == id
      ensures r.Err? && r.error.BadReleaseId? <==> !ValidId(id)
      ensures r.Ok? && disk.stateFaults == old(disk.stateFaults) ==>
        && PointersOf(old(disk.view)).Some?
        && PointersOf(disk.view).value == AfterActivate(PointersOf(old(disk.view)).value, id)
      ensures disk.ioFaults >= old(disk.ioFaults)
      ensures r == Err(NotInstalled) && disk.queryFaults == old(disk.queryFaults) ==> id !in disk.view.dirs
      ensures r == Err(StateUnreadable) ==> disk.ioFaults > old(disk.ioFaults) || PointersOf(disk.view).None?
      ensures r == Err(StateNotWritten) ==> disk.ioFaults > old(disk.ioFaults)
      ensures r.Err? ==>
        r.error.BadReleaseId? || r.error in {NotInstalled, StateUnreadable, StateNotWritten}
    {
      hide PointersOf, SafeIn;
      var valid := InstallerReleaseId(id);
      if valid.Err? {
        return Err(BadReleaseId(valid.error));
      }
      var installed := disk.Exists(Directory(id));
      if !installed {
        return Err(NotInstalled);
      }
      var current := State();
      if current.Err? {
        return Err(current.error);
      }
      ghost var before := disk.view;
      var p := Pointers(current.value.active, current.value.previous);
      var written := WriteState(AfterActivate(p, id));
      if !written {
        return Err(StateNotWritten);
      }
      if disk.stateFaults > old(disk.stateFaults) && Forgets(before, id) {
        misled := misled + 1;
      }
      if misled == 0 {
        NothingForgotten(before, p, id);
        SafeAfterActivate(before, disk.view, activated, lost, id);
      }
      activated := activated + {id};
      r := Ok(Unit.Unit);
    }

    /** Swaps the two pointers. The previous release is missing only if the disk could not be asked or
        the release was lost. */
    method Rollback(ghost lost: set<string>) returns (r: Result<CText, InstallError>)
      requires disk.Valid() && Safe(lost)
      modifies disk
      ensures disk.Valid() && Safe(lost) && old(disk.history) <= disk.history
      ensures forall i | |old(disk.history)| <= i < |disk.history| :: disk.history[i] == disk.view
      ensures disk.view.dirs == old(disk.view).dirs && disk.view.runtime == old(disk.view).runtime
      ensures disk.queryFaults >= old(disk.queryFaults) && disk.stateFaults >= old(disk.stateFaults)
      ensures disk.failedRemovals == old(disk.failedRemovals) && disk.stagingFaults == old(disk.stagingFaults)
      ensures r.Err? ==> disk.view == old(disk.view) && disk.history == old(disk.history)
      ensures r.Ok? ==>
        && PointersOf(old(disk.view)).Some?
        && PointersOf(disk.view) == Some(AfterRollback(PointersOf(old(disk.view)).value))
        && r.value != "" && r.value == PointersOf(old(disk.view)).value.previous
      ensures r == Err(NotInstalled) && misled == 0 && disk.queryFaults == old(disk.queryFaults) ==>
        PointersOf(disk.view).Some? && PointersOf(disk.view).value.previous in lost
      ensures r == Err(NoPrevious) && misled == 0 && disk.stateFaults == old(disk.stateFaults) ==>
        !exists x, y :: x in activated && y in activated && x != y
      ensures disk.ioFaults >= old(disk.ioFaults)
      ensures r == Err(NotInstalled) ==>
        || disk.queryFaults > old(disk.queryFaults) || disk.stateFaults > old(disk.stateFaults)
        || (PointersOf(disk.view).Some? && PointersOf(disk.view).value.previous !in disk.view.dirs)
      ensures r == Err(NoPrevious) && disk.stateFaults == old(disk.stateFaults) ==>
        PointersOf(disk.view).Some? && PointersOf(disk.view).value.previous == ""
      ensures r == Err(StateUnreadable) ==> disk.ioFaults > old(disk.ioFaults) || PointersOf(disk.view).None?
      ensures r == Err(StateNotWritten) ==> disk.ioFaults > old(disk.ioFaults)
      ensures r.Err? ==> r.error in {NoPrevious, NotInstalled, StateUnreadable, StateNotWritten}
    {
      hide SafeIn, PointersOf;
      ghost var s := disk.view;
      if SafeIn(s, activated, lost) { SafeTells(s, activated, lost); }
      var current := State();
      if current.Err? {
        return Err(current.error);
      }
      if current.value.previous == "" {
        return Err(NoPrevious);
      }
      var target := current.value.previous;
      var installed := disk.Exists(Directory(target));
      if !installed {
        return Err(NotInstalled);
      }
      var p := Pointers(current.value.active, target);
      var written := WriteState(AfterRollback(p));
      if !written {
        return Err(StateNotWritten);
      }
      if misled == 0 {
        SafeAfterRollback(s, disk.view, activated, lost);
      }
      r := Ok(target);
    }

    // -------------------------------------------------------------- prune

    /** The installed releases, newest first by their write times; an unreadable time counts as 0. */
    method Installed() returns (r: Result<seq<string>, InstallError>, ghost listed: seq<Stamped>)
      modifies disk`queryFaults, disk`listFaults, disk`timeFaults, disk`ioFaults
      ensures disk.queryFaults >= old(disk.queryFaults) && disk.timeFaults >= old(disk.timeFaults)
      ensures disk.timeFaults == old(disk.timeFaults) ==> TimesRead(listed, disk.written)
      ensures r.Ok? ==>
        && r.value == Names(listed)
        && (Lists(disk.view, listed) || (listed == [] && disk.queryFaults > old(disk.queryFaults)))
      ensures disk.ioFaults >= old(disk.ioFaults)
      ensures r.Err? ==> disk.ioFaults > old(disk.ioFaults)
    {
      listed := [];
      var missing: bool := *;
      if missing {
        if disk.view.dirs != map[] { disk.queryFaults := disk.queryFaults + 1; }
        return Ok([]), listed;
      }
      var names := disk.List();
      if names.None? {
        return Err(ListFailed), listed;
      }
      var found: seq<Stamped> := [];
      hide Collected, TimesRead, Lists;
      NothingCollected(disk.written);
      assert names.value[..0] == [];
      for i := 0 to |names.value|
        invariant Collected(found, names.value[..i]) && disk.timeFaults >= old(disk.timeFaults)
        invariant disk.queryFaults == old(disk.queryFaults) && disk.ioFaults == old(disk.ioFaults)
        invariant disk.timeFaults == old(disk.timeFaults) ==> TimesRead(found, disk.written)
      {
        var name := names.value[i];
        assert names.value[..i+1] == names.value[..i] + [name];
        if !Internal(name) {
          var time := disk.ReadTime(name);
          CollectedNext(found, names.value[..i], Stamped(time, name), disk.written);
          found := found + [Stamped(time, name)];
        } else {
          InternalNext(found, names.value[..i], name);
        }
      }
      assert names.value[..|names.value|] == names.value;
      CollectedLists(disk.view, found, names.value);
      SortedTimes(found, disk.written);
      listed := Sort(found);
      r := Ok(Names(Sort(found)));
    }

    method RemoveVictim(name: string, ghost s0: Snapshot, ghost n0: nat, ghost p: Pointers,
        ghost listed: seq<Stamped>, ghost i: nat)
      returns (ok: bool)
      requires disk.Valid() && n0 <= |disk.history| && i < |listed| && name == listed[i].name && !Pointed(p, name)
      requires Pruned(s0, disk.view, p) && Lists(s0, listed)
      requires forall k | n0 <= k < |disk.history| :: Pruned(s0, disk.history[k], p)
      modifies disk
      ensures disk.Valid() && old(disk.history) <= disk.history
      ensures Pruned(s0, disk.view, p)
      ensures forall k | n0 <= k < |disk.history| :: Pruned(s0, disk.history[k], p)
      ensures ok ==> disk.view.dirs == old(disk.view).dirs - {name}
      ensures disk.queryFaults == old(disk.queryFaults) && disk.failedRemovals >= old(disk.failedRemovals)
      ensures disk.stagingFaults == old(disk.stagingFaults) && disk.stateFaults == old(disk.stateFaults)
      ensures disk.timeFaults == old(disk.timeFaults)
      ensures disk.ioFaults >= old(disk.ioFaults)
      ensures !ok ==> disk.ioFaults > old(disk.ioFaults)
    {
      ListedIsNotInternal(s0, listed, i);
      hide Pruned, Lists, OnlyDirectory;
      ghost var s := disk.view;
      ok := disk.RemoveAll(name);
      forall k | |old(disk.history)| <= k < |disk.history| ensures Pruned(s0, disk.history[k], p) {
        PrunedStep(s0, s, disk.history[k], p, name, listed, i);
      }
      PrunedStep(s0, s, disk.view, p, name, listed, i);
      if ok { WithoutDirectory(s, disk.view, name); }
    }

    /** Removes every release but the active one, the previous one and the newest `keepPrevious` others. */
    method Prune() returns (r: Result<nat, InstallError>, ghost p: Pointers, ghost listed: seq<Stamped>)
      requires disk.Valid()
      modifies this`misled, disk
      ensures disk.Valid() && old(disk.history) <= disk.history
      ensures disk.queryFaults >= old(disk.queryFaults) && disk.failedRemovals >= old(disk.failedRemovals)
      ensures disk.stateFaults >= old(disk.stateFaults) && disk.stagingFaults == old(disk.stagingFaults)
      ensures forall i | |old(disk.history)| <= i < |disk.history| :: Pruned(old(disk.view), disk.history[i], p)
      ensures Pruned(old(disk.view), disk.view, p)
      ensures r.Err? && (disk.view != old(disk.view) || r.error == RemoveFailed) ==>
        ReadAs(old(disk.view), p, disk.stateFaults > old(disk.stateFaults))
      ensures r.Ok? ==>
        && ReadAs(old(disk.view), p, disk.stateFaults > old(disk.stateFaults))
        && (Lists(old(disk.view), listed) || (listed == [] && disk.queryFaults > old(disk.queryFaults)))
        && disk.view.dirs == old(disk.view).dirs - Victims(listed, p, Max(keepPrevious, 0))
        && r.value == |Others(listed, p)| - Kept(listed, p, Max(keepPrevious, 0))
      ensures disk.timeFaults >= old(disk.timeFaults)
      ensures disk.timeFaults == old(disk.timeFaults) ==> TimesRead(listed, old(disk.written))
      ensures r.Ok? && disk.queryFaults == old(disk.queryFaults) && disk.timeFaults == old(disk.timeFaults) ==>
        NewestStay(old(disk.view), disk.view, p, old(disk.written))
      ensures misled == old(misled) + if Loses(old(disk.view), disk.view) then 1 else 0
      ensures disk.stateFaults == old(disk.stateFaults) ==> misled == old(misled)
      ensures disk.ioFaults >= old(disk.ioFaults)
      ensures r.Err? ==> disk.ioFaults > old(disk.ioFaults) || PointersOf(old(disk.view)).None?
    {
      hide Lists, Victims, Others, Kept, Pruned, Loses, NewestStay, PointersOf;
      ghost var s := disk.view;
      NothingLost(s);
      p, listed := Pointers("", ""), [];
      PrunedSelf(disk.view, p);
      var current := State();
      if current.Err? {
        return Err(current.error), p, listed;
      }
      var pointers := Pointers(current.value.active, current.value.previous);
      p := pointers;
      PrunedSelf(disk.view, p);
      var releases;
      releases, listed := Installed();
      if releases.Err? {
        return Err(releases.error), p, listed;
      }
      r := PruneListed(releases.value, pointers, if keepPrevious < 0 then 0 else keepPrevious, listed);
      if r.Ok? && Lists(s, listed) && TimesRead(listed, old(disk.written)) {
        NewestByDisk(s, disk.view, listed, p, Max(keepPrevious, 0), old(disk.written));
      }
      RightPrune(s, disk.view, p);
      if Loses(s, disk.view) { misled := misled + 1; }
    }

    /** The loop over the releases, newest first. */
    method PruneListed(names: seq<string>, p: Pointers, keep: nat,
        ghost listed: seq<Stamped>) returns (r: Result<nat, InstallError>)
      requires disk.Valid() && names == Names(listed) && (Lists(disk.view, listed) || listed == [])
      modifies disk
      ensures disk.Valid() && old(disk.history) <= disk.history
      ensures disk.queryFaults == old(disk.queryFaults) && disk.failedRemovals >= old(disk.failedRemovals)
      ensures disk.stateFaults == old(disk.stateFaults) && disk.stagingFaults == old(disk.stagingFaults)
      ensures disk.timeFaults == old(disk.timeFaults)
      ensures forall i | |old(disk.history)| <= i < |disk.history| :: Pruned(old(disk.view), disk.history[i], p)
      ensures Pruned(old(disk.view), disk.view, p)
      ensures r.Ok? ==> disk.view.dirs == old(disk.view).dirs - Victims(listed, p, keep)
      ensures r.Ok? ==> r.value == |Others(listed, p)| - Kept(listed, p, keep)
      ensures disk.ioFaults >= old(disk.ioFaults)
      ensures r.Err? ==> disk.ioFaults > old(disk.ioFaults)
    {
      hide Pruned, Victims, Lists, Others, Kept;
      var removed, retained := 0, 0;
      ghost var s0, n0 := disk.view, |disk.history|;
      PrunedSelf(s0, p);
      NoVictims(s0, p, keep);
      assert listed[..0] == [];
      for i := 0 to |names|
        invariant disk.Valid() && old(disk.history) <= disk.history
        invariant forall k | n0 <= k < |disk.history| :: Pruned(s0, disk.history[k], p)
        invariant Pruned(s0, disk.view, p)
        invariant disk.queryFaults == old(disk.queryFaults) && disk.failedRemovals >= old(disk.failedRemovals)
        invariant disk.stateFaults == old(disk.stateFaults) && disk.stagingFaults == old(disk.stagingFaults)
        invariant disk.timeFaults == old(disk.timeFaults) && disk.ioFaults >= old(disk.ioFaults)
        invariant retained == Kept(listed[..i], p, keep)
        invariant removed == |Others(listed[..i], p)| - retained
        invariant disk.view.dirs == s0.dirs - Victims(listed[..i], p, keep)
      {
        var name := names[i];
        PruneStep(listed, i, p, keep);
        if name == p.active || name == p.previous {
          continue;
        }
        if retained < keep {
          retained := retained + 1;
          continue;
        }
        var ok := RemoveVictim(name, s0, n0, p, listed, i);
        if !ok {
          return Err(RemoveFailed);
        }
        removed := removed + 1;
        OneVictimMore(s0, Victims(listed[..i], p, keep), name);
      }
      assert listed[..|listed|] == listed;
      r := Ok(removed);
    }
  }

  // ---------------------------------------------------------------- newest first

  /** A release and the write time read for it. */
  datatype Stamped = Stamped(time: int, name: string)

  function Names(found: seq<Stamped>): (r: seq<string>)
    ensures |r| == |found| && forall i | 0 <= i < |r| :: r[i] == found[i].name
  {
    seq(|found|, i requires 0 <= i < |found| => found[i].name)
  }

  predicate Newest(found: seq<Stamped>) {
    forall i, j | 0 <= i < j < |found| :: found[i].time >= found[j].time
  }

  function InsertNewest(e: Stamped, sorted: seq<Stamped>): (r: seq<Stamped>)
    ensures multiset(r) == multiset(sorted) + multiset{e}
  {
    if sorted == [] then [e]
    else if e.time >= sorted[0].time then [e] + sorted
    else
      assert sorted == [sorted[0]] + sorted[1..];
      [sorted[0]] + InsertNewest(e, sorted[1..])
  }

  lemma {:induction false} InsertKeepsNewest(e: Stamped, sorted: seq<Stamped>)
    requires Newest(sorted)
    ensures Newest(InsertNewest(e, sorted))
    decreases |sorted|
  {
    if sorted != [] && e.time < sorted[0].time {
      var rest := InsertNewest(e, sorted[1..]);
      InsertKeepsNewest(e, sorted[1..]);
      forall x | x in rest ensures sorted[0].time >= x.time {
        assert x in multiset(rest);
        assert x == e || x in multiset(sorted[1..]);
      }
    }
  }

  /** The library's sort; how it orders equal times is not used anywhere. */
  function Sort(found: seq<Stamped>): (r: seq<Stamped>)
    ensures multiset(r) == multiset(found)
  {
    if found == [] then []
    else
      assert found == [found[0]] + found[1..];
      InsertNewest(found[0], Sort(found[1..]))
  }

  lemma {:induction false} SortIsNewest(found: seq<Stamped>)
    ensures Newest(Sort(found))
    decreases |found|
  {
    if found != [] {
      SortIsNewest(found[1..]);
      InsertKeepsNewest(found[0], Sort(found[1..]));
    }
  }

  /** Newest first, and each name once. */
  predicate Ranked(found: seq<Stamped>) {
    forall i, j | 0 <= i < j < |found| :: found[i].time >= found[j].time && found[i].name != found[j].name
  }

  /** The installed releases, each once, newest first. */
  ghost predicate Lists(s: Snapshot, listed: seq<Stamped>) {
    && Ranked(listed)
    && forall n :: n in Names(listed) <==> n in s.dirs && !Internal(n)
  }

  /** The releases among the first names of the listing. */
  ghost predicate Collected(found: seq<Stamped>, names: seq<string>) {
    && Distinct(Names(found))
    && forall n :: n in Names(found) <==> n in names && !Internal(n)
  }

  lemma NothingCollected(written: map<string, int>)
    ensures Collected([], []) && TimesRead([], written)
  {
  }

  lemma CollectedNext(found: seq<Stamped>, names: seq<string>, entry: Stamped, written: map<string, int>)
    requires Collected(found, names) && entry.name !in names && !Internal(entry.name)
    ensures Collected(found + [entry], names + [entry.name])
    ensures TimesRead(found, written) && entry.time == TimeOf(written, entry.name) ==>
      TimesRead(found + [entry], written)
  {
    assert Names(found + [entry]) == Names(found) + [entry.name];
  }

  lemma InternalNext(found: seq<Stamped>, names: seq<string>, name: string)
    requires Collected(found, names) && Internal(name)
    ensures Collected(found, names + [name])
  {
  }

  lemma CollectedLists(s: Snapshot, found: seq<Stamped>, names: seq<string>)
    requires Collected(found, names) && forall n :: n in names <==> n in s.dirs
    ensures Lists(s, Sort(found))
  {
    SortedLists(found);
  }

  /** Every listed time is the write time on disk. */
  ghost predicate TimesRead(listed: seq<Stamped>, written: map<string, int>) {
    forall e | e in listed :: e.time == TimeOf(written, e.name)
  }

  lemma SortedTimes(found: seq<Stamped>, written: map<string, int>)
    ensures TimesRead(found, written) ==> TimesRead(Sort(found), written)
  {
    SortIsNewest(found);
    forall e | e in Sort(found) ensures e in found {
      assert e in multiset(Sort(found));
    }
  }

  /** What was pruned is no newer on disk than what was left, but for the releases the pointers name. */
  ghost predicate NewestStay(s: Snapshot, s': Snapshot, p: Pointers, written: map<string, int>) {
    forall n, m | n in s'.dirs && !Internal(n) && !Pointed(p, n) && m in s.dirs && !Internal(m) && m !in s'.dirs ::
      TimeOf(written, n) >= TimeOf(written, m)
  }

  lemma NewestByDisk(s: Snapshot, s': Snapshot, listed: seq<Stamped>, p: Pointers, keep: nat, written: map<string, int>)
    requires Lists(s, listed) && TimesRead(listed, written) && s'.dirs == s.dirs - Victims(listed, p, keep)
    ensures NewestStay(s, s', p, written)
  {
    hide Victims;
    forall n, m | n in s'.dirs && !Internal(n) && !Pointed(p, n) && m in s.dirs && !Internal(m) && m !in s'.dirs
      ensures TimeOf(written, n) >= TimeOf(written, m)
    {
      assert n in Names(listed) && m in Names(listed);
      var i :| 0 <= i < |listed| && listed[i].name == n;
      var j :| 0 <= j < |listed| && listed[j].name == m;
      assert listed[i] in listed && listed[j] in listed;
      SurvivorIsNewer(listed, p, keep, listed[i], listed[j]);
    }
  }

  lemma SortedLists(found: seq<Stamped>)
    requires Distinct(Names(found))
    ensures Ranked(Sort(found))
    ensures forall n :: n in Names(Sort(found)) <==> n in Names(found)
  {
    var sorted := Sort(found);
    SortIsNewest(found);
    forall n ensures n in Names(sorted) <==> n in Names(found) {
      if n in Names(sorted) {
        var i :| 0 <= i < |sorted| && sorted[i].name == n;
        assert sorted[i] in multiset(found);
      }
      if n in Names(found) {
        var i :| 0 <= i < |found| && found[i].name == n;
        assert found[i] in multiset(sorted);
      }
    }
    SortedDistinct(found, sorted);
    forall i, j | 0 <= i < j < |sorted| ensures sorted[i].name != sorted[j].name {
      assert Names(sorted)[i] != Names(sorted)[j];
    }
  }

  lemma SortedDistinct(found: seq<Stamped>, sorted: seq<Stamped>)
    requires multiset(sorted) == multiset(found) && Distinct(Names(found))
    ensures Distinct(Names(sorted))
  {
    forall i, j | 0 <= i < j < |sorted| ensures Names(sorted)[i] != Names(sorted)[j] {
      if sorted[i].name == sorted[j].name {
        assert sorted[i] in multiset(found) && sorted[j] in multiset(found);
        var k :| 0 <= k < |found| && found[k] == sorted[i];
        var l :| 0 <= l < |found| && found[l] == sorted[j];
        assert Names(found)[k] == Names(found)[l];
        assert sorted[i] == sorted[j];
        TwiceInSequence(sorted, i, j);
        OnceInSequence(found, k);
      }
    }
  }

  lemma TwiceInSequence(s: seq<Stamped>, i: nat, j: nat)
    requires i < j < |s| && s[i] == s[j]
    ensures multiset(s)[s[i]] >= 2
  {
    assert s == s[..i] + [s[i]] + s[i+1..j] + [s[j]] + s[j+1..];
  }

  lemma OnceInSequence(s: seq<Stamped>, k: nat)
    requires k < |s| && Distinct(Names(s))
    ensures multiset(s)[s[k]] == 1
  {
    assert s == s[..k] + [s[k]] + s[k+1..];
    assert s[k] !in s[..k] by {
      forall i | 0 <= i < k ensures s[i] != s[k] { assert Names(s)[i] != Names(s)[k]; }
    }
    assert s[k] !in s[k+1..] by {
      forall i | k < i < |s| ensures s[i] != s[k] { assert Names(s)[k] != Names(s)[i]; }
    }
  }

  // ---------------------------------------------------------------- what prune keeps

  predicate Pointed(p: Pointers, name: string) { name == p.active || name == p.previous }

  /** The releases that no pointer protects, in order. */
  function Others(listed: seq<Stamped>, p: Pointers): (r: seq<Stamped>) {
    if listed == [] then []
    else
      var last := listed[|listed|-1];
      Others(listed[..|listed|-1], p) + if Pointed(p, last.name) then [] else [last]
  }

  function Kept(listed: seq<Stamped>, p: Pointers, keep: nat): (r: nat)
    ensures r <= |Others(listed, p)|
  {
    Min(keep, |Others(listed, p)|)
  }

  function Victims(listed: seq<Stamped>, p: Pointers, keep: nat): (r: set<string>) {
    set e | e in Others(listed, p)[Kept(listed, p, keep)..] :: e.name
  }

  /** The disk has lost files of releases that no pointer protects, and nothing else. */
  ghost predicate Pruned(s: Snapshot, s': Snapshot, p: Pointers) {
    && s'.state == s.state && s'.runtime == s.runtime
    && (forall n | n in s'.dirs :: n in s.dirs && SubTree(s'.dirs[n], s.dirs[n]))
    && (forall n | n in s.dirs && (Internal(n) || Pointed(p, n)) :: n in s'.dirs && s'.dirs[n] == s.dirs[n])
  }

  lemma WithoutDirectory(s: Snapshot, s': Snapshot, name: string)
    requires OnlyDirectory(s, s', name) && name !in s'.dirs
    ensures s'.dirs == s.dirs - {name}
  {
    assert s'.dirs - {name} == s'.dirs;
  }

  lemma {:induction false} OthersMember(listed: seq<Stamped>, p: Pointers, e: Stamped)
    ensures e in Others(listed, p) <==> e in listed && !Pointed(p, e.name)
    decreases |listed|
  {
    if listed != [] {
      assert listed == listed[..|listed|-1] + [listed[|listed|-1]];
      OthersMember(listed[..|listed|-1], p, e);
    }
  }

  lemma {:induction false} OthersRanked(listed: seq<Stamped>, p: Pointers)
    requires Ranked(listed)
    ensures Ranked(Others(listed, p))
    decreases |listed|
  {
    if listed != [] {
      var init, last := listed[..|listed|-1], listed[|listed|-1];
      OthersRanked(init, p);
      forall i | 0 <= i < |Others(init, p)|
        ensures Others(init, p)[i].time >= last.time && Others(init, p)[i].name != last.name
      {
        OthersMember(init, p, Others(init, p)[i]);
      }
    }
  }

  function NameSet(found: seq<Stamped>): (r: set<string>) {
    set e | e in found :: e.name
  }

  lemma {:induction false} NameSetSize(found: seq<Stamped>)
    requires Ranked(found)
    ensures |NameSet(found)| == |found|
    decreases |found|
  {
    if found != [] {
      var init, last := found[..|found|-1], found[|found|-1];
      assert found == init + [last];
      NameSetSize(init);
      assert NameSet(found) == NameSet(init) + {last.name};
    }
  }

  /** The releases that are still there after a prune. */
  function Survivors(s: Snapshot, listed: seq<Stamped>, p: Pointers, keep: nat): (r: set<string>) {
    set n | n in s.dirs && !Internal(n) && n !in Victims(listed, p, keep)
  }

  /** Prune removes exactly |others| - min(keep, |others|) releases, no pointed one among them; every
      unprotected survivor is at least as new as every victim; at most keep + 2 releases remain. */
  lemma PruneKeepsTheNewest(s: Snapshot, listed: seq<Stamped>, p: Pointers, keep: nat)
    requires Lists(s, listed)
    ensures var victims, left := Victims(listed, p, keep), Survivors(s, listed, p, keep);
      && |victims| == |Others(listed, p)| - Kept(listed, p, keep)
      && victims <= Releases(s, {}).Keys
      && p.active !in victims && p.previous !in victims
      && |left - {p.active, p.previous}| == Kept(listed, p, keep)
      && |left| <= keep + 2
      && (forall e, f | e in listed && f in listed && e.name in left - {p.active, p.previous} && f.name in victims ::
            e.time >= f.time)
  {
    assert Ranked(listed);
    VictimNames(listed, p, keep);
    SurvivorNames(s, listed, p, keep);
    var left := Survivors(s, listed, p, keep);
    AtMostTwoMore(left, p.active, p.previous);
    assert forall n | n in left :: n !in Victims(listed, p, keep);
    hide Lists, Others, Survivors, Victims, NameSet, Ranked;
    forall n | n in Victims(listed, p, keep) ensures n in s.dirs && !Internal(n) && !Pointed(p, n) {
      VictimIsListed(s, listed, p, keep, n);
    }
    forall e, f |
      e in listed && f in listed && e.name in left - {p.active, p.previous} && f.name in Victims(listed, p, keep)
      ensures e.time >= f.time
    {
      SurvivorIsNewer(listed, p, keep, e, f);
    }
  }

  lemma VictimNames(listed: seq<Stamped>, p: Pointers, keep: nat)
    requires Ranked(listed)
    ensures |Victims(listed, p, keep)| == |Others(listed, p)| - Kept(listed, p, keep)
    ensures |NameSet(Others(listed, p)[..Kept(listed, p, keep)])| == Kept(listed, p, keep)
  {
    OthersRanked(listed, p);
    var others, m := Others(listed, p), Kept(listed, p, keep);
    NameSetSize(others[..m]);
    NameSetSize(others[m..]);
    assert Victims(listed, p, keep) == NameSet(others[m..]);
  }

  lemma SurvivorIsNewer(listed: seq<Stamped>, p: Pointers, keep: nat, e: Stamped, f: Stamped)
    requires Ranked(listed) && e in listed && f in listed
    requires e.name !in Victims(listed, p, keep) && !Pointed(p, e.name) && f.name in Victims(listed, p, keep)
    ensures e.time >= f.time
  {
    OthersRanked(listed, p);
    var others, m := Others(listed, p), Kept(listed, p, keep);
    OthersMember(listed, p, e);
    var i :| 0 <= i < |others| && others[i] == e;
    assert forall k | m <= k < |others| :: others[k] in others[m..];
    var v :| v in others[m..] && v.name == f.name;
    var j :| m <= j < |others| && others[j] == v;
    OthersMember(listed, p, v);
    SameNameSame(listed, v, f);
  }

  lemma SameNameSame(listed: seq<Stamped>, v: Stamped, f: Stamped)
    requires Ranked(listed) && v in listed && f in listed && v.name == f.name
    ensures v == f
  {
  }

  lemma VictimIsListed(s: Snapshot, listed: seq<Stamped>, p: Pointers, keep: nat, n: string)
    requires Lists(s, listed) && n in Victims(listed, p, keep)
    ensures n in s.dirs && !Internal(n) && !Pointed(p, n)
  {
    var e :| e in Others(listed, p)[Kept(listed, p, keep)..] && e.name == n;
    OthersMember(listed, p, e);
    var i :| 0 <= i < |listed| && listed[i] == e;
    assert Names(listed)[i] == n;
  }

  lemma FrontSurvives(s: Snapshot, listed: seq<Stamped>, p: Pointers, keep: nat, n: string)
    requires Lists(s, listed) && n in NameSet(Others(listed, p)[..Kept(listed, p, keep)])
    ensures n in Survivors(s, listed, p, keep) && !Pointed(p, n)
  {
    OthersRanked(listed, p);
    var others, m := Others(listed, p), Kept(listed, p, keep);
    var i :| 0 <= i < m && others[i].name == n;
    OthersMember(listed, p, others[i]);
    var k :| 0 <= k < |listed| && listed[k] == others[i];
    assert Names(listed)[k] == n;
    forall f | f in others[m..] ensures f.name != n {
      var j :| m <= j < |others| && others[j] == f;
    }
  }

  lemma SurvivorIsFront(s: Snapshot, listed: seq<Stamped>, p: Pointers, keep: nat, n: string)
    requires Lists(s, listed) && n in Survivors(s, listed, p, keep) && !Pointed(p, n)
    ensures n in NameSet(Others(listed, p)[..Kept(listed, p, keep)])
  {
    var others, m := Others(listed, p), Kept(listed, p, keep);
    assert n in Names(listed);
    var k :| 0 <= k < |listed| && Names(listed)[k] == n;
    OthersMember(listed, p, listed[k]);
    assert others == others[..m] + others[m..];
    assert listed[k] !in others[m..];
  }

  /** The unprotected survivors are the first ones of the list. */
  lemma SurvivorNames(s: Snapshot, listed: seq<Stamped>, p: Pointers, keep: nat)
    requires Lists(s, listed)
    ensures Survivors(s, listed, p, keep) - {p.active, p.previous} ==
      NameSet(Others(listed, p)[..Kept(listed, p, keep)])
  {
    hide Lists, Others, Kept, Survivors, NameSet;
    forall n | n in NameSet(Others(listed, p)[..Kept(listed, p, keep)])
      ensures n in Survivors(s, listed, p, keep) && !Pointed(p, n)
    {
      FrontSurvives(s, listed, p, keep, n);
    }
    forall n | n in Survivors(s, listed, p, keep) && !Pointed(p, n)
      ensures n in NameSet(Others(listed, p)[..Kept(listed, p, keep)])
    {
      SurvivorIsFront(s, listed, p, keep, n);
    }
  }

  lemma AtMostTwoMore(s: set<string>, a: string, b: string)
    ensures |s| <= |s - {a, b}| + 2
  {
    var t := s - {a};
    assert |s| <= |t| + 1;
    assert t - {b} == s - {a, b};
    assert |t| <= |t - {b}| + 1;
  }

  lemma ListedIsNotInternal(s: Snapshot, listed: seq<Stamped>, i: nat)
    requires Lists(s, listed) && i < |listed|
    ensures !Internal(listed[i].name)
  {
    assert Names(listed)[i] == listed[i].name;
  }

  lemma RetiredIsNotStaging(name: string)
    ensures RETIRED_PREFIX <= name ==> !(STAGING_PREFIX <= name)
  {
    if RETIRED_PREFIX <= name { assert name[1] == 'r'; }
  }

  // ---------------------------------------------------------------- a misread state.json

  lemma {:induction false} NobodyPointed(listed: seq<Stamped>)
    requires forall i | 0 <= i < |listed| :: listed[i].name != ""
    ensures Others(listed, Pointers("", "")) == listed
    decreases |listed|
  {
    if listed != [] {
      NobodyPointed(listed[..|listed|-1]);
      assert listed == listed[..|listed|-1] + [listed[|listed|-1]];
    }
  }

  /** When the question for `state.json` fails, prune sees no pointers at all: it removes the active
      release if and only if it is not among the newest `keep`. */
  lemma MisreadPruneRemoves(listed: seq<Stamped>, active: string, keep: nat)
    requires forall i | 0 <= i < |listed| :: listed[i].name != ""
    ensures active in Victims(listed, Pointers("", ""), keep) <==>
      exists i :: keep <= i < |listed| && listed[i].name == active
  {
    NobodyPointed(listed);
    var m := Min(keep, |listed|);
    assert Victims(listed, Pointers("", ""), keep) == NameSet(listed[m..]);
    NamedBehind(listed, active, m);
  }

  lemma NamedBehind(listed: seq<Stamped>, name: string, m: nat)
    requires m <= |listed|
    ensures name in NameSet(listed[m..]) <==> exists i :: m <= i < |listed| && listed[i].name == name
  {
    var back := listed[m..];
    assert forall i | m <= i < |listed| :: listed[i] == back[i - m] && back[i - m] in back;
    if name in NameSet(back) {
      var e :| e in back && e.name == name;
      var k :| 0 <= k < |back| && back[k] == e;
      assert listed[m + k].name == name;
    }
  }

  /** And activate forgets the release that was active: unless there was none, or it is activated
      again, the pointers no longer account for what was activated. */
  lemma MisreadActivateForgets(p: Pointers, activated: set<CText>, id: CText)
    requires PointersSound(p, activated) && ValidId(id)
    ensures PointersSound(AfterActivate(Pointers("", ""), id), activated + {id}) <==>
      p.active == "" || (p.active == id && p.previous == "")
  {
    var q, all := AfterActivate(Pointers("", ""), id), activated + {id};
    assert q == Pointers(id, "");
    if p.active != "" && p.active != id {
      assert p.active in all && id in all;
    }
    if p.previous != "" && p.active == id {
      assert p.previous in all && p.active in all;
    }
  }

  lemma NoVictims(s: Snapshot, p: Pointers, keep: nat)
    ensures Others([], p) == [] && Kept([], p, keep) == 0 && s.dirs == s.dirs - Victims([], p, keep)
  {
  }

  lemma OneVictimMore(s: Snapshot, victims: set<string>, name: string)
    ensures s.dirs - victims - {name} == s.dirs - (victims + {name})
  {
  }

  lemma PrunedSelf(s: Snapshot, p: Pointers)
    ensures Pruned(s, s, p)
  {
  }

  lemma PrunedStep(s0: Snapshot, s: Snapshot, s': Snapshot, p: Pointers, name: string, listed: seq<Stamped>, i: nat)
    requires Pruned(s0, s, p) && RemovedPartly(s, s', name) && i < |listed| && name == listed[i].name
    requires Lists(s0, listed) && !Pointed(p, name)
    ensures Pruned(s0, s', p)
  {
    assert name in Names(listed);
    forall n | n != name
      ensures n in s'.dirs <==> n in s.dirs
      ensures n in s.dirs ==> s'.dirs[n] == s.dirs[n]
    {
      OtherDirectory(s, s', name, n);
    }
  }

  lemma PruneStep(listed: seq<Stamped>, i: nat, p: Pointers, keep: nat)
    requires i < |listed|
    ensures var a, b := listed[..i], listed[..i+1];
      && Others(b, p) == Others(a, p) + (if Pointed(p, listed[i].name) then [] else [listed[i]])
      && Kept(b, p, keep) ==
        Kept(a, p, keep) + (if !Pointed(p, listed[i].name) && Kept(a, p, keep) < keep then 1 else 0)
      && Victims(b, p, keep) ==
        Victims(a, p, keep) + (if !Pointed(p, listed[i].name) && Kept(a, p, keep) >= keep then {listed[i].name} else {})
  {
    var a, b := listed[..i], listed[..i+1];
    assert b[..|b|-1] == a;
    var k := Kept(a, p, keep);
    if !Pointed(p, listed[i].name) {
      if k < keep {
        assert Others(b, p)[Kept(b, p, keep)..] == [];
        assert Others(a, p)[k..] == [];
      } else {
        assert Others(b, p)[k..] == Others(a, p)[k..] + [listed[i]];
      }
    } else {
      assert Others(b, p) == Others(a, p);
    }
  }

  /** The pointers as `state()` reads them: those on disk, or none when looking for the file failed. */
  ghost predicate ReadAs(s: Snapshot, p: Pointers, faulty: bool) {
    PointersOf(s) == Some(p) || (faulty && p == Pointers("", ""))
  }

  /** The part of a tree already copied. */
  function Part(tree: Tree, paths: set<string>): (r: Tree) {
    map p | p in tree && p in paths :: tree[p]
  }

  lemma PartStep(residue: Tree, tree: Tree, paths: set<string>, path: string)
    requires path in tree
    ensures (residue + Part(tree, paths))[path := tree[path]] == residue + Part(tree, paths + {path})
  {
  }

  /** Nothing is set aside under a retired name. */
  ghost predicate NoRetired(s: Snapshot) {
    forall n | n in s.dirs :: !(RETIRED_PREFIX <= n)
  }

  /** Nothing but perhaps the release `id` is set aside. */
  ghost predicate OneRetired(s: Snapshot, id: string) {
    forall n | n in s.dirs && RETIRED_PREFIX <= n :: n == RetiredName(id)
  }

  ghost predicate RetiredAmong(s: Snapshot, names: seq<string>) {
    forall n | n in s.dirs && RETIRED_PREFIX <= n :: n in names
  }

  lemma NoneSwept(s: Snapshot, names: seq<string>)
    requires forall n :: n in names <==> n in s.dirs
    ensures RetiredAmong(s, names[0..])
    ensures forall s': Snapshot :: RetiredAmong(s', names[|names|..]) ==> NoRetired(s')
  {
    assert names[0..] == names && names[|names|..] == [];
  }

  lemma RetiredNext(s: Snapshot, s': Snapshot, name: string, rest: seq<string>)
    requires s' == s || RemovedPartly(s, s', name)
    ensures RetiredAmong(s, [name] + rest) && (!(RETIRED_PREFIX <= name) || name !in s'.dirs) ==> RetiredAmong(s', rest)
  {
    if s' != s {
      forall n | n in s'.dirs && n != name ensures n in s.dirs {
        OtherDirectory(s, s', name, n);
      }
    }
  }

  lemma NoneIsOne(s: Snapshot, id: string)
    ensures NoRetired(s) ==> OneRetired(s, id)
  {
  }

  lemma OneRetiredRemoved(s: Snapshot, s': Snapshot, id: string)
    requires RemovedPartly(s, s', RetiredName(id))
    ensures OneRetired(s, id) ==> OneRetired(s', id) && (RetiredName(id) !in s'.dirs ==> NoRetired(s'))
  {
    forall n | n in s'.dirs && n != RetiredName(id) ensures n in s.dirs {
      OtherDirectory(s, s', RetiredName(id), n);
    }
  }

  lemma OneRetiredRenamed(s: Snapshot, s': Snapshot, id: string, source: string, target: string)
    requires Renamed(s, s', source, target) && (target == RetiredName(id) || (target == id && ValidId(id)))
    ensures OneRetired(s, id) ==> OneRetired(s', id)
  {
  }

  ghost predicate NoStaging(s: Snapshot) {
    forall n | n in s.dirs :: !(STAGING_PREFIX <= n)
  }

  /** No other staging directory appears. */
  ghost predicate StagingOnly(s: Snapshot, s': Snapshot, id: string) {
    forall n | n in s'.dirs && STAGING_PREFIX <= n && n != StagingName(id) :: n in s.dirs
  }

  lemma StagingOnlyFrom(s: Snapshot, s': Snapshot, id: string)
    requires OnlyDirectory(s, s', StagingName(id))
    ensures StagingOnly(s, s', id)
  {
    forall n | n in s'.dirs && n != StagingName(id) ensures n in s.dirs {
      OtherDirectory(s, s', StagingName(id), n);
    }
  }

  ghost predicate StagedSince(s0: Snapshot, n: nat, history: seq<Snapshot>, staging: string) {
    forall i | n <= i < |history| :: OnlyDirectory(s0, history[i], staging)
  }

  /** Every state of the disk from the `n`-th on is a moment of the swap. */
  ghost predicate SwapSince(s0: Snapshot, n: nat, history: seq<Snapshot>, id: string, tree: Tree) {
    forall i | n <= i < |history| :: Swap(s0, history[i], id, tree)
  }

  lemma StagedSinceIsSwap(s0: Snapshot, n: nat, history: seq<Snapshot>, id: string, tree: Tree)
    requires StagedSince(s0, n, history, StagingName(id)) && ValidId(id)
    ensures SwapSince(s0, n, history, id, tree)
  {
    forall i | n <= i < |history| ensures Swap(s0, history[i], id, tree) {
      StagedIsSwap(s0, history[i], id, tree);
    }
  }

  lemma SwapSinceFromStaged(s0: Snapshot, s1: Snapshot, n0: nat, n1: nat, history: seq<Snapshot>, id: string,
      tree: Tree)
    requires OnlyDirectory(s0, s1, StagingName(id)) && ValidId(id) && n0 <= n1 <= |history|
    requires SwapSince(s0, n0, history[..n1], id, tree) && SwapSince(s1, n1, history, id, tree)
    ensures SwapSince(s0, n0, history, id, tree)
  {
    forall i | n0 <= i < |history| ensures Swap(s0, history[i], id, tree) {
      if i >= n1 {
        SwapFromStaged(s0, s1, history[i], id, tree);
      } else {
        assert history[..n1][i] == history[i];
      }
    }
  }

  lemma SweptSinceIsSwap(s0: Snapshot, n: nat, history: seq<Snapshot>, id: string, tree: Tree)
    requires ValidId(id) && forall i | n <= i < |history| :: Swept(s0, history[i])
    ensures SwapSince(s0, n, history, id, tree)
  {
    forall i | n <= i < |history| ensures Swap(s0, history[i], id, tree) {
      SweptIsSwap(s0, history[i], id, tree);
    }
  }

  lemma SweptSinceStep(s0: Snapshot, s: Snapshot, n: nat, history: seq<Snapshot>, name: string)
    requires Swept(s0, s) && RETIRED_PREFIX <= name
    requires forall i | n <= i < |history| :: RemovedPartly(s, history[i], name)
    ensures forall i | n <= i < |history| :: Swept(s0, history[i])
  {
    forall i | n <= i < |history| ensures Swept(s0, history[i]) {
      SweptStep(s0, s, history[i], name);
    }
  }

  lemma RetiredSinceIsSwap(s0: Snapshot, s: Snapshot, n: nat, history: seq<Snapshot>, id: string, tree: Tree)
    requires Swap(s0, s, id, tree) && ValidId(id) && id in s.dirs
    requires forall i | n <= i < |history| :: RemovedPartly(s, history[i], RetiredName(id))
    ensures SwapSince(s0, n, history, id, tree)
  {
    forall i | n <= i < |history| ensures Swap(s0, history[i], id, tree) {
      InternalIsSwap(s0, s, history[i], id, tree, RetiredName(id));
    }
  }

  /** What sweeping and renaming mean for the staging directories. */
  lemma SweptStaging(s: Snapshot, s': Snapshot, id: string)
    requires Swept(s, s')
    ensures StagingOnly(s, s', id)
    ensures StagingName(id) in s'.dirs <==> StagingName(id) in s.dirs
    ensures StagingName(id) in s.dirs ==> s'.dirs[StagingName(id)] == s.dirs[StagingName(id)]
  {
    UnretiredAt(s, s', StagingName(id));
    forall n | n in s'.dirs && STAGING_PREFIX <= n ensures n in s.dirs {
      assert n[1] == 's';
      UnretiredAt(s, s', n);
    }
  }

  lemma RetiredStaging(s: Snapshot, s': Snapshot, id: string, name: string)
    requires OnlyDirectory(s, s', name) && RETIRED_PREFIX <= name
    ensures StagingOnly(s, s', id)
    ensures StagingName(id) in s'.dirs <==> StagingName(id) in s.dirs
    ensures StagingName(id) in s.dirs ==> s'.dirs[StagingName(id)] == s.dirs[StagingName(id)]
  {
    SweptStep(s, s, s', name);
    SweptStaging(s, s', id);
  }

  lemma RenamedStaging(s: Snapshot, s': Snapshot, id: string, source: string, target: string)
    requires Renamed(s, s', source, target) && ValidId(id) && source != target
    requires target == id || RETIRED_PREFIX <= target
    ensures StagingOnly(s, s', id)
    ensures source == StagingName(id) ==> StagingName(id) !in s'.dirs
    ensures source != StagingName(id) ==> (StagingName(id) in s'.dirs <==> StagingName(id) in s.dirs)
    ensures source != StagingName(id) && StagingName(id) in s.dirs ==>
      s'.dirs[StagingName(id)] == s.dirs[StagingName(id)]
  {
    if RETIRED_PREFIX <= target { assert target[1] == 'r'; }
    assert StagingName(id)[1] == 's';
    assert target != StagingName(id);
  }

  lemma StagingOnlyTransitive(s0: Snapshot, s1: Snapshot, s2: Snapshot, id: string)
    requires StagingOnly(s0, s1, id) && StagingOnly(s1, s2, id)
    ensures StagingOnly(s0, s2, id)
  {
  }

  lemma UntouchedSelf(s: Snapshot, id: string)
    ensures Untouched(s, s, id)
  {
  }

  lemma NothingLeft(s0: Snapshot, staging: string, source: Tree, failed: bool)
    ensures Leftover(s0, source, staging, source, failed)
  {
    var residue: Tree := map[];
    assert source == residue + source;
  }

  lemma LeftoverStays(s0: Snapshot, tree: Tree, staging: string, source: Tree, failed: bool, failed': bool)
    requires Leftover(s0, tree, staging, source, failed) && (failed ==> failed')
    ensures Leftover(s0, tree, staging, source, failed')
  {
  }

  /** The published tree is the source over what was left in the staging directory; that is nothing
      unless there was such a directory and it could not be removed. */
  ghost predicate Leftover(s0: Snapshot, tree: Tree, staging: string, source: Tree, failed: bool) {
    exists residue: Tree :: tree == residue + source && Residue(s0, residue, staging, failed)
  }

  ghost predicate Residue(s0: Snapshot, residue: Tree, staging: string, failed: bool) {
    residue != map[] ==> failed && staging in s0.dirs && SubTree(residue, s0.dirs[staging])
  }
}
