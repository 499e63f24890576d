/** Which files on a device were checked: a file counts as checked when the digest of its content is one
    a download message listed for that release and path, or when a configuration update wrote it. */
module VerifiedFiles {
  import opened Prelude
  import opened ReleaseTree
  import opened Paths
  import opened ProcessTable
  import opened Storage
  import opened ReleaseInstaller
  import opened DeploymentEngine

  datatype Listing = Listing(release: string, path: string, sha256: string)

  datatype FileId = FileId(release: string, path: string)

  ghost predicate Checked(name: string, tree: Tree, digest: Content -> string, listings: set<Listing>,
      rewritten: set<FileId>) {
    forall p | p in tree :: Listing(name, p, digest(tree[p])) in listings || FileId(name, p) in rewritten
  }

  /** Every file of every downloaded version was checked. */
  ghost predicate VersionsChecked(s: Snapshot, digest: Content -> string, listings: set<Listing>) {
    forall n | n in s.dirs :: Checked(n, s.dirs[n], digest, listings, {})
  }

  /** Every file of every installed release was checked. */
  ghost predicate ReleasesChecked(s: Snapshot, digest: Content -> string, listings: set<Listing>,
      rewritten: set<FileId>) {
    forall n | n in s.dirs && !Internal(n) :: Checked(n, s.dirs[n], digest, listings, rewritten)
  }

  /** Every process that was ever launched ran checked files only. */
  ghost predicate LaunchesChecked(w: World, digest: Content -> string, listings: set<Listing>, rewritten: set<FileId>) {
    forall i | i in w.launched :: Checked(w.launched[i].release, w.launched[i].tree, digest, listings, rewritten)
  }

  lemma CheckedMore(name: string, tree: Tree, sub: Tree, digest: Content -> string, listings: set<Listing>,
      rewritten: set<FileId>, listings': set<Listing>, rewritten': set<FileId>)
    requires Checked(name, tree, digest, listings, rewritten) && SubTree(sub, tree)
    requires listings <= listings' && rewritten <= rewritten'
    ensures Checked(name, sub, digest, listings', rewritten')
  {
  }

  lemma VersionsCheckedMore(s: Snapshot, digest: Content -> string, listings: set<Listing>, listings': set<Listing>)
    requires VersionsChecked(s, digest, listings) && listings <= listings'
    ensures VersionsChecked(s, digest, listings')
  {
  }

  /** More listings and more rewritten files endanger nothing. */
  lemma ReleasesCheckedMore(s: Snapshot, digest: Content -> string, listings: set<Listing>, rewritten: set<FileId>,
      listings': set<Listing>, rewritten': set<FileId>)
    requires listings <= listings' && rewritten <= rewritten'
    ensures ReleasesChecked(s, digest, listings, rewritten) ==> ReleasesChecked(s, digest, listings', rewritten')
  {
  }

  lemma LaunchesCheckedMore(w: World, digest: Content -> string, listings: set<Listing>, rewritten: set<FileId>,
      listings': set<Listing>, rewritten': set<FileId>)
    requires listings <= listings' && rewritten <= rewritten'
    ensures LaunchesChecked(w, digest, listings, rewritten) ==> LaunchesChecked(w, digest, listings', rewritten')
  {
  }

  /** Applying a checked version keeps releases and launches checked. */
  lemma CheckedAfterApply(s0: Snapshot, s: Snapshot, w0: World, w: World, id: string, tree: Tree,
      digest: Content -> string, listings: set<Listing>, rewritten: set<FileId>)
    requires ReleasesChecked(s0, digest, listings, rewritten) && LaunchesChecked(w0, digest, listings, rewritten)
    requires Checked(id, tree, digest, listings, rewritten)
    requires Derived(s0, s, id, tree) && LaunchedBy(w0, w, s0, id, tree)
    ensures ReleasesChecked(s, digest, listings, rewritten) && LaunchesChecked(w, digest, listings, rewritten)
  {
    forall n | n in s.dirs && !Internal(n) ensures Checked(n, s.dirs[n], digest, listings, rewritten) {
      if n == id && SubTree(s.dirs[n], tree) {
        CheckedMore(n, tree, s.dirs[n], digest, listings, rewritten, listings, rewritten);
      } else {
        CheckedMore(n, s0.dirs[n], s.dirs[n], digest, listings, rewritten, listings, rewritten);
      }
    }
  }

  /** Starting installed releases keeps launches checked. */
  lemma CheckedAfterLaunch(s: Snapshot, w0: World, w: World, digest: Content -> string, listings: set<Listing>,
      rewritten: set<FileId>)
    requires ReleasesChecked(s, digest, listings, rewritten) && LaunchesChecked(w0, digest, listings, rewritten)
    requires LaunchedFrom(w0, w, s.dirs)
    ensures LaunchesChecked(w, digest, listings, rewritten)
  {
  }

  lemma ReleasesCheckedSame(s: Snapshot, s': Snapshot, digest: Content -> string, listings: set<Listing>,
      rewritten: set<FileId>)
    requires ReleasesChecked(s, digest, listings, rewritten) && s'.dirs == s.dirs
    ensures ReleasesChecked(s', digest, listings, rewritten)
  {
  }

  /** Two files of a release may have changed, and both are noted as rewritten. */
  lemma CheckedAfterEdit(s: Snapshot, s': Snapshot, name: string, file: string, temporary: string,
      digest: Content -> string, listings: set<Listing>, rewritten: set<FileId>)
    requires ReleasesChecked(s, digest, listings, rewritten) && OnlyDirectory(s, s', name)
    requires name in s.dirs && name in s'.dirs && !Internal(name)
    requires s'.dirs[name] - {file, temporary} == s.dirs[name] - {file, temporary}
    requires FileId(name, file) in rewritten && FileId(name, temporary) in rewritten
    ensures ReleasesChecked(s', digest, listings, rewritten)
  {
    forall n | n in s'.dirs && n != name ensures n in s.dirs && s'.dirs[n] == s.dirs[n] {
      OtherDirectory(s, s', name, n);
    }
    forall p | p in s'.dirs[name] && p != file && p != temporary
      ensures p in s.dirs[name] && s'.dirs[name][p] == s.dirs[name][p]
    {
      assert p in s'.dirs[name] - {file, temporary};
      assert (s'.dirs[name] - {file, temporary})[p] == (s.dirs[name] - {file, temporary})[p];
    }
  }

  lemma OtherFilesStay(tree: Tree, tree': Tree, file: string, temporary: string, content: Content)
    requires tree' - {temporary} == tree - {temporary} || tree' == (tree - {temporary})[file := content]
    ensures tree' - {file, temporary} == tree - {file, temporary}
  {
    if tree' - {temporary} == tree - {temporary} {
      assert tree' - {file, temporary} == (tree' - {temporary}) - {file};
      assert tree - {file, temporary} == (tree - {temporary}) - {file};
    }
  }

  /** Without a failed removal of the staging directory nothing is left over, so the installed tree is the
      downloaded one. */
  lemma NothingOver(s: Snapshot, tree: Tree, staging: string, source: Tree)
    requires Leftover(s, tree, staging, source, false)
    ensures tree == source
  {
    var residue :| tree == residue + source && Residue(s, residue, staging, false);
    assert residue == map[];
  }

  /** The staging directory holds no file that the source does not have. */
  ghost predicate NoneStale(s: Snapshot, staging: string, source: Tree) {
    staging in s.dirs ==> s.dirs[staging].Keys <= source.Keys
  }

  /** A staging directory could not be removed. Whatever stayed of it, the installed tree is the source, if and
      only if nothing stale lay in it. */
  lemma SourceExactly(s: Snapshot, staging: string, source: Tree)
    ensures NoneStale(s, staging, source) <==>
      forall tree: Tree | Leftover(s, tree, staging, source, true) :: tree == source
  {
    if NoneStale(s, staging, source) {
      forall tree: Tree | Leftover(s, tree, staging, source, true) ensures tree == source {
        OnlySource(s, tree, staging, source);
      }
    } else {
      var p :| p in s.dirs[staging] && p !in source;
      StaleInstalled(s, staging, source, p);
      assert p in map[p := s.dirs[staging][p]] + source;
    }
  }

  lemma OnlySource(s: Snapshot, tree: Tree, staging: string, source: Tree)
    requires Leftover(s, tree, staging, source, true) && NoneStale(s, staging, source)
    ensures tree == source
  {
    var residue :| tree == residue + source && Residue(s, residue, staging, true);
    assert residue.Keys <= source.Keys;
  }

  /** A stale file that the source does not have may end up in the installed tree. */
  lemma StaleInstalled(s: Snapshot, staging: string, source: Tree, p: string)
    requires staging in s.dirs && p in s.dirs[staging] && p !in source
    ensures Leftover(s, map[p := s.dirs[staging][p]] + source, staging, source, true)
  {
    assert Residue(s, map[p := s.dirs[staging][p]], staging, true);
  }

  /** Every stale file that the source does not have was checked. */
  ghost predicate StaleChecked(s: Snapshot, staging: string, source: Tree, name: string, digest: Content -> string,
      listings: set<Listing>, rewritten: set<FileId>) {
    staging in s.dirs ==>
      forall p | p in s.dirs[staging] && p !in source ::
        Listing(name, p, digest(s.dirs[staging][p])) in listings || FileId(name, p) in rewritten
  }

  /** A staging directory could not be removed, and the source is checked. Whatever stayed, the installed tree
      is checked, if and only if every stale file outside the source is. */
  lemma CheckedExactly(s: Snapshot, staging: string, source: Tree, name: string, digest: Content -> string,
      listings: set<Listing>, rewritten: set<FileId>)
    requires Checked(name, source, digest, listings, rewritten)
    ensures StaleChecked(s, staging, source, name, digest, listings, rewritten) <==>
      forall tree: Tree | Leftover(s, tree, staging, source, true) :: Checked(name, tree, digest, listings, rewritten)
  {
    if StaleChecked(s, staging, source, name, digest, listings, rewritten) {
      forall tree: Tree | Leftover(s, tree, staging, source, true)
        ensures Checked(name, tree, digest, listings, rewritten)
      {
        CheckedWithStale(s, tree, staging, source, name, digest, listings, rewritten);
      }
    } else {
      var p :| p in s.dirs[staging] && p !in source
        && !(Listing(name, p, digest(s.dirs[staging][p])) in listings || FileId(name, p) in rewritten);
      StaleInstalled(s, staging, source, p);
      var tree := map[p := s.dirs[staging][p]] + source;
      assert p in tree && tree[p] == s.dirs[staging][p];
      assert !Checked(name, tree, digest, listings, rewritten);
    }
  }

  lemma CheckedWithStale(s: Snapshot, tree: Tree, staging: string, source: Tree, name: string,
      digest: Content -> string, listings: set<Listing>, rewritten: set<FileId>)
    requires Checked(name, source, digest, listings, rewritten) && Leftover(s, tree, staging, source, true)
    requires StaleChecked(s, staging, source, name, digest, listings, rewritten)
    ensures Checked(name, tree, digest, listings, rewritten)
  {
    var residue :| tree == residue + source && Residue(s, residue, staging, true);
    forall p | p in tree
      ensures Listing(name, p, digest(tree[p])) in listings || FileId(name, p) in rewritten
    {
      if p !in source { assert p in residue && residue[p] == s.dirs[staging][p]; }
    }
  }

  /** Such an input: an earlier attempt left the file `old` in staging, the version has only `new`, and the
      installed release runs with both, although nothing lists `old`. */
  lemma StaleExample(new_: Content, stale: Content, digest: Content -> string)
    ensures var source: Tree := map["new" := new_];
      var tree: Tree := map["old" := stale, "new" := new_];
      var s := Snapshot(map[StagingName("r") := map["old" := stale]], Absent, Absent);
      var listings := {Listing("r", "new", digest(new_))};
      && Leftover(s, tree, StagingName("r"), source, true)
      && Checked("r", source, digest, listings, {}) && !Checked("r", tree, digest, listings, {})
  {
    var source: Tree := map["new" := new_];
    var s := Snapshot(map[StagingName("r") := map["old" := stale]], Absent, Absent);
    StaleInstalled(s, StagingName("r"), source, "old");
    var tree: Tree := map["old" := stale, "new" := new_];
    assert map["old" := stale] + source == tree;
    assert "old" in tree;
    assert Listing("r", "old", digest(stale)) !in {Listing("r", "new", digest(new_))};
  }

  /** One directory of versions was replaced or removed. */
  lemma VersionsAfter(s: Snapshot, s': Snapshot, name: string, digest: Content -> string, listings: set<Listing>)
    requires VersionsChecked(s, digest, listings) && OnlyDirectory(s, s', name)
    requires name in s'.dirs ==> Checked(name, s'.dirs[name], digest, listings, {})
    ensures VersionsChecked(s', digest, listings)
  {
    forall n | n in s'.dirs && n != name ensures n in s.dirs && s'.dirs[n] == s.dirs[n] {
      OtherDirectory(s, s', name, n);
    }
  }

  /** Every file but perhaps `bad` was checked. */
  ghost predicate CheckedBut(name: string, tree: Tree, bad: Option<string>, digest: Content -> string,
      listings: set<Listing>) {
    forall p | p in tree :: bad == Some(p) || Listing(name, p, digest(tree[p])) in listings
  }

  /** The version still holds the file `bad`, with a content that nothing lists. */
  ghost predicate UncheckedStays(s: Snapshot, id: string, bad: Option<string>, digest: Content -> string,
      listings: set<Listing>) {
    && bad.Some? && id in s.dirs && bad.value in s.dirs[id]
    && Listing(id, bad.value, digest(s.dirs[id][bad.value])) !in listings
  }

  /** A version is discarded because the download of its file `bad` failed. However much of it stays, the
      versions are checked exactly if that one file is gone or turned out to be listed. */
  lemma DiscardedExactly(s0: Snapshot, s1: Snapshot, s2: Snapshot, id: string, bad: Option<string>,
      digest: Content -> string, listings: set<Listing>, listings': set<Listing>)
    requires VersionsChecked(s0, digest, listings) && listings <= listings' && OnlyDirectory(s0, s1, id)
    requires id in s1.dirs && CheckedBut(id, s1.dirs[id], bad, digest, listings')
    requires RemovedPartly(s1, s2, id)
    ensures VersionsChecked(s2, digest, listings') <==> !UncheckedStays(s2, id, bad, digest, listings')
  {
    if UncheckedStays(s2, id, bad, digest, listings') {
      assert bad.value in s2.dirs[id];
      assert !Checked(id, s2.dirs[id], digest, listings', {});
    } else {
      VersionsCheckedMore(s0, digest, listings, listings');
      assert OnlyDirectory(s0, s2, id);
      VersionsAfter(s0, s2, id, digest, listings');
    }
  }
}
