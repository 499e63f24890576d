/** The service root of a device: the directories under `releases/` and the two record files. Every
    primitive may fail; the disk remembers every state it has been in, so that a crash between any
    two moments is covered by what holds of all of them. */
module Storage {
  import opened Prelude
  import opened Json
  import opened ReleaseTree
  import opened Paths

  /** A small file: missing, present but not JSON, or a JSON document. */
  datatype Doc = Absent | Garbage | Document(json: Json)

  datatype Snapshot = Snapshot(dirs: map<string, Tree>, state: Doc, runtime: Doc)

  datatype Subject = Directory(name: string) | StateFile | RuntimeFile

  // ---------------------------------------------------------------- comparing states of the disk

  predicate SubTree(t: Tree, u: Tree) {
    t.Keys <= u.Keys && forall p | p in t :: t[p] == u[p]
  }

  /** Nothing but the directory `name` differs. */
  ghost predicate OnlyDirectory(s: Snapshot, s': Snapshot, name: string) {
    s'.state == s.state && s'.runtime == s.runtime && s'.dirs - {name} == s.dirs - {name}
  }

  /** The installed releases, less some. */
  function Releases(s: Snapshot, except: set<string>): (r: map<string, Tree>) {
    map n | n in s.dirs && !Internal(n) && n !in except :: s.dirs[n]
  }

  /** Nothing but internal directories and the releases in `except` differs. */
  ghost predicate ReleasesKept(s: Snapshot, s': Snapshot, except: set<string>) {
    s'.state == s.state && s'.runtime == s.runtime && Releases(s', except) == Releases(s, except)
  }

  lemma OtherDirectory(s: Snapshot, s': Snapshot, name: string, n: string)
    requires OnlyDirectory(s, s', name) && n != name
    ensures n in s'.dirs <==> n in s.dirs
    ensures n in s.dirs ==> s'.dirs[n] == s.dirs[n]
  {
    assert n in s'.dirs - {name} <==> n in s.dirs - {name};
    assert n in s.dirs ==> (s'.dirs - {name})[n] == (s.dirs - {name})[n];
  }

  lemma OnlyDirectoryKeepsReleases(s: Snapshot, s': Snapshot, name: string, except: set<string>)
    requires OnlyDirectory(s, s', name) && (Internal(name) || name in except)
    ensures ReleasesKept(s, s', except)
  {
    forall n | n != name
      ensures n in s'.dirs <==> n in s.dirs
      ensures n in s.dirs ==> s'.dirs[n] == s.dirs[n]
    {
      OtherDirectory(s, s', name, n);
    }
  }

  // ---------------------------------------------------------------- the disk

  class Disk {
    var view: Snapshot
    ghost var history: seq<Snapshot>
    /** How often `exists` or `is_directory` answered no although the thing was there: for `state.json`,
        and for anything else. */
    ghost var stateFaults: nat
    ghost var queryFaults: nat
    /** How often removing a directory tree failed, how often that was a staging directory, and how often
        listing the releases failed. */
    ghost var failedRemovals: nat
    ghost var stagingFaults: nat
    ghost var listFaults: nat
    /** When a directory was last written, and how often that could not be read. A name that was never
        written has the time 0. */
    var written: map<string, int>
    ghost var timeFaults: nat
    /** How often anything but such a question failed. */
    ghost var ioFaults: nat
    /** How often a file could not be opened for its digest. */
    ghost var unread: nat
    /** What every question for the root itself was answered. */
    ghost var rootLooks: seq<bool>

    constructor (view: Snapshot)
      ensures this.view == view && history == [view] && queryFaults == 0 && stateFaults == 0
      ensures failedRemovals == 0 && stagingFaults == 0 && listFaults == 0 && ioFaults == 0 && unread == 0
    {
      this.view := view;
      history := [view];
      stateFaults, queryFaults, failedRemovals, stagingFaults, listFaults := 0, 0, 0, 0, 0;
      written, timeFaults, ioFaults, unread, rootLooks := map[], 0, 0, 0, [];
    }

    ghost predicate Valid()
      reads this`view, this`history
    {
      history != [] && history[|history|-1] == view
    }

    /** An operation failed. */
    method Fail()
      modifies this`ioFaults
      ensures ioFaults == old(ioFaults) + 1
    {
      ioFaults := ioFaults + 1;
    }

    method Set(next: Snapshot)
      modifies this`view, this`history
      ensures view == next && history == old(history) + [next]
    {
      view := next;
      history := history + [next];
    }

    /** A directory is written now; clocks may show any time. */
    method Touch(name: string)
      modifies this`written
      ensures OnlyTime(old(written), written, name)
    {
      var now: int := *;
      written := written[name := now];
    }

    /** `last_write_time`: an error reads as the time 0. */
    method ReadTime(name: string) returns (time: int)
      modifies this`timeFaults
      ensures timeFaults >= old(timeFaults)
      ensures timeFaults == old(timeFaults) ==> time == TimeOf(written, name)
    {
      var failing: bool := *;
      if failing {
        timeFaults := timeFaults + 1;
        return 0;
      }
      time := TimeOf(written, name);
    }

    /** `exists` or `is_directory`: an error reads as no. */
    method Exists(subject: Subject) returns (b: bool)
      requires !subject.StateFile?
      modifies this`queryFaults
      ensures b ==> Holds(view, subject) || Odd(subject)
      ensures queryFaults == if Holds(view, subject) && !b then old(queryFaults) + 1 else old(queryFaults)
    {
      var failing: bool := *;
      b := (Holds(view, subject) || Odd(subject)) && !failing;
      if Holds(view, subject) && failing {
        queryFaults := queryFaults + 1;
      }
    }

    /** The same for `state.json`. */
    method StateExists() returns (b: bool)
      modifies this`stateFaults
      ensures b ==> !view.state.Absent?
      ensures stateFaults == if !view.state.Absent? && !b then old(stateFaults) + 1 else old(stateFaults)
    {
      var failing: bool := *;
      b := !view.state.Absent? && !failing;
      if !view.state.Absent? && failing {
        stateFaults := stateFaults + 1;
      }
    }

    /** Whether the root is a directory. One that holds nothing may be missing. */
    method RootExists() returns (b: bool)
      modifies this`queryFaults, this`rootLooks
      ensures rootLooks == old(rootLooks) + [b]
      ensures b ==> queryFaults == old(queryFaults)
      ensures !b ==> queryFaults == if view.dirs == map[] then old(queryFaults) else old(queryFaults) + 1
    {
      b := *;
      rootLooks := rootLooks + [b];
      if !b && view.dirs != map[] { queryFaults := queryFaults + 1; }
    }

    /** Whether a file of a release exists. */
    method HasFile(name: string, path: string) returns (b: bool)
      modifies this`queryFaults
      ensures b ==> name in view.dirs
      ensures queryFaults >= old(queryFaults)
      ensures name in view.dirs && path in view.dirs[name] ==> b || queryFaults > old(queryFaults)
    {
      var failing: bool := *;
      var folder: bool := *;
      b := !failing && name in view.dirs && (path in view.dirs[name] || folder);
      if failing { queryFaults := queryFaults + 1; }
    }

    method CreateDirectory(name: string) returns (ok: bool)
      requires Valid()
      modifies this`view, this`history, this`written, this`ioFaults
      ensures OnlyTime(old(written), written, name)
      ensures Valid() && old(history) <= history
      ensures forall i | |old(history)| <= i < |history| :: OnlyDirectory(old(view), history[i], name)
      ensures ok ==>
        name in view.dirs && view.dirs[name] == if name in old(view).dirs then old(view).dirs[name] else map[]
      ensures OnlyDirectory(old(view), view, name)
      ensures !ok ==> view == old(view)
      ensures ioFaults == if ok then old(ioFaults) else old(ioFaults) + 1
    {
      ok := *;
      if ok {
        Set(view.(dirs := view.dirs[name := if name in view.dirs then view.dirs[name] else map[]]));
        Touch(name);
      } else {
        Fail();
      }
    }

    /** Copies one file; a copy that fails may leave anything at its destination. */
    method CopyFile(name: string, path: string, content: Content) returns (ok: bool)
      requires Valid() && name in view.dirs
      modifies this`view, this`history, this`written, this`ioFaults
      ensures OnlyTime(old(written), written, name)
      ensures Valid() && old(history) <= history
      ensures forall i | |old(history)| <= i < |history| :: OnlyDirectory(old(view), history[i], name)
      ensures OnlyDirectory(old(view), view, name) && name in view.dirs
      ensures if ok
        then view.dirs[name] == old(view).dirs[name][path := content]
        else view.dirs[name] - {path} == old(view).dirs[name] - {path}
      ensures ioFaults == if ok then old(ioFaults) else old(ioFaults) + 1
    {
      ok := *;
      var touched: bool := *;
      var partial: nat := |content|;
      var cut: int := *;
      if 0 <= cut < partial { partial := cut; }
      if ok {
        Set(view.(dirs := view.dirs[name := view.dirs[name][path := content]]));
        Touch(name);
      } else if touched {
        Set(view.(dirs := view.dirs[name := view.dirs[name][path := content[..partial]]]));
        Touch(name);
      }
      if !ok { Fail(); }
    }

    /** rename(2) of a file within a release: at once or not at all. */
    method RenameFile(name: string, source: string, target: string) returns (ok: bool)
      requires Valid() && name in view.dirs && source in view.dirs[name] && source != target
      modifies this`view, this`history, this`written, this`ioFaults
      ensures OnlyTime(old(written), written, name)
      ensures Valid() && old(history) <= history
      ensures OnlyDirectory(old(view), view, name) && name in view.dirs
      ensures ok ==> view.dirs[name] == (old(view).dirs[name] - {source})[target := old(view).dirs[name][source]]
      ensures !ok ==> view == old(view)
      ensures ioFaults == if ok then old(ioFaults) else old(ioFaults) + 1
    {
      ok := *;
      if ok {
        Set(view.(dirs := view.dirs[name := (view.dirs[name] - {source})[target := view.dirs[name][source]]]));
        Touch(name);
      }
      if !ok { Fail(); }
    }

    /** Removes a file of a release, if it can. */
    method RemoveFile(name: string, path: string)
      requires Valid() && name in view.dirs
      modifies this`view, this`history, this`written, this`ioFaults
      ensures OnlyTime(old(written), written, name)
      ensures Valid() && old(history) <= history
      ensures OnlyDirectory(old(view), view, name) && name in view.dirs
      ensures view.dirs[name] == old(view).dirs[name] - {path} || view == old(view)
      ensures ioFaults >= old(ioFaults)
      ensures path !in view.dirs[name] || ioFaults > old(ioFaults)
    {
      var ok: bool := *;
      if ok {
        Set(view.(dirs := view.dirs[name := view.dirs[name] - {path}]));
        Touch(name);
      }
      if !ok { Fail(); }
    }

    /** Writes a temporary file next to a file and renames it over it; on failure the temporary file may
        stay. */
    method ReplaceFile(name: string, file: string, temporary: string, content: Content) returns (ok: bool)
      requires Valid() && name in view.dirs && temporary != file
      modifies this`view, this`history, this`written, this`ioFaults
      ensures OnlyTime(old(written), written, name)
      ensures Valid() && old(history) <= history
      ensures OnlyDirectory(old(view), view, name) && name in view.dirs
      ensures ok ==> view.dirs[name] == (old(view).dirs[name] - {temporary})[file := content]
      ensures !ok ==> view.dirs[name] - {temporary} == old(view).dirs[name] - {temporary}
      ensures ioFaults >= old(ioFaults) && (!ok ==> ioFaults > old(ioFaults))
      ensures !ok && temporary in view.dirs[name] ==> ioFaults > old(ioFaults) + 1
    {
      ghost var tree := view.dirs[name];
      var written := CopyFile(name, temporary, content);
      ok := false;
      if written {
        ok := RenameFile(name, temporary, file);
        if ok { assert tree[temporary := content] - {temporary} == tree - {temporary}; }
      }
      if !ok {
        RemoveFile(name, temporary);
      }
    }

    /** Removes a directory tree, file by file. A failure leaves part of it. */
    method RemoveAll(name: string) returns (ok: bool)
      requires Valid()
      modifies this`view, this`history, this`written, this`failedRemovals, this`stagingFaults, this`ioFaults
      ensures OnlyTime(old(written), written, name)
      ensures Valid() && old(history) <= history
      ensures forall i | |old(history)| <= i < |history| :: RemovedPartly(old(view), history[i], name)
      ensures RemovedPartly(old(view), view, name)
      ensures ok ==> name !in view.dirs && failedRemovals == old(failedRemovals)
      ensures !ok ==> failedRemovals > old(failedRemovals)
      ensures stagingFaults == if !ok && STAGING_PREFIX <= name then old(stagingFaults) + 1 else old(stagingFaults)
      ensures ioFaults == if ok then old(ioFaults) else old(ioFaults) + 1
    {
      ok := true;
      if name in view.dirs {
        ghost var tree := view.dirs[name];
        var rest := view.dirs[name];
        while rest != map[] && ok
          invariant Valid() && old(history) <= history
          invariant failedRemovals == old(failedRemovals) && stagingFaults == old(stagingFaults)
          invariant ioFaults == old(ioFaults)
          invariant name in view.dirs && view.dirs[name] == rest && SubTree(rest, tree)
          invariant RemovedPartly(old(view), view, name) && OnlyTime(old(written), written, name)
          invariant forall i | |old(history)| <= i < |history| :: RemovedPartly(old(view), history[i], name)
          decreases rest.Keys, ok
        {
          var path :| path in rest.Keys;
          var failing: bool := *;
          if failing {
            ok := false;
          } else {
            rest := rest - {path};
            assert view.dirs[name := rest] - {name} == view.dirs - {name};
            Set(view.(dirs := view.dirs[name := rest]));
            Touch(name);
          }
        }
        var failing: bool := *;
        if failing { ok := false; }
        if ok {
          Set(view.(dirs := view.dirs - {name}));
        }
      } else {
        var failing: bool := *;
        ok := !failing;
      }
      if !ok {
        Fail();
        failedRemovals := failedRemovals + 1;
        if STAGING_PREFIX <= name { stagingFaults := stagingFaults + 1; }
      }
    }

    /** rename(2) of a directory: it fails or it happens at once, and never onto a non-empty one. */
    method Rename(source: string, target: string) returns (ok: bool)
      requires Valid() && source != target
      modifies this`view, this`history, this`written, this`ioFaults
      ensures Valid() && old(history) <= history
      ensures forall i | |old(history)| <= i < |history| :: history[i] == view
      ensures ok ==> Renamed(old(view), view, source, target)
      ensures written == if ok then old(written)[target := TimeOf(old(written), source)] else old(written)
      ensures !ok ==> view == old(view) && history == old(history)
      ensures ioFaults >= old(ioFaults)
      ensures !ok && ioFaults == old(ioFaults) ==>
        source !in view.dirs || (target in view.dirs && view.dirs[target] != map[])
    {
      ok := *;
      if source !in view.dirs || (target in view.dirs && view.dirs[target] != map[]) {
        ok := false;
      } else if !ok {
        Fail();
      }
      if ok {
        Set(view.(dirs := (view.dirs - {source})[target := view.dirs[source]]));
        written := written[target := TimeOf(written, source)];
      }
    }

    /** Opens a file for its digest. */
    method Open(name: string, path: string) returns (ok: bool)
      modifies this`unread
      ensures unread == if ok then old(unread) else old(unread) + 1
    {
      ok := *;
      if !ok { unread := unread + 1; }
    }

    /** The names in `releases/`, each once, in any order. Listing may fail. */
    method List() returns (r: Option<seq<string>>)
      modifies this`listFaults, this`ioFaults
      ensures listFaults == if r.None? then old(listFaults) + 1 else old(listFaults)
      ensures r.Some? ==> Distinct(r.value) && forall n :: n in r.value <==> n in view.dirs
      ensures ioFaults == if r.None? then old(ioFaults) + 1 else old(ioFaults)
    {
      var failing: bool := *;
      if failing {
        Fail();
        listFaults := listFaults + 1;
        return None;
      }
      var names: seq<string> := [];
      var rest := view.dirs.Keys;
      while rest != {}
        invariant Distinct(names)
        invariant forall n :: n in names || n in rest <==> n in view.dirs
        invariant forall n | n in names :: n !in rest
        decreases rest
      {
        var name :| name in rest;
        names := names + [name];
        rest := rest - {name};
      }
      r := Some(names);
    }

    /** Opens and reads a record file that was just seen to exist. */
    method ReadDocument(subject: Subject) returns (r: Option<Doc>)
      requires !subject.Directory?
      modifies this`ioFaults
      ensures r.Some? ==> r.value == if subject.StateFile? then view.state else view.runtime
      ensures ioFaults == if r.None? then old(ioFaults) + 1 else old(ioFaults)
    {
      var failing: bool := *;
      r := if failing then None else Some(if subject.StateFile? then view.state else view.runtime);
      if failing { Fail(); }
    }

    /** Writes a temporary file and renames it over the record: the record changes at once or not at all. */
    method ReplaceDocument(subject: Subject, json: Json) returns (ok: bool)
      requires Valid() && !subject.Directory?
      modifies this`view, this`history, this`ioFaults
      ensures Valid() && old(history) <= history
      ensures forall i | |old(history)| <= i < |history| :: history[i] == view
      ensures ok && subject.StateFile? ==> view == old(view).(state := Document(json))
      ensures ok && subject.RuntimeFile? ==> view == old(view).(runtime := Document(json))
      ensures !ok ==> view == old(view) && history == old(history)
      ensures ioFaults == if ok then old(ioFaults) else old(ioFaults) + 1
    {
      var written: bool := *;
      ok := *;
      ok := ok && written;
      if ok {
        Set(if subject.StateFile? then view.(state := Document(json)) else view.(runtime := Document(json)));
      }
      if !ok { Fail(); }
    }

    method RemoveRuntime() returns (ok: bool)
      requires Valid()
      modifies this`view, this`history, this`ioFaults
      ensures Valid() && old(history) <= history
      ensures forall i | |old(history)| <= i < |history| :: history[i] == view
      ensures ok ==> view == old(view).(runtime := Absent)
      ensures !ok ==> view == old(view) && history == old(history)
      ensures ioFaults == if ok then old(ioFaults) else old(ioFaults) + 1
    {
      ok := *;
      if ok {
        Set(view.(runtime := Absent));
      }
      if !ok { Fail(); }
    }
  }

  function TimeOf(written: map<string, int>, name: string): (time: int) {
    if name in written then written[name] else 0
  }

  ghost predicate OnlyTime(written: map<string, int>, written': map<string, int>, name: string) {
    forall n | n != name :: TimeOf(written', n) == TimeOf(written, n)
  }

  predicate Distinct(names: seq<string>) {
    forall i, j | 0 <= i < j < |names| :: names[i] != names[j]
  }

  predicate Holds(s: Snapshot, subject: Subject) {
    match subject
    case Directory(name) => name in s.dirs
    case StateFile => !s.state.Absent?
    case RuntimeFile => !s.runtime.Absent?
  }

  /** A name such as "" or ".." leads out of the list of releases, to a directory that may exist. */
  predicate Odd(subject: Subject) {
    subject.Directory? && InstallerReleaseId(subject.name).Err?
  }

  /** The directory lost some files, or is gone; nothing else changed. */
  ghost predicate RemovedPartly(s: Snapshot, s': Snapshot, name: string) {
    && OnlyDirectory(s, s', name)
    && (name in s'.dirs ==> name in s.dirs && SubTree(s'.dirs[name], s.dirs[name]))
  }

  ghost predicate Renamed(s: Snapshot, s': Snapshot, source: string, target: string) {
    && source in s.dirs
    && (target in s.dirs ==> s.dirs[target] == map[])
    && s' == s.(dirs := (s.dirs - {source})[target := s.dirs[source]])
  }
}
