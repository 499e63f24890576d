/** `merge_object` of the agent: the values of an update_configuration command are laid over
    the JSON document of the active release. */
module ConfigurationMerge {
  import opened Prelude
  import opened Json

  type Members = map<string, Json>
  type Path = seq<string>

  // ---------------------------------------------------------------- the functional reading

  /** The deep overlay: objects merge member by member, everything else is replaced. */
  function Overlay(target: Members, changes: Members): (r: Members)
    decreases Object(changes)
  {
    map k | k in target.Keys + changes.Keys ::
      if k !in changes then target[k]
      else if k in target && target[k].Object? && changes[k].Object? then
        Object(Overlay(target[k].members, changes[k].members))
      else changes[k]
  }

  /** The value a path leads to inside a document. */
  function Get(doc: Json, path: Path): (r: Option<Json>) {
    if path == [] then Some(doc)
    else if doc.Object? && path[0] in doc.members then Get(doc.members[path[0]], path[1..])
    else None
  }

  /** The paths at which the merge stores a value that was not there before. */
  function Edits(target: Members, changes: Members): (r: set<Path>)
    decreases Object(changes), 1
  {
    set k, p | k in changes.Keys && p in EditsAt(target, changes, k) :: [k] + p
  }

  function EditsAt(target: Members, changes: Members, k: string): (r: set<Path>)
    requires k in changes
    decreases Object(changes), 0
  {
    if k in target && target[k].Object? && changes[k].Object? then
      Edits(target[k].members, changes[k].members)
    else if k in target && target[k] == changes[k] then {}
    else {[]}
  }

  // ---------------------------------------------------------------- the loop

  function EditsOn(target: Members, changes: Members, done: set<string>): (r: set<Path>) {
    set k, p | k in done && k in changes && p in EditsAt(target, changes, k) :: [k] + p
  }

  function Under(k: string, paths: set<Path>): (r: set<Path>) {
    set p | p in paths :: [k] + p
  }

  lemma {:induction false} UnderSize(k: string, paths: set<Path>)
    ensures |Under(k, paths)| == |paths|
  {
    if paths != {} {
      var p :| p in paths;
      UnderSize(k, paths - {p});
      forall q | q in paths - {p} ensures [k] + q != [k] + p {
        assert ([k] + q)[1..] == q && ([k] + p)[1..] == p;
      }
      assert Under(k, paths) == Under(k, paths - {p}) + {[k] + p};
    }
  }

  lemma EditsOnSplit(target: Members, changes: Members, done: set<string>, k: string)
    requires k in changes
    ensures EditsOn(target, changes, done + {k}) ==
      EditsOn(target, changes, done) + Under(k, EditsAt(target, changes, k))
  {
    var before, added := EditsOn(target, changes, done), Under(k, EditsAt(target, changes, k));
    forall p | p in before + added ensures p in EditsOn(target, changes, done + {k}) {
      assert p == [p[0]] + p[1..];
    }
  }

  lemma EditsOnStep(target: Members, changes: Members, done: set<string>, k: string)
    requires k in changes && k !in done
    ensures |EditsOn(target, changes, done + {k})| == |EditsOn(target, changes, done)| + |EditsAt(target, changes, k)|
  {
    var before, added := EditsOn(target, changes, done), Under(k, EditsAt(target, changes, k));
    UnderSize(k, EditsAt(target, changes, k));
    EditsOnSplit(target, changes, done, k);
    forall p | p in before ensures p !in added { assert p[0] in done; }
    assert before !! added;
  }

  /** The document after the members in `done` have been merged. */
  function Partial(target: Members, changes: Members, done: set<string>): (r: Members) {
    map k | k in target.Keys + done * changes.Keys :: if k in done then Overlay(target, changes)[k] else target[k]
  }

  lemma PartialStep(target: Members, changes: Members, done: set<string>, k: string)
    requires k in changes && k !in done
    ensures k in Overlay(target, changes)
    ensures k in Partial(target, changes, done) <==> k in target
    ensures k in target ==> Partial(target, changes, done)[k] == target[k]
    ensures Partial(target, changes, done + {k}) == Partial(target, changes, done)[k := Overlay(target, changes)[k]]
  {
  }

  lemma PartialEnds(target: Members, changes: Members)
    ensures Partial(target, changes, {}) == target && |EditsOn(target, changes, {})| == 0
    ensures Partial(target, changes, changes.Keys) == Overlay(target, changes)
    ensures EditsOn(target, changes, changes.Keys) == Edits(target, changes)
  {
    assert EditsOn(target, changes, {}) == {};
  }

  /** The loop over the members of `changes`, in any order: it computes the overlay and counts
      exactly the paths it writes. */
  method MergeObject(target: Members, changes: Members) returns (merged: Members, changed: nat)
    ensures merged == Overlay(target, changes)
    ensures changed == |Edits(target, changes)|
    decreases Object(changes), 1
  {
    hide *;
    merged, changed := target, 0;
    var rest := changes.Keys;
    ghost var done := {};
    PartialEnds(target, changes);
    while rest != {}
      invariant done + rest == changes.Keys && done !! rest
      invariant merged == Partial(target, changes, done)
      invariant changed == |EditsOn(target, changes, done)|
      decreases rest
    {
      var key :| key in rest;
      EditsOnStep(target, changes, done, key);
      PartialStep(target, changes, done, key);
      var count;
      merged, count := MergeMember(merged, target, changes, key);
      changed := changed + count;
      rest := rest - {key};
      done := done + {key};
    }
  }

  /** One turn of the loop: `existing` is what the member `key` holds so far. */
  method MergeMember(document: Members, ghost target: Members, changes: Members, key: string)
    returns (merged: Members, count: nat)
    requires key in changes
    requires key in document <==> key in target
    requires key in target ==> document[key] == target[key]
    ensures merged == document[key := Overlay(target, changes)[key]]
    ensures count == |EditsAt(target, changes, key)|
    decreases Object(changes), 0
  {
    var value := changes[key];
    merged, count := document, 0;
    if key in document && document[key].Object? && value.Object? {
      var inner;
      inner, count := MergeObject(document[key].members, value.members);
      merged := document[key := Object(inner)];
    } else if key !in document || document[key] != value {
      merged, count := document[key := value], 1;
    }
  }

  // ---------------------------------------------------------------- what the overlay means

  /** A leaf of `changes` above `path` replaces whatever stood there, and hides what was below. */
  ghost predicate Shadowed(changes: Json, path: Path) {
    exists n :: 0 <= n < |path| && LeafAt(changes, path[..n])
  }

  predicate LeafAt(doc: Json, path: Path) {
    var v := Get(doc, path);
    v.Some? && !v.value.Object?
  }

  /** Every path of the merged document is decided: leaves of the changes win, paths the changes
      do not mention keep their value, and nothing survives below a leaf of the changes. */
  lemma {:induction false} OverlayByPath(target: Members, changes: Members, path: Path)
    ensures LeafAt(Object(changes), path) ==>
      Get(Object(Overlay(target, changes)), path) == Get(Object(changes), path)
    ensures Get(Object(changes), path).None? && !Shadowed(Object(changes), path) ==>
      Get(Object(Overlay(target, changes)), path) == Get(Object(target), path)
    ensures Shadowed(Object(changes), path) ==>
      Get(Object(Overlay(target, changes)), path).None?
    ensures Get(Object(changes), path).Some? && Get(Object(changes), path).value.Object? ==>
      Get(Object(Overlay(target, changes)), path).Some?
      && Get(Object(Overlay(target, changes)), path).value.Object?
    decreases |path|
  {
    if path != [] && path[0] in changes {
      var k, rest := path[0], path[1..];
      ShadowedTail(changes, path);
      if changes[k].Object? {
        if k in target && target[k].Object? {
          OverlayByPath(target[k].members, changes[k].members, rest);
        } else {
          OnlyChanges(changes[k], rest);
        }
      } else {
        if rest != [] { assert LeafAt(changes[k], rest[..0]); }
      }
    } else if path != [] {
      NotShadowed(changes, path);
    }
  }

  lemma NotShadowed(changes: Members, path: Path)
    requires path != [] && path[0] !in changes
    ensures !Shadowed(Object(changes), path)
  {
    forall n | 0 <= n < |path| ensures !LeafAt(Object(changes), path[..n]) {
      if n > 0 { assert path[..n][0] == path[0]; }
    }
  }

  lemma ShadowedTail(changes: Members, path: Path)
    requires path != [] && path[0] in changes
    ensures Shadowed(Object(changes), path) <==> Shadowed(changes[path[0]], path[1..])
  {
    var k, rest := path[0], path[1..];
    if Shadowed(Object(changes), path) {
      var n :| 0 <= n < |path| && LeafAt(Object(changes), path[..n]);
      if n > 0 {
        assert path[..n][1..] == rest[..n-1];
        assert LeafAt(changes[k], rest[..n-1]);
      }
    }
    if Shadowed(changes[k], rest) {
      var n :| 0 <= n < |rest| && LeafAt(changes[k], rest[..n]);
      assert path[..n+1][1..] == rest[..n];
      assert LeafAt(Object(changes), path[..n+1]);
    }
  }

  /** Below a leaf there is nothing. */
  lemma {:induction false} OnlyChanges(doc: Json, path: Path)
    ensures Shadowed(doc, path) ==> Get(doc, path).None?
    decreases |path|
  {
    if path != [] && doc.Object? && path[0] in doc.members {
      ShadowedTail(doc.members, path);
      OnlyChanges(doc.members[path[0]], path[1..]);
    }
  }

  /** The count is 0 exactly when the document is unchanged. */
  lemma {:induction false} NoEditsIffUnchanged(target: Members, changes: Members)
    ensures Edits(target, changes) == {} <==> Overlay(target, changes) == target
    decreases Object(changes)
  {
    var merged := Overlay(target, changes);
    forall k | k in changes
      ensures EditsAt(target, changes, k) == {} <==> k in target && merged[k] == target[k]
    {
      if k in target && target[k].Object? && changes[k].Object? {
        NoEditsIffUnchanged(target[k].members, changes[k].members);
      }
    }
    if Edits(target, changes) == {} {
      forall k | k in changes ensures k in target && merged[k] == target[k] {
        if p :| p in EditsAt(target, changes, k) { assert [k] + p in Edits(target, changes); }
      }
    } else {
      var path :| path in Edits(target, changes);
      var k, p :| k in changes && p in EditsAt(target, changes, k) && path == [k] + p;
      assert k !in target || merged[k] != target[k];
    }
  }

  /** Merging the same changes again alters nothing and reports 0. */
  lemma {:induction false} MergeTwiceIsMergeOnce(target: Members, changes: Members)
    ensures Overlay(Overlay(target, changes), changes) == Overlay(target, changes)
    ensures Edits(Overlay(target, changes), changes) == {}
    decreases Object(changes)
  {
    var once := Overlay(target, changes);
    forall k | k in changes ensures Overlay(once, changes)[k] == once[k] {
      if changes[k].Object? {
        if k in target && target[k].Object? {
          MergeTwiceIsMergeOnce(target[k].members, changes[k].members);
        } else {
          OverlaySelf(changes[k].members);
        }
      }
    }
    NoEditsIffUnchanged(once, changes);
  }

  lemma {:induction false} OverlaySelf(doc: Members)
    ensures Overlay(doc, doc) == doc
    decreases Object(doc)
  {
    forall k | k in doc ensures Overlay(doc, doc)[k] == doc[k] {
      if doc[k].Object? { OverlaySelf(doc[k].members); }
    }
  }

  // ---------------------------------------------------------------- section 2 of RFC 7396

  /** The MergePatch procedure of section 2 of RFC 7396, on an object patch. */
  function MergePatch(target: Members, patch: Members): (r: Members)
    decreases Object(patch)
  {
    map k | k in target.Keys + patch.Keys && (k in patch ==> !patch[k].Null?) ::
      if k !in patch then target[k]
      else if patch[k].Object? then
        Object(MergePatch(if k in target && target[k].Object? then target[k].members else map[], patch[k].members))
      else patch[k]
  }

  /** No member of the patch, at any depth of objects, is null. */
  predicate NullFree(patch: Members)
    decreases Object(patch)
  {
    forall k | k in patch :: !patch[k].Null? && (patch[k].Object? ==> NullFree(patch[k].members))
  }

  lemma {:induction false} PatchOfNothing(patch: Members)
    requires NullFree(patch)
    ensures MergePatch(map[], patch) == patch
    decreases Object(patch)
  {
    forall k | k in patch ensures MergePatch(map[], patch)[k] == patch[k] {
      if patch[k].Object? { PatchOfNothing(patch[k].members); }
    }
  }

  /** A null member is stored by the agent and is a deletion in the RFC: the two results differ on
      every document as soon as the patch holds one, and are equal on every document otherwise. */
  lemma {:induction false} RfcMergeIffNullFree(target: Members, patch: Members)
    ensures Overlay(target, patch) == MergePatch(target, patch) <==> NullFree(patch)
    decreases Object(patch)
  {
    if NullFree(patch) {
      forall k | k in patch ensures Overlay(target, patch)[k] == MergePatch(target, patch)[k] {
        if patch[k].Object? {
          if k in target && target[k].Object? {
            RfcMergeIffNullFree(target[k].members, patch[k].members);
          } else {
            PatchOfNothing(patch[k].members);
          }
        }
      }
    } else {
      var k :| k in patch && (patch[k].Null? || (patch[k].Object? && !NullFree(patch[k].members)));
      if patch[k].Null? {
        assert k in Overlay(target, patch) && k !in MergePatch(target, patch);
      } else if k in target && target[k].Object? {
        RfcMergeIffNullFree(target[k].members, patch[k].members);
        assert Overlay(target, patch)[k] != MergePatch(target, patch)[k];
      } else {
        PatchDropsNulls(map[], patch[k].members);
        assert Overlay(target, patch)[k] != MergePatch(target, patch)[k];
      }
    }
  }

  /** The RFC never leaves a null the patch wrote, so a patch that holds one is not its own result. */
  lemma {:induction false} PatchDropsNulls(target: Members, patch: Members)
    requires !NullFree(patch)
    ensures MergePatch(target, patch) != patch
    decreases Object(patch)
  {
    var k :| k in patch && (patch[k].Null? || (patch[k].Object? && !NullFree(patch[k].members)));
    if patch[k].Null? {
      assert k !in MergePatch(target, patch);
    } else {
      var below := if k in target && target[k].Object? then target[k].members else map[];
      PatchDropsNulls(below, patch[k].members);
      assert MergePatch(target, patch)[k] != patch[k];
    }
  }
}
