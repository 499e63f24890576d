/** Which names and paths are let through: by the REST API, by the artifact store rule, by the
    installer and by the device. */
module Paths {
  import opened Prelude

  datatype Refusal =
    | Empty | Separator | PathReference | DrivePath | Backslash | Absolute | ParentReference | InternalName

  // ---------------------------------------------------------------- segments

  function FirstSlash(s: string): (r: int)
    ensures -1 <= r < |s|
    ensures r >= 0 ==> s[r] == '/' && '/' !in s[..r]
    ensures r == -1 ==> '/' !in s
  {
    if s == "" then -1
    else if s[0] == '/' then 0
    else
      var rest := FirstSlash(s[1..]);
      assert s == [s[0]] + s[1..];
      if rest == -1 then -1
      else
        assert s[..rest+1] == [s[0]] + s[1..][..rest];
        rest + 1
  }

  /** `strings.Split(s, "/")`. */
  function Split(s: string): (r: seq<string>)
    decreases |s|
  {
    var i := FirstSlash(s);
    if i == -1 then [s] else [s[..i]] + Split(s[i+1..])
  }

  lemma SplitStep(s: string)
    ensures var i := FirstSlash(s);
      if i == -1 then Split(s) == [s] else Split(s) == [s[..i]] + Split(s[i+1..])
  {
  }

  /** The scanning loop of the artifact rule finds a `..` segment exactly when the split has one. */
  method HasParentReference(path: string) returns (found: bool)
    ensures found <==> ".." in Split(path)
  {
    hide Split;
    var start := 0;
    assert path[0..] == path;
    while start <= |path|
      invariant 0 <= start <= |path|
      invariant ".." in Split(path) <==> ".." in Split(path[start..])
      decreases |path| - start
    {
      var rest := path[start..];
      var slash := FirstSlash(rest);
      SplitStep(rest);
      var segment := if slash == -1 then rest else rest[..slash];
      if segment == ".." {
        return true;
      }
      if slash == -1 {
        break;
      }
      assert rest[slash+1..] == path[start + slash + 1..];
      start := start + slash + 1;
    }
    found := false;
  }

  // ---------------------------------------------------------------- release ids and object keys

  predicate DriveLike(s: string) { |s| >= 2 && s[1] == ':' }

  /** Artifact::validate_release_id. */
  function ArtifactReleaseId(id: string): (r: Result<Unit, Refusal>) {
    if id == "" then Err(Empty)
    else if '/' in id || '\\' in id then Err(Separator)
    else if id == "." || id == ".." then Err(PathReference)
    else if DriveLike(id) then Err(DrivePath)
    else Ok(Unit.Unit)
  }

  const STAGING_PREFIX := ".staging-"
  const RETIRED_PREFIX := ".retired-"

  predicate Internal(name: string) { STAGING_PREFIX <= name || RETIRED_PREFIX <= name }

  /** The rule of the release installer, which also keeps its own names out. */
  function InstallerReleaseId(id: string): (r: Result<Unit, Refusal>) {
    if id == "" then Err(Empty)
    else if '/' in id || '\\' in id then Err(Separator)
    else if id == "." || id == ".." || Internal(id) then Err(InternalName)
    else if DriveLike(id) then Err(DrivePath)
    else Ok(Unit.Unit)
  }

  function Key(id: string, path: string): string { "releases/" + id + "/" + path }

  /** Artifact::make_object_key. */
  method MakeObjectKey(id: string, path: string) returns (r: Result<string, Refusal>)
    ensures r.Ok? <==> ApiAcceptsArtifact(id, path).Ok?
    ensures r.Ok? ==> r.value == Key(id, path) == "releases/" + id + "/" + path && StaysInside(Split(path))
  {
    var valid := ArtifactReleaseId(id);
    if valid.Err? { return Err(valid.error); }
    if path == "" { return Err(Empty); }
    if '\\' in path { return Err(Backslash); }
    if path[0] == '/' { return Err(Absolute); }
    if DriveLike(path) { return Err(Absolute); }
    var climbs := HasParentReference(path);
    if climbs { return Err(ParentReference); }
    NoParentStaysInside(Split(path));
    r := Ok(Key(id, path));
  }

  /** validateObjectKey of the REST API. */
  function ApiAcceptsArtifact(id: string, path: string): (r: Result<Unit, Refusal>) {
    if id == "" then Err(Empty)
    else if '/' in id || '\\' in id then Err(Separator)
    else if DriveLike(id) then Err(DrivePath)
    else if id == "." || id == ".." then Err(PathReference)
    else if path == "" then Err(Empty)
    else if '\\' in path then Err(Backslash)
    else if "/" <= path || DriveLike(path) then Err(Absolute)
    else if exists i | 0 <= i < |Split(path)| :: Split(path)[i] == ".." then Err(ParentReference)
    else Ok(Unit.Unit)
  }

  /** The installer accepts what the artifact rule accepts, less its own internal names. */
  lemma InstallerIsStricter(id: string)
    ensures InstallerReleaseId(id).Ok? <==> ArtifactReleaseId(id).Ok? && !Internal(id)
  {
  }

  /** Different accepted pairs have different keys. */
  lemma KeysAreInjective(id: string, path: string, id': string, path': string)
    requires ArtifactReleaseId(id).Ok? && ArtifactReleaseId(id').Ok? && Key(id, path) == Key(id', path')
    ensures id == id' && path == path'
  {
    var n := |"releases/"|;
    var a, b := id + "/" + path, id' + "/" + path';
    assert Key(id, path)[n..] == a && Key(id', path')[n..] == b;
    assert a[|id|] == '/' && b[|id'|] == '/';
    assert id == a[..|id|] == b[..|id'|] == id';
    assert path == a[|id|+1..] == b[|id'|+1..] == path';
  }

  // ---------------------------------------------------------------- relative paths on the device

  /** One step of `lexically_normal` over the segments of a relative path. */
  function Reduce(stack: seq<string>, segments: seq<string>): (r: seq<string>)
    decreases |segments|
  {
    if segments == [] then stack
    else
      var s := segments[0];
      var next :=
        if s == "" || s == "." then stack
        else if s == ".." && stack != [] && stack[|stack|-1] != ".." then stack[..|stack|-1]
        else stack + [s];
      Reduce(next, segments[1..])
  }

  /** Deploy::validate_release_relative_path, on a POSIX file system. */
  function DeviceAcceptsPath(path: string): (r: Result<Unit, Refusal>) {
    if path == "" then Err(Empty)
    else if path[0] == '/' then Err(Absolute)
    else
      var normalized := Reduce([], Split(path));
      if normalized != [] && normalized[0] == ".." then Err(ParentReference) else Ok(Unit.Unit)
  }

  /** validateConfigurationPath of the REST API. */
  function ApiAcceptsPath(path: string): (r: Result<Unit, Refusal>) {
    if path == "" then Err(Empty)
    else if '\\' in path then Err(Backslash)
    else if "/" <= path || DriveLike(path) then Err(Absolute)
    else if exists i | 0 <= i < |Split(path)| :: Split(path)[i] == ".." then Err(ParentReference)
    else Ok(Unit.Unit)
  }

  function Join(segments: seq<string>): (r: string) {
    if segments == [] then ""
    else if |segments| == 1 then segments[0]
    else segments[0] + "/" + Join(segments[1..])
  }

  /** The file a relative path leads to, however it is spelled. */
  function Canonical(path: string): (r: string) { Join(Reduce([], Split(path))) }

  /** Where a walk along the segments leads, told from its last step. */
  lemma {:induction false} ReduceLast(stack: seq<string>, segments: seq<string>, s: string)
    ensures Reduce(stack, segments + [s]) ==
      var at := Reduce(stack, segments);
      if s == "" || s == "." then at
      else if s == ".." && at != [] && at[|at|-1] != ".." then at[..|at|-1]
      else at + [s]
    decreases |segments|
  {
    var all := segments + [s];
    if segments == [] {
      assert all[1..] == [];
    } else {
      assert all[0] == segments[0] && all[1..] == segments[1..] + [s];
      var t := segments[0];
      var next :=
        if t == "" || t == "." then stack
        else if t == ".." && stack != [] && stack[|stack|-1] != ".." then stack[..|stack|-1]
        else stack + [t];
      ReduceLast(next, segments[1..], s);
    }
  }

  /** The segments of a path, put together again, are the path. */
  lemma {:induction false} JoinSplit(s: string)
    ensures Split(s) != [] && Join(Split(s)) == s
    decreases |s|
  {
    SplitStep(s);
    hide Split;
    var i := FirstSlash(s);
    if i != -1 {
      JoinSplit(s[i+1..]);
      var rest := Split(s[i+1..]);
      assert ([s[..i]] + rest)[1..] == rest;
      assert s == s[..i] + "/" + s[i+1..];
    }
  }

  /** How far below its start a walk along the segments ends; negative is above it. */
  function Depth(segments: seq<string>): int {
    if segments == [] then 0
    else
      Depth(segments[..|segments|-1]) +
      var s := segments[|segments|-1];
      if s == "" || s == "." then 0 else if s == ".." then -1 else 1
  }

  /** No prefix of the walk leaves the directory it starts in. */
  ghost predicate StaysInside(segments: seq<string>) {
    forall k | 0 <= k <= |segments| :: Depth(segments[..k]) >= 0
  }

  lemma {:induction false} DepthCons(s: string, rest: seq<string>)
    ensures Depth([s] + rest) == Depth([s]) + Depth(rest)
    decreases |rest|
  {
    if rest == [] {
      assert [s] + rest == [s];
    } else {
      var all, init := [s] + rest, rest[..|rest|-1];
      assert all[..|all|-1] == [s] + init;
      DepthCons(s, init);
    }
  }

  lemma DepthTail(segments: seq<string>, k: nat)
    requires 0 < k <= |segments|
    ensures Depth(segments[..k]) == Depth([segments[0]]) + Depth(segments[1..][..k-1])
  {
    assert segments[..k] == [segments[0]] + segments[1..][..k-1];
    DepthCons(segments[0], segments[1..][..k-1]);
  }

  lemma {:induction false} KeepsClimbing(stack: seq<string>, segments: seq<string>)
    requires stack != [] && stack[0] == ".."
    ensures Reduce(stack, segments) != [] && Reduce(stack, segments)[0] == ".."
    decreases |segments|
  {
    if segments != [] {
      var s := segments[0];
      var next :=
        if s == "" || s == "." then stack
        else if s == ".." && stack != [] && stack[|stack|-1] != ".." then stack[..|stack|-1]
        else stack + [s];
      KeepsClimbing(next, segments[1..]);
    }
  }

  lemma {:induction false} ReduceClimbs(stack: seq<string>, segments: seq<string>)
    requires ".." !in stack
    ensures (Reduce(stack, segments) != [] && Reduce(stack, segments)[0] == "..")
      <==> exists k :: 0 <= k <= |segments| && |stack| + Depth(segments[..k]) < 0
    decreases |segments|
  {
    if segments != [] {
      var s, rest := segments[0], segments[1..];
      forall k | 0 < k <= |segments| ensures Depth(segments[..k]) == Depth([s]) + Depth(rest[..k-1]) {
        DepthTail(segments, k);
      }
      assert Depth([s]) == if s == "" || s == "." then 0 else if s == ".." then -1 else 1;
      if s == ".." && stack == [] {
        KeepsClimbing([".."], rest);
        assert stack + [s] == [".."] && rest[..0] == [];
        assert |stack| + Depth(segments[..1]) < 0;
      } else {
        var next := if s == "" || s == "." then stack else if s == ".." then stack[..|stack|-1] else stack + [s];
        ReduceClimbs(next, rest);
        if k :| 0 <= k <= |rest| && |next| + Depth(rest[..k]) < 0 {
          assert |stack| + Depth(segments[..k+1]) < 0;
        }
        if k :| 0 <= k <= |segments| && |stack| + Depth(segments[..k]) < 0 {
          assert |next| + Depth(rest[..k-1]) < 0;
        }
      }
    }
  }

  /** The device lets a path through exactly when it is relative and no prefix of it climbs above the
      release root. */
  lemma DeviceRuleMeansInside(path: string)
    ensures DeviceAcceptsPath(path).Ok? <==> path != "" && path[0] != '/' && StaysInside(Split(path))
  {
    if path != "" && path[0] != '/' {
      ReduceClimbs([], Split(path));
    }
  }

  lemma {:induction false} NoParentStaysInside(segments: seq<string>)
    requires ".." !in segments
    ensures StaysInside(segments)
    decreases |segments|
  {
    if segments != [] {
      var init := segments[..|segments|-1];
      NoParentStaysInside(init);
      forall k | 0 <= k <= |segments| ensures Depth(segments[..k]) >= 0 {
        if k < |segments| {
          assert segments[..k] == init[..k];
        } else {
          assert segments[..k] == segments && init[..|init|] == init;
        }
      }
    }
  }

  /** Whatever the API lets through the device lets through; the device also takes paths with `..`
      that stay inside, backslashes and drive letters. */
  lemma ApiPathIsDevicePath(path: string)
    ensures ApiAcceptsPath(path).Ok? <==>
      DeviceAcceptsPath(path).Ok? && ".." !in Split(path) && '\\' !in path && !DriveLike(path)
  {
    DeviceRuleMeansInside(path);
    if ".." !in Split(path) {
      NoParentStaysInside(Split(path));
    }
  }
}
