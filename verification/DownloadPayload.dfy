/** The payload of a download, from the REST API to the device: what the one lets through the other
    never refuses for its form, and digests compare whatever case they were sent in. */
module DownloadPayload {
  import opened Prelude
  import opened Json
  import opened Paths
  import opened ReleaseTree
  import opened Manifest
  import opened VerifiedFiles
  import opened AgentService
  import opened ConfigurationMerge

  datatype Artifact = Artifact(installPath: string, sha256: string)

  datatype PayloadError = NoArtifacts | BadKey(index: nat, refusal: Refusal) | BadDigest(index: nat)

  // ---------------------------------------------------------------- hexadecimal

  function LowerDigit(c: char): (r: char)
    requires IsHexDigit(c)
    ensures IsHexDigit(r) && DigitValue(r) == DigitValue(c)
  {
    if 'A' <= c <= 'F' then (c as int + 32) as char else c
  }

  /** `strings.ToLower` on hexadecimal text. */
  function Lower(s: string): (r: string)
    requires forall i | 0 <= i < |s| :: IsHexDigit(s[i])
    ensures |r| == |s| && forall i | 0 <= i < |r| :: IsHexDigit(r[i]) && !('A' <= r[i] <= 'F')
  {
    seq(|s|, i requires 0 <= i < |s| => LowerDigit(s[i]))
  }

  function DigitValue(c: char): (r: int)
    requires IsHexDigit(c)
    ensures 0 <= r < 16
  {
    if '0' <= c <= '9' then c as int - '0' as int
    else if 'a' <= c <= 'f' then c as int - 'a' as int + 10
    else c as int - 'A' as int + 10
  }

  function Digit(n: int): (r: char)
    requires 0 <= n < 16
    ensures IsHexDigit(r) && DigitValue(r) == n
  {
    "0123456789abcdef"[n]
  }

  /** `to_hex`: two lower-case digits a byte. */
  function ToHex(bytes: seq<byte>): (r: string)
    ensures |r| == 2 * |bytes|
  {
    if bytes == [] then ""
    else
      var b := bytes[0] as int;
      [Digit(b / 16), Digit(b % 16)] + ToHex(bytes[1..])
  }

  method ToHexLoop(bytes: seq<byte>) returns (hex: string)
    ensures hex == ToHex(bytes)
  {
    hex := "";
    for i := 0 to |bytes|
      invariant hex == ToHex(bytes[..i])
    {
      var b := bytes[i] as int;
      assert bytes[..i+1] == bytes[..i] + [bytes[i]];
      ToHexAppend(bytes[..i], bytes[i]);
      hex := hex + [Digit(b / 16)];
      hex := hex + [Digit(b % 16)];
    }
    assert bytes[..|bytes|] == bytes;
  }

  lemma {:induction false} ToHexAppend(bytes: seq<byte>, b: byte)
    ensures ToHex(bytes + [b]) == ToHex(bytes) + [Digit(b as int / 16), Digit(b as int % 16)]
    decreases |bytes|
  {
    if bytes != [] {
      assert (bytes + [b])[1..] == bytes[1..] + [b];
      ToHexAppend(bytes[1..], b);
    }
  }

  function FromHex(s: string): (r: seq<byte>)
    requires |s| % 2 == 0 && forall i | 0 <= i < |s| :: IsHexDigit(s[i])
    ensures |r| == |s| / 2
  {
    if s == "" then []
    else [(DigitValue(s[0]) * 16 + DigitValue(s[1])) as byte] + FromHex(s[2..])
  }

  lemma {:induction false} HexRoundTrip(s: string)
    requires |s| % 2 == 0 && forall i | 0 <= i < |s| :: IsHexDigit(s[i])
    ensures ToHex(FromHex(s)) == Lower(s)
    decreases |s|
  {
    hide IsHexDigit, LowerDigit, DigitValue, Digit, Lower;
    if s != "" {
      HexRoundTrip(s[2..]);
      PairRoundTrip(DigitValue(s[0]), DigitValue(s[1]), FromHex(s[2..]));
      LowerIsDigit(s[0]);
      LowerIsDigit(s[1]);
      LowerPair(s);
    }
  }

  lemma LowerPair(s: string)
    requires |s| >= 2 && forall i | 0 <= i < |s| :: IsHexDigit(s[i])
    ensures Lower(s) == [LowerDigit(s[0]), LowerDigit(s[1])] + Lower(s[2..])
  {
  }

  lemma PairRoundTrip(high: int, low: int, rest: seq<byte>)
    requires 0 <= high < 16 && 0 <= low < 16
    ensures ToHex([(high * 16 + low) as byte] + rest) == [Digit(high), Digit(low)] + ToHex(rest)
  {
    var bytes := [(high * 16 + low) as byte] + rest;
    assert bytes[1..] == rest;
    assert (high * 16 + low) / 16 == high && (high * 16 + low) % 16 == low;
  }

  lemma LowerIsDigit(c: char)
    requires IsHexDigit(c)
    ensures LowerDigit(c) == Digit(DigitValue(c))
  {
  }

  lemma {:induction false} FromToHex(bytes: seq<byte>)
    ensures forall i | 0 <= i < |ToHex(bytes)| :: IsHexDigit(ToHex(bytes)[i])
    ensures FromHex(ToHex(bytes)) == bytes
    decreases |bytes|
  {
    if bytes != [] {
      var b, rest := bytes[0] as int, ToHex(bytes[1..]);
      FromToHex(bytes[1..]);
      assert ToHex(bytes) == [Digit(b / 16), Digit(b % 16)] + rest;
      hide ToHex, Digit, DigitValue, IsHexDigit;
      FromPair(Digit(b / 16), Digit(b % 16), rest);
      assert DigitValue(Digit(b / 16)) * 16 + DigitValue(Digit(b % 16)) == b;
      assert [bytes[0]] + bytes[1..] == bytes;
    }
  }

  lemma FromPair(high: char, low: char, rest: string)
    requires IsHexDigit(high) && IsHexDigit(low)
    requires |rest| % 2 == 0 && forall i | 0 <= i < |rest| :: IsHexDigit(rest[i])
    ensures var s := [high, low] + rest;
      && |s| % 2 == 0 && (forall i | 0 <= i < |s| :: IsHexDigit(s[i]))
      && FromHex(s) == [(DigitValue(high) * 16 + DigitValue(low)) as byte] + FromHex(rest)
  {
    hide IsHexDigit, DigitValue;
    var s := [high, low] + rest;
    assert s[2..] == rest;
  }

  /** The device's comparison of texts is a comparison of digests, for a digest sent in any case. */
  lemma CaseDoesNotMatter(sent: string, digest: seq<byte>)
    requires IsSha256Hex(sent)
    ensures Lower(sent) == ToHex(digest) <==> FromHex(sent) == digest
    ensures |FromHex(sent)| == 32 && (IsSha256Hex(ToHex(digest)) <==> |digest| == 32)
  {
    HexRoundTrip(sent);
    FromToHex(digest);
    FromToHex(FromHex(sent));
    hide ToHex, FromHex, Lower;
    if Lower(sent) == ToHex(digest) {
      assert ToHex(FromHex(sent)) == ToHex(digest);
    }
  }

  // ---------------------------------------------------------------- the payload

  predicate Acceptable(id: string, artifact: Artifact) {
    ApiAcceptsArtifact(id, artifact.installPath).Ok? && IsSha256Hex(artifact.sha256)
  }

  method BuildPayload(id: string, artifacts: seq<Artifact>) returns (r: Result<seq<Artifact>, PayloadError>)
    ensures r.Ok? <==> artifacts != [] && forall i | 0 <= i < |artifacts| :: Acceptable(id, artifacts[i])
    ensures r.Ok? ==> Normalizes(artifacts, r.value)
    ensures r.Err? && r.error.BadKey? ==>
      && r.error.index < |artifacts|
      && ApiAcceptsArtifact(id, artifacts[r.error.index].installPath) == Err(r.error.refusal)
    ensures r.Err? && r.error.BadDigest? ==>
      r.error.index < |artifacts| && !IsSha256Hex(artifacts[r.error.index].sha256)
  {
    if |artifacts| == 0 {
      return Err(NoArtifacts);
    }
    var normalized: seq<Artifact> := [];
    for index := 0 to |artifacts|
      invariant forall i | 0 <= i < index :: Acceptable(id, artifacts[i])
      invariant Normalizes(artifacts[..index], normalized)
    {
      hide ApiAcceptsArtifact;
      var artifact := artifacts[index];
      var valid := ApiAcceptsArtifact(id, artifact.installPath);
      if valid.Err? {
        return Err(BadKey(index, valid.error));
      }
      if !IsSha256Hex(artifact.sha256) {
        return Err(BadDigest(index));
      }
      normalized := normalized + [artifact.(sha256 := Lower(artifact.sha256))];
    }
    assert artifacts[..|artifacts|] == artifacts;
    r := Ok(normalized);
  }

  /** The same artifacts, with their digests in lower case. */
  ghost predicate Normalizes(artifacts: seq<Artifact>, normalized: seq<Artifact>) {
    && |normalized| == |artifacts|
    && forall i | 0 <= i < |artifacts| ::
      && IsSha256Hex(artifacts[i].sha256)
      && normalized[i] == Artifact(artifacts[i].installPath, Lower(artifacts[i].sha256))
  }

  function Items(artifacts: seq<Artifact>): (r: seq<Json>)
    ensures |r| == |artifacts|
  {
    seq(|artifacts|, i requires 0 <= i < |artifacts| => Item(artifacts[i]))
  }

  function PayloadJson(id: string, artifacts: seq<Artifact>): Json {
    Object(map["release_id" := Text(id), "artifacts" := Array(Items(artifacts))])
  }

  /** What the device makes of a payload the API let through: every text ends at its first NUL, and what
      is left of it is checked again. */
  lemma DeviceTakesPayload(id: string, artifacts: seq<Artifact>, normalized: seq<Artifact>)
    requires artifacts != [] && (forall i | 0 <= i < |artifacts| :: Acceptable(id, artifacts[i]))
    requires Normalizes(artifacts, normalized)
    ensures DownloadOf(Some(PayloadJson(id, normalized))) ==
      if CStr(id) in {"", ".", ".."} then None else Some(Download(CStr(id), Items(normalized)))
    ensures CStr(id) !in {"", ".", ".."} ==> forall i | 0 <= i < |artifacts| ::
      var path := CStr(artifacts[i].installPath);
      EntryOf(CStr(id), Items(normalized)[i]) ==
        if path == "" || ".." in Split(path) then None
        else Some(Listing(CStr(id), Canonical(path), Lower(artifacts[i].sha256)))
  {
    assert Acceptable(id, artifacts[0]);
    ShorterId(id, artifacts[0].installPath);
    DownloadRead(id, normalized);
    hide Canonical, ApiAcceptsArtifact, EntryOf, DownloadOf, PayloadJson, ArtifactReleaseId;
    forall i | 0 <= i < |artifacts| && CStr(id) !in {"", ".", ".."}
      ensures var path := CStr(artifacts[i].installPath);
        EntryOf(CStr(id), Items(normalized)[i]) ==
          if path == "" || ".." in Split(path) then None
          else Some(Listing(CStr(id), Canonical(path), Lower(artifacts[i].sha256)))
    {
      assert Acceptable(id, artifacts[i]);
      EntryRead(CStr(id), normalized[i]);
      ShorterPath(id, artifacts[i].installPath);
    }
  }

  /** What the device makes of an update the API let through: the path ends at its first NUL, too. */
  lemma DeviceTakesUpdate(path: string, values: Members)
    requires ApiAcceptsPath(path).Ok?
    ensures UpdateOf(Some(UpdateJson(path, values))) ==
      if DeviceAcceptsPath(CStr(path)).Err? then None else Some(Update(Canonical(CStr(path)), values))
    ensures NoNul(path) ==> UpdateOf(Some(UpdateJson(path, values))) == Some(Update(Canonical(path), values))
  {
    ApiPathIsDevicePath(path);
    var members := UpdateJson(path, values).members;
    assert members["path"] == Text(path) && members["values"] == Object(values);
    hide Canonical, ApiAcceptsPath, DeviceAcceptsPath;
  }

  function UpdateJson(path: string, values: Members): Json {
    Object(map["path" := Text(path), "values" := Object(values)])
  }

  /** The release a command names is the id it was given, up to a NUL, if that is an id at all. */
  lemma DeviceTakesRelease(id: string)
    ensures VersionOf(Some(Object(map["release_id" := Text(id)]))) ==
      if ArtifactReleaseId(CStr(id)).Ok? then Some(CStr(id)) else None
  {
    hide ArtifactReleaseId;
    var members := map["release_id" := Text(id)];
    assert members["release_id"] == Text(id);
  }

  lemma DownloadRead(id: string, normalized: seq<Artifact>)
    requires normalized != []
    ensures DownloadOf(Some(PayloadJson(id, normalized))) ==
      if ArtifactReleaseId(CStr(id)).Err? then None else Some(Download(CStr(id), Items(normalized)))
  {
    hide ArtifactReleaseId;
    var members := PayloadJson(id, normalized).members;
    assert members["release_id"] == Text(id) && members["artifacts"] == Array(Items(normalized));
  }

  function Item(artifact: Artifact): Json {
    Object(map["install_path" := Text(artifact.installPath), "sha256" := Text(artifact.sha256)])
  }

  lemma EntryRead(id: CText, artifact: Artifact)
    requires IsSha256Hex(artifact.sha256)
    ensures var path := CStr(artifact.installPath);
      EntryOf(id, Item(artifact)) ==
        if ApiAcceptsArtifact(id, path).Err? then None else Some(Listing(id, Canonical(path), artifact.sha256))
  {
    hide Canonical, ApiAcceptsArtifact;
    var entry := Item(artifact).members;
    assert entry["install_path"] == Text(artifact.installPath) && entry["sha256"] == Text(artifact.sha256);
    assert NoNul(artifact.sha256);
  }

  /** The device takes the release and the files the API was given, exactly if none of these texts holds
      a NUL, which the API does not look for. */
  lemma DeviceReadsAsSent(id: string, artifacts: seq<Artifact>, normalized: seq<Artifact>)
    requires artifacts != [] && (forall i | 0 <= i < |artifacts| :: Acceptable(id, artifacts[i]))
    requires Normalizes(artifacts, normalized)
    ensures ReadAsSent(id, artifacts, normalized) <==>
      NoNul(id) && forall i | 0 <= i < |artifacts| :: NoNul(artifacts[i].installPath)
  {
    DeviceTakesPayload(id, artifacts, normalized);
    hide Canonical, ApiAcceptsArtifact, DownloadOf, EntryOf, Items, PayloadJson, NoNul;
    assert Acceptable(id, artifacts[0]);
    ShorterId(id, artifacts[0].installPath);
    forall i | 0 <= i < |artifacts|
      ensures Canonical(CStr(artifacts[i].installPath)) == Canonical(artifacts[i].installPath) <==>
        NoNul(artifacts[i].installPath)
      ensures NoNul(artifacts[i].installPath) ==>
        artifacts[i].installPath != "" && ".." !in Split(artifacts[i].installPath)
    {
      assert Acceptable(id, artifacts[i]);
      PathIsRelative(id, artifacts[i].installPath);
      NulShows(artifacts[i].installPath);
    }
  }

  ghost predicate ReadAsSent(id: string, artifacts: seq<Artifact>, normalized: seq<Artifact>)
    requires |normalized| == |artifacts|
  {
    && DownloadOf(Some(PayloadJson(id, normalized))).Some?
    && DownloadOf(Some(PayloadJson(id, normalized))).value.id == id
    && forall i | 0 <= i < |artifacts| ::
      EntryOf(CStr(id), Items(normalized)[i]) ==
        Some(Listing(id, Canonical(artifacts[i].installPath), normalized[i].sha256))
  }

  lemma ShorterId(id: string, path: string)
    requires ApiAcceptsArtifact(id, path).Ok?
    ensures ArtifactReleaseId(CStr(id)).Ok? <==> CStr(id) !in {"", ".", ".."}
    ensures NoNul(id) ==> CStr(id) == id && id !in {"", ".", ".."}
  {
  }

  lemma ShorterPath(id: string, path: string)
    requires ApiAcceptsArtifact(id, path).Ok? && CStr(id) !in {"", ".", ".."}
    ensures ApiAcceptsArtifact(CStr(id), CStr(path)).Ok? <==> CStr(path) != "" && ".." !in Split(CStr(path))
  {
    var shorter := CStr(path);
    hide Split, CStr;
    assert '\\' !in shorter && '/' !in CStr(id) && '\\' !in CStr(id);
    assert "/" <= shorter ==> "/" <= path;
  }

  lemma PathIsRelative(id: string, path: string)
    requires ApiAcceptsArtifact(id, path).Ok?
    ensures path != "" && ".." !in Split(path)
  {
  }

  ghost predicate HasNul(segments: seq<string>) {
    exists i :: 0 <= i < |segments| && '\0' in segments[i]
  }

  /** A NUL in a path without `..` shows in the file it leads to. */
  lemma NulShows(path: string)
    requires ".." !in Split(path)
    ensures Canonical(CStr(path)) == Canonical(path) <==> NoNul(path)
  {
    if !NoNul(path) {
      SplitNul(path);
      ReduceNul([], Split(path));
      JoinNul(Reduce([], Split(path)));
      SplitNul(CStr(path));
      ReduceFewer([], Split(CStr(path)));
      JoinNul(Reduce([], Split(CStr(path))));
      assert '\0' in Canonical(path) && '\0' !in Canonical(CStr(path));
    }
  }

  lemma {:induction false} SplitNul(s: string)
    ensures HasNul(Split(s)) <==> '\0' in s
    decreases |s|
  {
    SplitStep(s);
    var i := FirstSlash(s);
    if i == -1 {
      assert [s][0] == s;
    } else {
      SplitNul(s[i+1..]);
      HasNulCons(s[..i], Split(s[i+1..]));
      assert s == s[..i] + ['/'] + s[i+1..];
    }
  }

  lemma HasNulCons(s: string, rest: seq<string>)
    ensures HasNul([s] + rest) <==> '\0' in s || HasNul(rest)
  {
    if '\0' in s { assert '\0' in ([s] + rest)[0]; }
    if i :| 0 <= i < |rest| && '\0' in rest[i] { assert '\0' in ([s] + rest)[i+1]; }
  }

  lemma HasNulAppend(stack: seq<string>, s: string)
    ensures HasNul(stack + [s]) <==> HasNul(stack) || '\0' in s
  {
    if '\0' in s { assert '\0' in (stack + [s])[|stack|]; }
    if i :| 0 <= i < |stack| && '\0' in stack[i] { assert '\0' in (stack + [s])[i]; }
  }

  lemma {:induction false} ReduceNul(stack: seq<string>, segments: seq<string>)
    requires ".." !in segments
    ensures HasNul(Reduce(stack, segments)) <==> HasNul(stack) || HasNul(segments)
    decreases |segments|
  {
    if segments != [] {
      var s, rest := segments[0], segments[1..];
      assert segments == [s] + rest;
      HasNulCons(s, rest);
      HasNulAppend(stack, s);
      ReduceNul(if s == "" || s == "." then stack else stack + [s], rest);
    }
  }

  lemma {:induction false} ReduceFewer(stack: seq<string>, segments: seq<string>)
    requires !HasNul(stack) && !HasNul(segments)
    ensures !HasNul(Reduce(stack, segments))
    decreases |segments|
  {
    if segments != [] {
      var s, rest := segments[0], segments[1..];
      assert segments == [s] + rest;
      HasNulCons(s, rest);
      HasNulAppend(stack, s);
      if stack != [] {
        var init := stack[..|stack|-1];
        assert stack == init + [stack[|stack|-1]];
        HasNulAppend(init, stack[|stack|-1]);
      }
      var next :=
        if s == "" || s == "." then stack
        else if s == ".." && stack != [] && stack[|stack|-1] != ".." then stack[..|stack|-1]
        else stack + [s];
      ReduceFewer(next, rest);
    }
  }

  lemma {:induction false} JoinNul(segments: seq<string>)
    ensures '\0' in Join(segments) <==> HasNul(segments)
    decreases |segments|
  {
    if |segments| > 0 {
      assert segments == [segments[0]] + segments[1..];
      HasNulCons(segments[0], segments[1..]);
      JoinNul(segments[1..]);
    }
  }
}
