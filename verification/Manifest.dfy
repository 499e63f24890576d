/** The release manifest: built by the CLI, stored as JSON text, parsed again. */
module Manifest {
  import opened Prelude
  import opened Json

  datatype ArtifactEntry = ArtifactEntry(installPath: string, sha256: string, sizeBytes: Uint64)

  datatype Manifest = Manifest(releaseId: string, createdAt: string, artifacts: seq<ArtifactEntry>)

  datatype ParseError = NotAnObject | FieldMissing(key: string) | FieldEmpty(key: string) | MalformedSha256

  const SHA256_HEX_LENGTH := 64

  predicate IsHexDigit(c: char) {
    '0' <= c <= '9' || 'a' <= c <= 'f' || 'A' <= c <= 'F'
  }

  predicate IsSha256Hex(value: string) {
    |value| == SHA256_HEX_LENGTH && forall i | 0 <= i < |value| :: IsHexDigit(value[i])
  }

  function EntryJson(entry: ArtifactEntry): Json {
    Object(map["install_path" := Text(entry.installPath), "sha256" := Text(entry.sha256),
      "size_bytes" := Number(entry.sizeBytes)])
  }

  function Entries(artifacts: seq<ArtifactEntry>): (r: seq<Json>) {
    seq(|artifacts|, i requires 0 <= i < |artifacts| => EntryJson(artifacts[i]))
  }

  function ToJson(manifest: Manifest): Json {
    Object(map[
      "release_id" := Text(manifest.releaseId),
      "created_at" := Text(manifest.createdAt),
      "artifacts" := Array(Entries(manifest.artifacts))])
  }

  /** The loop of `serialize` over the artifacts. */
  method Serialize(manifest: Manifest) returns (document: Json)
    ensures document == ToJson(manifest)
  {
    var items := [];
    for i := 0 to |manifest.artifacts|
      invariant items == Entries(manifest.artifacts[..i])
    {
      items := items + [EntryJson(manifest.artifacts[i])];
    }
    assert manifest.artifacts[..|manifest.artifacts|] == manifest.artifacts;
    document := Object(map[
      "release_id" := Text(manifest.releaseId),
      "created_at" := Text(manifest.createdAt),
      "artifacts" := Array(items)]);
  }

  // ---------------------------------------------------------------- parsing

  function ParseEntry(item: Json): (r: Result<ArtifactEntry, ParseError>) {
    if !item.Object? then Err(NotAnObject)
    else
      var path := StringMember(item.members, "install_path");
      var sha := StringMember(item.members, "sha256");
      if path.None? then Err(FieldMissing("install_path"))
      else if path.value == "" then Err(FieldEmpty("install_path"))
      else if sha.None? then Err(FieldMissing("sha256"))
      else if !IsSha256Hex(sha.value) then Err(MalformedSha256)
      else
        var size := if "size_bytes" in item.members && IsInt64(item.members["size_bytes"])
                    then item.members["size_bytes"].number % TWO_64 else 0;
        Ok(ArtifactEntry(path.value, sha.value, size))
  }

  /** Every entry of a list parses, to the entries of `artifacts`. */
  ghost predicate ParsesTo(items: seq<Json>, artifacts: seq<ArtifactEntry>) {
    |items| == |artifacts| && forall i | 0 <= i < |items| :: ParseEntry(items[i]) == Ok(artifacts[i])
  }

  /** What `parse` accepts, and what it makes of it. */
  ghost predicate Accepts(document: Json, manifest: Manifest) {
    && document.Object?
    && StringMember(document.members, "release_id") == Some(manifest.releaseId) && manifest.releaseId != ""
    && StringMember(document.members, "created_at") == Some(manifest.createdAt)
    && "artifacts" in document.members && document.members["artifacts"].Array?
    && ParsesTo(document.members["artifacts"].items, manifest.artifacts)
  }

  method Parse(document: Json) returns (r: Result<Manifest, ParseError>)
    ensures r.Ok? ==> Accepts(document, r.value)
    ensures r.Err? ==> forall m :: !Accepts(document, m)
  {
    if !document.Object? { return Err(NotAnObject); }
    var releaseId := StringMember(document.members, "release_id");
    if releaseId.None? { return Err(FieldMissing("release_id")); }
    if releaseId.value == "" { return Err(FieldEmpty("release_id")); }
    var createdAt := StringMember(document.members, "created_at");
    if createdAt.None? { return Err(FieldMissing("created_at")); }
    if "artifacts" !in document.members || !document.members["artifacts"].Array? {
      return Err(FieldMissing("artifacts"));
    }
    var items := document.members["artifacts"].items;
    var artifacts := [];
    for i := 0 to |items|
      invariant ParsesTo(items[..i], artifacts)
    {
      var entry := ParseEntry(items[i]);
      if entry.Err? { return Err(entry.error); }
      artifacts := artifacts + [entry.value];
    }
    assert items[..|items|] == items;
    r := Ok(Manifest(releaseId.value, createdAt.value, artifacts));
  }

  // ---------------------------------------------------------------- the round trip

  predicate WellFormedEntry(entry: ArtifactEntry) {
    && entry.installPath != "" && NoNul(entry.installPath)
    && NoNul(entry.sha256) && IsSha256Hex(entry.sha256)
  }

  /** What a manifest needs in order to survive being stored. */
  predicate Survives(manifest: Manifest) {
    && manifest.releaseId != "" && NoNul(manifest.releaseId) && NoNul(manifest.createdAt)
    && (forall i | 0 <= i < |manifest.artifacts| ::
          WellFormedEntry(manifest.artifacts[i]) && manifest.artifacts[i].sizeBytes < TWO_63)
  }

  /** An entry whose size needs the 64th bit comes back with size 0. */
  lemma EntryRoundTrip(entry: ArtifactEntry)
    ensures WellFormedEntry(entry) ==>
      ParseEntry(EntryJson(entry)) == Ok(entry.(sizeBytes := if entry.sizeBytes < TWO_63 then entry.sizeBytes else 0))
    ensures ParseEntry(EntryJson(entry)) == Ok(entry) <==> WellFormedEntry(entry) && entry.sizeBytes < TWO_63
  {
    var members := EntryJson(entry).members;
    assert members["install_path"] == Text(entry.installPath);
    assert members["sha256"] == Text(entry.sha256);
    assert members["size_bytes"] == Number(entry.sizeBytes);
  }

  /** Parsing what was serialized gives the same manifest back exactly when nothing in it is cut
      short by `c_str()`, every entry is well formed and every size fits a signed 64-bit integer. */
  lemma ManifestRoundTrip(manifest: Manifest)
    ensures Accepts(ToJson(manifest), manifest) <==> Survives(manifest)
  {
    var members := ToJson(manifest).members;
    assert members["release_id"] == Text(manifest.releaseId);
    assert members["created_at"] == Text(manifest.createdAt);
    assert members["artifacts"] == Array(Entries(manifest.artifacts));
    forall i | 0 <= i < |manifest.artifacts| {
      EntryRoundTrip(manifest.artifacts[i]);
    }
  }

  /** `parse` has one answer, so the manifest that comes back is the only one. */
  lemma ParseIsAFunction(document: Json, a: Manifest, b: Manifest)
    requires Accepts(document, a) && Accepts(document, b)
    ensures a == b
  {
    forall i | 0 <= i < |a.artifacts| ensures a.artifacts[i] == b.artifacts[i] {
      assert ParseEntry(document.members["artifacts"].items[i]) == Ok(a.artifacts[i]);
    }
  }
}
