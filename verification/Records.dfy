/** The two records a device keeps on disk, as JSON documents: which release is active, and which
    process was started last. */
module Records {
  import opened Prelude
  import opened Json

  type Int64 = n: int | -TWO_63 <= n < TWO_63

  datatype RuntimeRecord = RuntimeRecord(releaseId: CText, processId: Int64, startToken: Uint64, bootIdentity: CText)

  datatype ActivationState = ActivationState(active: CText, previous: CText, updatedAt: CText)

  const NO_RECORD := RuntimeRecord("", 0, 0, "")
  const NO_ACTIVATION := ActivationState("", "", "")

  /** `static_cast<int64_t>` of an unsigned value, and back: two's complement. */
  function ToSigned(u: Uint64): (r: Int64) { if u < TWO_63 then u else u - TWO_64 }

  function ToUnsigned(i: Int64): (r: Uint64) { if i >= 0 then i else i + TWO_64 }

  function EncodeRecord(record: RuntimeRecord): Json {
    Object(map[
      "release_id" := Text(record.releaseId),
      "process_id" := Number(record.processId),
      "start_token" := Number(ToSigned(record.startToken)),
      "boot_identity" := Text(record.bootIdentity)])
  }

  function TextMember(members: map<string, Json>, key: string): CText {
    var found := StringMember(members, key);
    if found.Some? then found.value else ""
  }

  function Int64Member(members: map<string, Json>, key: string): Int64 {
    if key in members && IsInt64(members[key]) then members[key].number else 0
  }

  /** Fields that are missing or of another kind keep their defaults. */
  function DecodeRecord(members: map<string, Json>): RuntimeRecord {
    RuntimeRecord(
      TextMember(members, "release_id"),
      Int64Member(members, "process_id"),
      ToUnsigned(Int64Member(members, "start_token")),
      TextMember(members, "boot_identity"))
  }

  /** A record read back is the record written, for every start token. */
  lemma RecordRoundTrip(record: RuntimeRecord)
    ensures DecodeRecord(EncodeRecord(record).members) == record
  {
    var members := EncodeRecord(record).members;
    assert members["release_id"] == Text(record.releaseId);
    assert members["process_id"] == Number(record.processId);
    assert members["start_token"] == Number(ToSigned(record.startToken));
    assert members["boot_identity"] == Text(record.bootIdentity);
  }

  function EncodeState(state: ActivationState): Json {
    Object(map["active" := Text(state.active), "previous" := Text(state.previous),
      "updated_at" := Text(state.updatedAt)])
  }

  function DecodeState(members: map<string, Json>): ActivationState {
    ActivationState(TextMember(members, "active"), TextMember(members, "previous"), TextMember(members, "updated_at"))
  }

  lemma StateRoundTrip(state: ActivationState)
    ensures DecodeState(EncodeState(state).members) == state
  {
    var members := EncodeState(state).members;
    assert members["active"] == Text(state.active);
    assert members["previous"] == Text(state.previous);
    assert members["updated_at"] == Text(state.updatedAt);
  }
}
