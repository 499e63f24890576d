/** JSON values as the device's parser hands them over.
    Object members are a finite map: the order of members is not represented. */
module Json {
  import opened Prelude

  datatype Json =
    | Null
    | Bool(flag: bool)
    | Number(number: int)
    | Text(text: string)
    | Array(items: seq<Json>)
    | Object(members: map<string, Json>)

  /** The parser keeps an integer as int64 exactly when it fits; larger ones become uint64. */
  predicate IsInt64(j: Json) {
    j.Number? && -TWO_63 <= j.number < TWO_63
  }

  function StringMember(members: map<string, Json>, key: string): (r: Option<CText>) {
    if key in members && members[key].Text? then Some(CStr(members[key].text)) else None
  }
}
