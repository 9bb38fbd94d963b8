/** JSON documents as `encoding/json` sees them when it decodes into a Go
    struct: unknown members are ignored, a missing member and `null` both
    leave the field at its zero value, a member of the wrong type makes
    `json.Unmarshal` return an error, and `null` at the top level decodes
    into the zero struct. Numbers are integers here. */
module GoJson {
  import opened Wrappers

  datatype Json =
    | JNull
    | JBool(b: bool)
    | JNum(n: int)
    | JStr(s: string)
    | JArr(items: seq<Json>)
    | JObj(fields: map<string, Json>)

  /** The bytes a decoder is handed: their text, and the document they hold
      (`None` when they are not valid JSON, no bytes at all included). */
  datatype Bytes = Bytes(raw: string, doc: Option<Json>)

  /** The members of an object; nothing for anything else. */
  function Members(j: Json): map<string, Json> {
    if j.JObj? then j.fields else map[]
  }

  /** A member as a struct field sees it: absent reads like `null`. */
  function Member(j: Json, name: string): (r: Json)
    ensures !j.JObj? ==> r == JNull
    ensures j.JObj? && name in j.fields ==> r == j.fields[name]
    ensures j.JObj? && name !in j.fields ==> r == JNull
  {
    var m := Members(j);
    if name in m then m[name] else JNull
  }

  /** Decodes into a struct (or leaves it at zero). */
  predicate StructOk(j: Json) {
    j.JNull? || j.JObj?
  }

  /** Decodes into a `string` field. */
  predicate StringOk(j: Json) {
    j.JNull? || j.JStr?
  }

  /** Decodes into an `int` field. */
  predicate IntOk(j: Json) {
    j.JNull? || j.JNum?
  }

  /** The value a `string` field receives. */
  function StringOf(j: Json): string {
    if j.JStr? then j.s else ""
  }

  /** The elements a slice field receives (`null` leaves it nil). */
  function Elements(j: Json): seq<Json> {
    if j.JArr? then j.items else []
  }

  /** Decodes into a slice field whose elements pass `elementOk`. */
  predicate SliceOk(j: Json, elementOk: Json -> bool) {
    j.JNull? || (j.JArr? && forall i :: 0 <= i < |j.items| ==> elementOk(j.items[i]))
  }

  /** A struct holding one string field `name`. */
  predicate StringFieldOk(j: Json, name: string) {
    StructOk(j) && StringOk(Member(j, name))
  }

  /** `json.Unmarshal(b, &s)` where `s` is a struct with one string field
      `name`: the field's value, or `None` for the error. */
  function DecodeStringField(b: Bytes, name: string): (r: Option<string>)
    ensures r.Some? <==> b.doc.Some? && StringFieldOk(b.doc.value, name)
    ensures b.doc.Some? && b.doc.value.JObj? && name in b.doc.value.fields && b.doc.value.fields[name].JStr? ==>
              r == Some(b.doc.value.fields[name].s)
    ensures r.Some? && b.doc.value.JObj? && name !in b.doc.value.fields ==> r == Some("")
  {
    match b.doc
    case None => None
    case Some(j) => if StringFieldOk(j, name) then Some(StringOf(Member(j, name))) else None
  }
}
