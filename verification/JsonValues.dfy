/** JSON values as the streaming code inspects them: dictionaries, text, null, and everything else. */
module JsonValues {
  import opened Prelude

  /** `Other` stands for numbers, booleans and arrays, by their text and truth value. */
  datatype Json = Null | Str(s: string) | Obj(fields: map<string, Json>) | Other(text: string, truthy: bool)

  predicate Truthy(j: Json) {
    match j
    case Null => false
    case Str(s) => s != ""
    case Obj(fields) => fields != map[]
    case Other(_, truthy) => truthy
  }

  /** `fields.get(name)`; a stored null and a missing field are told apart by the caller. */
  function Field(fields: map<string, Json>, name: string): Option<Json> {
    if name in fields then Some(fields[name]) else None
  }

  /** `str(j)`; the text of a dictionary is left abstract. */
  function TextOf(j: Json): string {
    match j
    case Null => "None"
    case Str(s) => s
    case Obj(_) => "{...}"
    case Other(text, _) => text
  }

  /** A message value that the consumers accept: a dictionary with a type. */
  predicate IsEvent(j: Json) {
    j.Obj? && "type" in j.fields
  }

  /** The id under which an event is deduplicated; empty when there is none. */
  function EventId(j: Json): string
    requires IsEvent(j)
  {
    if "id" in j.fields && Truthy(j.fields["id"]) then TextOf(j.fields["id"]) else ""
  }

  /** The message is an event whose payload carries this id, as text or as a number with this text. */
  predicate Names(j: Json, id: string) {
    && id != "" && j.Obj? && "type" in j.fields && "id" in j.fields
    && (j.fields["id"] == Str(id) || j.fields["id"] == Other(id, true))
  }

  /** An event is deduplicated under the id in its payload, and under none if it has none. */
  lemma EventIdIs(j: Json, id: string)
    ensures Names(j, id) ==> IsEvent(j) && EventId(j) == id
    ensures IsEvent(j) && "id" in j.fields && id != "" && j.fields["id"] in {Str(id), Other(id, true)} ==> Names(j, id)
    ensures IsEvent(j) && ("id" !in j.fields || j.fields["id"] in {Null, Str("")}) ==> EventId(j) == ""
  {
  }
}
