/** The JSON tree through which payloads travel, with JsonNode's two navigation primitives. */
module Json {
  import opened Wrappers

  datatype Json =
    | JNull
    | JBool(b: bool)
    | JNum(n: int)
    | JStr(s: string)
    | JArr(items: seq<Json>)
    | JObj(fields: map<string, Json>)

  /** `JsonNode.get(fieldName)`: the field's node, or null when the node is not an object or has no such field. */
  function Get(node: Json, key: string): Option<Json> {
    if node.JObj? && key in node.fields then Some(node.fields[key]) else None
  }

  /** `JsonNode.elements()` on an array node: its items in order; a scalar node has none. */
  function Elements(node: Json): seq<Json> {
    if node.JArr? then node.items else []
  }
}
