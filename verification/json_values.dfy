/** Decoded JSON values, as they come out of the hyperparameters file once
    its string encoding has been reversed. Only integral numbers are kept. */
module JsonValues {

  datatype Json =
    | JNull
    | JBool(b: bool)
    | JNumber(n: int)
    | JString(s: string)
    | JArray(items: seq<Json>)
    | JObject(fields: map<string, Json>)

  /** Python truthiness of the decoded value (`bool(v)`). */
  predicate Truthy(j: Json) {
    match j
    case JNull => false
    case JBool(b) => b
    case JNumber(n) => n != 0
    case JString(s) => s != ""
    case JArray(items) => |items| > 0
    case JObject(fields) => |fields| > 0
  }

  /** Name of the Python class the decoded value belongs to. */
  function TypeName(j: Json): string {
    match j
    case JNull => "NoneType"
    case JBool(_) => "bool"
    case JNumber(_) => "int"
    case JString(_) => "str"
    case JArray(_) => "list"
    case JObject(_) => "dict"
  }

  /** The message Python gives when `attr` is looked up on `j` and its
      class lacks it. */
  function NoAttributeMessage(j: Json, attr: string): string {
    "'" + TypeName(j) + "' object has no attribute '" + attr + "'"
  }
}
