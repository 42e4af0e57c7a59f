/**
 * JSON values as the two runtimes see them once decoded, and the two notions of
 * truthiness the source relies on: JavaScript's (`if (data.result)`) and
 * Python's (`if result:`, `if value and ...`).
 * Numbers are integers only; floating point is not part of this model.
 */
module Json {

  datatype Json =
    | JNull
    | JBool(b: bool)
    | JNum(n: int)
    | JStr(s: string)
    | JArr(items: seq<Json>)
    | JObj(members: map<string, Json>)

  /** A decoded JSON object (a Python `dict` with string keys). */
  type Object = map<string, Json>

  /** JavaScript ToBoolean: null, false, 0 and "" are falsy; every array and object is truthy. */
  predicate JsTruthy(v: Json)
  {
    match v
    case JNull => false
    case JBool(b) => b
    case JNum(n) => n != 0
    case JStr(s) => s != ""
    case JArr(_) => true
    case JObj(_) => true
  }

  /** Python truth value: None, False, 0, "", [] and {} are falsy. */
  predicate PyTruthy(v: Json)
  {
    match v
    case JNull => false
    case JBool(b) => b
    case JNum(n) => n != 0
    case JStr(s) => s != ""
    case JArr(items) => items != []
    case JObj(members) => members != map[]
  }

  /** The two notions differ exactly on empty containers. */
  lemma TruthinessDiffersOnlyOnEmptyContainers(v: Json)
    ensures JsTruthy(v) != PyTruthy(v) <==> v == JArr([]) || v == JObj(map[])
  {
  }
}
