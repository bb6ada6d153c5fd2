/**
 * A JSON value (`serde_json::Value`). Only the values matter to the model:
 * parsing and printing JSON text are foreign and enter the model as
 * function parameters that may fail.
 */
module Json {

  datatype Value =
    | Null
    | Bool(b: bool)
    | Number(literal: string)
    | Str(s: string)
    | Array(items: seq<Value>)
    | Object(members: seq<(string, Value)>)

  /** `serde_json::Value::Object(Default::default())`, the object with no members. */
  const EmptyObject: Value := Object([])
}
