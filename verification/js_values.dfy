/** The JavaScript values that reach a DTO field or a presenter. */
module JsValues {

  /**
   * A property value; `Undefined` is also what reading an absent property
   * yields. Arrays and objects come from a JSON request body.
   */
  datatype JsValue =
    | Undefined
    | Null
    | Str(s: string)
    | Num(n: int)
    | Bool(b: bool)
    | Date(epochMillis: int)
    | Arr(elements: seq<JsValue>)
    | Obj(properties: map<string, JsValue>)
}
