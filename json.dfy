/** The JSON values that the upstream site's endpoints answer with, and the
    JavaScript operations the client applies to them: optional property access
    (`data?.key`), truthiness, strict comparison with a string and
    template-literal interpolation. */
module Json {
  import opened Common
  import opened Text

  datatype Json =
    | JNull
    | JBool(b: bool)
    | JNum(n: int)
    | JStr(s: string)
    | JArr(items: seq<Json>)
    | JObj(fields: map<string, Json>)

  /** `d?.key`, with `None` standing for `undefined`. */
  function Prop(d: Json, key: string): Option<Json>
  {
    if d.JObj? && key in d.fields then Some(d.fields[key]) else None
  }

  /** Truthiness of a JSON value that may be `undefined`. Non-integral
      numbers (and so `NaN`) are not part of this model. */
  predicate JsonTruthy(v: Option<Json>)
  {
    match v
    case None => false
    case Some(JNull) => false
    case Some(JBool(b)) => b
    case Some(JNum(n)) => n != 0
    case Some(JStr(s)) => s != ""
    case Some(JArr(_)) => true
    case Some(JObj(_)) => true
  }

  /** `String(n)` for an integer. */
  function IntString(n: int): string
  {
    if n < 0 then "-" + Decimal(-n) else Decimal(n)
  }

  /** `${v}`: arrays print their elements joined by commas (with `null`
      elements as empty strings), objects print as `[object Object]`. */
  function Interp(v: Json): string
  {
    match v
    case JNull => "null"
    case JBool(b) => if b then "true" else "false"
    case JNum(n) => IntString(n)
    case JStr(s) => s
    case JArr(items) =>
      JoinCommas(seq(|items|, i requires 0 <= i < |items| =>
        if items[i].JNull? then "" else Interp(items[i])))
    case JObj(_) => "[object Object]"
  }

  function JoinCommas(parts: seq<string>): string
  {
    if parts == [] then "" else Join(parts, ',')
  }
}
