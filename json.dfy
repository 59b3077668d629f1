/**
 * Flat JSON values as the React pages hold them in state and send them in
 * request bodies, with the JavaScript coercions the pages rely on:
 * truthiness, `x || ''`, `parseInt` and `String`.
 */
module Json {
  import opened Common

  /** A flat JSON value. */
  datatype Value = Null | Bool(b: bool) | Num(n: int) | Str(s: string)

  type Record = map<string, Value>

  /** JavaScript truthiness of a JSON value. */
  predicate ValueTruthy(v: Value)
  {
    match v
    case Null => false
    case Bool(b) => b
    case Num(n) => n != 0
    case Str(s) => s != ""
  }

  /** `rec.key || ''` for a record member shown in a text input. */
  function FieldOrBlank(rec: Record, key: string): (v: Value)
    ensures key in rec && ValueTruthy(rec[key]) ==> v == rec[key]
    ensures !(key in rec && ValueTruthy(rec[key])) ==> v == Str("")
  {
    if key in rec && ValueTruthy(rec[key]) then rec[key] else Str("")
  }

  /** A numeric member of a record, `None` when the key is missing or holds anything but a JSON number. */
  function NumField(rec: Record, key: string): (r: Option<int>)
    ensures r.Some? <==> key in rec && rec[key].Num?
  {
    if key in rec && rec[key].Num? then Some(rec[key].n) else None
  }

  /** `parseInt(v, 10)` of a JSON value: a string is parsed, a whole number is itself, anything else is NaN. */
  function ParseValue(v: Value): (r: Option<int>)
    ensures v.Str? ==> r == ParseInt(v.s)
    ensures v.Num? ==> r == Some(v.n)
    ensures v.Null? || v.Bool? ==> r.None?
  {
    match v
    case Str(s) => ParseInt(s)
    case Num(n) => Some(n)
    case _ => None
  }

  /** Python's `int(v)` on a request value: `None` when it raises (`TypeError` or `ValueError`). */
  function PyInt(v: Value): (r: Option<int>)
    ensures v.Null? ==> r.None?
    ensures v.Num? ==> r == Some(v.n)
    ensures v.Str? ==> r == IntegerText(v.s)
  {
    match v
    case Null => None
    case Bool(b) => Some(if b then 1 else 0)
    case Num(n) => Some(n)
    case Str(s) => IntegerText(s)
  }

  /** `String(v)`, as a query-string value is written. */
  function ValueText(v: Value): (t: string)
    ensures v.Str? ==> t == v.s
    ensures v.Num? ==> t == IntToString(v.n)
  {
    match v
    case Null => "null"
    case Bool(b) => if b then "true" else "false"
    case Num(n) => IntToString(n)
    case Str(s) => s
  }

  /** `data.get(key, default)` on a request body. */
  function DataGet(rec: Record, key: string, default: Value): (v: Value)
    ensures key in rec ==> v == rec[key]
    ensures key !in rec ==> v == default
  {
    if key in rec then rec[key] else default
  }

  /** Python's `str(v)` of a decoded request value, as an f-string writes it. */
  function PyStr(v: Value): (t: string)
    ensures v.Null? ==> t == "None"
    ensures v.Str? ==> t == v.s
    ensures v.Num? ==> t == IntToString(v.n)
  {
    match v
    case Null => "None"
    case Bool(b) => if b then "True" else "False"
    case Num(n) => IntToString(n)
    case Str(s) => s
  }

  /** A request value stored into a nullable text column: `None` stays NULL, anything else is its text. */
  function StoredText(v: Value): (r: Option<string>)
    ensures r.None? <==> v.Null?
    ensures v.Str? ==> r == Some(v.s)
  {
    if v.Null? then None else Some(PyStr(v))
  }

  /** A page message: its text and its kind ("success", "danger", "error" or ""). */
  datatype Message = Message(text: string, kind: string)

  const NoMessage := Message("", "")

  /** The status line of the settings screens: its text, its Bootstrap variant, and whether it shows. */
  datatype SaveStatus = SaveStatus(message: string, variant: string, show: bool)

  const HiddenStatus := SaveStatus("", "", false)

  /** The text shown when a bulk save fails without a message of its own. */
  const BulkSaveFailed := "保存に失敗しました。"
}
