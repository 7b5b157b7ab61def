/**
 * The few JavaScript value semantics the SQL service relies on: the values a
 * request carries, which of them are truthy, the text a template literal
 * inserts for them, rows as records of named values, and TypeError as the
 * failure of a property access on `undefined`.
 */
module Js {
  import opened Text

  datatype Option<+T> = None | Some(value: T)

  /** A property read on `undefined` throws a TypeError; `what` names the access. */
  datatype JsError = TypeError(what: string)

  datatype Result<+T> = Ok(value: T) | Err(error: JsError) {
    predicate IsFailure() { Err? }

    function PropagateFailure<U>(): Result<U>
      requires Err?
    {
      Err(error)
    }

    function Extract(): T
      requires Ok?
    {
      value
    }
  }

  /** A JSON value as it reaches the server; numbers are integers in this model. */
  datatype JsValue = Undefined | Null | Str(s: string) | Num(n: int) | Bool(b: bool)

  /** JavaScript truthiness: `undefined`, `null`, `""`, `0` and `false` are falsy. */
  predicate Truthy(v: JsValue)
  {
    match v
    case Undefined => false
    case Null => false
    case Str(s) => s != ""
    case Num(n) => n != 0
    case Bool(b) => b
  }

  /** What `${v}` inserts into a template literal. */
  function ToText(v: JsValue): (r: string)
    ensures v.Str? ==> r == v.s
    ensures v.Num? ==> ParseInt(r) == v.n
    ensures !v.Str? ==> r != ""
  {
    match v
    case Undefined => "undefined"
    case Null => "null"
    case Str(s) => s
    case Num(n) => ParseIntToString(n); IntToString(n)
    case Bool(b) => if b then "true" else "false"
  }

  /** What `${x}` inserts for an optional string field: "undefined" when it is absent. */
  function OptText(x: Option<string>): (r: string)
    ensures x.Some? ==> r == x.value
    ensures x.None? ==> r == "undefined"
  {
    match x
    case None => "undefined"
    case Some(s) => s
  }

  /** `xs[k]`, which is `undefined` past the end. */
  function At(xs: seq<JsValue>, k: nat): (r: JsValue)
    ensures k >= |xs| ==> r == Undefined
    ensures k < |xs| ==> r == xs[k]
  {
    if k < |xs| then xs[k] else Undefined
  }

  /** A result row: field names to values. */
  type Row = map<string, JsValue>

  /** `row[key]`, which is `undefined` for a missing field. */
  function Get(row: Row, key: string): (r: JsValue)
    ensures key in row ==> r == row[key]
    ensures key !in row ==> r == Undefined
  {
    if key in row then row[key] else Undefined
  }

  /** The query backend: runs a SQL string and returns the rows it yields. */
  type Db = string -> seq<Row>
}
