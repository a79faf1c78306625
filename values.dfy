/** JavaScript values, records and the answers of the remote batch-create call,
    as the record-cloning utilities see them. */
module JsValues {

  datatype Option<+T> = None | Some(value: T)

  /** A value held by one field of a record. Numbers are modelled as integers;
      `Obj` stands for any object value, told apart by its reference. */
  datatype Value =
    | Undefined
    | Null
    | Bool(b: bool)
    | Num(n: int)
    | Str(s: string)
    | Obj(ref: nat)

  /** JavaScript truthiness: what `if (v)` and `!v` test. */
  predicate Truthy(v: Value) {
    match v
    case Undefined => false
    case Null => false
    case Bool(b) => b
    case Num(n) => n != 0
    case Str(s) => s != ""
    case Obj(_) => true
  }

  function DigitChar(d: nat): char
    requires d < 10
  {
    "0123456789"[d]
  }

  function NatToString(n: nat): (s: string)
    ensures |s| > 0
  {
    if n < 10 then [DigitChar(n)] else NatToString(n / 10) + [DigitChar(n % 10)]
  }

  /** `String(v)`: the text a template literal inserts, and the property key
      that `obj[v]` looks up. */
  function ToJsString(v: Value): string {
    match v
    case Undefined => "undefined"
    case Null => "null"
    case Bool(b) => if b then "true" else "false"
    case Num(n) => if n < 0 then "-" + NatToString(-n) else NatToString(n)
    case Str(s) => s
    case Obj(_) => "[object Object]"
  }

  /** A record is a plain object from field name to value. */
  type Record = map<string, Value>

  /** `r[field]`, which is `undefined` for a missing field. */
  function Get(r: Record, field: string): Value {
    if field in r then r[field] else Undefined
  }

  /** One answer of the destination's batch create: `{success, id?, errors?}`;
      an absent `errors` array is the empty sequence, each error is its message. */
  datatype SaveResult = SaveResult(success: bool, id: Option<string>, errors: seq<string>)

  /** The remote `create` call. It is given the number of create calls made
      before it (standing for the destination's state, which those calls changed)
      and the batch, and answers with a list of results. */
  type Oracle = (nat, seq<Record>) -> seq<SaveResult>

  /** The destination answers every batch with one result per submitted record. */
  ghost predicate OneResultPerRecord(create: Oracle) {
    forall k: nat, batch: seq<Record> :: |create(k, batch)| == |batch|
  }
}
