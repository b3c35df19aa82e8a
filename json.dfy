/** JSON values as the dispatcher sees them: request bodies it merges fields
    into, and payloads that `response.json()` yields. */
module Json {
  import opened Wrappers

  /** A JSON value. Numbers are integers here (no fractions, no NaN). */
  datatype Value =
    | Null
    | Bool(b: bool)
    | Num(n: int)
    | Str(s: string)
    | Arr(items: seq<Value>)
    | Obj(fields: map<string, Value>)

  /** The empty object `{}`. */
  const EmptyObject: Value := Obj(map[])

  /** JavaScript truthiness of a value. */
  predicate Truthy(v: Value) {
    match v
    case Null => false
    case Bool(b) => b
    case Num(n) => n != 0
    case Str(s) => s != ""
    case Arr(_) => true
    case Obj(_) => true
  }

  /** Property access `v.name`: a present field of an object, `None` (undefined)
      for a missing field or a non-object. Reading a property of `null` throws in
      JavaScript; callers decide that case before calling this. */
  function Field(v: Value, name: string): Option<Value>
  {
    if v.Obj? && name in v.fields then Some(v.fields[name]) else None
  }

  /** The decimal digit for `d`. */
  function Digit(d: nat): char
    requires d < 10
  {
    "0123456789"[d]
  }

  /** The decimal text of `n`, as a JavaScript template literal prints a number. */
  function Decimal(n: nat): string
  {
    if n < 10 then [Digit(n)] else Decimal(n / 10) + [Digit(n % 10)]
  }

  /** The fields that object spread `{...v}` contributes: an object's own
      fields, an array's elements under their decimal indices. */
  function SpreadFields(v: Value): map<string, Value>
  {
    match v
    case Obj(fields) => fields
    case Arr(items) => IndexFields(items, 0)
    case _ => map[]
  }

  /** The elements of `items` from index `i` on, keyed by their decimal index. */
  function IndexFields(items: seq<Value>, i: nat): map<string, Value>
    requires i <= |items|
    decreases |items| - i
  {
    if i == |items| then map[] else IndexFields(items, i + 1)[Decimal(i) := items[i]]
  }
}
