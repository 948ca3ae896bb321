/** JavaScript values as they arrive in HTTP response bodies, together with
    the two pieces of JavaScript semantics every page relies on: truthiness
    and own-property lookup. */
module Json {

  /** A JavaScript value. `Obj` is a plain object keyed by property name;
      `Date` is the object `new Date(source)` builds (the time value it
      denotes is left uninterpreted). `Num` abstracts a number to an integer. */
  datatype Value =
    | Undefined
    | Null
    | Bool(b: bool)
    | Num(n: int)
    | Str(s: string)
    | Arr(items: seq<Value>)
    | Obj(fields: map<string, Value>)
    | Date(source: Value)
  {
    /** `null` or `undefined`: reading a property of either throws a TypeError */
    predicate Nullish() {
      Undefined? || Null?
    }
  }

  /** JavaScript truthiness: `undefined`, `null`, `false`, `0` and `""` are
      falsy; every object (arrays and dates included) is truthy. */
  predicate Truthy(v: Value) {
    match v
    case Undefined => false
    case Null => false
    case Bool(b) => b
    case Num(n) => n != 0
    case Str(s) => s != ""
    case _ => true
  }

  /** Property lookup `v.key` for the data keys the pages read (`_id`,
      `token`, `expenses`, `revenue` and the like): a present key yields its
      value, a missing one `undefined`. Built-in members such as an array's
      `length` or an inherited `constructor` are never read and are not
      modelled. */
  function Get(v: Value, key: string): (r: Value)
    ensures v.Obj? && key in v.fields ==> r == v.fields[key]
    ensures !(v.Obj? && key in v.fields) ==> r == Undefined
  {
    match v
    case Obj(m) => if key in m then m[key] else Undefined
    case _ => Undefined
  }

  /** The `a || b` operator: `a` when it is truthy, `b` otherwise */
  function Or(a: Value, b: Value): (r: Value)
    ensures Truthy(a) ==> r == a
    ensures !Truthy(a) ==> r == b
  {
    if Truthy(a) then a else b
  }

  /** `data.key || data`: a list body that may or may not be wrapped in an
      object under `key` (src/pages/Expenses.jsx:38, src/pages/Sales.jsx:59). */
  function Unwrap(data: Value, key: string): (r: Value)
    ensures data.Arr? ==> r == data
    ensures Truthy(Get(data, key)) ==> r == data.fields[key]
    ensures !Truthy(Get(data, key)) ==> r == data
    ensures Truthy(data) ==> Truthy(r)
  {
    Or(Get(data, key), data)
  }
}
