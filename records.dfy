/** Documents as the document store holds them: a record maps field names to
    scalar values, and values are compared across types in the store's sort
    order. */
module Records {
  import opened Strings

  datatype Option<+T> = None | Some(value: T)

  /** A field value. The constructors are listed in the store's cross-type
      sort order: null, numbers, strings, booleans, dates (milliseconds since
      the epoch). */
  datatype Value = Null | Num(n: int) | Str(s: string) | Bool(b: bool) | Date(ms: int)

  /** A stored document, or the plain object a caller passes in. */
  type Record = map<string, Value>

  /** A field as a query or a sort sees it: a missing field reads as null. */
  function Field(r: Record, name: string): Value {
    if name in r then r[name] else Null
  }

  /** JavaScript truthiness of a value. */
  predicate Truthy(v: Value) {
    match v
    case Null => false
    case Num(n) => n != 0
    case Str(s) => s != ""
    case Bool(b) => b
    case Date(_) => true
  }

  function Rank(v: Value): nat {
    match v
    case Null => 0
    case Num(_) => 1
    case Str(_) => 2
    case Bool(_) => 3
    case Date(_) => 4
  }

  /** The store's order on values: by type first, then within the type. */
  predicate ValueLe(a: Value, b: Value) {
    if Rank(a) != Rank(b) then Rank(a) < Rank(b)
    else match (a, b)
      case (Num(x), Num(y)) => x <= y
      case (Str(x), Str(y)) => StrLe(x, y)
      case (Bool(x), Bool(y)) => !x || y
      case (Date(x), Date(y)) => x <= y
      case _ => true
  }

  lemma ValueLeTotal(a: Value, b: Value)
    ensures ValueLe(a, b) || ValueLe(b, a)
  {
    if a.Str? && b.Str? {
      StrLeTotal(a.s, b.s);
    }
  }

  lemma ValueLeTrans(a: Value, b: Value, c: Value)
    requires ValueLe(a, b) && ValueLe(b, c)
    ensures ValueLe(a, c)
  {
    if a.Str? && b.Str? && c.Str? {
      StrLeTrans(a.s, b.s, c.s);
    }
  }
}
