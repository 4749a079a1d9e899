/** JSON values as the agent holds them, and their equality. */
module Json {
  import opened Wrappers
  import opened JsNumbers

  type FiniteDouble = d: Double | d.Zero? || d.Finite? witness Zero(false)

  /** A stored number: an integer keeps its integer form beside the double it
      reads as, so `1` and `1.0` are different values of equal number. */
  datatype Number = Int(i: int, asF64: FiniteDouble) | Float(asF64: FiniteDouble)

  /** An object is a finite map: equality ignores member order, and every loop
      over members below takes them in an arbitrary order. */
  datatype Value =
    | Null
    | Bool(flag: bool)
    | Num(number: Number)
    | Str(text: string)
    | Arr(items: seq<Value>)
    | Obj(members: map<string, Value>)

  /** A member of a schema; a schema that is not an object has none. */
  function Get(schema: Value, key: string): (r: Option<Value>)
    ensures r.Some? ==> schema.Obj? && key in schema.members && r.value == schema.members[key] && r.value < schema
  {
    if schema.Obj? && key in schema.members then Some(schema.members[key]) else None
  }

  function GetItems(schema: Value, key: string): (r: Option<seq<Value>>)
    ensures r.Some? ==> Get(schema, key) == Some(Arr(r.value)) && forall i | 0 <= i < |r.value| :: r.value[i] < schema
  {
    match Get(schema, key)
    case Some(Arr(items)) => Some(items)
    case _ => None
  }

  function GetMembers(schema: Value, key: string): (r: Option<map<string, Value>>)
    ensures r.Some? ==> Get(schema, key) == Some(Obj(r.value)) && forall k | k in r.value :: r.value[k] < schema
  {
    match Get(schema, key)
    case Some(Obj(members)) => Some(members)
    case _ => None
  }

  function GetText(schema: Value, key: string): Option<string> {
    match Get(schema, key)
    case Some(Str(text)) => Some(text)
    case _ => None
  }

  /** Equal values: two numbers are when their doubles are, and members may come in
      any order. */
  predicate JsonEqual(left: Value, right: Value)
    decreases left
  {
    match (left, right)
    case (Num(a), Num(b)) => SameNumber(a.asF64, b.asF64)
    case (Arr(a), Arr(b)) =>
      |a| == |b| && forall i | 0 <= i < |a| :: JsonEqual(a[i], b[i])
    case (Obj(a), Obj(b)) =>
      |a| == |b| && forall k | k in a :: k in b && JsonEqual(a[k], b[k])
    case _ => left == right
  }
}
