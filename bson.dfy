/** The slice of BSON value semantics the aggregation pipelines rely on: the
    comparison order across types, truthiness inside `$and`, and `$ifNull`. */
module Bson {
  import opened Results
  import opened Records

  /** A field value as an aggregation expression sees it. */
  datatype Value = Missing | Null | Num(n: int) | Str(s: string) | Bool(b: bool) | Date(ms: int)

  /** Position of a value's type in BSON comparison order
      (null < numbers < strings < booleans < dates). */
  function Rank(v: Value): nat {
    match v
    case Missing => 0
    case Null => 1
    case Num(_) => 2
    case Str(_) => 3
    case Bool(_) => 4
    case Date(_) => 5
  }

  function Sign(d: int): int {
    if d < 0 then -1 else if d > 0 then 1 else 0
  }

  /** Code-point order on strings. */
  function StrCmp(a: string, b: string): int {
    if a == [] && b == [] then 0
    else if a == [] then -1
    else if b == [] then 1
    else if a[0] != b[0] then (if a[0] < b[0] then -1 else 1)
    else StrCmp(a[1..], b[1..])
  }

  /** Three-way comparison: -1, 0 or 1. Values of different types compare by type rank. */
  function Cmp(a: Value, b: Value): int {
    if Rank(a) != Rank(b) then (if Rank(a) < Rank(b) then -1 else 1)
    else match (a, b)
      case (Num(x), Num(y)) => Sign(x - y)
      case (Date(x), Date(y)) => Sign(x - y)
      case (Str(x), Str(y)) => StrCmp(x, y)
      case (Bool(x), Bool(y)) => if x == y then 0 else if y then -1 else 1
      case _ => 0
  }

  predicate Gt(a: Value, b: Value) { Cmp(a, b) > 0 }
  predicate Gte(a: Value, b: Value) { Cmp(a, b) >= 0 }
  predicate Eq(a: Value, b: Value) { Cmp(a, b) == 0 }
  predicate Ne(a: Value, b: Value) { Cmp(a, b) != 0 }

  /** What `$and` makes of an operand: false, null, 0 and a missing field are false. */
  predicate Truthy(v: Value) {
    !(v.Missing? || v.Null? || v == Num(0) || v == Bool(false))
  }

  /** `{$ifNull: [v, d]}`. */
  function IfNull(v: Value, d: Value): Value {
    if v.Missing? || v.Null? then d else v
  }

  /** A timestamp field as stored: a Date, or missing. */
  function StampValue(s: Stamp): Value {
    match s
    case None => Missing
    case Some(t) => Date(t)
  }

  function TextValue(s: Option<string>): Value {
    match s
    case None => Missing
    case Some(t) => Str(t)
  }

  function FlagValue(s: Option<bool>): Value {
    match s
    case None => Missing
    case Some(b) => Bool(b)
  }

  /** A timestamp after the pipeline's `{$ifNull: [field, 0]}` substitution. */
  function Stamped(s: Stamp): Value {
    IfNull(StampValue(s), Num(0))
  }

  /** Substituting the number 0 for an absent timestamp places it below every
      Date, so comparisons after `$ifNull` agree with `Earlier` on stamps. */
  lemma StampedOrder(a: Stamp, b: Stamp)
    ensures Gt(Stamped(b), Stamped(a)) <==> Earlier(a, b)
    ensures Eq(Stamped(a), Stamped(b)) <==> a == b
    ensures Truthy(Stamped(a)) <==> a.Some?
  {
  }
}
