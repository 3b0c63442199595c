/** JSON values with Python's equality. Numbers are exact: a float is a fraction, never NaN and never rounded. */
module Json {

  type Positive = n: int | n > 0 witness 1

  datatype Json =
    | Null
    | Bool(b: bool)
    | Int(i: int)
    | Float(num: int, den: Positive)
    | Str(s: string)
    | List(items: seq<Json>)
    | Dict(entries: map<string, Json>)

  type Object = map<string, Json>

  predicate Numeric(j: Json) { j.Int? || j.Float? }

  /** bool is a subclass of int: `True == 1`. */
  predicate NumberLike(j: Json) { j.Bool? || Numeric(j) }

  function NumValue(j: Json): real
    requires NumberLike(j)
  {
    match j
    case Bool(b) => if b then 1.0 else 0.0
    case Int(i) => i as real
    case Float(num, den) => num as real / den as real
  }

  predicate Scalar(j: Json) { !j.List? && !j.Dict? }

  /** `a == b` */
  predicate PyEq(a: Json, b: Json) {
    if NumberLike(a) && NumberLike(b) then NumValue(a) == NumValue(b)
    else match (a, b)
      case (Null, Null) => true
      case (Str(s), Str(t)) => s == t
      case (List(xs), List(ys)) => |xs| == |ys| && forall i :: 0 <= i < |xs| ==> PyEq(xs[i], ys[i])
      case (Dict(m), Dict(n)) => m.Keys == n.Keys && forall k :: k in m ==> PyEq(m[k], n[k])
      case _ => false
  }

  /** `x in ys` for a list `ys` */
  predicate Member(x: Json, ys: seq<Json>) { exists i :: 0 <= i < |ys| && PyEq(x, ys[i]) }

  /** `type(a) is type(b)` */
  predicate SameType(a: Json, b: Json) {
    (a.Null? && b.Null?) || (a.Bool? && b.Bool?) || (a.Int? && b.Int?) || (a.Float? && b.Float?)
    || (a.Str? && b.Str?) || (a.List? && b.List?) || (a.Dict? && b.Dict?)
  }

  /** The type check before `eq` and `neq`: same type, or two numbers that are not bool. */
  predicate Comparable(a: Json, b: Json) { SameType(a, b) || (Numeric(a) && Numeric(b)) }

  /** The meaning of an `eq` constraint. */
  predicate TypedEq(a: Json, b: Json) { Comparable(a, b) && PyEq(a, b) }

  predicate Truthy(j: Json) {
    match j
    case Null => false
    case Bool(b) => b
    case Int(i) => i != 0
    case Float(num, _) => num != 0
    case Str(s) => s != ""
    case List(xs) => xs != []
    case Dict(m) => m != map[]
  }

  /** A value that is given is anything but null, false, zero and the empty string, list and object. */
  predicate Empty(j: Json) {
    j in {Null, Bool(false), Int(0), Str(""), List([]), Dict(map[])} || (j.Float? && j.num == 0)
  }

  lemma TruthyExactly(j: Json)
    ensures Truthy(j) <==> !Empty(j)
  {}

  // ---- Python's equality is an equivalence ----

  lemma {:induction false} PyEqReflexive(a: Json)
    ensures PyEq(a, a)
  {
    match a
    case List(xs) => forall i | 0 <= i < |xs| { PyEqReflexive(xs[i]); }
    case Dict(m) => forall k | k in m { PyEqReflexive(m[k]); }
    case _ =>
  }

  lemma {:induction false} PyEqSymmetric(a: Json, b: Json)
    requires PyEq(a, b)
    ensures PyEq(b, a)
  {
    match a
    case List(xs) => forall i | 0 <= i < |xs| { PyEqSymmetric(xs[i], b.items[i]); }
    case Dict(m) => forall k | k in m { PyEqSymmetric(m[k], b.entries[k]); }
    case _ =>
  }

  lemma {:induction false} PyEqTransitive(a: Json, b: Json, c: Json)
    requires PyEq(a, b) && PyEq(b, c)
    ensures PyEq(a, c)
  {
    match a
    case List(xs) => forall i | 0 <= i < |xs| { PyEqTransitive(xs[i], b.items[i], c.items[i]); }
    case Dict(m) => forall k | k in m { PyEqTransitive(m[k], b.entries[k], c.entries[k]); }
    case _ =>
  }

  /** No number and no bool anywhere inside. */
  predicate Numberless(j: Json) {
    match j
    case List(xs) => forall i :: 0 <= i < |xs| ==> Numberless(xs[i])
    case Dict(m) => forall k :: k in m ==> Numberless(m[k])
    case _ => !NumberLike(j)
  }

  /** It tells apart any two values that differ in more than how their numbers are written. */
  lemma {:induction false} PyEqIsEquality(a: Json, b: Json)
    requires Numberless(a)
    ensures PyEq(a, b) <==> a == b
  {
    match a
    case List(xs) => if b.List? && |b.items| == |xs| { forall i | 0 <= i < |xs| { PyEqIsEquality(xs[i], b.items[i]); } }
    case Dict(m) => if b.Dict? && b.entries.Keys == m.Keys { forall k | k in m { PyEqIsEquality(m[k], b.entries[k]); } }
    case _ =>
  }
}
