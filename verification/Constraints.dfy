/** packages/delegation_fabric_core/constraints/engine.py: the argument constraint engine. */
module Constraints {
  import opened Text
  import opened Json
  import opened Reasons

  const MAX_NESTING_DEPTH := 5
  const MAX_REGEX_LENGTH := 200

  datatype Op = Eq | Neq | In | NotIn | Lt | Lte | Gt | Gte | Prefix | SubsetOf | Matches | Exists

  datatype Constraint = Constraint(path: string, op: Op, value: Json)

  /** Regular-expression search is a library call: any function of pattern and text. */
  datatype RegexResult = Malformed | Found | NotFound
  type Regex = (string, string) -> RegexResult

  /** `Raised` is the TypeError of hashing a list or an object. */
  datatype Decision = Allowed | Denied(code: Reason, path: string) | Raised

  // ---- paths ----

  /** One step of a path: an object member, or a list item named by a decimal index. */
  predicate IsChild(parent: Json, part: string, child: Json) {
    match parent
    case Dict(m) => part in m && m[part] == child
    case List(xs) => PyInt(part).Some? && 0 <= PyInt(part).value < |xs| && xs[PyInt(part).value] == child
    case _ => false
  }

  ghost predicate IsChain(chain: seq<Json>, data: Json, parts: seq<string>, v: Json) {
    && |chain| == |parts| + 1 && chain[0] == data && chain[|parts|] == v
    && forall i :: 0 <= i < |parts| ==> IsChild(chain[i], parts[i], chain[i + 1])
  }

  /** `v` is at the end of a chain of children named by `parts`. */
  ghost predicate Reaches(data: Json, parts: seq<string>, v: Json) {
    exists chain: seq<Json> :: IsChain(chain, data, parts, v)
  }

  ghost predicate Resolves(data: Json, path: string, v: Json) {
    path != "" && |SplitDots(path)| <= 5 && Reaches(data, SplitDots(path), v)
  }

  function Step(data: Json, part: string): Option<Json> {
    match data
    case Dict(m) => if part in m then Some(m[part]) else None
    case List(xs) =>
      (match PyInt(part)
       case Some(i) => if 0 <= i < |xs| then Some(xs[i]) else None
       case None => None)
    case _ => None
  }

  function Walk(data: Json, parts: seq<string>): Option<Json> {
    if parts == [] then Some(data)
    else match Step(data, parts[0])
      case Some(child) => Walk(child, parts[1..])
      case None => None
  }

  function Lookup(data: Json, path: string): Option<Json> {
    if path == "" || |SplitDots(path)| > MAX_NESTING_DEPTH then None else Walk(data, SplitDots(path))
  }

  lemma {:induction false} WalkReaches(data: Json, parts: seq<string>, v: Json)
    requires Walk(data, parts) == Some(v)
    ensures Reaches(data, parts, v)
  {
    if parts == [] {
      assert IsChain([data], data, parts, v);
    } else {
      var child := Step(data, parts[0]).value;
      WalkReaches(child, parts[1..], v);
      var chain :| IsChain(chain, child, parts[1..], v);
      assert IsChain([data] + chain, data, parts, v);
    }
  }

  lemma {:induction false} ReachesWalk(chain: seq<Json>, data: Json, parts: seq<string>, v: Json)
    requires IsChain(chain, data, parts, v)
    ensures Walk(data, parts) == Some(v)
  {
    if parts != [] {
      assert IsChild(chain[0], parts[0], chain[1]);
      assert IsChain(chain[1..], chain[1], parts[1..], v);
      ReachesWalk(chain[1..], chain[1], parts[1..], v);
    }
  }

  /** The lookup finds exactly the value the path names, and at most five parts deep. */
  lemma LookupMeaning(data: Json, path: string, v: Json)
    ensures Lookup(data, path) == Some(v) <==> Resolves(data, path, v)
  {
    var parts := SplitDots(path);
    if Walk(data, parts) == Some(v) { WalkReaches(data, parts, v); }
    if Reaches(data, parts, v) {
      var chain :| IsChain(chain, data, parts, v);
      ReachesWalk(chain, data, parts, v);
    }
  }

  /** A key without dots names the member itself. */
  lemma LookupKey(m: Object, k: string)
    requires DotFree(k) && k != ""
    ensures Lookup(Dict(m), k) == if k in m then Some(m[k]) else None
  {
    SplitOfDotFree(k);
    if k in m { assert Walk(Dict(m), [k]) == Walk(m[k], [k][1..]); }
  }

  method GetNestedValue(data: Json, path: string) returns (found: Option<Json>)
    ensures found == Lookup(data, path)
    ensures forall v :: found == Some(v) <==> Resolves(data, path, v)
  {
    forall v { LookupMeaning(data, path, v); }
    if path == "" { return None; }
    var parts := SplitDots(path);
    if |parts| > MAX_NESTING_DEPTH { return None; }
    var current := data;
    for i := 0 to |parts|
      invariant Walk(data, parts) == Walk(current, parts[i..])
    {
      assert parts[i..][0] == parts[i] && parts[i..][1..] == parts[i + 1..];
      if current.Dict? {
        if parts[i] in current.entries {
          current := current.entries[parts[i]];
        } else {
          return None;
        }
      } else if current.List? {
        match PyInt(parts[i])
        case Some(idx) =>
          if 0 <= idx < |current.items| {
            current := current.items[idx];
          } else {
            return None;
          }
        case None => return None;
      } else {
        return None;
      }
    }
    found := Some(current);
  }

  // ---- operators ----

  /** The operand types an operator accepts. */
  predicate WellTyped(op: Op, v: Json, ref: Json) {
    match op
    case Eq | Neq => Comparable(v, ref)
    case In | NotIn => ref.List? && Scalar(v)
    case Lt | Lte | Gt | Gte => Numeric(v) && Numeric(ref)
    case Prefix | Matches => v.Str? && ref.Str?
    case SubsetOf => v.List? && ref.List?
    case Exists => true
  }

  /** What each operator means on operands it accepts. */
  predicate Satisfies(rx: Regex, op: Op, v: Json, ref: Json)
    requires WellTyped(op, v, ref)
  {
    match op
    case Eq => PyEq(v, ref)
    case Neq => !PyEq(v, ref)
    case In => Member(v, ref.items)
    case NotIn => !Member(v, ref.items)
    case Lt => NumValue(v) < NumValue(ref)
    case Lte => NumValue(v) <= NumValue(ref)
    case Gt => NumValue(v) > NumValue(ref)
    case Gte => NumValue(v) >= NumValue(ref)
    case Prefix => ref.s <= v.s
    case SubsetOf => forall i :: 0 <= i < |v.items| ==> Member(v.items[i], ref.items)
    case Matches => |ref.s| <= MAX_REGEX_LENGTH && rx(ref.s, v.s) == Found
    case Exists => v != Null
  }

  predicate Hashables(xs: seq<Json>) { forall i :: 0 <= i < |xs| ==> Scalar(xs[i]) }

  /** `set(value)` hashes the whole allow-list; `all(...)` stops at the first item outside it. */
  predicate RaisesOn(v: Json, ref: Json)
    requires v.List? && ref.List?
  {
    || !Hashables(ref.items)
    || exists i :: 0 <= i < |v.items| && !Scalar(v.items[i])
         && forall j :: 0 <= j < i ==> Scalar(v.items[j]) && Member(v.items[j], ref.items)
  }

  predicate Raises(args: Json, c: Constraint) {
    c.op == SubsetOf && Lookup(args, c.path).Some?
    && WellTyped(SubsetOf, Lookup(args, c.path).value, c.value)
    && RaisesOn(Lookup(args, c.path).value, c.value)
  }

  predicate Holds(rx: Regex, args: Json, c: Constraint) {
    !Raises(args, c) && Lookup(args, c.path).Some?
    && WellTyped(c.op, Lookup(args, c.path).value, c.value)
    && Satisfies(rx, c.op, Lookup(args, c.path).value, c.value)
  }

  /** The code reported for a constraint that does not hold. */
  function FailureCode(args: Json, c: Constraint): Reason {
    if c.op == Exists then ARGUMENT_CONSTRAINT_FAILED
    else if Lookup(args, c.path).None? then ARGUMENT_PATH_UNKNOWN
    else if !WellTyped(c.op, Lookup(args, c.path).value, c.value) then ARGUMENT_TYPE_MISMATCH
    else ARGUMENT_CONSTRAINT_FAILED
  }

  /** The outcome for one constraint. */
  function Check(rx: Regex, args: Json, c: Constraint): Decision {
    if Holds(rx, args, c) then Allowed
    else if Raises(args, c) then Raised
    else Denied(FailureCode(args, c), c.path)
  }

  /** The outcome for a list: that of the first constraint that does not hold. */
  function Evaluate(rx: Regex, cs: seq<Constraint>, args: Json): Decision {
    if !args.Dict? then Denied(ARGUMENT_TYPE_MISMATCH, "")
    else if cs == [] then Allowed
    else if Holds(rx, args, cs[0]) then Evaluate(rx, cs[1..], args)
    else Check(rx, args, cs[0])
  }

  /** A list is allowed exactly when every constraint holds; otherwise the outcome is that of
      the first one that does not, and no other. */
  lemma {:induction false} EvaluateMeaning(rx: Regex, cs: seq<Constraint>, args: Json)
    requires args.Dict?
    ensures Evaluate(rx, cs, args) == Allowed <==> forall i :: 0 <= i < |cs| ==> Holds(rx, args, cs[i])
    ensures forall i :: 0 <= i < |cs| && !Holds(rx, args, cs[i]) && (forall j :: 0 <= j < i ==> Holds(rx, args, cs[j]))
              ==> Evaluate(rx, cs, args) == Check(rx, args, cs[i])
  {
    if cs != [] {
      EvaluateMeaning(rx, cs[1..], args);
      if Holds(rx, args, cs[0]) {
        forall i | 0 < i < |cs| && !Holds(rx, args, cs[i]) && (forall j :: 0 <= j < i ==> Holds(rx, args, cs[j]))
          ensures Evaluate(rx, cs, args) == Check(rx, args, cs[i])
        {
          assert cs[1..][i - 1] == cs[i];
          assert forall j :: 0 <= j < i - 1 ==> cs[1..][j] == cs[j + 1];
        }
        if Evaluate(rx, cs, args) == Allowed {
          forall i | 0 < i < |cs| ensures Holds(rx, args, cs[i]) { assert cs[1..][i - 1] == cs[i]; }
        }
      }
    }
  }

  /** Added constraints only narrow: the parts are evaluated in order, each only if those before allow. */
  lemma {:induction false} EvaluateConcat(rx: Regex, a: seq<Constraint>, b: seq<Constraint>, args: Json)
    ensures Evaluate(rx, a + b, args)
         == if Evaluate(rx, a, args) == Allowed then Evaluate(rx, b, args) else Evaluate(rx, a, args)
  {
    if a == [] {
      assert a + b == b;
    } else {
      assert (a + b)[1..] == a[1..] + b;
      EvaluateConcat(rx, a[1..], b, args);
    }
  }

  /** Appended constraints can only turn an allow into a refusal. */
  lemma EvaluateNarrows(rx: Regex, a: seq<Constraint>, b: seq<Constraint>, args: Json)
    ensures Evaluate(rx, a + b, args) == Allowed <==> Evaluate(rx, a, args) == Allowed && Evaluate(rx, b, args) == Allowed
  {
    EvaluateConcat(rx, a, b, args);
  }

  /** The outcome depends on the arguments only through what the paths look up. */
  lemma {:induction false} SameLookupsSameOutcome(rx: Regex, cs: seq<Constraint>, a: Json, b: Json)
    requires a.Dict? && b.Dict? && forall path :: Lookup(a, path) == Lookup(b, path)
    ensures Evaluate(rx, cs, a) == Evaluate(rx, cs, b)
  {
    if cs != [] {
      assert Lookup(a, cs[0].path) == Lookup(b, cs[0].path);
      assert Holds(rx, a, cs[0]) == Holds(rx, b, cs[0]) && Check(rx, a, cs[0]) == Check(rx, b, cs[0]);
      SameLookupsSameOutcome(rx, cs[1..], a, b);
    }
  }

  /** `set(value)` and `all(item in allowed for item in actual)`. */
  method SubsetCheck(v: seq<Json>, ref: seq<Json>) returns (raised: bool, ok: bool)
    ensures raised == RaisesOn(List(v), List(ref))
    ensures !raised ==> ok == forall i :: 0 <= i < |v| ==> Member(v[i], ref)
  {
    if exists i :: 0 <= i < |ref| && !Scalar(ref[i]) { return true, false; }
    for i := 0 to |v|
      invariant forall j :: 0 <= j < i ==> Scalar(v[j]) && Member(v[j], ref)
    {
      if !Scalar(v[i]) { return true, false; }
      if !Member(v[i], ref) { return false, false; }
    }
    return false, true;
  }

  /** One turn of the loop over the constraints. */
  method CheckConstraint(rx: Regex, arguments: Json, c: Constraint) returns (d: Decision)
    ensures d == Check(rx, arguments, c)
  {
    var found := GetNestedValue(arguments, c.path);
    if c.op.Exists? {
      if found.None? || found.value == Null { return Denied(ARGUMENT_CONSTRAINT_FAILED, c.path); }
      return Allowed;
    }
    if found.None? { return Denied(ARGUMENT_PATH_UNKNOWN, c.path); }
    var actual := found.value;
    match c.op {
      case Eq =>
        if !Comparable(actual, c.value) { return Denied(ARGUMENT_TYPE_MISMATCH, c.path); }
        if !PyEq(actual, c.value) { return Denied(ARGUMENT_CONSTRAINT_FAILED, c.path); }
      case Neq =>
        if !Comparable(actual, c.value) { return Denied(ARGUMENT_TYPE_MISMATCH, c.path); }
        if PyEq(actual, c.value) { return Denied(ARGUMENT_CONSTRAINT_FAILED, c.path); }
      case In =>
        if !c.value.List? || !Scalar(actual) { return Denied(ARGUMENT_TYPE_MISMATCH, c.path); }
        if !Member(actual, c.value.items) { return Denied(ARGUMENT_CONSTRAINT_FAILED, c.path); }
      case NotIn =>
        if !c.value.List? || !Scalar(actual) { return Denied(ARGUMENT_TYPE_MISMATCH, c.path); }
        if Member(actual, c.value.items) { return Denied(ARGUMENT_CONSTRAINT_FAILED, c.path); }
      case Lt =>
        if !Numeric(actual) || !Numeric(c.value) { return Denied(ARGUMENT_TYPE_MISMATCH, c.path); }
        if !(NumValue(actual) < NumValue(c.value)) { return Denied(ARGUMENT_CONSTRAINT_FAILED, c.path); }
      case Lte =>
        if !Numeric(actual) || !Numeric(c.value) { return Denied(ARGUMENT_TYPE_MISMATCH, c.path); }
        if !(NumValue(actual) <= NumValue(c.value)) { return Denied(ARGUMENT_CONSTRAINT_FAILED, c.path); }
      case Gt =>
        if !Numeric(actual) || !Numeric(c.value) { return Denied(ARGUMENT_TYPE_MISMATCH, c.path); }
        if !(NumValue(actual) > NumValue(c.value)) { return Denied(ARGUMENT_CONSTRAINT_FAILED, c.path); }
      case Gte =>
        if !Numeric(actual) || !Numeric(c.value) { return Denied(ARGUMENT_TYPE_MISMATCH, c.path); }
        if !(NumValue(actual) >= NumValue(c.value)) { return Denied(ARGUMENT_CONSTRAINT_FAILED, c.path); }
      case Prefix =>
        if !actual.Str? || !c.value.Str? { return Denied(ARGUMENT_TYPE_MISMATCH, c.path); }
        if !(c.value.s <= actual.s) { return Denied(ARGUMENT_CONSTRAINT_FAILED, c.path); }
      case SubsetOf =>
        if !actual.List? || !c.value.List? { return Denied(ARGUMENT_TYPE_MISMATCH, c.path); }
        var raised, ok := SubsetCheck(actual.items, c.value.items);
        if raised { return Raised; }
        if !ok { return Denied(ARGUMENT_CONSTRAINT_FAILED, c.path); }
      case Matches =>
        if !actual.Str? || !c.value.Str? { return Denied(ARGUMENT_TYPE_MISMATCH, c.path); }
        if |c.value.s| > MAX_REGEX_LENGTH { return Denied(ARGUMENT_CONSTRAINT_FAILED, c.path); }
        if rx(c.value.s, actual.s) != Found { return Denied(ARGUMENT_CONSTRAINT_FAILED, c.path); }
    }
    return Allowed;
  }

  // ---- the reported code ----

  /** The constraint is met by a value at its path. */
  ghost predicate Met(rx: Regex, args: Json, c: Constraint) {
    exists v :: Resolves(args, c.path, v) && WellTyped(c.op, v, c.value) && Satisfies(rx, c.op, v, c.value)
  }

  ghost predicate Absent(args: Json, c: Constraint) { forall v :: !Resolves(args, c.path, v) }

  ghost predicate Mistyped(args: Json, c: Constraint) { exists v :: Resolves(args, c.path, v) && !WellTyped(c.op, v, c.value) }

  /** Hashing a list or an object raises: one in the allow-list, or one in the value after items that are all in the
      allow-list. */
  ghost predicate Unhashable(args: Json, c: Constraint) {
    c.op == SubsetOf && c.value.List?
    && exists xs: seq<Json> :: Resolves(args, c.path, List(xs)) && ((exists y :: y in c.value.items && Container(y)) || StopsAt(xs, c.value.items))
  }

  predicate Container(j: Json) { j.List? || j.Dict? }

  predicate StopsAt(xs: seq<Json>, ref: seq<Json>) {
    exists i :: 0 <= i < |xs| && Container(xs[i]) && forall j :: 0 <= j < i ==> Member(xs[j], ref)
  }

  /** What the path resolves to is unique. */
  lemma ResolvesToLookup(args: Json, path: string)
    ensures Lookup(args, path).None? ==> forall v :: !Resolves(args, path, v)
    ensures Lookup(args, path).Some? ==> forall v :: Resolves(args, path, v) <==> v == Lookup(args, path).value
  {
    forall v ensures Lookup(args, path) == Some(v) <==> Resolves(args, path, v) { LookupMeaning(args, path, v); }
  }

  lemma FirstUnhashable(xs: seq<Json>, ref: seq<Json>, i: nat)
    requires i < |xs| && !Scalar(xs[i]) && (forall j :: 0 <= j < i ==> Member(xs[j], ref))
    ensures RaisesOn(List(xs), List(ref))
    decreases i
  {
    if j :| 0 <= j < i && !Scalar(xs[j]) { FirstUnhashable(xs, ref, j); }
  }

  lemma RaisesOnExactly(xs: seq<Json>, ref: seq<Json>)
    ensures RaisesOn(List(xs), List(ref)) <==> (exists y :: y in ref && Container(y)) || StopsAt(xs, ref)
  {
    if y :| y in ref && Container(y) {
      var k :| 0 <= k < |ref| && ref[k] == y;
      assert !Scalar(ref[k]);
    }
    if !Hashables(ref) {
      var k :| 0 <= k < |ref| && !Scalar(ref[k]);
      assert ref[k] in ref && Container(ref[k]);
    }
    if i :| 0 <= i < |xs| && Container(xs[i]) && forall j :: 0 <= j < i ==> Member(xs[j], ref) { FirstUnhashable(xs, ref, i); }
  }

  lemma RaisesExactly(args: Json, c: Constraint)
    ensures Raises(args, c) <==> Unhashable(args, c)
  {
    ResolvesToLookup(args, c.path);
    if c.op == SubsetOf && c.value.List? && Lookup(args, c.path).Some? && Lookup(args, c.path).value.List? {
      var v := Lookup(args, c.path).value;
      RaisesOnExactly(v.items, c.value.items);
      assert Resolves(args, c.path, List(v.items));
    }
  }

  lemma HoldsExactly(rx: Regex, args: Json, c: Constraint)
    ensures Holds(rx, args, c) <==> Met(rx, args, c) && !Unhashable(args, c)
  {
    ResolvesToLookup(args, c.path);
    RaisesExactly(args, c);
  }

  lemma FailureMeaning(args: Json, c: Constraint)
    ensures FailureCode(args, c) == ARGUMENT_PATH_UNKNOWN <==> c.op != Exists && Absent(args, c)
    ensures FailureCode(args, c) == ARGUMENT_TYPE_MISMATCH <==> Mistyped(args, c)
    ensures FailureCode(args, c) == ARGUMENT_CONSTRAINT_FAILED <==> !Mistyped(args, c) && (Absent(args, c) ==> c.op == Exists)
  {
    ResolvesToLookup(args, c.path);
    if Lookup(args, c.path).Some? { assert Resolves(args, c.path, Lookup(args, c.path).value); }
  }

  /** The outcome of a list is decided by its first constraint that is not met: an exception if hashing raises, else a
      denial naming the constraint's path, whose code says that nothing is at the path, that what is there has the wrong
      type, or that it does not satisfy the constraint. A missing value that must exist does not satisfy its constraint. */
  lemma {:induction false} OutcomeExactly(rx: Regex, cs: seq<Constraint>, args: Json, n: nat)
    requires args.Dict? && n < |cs| && !(Met(rx, args, cs[n]) && !Unhashable(args, cs[n]))
    requires forall j :: 0 <= j < n ==> Met(rx, args, cs[j]) && !Unhashable(args, cs[j])
    ensures var d, c := Evaluate(rx, cs, args), cs[n];
      && (d == Raised <==> Unhashable(args, c))
      && (d == Denied(ARGUMENT_PATH_UNKNOWN, c.path) <==> c.op != Exists && Absent(args, c))
      && (d == Denied(ARGUMENT_TYPE_MISMATCH, c.path) <==> Mistyped(args, c))
      && (d == Denied(ARGUMENT_CONSTRAINT_FAILED, c.path)
          <==> !Unhashable(args, c) && !Mistyped(args, c) && (Absent(args, c) ==> c.op == Exists))
  {
    forall j | 0 <= j <= n ensures Holds(rx, args, cs[j]) <==> Met(rx, args, cs[j]) && !Unhashable(args, cs[j]) {
      HoldsExactly(rx, args, cs[j]);
    }
    FirstFailureDecides(rx, cs, args, n);
    FailureMeaning(args, cs[n]);
    RaisesExactly(args, cs[n]);
  }

  /** And a list is allowed exactly if all its constraints are met and none raises; only objects are evaluated at all. */
  lemma AllowedExactly(rx: Regex, cs: seq<Constraint>, args: Json)
    ensures Evaluate(rx, cs, args) == Allowed
      <==> args.Dict? && forall i :: 0 <= i < |cs| ==> Met(rx, args, cs[i]) && !Unhashable(args, cs[i])
    ensures !args.Dict? ==> Evaluate(rx, cs, args) == Denied(ARGUMENT_TYPE_MISMATCH, "")
  {
    if args.Dict? {
      EvaluateMeaning(rx, cs, args);
      forall i | 0 <= i < |cs| ensures Holds(rx, args, cs[i]) <==> Met(rx, args, cs[i]) && !Unhashable(args, cs[i]) {
        HoldsExactly(rx, args, cs[i]);
      }
    }
  }

  // ---- the operators ----

  /** Numbers as fractions: true is one and false is none. */
  function Numerator(j: Json): int
    requires NumberLike(j)
  {
    match j case Bool(b) => (if b then 1 else 0) case Int(i) => i case Float(num, _) => num
  }

  function Denominator(j: Json): Positive
    requires NumberLike(j)
  {
    if j.Float? then j.den else 1
  }

  predicate Less(a: Json, b: Json)
    requires NumberLike(a) && NumberLike(b)
  {
    Numerator(a) * Denominator(b) < Numerator(b) * Denominator(a)
  }

  lemma CrossProducts(a: int, b: Positive, c: int, d: Positive)
    ensures a as real / b as real < c as real / d as real <==> a * d < c * b
  {
    var x, y := a as real / b as real, c as real / d as real;
    assert x * b as real == a as real && y * d as real == c as real;
    var bd := b as real * d as real;
    assert bd > 0.0;
    assert x * bd == (a * d) as real && y * bd == (c * b) as real;
    if x < y { assert x * bd < y * bd; }
    if x >= y { assert x * bd >= y * bd; }
  }

  lemma LessMeaning(a: Json, b: Json)
    requires NumberLike(a) && NumberLike(b)
    ensures NumValue(a) < NumValue(b) <==> Less(a, b)
  {
    CrossProducts(Numerator(a), Denominator(a), Numerator(b), Denominator(b));
    assert NumValue(a) == Numerator(a) as real / Denominator(a) as real;
    assert NumValue(b) == Numerator(b) as real / Denominator(b) as real;
  }

  /** Python's `==` on scalars. */
  predicate Same(a: Json, b: Json) { if NumberLike(a) && NumberLike(b) then !Less(a, b) && !Less(b, a) else a == b }

  lemma SameMeaning(a: Json, b: Json)
    requires Scalar(a) || Scalar(b)
    ensures PyEq(a, b) <==> Same(a, b)
  {
    if NumberLike(a) && NumberLike(b) {
      LessMeaning(a, b);
      LessMeaning(b, a);
    }
  }

  predicate Among(v: Json, items: seq<Json>) { exists i :: 0 <= i < |items| && Same(v, items[i]) }

  lemma AmongMeaning(v: Json, items: seq<Json>)
    requires Scalar(v)
    ensures Member(v, items) <==> Among(v, items)
  {
    forall i | 0 <= i < |items| ensures PyEq(v, items[i]) <==> Same(v, items[i]) { SameMeaning(v, items[i]); }
  }

  /** Numbers compare with numbers, a bool being none, and anything else with its own type. */
  predicate OneKind(a: Json, b: Json) {
    || ((a.Int? || a.Float?) && (b.Int? || b.Float?))
    || (a.Bool? && b.Bool?) || (a.Str? && b.Str?) || (a == Null && b == Null) || (a.List? && b.List?) || (a.Dict? && b.Dict?)
  }

  /** Operand types and meaning, operator by operator; containers are equal item by item. */
  predicate Typed(op: Op, v: Json, ref: Json) {
    match op
    case Eq => OneKind(v, ref)
    case Neq => OneKind(v, ref)
    case In => ref.List? && !v.List? && !v.Dict?
    case NotIn => ref.List? && !v.List? && !v.Dict?
    case Lt => (v.Int? || v.Float?) && (ref.Int? || ref.Float?)
    case Lte => (v.Int? || v.Float?) && (ref.Int? || ref.Float?)
    case Gt => (v.Int? || v.Float?) && (ref.Int? || ref.Float?)
    case Gte => (v.Int? || v.Float?) && (ref.Int? || ref.Float?)
    case Prefix => v.Str? && ref.Str?
    case SubsetOf => v.List? && ref.List?
    case Matches => v.Str? && ref.Str?
    case Exists => true
  }

  predicate Passes(rx: Regex, op: Op, v: Json, ref: Json)
    requires Typed(op, v, ref)
  {
    match op
    case Eq => if v.List? || v.Dict? then PyEq(v, ref) else Same(v, ref)
    case Neq => if v.List? || v.Dict? then !PyEq(v, ref) else !Same(v, ref)
    case In => Among(v, ref.items)
    case NotIn => !Among(v, ref.items)
    case Lt => Less(v, ref)
    case Lte => !Less(ref, v)
    case Gt => Less(ref, v)
    case Gte => !Less(v, ref)
    case Prefix => |ref.s| <= |v.s| && v.s[..|ref.s|] == ref.s
    case SubsetOf => forall i :: 0 <= i < |v.items| ==> Member(v.items[i], ref.items)
    case Matches => |ref.s| <= 200 && rx(ref.s, v.s) == Found
    case Exists => v != Null
  }

  /** Every operator accepts the operands of its types and means what its name says on them; numbers are compared
      exactly, across integers and fractions. */
  lemma {:induction false} OperatorsMeaning(rx: Regex, op: Op, v: Json, ref: Json)
    ensures WellTyped(op, v, ref) <==> Typed(op, v, ref)
    ensures Typed(op, v, ref) ==> (Satisfies(rx, op, v, ref) <==> Passes(rx, op, v, ref))
  {
    if Typed(op, v, ref) {
      match op
      case Eq | Neq => if Scalar(v) { SameMeaning(v, ref); }
      case In | NotIn => AmongMeaning(v, ref.items);
      case Lt | Lte | Gt | Gte =>
        LessMeaning(v, ref);
        LessMeaning(ref, v);
      case _ =>
    }
  }

  /** The first constraint that does not hold decides the outcome. */
  lemma FirstFailureDecides(rx: Regex, cs: seq<Constraint>, args: Json, n: nat)
    requires args.Dict? && n < |cs| && !Holds(rx, args, cs[n]) && forall j :: 0 <= j < n ==> Holds(rx, args, cs[j])
    ensures Evaluate(rx, cs, args) == Check(rx, args, cs[n]) != Allowed
  {
    EvaluateMeaning(rx, cs, args);
  }

  lemma AllHoldAllows(rx: Regex, cs: seq<Constraint>, args: Json)
    requires args.Dict? && forall j :: 0 <= j < |cs| ==> Holds(rx, args, cs[j])
    ensures Evaluate(rx, cs, args) == Allowed
  {
    EvaluateMeaning(rx, cs, args);
  }

  method EvaluateConstraints(rx: Regex, constraints: seq<Constraint>, arguments: Json) returns (d: Decision)
    ensures d == Evaluate(rx, constraints, arguments)
    ensures d == Allowed <==> arguments.Dict? && forall c :: c in constraints ==> Holds(rx, arguments, c)
    ensures arguments.Dict? && d != Allowed ==>
              exists i :: 0 <= i < |constraints| && !Holds(rx, arguments, constraints[i])
                && (forall j :: 0 <= j < i ==> Holds(rx, arguments, constraints[j]))
                && d == Check(rx, arguments, constraints[i])
  {
    if !arguments.Dict? { return Denied(ARGUMENT_TYPE_MISMATCH, ""); }
    for n := 0 to |constraints|
      invariant forall j :: 0 <= j < n ==> Holds(rx, arguments, constraints[j])
    {
      var outcome := CheckConstraint(rx, arguments, constraints[n]);
      if outcome != Allowed {
        FirstFailureDecides(rx, constraints, arguments, n);
        return outcome;
      }
    }
    AllHoldAllows(rx, constraints, arguments);
    d := Allowed;
  }
}
