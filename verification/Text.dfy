/** Strings as the services use them: dotted paths and the order of `sorted`. */
module Text {

  datatype Option<+T> = None | Some(value: T)

  predicate DotFree(s: string) { '.' !in s }

  /** `s.split(".")`: always at least one part. */
  function SplitDots(s: string): (parts: seq<string>)
    ensures parts != []
    ensures forall i :: 0 <= i < |parts| ==> DotFree(parts[i])
  {
    if s == "" then [""]
    else
      var rest := SplitDots(s[1..]);
      if s[0] == '.' then [""] + rest else [[s[0]] + rest[0]] + rest[1..]
  }

  lemma {:induction false} SplitOfDotFree(s: string)
    requires DotFree(s)
    ensures SplitDots(s) == [s]
  {
    if s != "" {
      SplitOfDotFree(s[1..]);
      assert [s[0]] + s[1..] == s && s[0] != '.';
    }
  }

  /** A dot ends the first part: splitting is the inverse of joining with dots. */
  lemma {:induction false} SplitAtDot(a: string, b: string)
    requires DotFree(a)
    ensures SplitDots(a + "." + b) == [a] + SplitDots(b)
  {
    var ab := a + "." + b;
    if a == "" {
      assert ab[1..] == b;
    } else {
      assert ab[1..] == a[1..] + "." + b && ab[0] == a[0] != '.';
      SplitAtDot(a[1..], b);
      assert [a[0]] + a[1..] == a;
    }
  }

  predicate Space(c: char) { c as int in {9, 10, 11, 12, 13, 28, 29, 30, 31, 32} }

  predicate Unpadded(s: string) { s == "" || (!Space(s[0]) && !Space(s[|s| - 1])) }

  /** `s.strip()` on ASCII text. */
  function Strip(s: string): (t: string)
    ensures Unpadded(t)
    ensures Unpadded(s) ==> t == s
  {
    if s == "" then s
    else if Space(s[0]) then Strip(s[1..])
    else if Space(s[|s| - 1]) then Strip(s[..|s| - 1])
    else s
  }

  predicate Blank(s: string) { forall i :: 0 <= i < |s| ==> Space(s[i]) }

  ghost predicate Around(front: string, s: string, t: string, back: string) {
    s == front + t + back && Blank(front) && Blank(back)
  }

  lemma WiderFront(c: char, front: string, s: string, t: string, back: string)
    requires Space(c) && Around(front, s, t, back)
    ensures Around([c] + front, [c] + s, t, back)
  {
    assert [c] + s == [c] + front + t + back;
  }

  lemma WiderBack(c: char, front: string, s: string, t: string, back: string)
    requires Space(c) && Around(front, s, t, back)
    ensures Around(front, s + [c], t, back + [c])
  {
    assert s + [c] == front + t + (back + [c]);
  }

  /** Stripping takes away white space at both ends and nothing else. */
  lemma {:induction false} StripExactly(s: string)
    ensures exists front, back :: Around(front, s, Strip(s), back)
  {
    if s == "" || Unpadded(s) {
      assert "" + s + "" == s;
      assert Around("", s, Strip(s), "");
    } else if Space(s[0]) {
      StripExactly(s[1..]);
      var front, back :| Around(front, s[1..], Strip(s), back);
      WiderFront(s[0], front, s[1..], Strip(s), back);
      assert [s[0]] + s[1..] == s;
    } else {
      StripExactly(s[..|s| - 1]);
      var front, back :| Around(front, s[..|s| - 1], Strip(s), back);
      WiderBack(s[|s| - 1], front, s[..|s| - 1], Strip(s), back);
      assert s[..|s| - 1] + [s[|s| - 1]] == s;
    }
  }

  predicate Digit(c: char) { '0' <= c <= '9' }

  function DigitValue(c: char): int
    requires Digit(c)
  {
    c as int - '0' as int
  }

  function Digits(s: string, value: int, afterDigit: bool): Option<int> {
    if s == "" then (if afterDigit then Some(value) else None)
    else if Digit(s[0]) then Digits(s[1..], 10 * value + DigitValue(s[0]), true)
    else if s[0] == '_' && afterDigit then Digits(s[1..], value, false)
    else None
  }

  /** `int(s)` on ASCII text; None is ValueError. */
  function PyInt(s: string): Option<int> {
    var t := Strip(s);
    if t != "" && t[0] == '-' then
      (match Digits(t[1..], 0, false) case Some(n) => Some(-n) case None => None)
    else if t != "" && t[0] == '+' then Digits(t[1..], 0, false)
    else Digits(t, 0, false)
  }

  /** Order of Python strings and of Firestore document names: by code point, shorter first. */
  predicate LexLess(a: string, b: string) {
    b != "" && (a == "" || a[0] < b[0] || (a[0] == b[0] && LexLess(a[1..], b[1..])))
  }

  lemma {:induction false} LexTotal(a: string, b: string)
    ensures LexLess(a, b) || a == b || LexLess(b, a)
    ensures !(LexLess(a, b) && LexLess(b, a)) && !LexLess(a, a)
  {
    if a != "" && b != "" {
      assert a == [a[0]] + a[1..] && b == [b[0]] + b[1..];
      LexTotal(a[1..], b[1..]);
    }
    if a != "" { LexTotal(a[1..], a[1..]); }
  }

  lemma {:induction false} LexTransitive(a: string, b: string, c: string)
    requires LexLess(a, b) && LexLess(b, c)
    ensures LexLess(a, c)
  {
    if a != "" && a[0] == b[0] == c[0] { LexTransitive(a[1..], b[1..], c[1..]); }
  }

  lemma {:induction false} LexSamePrefix(p: string, a: string, b: string)
    ensures LexLess(p + a, p + b) <==> LexLess(a, b)
  {
    if p == "" {
      assert p + a == a && p + b == b;
    } else {
      assert (p + a)[1..] == p[1..] + a && (p + b)[1..] == p[1..] + b;
      LexSamePrefix(p[1..], a, b);
    }
  }

  ghost predicate StrictlySorted(s: seq<string>) {
    forall i, j {:trigger LexLess(s[i], s[j])} :: 0 <= i < j < |s| ==> LexLess(s[i], s[j])
  }

  ghost predicate Enumerates(s: seq<string>, ks: set<string>) { forall k :: k in s <==> k in ks }

  /** `sorted(keys)` of a dictionary: every key once, in increasing order. */
  ghost function SortedKeys(ks: set<string>): (s: seq<string>)
    ensures Enumerates(s, ks)
  {
    SortedListingExists(ks);
    var s :| Enumerates(s, ks) && StrictlySorted(s);
    s
  }

  lemma SortedKeysAreSorted(ks: set<string>)
    ensures StrictlySorted(SortedKeys(ks))
  {
    SortedListingExists(ks);
  }

  ghost predicate IsLeast(k: string, ks: set<string>) { k in ks && forall j :: j in ks && j != k ==> LexLess(k, j) }

  lemma {:induction false} LeastExists(ks: set<string>) returns (k: string)
    requires ks != {}
    ensures IsLeast(k, ks)
  {
    k :| k in ks;
    if ks != {k} {
      var other := LeastExists(ks - {k});
      LexTotal(k, other);
      if LexLess(other, k) {
        k := other;
      } else {
        forall j | j in ks && j != k && j != other ensures LexLess(k, j) { LexTransitive(k, other, j); }
      }
    }
  }

  lemma {:induction false} SortedListingExists(ks: set<string>)
    ensures exists s :: Enumerates(s, ks) && StrictlySorted(s)
  {
    if ks == {} {
      assert Enumerates([], ks) && StrictlySorted([]);
    } else {
      var k := LeastExists(ks);
      SortedListingExists(ks - {k});
      var rest :| Enumerates(rest, ks - {k}) && StrictlySorted(rest);
      ConsSorted(k, rest, ks);
    }
  }

  lemma ConsSorted(k: string, rest: seq<string>, ks: set<string>)
    requires IsLeast(k, ks) && Enumerates(rest, ks - {k}) && StrictlySorted(rest)
    ensures Enumerates([k] + rest, ks) && StrictlySorted([k] + rest)
  {
    var s := [k] + rest;
    forall i, j | 0 <= i < j < |s| ensures LexLess(s[i], s[j]) {
      assert s[j] == rest[j - 1] && rest[j - 1] in rest;
      if i > 0 { assert LexLess(rest[i - 1], rest[j - 1]); }
    }
  }

  lemma FirstIsLeast(s: seq<string>, ks: set<string>)
    requires s != [] && StrictlySorted(s) && Enumerates(s, ks)
    ensures IsLeast(s[0], ks) && Enumerates(s[1..], ks - {s[0]}) && StrictlySorted(s[1..])
  {
    assert s[0] in s;
    forall j | 0 < j < |s| ensures s[0] != s[j] && LexLess(s[0], s[j]) {
      LexTotal(s[0], s[j]);
      assert LexLess(s[0], s[j]);
    }
    forall i, j | 0 <= i < j < |s| - 1 ensures LexLess(s[1..][i], s[1..][j]) { assert LexLess(s[i + 1], s[j + 1]); }
  }

  lemma EmptyListing(s: seq<string>, ks: set<string>)
    requires Enumerates(s, ks)
    ensures s == [] <==> ks == {}
  {
    if s != [] { assert s[0] in s; }
  }

  /** A set has exactly one increasing enumeration. */
  lemma {:induction false} SortedIsUnique(s: seq<string>, t: seq<string>, ks: set<string>)
    requires StrictlySorted(s) && Enumerates(s, ks) && StrictlySorted(t) && Enumerates(t, ks)
    ensures s == t
  {
    EmptyListing(s, ks);
    EmptyListing(t, ks);
    if s != [] {
      FirstIsLeast(s, ks);
      FirstIsLeast(t, ks);
      LexTotal(s[0], t[0]);
      SortedIsUnique(s[1..], t[1..], ks - {s[0]});
      assert s == [s[0]] + s[1..] && t == [t[0]] + t[1..];
    }
  }

  method Smallest(ks: set<string>) returns (k: string)
    requires ks != {}
    ensures IsLeast(k, ks)
  {
    k :| k in ks;
    var rest := ks - {k};
    while rest != {}
      invariant k !in rest && rest <= ks && IsLeast(k, ks - rest)
      decreases rest
    {
      var x :| x in rest;
      LexTotal(k, x);
      rest := rest - {x};
      if LexLess(x, k) {
        forall j | j in ks - rest && j != x && j != k ensures LexLess(x, j) { LexTransitive(x, k, j); }
        k := x;
      }
    }
    assert ks - rest == ks;
  }

  method Sort(ks: set<string>) returns (s: seq<string>)
    ensures s == SortedKeys(ks)
  {
    s := [];
    var rest := ks;
    while rest != {}
      invariant rest <= ks && Enumerates(s, ks - rest) && StrictlySorted(s)
      invariant forall i, k :: 0 <= i < |s| && k in rest ==> LexLess(s[i], k)
      decreases rest
    {
      var k := Smallest(rest);
      SnocSorted(s, k);
      s, rest := s + [k], rest - {k};
    }
    assert ks - rest == ks;
    SortedKeysAreSorted(ks);
    SortedIsUnique(s, SortedKeys(ks), ks);
  }

  lemma SnocSorted(s: seq<string>, k: string)
    requires StrictlySorted(s) && forall i :: 0 <= i < |s| ==> LexLess(s[i], k)
    ensures StrictlySorted(s + [k])
  {
    var t := s + [k];
    forall i, j | 0 <= i < j < |t| ensures LexLess(t[i], t[j]) {
      if j < |s| { assert LexLess(s[i], s[j]); }
    }
  }
}
