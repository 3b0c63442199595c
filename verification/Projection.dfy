/** packages/delegation_fabric_core/policy/projection.py: response field projection. */
module Projection {
  import opened Text
  import opened Json

  type Path = seq<string>

  // ---- meaning: a tree is the prefix-closed set of its key paths ----

  predicate Below(s: string, p: Path) { s != "" && p <= SplitDots(s) }

  ghost predicate IsNode(allowed: seq<string>, p: Path) { p == [] || exists i :: 0 <= i < |allowed| && Below(allowed[i], p) }

  /** The tree of an allow-list: the prefixes of its non-empty dotted paths. */
  ghost function Nodes(allowed: seq<string>): iset<Path> { iset p: Path | IsNode(allowed, p) }

  ghost predicate PrefixClosed(ns: iset<Path>) {
    [] in ns && forall p, q :: p + q in ns ==> p in ns
  }

  /** The subtree under key `k`, and under a whole path. */
  ghost function Sub(ns: iset<Path>, k: string): iset<Path> { iset p: Path | [k] + p in ns }
  ghost function At(ns: iset<Path>, at: Path): iset<Path> { iset p: Path | at + p in ns }

  ghost predicate Childless(ns: iset<Path>) { forall p :: p in ns ==> p == [] }

  ghost predicate Leaf(ns: iset<Path>, p: Path) { p in ns && Childless(At(ns, p)) }

  ghost function Project(d: Json, ns: iset<Path>): Json {
    match d
    case Dict(m) => Dict(map k | k in m && [k] in ns :: ProjectMember(d, k, ns))
    case List(xs) => List(seq(|xs|, i requires 0 <= i < |xs| => if Scalar(xs[i]) then xs[i] else Project(xs[i], ns)))
    case _ => Null
  }

  ghost function ProjectMember(d: Json, k: string, ns: iset<Path>): Json
    requires d.Dict? && k in d.entries
    decreases d, 0
  {
    if Childless(Sub(ns, k)) then d.entries[k] else Project(d.entries[k], Sub(ns, k))
  }

  ghost function Dropped(d: Json, ns: iset<Path>): nat
    decreases d, 2
  {
    match d
    case Dict(m) => if Childless(ns) then |m| else DroppedKeys(d, m.Keys, ns)
    case List(xs) => DroppedItems(d, |xs|, ns)
    case _ => 1
  }

  ghost function DroppedAt(d: Json, k: string, ns: iset<Path>): nat
    requires d.Dict? && k in d.entries
    decreases d, 0
  {
    if [k] !in ns then 1 else if Childless(Sub(ns, k)) then 0 else Dropped(d.entries[k], Sub(ns, k))
  }

  ghost function DroppedKeys(d: Json, ks: set<string>, ns: iset<Path>): nat
    requires d.Dict? && ks <= d.entries.Keys
    decreases d, 1, ks
  {
    if ks == {} then 0
    else
      var k :| k in ks;
      DroppedAt(d, k, ns) + DroppedKeys(d, ks - {k}, ns)
  }

  ghost function DroppedItems(d: Json, n: nat, ns: iset<Path>): nat
    requires d.List? && n <= |d.items|
    decreases d, 1, n
  {
    if n == 0 then 0
    else DroppedItems(d, n - 1, ns) + (if Scalar(d.items[n - 1]) then 0 else Dropped(d.items[n - 1], ns))
  }

  /** `project_fields`: an empty allow-list gives an empty object or list, a scalar root gives None. */
  ghost function ProjectFields(payload: Json, allowed: seq<string>): (Json, nat) {
    if Scalar(payload) then (Null, 1)
    else if allowed == [] then
      (if payload.Dict? then (Dict(map[]), |payload.entries|) else (List([]), |payload.items|))
    else (Project(payload, Nodes(allowed)), Dropped(payload, Nodes(allowed)))
  }

  // ---- the tree ----

  lemma NodesPrefixClosed(allowed: seq<string>)
    ensures PrefixClosed(Nodes(allowed))
  {
    forall p: Path, q: Path | IsNode(allowed, p + q) ensures IsNode(allowed, p) {
      if p + q != [] {
        var i :| 0 <= i < |allowed| && Below(allowed[i], p + q);
        assert p <= p + q;
      }
    }
  }

  /** Order and repetition of allowed paths do not matter. */
  lemma OrderAndRepetitionDoNotMatter(a: seq<string>, b: seq<string>, payload: Json)
    requires forall s :: s in a <==> s in b
    ensures Nodes(a) == Nodes(b)
    ensures ProjectFields(payload, a) == ProjectFields(payload, b)
  {
    forall p: Path ensures IsNode(a, p) <==> IsNode(b, p) {
      if IsNode(a, p) && p != [] {
        var i :| 0 <= i < |a| && Below(a[i], p);
        assert a[i] in b;
      }
      if IsNode(b, p) && p != [] {
        var i :| 0 <= i < |b| && Below(b[i], p);
        assert b[i] in a;
      }
    }
    assert a != [] ==> a[0] in b;
    assert b != [] ==> b[0] in a;
  }

  // ---- algebra ----

  lemma {:induction false} ProjectTwice(d: Json, ns: iset<Path>)
    ensures Project(Project(d, ns), ns) == Project(d, ns)
  {
    match d
    case Dict(m) => forall k | k in m { ProjectTwice(m[k], Sub(ns, k)); }
    case List(xs) => forall i | 0 <= i < |xs| { ProjectTwice(xs[i], ns); }
    case _ =>
  }

  lemma MemberCommutes(d: Json, k: string, a: iset<Path>, b: iset<Path>)
    requires d.Dict? && k in d.entries && [k] in a && [k] in b
    requires var v := d.entries[k]; Project(Project(v, Sub(a, k)), Sub(b, k)) == Project(Project(v, Sub(b, k)), Sub(a, k))
    ensures k in Project(d, a).entries && k in Project(d, b).entries
    ensures ProjectMember(Project(d, a), k, b) == ProjectMember(Project(d, b), k, a)
  {}

  lemma {:induction false} ProjectCommutes(d: Json, a: iset<Path>, b: iset<Path>)
    ensures Project(Project(d, a), b) == Project(Project(d, b), a)
  {
    match d
    case Dict(m) =>
      forall k | k in m && [k] in a && [k] in b ensures ProjectMember(Project(d, a), k, b) == ProjectMember(Project(d, b), k, a) {
        ProjectCommutes(m[k], Sub(a, k), Sub(b, k));
        MemberCommutes(d, k, a, b);
      }
      assert Project(Project(d, a), b).entries == Project(Project(d, b), a).entries;
    case List(xs) => forall i | 0 <= i < |xs| { ProjectCommutes(xs[i], a, b); }
    case _ =>
  }

  /** Projecting again with the same allow-list changes nothing. */
  lemma {:induction false} Idempotent(payload: Json, allowed: seq<string>)
    ensures ProjectFields(ProjectFields(payload, allowed).0, allowed).0 == ProjectFields(payload, allowed).0
  {
    ProjectTwice(payload, Nodes(allowed));
  }

  /** Projections under two allow-lists commute. */
  lemma {:induction false} Commutes(payload: Json, a: seq<string>, b: seq<string>)
    ensures ProjectFields(ProjectFields(payload, a).0, b).0 == ProjectFields(ProjectFields(payload, b).0, a).0
  {
    ProjectCommutes(payload, Nodes(a), Nodes(b));
  }

  lemma {:induction false} DroppedKeysSplit(d: Json, ks: set<string>, k: string, ns: iset<Path>)
    requires d.Dict? && ks <= d.entries.Keys && k in ks
    ensures DroppedKeys(d, ks, ns) == DroppedAt(d, k, ns) + DroppedKeys(d, ks - {k}, ns)
    decreases ks
  {
    var x :| x in ks && DroppedKeys(d, ks, ns) == DroppedAt(d, x, ns) + DroppedKeys(d, ks - {x}, ns);
    if x != k {
      DroppedKeysSplit(d, ks - {x}, k, ns);
      DroppedKeysSplit(d, ks - {k}, x, ns);
      assert ks - {x} - {k} == ks - {k} - {x};
    }
  }

  lemma {:induction false} DroppedItemsZero(d: Json, n: nat, ns: iset<Path>)
    requires d.List? && n <= |d.items| && DroppedItems(d, n, ns) == 0
    ensures forall i :: 0 <= i < n && !Scalar(d.items[i]) ==> Dropped(d.items[i], ns) == 0
  {
    if n > 0 { DroppedItemsZero(d, n - 1, ns); }
  }

  lemma {:induction false} NothingDroppedBelow(d: Json, ns: iset<Path>)
    requires Dropped(d, ns) == 0
    ensures Project(d, ns) == d
  {
    match d
    case Dict(m) =>
      if Childless(ns) {
        assert m == map[];
      } else {
        forall k | k in m ensures [k] in ns && ProjectMember(d, k, ns) == m[k] {
          DroppedKeysSplit(d, m.Keys, k, ns);
          if !Childless(Sub(ns, k)) { NothingDroppedBelow(m[k], Sub(ns, k)); }
        }
      }
    case List(xs) =>
      DroppedItemsZero(d, |xs|, ns);
      forall i | 0 <= i < |xs| && !Scalar(xs[i]) { NothingDroppedBelow(xs[i], ns); }
    case _ =>
  }

  /** A dropped count of zero means the payload came through whole. */
  lemma NothingDropped(payload: Json, allowed: seq<string>)
    requires ProjectFields(payload, allowed).1 == 0
    ensures ProjectFields(payload, allowed).0 == payload
  {
    if !Scalar(payload) && allowed != [] { NothingDroppedBelow(payload, Nodes(allowed)); }
  }

  // ---- what is counted ----

  /** A step into a payload. */
  datatype Place = InMember(key: string) | InItem(index: nat)

  /** Something is cut at a place: a member whose key leaves the tree, or a scalar where the tree goes on. Scalar items of
      lists and whatever lies under a leaf are kept. */
  ghost predicate IsCut(d: Json, ns: iset<Path>, p: seq<Place>)
    decreases |p|
  {
    if p == [] then Scalar(d)
    else match p[0]
      case InMember(k) =>
        d.Dict? && k in d.entries
        && if [k] in ns then !Childless(Sub(ns, k)) && IsCut(d.entries[k], Sub(ns, k), p[1..]) else |p| == 1
      case InItem(i) => d.List? && i < |d.items| && !Scalar(d.items[i]) && IsCut(d.items[i], ns, p[1..])
  }

  ghost predicate Starts(p: seq<Place>, x: Place) { p != [] && p[0] == x }

  lemma {:induction false} Prefixed(x: Place, cs: set<seq<Place>>) returns (out: set<seq<Place>>)
    ensures forall p: seq<Place> :: p in out <==> Starts(p, x) && p[1..] in cs
    ensures |out| == |cs|
    decreases |cs|
  {
    out := {};
    if cs != {} {
      var q :| q in cs;
      var rest := Prefixed(x, cs - {q});
      assert ([x] + q)[1..] == q;
      out := rest + {[x] + q};
      forall p: seq<Place> ensures p in out <==> Starts(p, x) && p[1..] in cs {
        if Starts(p, x) && p[1..] == q { assert p == [x] + q; }
      }
    }
  }

  lemma {:induction false} CutsAt(d: Json, k: string, ns: iset<Path>) returns (cs: set<seq<Place>>)
    requires d.Dict? && k in d.entries
    ensures forall p: seq<Place> :: p in cs <==> Starts(p, InMember(k)) && IsCut(d, ns, p)
    ensures |cs| == DroppedAt(d, k, ns)
    decreases d, 0
  {
    if [k] !in ns {
      cs := {[InMember(k)]};
      forall p: seq<Place> ensures p in cs <==> Starts(p, InMember(k)) && IsCut(d, ns, p) {
        if Starts(p, InMember(k)) && |p| == 1 { assert p == [InMember(k)]; }
      }
    } else if Childless(Sub(ns, k)) {
      cs := {};
    } else {
      var below := CutsCounted(d.entries[k], Sub(ns, k));
      cs := Prefixed(InMember(k), below);
    }
  }

  lemma {:induction false} KeyCuts(d: Json, ks: set<string>, ns: iset<Path>) returns (cs: set<seq<Place>>)
    requires d.Dict? && ks <= d.entries.Keys
    ensures forall p: seq<Place> :: p in cs <==> p != [] && p[0].InMember? && p[0].key in ks && IsCut(d, ns, p)
    ensures |cs| == DroppedKeys(d, ks, ns)
    decreases d, 1, ks
  {
    cs := {};
    if ks != {} {
      var k :| k in ks;
      var here := CutsAt(d, k, ns);
      var rest := KeyCuts(d, ks - {k}, ns);
      DroppedKeysSplit(d, ks, k, ns);
      cs := here + rest;
      assert here !! rest;
      assert |cs| == |here| + |rest|;
    }
  }

  lemma {:induction false} ItemCuts(d: Json, n: nat, ns: iset<Path>) returns (cs: set<seq<Place>>)
    requires d.List? && n <= |d.items|
    ensures forall p: seq<Place> :: p in cs <==> p != [] && p[0].InItem? && p[0].index < n && IsCut(d, ns, p)
    ensures |cs| == DroppedItems(d, n, ns)
    decreases d, 1, n
  {
    cs := {};
    if n > 0 {
      var rest := ItemCuts(d, n - 1, ns);
      var here := {};
      if !Scalar(d.items[n - 1]) {
        var below := CutsCounted(d.items[n - 1], ns);
        here := Prefixed(InItem(n - 1), below);
      }
      cs := here + rest;
      assert here !! rest;
      assert |cs| == |here| + |rest|;
    }
  }

  lemma {:induction false} AllKeysDropped(d: Json, ks: set<string>, ns: iset<Path>)
    requires d.Dict? && ks <= d.entries.Keys && Childless(ns)
    ensures DroppedKeys(d, ks, ns) == |ks|
    decreases ks
  {
    if ks != {} {
      var k :| k in ks;
      DroppedKeysSplit(d, ks, k, ns);
      AllKeysDropped(d, ks - {k}, ns);
    }
  }

  /** The count is the number of places at which something was cut. */
  lemma {:induction false} CutsCounted(d: Json, ns: iset<Path>) returns (cs: set<seq<Place>>)
    ensures forall p: seq<Place> :: p in cs <==> IsCut(d, ns, p)
    ensures |cs| == Dropped(d, ns)
    decreases d, 2
  {
    match d
    case Dict(m) =>
      cs := KeyCuts(d, m.Keys, ns);
      if Childless(ns) { AllKeysDropped(d, m.Keys, ns); }
    case List(xs) => cs := ItemCuts(d, |xs|, ns);
    case _ => cs := {[]};
  }

  // ---- what survives ----

  /** The values of `d` at a key path, list positions ignored, in order. */
  function ValuesAt(d: Json, p: Path): seq<Json>
    decreases d, 1
  {
    if p == [] then [d]
    else match d
      case Dict(m) => if p[0] in m then ValuesAt(m[p[0]], p[1..]) else []
      case List(xs) => ItemValuesAt(d, |xs|, p)
      case _ => []
  }

  function ItemValuesAt(d: Json, n: nat, p: Path): seq<Json>
    requires d.List? && n <= |d.items|
    decreases d, 0, n
  {
    if n == 0 then [] else ItemValuesAt(d, n - 1, p) + ValuesAt(d.items[n - 1], p)
  }

  predicate HasPath(d: Json, p: Path) { ValuesAt(d, p) != [] }

  /** `p` lies at or below a leaf of the tree. */
  ghost predicate UnderLeaf(ns: iset<Path>, p: Path) { exists i :: 0 <= i <= |p| && Leaf(ns, p[..i]) }

  ghost function ProjectAll(vs: seq<Json>, ns: iset<Path>): seq<Json> {
    seq(|vs|, i requires 0 <= i < |vs| => Project(vs[i], ns))
  }

  lemma AtRoot(ns: iset<Path>)
    ensures At(ns, []) == ns
  {
    forall q: Path ensures q in At(ns, []) <==> q in ns { assert [] + q == q; }
  }

  lemma SubOfAt(ns: iset<Path>, at: Path, k: string)
    ensures Sub(At(ns, at), k) == At(ns, at + [k])
  {
    forall p: Path ensures p in Sub(At(ns, at), k) <==> p in At(ns, at + [k]) {
      assert at + ([k] + p) == at + [k] + p;
    }
  }

  lemma SubPrefixClosed(ns: iset<Path>, k: string)
    requires PrefixClosed(ns) && [k] in ns
    ensures PrefixClosed(Sub(ns, k))
  {
    assert [k] + [] == [k];
    forall p: Path, q: Path | [k] + (p + q) in ns ensures [k] + p in ns { assert [k] + (p + q) == [k] + p + q; }
  }

  lemma AtSub(ns: iset<Path>, p: Path)
    requires p != []
    ensures At(ns, p) == At(Sub(ns, p[0]), p[1..])
    ensures p in ns <==> p[1..] in Sub(ns, p[0])
  {
    assert [p[0]] + p[1..] == p;
    forall q: Path ensures q in At(ns, p) <==> q in At(Sub(ns, p[0]), p[1..]) {
      assert [p[0]] + (p[1..] + q) == p + q;
    }
  }

  lemma LeafSub(ns: iset<Path>, p: Path, i: nat)
    requires 0 < i <= |p|
    ensures Leaf(ns, p[..i]) <==> Leaf(Sub(ns, p[0]), p[1..][..i - 1])
  {
    AtSub(ns, p[..i]);
    assert p[..i][1..] == p[1..][..i - 1];
  }

  lemma UnderLeafSub(ns: iset<Path>, p: Path)
    requires PrefixClosed(ns) && p != [] && !Childless(ns)
    ensures UnderLeaf(ns, p) <==> UnderLeaf(Sub(ns, p[0]), p[1..])
  {
    AtRoot(ns);
    if UnderLeaf(ns, p) {
      var i :| 0 <= i <= |p| && Leaf(ns, p[..i]);
      assert p[..0] == [];
      LeafSub(ns, p, i);
    }
    if UnderLeaf(Sub(ns, p[0]), p[1..]) {
      var i :| 0 <= i <= |p[1..]| && Leaf(Sub(ns, p[0]), p[1..][..i]);
      LeafSub(ns, p, i + 1);
    }
  }

  /** At a path at or below a leaf every value comes through unchanged; at an inner node each value
      is projected under the subtree there; at any other path nothing comes through. */
  lemma {:induction false} ValuesOfProjection(d: Json, ns: iset<Path>, p: Path)
    requires PrefixClosed(ns) && !Childless(ns)
    ensures UnderLeaf(ns, p) ==> ValuesAt(Project(d, ns), p) == ValuesAt(d, p)
    ensures p in ns && !UnderLeaf(ns, p) ==> ValuesAt(Project(d, ns), p) == ProjectAll(ValuesAt(d, p), At(ns, p))
    ensures p !in ns && !UnderLeaf(ns, p) ==> ValuesAt(Project(d, ns), p) == []
    decreases d, 1
  {
    AtRoot(ns);
    if p == [] {
      assert !UnderLeaf(ns, p);
    } else {
      UnderLeafSub(ns, p);
      AtSub(ns, p);
      match d
      case Dict(m) => MemberValues(d, ns, p);
      case List(xs) => ItemValues(d, |xs|, ns, p);
      case _ =>
    }
  }

  lemma {:induction false} MemberValues(d: Json, ns: iset<Path>, p: Path)
    requires d.Dict? && p != [] && PrefixClosed(ns) && !Childless(ns)
    ensures UnderLeaf(ns, p) ==> ValuesAt(Project(d, ns), p) == ValuesAt(d, p)
    ensures p in ns && !UnderLeaf(ns, p) ==> ValuesAt(Project(d, ns), p) == ProjectAll(ValuesAt(d, p), At(ns, p))
    ensures p !in ns && !UnderLeaf(ns, p) ==> ValuesAt(Project(d, ns), p) == []
    decreases d, 0
  {
    var k, rest := p[0], p[1..];
    assert p == [k] + rest;
    UnderLeafSub(ns, p);
    AtSub(ns, p);
    if k in d.entries {
      if [k] !in ns {
        assert forall q :: q !in Sub(ns, k);
      } else {
        SubPrefixClosed(ns, k);
        if Childless(Sub(ns, k)) {
          AtRoot(Sub(ns, k));
          assert Leaf(Sub(ns, k), rest[..0]);
        } else {
          ValuesOfProjection(d.entries[k], Sub(ns, k), rest);
        }
      }
    }
  }

  lemma {:induction false} ItemValues(d: Json, n: nat, ns: iset<Path>, p: Path)
    requires d.List? && n <= |d.items| && p != [] && PrefixClosed(ns) && !Childless(ns)
    ensures UnderLeaf(ns, p) ==> ItemValuesAt(Project(d, ns), n, p) == ItemValuesAt(d, n, p)
    ensures p in ns && !UnderLeaf(ns, p) ==> ItemValuesAt(Project(d, ns), n, p) == ProjectAll(ItemValuesAt(d, n, p), At(ns, p))
    ensures p !in ns && !UnderLeaf(ns, p) ==> ItemValuesAt(Project(d, ns), n, p) == []
    decreases d, 0, n
  {
    if n > 0 {
      ItemValues(d, n - 1, ns, p);
      ValuesOfProjection(d.items[n - 1], ns, p);
      ProjectedItem(d, ns, n - 1);
      ProjectAllConcat(ItemValuesAt(d, n - 1, p), ValuesAt(d.items[n - 1], p), At(ns, p));
    }
  }

  lemma ProjectAllConcat(xs: seq<Json>, ys: seq<Json>, ns: iset<Path>)
    ensures ProjectAll(xs + ys, ns) == ProjectAll(xs, ns) + ProjectAll(ys, ns)
  {}

  /** A key path of the payload survives exactly when it is a tree node or extends a tree leaf, and
      nothing new appears. */
  lemma {:induction false} Survival(payload: Json, allowed: seq<string>, p: Path)
    requires !Scalar(payload) && exists s :: s in allowed && s != ""
    ensures HasPath(ProjectFields(payload, allowed).0, p)
       <==> HasPath(payload, p) && (p in Nodes(allowed) || UnderLeaf(Nodes(allowed), p))
    ensures UnderLeaf(Nodes(allowed), p) ==> ValuesAt(ProjectFields(payload, allowed).0, p) == ValuesAt(payload, p)
  {
    NodesPrefixClosed(allowed);
    var s :| s in allowed && s != "";
    assert IsNode(allowed, SplitDots(s));
    ValuesOfProjection(payload, Nodes(allowed), p);
  }

  /** At every inner node the shape stays: objects stay objects, lists keep their length and their
      scalar items, and a scalar in place of an object becomes None. */
  lemma ShapeAtInnerNode(payload: Json, allowed: seq<string>, p: Path, i: nat)
    requires !Scalar(payload) && exists s :: s in allowed && s != ""
    requires p in Nodes(allowed) && !UnderLeaf(Nodes(allowed), p) && i < |ValuesAt(payload, p)|
    ensures |ValuesAt(ProjectFields(payload, allowed).0, p)| == |ValuesAt(payload, p)|
    ensures var was, now := ValuesAt(payload, p)[i], ValuesAt(ProjectFields(payload, allowed).0, p)[i];
      match was
      case Dict(_) => now.Dict? && now.entries.Keys <= was.entries.Keys
      case List(xs) => now.List? && |now.items| == |xs|
          && forall j :: 0 <= j < |xs| && Scalar(xs[j]) ==> now.items[j] == xs[j]
      case _ => now == Null
  {
    Survival(payload, allowed, p);
    NodesPrefixClosed(allowed);
    var s :| s in allowed && s != "";
    assert IsNode(allowed, SplitDots(s));
    ValuesOfProjection(payload, Nodes(allowed), p);
  }

  // ---- the code: nested dictionaries grown in place through a moving cursor ----

  class TreeNode {
    var kids: map<string, TreeNode>
    constructor ()
      ensures kids == map[]
    {
      kids := map[];
    }
  }

  type Addresses = map<Path, TreeNode>

  ghost predicate Apart(addr: Addresses, p: Path, q: Path) { p in addr && q in addr && addr[p] == addr[q] ==> p == q }

  /** The dictionary at `p` has key `k` exactly if `addr` knows `p + [k]`, and then holds what is there. */
  ghost predicate LinkAt(addr: Addresses, p: Path, k: string)
    reads addr.Values
  {
    && (p + [k] in addr <==> p in addr && k in addr[p].kids)
    && (p in addr && k in addr[p].kids ==> addr[p].kids[k] == addr[p + [k]])
  }

  /** `addr` gives the dictionary at each key path; no dictionary is at two paths. */
  ghost predicate Linked(addr: Addresses, root: TreeNode)
    reads addr.Values
  {
    && [] in addr && addr[[]] == root
    && (forall p, q :: Apart(addr, p, q))
    && (forall p, k :: LinkAt(addr, p, k))
  }

  lemma SnocInjective(p: Path, k: string, q: Path, l: string)
    requires p + [k] == q + [l]
    ensures p == q && k == l
  {
    assert (p + [k])[..|p|] == p && (q + [l])[..|q|] == q;
    assert (p + [k])[|p|] == k;
  }

  /** `if part not in current: current[part] = {}` and `current = current[part]`. */
  method Descend(tree: TreeNode, current: TreeNode, part: string, ghost at: Path, ghost addr: Addresses)
    returns (next: TreeNode, ghost addr': Addresses)
    requires Linked(addr, tree) && at in addr && addr[at] == current
    modifies current
    ensures Linked(addr', tree) && fresh(addr'.Values - addr.Values)
    ensures addr'.Keys == addr.Keys + {at + [part]} && addr'[at + [part]] == next
  {
    addr' := addr;
    assert LinkAt(addr, at, part);
    if part !in current.kids {
      var kid := new TreeNode();
      ghost var new_at := at + [part];
      addr' := addr[new_at := kid];
      current.kids := current.kids[part := kid];
      forall p: Path, q: Path ensures Apart(addr', p, q) { assert Apart(addr, p, q); }
      forall p: Path, k: string ensures LinkAt(addr', p, k) {
        assert old(LinkAt(addr, p, k)) && old(LinkAt(addr, new_at, k)) && Apart(addr, p, at);
        if p + [k] == new_at { SnocInjective(p, k, at, part); }
      }
    }
    next := current.kids[part];
  }

  /** The prefixes of `q` have been added. */
  ghost predicate Added(addr: Addresses, addr': Addresses, q: Path) { forall p :: p in addr' <==> p in addr || p <= q }

  lemma AddedMore(addr: Addresses, was: Addresses, addr': Addresses, q: Path, k: string)
    requires Added(addr, was, q) && addr'.Keys == was.Keys + {q + [k]}
    ensures Added(addr, addr', q + [k])
  {
    forall p: Path ensures p in addr' <==> p in addr || p <= q + [k] {
      assert p in addr' <==> p in was || p == q + [k];
      PrefixOfSnoc(p, q, k);
    }
  }

  /** One turn of the loop over the parts of a path. */
  method Advance(tree: TreeNode, current: TreeNode, part: string, ghost here: Path, ghost addr: Addresses, ghost was: Addresses)
    returns (next: TreeNode, ghost addr': Addresses)
    requires Linked(was, tree) && Added(addr, was, here) && here in was && was[here] == current
    modifies current
    ensures Linked(addr', tree) && fresh(addr'.Values - was.Values) && Added(addr, addr', here + [part])
    ensures here + [part] in addr' && addr'[here + [part]] == next
  {
    next, addr' := Descend(tree, current, part, here, was);
    AddedMore(addr, was, addr', here, part);
  }

  method AddPath(tree: TreeNode, parts: Path, ghost addr: Addresses) returns (ghost addr': Addresses)
    requires Linked(addr, tree)
    modifies addr.Values
    ensures Linked(addr', tree) && fresh(addr'.Values - addr.Values)
    ensures Added(addr, addr', parts)
  {
    addr' := addr;
    var current := tree;
    ghost var here: Path := [];
    for i := 0 to |parts|
      invariant Linked(addr', tree) && fresh(addr'.Values - addr.Values)
      invariant here == parts[..i] && here in addr' && addr'[here] == current
      invariant Added(addr, addr', here)
    {
      assert current in addr'.Values;
      current, addr' := Advance(tree, current, parts[i], here, addr, addr');
      here := here + [parts[i]];
    }
    assert here == parts;
  }

  lemma PrefixOfSnoc(p: Path, q: Path, k: string)
    ensures p <= q + [k] <==> p <= q || p == q + [k]
  {
    if p <= q + [k] && |p| <= |q| { assert p == (q + [k])[..|p|] == q[..|p|]; }
    if p <= q { assert (q + [k])[..|p|] == q[..|p|]; }
  }

  lemma NodeOfLonger(allowed: seq<string>, n: nat, p: Path)
    requires n < |allowed|
    ensures IsNode(allowed[..n + 1], p) <==> IsNode(allowed[..n], p) || Below(allowed[n], p)
  {
    var longer, shorter := allowed[..n + 1], allowed[..n];
    assert forall i :: 0 <= i < n ==> shorter[i] == longer[i];
    assert longer[n] == allowed[n];
    if IsNode(shorter, p) && p != [] {
      var i :| 0 <= i < n && Below(shorter[i], p);
      assert Below(longer[i], p);
    }
    if IsNode(longer, p) && p != [] {
      var i :| 0 <= i < n + 1 && Below(longer[i], p);
      if i < n { assert Below(shorter[i], p); }
    }
  }

  /** The tree's key paths are the nodes of the first `n` allowed paths. */
  ghost predicate Covers(addr: Addresses, allowed: seq<string>, n: nat)
    requires n <= |allowed|
  {
    forall p :: p in addr <==> IsNode(allowed[..n], p)
  }

  lemma CoversMore(addr: Addresses, addr': Addresses, allowed: seq<string>, n: nat)
    requires n < |allowed| && Covers(addr, allowed, n)
    requires forall p :: p in addr' <==> p in addr || Below(allowed[n], p)
    ensures Covers(addr', allowed, n + 1)
  {
    forall p: Path ensures p in addr' <==> IsNode(allowed[..n + 1], p) { NodeOfLonger(allowed, n, p); }
  }

  lemma CoversRoot(addr: Addresses, allowed: seq<string>)
    requires forall p: Path :: p in addr <==> p == []
    ensures Covers(addr, allowed, 0)
  {}

  lemma CoversAll(addr: Addresses, allowed: seq<string>)
    requires Covers(addr, allowed, |allowed|)
    ensures forall p :: p in addr <==> p in Nodes(allowed)
  {
    assert allowed[..|allowed|] == allowed;
  }

  method AddAllowed(tree: TreeNode, allowed: seq<string>, n: nat, ghost addr: Addresses) returns (ghost addr': Addresses)
    requires n < |allowed| && Linked(addr, tree) && Covers(addr, allowed, n)
    modifies addr.Values
    ensures Linked(addr', tree) && fresh(addr'.Values - addr.Values)
    ensures Covers(addr', allowed, n + 1)
  {
    addr' := addr;
    if allowed[n] != "" {
      addr' := AddPath(tree, SplitDots(allowed[n]), addr);
    }
    CoversMore(addr, addr', allowed, n);
  }

  method NewTree() returns (tree: TreeNode, ghost addr: Addresses)
    ensures Linked(addr, tree) && fresh(addr.Values)
    ensures forall p: Path :: p in addr <==> p == []
  {
    tree := new TreeNode();
    addr := map[[] := tree];
  }

  method BuildProjectionTree(allowed: seq<string>) returns (tree: TreeNode, ghost addr: Addresses)
    ensures Linked(addr, tree) && fresh(addr.Values)
    ensures forall p :: p in addr <==> p in Nodes(allowed)
  {
    tree, addr := NewTree();
    CoversRoot(addr, allowed);
    for n := 0 to |allowed|
      invariant Linked(addr, tree) && fresh(addr.Values)
      invariant Covers(addr, allowed, n)
    {
      addr := AddAllowed(tree, allowed, n, addr);
    }
    CoversAll(addr, allowed);
  }

  // ---- the code: recursion over payload and tree ----

  ghost predicate InTree(tree: TreeNode, node: TreeNode, at: Path, addr: Addresses, ns: iset<Path>)
    reads addr.Values
  {
    Linked(addr, tree) && at in addr && addr[at] == node && PrefixClosed(ns) && forall p :: p in addr <==> p in ns
  }

  /** The node's keys are the tree's keys at its path; an empty node is a leaf. */
  lemma NodeMeaning(tree: TreeNode, node: TreeNode, at: Path, addr: Addresses, ns: iset<Path>)
    requires InTree(tree, node, at, addr, ns)
    ensures forall k :: k in node.kids <==> [k] in At(ns, at)
    ensures node.kids == map[] <==> Childless(At(ns, at))
    ensures forall k :: k in node.kids ==> InTree(tree, node.kids[k], at + [k], addr, ns) && Sub(At(ns, at), k) == At(ns, at + [k])
  {
    forall k: string ensures k in node.kids <==> [k] in At(ns, at) { assert LinkAt(addr, at, k); }
    forall k | k in node.kids
      ensures InTree(tree, node.kids[k], at + [k], addr, ns) && Sub(At(ns, at), k) == At(ns, at + [k])
    {
      assert LinkAt(addr, at, k);
      SubOfAt(ns, at, k);
    }
    forall p | p in At(ns, at) && p != [] ensures p[0] in node.kids {
      assert at + p == at + [p[0]] + p[1..];
      assert [p[0]] in At(ns, at);
    }
    if node.kids != map[] {
      var k :| k in node.kids;
      assert [k] in At(ns, at);
    }
  }

  method ProjectRecursive(data: Json, node: TreeNode,
                          ghost tree: TreeNode, ghost at: Path, ghost addr: Addresses, ghost ns: iset<Path>)
    returns (projected: Json, dropped: nat)
    requires InTree(tree, node, at, addr, ns)
    ensures projected == Project(data, At(ns, at)) && dropped == Dropped(data, At(ns, at))
    decreases data, 1
  {
    if data.Dict? {
      NodeMeaning(tree, node, at, addr, ns);
      if node.kids == map[] { return Dict(map[]), |data.entries|; }
      projected, dropped := ProjectEntries(data, node, tree, at, addr, ns);
    } else if data.List? {
      projected, dropped := ProjectItems(data, node, tree, at, addr, ns);
    } else {
      return Null, 1;
    }
  }

  /** The loop over the members of an object. */
  method ProjectEntries(data: Json, node: TreeNode,
                        ghost tree: TreeNode, ghost at: Path, ghost addr: Addresses, ghost ns: iset<Path>)
    returns (projected: Json, dropped: nat)
    requires InTree(tree, node, at, addr, ns) && data.Dict?
    ensures projected == Project(data, At(ns, at)) && dropped == DroppedKeys(data, data.entries.Keys, At(ns, at))
    decreases data, 0
  {
    ghost var here := At(ns, at);
    var result: map<string, Json> := map[];
    dropped := 0;
    var rest := data.entries.Keys;
    while rest != {}
      invariant rest <= data.entries.Keys
      invariant EntriesDone(data, rest, here, result)
      invariant dropped + DroppedKeys(data, rest, here) == DroppedKeys(data, data.entries.Keys, here)
      decreases rest
    {
      var key :| key in rest;
      DroppedKeysSplit(data, rest, key, here);
      var kept, value, subDropped := ProjectEntry(data, key, node, tree, at, addr, ns);
      EntryDone(data, rest, here, result, key, value);
      if kept { result := result[key := value]; }
      dropped, rest := dropped + subDropped, rest - {key};
    }
    AllEntriesDone(data, here, result);
    projected := Dict(result);
  }

  /** The members outside `rest` have been projected. */
  ghost predicate EntriesDone(data: Json, rest: set<string>, ns: iset<Path>, result: map<string, Json>)
    requires data.Dict?
  {
    forall k :: EntryAt(data, rest, ns, result, k)
  }

  ghost predicate EntryAt(data: Json, rest: set<string>, ns: iset<Path>, result: map<string, Json>, k: string)
    requires data.Dict?
  {
    && (k in result <==> k in data.entries && k !in rest && [k] in ns)
    && (k in result ==> result[k] == ProjectMember(data, k, ns))
  }

  lemma EntryDone(data: Json, rest: set<string>, ns: iset<Path>, result: map<string, Json>, key: string, value: Json)
    requires data.Dict? && rest <= data.entries.Keys && EntriesDone(data, rest, ns, result) && key in rest
    requires [key] in ns ==> value == ProjectMember(data, key, ns)
    ensures EntriesDone(data, rest - {key}, ns, if [key] in ns then result[key := value] else result)
  {
    var after := if [key] in ns then result[key := value] else result;
    forall k ensures EntryAt(data, rest - {key}, ns, after, k) { assert EntryAt(data, rest, ns, result, k); }
  }

  lemma AllEntriesDone(data: Json, ns: iset<Path>, result: map<string, Json>)
    requires data.Dict? && EntriesDone(data, {}, ns, result)
    ensures Project(data, ns) == Dict(result)
  {
    var m := Project(data, ns).entries;
    forall k ensures k in m <==> k in result { assert EntryAt(data, {}, ns, result, k); }
    forall k | k in m ensures m[k] == result[k] { assert EntryAt(data, {}, ns, result, k); }
    assert m == result;
  }

  method ProjectEntry(data: Json, key: string, node: TreeNode,
                      ghost tree: TreeNode, ghost at: Path, ghost addr: Addresses, ghost ns: iset<Path>)
    returns (kept: bool, value: Json, dropped: nat)
    requires InTree(tree, node, at, addr, ns) && data.Dict? && key in data.entries
    ensures kept == ([key] in At(ns, at)) && dropped == DroppedAt(data, key, At(ns, at))
    ensures kept ==> value == ProjectMember(data, key, At(ns, at))
    decreases data.entries[key], 2
  {
    NodeMeaning(tree, node, at, addr, ns);
    if key !in node.kids { return false, Null, 1; }
    var sub := node.kids[key];
    NodeMeaning(tree, sub, at + [key], addr, ns);
    if sub.kids == map[] { return true, data.entries[key], 0; }
    value, dropped := ProjectRecursive(data.entries[key], sub, tree, at + [key], addr, ns);
    kept := true;
  }

  /** The loop over the items of a list. */
  method ProjectItems(data: Json, node: TreeNode,
                      ghost tree: TreeNode, ghost at: Path, ghost addr: Addresses, ghost ns: iset<Path>)
    returns (projected: Json, dropped: nat)
    requires InTree(tree, node, at, addr, ns) && data.List?
    ensures projected == Project(data, At(ns, at)) && dropped == DroppedItems(data, |data.items|, At(ns, at))
    decreases data, 0
  {
    ghost var items := Project(data, At(ns, at)).items;
    var result: seq<Json> := [];
    dropped := 0;
    for i := 0 to |data.items|
      invariant |items| == |data.items| && result == items[..i]
      invariant dropped == DroppedItems(data, i, At(ns, at))
    {
      var value, subDropped := ProjectItem(data, i, node, tree, at, addr, ns);
      result, dropped := result + [value], dropped + subDropped;
    }
    projected := List(result);
  }

  method ProjectItem(data: Json, i: nat, node: TreeNode,
                     ghost tree: TreeNode, ghost at: Path, ghost addr: Addresses, ghost ns: iset<Path>)
    returns (value: Json, dropped: nat)
    requires InTree(tree, node, at, addr, ns) && data.List? && i < |data.items|
    ensures value == Project(data, At(ns, at)).items[i]
    ensures dropped == if Scalar(data.items[i]) then 0 else Dropped(data.items[i], At(ns, at))
    decreases data.items[i], 2
  {
    ProjectedItem(data, At(ns, at), i);
    if Scalar(data.items[i]) { return data.items[i], 0; }
    value, dropped := ProjectRecursive(data.items[i], node, tree, at, addr, ns);
  }

  lemma ProjectedItem(data: Json, ns: iset<Path>, i: nat)
    requires data.List? && i < |data.items|
    ensures Project(data, ns).items[i] == if Scalar(data.items[i]) then data.items[i] else Project(data.items[i], ns)
  {}

  method ProjectFieldsOf(payload: Json, allowed: seq<string>) returns (projected: Json, dropped: nat)
    ensures (projected, dropped) == ProjectFields(payload, allowed)
  {
    if Scalar(payload) { return Null, 1; }
    if allowed == [] {
      match payload
      case Dict(m) => return Dict(map[]), |m|;
      case List(xs) => return List([]), |xs|;
    }
    var tree, addr := BuildProjectionTree(allowed);
    NodesPrefixClosed(allowed);
    AtRoot(Nodes(allowed));
    projected, dropped := ProjectRecursive(payload, tree, tree, [], addr, Nodes(allowed));
  }
}
