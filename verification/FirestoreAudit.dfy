/** packages/delegation_fabric_adapters/firestore/firestore_store.py: audit events as documents named by a
    per-task counter, refining the append-only list of the in-memory store. */
module FirestoreAudit {
  import opened Text
  import opened AuditChain
  import opened Store

  const NAME_BOUND := 100_000_000

  type Documents = map<string, AuditEvent>
  type Counters = map<string, nat>

  // ---- f"{seq:08d}" ----

  function DigitChar(n: nat): char
    requires n < 10
  {
    '0' + n as char
  }

  function Padded(n: nat, w: nat): string {
    if w == 0 then "" else Padded(n / 10, w - 1) + [DigitChar(n % 10)]
  }

  function Decimal(n: nat): string {
    if n < 10 then [DigitChar(n)] else Decimal(n / 10) + [DigitChar(n % 10)]
  }

  function Format08(n: nat): string { if n < NAME_BOUND then Padded(n, 8) else Decimal(n) }

  function Name(task: string, n: nat): string { task + ":" + Format08(n) }

  function Value(s: string): int { if s == "" then 0 else 10 * Value(s[..|s| - 1]) + (s[|s| - 1] as int - 48) }

  function Pow10(w: nat): nat { if w == 0 then 1 else 10 * Pow10(w - 1) }

  lemma {:induction false} PaddedValue(n: nat, w: nat)
    requires n < Pow10(w)
    ensures Value(Padded(n, w)) == n && |Padded(n, w)| == w && ':' !in Padded(n, w)
  {
    if w > 0 {
      PaddedValue(n / 10, w - 1);
      var s := Padded(n, w);
      assert s[..|s| - 1] == Padded(n / 10, w - 1);
    }
  }

  lemma {:induction false} DecimalValue(n: nat)
    ensures Value(Decimal(n)) == n && ':' !in Decimal(n)
  {
    var s := Decimal(n);
    if n >= 10 {
      DecimalValue(n / 10);
      assert s[..|s| - 1] == Decimal(n / 10);
    } else {
      assert s[..0] == "";
    }
  }

  lemma {:induction false} ReadDigits(n: nat, rest: string)
    ensures Digits(Decimal(n) + rest, 0, false) == Digits(rest, n, true)
  {
    if n < 10 {
      assert (Decimal(n) + rest)[1..] == rest;
    } else {
      var c := [DigitChar(n % 10)];
      assert Decimal(n) + rest == Decimal(n / 10) + (c + rest) && (c + rest)[1..] == rest;
      ReadDigits(n / 10, c + rest);
    }
  }

  lemma {:induction false} DecimalIsDigits(n: nat)
    ensures Decimal(n) != "" && forall i :: 0 <= i < |Decimal(n)| ==> Digit(Decimal(n)[i])
  {
    if n >= 10 { DecimalIsDigits(n / 10); }
  }

  /** An index in a path is read back from its decimal text, with or without a sign. */
  lemma PyIntExactly(n: nat)
    ensures PyInt(Decimal(n)) == Some(n as int) && PyInt("+" + Decimal(n)) == Some(n as int) && PyInt("-" + Decimal(n)) == Some(0 - n as int)
  {
    var s := Decimal(n);
    DecimalIsDigits(n);
    ReadDigits(n, "");
    assert s + "" == s && ("-" + s)[1..] == s && ("+" + s)[1..] == s;
    assert Digits(s, 0, false) == Some(n);
    assert Unpadded(s) && Unpadded("-" + s) && Unpadded("+" + s);
  }

  lemma PowerOfEight()
    ensures Pow10(8) == NAME_BOUND
  {
    assert Pow10(4) == 10_000;
  }

  lemma FormatValue(n: nat)
    ensures Value(Format08(n)) == n && ':' !in Format08(n)
  {
    PowerOfEight();
    if n < NAME_BOUND { PaddedValue(n, 8); } else { DecimalValue(n); }
  }

  lemma LastColon(a: string, x: string)
    requires ':' !in x
    ensures (a + ":" + x)[|a|] == ':' && forall i :: |a| < i < |a| + 1 + |x| ==> (a + ":" + x)[i] != ':'
  {}

  lemma ColonSplit(a: string, x: string, b: string, y: string)
    requires ':' !in x && ':' !in y && a + ":" + x == b + ":" + y
    ensures a == b && x == y
  {
    var s, t := a + ":" + x, b + ":" + y;
    LastColon(a, x);
    LastColon(b, y);
    assert |a| == |b|;
    assert s[..|a|] == a && t[..|b|] == b;
    assert s[|a| + 1..] == x && t[|b| + 1..] == y;
  }

  /** No two appends ever write one document, in one task or in two. */
  lemma NamesAreUnique(t: string, i: nat, u: string, j: nat)
    requires Name(t, i) == Name(u, j)
    ensures t == u && i == j
  {
    FormatValue(i);
    FormatValue(j);
    ColonSplit(t, Format08(i), u, Format08(j));
  }

  // ---- name order is number order, up to the bound ----

  lemma {:induction false} LexExtend(p: string, x: string, q: string, y: string)
    requires |p| == |q| && LexLess(p, q)
    ensures LexLess(p + x, q + y)
  {
    assert (p + x)[1..] == p[1..] + x && (q + y)[1..] == q[1..] + y;
    if p[0] == q[0] { LexExtend(p[1..], x, q[1..], y); }
  }

  lemma DigitOrder(p: string, a: nat, b: nat)
    requires a < b && a / 10 == b / 10
    ensures LexLess(p + [DigitChar(a % 10)], p + [DigitChar(b % 10)])
  {
    assert a % 10 < b % 10;
    LexSamePrefix(p, [DigitChar(a % 10)], [DigitChar(b % 10)]);
  }

  lemma {:induction false} PaddedOrder(a: nat, b: nat, w: nat)
    requires a < b < Pow10(w)
    ensures LexLess(Padded(a, w), Padded(b, w))
  {
    var p, q := Padded(a / 10, w - 1), Padded(b / 10, w - 1);
    PaddedValue(a / 10, w - 1);
    PaddedValue(b / 10, w - 1);
    if a / 10 < b / 10 {
      PaddedOrder(a / 10, b / 10, w - 1);
      LexExtend(p, [DigitChar(a % 10)], q, [DigitChar(b % 10)]);
    } else {
      DigitOrder(p, a, b);
    }
  }

  lemma NameOrder(t: string, i: nat, j: nat)
    requires i < j < NAME_BOUND
    ensures LexLess(Name(t, i), Name(t, j))
  {
    PowerOfEight();
    PaddedOrder(i, j, 8);
    LexSamePrefix(t + ":", Format08(i), Format08(j));
  }

  lemma NameOrderBreaks(t: string)
    ensures LexLess(Name(t, NAME_BOUND), Name(t, NAME_BOUND - 1))
  {
    assert Decimal(100_000_000)[0] == '1';
    assert Padded(99_999_999, 8)[0] == '9';
    LexSamePrefix(t + ":", Format08(NAME_BOUND), Format08(NAME_BOUND - 1));
  }

  function Names(t: string, n: nat): seq<string> { seq(n, i requires 0 <= i < n => Name(t, i)) }

  /** Reading a task's first `n` documents in name order is reading them in append order exactly up
      to a hundred million events. */
  lemma NameOrderIsAppendOrder(t: string, n: nat)
    ensures SortedKeys(set s | s in Names(t, n)) == Names(t, n) <==> n <= NAME_BOUND
  {
    var names, keys := Names(t, n), set s | s in Names(t, n);
    SortedKeysAreSorted(keys);
    if n <= NAME_BOUND {
      forall i, j | 0 <= i < j < n ensures LexLess(names[i], names[j]) { NameOrder(t, i, j); }
      SortedIsUnique(names, SortedKeys(keys), keys);
    } else if SortedKeys(keys) == names {
      NameOrderBreaks(t);
      assert LexLess(names[NAME_BOUND - 1], names[NAME_BOUND]);
      LexTotal(names[NAME_BOUND - 1], names[NAME_BOUND]);
      assert false;
    }
  }

  // ---- refinement of the in-memory lists ----

  function NextSeq(counters: Counters, task: string): nat { if task in counters then counters[task] else 0 }

  ghost predicate StoredAt(docs: Documents, lists: Audit, t: string, i: nat) {
    i < |Chain(lists, t)| ==>
      && Chain(lists, t)[i].data.body.taskId == t
      && Name(t, i) in docs && docs[Name(t, i)] == Chain(lists, t)[i]
  }

  ghost predicate Listed(docs: Documents, lists: Audit, s: string)
    requires s in docs
  {
    var t := docs[s].data.body.taskId;
    exists i: nat :: i < |Chain(lists, t)| && s == Name(t, i)
  }

  /** Document `Name(t, i)` holds the `i`-th event of task `t`'s list, and there is no other document. */
  ghost predicate Refines(counters: Counters, docs: Documents, lists: Audit) {
    && (forall t :: NextSeq(counters, t) == |Chain(lists, t)|)
    && (forall t, i: nat :: StoredAt(docs, lists, t, i))
    && (forall s :: s in docs ==> Listed(docs, lists, s))
  }

  /** One append transaction keeps the refinement. */
  lemma AppendRefines(counters: Counters, docs: Documents, lists: Audit, e: AuditEvent)
    requires Refines(counters, docs, lists)
    ensures var t := e.data.body.taskId; var n := NextSeq(counters, t);
      Refines(counters[t := n + 1], docs[Name(t, n) := e], AppendEvent(lists, e))
  {
    var t := e.data.body.taskId;
    var n := NextSeq(counters, t);
    var docs', lists' := docs[Name(t, n) := e], AppendEvent(lists, e);
    forall u ensures NextSeq(counters[t := n + 1], u) == |Chain(lists', u)| {
      assert NextSeq(counters, u) == |Chain(lists, u)|;
    }
    forall u, i: nat ensures StoredAt(docs', lists', u, i) {
      assert StoredAt(docs, lists, u, i);
      if Name(u, i) == Name(t, n) { NamesAreUnique(u, i, t, n); }
    }
    forall s | s in docs' ensures Listed(docs', lists', s) {
      if s == Name(t, n) {
        assert n < |Chain(lists', t)|;
      } else {
        assert Listed(docs, lists, s);
        var i: nat :| i < |Chain(lists, docs[s].data.body.taskId)| && s == Name(docs[s].data.body.taskId, i);
        assert i < |Chain(lists', docs[s].data.body.taskId)|;
      }
    }
  }

  function TaskDocuments(docs: Documents, task: string): set<string> {
    set s | s in docs && docs[s].data.body.taskId == task
  }

  /** `where(task_id == task).order_by("__name__")` */
  ghost function Read(docs: Documents, task: string): seq<AuditEvent> {
    var names := SortedKeys(TaskDocuments(docs, task));
    seq(|names|, i requires 0 <= i < |names| =>
      assert names[i] in names; docs[names[i]])
  }

  lemma ReadInOrder(docs: Documents, task: string, names: seq<string>)
    requires SortedKeys(TaskDocuments(docs, task)) == names
    ensures |Read(docs, task)| == |names|
    ensures forall i :: 0 <= i < |names| ==> names[i] in docs && Read(docs, task)[i] == docs[names[i]]
  {
    forall i | 0 <= i < |names| ensures names[i] in docs { assert names[i] in names; }
  }

  /** While the task has at most a hundred million events, the query returns the in-memory list. */
  lemma ReadIsTheList(counters: Counters, docs: Documents, lists: Audit, task: string)
    requires Refines(counters, docs, lists) && |Chain(lists, task)| <= NAME_BOUND
    ensures Read(docs, task) == Chain(lists, task)
  {
    var n := |Chain(lists, task)|;
    var names := Names(task, n);
    assert SortedKeys(TaskDocuments(docs, task)) == names by {
      NamesOfTask(counters, docs, lists, task);
      NameOrderIsAppendOrder(task, n);
    }
    ReadInOrder(docs, task, names);
    forall i: nat | i < n ensures docs[names[i]] == Chain(lists, task)[i] { assert StoredAt(docs, lists, task, i); }
  }

  lemma NamesOfTask(counters: Counters, docs: Documents, lists: Audit, task: string)
    requires Refines(counters, docs, lists)
    ensures TaskDocuments(docs, task) == set s | s in Names(task, |Chain(lists, task)|)
  {
    var names := Names(task, |Chain(lists, task)|);
    forall s | s in TaskDocuments(docs, task) ensures s in names {
      assert Listed(docs, lists, s);
      var i: nat :| i < |names| && s == Name(task, i);
      assert names[i] == s;
    }
    forall s | s in names ensures s in TaskDocuments(docs, task) {
      var i: nat :| i < |names| && names[i] == s;
      assert StoredAt(docs, lists, task, i);
    }
  }

  class FirestoreAuditLog {
    var counters: Counters
    var docs: Documents

    constructor ()
      ensures counters == map[] && docs == map[]
      ensures Refines(counters, docs, map[])
    {
      counters, docs := map[], map[];
    }

    /** The transaction: read the counter, advance it, set the document. */
    method AppendAuditEvent(event: AuditEvent, ghost lists: Audit)
      requires Refines(counters, docs, lists)
      modifies this
      ensures Refines(counters, docs, AppendEvent(lists, event))
    {
      AppendRefines(counters, docs, lists, event);
      var seqNo := 0;
      if event.data.body.taskId in counters { seqNo := counters[event.data.body.taskId]; }
      counters := counters[event.data.body.taskId := seqNo + 1];
      docs := docs[Name(event.data.body.taskId, seqNo) := event];
    }

    method GetAuditEvents(task: string, ghost lists: Audit, limit: Option<nat> := Some(DEFAULT_LIST_LIMIT))
      returns (events: seq<AuditEvent>)
      requires Refines(counters, docs, lists) && |Chain(lists, task)| <= NAME_BOUND
      ensures events == Limited(Chain(lists, task), limit)
    {
      ReadIsTheList(counters, docs, lists, task);
      var names := Sort(TaskDocuments(docs, task));
      var wanted := if limit.Some? && limit.value < |names| then limit.value else |names|;
      events := [];
      for i := 0 to wanted
        invariant events == Read(docs, task)[..i]
      {
        assert names[i] in names;
        events := events + [docs[names[i]]];
      }
    }
  }
}
