/** packages/delegation_fabric_core/audit/chain.py: the tamper-evident audit chain. */
module AuditChain {
  import opened Text
  import opened Json
  import opened Reasons
  import opened StateMachine

  const GENESIS_HASH := "genesis"

  datatype Service = ControlPlaneService | WorkerService
  datatype Actor = AgentActor(id: string, version: string) | HumanActor(id: string) | SystemActor(service: Service)

  datatype EventKind = PolicyDenied | TaskQuarantined | GrantIssued | DelegationRevoked | TaskReleased
                     | TaskTransition | ToolCompleted

  datatype EventDecision = AllowDecision | DenyDecision | QuarantineDecision

  datatype Metadata = NoMetadata | Evidence(evidence: Object) | RevokeReason(reason: string) | ReleaseReason(reason: string)
                    | Hop(eventId: string, from: TaskState, to: TaskState)

  /** What a service reports. */
  datatype EventBody = EventBody(
    auditEventId: string, taskId: string, delegationId: string, grantId: Option<string>,
    actor: Actor, kind: EventKind, tool: Option<string>, decision: EventDecision, reasonCode: Option<Reason>,
    policyVersion: string, approvalIds: seq<string>, resourceRefs: seq<string>, metadata: Metadata, occurredAt: int)

  /** Everything in an audit event except its own hash. */
  datatype EventData = EventData(body: EventBody, prevHash: string)

  datatype AuditEvent = AuditEvent(data: EventData, eventHash: string)

  /** SHA-256 in hexadecimal, and canonical JSON text. */
  datatype Hashing = Hashing(digest: string -> string, canonical: EventData -> string)
  {
    /** All that is assumed: no collisions, hexadecimal output, and one text per event. */
    ghost predicate Ideal() {
      && (forall s, t :: digest(s) == digest(t) ==> s == t)
      && (forall s :: '|' !in digest(s))
      && (forall d, e :: canonical(d) == canonical(e) ==> d == e)
    }
  }

  /** `compute_event_hash` */
  function EventHash(h: Hashing, prev: string, data: EventData): string {
    "sha256:" + h.digest(prev + "||" + h.canonical(data))
  }

  /** `finalize_audit_event` */
  function Finalize(h: Hashing, body: EventBody, prev: string): AuditEvent {
    AuditEvent(EventData(body, prev), EventHash(h, prev, EventData(body, prev)))
  }

  function PrevHash(es: seq<AuditEvent>, i: nat): string
    requires i <= |es|
  {
    if i == 0 then GENESIS_HASH else es[i - 1].eventHash
  }

  function Head(es: seq<AuditEvent>): string { PrevHash(es, |es|) }

  /** Read the chain, take its head, finalize, append. */
  function Append(h: Hashing, es: seq<AuditEvent>, body: EventBody): seq<AuditEvent> {
    es + [Finalize(h, body, Head(es))]
  }

  predicate LinkedAt(es: seq<AuditEvent>, i: nat)
    requires i < |es|
  {
    es[i].data.prevHash == PrevHash(es, i)
  }

  predicate SealedAt(h: Hashing, es: seq<AuditEvent>, i: nat)
    requires i < |es|
  {
    es[i].eventHash == EventHash(h, es[i].data.prevHash, es[i].data)
  }

  predicate GoodAt(h: Hashing, es: seq<AuditEvent>, i: nat)
    requires i < |es|
  {
    LinkedAt(es, i) && SealedAt(h, es, i)
  }

  predicate Valid(h: Hashing, es: seq<AuditEvent>) { forall i :: 0 <= i < |es| ==> GoodAt(h, es, i) }

  predicate IsLeastBad(h: Hashing, es: seq<AuditEvent>, index: Option<nat>) {
    && index.Some? && index.value < |es| && !GoodAt(h, es, index.value)
    && forall j :: 0 <= j < index.value ==> GoodAt(h, es, j)
  }

  datatype ChainResult = ChainResult(valid: bool, eventCount: nat, firstInvalidIndex: Option<nat>, headHash: Option<string>)

  method VerifyAuditChain(h: Hashing, events: seq<AuditEvent>) returns (r: ChainResult)
    ensures r.eventCount == |events|
    ensures r.valid <==> Valid(h, events)
    ensures r.valid ==> r.firstInvalidIndex.None? && r.headHash == if events == [] then None else Some(Head(events))
    ensures !r.valid ==> r.headHash.None? && IsLeastBad(h, events, r.firstInvalidIndex)
  {
    if events == [] { return ChainResult(true, 0, None, None); }
    var expectedPrev := GENESIS_HASH;
    for idx := 0 to |events|
      invariant expectedPrev == PrevHash(events, idx)
      invariant forall j :: 0 <= j < idx ==> GoodAt(h, events, j)
    {
      assert GoodAt(h, events, idx) <==> LinkedAt(events, idx) && SealedAt(h, events, idx);
      if events[idx].data.prevHash != expectedPrev {
        return ChainResult(false, |events|, Some(idx), None);
      }
      var calculated := EventHash(h, events[idx].data.prevHash, events[idx].data);
      if events[idx].eventHash != calculated {
        return ChainResult(false, |events|, Some(idx), None);
      }
      expectedPrev := events[idx].eventHash;
    }
    return ChainResult(true, |events|, None, Some(events[|events| - 1].eventHash));
  }

  // ---- a valid chain is one that was built ----

  function Build(h: Hashing, bs: seq<EventBody>): (es: seq<AuditEvent>)
    ensures |es| == |bs|
  {
    if bs == [] then [] else Append(h, Build(h, bs[..|bs| - 1]), bs[|bs| - 1])
  }

  lemma AppendValid(h: Hashing, es: seq<AuditEvent>, body: EventBody)
    requires Valid(h, es)
    ensures Valid(h, Append(h, es, body))
  {
    var longer := Append(h, es, body);
    forall i | 0 <= i < |longer| ensures GoodAt(h, longer, i) {
      if i < |es| { assert GoodAt(h, es, i); }
    }
  }

  lemma PrefixValid(h: Hashing, es: seq<AuditEvent>, n: nat)
    requires Valid(h, es) && n <= |es|
    ensures Valid(h, es[..n])
  {
    forall i | 0 <= i < n ensures GoodAt(h, es[..n], i) { assert GoodAt(h, es, i); }
  }

  lemma {:induction false} ValidIsBuilt(h: Hashing, es: seq<AuditEvent>) returns (bs: seq<EventBody>)
    requires Valid(h, es)
    ensures Build(h, bs) == es
  {
    if es == [] {
      bs := [];
    } else {
      var n := |es| - 1;
      PrefixValid(h, es, n);
      var front := ValidIsBuilt(h, es[..n]);
      assert GoodAt(h, es, n);
      bs := front + [es[n].data.body];
      assert bs[..|bs| - 1] == front && PrevHash(es, n) == Head(es[..n]);
      assert es == es[..n] + [es[n]];
    }
  }

  lemma {:induction false} BuiltIsValid(h: Hashing, bs: seq<EventBody>)
    ensures Valid(h, Build(h, bs))
  {
    if bs != [] {
      BuiltIsValid(h, bs[..|bs| - 1]);
      AppendValid(h, Build(h, bs[..|bs| - 1]), bs[|bs| - 1]);
    }
  }

  ghost predicate Built(h: Hashing, es: seq<AuditEvent>) { exists bs :: Build(h, bs) == es }

  /** A chain verifies exactly when every prefix of it, the whole included, was built by finalizing events in turn. */
  lemma ValidMeansEveryPrefixBuilt(h: Hashing, es: seq<AuditEvent>)
    ensures Valid(h, es) <==> forall n :: 0 <= n <= |es| ==> Built(h, es[..n])
  {
    if Valid(h, es) {
      forall n | 0 <= n <= |es| ensures Built(h, es[..n]) {
        PrefixValid(h, es, n);
        var bs := ValidIsBuilt(h, es[..n]);
      }
    }
    if Built(h, es[..|es|]) {
      assert es[..|es|] == es;
      var bs :| Build(h, bs) == es;
      BuiltIsValid(h, bs);
    }
  }

  // ---- the head fixes the history ----

  lemma FirstBar(p: string, c: string)
    requires '|' !in p
    ensures (p + "||" + c)[|p|] == '|' && forall i :: 0 <= i < |p| ==> (p + "||" + c)[i] != '|'
  {}

  lemma BarSplit(p: string, c: string, q: string, d: string)
    requires '|' !in p && '|' !in q && p + "||" + c == q + "||" + d
    ensures p == q && c == d
  {
    var s, t := p + "||" + c, q + "||" + d;
    FirstBar(p, c);
    FirstBar(q, d);
    assert |p| == |q|;
    assert s[..|p|] == p && t[..|q|] == q;
    assert s[|p| + 2..] == c && t[|q| + 2..] == d;
  }

  lemma HashFacts(h: Hashing, prev: string, data: EventData)
    requires h.Ideal()
    ensures EventHash(h, prev, data) != GENESIS_HASH && '|' !in EventHash(h, prev, data)
  {
    assert EventHash(h, prev, data)[0] == 's';
  }

  lemma HashInjective(h: Hashing, p: string, d: EventData, q: string, e: EventData)
    requires h.Ideal() && '|' !in p && '|' !in q && EventHash(h, p, d) == EventHash(h, q, e)
    ensures p == q && d == e
  {
    assert EventHash(h, p, d)[7..] == EventHash(h, q, e)[7..];
    BarSplit(p, h.canonical(d), q, h.canonical(e));
  }

  lemma HeadFacts(h: Hashing, es: seq<AuditEvent>)
    requires h.Ideal() && Valid(h, es)
    ensures '|' !in Head(es) && (Head(es) == GENESIS_HASH <==> es == [])
  {
    if es != [] {
      var last := es[|es| - 1];
      assert GoodAt(h, es, |es| - 1);
      HashFacts(h, last.data.prevHash, last.data);
    }
  }

  /** Two verifying chains with one head hash are the same chain, whatever their lengths. */
  lemma {:induction false} HeadFixesHistory(h: Hashing, a: seq<AuditEvent>, b: seq<AuditEvent>)
    requires h.Ideal() && Valid(h, a) && Valid(h, b) && Head(a) == Head(b)
    ensures a == b
  {
    HeadFacts(h, a);
    HeadFacts(h, b);
    if a != [] {
      var m, n := |a| - 1, |b| - 1;
      PrefixValid(h, a, m);
      PrefixValid(h, b, n);
      HeadFacts(h, a[..m]);
      HeadFacts(h, b[..n]);
      assert GoodAt(h, a, m) && GoodAt(h, b, n);
      HashInjective(h, a[m].data.prevHash, a[m].data, b[n].data.prevHash, b[n].data);
      HeadFixesHistory(h, a[..m], b[..n]);
      assert a == a[..m] + [a[m]] && b == b[..n] + [b[n]];
    }
  }

  /** Any rewriting of a verifying history is detected: it stops verifying or shows another head. */
  lemma RewritingIsDetected(h: Hashing, original: seq<AuditEvent>, rewritten: seq<AuditEvent>)
    requires h.Ideal() && Valid(h, original) && rewritten != original
    ensures !Valid(h, rewritten) || Head(rewritten) != Head(original)
  {
    if Valid(h, rewritten) && Head(rewritten) == Head(original) { HeadFixesHistory(h, original, rewritten); }
  }

  // ---- appending with a head that was read earlier ----

  /** Reading the chain and appending to it are two store calls: the longer chain verifies exactly if the head
      that was read is still the head. */
  lemma AppendWithHead(h: Hashing, es: seq<AuditEvent>, body: EventBody, prev: string)
    requires Valid(h, es)
    ensures Valid(h, es + [Finalize(h, body, prev)]) <==> prev == Head(es)
  {
    var longer := es + [Finalize(h, body, prev)];
    if prev == Head(es) { AppendValid(h, es, body); }
    if Valid(h, longer) {
      assert GoodAt(h, longer, |es|);
      assert PrevHash(longer, |es|) == Head(es);
    }
  }

  /** So two appends that read the same head break the chain, and only appends kept apart preserve it. */
  lemma RacingAppendsBreakTheChain(h: Hashing, es: seq<AuditEvent>, a: EventBody, b: EventBody)
    requires h.Ideal() && Valid(h, es)
    ensures !Valid(h, es + [Finalize(h, a, Head(es))] + [Finalize(h, b, Head(es))])
  {
    var first := Append(h, es, a);
    AppendValid(h, es, a);
    AppendWithHead(h, first, b, Head(es));
    if Head(first) == Head(es) { HeadFixesHistory(h, first, es); }
  }
}
