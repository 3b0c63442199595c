/** Request-step theorems about where delegations and approvals come from: each is what one request asked for. */
module Origins {
  import opened Text
  import opened Json
  import opened Records
  import opened Store
  import opened Settings
  import opened AuditChain
  import opened Protocol
  import Provenance
  import Calls
  import Erp
  import StateMachine
  import CP = ControlPlane
  import GW = Gateway
  import WK = Worker

  const DAY := 24 * 3600 * SECOND

  // ---- what a record owes to its request ----

  /** The approval is the decision that was asked for, by the user who asked; later only its use is added. */
  predicate DecidedAs(a: Approval, v: Given) {
    && a.approvalId == v.amb.newId && a.approver == v.request.user && a.decision == v.request.decision
    && a.taskId == v.request.taskId && a.delegationId == v.request.delegationId
    && a.approvalType == v.request.approvalType && a.subject == v.request.subject
    && a.createdAt == v.amb.now && a.expiresAt == v.amb.now + v.request.expiresInSeconds * SECOND
  }

  /** The delegation is what its sponsor asked for, for at most ninety days; later only its revocation is added. */
  predicate DelegatedAs(d: Delegation, x: Delegated) {
    && d.delegationId == x.amb.newId && d.sponsor == x.request.user && d.purpose == x.request.purpose
    && d.taskId == x.request.taskId && d.allowedAgents == x.request.allowedAgents && d.allowedRegions == x.request.allowedRegions
    && d.createdAt == x.amb.now && d.expiresAt == x.request.expiresAt && x.amb.now < d.expiresAt <= x.amb.now + 90 * DAY
    && (d.status == Active || d.status == Revoked)
  }

  // ---- the invariant ----

  predicate GivenFor(w: World, i: nat, k: string) {
    i < |w.given| && w.given[i].amb.newId == k && k in w.store.approvals && DecidedAs(w.store.approvals[k], w.given[i])
  }

  predicate DelegatedFor(w: World, i: nat, k: string) {
    i < |w.delegated| && w.delegated[i].amb.newId == k && k in w.store.delegations
    && DelegatedAs(w.store.delegations[k], w.delegated[i])
  }

  ghost predicate ApprovalAt(w: World, k: string) { k in w.store.approvals ==> exists i: nat :: GivenFor(w, i, k) }
  ghost predicate DelegationAt(w: World, k: string) { k in w.store.delegations ==> exists i: nat :: DelegatedFor(w, i, k) }

  ghost predicate GivenAt(w: World, i: nat) { i < |w.given| ==> GivenFor(w, i, w.given[i].amb.newId) }
  ghost predicate DelegatedAt(w: World, i: nat) { i < |w.delegated| ==> DelegatedFor(w, i, w.delegated[i].amb.newId) }

  ghost predicate GivenApart(w: World, i: nat, j: nat) { i < j < |w.given| ==> w.given[i].amb.newId != w.given[j].amb.newId }
  ghost predicate DelegatedApart(w: World, i: nat, j: nat) {
    i < j < |w.delegated| ==> w.delegated[i].amb.newId != w.delegated[j].amb.newId
  }

  /** Approvals are listed in the order of the decisions. */
  predicate InOrder(w: World) { w.store.approvalOrder == seq(|w.given|, i requires 0 <= i < |w.given| => w.given[i].amb.newId) }

  ghost predicate ApprovalsTraced(w: World) {
    InOrder(w) && (forall k :: ApprovalAt(w, k)) && (forall i: nat :: GivenAt(w, i)) && forall i: nat, j: nat :: GivenApart(w, i, j)
  }

  ghost predicate DelegationsTraced(w: World) {
    (forall k :: DelegationAt(w, k)) && (forall i: nat :: DelegatedAt(w, i)) && forall i: nat, j: nat :: DelegatedApart(w, i, j)
  }

  ghost predicate Inv(w: World) { Keyed(w.store) && ApprovalsTraced(w) && DelegationsTraced(w) }

  // ---- other steps add no approval and no delegation ----

  ghost predicate SameKeys(st: State, st': State) {
    && st'.approvals.Keys == st.approvals.Keys && st'.approvalOrder == st.approvalOrder
    && st'.delegations.Keys == st.delegations.Keys
  }

  lemma IssueAddsNone(cfg: Config, st: State, req: CP.EvaluateRequest, v: CP.Verdict, amb: Ambient, evidence: Object)
    requires v.Issue? && (v.approval.Some? ==> v.approval.value.approvalId in st.approvals)
    ensures SameKeys(st, CP.IssueGrant(cfg, st, req, v, amb, evidence).0)
  {
    Provenance.IssueEffect(cfg, st, req, v, amb, evidence);
  }

  lemma DenyAddsNone(cfg: Config, st: State, req: CP.EvaluateRequest, code: CP.Reasons.Reason, quarantine: bool, amb: Ambient)
    ensures SameKeys(st, CP.Deny(cfg, st, req, code, quarantine, amb).0)
  {}

  lemma EnactAddsNone(cfg: Config, st: State, req: CP.EvaluateRequest, v: CP.Verdict, amb: Ambient, evidence: Object)
    requires v.Issue? && v.approval.Some? ==> v.approval.value.approvalId in st.approvals
    ensures SameKeys(st, CP.Enact(cfg, st, req, v, amb, evidence).0)
  {
    match v
    case Refuse(code, quarantine) => DenyAddsNone(cfg, st, req, code, quarantine, amb);
    case Crash =>
    case Issue(_, _, _, _) => IssueAddsNone(cfg, st, req, v, amb, evidence);
  }

  lemma SelectionIsStored(cfg: Config, st: State, req: CP.EvaluateRequest, now: int, blocks: bool)
    requires Keyed(st)
    ensures var v := CP.Decide(cfg, st, req, now, blocks); v.Issue? && v.approval.Some? ==> v.approval.value.approvalId in st.approvals
  {
    if CP.Decide(cfg, st, req, now, blocks).Issue? { IssueMeaning(cfg, st, req, now, blocks); }
  }

  lemma AdapterAddsNone(cfg: Config, st: State, e: Erp.ErpState, a: GW.Adapter, c: Claims, args: Object, amb: Ambient)
    ensures SameKeys(st, GW.RunAdapter(cfg, st, e, a, c, args, amb).0)
  {
    var r := GW.Dispatch(cfg, e, a, args, c.jti, amb.newId, amb.now).1;
    if r.Raw? { RecordAddsNone(cfg, st, GW.CompletedEvent(c, GW.ResourceRef(cfg, a, r.record), amb)); }
  }

  lemma RecordAddsNone(cfg: Config, st: State, b: EventBody)
    ensures SameKeys(st, Record(cfg.hashing, st, b))
  {}

  lemma ExecuteAddsNone(cfg: Config, w: World, req: GW.ExecuteRequest, amb: Ambient)
    ensures SameKeys(w.store, GW.ExecuteSpec(cfg, w.store, w.erp, req, amb).0)
  {
    if GW.ExecuteSpec(cfg, w.store, w.erp, req, amb).2.Refused? {
      GW.RefusalsChangeNothing(cfg, w.store, w.erp, req, amb);
    } else {
      Calls.ExecuteRuns(cfg, w.store, w.erp, req, amb);
      var c := req.verified.value;
      var st1 := w.store.(grants := if c.singleUse then Consume(w.store.grants, c.jti, amb.now).0 else w.store.grants);
      AdapterAddsNone(cfg, st1, w.erp, GW.AdapterFor(c.tool).value, c, req.arguments, amb);
    }
  }

  lemma DeliverAddsNone(cfg: Config, st: State, e: Envelope, ids: WK.FreshIds, amb: Ambient)
    ensures SameKeys(st, WK.HandleSpec(cfg, st, e, ids, amb).0)
  {}

  lemma ReleaseAddsNone(cfg: Config, st: State, id: string, state: StateMachine.TaskState, version: Option<int>, reason: string,
                        user: string, amb: Ambient)
    ensures SameKeys(st, CP.ReleaseSpec(cfg, st, id, state, version, reason, user, amb).0)
  {}

  lemma RevokeAddsNone(cfg: Config, st: State, id: string, reason: string, user: string, amb: Ambient)
    requires Keyed(st)
    ensures SameKeys(st, CP.RevokeSpec(cfg, st, id, reason, user, amb).0)
  {
    assert KeyedAt(st, id);
  }

  lemma OthersAddNone(cfg: Config, w: World, s: Step)
    requires Keyed(w.store) && !s.Approve? && !s.CreateDelegation?
    ensures SameKeys(w.store, Next(cfg, w, s).store)
  {
    match s
    case Evaluate(req, amb, blocks, evidence) =>
      SelectionIsStored(cfg, w.store, req, amb.now, blocks);
      EnactAddsNone(cfg, w.store, req, CP.Decide(cfg, w.store, req, amb.now, blocks), amb, evidence);
    case Execute(req, amb) => ExecuteAddsNone(cfg, w, req, amb);
    case Revoke(id, reason, user, amb) => RevokeAddsNone(cfg, w.store, id, reason, user, amb);
    case Release(id, state, version, reason, user, amb) => ReleaseAddsNone(cfg, w.store, id, state, version, reason, user, amb);
    case Deliver(e, ids, amb) => DeliverAddsNone(cfg, w.store, e, ids, amb);
  }

  // ---- every step keeps it ----

  lemma ApprovalStays(w: World, w': World, i: nat, k: string)
    requires GivenFor(w, i, k) && GrowsAt(w.store, w'.store, k) && w.given <= w'.given
    ensures GivenFor(w', i, k)
  {}

  lemma DelegationStays(w: World, w': World, i: nat, k: string)
    requires DelegatedFor(w, i, k) && GrowsAt(w.store, w'.store, k) && w.delegated <= w'.delegated
    ensures DelegatedFor(w', i, k)
  {}

  /** What a step must show: its log grew by at most the one record that is new. */
  ghost predicate ApprovalsFollow(w: World, w': World) {
    || (w'.given == w.given && w'.store.approvals.Keys == w.store.approvals.Keys && w'.store.approvalOrder == w.store.approvalOrder)
    || (exists v :: w'.given == w.given + [v] && v.amb.newId !in w.store.approvals && GivenFor(w', |w.given|, v.amb.newId)
                    && w'.store.approvals.Keys == w.store.approvals.Keys + {v.amb.newId}
                    && w'.store.approvalOrder == w.store.approvalOrder + [v.amb.newId])
  }

  ghost predicate DelegationsFollow(w: World, w': World) {
    || (w'.delegated == w.delegated && w'.store.delegations.Keys == w.store.delegations.Keys)
    || (exists x :: w'.delegated == w.delegated + [x] && x.amb.newId !in w.store.delegations
                    && DelegatedFor(w', |w.delegated|, x.amb.newId)
                    && w'.store.delegations.Keys == w.store.delegations.Keys + {x.amb.newId})
  }

  lemma ApprovalsStayTraced(w: World, w': World)
    requires ApprovalsTraced(w) && StoreGrows(w.store, w'.store) && ApprovalsFollow(w, w')
    ensures ApprovalsTraced(w')
  {
    forall k ensures ApprovalAt(w', k) {
      assert ApprovalAt(w, k) && GrowsAt(w.store, w'.store, k);
      if k in w.store.approvals {
        var i: nat :| GivenFor(w, i, k);
        ApprovalStays(w, w', i, k);
      }
    }
    forall i: nat ensures GivenAt(w', i) {
      assert GivenAt(w, i);
      if i < |w.given| {
        assert GrowsAt(w.store, w'.store, w.given[i].amb.newId);
        ApprovalStays(w, w', i, w.given[i].amb.newId);
      }
    }
    forall i: nat, j: nat ensures GivenApart(w', i, j) { assert GivenApart(w, i, j) && GivenAt(w, i); }
  }

  lemma DelegationsStayTraced(w: World, w': World)
    requires DelegationsTraced(w) && StoreGrows(w.store, w'.store) && DelegationsFollow(w, w')
    ensures DelegationsTraced(w')
  {
    forall k ensures DelegationAt(w', k) {
      assert DelegationAt(w, k) && GrowsAt(w.store, w'.store, k);
      if k in w.store.delegations {
        var i: nat :| DelegatedFor(w, i, k);
        DelegationStays(w, w', i, k);
      }
    }
    forall i: nat ensures DelegatedAt(w', i) {
      assert DelegatedAt(w, i);
      if i < |w.delegated| {
        assert GrowsAt(w.store, w'.store, w.delegated[i].amb.newId);
        DelegationStays(w, w', i, w.delegated[i].amb.newId);
      }
    }
    forall i: nat, j: nat ensures DelegatedApart(w', i, j) { assert DelegatedApart(w, i, j) && DelegatedAt(w, i); }
  }

  lemma ApproveFollows(cfg: Config, w: World, req: CP.ApprovalRequest, amb: Ambient)
    requires amb.newId !in w.store.approvals
    ensures var w' := Next(cfg, w, Approve(req, amb)); ApprovalsFollow(w, w') && DelegationsFollow(w, w')
  {
    var w' := Next(cfg, w, Approve(req, amb));
    assert w'.given == w.given + [Given(req, amb)] && GivenFor(w', |w.given|, amb.newId);
  }

  /** A delegation is made exactly for at most ninety days ahead and a known purpose; its task is made if there is none. */
  lemma CreatedExactlyWhen(cfg: Config, st: State, req: CP.CreateDelegationRequest, amb: Ambient)
    ensures var (st', r) := CP.CreateDelegationSpec(cfg, st, req, amb);
      var inTime := amb.now < req.expiresAt <= amb.now + 90 * DAY;
      && (r == CP.Done <==> inTime && req.purpose in cfg.policy.purposes)
      && (r == CP.Error(CP.Reasons.VALIDATION_ERROR) <==> !inTime)
      && (r == CP.Error(CP.Reasons.OUTSIDE_BUSINESS_PURPOSE) <==> inTime && req.purpose !in cfg.policy.purposes)
      && (r != CP.Done ==> st' == st)
      && (r == CP.Done ==> Created(cfg, st, st', req, amb))
  {}

  /** What the request leaves in the store. */
  predicate Created(cfg: Config, st: State, st': State, req: CP.CreateDelegationRequest, amb: Ambient) {
    && st' == st.(delegations := st'.delegations, tasks := st'.tasks) && amb.newId in st'.delegations
    && st'.delegations == st.delegations[amb.newId := st'.delegations[amb.newId]]
    && DelegatedAs(st'.delegations[amb.newId], Delegated(req, amb))
    && st'.delegations[amb.newId].status == Active && st'.delegations[amb.newId].policyVersion == cfg.policy.version
    && if req.taskId in st.tasks then st'.tasks == st.tasks
       else req.taskId in st'.tasks && st'.tasks == st.tasks[req.taskId := st'.tasks[req.taskId]]
            && st'.tasks[req.taskId] == Task(req.taskId, amb.newId, StateMachine.Created, 1, "", "", "", "", cfg.policy.version, amb.now, amb.now)
  }

  lemma CreateFollows(cfg: Config, w: World, req: CP.CreateDelegationRequest, amb: Ambient)
    requires amb.newId !in w.store.delegations
    ensures var w' := NextDelegation(cfg, w, req, amb); ApprovalsFollow(w, w') && DelegationsFollow(w, w')
  {
    var w' := NextDelegation(cfg, w, req, amb);
    CreatedExactlyWhen(cfg, w.store, req, amb);
    if CP.CreateDelegationSpec(cfg, w.store, req, amb).1 == CP.Done {
      assert w'.delegated == w.delegated + [Delegated(req, amb)] && DelegatedFor(w', |w.delegated|, amb.newId);
    }
  }

  lemma OthersFollow(cfg: Config, w: World, s: Step)
    requires Keyed(w.store) && !s.Approve? && !s.CreateDelegation?
    ensures var w' := Next(cfg, w, s); ApprovalsFollow(w, w') && DelegationsFollow(w, w')
  {
    OthersAddNone(cfg, w, s);
  }

  lemma NextKeepsInv(cfg: Config, w: World, s: Step)
    requires Inv(w) && Enabled(w, s)
    ensures Inv(Next(cfg, w, s))
  {
    NextGrows(cfg, w, s);
    match s {
      case Approve(req, amb) => ApproveFollows(cfg, w, req, amb);
      case CreateDelegation(req, amb) => CreateFollows(cfg, w, req, amb);
      case _ => OthersFollow(cfg, w, s);
    }
    ApprovalsStayTraced(w, Next(cfg, w, s));
    DelegationsStayTraced(w, Next(cfg, w, s));
  }

  lemma {:induction false} RunInv(cfg: Config, w: World, steps: seq<Step>)
    requires Inv(w) && CanRun(cfg, w, steps)
    ensures Inv(Run(cfg, w, steps))
    decreases |steps|
  {
    if steps != [] {
      RunInv(cfg, w, steps[..|steps| - 1]);
      NextKeepsInv(cfg, Run(cfg, w, steps[..|steps| - 1]), steps[|steps| - 1]);
    }
  }

  lemma ReachableInv(cfg: Config, w: World)
    requires Reachable(cfg, w)
    ensures Inv(w)
  {
    var w0, steps :| Start(w0) && CanRun(cfg, w0, steps) && w == Run(cfg, w0, steps);
    RunInv(cfg, w0, steps);
  }

  // ---- the theorems ----

  /** The i-th decision, and no other, made the approval. */
  ghost predicate OnlyDecision(w: World, i: nat, k: string)
    requires k in w.store.approvals
  {
    && i < |w.given| && DecidedAs(w.store.approvals[k], w.given[i])
    && forall j :: 0 <= j < |w.given| && w.given[j].amb.newId == k ==> j == i
  }

  /** The i-th request, and no other, made the delegation. */
  ghost predicate OnlyRequest(w: World, i: nat, k: string)
    requires k in w.store.delegations
  {
    && i < |w.delegated| && DelegatedAs(w.store.delegations[k], w.delegated[i])
    && forall j :: 0 <= j < |w.delegated| && w.delegated[j].amb.newId == k ==> j == i
  }

  /** In every reachable world each stored approval is what exactly one approval request decided. */
  lemma ApprovalsAreDecisions(cfg: Config, w: World, k: string)
    requires Reachable(cfg, w) && k in w.store.approvals
    ensures exists i: nat :: OnlyDecision(w, i, k)
  {
    ReachableInv(cfg, w);
    assert ApprovalAt(w, k) && KeyedAt(w.store, k);
    var i: nat :| GivenFor(w, i, k);
    forall j | 0 <= j < |w.given| && w.given[j].amb.newId == k ensures j == i {
      assert GivenApart(w, i, j) && GivenApart(w, j, i);
    }
    assert OnlyDecision(w, i, k);
  }

  /** The n-th approval in the listing order of the store is the n-th decision. */
  lemma ListedInOrder(cfg: Config, w: World, n: nat)
    requires Reachable(cfg, w)
    ensures |w.store.approvalOrder| == |w.given|
    ensures n < |w.given| ==> w.store.approvalOrder[n] == w.given[n].amb.newId
  {
    ReachableInv(cfg, w);
  }

  /** And each stored delegation is what exactly one delegation request asked for. */
  lemma DelegationsAreRequested(cfg: Config, w: World, k: string)
    requires Reachable(cfg, w) && k in w.store.delegations
    ensures exists i: nat :: OnlyRequest(w, i, k)
  {
    ReachableInv(cfg, w);
    assert DelegationAt(w, k);
    var i: nat :| DelegatedFor(w, i, k);
    forall j | 0 <= j < |w.delegated| && w.delegated[j].amb.newId == k ensures j == i {
      assert DelegatedApart(w, i, j) && DelegatedApart(w, j, i);
    }
    assert OnlyRequest(w, i, k);
  }

  /** And every request that was carried out has its record. */
  lemma DecisionsAreStored(cfg: Config, w: World, i: nat)
    requires Reachable(cfg, w)
    ensures i < |w.given| ==> var k := w.given[i].amb.newId; k in w.store.approvals && DecidedAs(w.store.approvals[k], w.given[i])
    ensures i < |w.delegated| ==>
      var k := w.delegated[i].amb.newId; k in w.store.delegations && DelegatedAs(w.store.delegations[k], w.delegated[i])
  {
    ReachableInv(cfg, w);
    assert GivenAt(w, i) && DelegatedAt(w, i);
  }
}
