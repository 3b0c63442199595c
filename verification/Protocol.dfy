/** The request-step system: every HTTP request, and every event delivery, is one atomic step on the shared store. */
module Protocol {
  import opened Text
  import opened Json
  import opened StateMachine
  import opened Purpose
  import opened Constraints
  import opened AuditChain
  import opened Records
  import opened Store
  import opened Settings
  import opened Erp
  import CP = ControlPlane
  import GW = Gateway
  import WK = Worker

  /** A signature made by the control plane, with the request it answered. */
  datatype Issuance = Issuance(claims: Claims, request: CP.EvaluateRequest, issuedAt: int)

  /** One adapter call of the gateway. */
  datatype Call = Call(claims: Claims, arguments: Object, adapter: AdapterResult, outcome: GW.ExecOutcome)

  /** A decision on an approval, and a delegation, as they were asked for. */
  datatype Given = Given(request: CP.ApprovalRequest, amb: Ambient)
  datatype Delegated = Delegated(request: CP.CreateDelegationRequest, amb: Ambient)

  /** The store and the ERP, and logs of what was delegated, decided, signed, handed out and executed. */
  datatype World = World(store: State, erp: ErpState, delegated: seq<Delegated>, given: seq<Given>,
                         signed: seq<Issuance>, returned: seq<Claims>, calls: seq<Call>)

  datatype Step =
    | CreateDelegation(create: CP.CreateDelegationRequest, amb: Ambient)
    | Revoke(delegationId: string, reason: string, user: string, amb: Ambient)
    | Evaluate(eval: CP.EvaluateRequest, amb: Ambient, semanticBlocks: bool, evidence: Object)
    | Approve(approval: CP.ApprovalRequest, amb: Ambient)
    | Release(taskId: string, expectedState: TaskState, expectedVersion: Option<int>, reason: string, user: string, amb: Ambient)
    | Execute(exec: GW.ExecuteRequest, amb: Ambient)
    | Deliver(event: Envelope, ids: WK.FreshIds, amb: Ambient)

  ghost predicate Signed(w: World, c: Claims) { exists i :: 0 <= i < |w.signed| && w.signed[i].claims == c }

  /** Identifiers are fresh, and a token verifies only if the control plane signed it. */
  ghost predicate Enabled(w: World, s: Step) {
    match s
    case CreateDelegation(_, amb) => amb.newId !in w.store.delegations
    case Evaluate(_, amb, _, _) => amb.newId !in w.store.grants
    case Approve(_, amb) => amb.newId !in w.store.approvals
    case Execute(req, _) => req.verified.Some? ==> Signed(w, req.verified.value)
    case _ => true
  }

  ghost function Next(cfg: Config, w: World, s: Step): World {
    match s
    case CreateDelegation(req, amb) => NextDelegation(cfg, w, req, amb)
    case Revoke(id, reason, user, amb) => w.(store := CP.RevokeSpec(cfg, w.store, id, reason, user, amb).0)
    case Evaluate(req, amb, blocks, evidence) => NextEvaluate(cfg, w, req, amb, blocks, evidence)
    case Approve(req, amb) => w.(store := CP.CreateApprovalSpec(cfg, w.store, req, amb), given := w.given + [Given(req, amb)])
    case Release(t, state, version, reason, user, amb) =>
      w.(store := CP.ReleaseSpec(cfg, w.store, t, state, version, reason, user, amb).0)
    case Execute(req, amb) => NextExecute(cfg, w, req, amb)
    case Deliver(e, ids, amb) => w.(store := WK.HandleSpec(cfg, w.store, e, ids, amb).0)
  }

  ghost function NextDelegation(cfg: Config, w: World, req: CP.CreateDelegationRequest, amb: Ambient): World {
    var (st, r) := CP.CreateDelegationSpec(cfg, w.store, req, amb);
    w.(store := st, delegated := if r == CP.Done then w.delegated + [Delegated(req, amb)] else w.delegated)
  }

  ghost function NextEvaluate(cfg: Config, w: World, req: CP.EvaluateRequest, amb: Ambient, blocks: bool,
                              evidence: Object): World {
    var v := CP.Decide(cfg, w.store, req, amb.now, blocks);
    var (st, o) := CP.EvaluateGrantSpec(cfg, w.store, req, amb, blocks, evidence);
    w.(store := st,
       signed := if v.Issue? then w.signed + [Issuance(CP.MakeClaims(cfg, req, v, amb), req, amb.now)] else w.signed,
       returned := if o.Granted? then w.returned + [o.claims] else w.returned)
  }

  ghost function NextExecute(cfg: Config, w: World, req: GW.ExecuteRequest, amb: Ambient): World {
    var (st, e, o) := GW.ExecuteSpec(cfg, w.store, w.erp, req, amb);
    if o.Refused? || req.verified.None? || GW.AdapterFor(req.verified.value.tool).None? then w.(store := st, erp := e)
    else
      var c := req.verified.value;
      var r := GW.Dispatch(cfg, w.erp, GW.AdapterFor(c.tool).value, req.arguments, c.jti, amb.newId, amb.now).1;
      w.(store := st, erp := e, calls := w.calls + [Call(c, req.arguments, r, o)])
  }

  /** A deployment before its first request: tasks may already exist, in any state. */
  ghost predicate Start(w: World) {
    && w.store.delegations == map[] && w.store.grants == map[] && w.store.approvals == map[] && w.store.approvalOrder == []
    && w.store.audit == map[]
    && w.erp.paymentsByGrant == map[] && w.delegated == [] && w.given == [] && w.signed == [] && w.returned == [] && w.calls == []
  }

  ghost function Run(cfg: Config, w: World, steps: seq<Step>): World
    decreases |steps|
  {
    if steps == [] then w else Next(cfg, Run(cfg, w, steps[..|steps| - 1]), steps[|steps| - 1])
  }

  ghost predicate CanRun(cfg: Config, w: World, steps: seq<Step>)
    decreases |steps|
  {
    steps == [] || (CanRun(cfg, w, steps[..|steps| - 1]) && Enabled(Run(cfg, w, steps[..|steps| - 1]), steps[|steps| - 1]))
  }

  /** Reachable by some run from some start. */
  ghost predicate Reachable(cfg: Config, w: World) {
    exists w0, steps :: Start(w0) && CanRun(cfg, w0, steps) && w == Run(cfg, w0, steps)
  }

  // ---- history only grows ----

  ghost predicate DelegationGrows(d: Delegation, d': Delegation) {
    && d' == d.(status := d'.status, revokedAt := d'.revokedAt, revokedBy := d'.revokedBy)
    && (d'.status == d.status || d'.status == Revoked)
  }

  ghost predicate GrantGrows(g: GrantRecord, g': GrantRecord) {
    g' == g || (g.status == Issued && g'.status != Issued && g' == g.(status := g'.status, consumedAt := g'.consumedAt))
  }

  ghost predicate ApprovalGrows(a: Approval, a': Approval) {
    a' == a || (a.usedByGrantId.None? && a'.usedByGrantId.Some? && a' == a.(usedByGrantId := a'.usedByGrantId))
  }

  /** What later contents keep of the records under one key. */
  ghost predicate GrowsAt(st: State, st': State, k: string) {
    && (k in st.delegations ==> k in st'.delegations && DelegationGrows(st.delegations[k], st'.delegations[k]))
    && (k in st.grants ==> k in st'.grants && GrantGrows(st.grants[k], st'.grants[k]))
    && (k in st.approvals ==> k in st'.approvals && ApprovalGrows(st.approvals[k], st'.approvals[k]))
    && (k in st.tasks ==> k in st'.tasks && (st.tasks[k].state.Terminal() ==> st'.tasks[k].state == st.tasks[k].state))
    && Chain(st.audit, k) <= Chain(st'.audit, k)
  }

  ghost predicate StoreGrows(st: State, st': State) { forall k :: GrowsAt(st, st', k) }

  ghost predicate PaymentsGrow(e: ErpState, e': ErpState) {
    forall g :: g in e.paymentsByGrant ==> g in e'.paymentsByGrant && e'.paymentsByGrant[g] == e.paymentsByGrant[g]
  }

  ghost predicate Grows(w: World, w': World) {
    && StoreGrows(w.store, w'.store)
    && PaymentsGrow(w.erp, w'.erp)
    && w.delegated <= w'.delegated && w.given <= w'.given
    && w.signed <= w'.signed && w.returned <= w'.returned && w.calls <= w'.calls
  }

  ghost predicate KeyedAt(st: State, k: string) {
    && (k in st.delegations ==> st.delegations[k].delegationId == k)
    && (k in st.approvals ==> st.approvals[k].approvalId == k)
  }

  /** Records are stored under their own identifiers. */
  ghost predicate Keyed(st: State) { forall k :: KeyedAt(st, k) }

  lemma StoreGrowsTransitive(a: State, b: State, c: State)
    requires StoreGrows(a, b) && StoreGrows(b, c)
    ensures StoreGrows(a, c)
  {
    forall k ensures GrowsAt(a, c, k) { assert GrowsAt(a, b, k) && GrowsAt(b, c, k); }
  }

  /** From `a` the store has grown to a well-keyed `b`. */
  ghost predicate Grown(a: State, b: State) { StoreGrows(a, b) && Keyed(b) }

  lemma GrownStep(a: State, b: State, c: State)
    requires Grown(a, b) && forall k :: GrowsAt(b, c, k) && (KeyedAt(b, k) ==> KeyedAt(c, k))
    ensures Grown(a, c)
  {
    StoreGrowsTransitive(a, b, c);
    forall k ensures KeyedAt(c, k) { assert KeyedAt(b, k) && GrowsAt(b, c, k); }
  }

  lemma GrownByRecord(h: Hashing, a: State, b: State, body: EventBody)
    requires Grown(a, b)
    ensures Grown(a, Record(h, b, body))
  {
    GrownStep(a, b, Record(h, b, body));
  }

  lemma GrownByTask(a: State, b: State, taskId: string, t': Task)
    requires Grown(a, b) && (taskId in b.tasks && b.tasks[taskId].state.Terminal() ==> t'.state == b.tasks[taskId].state)
    ensures Grown(a, b.(tasks := b.tasks[taskId := t']))
  {
    GrownStep(a, b, b.(tasks := b.tasks[taskId := t']));
  }

  lemma GrownByGrant(a: State, b: State, g: GrantRecord)
    requires Grown(a, b) && (g.grantId in b.grants ==> GrantGrows(b.grants[g.grantId], g))
    ensures Grown(a, b.(grants := b.grants[g.grantId := g]))
  {
    GrownStep(a, b, b.(grants := b.grants[g.grantId := g]));
  }

  lemma GrownByApproval(a: State, b: State, x: Approval)
    requires Grown(a, b) && (x.approvalId in b.approvals ==> ApprovalGrows(b.approvals[x.approvalId], x))
    ensures Grown(a, PutApprovalIn(b, x))
  {
    GrownStep(a, b, PutApprovalIn(b, x));
  }

  lemma GrownBeside(a: State, b: State, checkpoints: Checkpoints, receipts: Receipts)
    requires Grown(a, b)
    ensures Grown(a, b.(checkpoints := checkpoints, receipts := receipts))
  {
    GrownStep(a, b, b.(checkpoints := checkpoints, receipts := receipts));
  }

  lemma GrownByDelegation(a: State, b: State, d: Delegation)
    requires Grown(a, b) && (d.delegationId in b.delegations ==> DelegationGrows(b.delegations[d.delegationId], d))
    ensures Grown(a, b.(delegations := b.delegations[d.delegationId := d]))
  {
    GrownStep(a, b, b.(delegations := b.delegations[d.delegationId := d]));
  }

  lemma DenyGrows(cfg: Config, st: State, req: CP.EvaluateRequest, code: CP.Reasons.Reason, quarantine: bool,
                  amb: Ambient)
    requires Keyed(st)
    ensures Grown(st, CP.Deny(cfg, st, req, code, quarantine, amb).0)
  {
    GrownByRecord(cfg.hashing, st, st, CP.DeniedEvent(cfg, req, code, amb));
    if amb.auditOk && quarantine {
      QuarantineGrows(cfg, st, Record(cfg.hashing, st, CP.DeniedEvent(cfg, req, code, amb)), req, code, amb);
    }
  }

  lemma QuarantineGrows(cfg: Config, a: State, st: State, req: CP.EvaluateRequest, code: CP.Reasons.Reason,
                        amb: Ambient)
    requires Grown(a, st)
    ensures Grown(a, CP.Quarantine(cfg, st, req, code, amb).0)
  {
    if req.taskId in st.tasks && st.tasks[req.taskId].state == Running {
      var t := CP.QuarantineTask(st.tasks[req.taskId], amb.now);
      GrownByTask(a, st, req.taskId, t);
      GrownByRecord(cfg.hashing, a, st.(tasks := st.tasks[req.taskId := t]), CP.QuarantinedEvent(cfg, req, code, amb));
    }
  }

  lemma IssueGrows(cfg: Config, st: State, req: CP.EvaluateRequest, v: CP.Verdict, amb: Ambient, evidence: Object)
    requires Keyed(st) && v.Issue? && amb.newId !in st.grants
    requires v.approval.Some? ==> v.approval.value.usedByGrantId.None? && Get(st.approvals, v.approval.value.approvalId) == v.approval
    ensures Grown(st, CP.IssueGrant(cfg, st, req, v, amb, evidence).0)
  {
    var c := CP.MakeClaims(cfg, req, v, amb);
    var status := if amb.auditOk then Issued else Expired;
    var rec := CP.MakeRecord(cfg, c, status, amb.now);
    GrownByGrant(st, st, rec);
    var st1 := st.(grants := st.grants[c.jti := rec]);
    var st2 := st1;
    if v.approval.Some? {
      var used := v.approval.value.(usedByGrantId := Some(c.jti));
      GrownByApproval(st, st1, used);
      st2 := PutApprovalIn(st1, used);
    }
    if amb.auditOk {
      GrownByRecord(cfg.hashing, st, st2, CP.IssuedEvent(cfg, req, c, amb, evidence));
    } else {
      IssueFailureState(cfg, st, req, v, amb, evidence);
    }
  }

  /** A failed issuance leaves the grant expired, and the approval bound. */
  lemma IssueFailureState(cfg: Config, st: State, req: CP.EvaluateRequest, v: CP.Verdict, amb: Ambient,
                          evidence: Object)
    requires v.Issue? && !amb.auditOk
    ensures var c := CP.MakeClaims(cfg, req, v, amb);
      var st1 := st.(grants := st.grants[c.jti := CP.MakeRecord(cfg, c, Expired, amb.now)]);
      CP.IssueGrant(cfg, st, req, v, amb, evidence).0
        == if v.approval.Some? then PutApprovalIn(st1, v.approval.value.(usedByGrantId := Some(c.jti))) else st1
  {
    var c := CP.MakeClaims(cfg, req, v, amb);
    var r := CP.MakeRecord(cfg, c, Expired, amb.now);
    assert st.grants[c.jti := CP.MakeRecord(cfg, c, Issued, amb.now)][c.jti := r] == st.grants[c.jti := r];
  }

  // ---- what a decision to issue means ----

  /** The request lies inside the delegation, the manifest and the purpose policy. */
  ghost predicate Authorized(cfg: Config, st: State, req: CP.EvaluateRequest, d: Delegation, policy: ToolPolicy) {
    && Get(st.delegations, req.delegationId) == Some(d) && d.taskId == req.taskId
    && (d.allowedAgents == [] || req.agentId in d.allowedAgents) && req.region in d.allowedRegions
    && req.agentId in cfg.manifests && Declares(cfg.manifests[req.agentId], req.tool)
    && req.agentVersion == cfg.manifests[req.agentId].version
    && Authorizes(cfg.policy.purposes, d.purpose, req.agentId, req.tool) && policy == cfg.policy.purposes[d.purpose][req.agentId][req.tool]
  }

  predicate Declares(m: Manifest, tool: string) { tool in m.capabilities && tool !in m.deniedTools }

  predicate Authorizes(purposes: map<string, PurposeAgents>, purpose: string, agent: string, tool: string) {
    purpose in purposes && agent in purposes[purpose] && tool in purposes[purpose][agent]
  }

  lemma ScopeMeaning(cfg: Config, st: State, req: CP.EvaluateRequest, now: int)
    requires CP.Scope(cfg, st, req, now).Inside?
    ensures var r := CP.Scope(cfg, st, req, now);
      && Authorized(cfg, st, req, r.delegation, r.policy)
      && r.delegation.status != Revoked && now < r.delegation.expiresAt
      && req.taskId in st.tasks && st.tasks[req.taskId].state.Live()
  {}

  /** The approval an issuance uses. */
  ghost predicate Approves(st: State, a: Approval, req: CP.EvaluateRequest, policy: ToolPolicy, sponsor: string,
                           now: int) {
    Get(st.approvals, a.approvalId) == Some(a) && a.taskId == req.taskId && CP.Suitable(a, req, policy, sponsor, now)
  }

  lemma SelectedApproves(st: State, req: CP.EvaluateRequest, policy: ToolPolicy, sponsor: string, now: int)
    requires Keyed(st) && CP.Select(ListedApprovals(st, req.taskId), req, policy, sponsor, now).Selected?
    ensures Approves(st, CP.Select(ListedApprovals(st, req.taskId), req, policy, sponsor, now).approval, req, policy, sponsor, now)
  {
    var listed := ListedApprovals(st, req.taskId);
    CP.SelectMeaning(listed, req, policy, sponsor, now);
    ListedAreStored(st, st.approvalOrder, req.taskId);
    var a := CP.Select(listed, req, policy, sponsor, now).approval;
    assert a in listed;
    var id :| id in st.approvals && st.approvals[id] == a;
    assert KeyedAt(st, id);
  }

  lemma IssueMeaning(cfg: Config, st: State, req: CP.EvaluateRequest, now: int, blocks: bool)
    requires Keyed(st) && CP.Decide(cfg, st, req, now, blocks).Issue?
    ensures var v := CP.Decide(cfg, st, req, now, blocks);
      && CP.Scope(cfg, st, req, now) == CP.Inside(v.delegation, v.policy)
      && v.terms == CP.Terms(req.arguments, v.policy) && CP.PathsLegal(req.arguments)
      && Constraints.Evaluate(cfg.rx, v.terms, Dict(req.arguments)) == Allowed
      && (v.policy.requiresApproval <==> v.approval.Some?)
      && (v.approval.Some? ==> Approves(st, v.approval.value, req, v.policy, v.delegation.sponsor, now))
  {
    var r := CP.Scope(cfg, st, req, now);
    if r.policy.requiresApproval { SelectedApproves(st, req, r.policy, r.delegation.sponsor, now); }
  }

  // ---- every step only grows the world ----

  lemma CreateDelegationGrows(cfg: Config, st: State, req: CP.CreateDelegationRequest, amb: Ambient)
    requires Keyed(st) && amb.newId !in st.delegations
    ensures Grown(st, CP.CreateDelegationSpec(cfg, st, req, amb).0)
  {
    var d := Delegation(amb.newId, req.user, req.purpose, req.taskId, req.allowedAgents, req.allowedRegions,
                        cfg.policy.version, Active, amb.now, req.expiresAt, None, None);
    GrownByDelegation(st, st, d);
    var st1 := st.(delegations := st.delegations[amb.newId := d]);
    GrownByTask(st, st1, req.taskId, if req.taskId in st.tasks then st.tasks[req.taskId]
                                     else CP.NewTask(req.taskId, amb.newId, cfg.policy.version, amb.now));
  }

  lemma RevokeGrows(cfg: Config, st: State, id: string, reason: string, user: string, amb: Ambient)
    requires Keyed(st)
    ensures Grown(st, CP.RevokeSpec(cfg, st, id, reason, user, amb).0)
  {
    if id in st.delegations {
      assert KeyedAt(st, id);
      var d := st.delegations[id].(status := Revoked, revokedAt := Some(amb.now), revokedBy := Some(user));
      GrownByDelegation(st, st, d);
      GrownByRecord(cfg.hashing, st, st.(delegations := st.delegations[id := d]), CP.RevokedEvent(d, reason, user, amb));
    }
  }

  lemma ReleaseGrows(cfg: Config, st: State, taskId: string, state: TaskState, version: Option<int>, reason: string,
                     user: string, amb: Ambient)
    requires Keyed(st)
    ensures Grown(st, CP.ReleaseSpec(cfg, st, taskId, state, version, reason, user, amb).0)
  {
    if taskId in st.tasks && Transition(st.tasks[taskId].state, HumanReleased).Some? {
      var t := CP.ReleaseTask(Transition(st.tasks[taskId].state, HumanReleased).value, amb.newId, amb.now)(st.tasks[taskId]);
      TerminalIsFinal(st.tasks[taskId].state);
      GrownByTask(st, st, taskId, t);
      GrownByRecord(cfg.hashing, st, st.(tasks := st.tasks[taskId := t]), CP.ReleasedEvent(cfg, taskId, t, reason, user, amb));
    }
  }

  lemma DeliverGrows(cfg: Config, st: State, e: Envelope, ids: WK.FreshIds, amb: Ambient)
    requires Keyed(st)
    ensures Grown(st, WK.HandleSpec(cfg, st, e, ids, amb).0)
  {
    var (receipts, admitted) := Reserve(st.receipts, e, amb.now, WORKER_LEASE);
    GrownBeside(st, st, st.checkpoints, receipts);
    if admitted { HandleGrows(cfg, st, st.(receipts := receipts), e, ids, amb); }
  }

  lemma HandleGrows(cfg: Config, a: State, st: State, e: Envelope, ids: WK.FreshIds, amb: Ambient)
    requires Grown(a, st)
    ensures Grown(a, WK.HandleAdmitted(cfg, st, e, ids, amb).0)
  {
    if e.taskId in st.tasks {
      var t := st.tasks[e.taskId];
      var plan := WK.MakePlan(t, WK.PriorOf(st.checkpoints, t), e, amb.now, ids);
      if plan.Some? {
        TerminalIsFinal(t.state);
        var st0 := st.(checkpoints := WK.PutCheckpoints(st.checkpoints, plan.value.checkpoints));
        GrownBeside(a, st, st0.checkpoints, st.receipts);
        GrownByTask(a, st0, e.taskId, plan.value.task);
        var event := WK.TransitionEvent(plan.value.task, t.state, e.eventId, amb);
        var st1 := st0.(tasks := st.tasks[e.taskId := plan.value.task]);
        GrownByRecord(cfg.hashing, a, st1, event);
        var st2 := Record(cfg.hashing, st1, event);
        GrownBeside(a, st2, st2.checkpoints, MarkComplete(st.receipts, e.eventId));
      }
    }
  }

  lemma ConsumeGrows(st: State, id: string, now: int)
    requires Keyed(st)
    ensures Grown(st, st.(grants := Consume(st.grants, id, now).0))
  {
    GrownStep(st, st, st.(grants := Consume(st.grants, id, now).0));
  }

  lemma ExecuteGrows(cfg: Config, st: State, e: ErpState, req: GW.ExecuteRequest, amb: Ambient)
    requires Keyed(st)
    ensures Grown(st, GW.ExecuteSpec(cfg, st, e, req, amb).0) && PaymentsGrow(e, GW.ExecuteSpec(cfg, st, e, req, amb).1)
  {
    if GW.Admit(cfg, st, req, amb.now).None? {
      var c := req.verified.value;
      var a := GW.AdapterFor(c.tool).value;
      if c.singleUse {
        ConsumeGrows(st, c.jti, amb.now);
        AdapterGrows(cfg, st, st.(grants := Consume(st.grants, c.jti, amb.now).0), e, a, c, req.arguments, amb);
      } else {
        AdapterGrows(cfg, st, st, e, a, c, req.arguments, amb);
      }
    }
  }

  lemma AdapterGrows(cfg: Config, a: State, st: State, e: ErpState, adapter: GW.Adapter, c: Claims, args: Object,
                     amb: Ambient)
    requires Grown(a, st)
    ensures Grown(a, GW.RunAdapter(cfg, st, e, adapter, c, args, amb).0)
    ensures PaymentsGrow(e, GW.RunAdapter(cfg, st, e, adapter, c, args, amb).1)
  {
    var r := GW.Dispatch(cfg, e, adapter, args, c.jti, amb.newId, amb.now).1;
    if r.Raw? { GrownByRecord(cfg.hashing, a, st, GW.CompletedEvent(c, GW.ResourceRef(cfg, adapter, r.record), amb)); }
  }

  lemma EvaluateGrows(cfg: Config, st: State, req: CP.EvaluateRequest, amb: Ambient, blocks: bool, evidence: Object)
    requires Keyed(st) && amb.newId !in st.grants
    ensures Grown(st, CP.EvaluateGrantSpec(cfg, st, req, amb, blocks, evidence).0)
  {
    var v := CP.Decide(cfg, st, req, amb.now, blocks);
    match v
    case Refuse(code, quarantine) => DenyGrows(cfg, st, req, code, quarantine, amb);
    case Crash =>
    case Issue(_, _, _, _) =>
      IssueMeaning(cfg, st, req, amb.now, blocks);
      IssueGrows(cfg, st, req, v, amb, evidence);
  }

  lemma ApproveGrows(cfg: Config, st: State, req: CP.ApprovalRequest, amb: Ambient)
    requires Keyed(st) && amb.newId !in st.approvals
    ensures Grown(st, CP.CreateApprovalSpec(cfg, st, req, amb))
  {
    GrownByApproval(st, st, Approval(amb.newId, req.taskId, req.delegationId, req.approvalType, req.subject, req.decision,
      req.user, amb.now, amb.now + req.expiresInSeconds * SECOND, cfg.policy.version, None));
  }

  /** What a step must show: its store grew, and so did the payments and the logs. */
  lemma GrowsWith(w: World, w': World)
    requires Grown(w.store, w'.store) && PaymentsGrow(w.erp, w'.erp)
    requires w.delegated <= w'.delegated && w.given <= w'.given && w.signed <= w'.signed && w.returned <= w'.returned && w.calls <= w'.calls
    ensures Grows(w, w') && Keyed(w'.store)
  {}

  lemma GrantStepsGrow(cfg: Config, w: World, s: Step)
    requires Keyed(w.store) && Enabled(w, s) && (s.Evaluate? || s.Execute?)
    ensures Grows(w, Next(cfg, w, s)) && Keyed(Next(cfg, w, s).store)
  {
    match s {
      case Evaluate(req, amb, blocks, evidence) => EvaluateGrows(cfg, w.store, req, amb, blocks, evidence);
      case Execute(req, amb) => ExecuteGrows(cfg, w.store, w.erp, req, amb);
    }
    GrowsWith(w, Next(cfg, w, s));
  }

  lemma {:induction false} NextGrows(cfg: Config, w: World, s: Step)
    requires Keyed(w.store) && Enabled(w, s)
    ensures Grows(w, Next(cfg, w, s)) && Keyed(Next(cfg, w, s).store)
  {
    if s.Evaluate? || s.Execute? {
      GrantStepsGrow(cfg, w, s);
    } else {
      match s {
        case CreateDelegation(req, amb) => CreateDelegationGrows(cfg, w.store, req, amb);
        case Revoke(id, reason, user, amb) => RevokeGrows(cfg, w.store, id, reason, user, amb);
        case Approve(req, amb) => ApproveGrows(cfg, w.store, req, amb);
        case Release(t, state, version, reason, user, amb) => ReleaseGrows(cfg, w.store, t, state, version, reason, user, amb);
        case Deliver(e, ids, amb) => DeliverGrows(cfg, w.store, e, ids, amb);
      }
      GrowsWith(w, Next(cfg, w, s));
    }
  }
}
