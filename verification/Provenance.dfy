/** Request-step theorems: where payments come from, what arguments and authority a call carries. */
module Provenance {
  import opened Text
  import opened Json
  import opened StateMachine
  import opened Purpose
  import opened Constraints
  import opened Projection
  import opened AuditChain
  import opened Records
  import opened Store
  import opened Settings
  import opened Erp
  import opened Protocol
  import CP = ControlPlane
  import GW = Gateway
  import WK = Worker

  function PolicyOf(cfg: Config, c: Claims): Option<ToolPolicy> { cfg.policy.Tool(c.purpose, c.agentId, c.tool) }

  // ---- what every signature keeps true ----

  /** The claims repeat the request that was evaluated. */
  ghost predicate Answers(s: Issuance) {
    var c, req := s.claims, s.request;
    c.taskId == req.taskId && c.delegationId == req.delegationId && c.agentId == req.agentId
    && c.agentVersion == req.agentVersion && c.tool == req.tool && c.region == req.region && c.singleUse
  }

  /** The claims lie inside the delegation, the manifest and the purpose policy. */
  ghost predicate WithinScope(cfg: Config, d: Delegation, c: Claims) {
    && d.taskId == c.taskId && d.sponsor == c.humanSponsor && d.purpose == c.purpose
    && (d.allowedAgents == [] || c.agentId in d.allowedAgents) && c.region in d.allowedRegions
    && c.agentId in cfg.manifests && Declares(cfg.manifests[c.agentId], c.tool)
    && c.agentVersion == cfg.manifests[c.agentId].version
    && Authorizes(cfg.policy.purposes, c.purpose, c.agentId, c.tool)
    && PolicyOf(cfg, c) == Some(cfg.policy.purposes[c.purpose][c.agentId][c.tool])
    && c.allowedResponseFields == cfg.policy.purposes[c.purpose][c.agentId][c.tool].allowedFields
  }

  /** The constraints pin the evaluated arguments and add the policy's caps. */
  ghost predicate Pinned(cfg: Config, s: Issuance) {
    && PolicyOf(cfg, s.claims).Some? && CP.PathsLegal(s.request.arguments)
    && s.claims.argConstraints == CP.Terms(s.request.arguments, PolicyOf(cfg, s.claims).value)
  }

  /** The approval bound to a grant was suitable when it was bound. */
  ghost predicate ApprovalUsed(a: Approval, s: Issuance, policy: ToolPolicy) {
    && a.usedByGrantId == Some(s.claims.jti) && a.taskId == s.claims.taskId
    && CP.Suitable(a.(usedByGrantId := None), s.request, policy, s.claims.humanSponsor, s.issuedAt)
  }

  ghost predicate Backed(cfg: Config, st: State, s: Issuance) {
    PolicyOf(cfg, s.claims).Some? &&
    if PolicyOf(cfg, s.claims).value.requiresApproval then
      && |s.claims.approvalIds| == 1 && s.claims.approvalIds[0] in st.approvals
      && ApprovalUsed(st.approvals[s.claims.approvalIds[0]], s, PolicyOf(cfg, s.claims).value)
    else s.claims.approvalIds == []
  }

  /** The grant is of this deployment, and lives from the second it was issued for the configured time. */
  ghost predicate Dated(cfg: Config, s: Issuance) {
    var c, t := s.claims, s.issuedAt / SECOND;
    && c.iss == cfg.issuer && c.aud == cfg.audience && c.policyVersion == cfg.policy.version
    && c.iat == t && c.nbf == t && c.exp == t + cfg.grantTtl
  }

  /** The stored record of a grant repeats its claims; it ends when the token does. */
  ghost predicate Registered(cfg: Config, g: GrantRecord, s: Issuance) {
    var c := s.claims;
    && g.grantId == c.jti && g.delegationId == c.delegationId && g.taskId == c.taskId && g.agentId == c.agentId
    && g.agentVersion == c.agentVersion && g.tool == c.tool && g.policyVersion == cfg.policy.version
    && g.issuedAt == s.issuedAt && g.expiresAt == (s.issuedAt / SECOND + cfg.grantTtl) * SECOND
  }

  ghost predicate IssuanceOk(cfg: Config, st: State, s: Issuance) {
    && Answers(s) && Pinned(cfg, s) && Backed(cfg, st, s) && Dated(cfg, s)
    && s.claims.delegationId in st.delegations && WithinScope(cfg, st.delegations[s.claims.delegationId], s.claims)
    && s.claims.jti in st.grants && Registered(cfg, st.grants[s.claims.jti], s)
  }

  lemma IssuanceStays(cfg: Config, st: State, st': State, s: Issuance)
    requires IssuanceOk(cfg, st, s) && StoreGrows(st, st')
    ensures IssuanceOk(cfg, st', s)
  {
    assert GrowsAt(st, st', s.claims.delegationId) && GrowsAt(st, st', s.claims.jti);
    if s.claims.approvalIds != [] { assert GrowsAt(st, st', s.claims.approvalIds[0]); }
  }

  // ---- what every adapter call keeps true ----

  /** The call was made under a signed, consumed grant, on arguments its constraints allow, and its
      response is the projection under the grant's fields. */
  ghost predicate CallOk(cfg: Config, w: World, k: Call) {
    && Signed(w, k.claims)
    && k.claims.jti in w.store.grants && w.store.grants[k.claims.jti].status == Consumed
    && GW.AdapterFor(k.claims.tool).Some? && GW.HasArgs(GW.RequiredArgs(GW.AdapterFor(k.claims.tool).value), k.arguments)
    && Constraints.Evaluate(cfg.rx, k.claims.argConstraints, Dict(k.arguments)) == Allowed
    && k.claims.region == cfg.region
    && (k.outcome.Answered? ==> Projected(k))
  }

  /** The answer is the adapter's record under the grant's fields. */
  ghost predicate Projected(k: Call)
    requires k.outcome.Answered?
  {
    k.adapter.Raw? && k.outcome.result == ProjectFields(Dict(k.adapter.record), k.claims.allowedResponseFields).0
  }

  lemma CallStays(cfg: Config, w: World, w': World, k: Call)
    requires CallOk(cfg, w, k) && StoreGrows(w.store, w'.store) && w.signed <= w'.signed
    ensures CallOk(cfg, w', k)
  {
    assert GrowsAt(w.store, w'.store, k.claims.jti);
    var i :| 0 <= i < |w.signed| && w.signed[i].claims == k.claims;
    assert w'.signed[i] == w.signed[i];
  }

  // ---- what every payment keeps true ----

  ghost predicate IsPaymentOf(cfg: Config, r: Object, args: Object, grantId: string) {
    exists id, t :: IsPayment(cfg, r, args, grantId, id, t)
  }

  ghost predicate PaymentFrom(cfg: Config, e: ErpState, g: string, k: Call) {
    && g in e.paymentsByGrant && k.claims.jti == g && GW.AdapterFor(k.claims.tool) == Some(GW.PaymentInstruct)
    && k.adapter == Raw(e.paymentsByGrant[g]) && IsPaymentOf(cfg, e.paymentsByGrant[g], k.arguments, g)
  }

  ghost predicate PaymentOk(cfg: Config, w: World, g: string) {
    g in w.erp.paymentsByGrant ==> exists i :: 0 <= i < |w.calls| && PaymentFrom(cfg, w.erp, g, w.calls[i])
  }

  // ---- the invariant ----

  ghost predicate SignedAt(cfg: Config, w: World, i: nat) { i < |w.signed| ==> IssuanceOk(cfg, w.store, w.signed[i]) }
  ghost predicate CallAt(cfg: Config, w: World, i: nat) { i < |w.calls| ==> CallOk(cfg, w, w.calls[i]) }
  ghost predicate SignedApart(w: World, i: nat, j: nat) {
    i < j < |w.signed| ==> w.signed[i].claims.jti != w.signed[j].claims.jti
  }
  ghost predicate CallsApart(w: World, i: nat, j: nat) {
    i < j < |w.calls| ==> w.calls[i].claims.jti != w.calls[j].claims.jti
  }

  ghost predicate Inv(cfg: Config, w: World) {
    && Keyed(w.store)
    && (forall i: nat :: SignedAt(cfg, w, i)) && (forall i: nat, j: nat :: SignedApart(w, i, j))
    && (forall i: nat :: CallAt(cfg, w, i)) && (forall i: nat, j: nat :: CallsApart(w, i, j))
    && (forall g :: PaymentOk(cfg, w, g))
  }

  lemma StartInv(cfg: Config, w: World)
    requires Start(w)
    ensures Inv(cfg, w)
  {}

  /** A step that signs nothing, calls nothing and pays nothing keeps the invariant. */
  lemma QuietStep(cfg: Config, w: World, w': World)
    requires Inv(cfg, w) && StoreGrows(w.store, w'.store) && Keyed(w'.store)
    requires w'.signed == w.signed && w'.calls == w.calls && w'.erp.paymentsByGrant == w.erp.paymentsByGrant
    ensures Inv(cfg, w')
  {
    forall i: nat ensures SignedAt(cfg, w', i) {
      assert SignedAt(cfg, w, i);
      if i < |w.signed| { IssuanceStays(cfg, w.store, w'.store, w.signed[i]); }
    }
    forall i: nat ensures CallAt(cfg, w', i) {
      assert CallAt(cfg, w, i);
      if i < |w.calls| { CallStays(cfg, w, w', w.calls[i]); }
    }
    forall i: nat, j: nat ensures SignedApart(w', i, j) { assert SignedApart(w, i, j); }
    forall i: nat, j: nat ensures CallsApart(w', i, j) { assert CallsApart(w, i, j); }
    forall g ensures PaymentOk(cfg, w', g) {
      assert PaymentOk(cfg, w, g);
      if g in w.erp.paymentsByGrant {
        var i :| 0 <= i < |w.calls| && PaymentFrom(cfg, w.erp, g, w.calls[i]);
        assert PaymentFrom(cfg, w'.erp, g, w'.calls[i]);
      }
    }
  }

  // ---- issuing ----

  function Bound(v: CP.Verdict, id: string): Approval
    requires v.Issue? && v.approval.Some?
  {
    v.approval.value.(usedByGrantId := Some(id))
  }

  /** The store once a grant is written and its approval, if any, bound. */
  function WithGrant(st: State, g: GrantRecord, bound: Option<Approval>): State {
    var st1 := st.(grants := st.grants[g.grantId := g]);
    if bound.Some? then PutApprovalIn(st1, bound.value) else st1
  }

  function IssuedRecord(cfg: Config, req: CP.EvaluateRequest, v: CP.Verdict, amb: Ambient): GrantRecord
    requires v.Issue?
  {
    CP.MakeRecord(cfg, CP.MakeClaims(cfg, req, v, amb), if amb.auditOk then Issued else Expired, amb.now)
  }

  function BoundApproval(v: CP.Verdict, id: string): Option<Approval>
    requires v.Issue?
  {
    if v.approval.Some? then Some(Bound(v, id)) else None
  }

  /** What issuing leaves in the store besides the audit trail. */
  lemma IssueEffect(cfg: Config, st: State, req: CP.EvaluateRequest, v: CP.Verdict, amb: Ambient, evidence: Object)
    requires v.Issue?
    ensures var st' := CP.IssueGrant(cfg, st, req, v, amb, evidence).0;
      st' == WithGrant(st, IssuedRecord(cfg, req, v, amb), BoundApproval(v, amb.newId)).(audit := st'.audit)
  {
    if !amb.auditOk { IssueFailureState(cfg, st, req, v, amb, evidence); }
  }

  lemma WithGrantMeaning(st: State, g: GrantRecord, bound: Option<Approval>)
    ensures var st' := WithGrant(st, g, bound);
      && Get(st'.grants, g.grantId) == Some(g) && st'.delegations == st.delegations
      && (bound.Some? ==> Get(st'.approvals, bound.value.approvalId) == bound)
  {}

  /** What a decision to issue rests on. */
  ghost predicate Grounds(cfg: Config, st: State, req: CP.EvaluateRequest, v: CP.Verdict, now: int) {
    && v.Issue? && Authorized(cfg, st, req, v.delegation, v.policy)
    && v.terms == CP.Terms(req.arguments, v.policy) && CP.PathsLegal(req.arguments)
    && (v.policy.requiresApproval <==> v.approval.Some?)
    && (v.approval.Some? ==> Approves(st, v.approval.value, req, v.policy, v.delegation.sponsor, now))
  }

  lemma NewIssuanceOk(cfg: Config, st: State, st': State, req: CP.EvaluateRequest, v: CP.Verdict, amb: Ambient)
    requires Grounds(cfg, st, req, v, amb.now)
    requires Get(st'.grants, amb.newId) == Some(IssuedRecord(cfg, req, v, amb)) && st'.delegations == st.delegations
    requires v.approval.Some? ==> Get(st'.approvals, v.approval.value.approvalId) == Some(Bound(v, amb.newId))
    ensures IssuanceOk(cfg, st', Issuance(CP.MakeClaims(cfg, req, v, amb), req, amb.now))
  {
    if v.approval.Some? { assert Bound(v, amb.newId).(usedByGrantId := None) == v.approval.value; }
  }

  lemma IssuedIsStored(cfg: Config, st: State, req: CP.EvaluateRequest, v: CP.Verdict, amb: Ambient, evidence: Object)
    requires v.Issue?
    ensures var st' := CP.IssueGrant(cfg, st, req, v, amb, evidence).0;
      && Get(st'.grants, amb.newId) == Some(IssuedRecord(cfg, req, v, amb)) && st'.delegations == st.delegations
      && (v.approval.Some? ==> Get(st'.approvals, v.approval.value.approvalId) == Some(Bound(v, amb.newId)))
  {
    IssueEffect(cfg, st, req, v, amb, evidence);
    WithGrantMeaning(st, IssuedRecord(cfg, req, v, amb), BoundApproval(v, amb.newId));
  }

  lemma DecisionHasGrounds(cfg: Config, st: State, req: CP.EvaluateRequest, now: int, blocks: bool)
    requires Keyed(st) && CP.Decide(cfg, st, req, now, blocks).Issue?
    ensures Grounds(cfg, st, req, CP.Decide(cfg, st, req, now, blocks), now)
  {
    IssueMeaning(cfg, st, req, now, blocks);
    ScopeMeaning(cfg, st, req, now);
  }

  lemma IssueSigns(cfg: Config, st: State, req: CP.EvaluateRequest, v: CP.Verdict, amb: Ambient, evidence: Object)
    requires Grounds(cfg, st, req, v, amb.now)
    ensures IssuanceOk(cfg, CP.IssueGrant(cfg, st, req, v, amb, evidence).0,
                       Issuance(CP.MakeClaims(cfg, req, v, amb), req, amb.now))
  {
    IssuedIsStored(cfg, st, req, v, amb, evidence);
    NewIssuanceOk(cfg, st, CP.IssueGrant(cfg, st, req, v, amb, evidence).0, req, v, amb);
  }

  lemma EvaluateSigns(cfg: Config, st: State, req: CP.EvaluateRequest, amb: Ambient, blocks: bool, evidence: Object)
    requires Keyed(st) && CP.Decide(cfg, st, req, amb.now, blocks).Issue?
    ensures var v := CP.Decide(cfg, st, req, amb.now, blocks);
      IssuanceOk(cfg, CP.EvaluateGrantSpec(cfg, st, req, amb, blocks, evidence).0,
                 Issuance(CP.MakeClaims(cfg, req, v, amb), req, amb.now))
  {
    DecisionHasGrounds(cfg, st, req, amb.now, blocks);
    IssueSigns(cfg, st, req, CP.Decide(cfg, st, req, amb.now, blocks), amb, evidence);
  }

  lemma EvaluateKeepsInv(cfg: Config, w: World, req: CP.EvaluateRequest, amb: Ambient, blocks: bool, evidence: Object)
    requires Inv(cfg, w) && amb.newId !in w.store.grants
    ensures Inv(cfg, NextEvaluate(cfg, w, req, amb, blocks, evidence))
  {
    var w' := NextEvaluate(cfg, w, req, amb, blocks, evidence);
    EvaluateGrows(cfg, w.store, req, amb, blocks, evidence);
    var quiet := w'.(signed := w.signed);
    QuietStep(cfg, w, quiet);
    if CP.Decide(cfg, w.store, req, amb.now, blocks).Issue? {
      EvaluateSigns(cfg, w.store, req, amb, blocks, evidence);
      SignOne(cfg, w, quiet, w', amb.newId);
    }
  }

  lemma SignOne(cfg: Config, w: World, quiet: World, w': World, id: string)
    requires Inv(cfg, w) && Inv(cfg, quiet) && quiet.signed == w.signed
    requires |w'.signed| == |w.signed| + 1 && w.signed <= w'.signed && w' == quiet.(signed := w'.signed)
    requires id !in w.store.grants && w'.signed[|w.signed|].claims.jti == id && IssuanceOk(cfg, w'.store, w'.signed[|w.signed|])
    ensures Inv(cfg, w')
  {
    forall i: nat ensures SignedAt(cfg, w', i) { assert SignedAt(cfg, quiet, i); }
    forall i: nat, j: nat ensures SignedApart(w', i, j) { assert SignedApart(w, i, j) && SignedAt(cfg, w, i); }
    forall i: nat ensures CallAt(cfg, w', i) {
      assert CallAt(cfg, quiet, i);
      if i < |w'.calls| { GrowsReflexive(w'.store); CallStays(cfg, quiet, w', w'.calls[i]); }
    }
    forall i: nat, j: nat ensures CallsApart(w', i, j) { assert CallsApart(quiet, i, j); }
    forall g ensures PaymentOk(cfg, w', g) { assert PaymentOk(cfg, quiet, g); }
  }

  lemma GrowsReflexive(st: State)
    ensures StoreGrows(st, st)
  {}

  // ---- executing ----

  /** A call that is not refused has consumed an issued grant. */
  lemma ExecuteEffect(cfg: Config, st: State, e: ErpState, req: GW.ExecuteRequest, amb: Ambient)
    requires req.verified.Some? && req.verified.value.singleUse && !GW.ExecuteSpec(cfg, st, e, req, amb).2.Refused?
    ensures var c := req.verified.value; var (st', e', o) := GW.ExecuteSpec(cfg, st, e, req, amb);
      && GW.Admit(cfg, st, req, amb.now).None? && GW.AdapterFor(c.tool).Some?
      && c.jti in st.grants && st.grants[c.jti].status == Issued
      && c.jti in st'.grants && st'.grants[c.jti].status == Consumed
      && e' == GW.Dispatch(cfg, e, GW.AdapterFor(c.tool).value, req.arguments, c.jti, amb.newId, amb.now).0
      && (o.Answered? ==>
            var r := GW.Dispatch(cfg, e, GW.AdapterFor(c.tool).value, req.arguments, c.jti, amb.newId, amb.now).1;
            r.Raw? && o.result == ProjectFields(Dict(r.record), c.allowedResponseFields).0)
  {}

  lemma AdmitMeaning(cfg: Config, st: State, req: GW.ExecuteRequest, now: int)
    requires GW.Admit(cfg, st, req, now).None?
    ensures req.verified.Some?
    ensures var c := req.verified.value;
      && req.tool == c.tool && req.callerAgent == c.agentId && req.callerVersion == c.agentVersion
      && GW.AdapterFor(c.tool).Some? && GW.HasArgs(GW.RequiredArgs(GW.AdapterFor(c.tool).value), req.arguments)
      && Constraints.Evaluate(cfg.rx, c.argConstraints, Dict(req.arguments)) == Allowed
      && c.region == cfg.region && GW.CheckLive(st, c, now).None?
      && c.iss == cfg.issuer && c.aud == cfg.audience
      && c.iat <= now / SECOND + cfg.clockSkew && c.nbf <= now / SECOND + cfg.clockSkew && now / SECOND < c.exp
  {}

  /** An adapter touches the payments only when it instructs one under a grant that has none. */
  lemma DispatchPayments(cfg: Config, e: ErpState, a: GW.Adapter, args: Object, g: string, id: string, now: int)
    ensures var (e', r) := GW.Dispatch(cfg, e, a, args, g, id, now);
      e'.paymentsByGrant == e.paymentsByGrant
      || (a == GW.PaymentInstruct && g !in e.paymentsByGrant && "batch_id" in args
          && r.Raw? && IsPayment(cfg, r.record, args, g, id, now) && e'.paymentsByGrant == e.paymentsByGrant[g := r.record])
  {
    if a == GW.PaymentInstruct { PaymentsMeaning(cfg, e, args, g, id, now); }
  }

  lemma NewCallOk(cfg: Config, w: World, req: GW.ExecuteRequest, amb: Ambient)
    requires Inv(cfg, w) && Enabled(w, Execute(req, amb)) && |NextExecute(cfg, w, req, amb).calls| > |w.calls|
    ensures var w' := NextExecute(cfg, w, req, amb);
      && CallOk(cfg, w', w'.calls[|w.calls|]) && w'.calls[|w.calls|].claims == req.verified.value
      && req.verified.value.jti in w.store.grants && w.store.grants[req.verified.value.jti].status == Issued
  {
    var c := req.verified.value;
    var i :| 0 <= i < |w.signed| && w.signed[i].claims == c;
    assert SignedAt(cfg, w, i);
    ExecuteEffect(cfg, w.store, w.erp, req, amb);
    AdmitMeaning(cfg, w.store, req, amb.now);
    assert NextExecute(cfg, w, req, amb).signed[i].claims == c;
  }

  lemma ExecuteKeepsInv(cfg: Config, w: World, req: GW.ExecuteRequest, amb: Ambient)
    requires Inv(cfg, w) && Enabled(w, Execute(req, amb))
    ensures Inv(cfg, NextExecute(cfg, w, req, amb))
  {
    var w' := NextExecute(cfg, w, req, amb);
    ExecuteGrows(cfg, w.store, w.erp, req, amb);
    if w'.calls == w.calls {
      RefusedPaysNothing(cfg, w, req, amb);
      QuietStep(cfg, w, w');
    } else {
      NewCallOk(cfg, w, req, amb);
      var quiet := w'.(calls := w.calls, erp := w.erp);
      QuietStep(cfg, w, quiet);
      CallOne(cfg, w, quiet, w', req, amb);
    }
  }

  lemma RefusedPaysNothing(cfg: Config, w: World, req: GW.ExecuteRequest, amb: Ambient)
    requires NextExecute(cfg, w, req, amb).calls == w.calls
    ensures NextExecute(cfg, w, req, amb).erp.paymentsByGrant == w.erp.paymentsByGrant
  {
    var (st, e, o) := GW.ExecuteSpec(cfg, w.store, w.erp, req, amb);
    if !o.Refused? {
      AdmitMeaning(cfg, w.store, req, amb.now);
      assert false;
    }
  }

  lemma CallOne(cfg: Config, w: World, quiet: World, w': World, req: GW.ExecuteRequest, amb: Ambient)
    requires Inv(cfg, w) && Inv(cfg, quiet) && w' == NextExecute(cfg, w, req, amb) && quiet == w'.(calls := w.calls, erp := w.erp)
    requires |w'.calls| == |w.calls| + 1 && CallOk(cfg, w', w'.calls[|w.calls|]) && req.verified.Some?
    requires w'.calls[|w.calls|].claims == req.verified.value && req.verified.value.singleUse
    requires req.verified.value.jti in w.store.grants && w.store.grants[req.verified.value.jti].status == Issued
    ensures Inv(cfg, w')
  {
    CallLogged(cfg, w, quiet, w');
    CallsConsumed(cfg, w);
    CallNew(w, w');
    forall i: nat ensures SignedAt(cfg, w', i) { assert SignedAt(cfg, quiet, i); }
    forall i: nat, j: nat ensures SignedApart(w', i, j) { assert SignedApart(quiet, i, j); }
    forall g ensures PaymentOk(cfg, w', g) {
      assert PaymentOk(cfg, w, g);
      CallPays(cfg, w, req, amb, g);
    }
  }

  lemma CallLogged(cfg: Config, w: World, quiet: World, w': World)
    requires (forall i: nat :: CallAt(cfg, quiet, i)) && quiet == w'.(calls := w.calls, erp := quiet.erp)
    requires |w'.calls| == |w.calls| + 1 && w.calls <= w'.calls && CallOk(cfg, w', w'.calls[|w.calls|])
    ensures forall i: nat :: CallAt(cfg, w', i)
  {
    GrowsReflexive(w'.store);
    forall i: nat ensures CallAt(cfg, w', i) {
      assert CallAt(cfg, quiet, i);
      if i < |w.calls| { CallStays(cfg, quiet, w', w.calls[i]); }
    }
  }

  ghost predicate ConsumedAt(w: World, i: nat) {
    i < |w.calls| ==> var id := w.calls[i].claims.jti; id in w.store.grants && w.store.grants[id].status == Consumed
  }

  lemma CallsConsumed(cfg: Config, w: World)
    requires forall i: nat :: CallAt(cfg, w, i)
    ensures forall i: nat :: ConsumedAt(w, i)
  {
    forall i: nat ensures ConsumedAt(w, i) { assert CallAt(cfg, w, i); }
  }

  /** The grant of the new call was still issued, so no earlier call was made under it. */
  lemma CallNew(w: World, w': World)
    requires (forall i: nat :: ConsumedAt(w, i)) && (forall i: nat, j: nat :: CallsApart(w, i, j))
    requires |w'.calls| == |w.calls| + 1 && w.calls <= w'.calls
    requires var id := w'.calls[|w.calls|].claims.jti; id in w.store.grants && w.store.grants[id].status == Issued
    ensures forall i: nat, j: nat :: CallsApart(w', i, j)
  {
    forall i: nat, j: nat ensures CallsApart(w', i, j) {
      assert ConsumedAt(w, i) && CallsApart(w, i, j);
      if i < j < |w'.calls| { assert w'.calls[i] == w.calls[i] && (j < |w.calls| ==> w'.calls[j] == w.calls[j]); }
    }
  }

  lemma CallPays(cfg: Config, w: World, req: GW.ExecuteRequest, amb: Ambient, g: string)
    requires PaymentOk(cfg, w, g) && |NextExecute(cfg, w, req, amb).calls| == |w.calls| + 1
    requires req.verified.Some? && req.verified.value.singleUse
    ensures PaymentOk(cfg, NextExecute(cfg, w, req, amb), g)
  {
    var w', c, n := NextExecute(cfg, w, req, amb), req.verified.value, |w.calls|;
    ExecuteEffect(cfg, w.store, w.erp, req, amb);
    DispatchPayments(cfg, w.erp, GW.AdapterFor(c.tool).value, req.arguments, c.jti, amb.newId, amb.now);
    if g in w.erp.paymentsByGrant {
      var i :| 0 <= i < n && PaymentFrom(cfg, w.erp, g, w.calls[i]);
      assert w'.calls[i] == w.calls[i];
      assert PaymentFrom(cfg, w'.erp, g, w'.calls[i]);
    } else if g in w'.erp.paymentsByGrant {
      assert PaymentFrom(cfg, w'.erp, g, w'.calls[n]);
    }
  }

  lemma NextKeepsInv(cfg: Config, w: World, s: Step)
    requires Inv(cfg, w) && Enabled(w, s)
    ensures Inv(cfg, Next(cfg, w, s))
  {
    match s
    case Evaluate(req, amb, blocks, evidence) => EvaluateKeepsInv(cfg, w, req, amb, blocks, evidence);
    case Execute(req, amb) => ExecuteKeepsInv(cfg, w, req, amb);
    case _ =>
      NextGrows(cfg, w, s);
      QuietStep(cfg, w, Next(cfg, w, s));
  }

  lemma {:induction false} RunInv(cfg: Config, w: World, steps: seq<Step>)
    requires Inv(cfg, w) && CanRun(cfg, w, steps)
    ensures Inv(cfg, Run(cfg, w, steps))
    decreases |steps|
  {
    if steps != [] {
      RunInv(cfg, w, steps[..|steps| - 1]);
      NextKeepsInv(cfg, Run(cfg, w, steps[..|steps| - 1]), steps[|steps| - 1]);
    }
  }

  lemma ReachableInv(cfg: Config, w: World)
    requires Reachable(cfg, w)
    ensures Inv(cfg, w)
  {
    var w0, steps :| Start(w0) && CanRun(cfg, w0, steps) && w == Run(cfg, w0, steps);
    StartInv(cfg, w0);
    RunInv(cfg, w0, steps);
  }
}
