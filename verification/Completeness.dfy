/** The other direction: what the control plane grants, the gateway honours. */
module Completeness {
  import opened Text
  import opened Json
  import opened StateMachine
  import opened Constraints
  import opened AuditChain
  import opened Records
  import opened Store
  import opened Settings
  import opened Erp
  import opened Protocol
  import Provenance
  import opened Purpose
  import G = Guarantees
  import CP = ControlPlane
  import GW = Gateway
  import opened Admission

  /** The caller presents the token it was given, for the call it was given for. */
  ghost predicate Presents(call: GW.ExecuteRequest, req: CP.EvaluateRequest, c: Claims) {
    && call.verified == Some(c) && call.callerAgent == req.agentId && call.callerVersion == req.agentVersion
    && call.tool == req.tool && call.arguments == req.arguments
  }

  /** What is still checked: the gateway's region and tools, and that grant and delegation are in time. */
  ghost predicate InTime(cfg: Config, req: CP.EvaluateRequest, d: Delegation, issuedAt: int, now: int) {
    && req.agentId != "" && req.agentVersion != "" && req.region == cfg.region
    && Known(req.tool) && HasItsArguments(req.tool, req.arguments)
    && d.status == Active && now < d.expiresAt && now / SECOND < issuedAt / SECOND + cfg.grantTtl
  }

  lemma ClaimsInOrder(cfg: Config, req: CP.EvaluateRequest, v: CP.Verdict, amb: Ambient, now: int)
    requires v.Issue? && amb.now <= now
    ensures var c := CP.MakeClaims(cfg, req, v, amb);
      GW.CheckClaims(cfg, c, now).None? <==> now / SECOND < amb.now / SECOND + cfg.grantTtl && req.region == cfg.region
  {
    assert amb.now / SECOND <= now / SECOND;
  }

  lemma LiveCheck(st: State, c: Claims, d: Delegation, now: int)
    requires Get(st.delegations, c.delegationId) == Some(d) && d.status != Revoked
    requires c.taskId in st.tasks && st.tasks[c.taskId].state.Live()
    ensures GW.CheckLive(st, c, now).None? <==> d.status == Active && now < d.expiresAt
  {}

  lemma CallCheck(cfg: Config, c: Claims, req: CP.EvaluateRequest, call: GW.ExecuteRequest)
    requires Presents(call, req, c) && c.tool == req.tool && c.agentId == req.agentId && c.agentVersion == req.agentVersion
    requires Constraints.Evaluate(cfg.rx, c.argConstraints, Dict(req.arguments)) == Allowed
    ensures GW.CheckCall(cfg, c, call).None? <==> Known(req.tool) && HasItsArguments(req.tool, req.arguments)
  {
    ToolGates(call);
  }

  /** The checks before consumption, for a token on its own call. */
  lemma AdmitCheck(cfg: Config, st: State, req: CP.EvaluateRequest, v: CP.Verdict, amb: Ambient,
                   call: GW.ExecuteRequest, now: int)
    requires v.Issue? && amb.now <= now && Presents(call, req, CP.MakeClaims(cfg, req, v, amb))
    requires Get(st.delegations, req.delegationId) == Some(v.delegation) && v.delegation.status != Revoked
    requires req.taskId in st.tasks && st.tasks[req.taskId].state.Live()
    requires Constraints.Evaluate(cfg.rx, v.terms, Dict(req.arguments)) == Allowed
    ensures GW.Admit(cfg, st, call, now).None? <==> InTime(cfg, req, v.delegation, amb.now, now)
  {
    var c := CP.MakeClaims(cfg, req, v, amb);
    ClaimsInOrder(cfg, req, v, amb, now);
    LiveCheck(st, c, v.delegation, now);
    CallCheck(cfg, c, req, call);
  }

  /** An issued grant in time can be consumed. */
  lemma ConsumeCheck(grants: Grants, id: string, exp: int, now: int)
    requires id in grants && grants[id].status == Issued && grants[id].expiresAt == exp * SECOND && now / SECOND < exp
    ensures Consume(grants, id, now).1 == Ok
  {}

  lemma ExecuteCheck(cfg: Config, st: State, e: ErpState, call: GW.ExecuteRequest, amb: Ambient)
    requires GW.Admit(cfg, st, call, amb.now).None? ==>
      call.verified.value.singleUse ==> Consume(st.grants, call.verified.value.jti, amb.now).1 == Ok
    ensures !GW.ExecuteSpec(cfg, st, e, call, amb).2.Refused? <==> GW.Admit(cfg, st, call, amb.now).None?
  {}

  lemma AfterIssue(cfg: Config, st: State, req: CP.EvaluateRequest, v: CP.Verdict, amb: Ambient, evidence: Object)
    requires v.Issue? && amb.auditOk
    ensures var st', c := CP.IssueGrant(cfg, st, req, v, amb, evidence).0, CP.MakeClaims(cfg, req, v, amb);
      && st'.delegations == st.delegations && st'.tasks == st.tasks
      && Get(st'.grants, c.jti) == Some(CP.MakeRecord(cfg, c, Issued, amb.now))
  {
    Provenance.IssueEffect(cfg, st, req, v, amb, evidence);
    Provenance.WithGrantMeaning(st, Provenance.IssuedRecord(cfg, req, v, amb), Provenance.BoundApproval(v, amb.newId));
  }

  /** A token just returned is honoured on its own call exactly when region and tool are the gateway's, the call has the
      tool's arguments, the delegation is in force, and fewer whole seconds have passed than a grant lives: approval,
      scope and constraints never fail again. */
  lemma {:induction false} GrantedIsHonoured(cfg: Config, w: World, req: CP.EvaluateRequest, amb: Ambient,
                                             blocks: bool, evidence: Object,
                                             call: GW.ExecuteRequest, amb2: Ambient)
    requires Keyed(w.store) && amb.auditOk && amb.now <= amb2.now && CP.Decide(cfg, w.store, req, amb.now, blocks).Issue?
    requires Presents(call, req, CP.MakeClaims(cfg, req, CP.Decide(cfg, w.store, req, amb.now, blocks), amb))
    ensures var v, st' := CP.Decide(cfg, w.store, req, amb.now, blocks), CP.EvaluateGrantSpec(cfg, w.store, req, amb, blocks, evidence).0;
      (!GW.ExecuteSpec(cfg, st', w.erp, call, amb2).2.Refused?)
      <==> InTime(cfg, req, v.delegation, amb.now, amb2.now)
  {
    var v := CP.Decide(cfg, w.store, req, amb.now, blocks);
    var c, st' := CP.MakeClaims(cfg, req, v, amb), CP.IssueGrant(cfg, w.store, req, v, amb, evidence).0;
    IssueMeaning(cfg, w.store, req, amb.now, blocks);
    ScopeMeaning(cfg, w.store, req, amb.now);
    AfterIssue(cfg, w.store, req, v, amb, evidence);
    AdmitCheck(cfg, st', req, v, amb, call, amb2.now);
    if InTime(cfg, req, v.delegation, amb.now, amb2.now) { ConsumeCheck(st'.grants, c.jti, c.exp, amb2.now); }
    ExecuteCheck(cfg, st', w.erp, call, amb2);
  }

  /** And when the call is a payment, it is made. */
  lemma GrantedIsPaid(cfg: Config, st: State, e: ErpState, call: GW.ExecuteRequest, amb: Ambient)
    requires !GW.ExecuteSpec(cfg, st, e, call, amb).2.Refused? && GW.AdapterFor(call.verified.value.tool) == Some(GW.PaymentInstruct)
    requires "batch_id" in call.arguments
    ensures call.verified.value.jti in GW.ExecuteSpec(cfg, st, e, call, amb).1.paymentsByGrant
  {}

  // ---- when a grant is issued ----

  /** The delegation is in force and covers the request, the task is live, and manifest and purpose policy allow the tool. */
  ghost predicate InScope(cfg: Config, st: State, req: CP.EvaluateRequest, d: Delegation, policy: ToolPolicy,
                          now: int) {
    && Authorized(cfg, st, req, d, policy) && d.status != Revoked && now < d.expiresAt
    && req.taskId in st.tasks && st.tasks[req.taskId].state !in {Completed, Failed, Cancelled, Quarantined}
  }

  /** The approval was given for a payment batch under the delegation, is unexpired and unused, and whatever it is about
      is in the arguments. */
  predicate Fits(a: Approval, req: CP.EvaluateRequest, now: int) {
    && a.delegationId == req.delegationId && a.approvalType == "payment_batch" && a.decision == Approved
    && now < a.expiresAt && a.usedByGrantId == None
    && forall k :: k in a.subject ==> k in req.arguments && PyEq(req.arguments[k], a.subject[k])
  }

  /** Only two rules are known, and one of them keeps the sponsor from approving. */
  predicate Apart(a: Approval, rules: seq<string>, sponsor: string) {
    forall rule :: rule in rules ==>
      rule == "originating_exception_actor" || (rule == "delegation_sponsor" && a.approver != sponsor)
  }

  lemma SuitableExactly(a: Approval, req: CP.EvaluateRequest, policy: ToolPolicy, sponsor: string, now: int)
    ensures CP.Eligible(a, req, now) <==> Fits(a, req, now)
    ensures CP.Suitable(a, req, policy, sponsor, now) <==> Fits(a, req, now) && Apart(a, policy.approverMustDifferFrom, sponsor)
  {
    var rules := policy.approverMustDifferFrom;
    if Apart(a, rules, sponsor) {
      forall i | 0 <= i < |rules| ensures CP.RuleKept(rules[i], a, sponsor) { assert rules[i] in rules; }
    }
    if CP.DutiesSeparated(rules, a, sponsor) {
      forall rule | rule in rules ensures rule == "originating_exception_actor" || (rule == "delegation_sponsor" && a.approver != sponsor) {
        var i :| 0 <= i < |rules| && rules[i] == rule;
        assert CP.RuleKept(rules[i], a, sponsor);
      }
    }
  }

  /** The approval is the `n`-th of the task in the order they were stored, below two hundred. */
  ghost predicate ListedAs(st: State, taskId: string, a: Approval, n: nat) {
    n < 200 && exists i: nat :: PlacedAt(st, st.approvalOrder, taskId, n, i) && st.approvals[st.approvalOrder[i]] == a
  }

  /** One of the task's first two hundred approvals fits and keeps duties apart, if the policy asks for one. */
  ghost predicate ApprovalFound(st: State, req: CP.EvaluateRequest, d: Delegation, policy: ToolPolicy, now: int) {
    policy.requiresApproval ==>
      exists a, n: nat :: ListedAs(st, req.taskId, a, n) && Fits(a, req, now) && Apart(a, policy.approverMustDifferFrom, d.sponsor)
  }

  /** The key of a scalar argument can be a path. */
  predicate Legal(args: Object, k: string) {
    k in args && (args[k].Str? || args[k].Int? || args[k].Float? || args[k].Bool?) ==> 1 <= |k| <= 200
  }

  ghost predicate AllLegal(args: Object) { forall k :: Legal(args, k) }

  /** Scalar arguments sit where their keys, read as paths, point; and amount and currency are within the caps. */
  ghost predicate ArgumentsFit(args: Object, policy: ToolPolicy) {
    && AllLegal(args) && (forall k :: G.PinKept(args, args, k))
    && (policy.maxAmountMinor.Some? ==> G.AmountWithin(args, policy.maxAmountMinor.value))
    && (policy.allowedCurrencies != [] ==> G.CurrencyListed(args, policy.allowedCurrencies))
  }

  lemma ScopeExactly(cfg: Config, st: State, req: CP.EvaluateRequest, now: int, d: Delegation, policy: ToolPolicy)
    ensures CP.Scope(cfg, st, req, now) == CP.Inside(d, policy) <==> InScope(cfg, st, req, d, policy, now)
  {}

  lemma SelectExactly(st: State, req: CP.EvaluateRequest, d: Delegation, policy: ToolPolicy, now: int)
    requires policy.requiresApproval
    ensures CP.Select(ListedApprovals(st, req.taskId), req, policy, d.sponsor, now).Selected? <==> ApprovalFound(st, req, d, policy, now)
  {
    var listed := ListedApprovals(st, req.taskId);
    CP.SelectMeaning(listed, req, policy, d.sponsor, now);
    if CP.Select(listed, req, policy, d.sponsor, now).Selected? {
      var a := CP.Select(listed, req, policy, d.sponsor, now).approval;
      var n: nat :| n < |listed| && listed[n] == a;
      ListedExactly(st, req.taskId, n, a);
      SuitableExactly(a, req, policy, d.sponsor, now);
      assert ListedAs(st, req.taskId, a, n);
    }
    if a, n: nat :| ListedAs(st, req.taskId, a, n) && Fits(a, req, now) && Apart(a, policy.approverMustDifferFrom, d.sponsor) {
      ListedExactly(st, req.taskId, n, a);
      SuitableExactly(a, req, policy, d.sponsor, now);
      assert a in listed && CP.Eligible(a, req, now);
    }
  }

  lemma PathsExactly(args: Object)
    ensures CP.PathsLegal(args) <==> AllLegal(args)
  {
    assert forall k :: CP.PathLegal(args, k) <==> Legal(args, k);
    if CP.PathsLegal(args) {
      forall k ensures Legal(args, k) { if k in args { assert CP.PathLegal(args, k); } }
    }
  }

  lemma TermsExactly(cfg: Config, req: CP.EvaluateRequest, a: Option<Approval>, policy: ToolPolicy, d: Delegation,
                     blocks: bool)
    ensures CP.DecideTerms(cfg, req, a, policy, d, blocks).Issue? <==> ArgumentsFit(req.arguments, policy) && !blocks
  {
    PathsExactly(req.arguments);
    G.TermsMeaning(cfg.rx, req.arguments, policy, req.arguments);
    G.CapsMeaning(cfg.rx, policy, req.arguments);
  }

  /** A grant is decided exactly for requests in scope, approved where the policy asks for it, with fitting arguments,
      unless semantic enforcement blocks them. */
  lemma GrantedExactlyWhen(cfg: Config, st: State, req: CP.EvaluateRequest, now: int, blocks: bool)
    ensures CP.Decide(cfg, st, req, now, blocks).Issue?
      <==> !blocks && exists d, policy ::
             InScope(cfg, st, req, d, policy, now) && ApprovalFound(st, req, d, policy, now) && ArgumentsFit(req.arguments, policy)
  {
    var r := CP.Scope(cfg, st, req, now);
    forall d, policy ensures r == CP.Inside(d, policy) <==> InScope(cfg, st, req, d, policy, now) {
      ScopeExactly(cfg, st, req, now, d, policy);
    }
    if r.Inside? {
      if r.policy.requiresApproval {
        SelectExactly(st, req, r.delegation, r.policy, now);
        var sel := CP.Select(ListedApprovals(st, req.taskId), req, r.policy, r.delegation.sponsor, now);
        if sel.Selected? { TermsExactly(cfg, req, Some(sel.approval), r.policy, r.delegation, blocks); }
      } else {
        TermsExactly(cfg, req, None, r.policy, r.delegation, blocks);
      }
    }
  }

  predicate StopsTheTask(code: CP.Reasons.Reason) {
    code == CP.Reasons.CAPABILITY_NOT_DECLARED || code == CP.Reasons.OUTSIDE_BUSINESS_PURPOSE || code == CP.Reasons.SEMANTIC_POLICY_DENIED
  }

  lemma ScopeDenials(cfg: Config, st: State, req: CP.EvaluateRequest, now: int)
    ensures CP.Scope(cfg, st, req, now).Outside? ==>
      (CP.Scope(cfg, st, req, now).quarantine <==> StopsTheTask(CP.Scope(cfg, st, req, now).code))
  {}

  lemma TermsDenials(cfg: Config, req: CP.EvaluateRequest, a: Option<Approval>, policy: ToolPolicy, d: Delegation,
                     blocks: bool)
    ensures var v := CP.DecideTerms(cfg, req, a, policy, d, blocks); v.Refuse? ==> (v.quarantine <==> StopsTheTask(v.code))
  {
    var terms, args := CP.Terms(req.arguments, policy), Dict(req.arguments);
    if Constraints.Evaluate(cfg.rx, terms, args).Denied? { DenialCodes(cfg.rx, terms, args); }
  }

  /** When a grant is issued, the scalar arguments it binds under their own keys are those whose keys have no dot. */
  lemma GrantedCarries(cfg: Config, st: State, req: CP.EvaluateRequest, now: int, blocks: bool, key: string)
    requires Keyed(st) && CP.Decide(cfg, st, req, now, blocks).Issue?
    requires key in req.arguments && CP.Pinnable(req.arguments[key])
    ensures G.Carried(cfg.rx, req.arguments, CP.Decide(cfg, st, req, now, blocks).policy, key) <==> DotFree(key)
  {
    IssueMeaning(cfg, st, req, now, blocks);
    G.CarriedExactlyWhen(cfg.rx, req.arguments, CP.Decide(cfg, st, req, now, blocks).policy, key);
  }

  /** Only a missing capability, a use outside the business purpose and a semantic denial stop the task. */
  lemma {:induction false} QuarantiningDenials(cfg: Config, st: State, req: CP.EvaluateRequest, now: int, blocks: bool)
    ensures var v := CP.Decide(cfg, st, req, now, blocks); v.Refuse? ==> (v.quarantine <==> StopsTheTask(v.code))
  {
    ScopeDenials(cfg, st, req, now);
    var r := CP.Scope(cfg, st, req, now);
    if r.Inside? {
      if !r.policy.requiresApproval {
        TermsDenials(cfg, req, None, r.policy, r.delegation, blocks);
      } else {
        var sel := CP.Select(ListedApprovals(st, req.taskId), req, r.policy, r.delegation.sponsor, now);
        if sel.Selected? { TermsDenials(cfg, req, Some(sel.approval), r.policy, r.delegation, blocks); }
      }
    }
  }

  lemma {:induction false} DenialCodes(rx: Regex, cs: seq<Constraint>, args: Json)
    requires Constraints.Evaluate(rx, cs, args).Denied?
    ensures Constraints.Evaluate(rx, cs, args).code
      in [CP.Reasons.ARGUMENT_CONSTRAINT_FAILED, CP.Reasons.ARGUMENT_TYPE_MISMATCH, CP.Reasons.ARGUMENT_PATH_UNKNOWN]
  {
    if args.Dict? && Holds(rx, args, cs[0]) { DenialCodes(rx, cs[1..], args); }
  }

  // ---- when a task is released ----

  /** A release takes effect exactly on a quarantined task that is as the caller expects: one hop to `Resuming`, one
      version, checkpoint kept. */
  lemma ReleasedExactlyWhen(cfg: Config, st: State, id: string, state: TaskState, version: Option<int>, reason: string,
                            user: string, amb: Ambient)
    requires id in st.tasks
    ensures var st', t := CP.ReleaseSpec(cfg, st, id, state, version, reason, user, amb).0, st.tasks[id];
      if state == Quarantined == t.state && (version.Some? ==> version.value == t.version) then
        st'.tasks == st.tasks[id := t.(state := Resuming, version := t.version + 1, updatedAt := amb.now,
                                       sessionId := if t.sessionId == "" then amb.newId else t.sessionId)]
      else st' == st
  {
    assert Transition(st.tasks[id].state, HumanReleased).Some? <==> st.tasks[id].state == Quarantined;
  }
}
