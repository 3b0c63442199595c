/** What each request of the control plane, and each event, leaves in the store and says in the audit trail. */
module Effects {
  import opened Text
  import opened Json
  import opened Reasons
  import opened StateMachine
  import opened AuditChain
  import opened Records
  import opened Store
  import opened Settings
  import CP = ControlPlane
  import WK = Worker
  import P = Protocol
  import Provenance

  /** The event is added to its task's chain, linked to the head. */
  function Recorded(cfg: Config, audit: Audit, b: EventBody): Audit {
    audit[b.taskId := Append(cfg.hashing, Chain(audit, b.taskId), b)]
  }

  // ---- denials ----

  /** A denial names the task, delegation, agent and tool that were asked for, and says why. */
  predicate IsDenial(cfg: Config, b: EventBody, req: CP.EvaluateRequest, code: Reason, amb: Ambient) {
    && b.auditEventId == amb.auditId && b.taskId == req.taskId && b.delegationId == req.delegationId && b.grantId == None
    && b.actor == AgentActor(req.agentId, req.agentVersion) && b.kind == PolicyDenied && b.tool == Some(req.tool)
    && b.decision == DenyDecision && b.reasonCode == Some(code) && b.policyVersion == cfg.policy.version
    && b.approvalIds == [] && b.resourceRefs == [] && b.metadata == NoMetadata && b.occurredAt == amb.now
  }

  /** A quarantine is the service's own doing, for the reason of the denial, and refers to the tool. */
  predicate IsQuarantine(cfg: Config, b: EventBody, req: CP.EvaluateRequest, code: Reason, amb: Ambient) {
    && b.auditEventId == amb.auditId2 && b.taskId == req.taskId && b.delegationId == req.delegationId && b.grantId == None
    && b.actor == SystemActor(ControlPlaneService) && b.kind == TaskQuarantined && b.tool == None
    && b.decision == QuarantineDecision && b.reasonCode == Some(code) && b.policyVersion == cfg.policy.version
    && b.approvalIds == [] && b.resourceRefs == [req.tool] && b.metadata == NoMetadata && b.occurredAt == amb.now
  }

  function Quarantining(t: Task, now: int): Task { t.(state := Quarantined, version := t.version + 1, updatedAt := now) }

  /** A denial is recorded; a quarantining one also stops the task if it runs, one version on, and records that. What
      cannot be recorded is not answered. */
  ghost predicate Denies(cfg: Config, st: State, req: CP.EvaluateRequest, code: Reason, quarantine: bool, amb: Ambient,
                         b: EventBody, q: EventBody, st': State, o: CP.EvalOutcome) {
    var stops := amb.auditOk && quarantine && req.taskId in st.tasks && st.tasks[req.taskId].state == Running;
    && st' == st.(tasks := st'.tasks, audit := st'.audit)
    && st'.tasks == (if stops then st.tasks[req.taskId := Quarantining(st.tasks[req.taskId], amb.now)] else st.tasks)
    && st'.audit == (if !amb.auditOk then st.audit
                     else if stops && amb.auditOk2 then Recorded(cfg, Recorded(cfg, st.audit, b), q)
                     else Recorded(cfg, st.audit, b))
    && o == if !amb.auditOk || (stops && !amb.auditOk2) then CP.Crashed else CP.Refused(code)
  }

  ghost predicate DeniesFor(cfg: Config, st: State, req: CP.EvaluateRequest, code: Reason, quarantine: bool, amb: Ambient,
                            st': State, o: CP.EvalOutcome) {
    exists b, q :: IsDenial(cfg, b, req, code, amb) && IsQuarantine(cfg, q, req, code, amb)
                   && Denies(cfg, st, req, code, quarantine, amb, b, q, st', o)
  }

  lemma QuarantineDoes(cfg: Config, st: State, req: CP.EvaluateRequest, code: Reason, amb: Ambient)
    requires req.taskId in st.tasks && st.tasks[req.taskId].state == Running
    ensures var (st', o) := CP.Quarantine(cfg, st, req, code, amb);
      && st'.tasks == st.tasks[req.taskId := Quarantining(st.tasks[req.taskId], amb.now)] && st' == st.(tasks := st'.tasks, audit := st'.audit)
      && st'.audit == (if amb.auditOk2 then Recorded(cfg, st.audit, CP.QuarantinedEvent(cfg, req, code, amb)) else st.audit)
      && o == if amb.auditOk2 then CP.Refused(code) else CP.Crashed
  {
    assert Transition(Running, SecurityEvent) == Some(Quarantined);
  }

  lemma DenyOnly(cfg: Config, st: State, req: CP.EvaluateRequest, code: Reason, quarantine: bool, amb: Ambient)
    requires !(amb.auditOk && quarantine && req.taskId in st.tasks && st.tasks[req.taskId].state == Running)
    ensures var (st', o) := CP.Deny(cfg, st, req, code, quarantine, amb);
      && st' == st.(audit := if amb.auditOk then Recorded(cfg, st.audit, CP.DeniedEvent(cfg, req, code, amb)) else st.audit)
      && o == if amb.auditOk then CP.Refused(code) else CP.Crashed
  {}

  lemma DenyAndStop(cfg: Config, st: State, req: CP.EvaluateRequest, code: Reason, amb: Ambient)
    requires amb.auditOk
    ensures var denied := Record(cfg.hashing, st, CP.DeniedEvent(cfg, req, code, amb));
      && CP.Deny(cfg, st, req, code, true, amb) == CP.Quarantine(cfg, denied, req, code, amb)
      && denied == st.(audit := Recorded(cfg, st.audit, CP.DeniedEvent(cfg, req, code, amb)))
  {}

  lemma DenyDoes(cfg: Config, st: State, req: CP.EvaluateRequest, code: Reason, quarantine: bool, amb: Ambient, st': State, o: CP.EvalOutcome)
    requires (st', o) == CP.Deny(cfg, st, req, code, quarantine, amb)
    ensures Denies(cfg, st, req, code, quarantine, amb, CP.DeniedEvent(cfg, req, code, amb), CP.QuarantinedEvent(cfg, req, code, amb), st', o)
  {
    if amb.auditOk && quarantine && req.taskId in st.tasks && st.tasks[req.taskId].state == Running {
      DenyAndStop(cfg, st, req, code, amb);
      QuarantineDoes(cfg, Record(cfg.hashing, st, CP.DeniedEvent(cfg, req, code, amb)), req, code, amb);
    } else {
      DenyOnly(cfg, st, req, code, quarantine, amb);
    }
  }

  lemma DenyExactly(cfg: Config, st: State, req: CP.EvaluateRequest, code: Reason, quarantine: bool, amb: Ambient, st': State, o: CP.EvalOutcome)
    requires (st', o) == CP.Deny(cfg, st, req, code, quarantine, amb)
    ensures DeniesFor(cfg, st, req, code, quarantine, amb, st', o)
  {
    var b, q := CP.DeniedEvent(cfg, req, code, amb), CP.QuarantinedEvent(cfg, req, code, amb);
    DenyDoes(cfg, st, req, code, quarantine, amb, st', o);
    assert IsDenial(cfg, b, req, code, amb) && IsQuarantine(cfg, q, req, code, amb);
  }

  // ---- issuances ----

  predicate IsIssuance(cfg: Config, b: EventBody, req: CP.EvaluateRequest, approvals: seq<string>, amb: Ambient, evidence: Object) {
    && b.auditEventId == amb.auditId && b.taskId == req.taskId && b.delegationId == req.delegationId && b.grantId == Some(amb.newId)
    && b.actor == AgentActor(req.agentId, req.agentVersion) && b.kind == GrantIssued && b.tool == Some(req.tool)
    && b.decision == AllowDecision && b.reasonCode == None && b.policyVersion == cfg.policy.version
    && b.approvalIds == approvals && b.resourceRefs == [] && b.metadata == Evidence(evidence) && b.occurredAt == amb.now
  }

  /** The record under the fresh identifier: live if the issuance was recorded, expired otherwise. */
  predicate IsRecord(cfg: Config, g: GrantRecord, req: CP.EvaluateRequest, amb: Ambient) {
    && g.grantId == amb.newId && g.delegationId == req.delegationId && g.taskId == req.taskId && g.agentId == req.agentId
    && g.agentVersion == req.agentVersion && g.tool == req.tool && g.status == (if amb.auditOk then Issued else Expired)
    && g.issuedAt == amb.now && g.expiresAt == (amb.now / SECOND + cfg.grantTtl) * SECOND && g.consumedAt == None
    && g.policyVersion == cfg.policy.version
  }

  /** The claims repeat the request under the delegation and the policy. */
  predicate IsGrant(cfg: Config, c: Claims, req: CP.EvaluateRequest, v: CP.Verdict, approvals: seq<string>, amb: Ambient)
    requires v.Issue?
  {
    && c.jti == amb.newId && c.iss == cfg.issuer && c.aud == cfg.audience && c.delegationId == req.delegationId
    && c.taskId == req.taskId && c.agentId == req.agentId && c.agentVersion == req.agentVersion
    && c.humanSponsor == v.delegation.sponsor && c.purpose == v.delegation.purpose && c.tool == req.tool
    && c.argConstraints == v.terms && c.allowedResponseFields == v.policy.allowedFields && c.region == req.region
    && c.approvalIds == approvals && c.iat == amb.now / SECOND && c.nbf == amb.now / SECOND
    && c.exp == amb.now / SECOND + cfg.grantTtl && c.singleUse && c.policyVersion == cfg.policy.version
  }

  /** The grant is stored, its approval bound to it, and the issuance recorded; the token is returned only if it is. */
  ghost predicate IssuesAs(cfg: Config, st: State, req: CP.EvaluateRequest, v: CP.Verdict, amb: Ambient, g: GrantRecord,
                           b: EventBody, c: Claims, st': State, o: CP.EvalOutcome)
    requires v.Issue?
  {
    && st' == st.(grants := st.grants[amb.newId := g], approvals := st'.approvals, approvalOrder := st'.approvalOrder, audit := st'.audit)
    && (v.approval.None? ==> st'.approvals == st.approvals && st'.approvalOrder == st.approvalOrder)
    && (v.approval.Some? && v.approval.value.approvalId in st.approvals ==>
          var a := v.approval.value;
          st'.approvals == st.approvals[a.approvalId := a.(usedByGrantId := Some(amb.newId))] && st'.approvalOrder == st.approvalOrder)
    && (if amb.auditOk then st'.audit == Recorded(cfg, st.audit, b) && o == CP.Granted(c) else st'.audit == st.audit && o == CP.Crashed)
  }

  function Used(a: Option<Approval>): seq<string> { match a case Some(x) => [x.approvalId] case None => [] }

  ghost predicate IssuesFor(cfg: Config, st: State, req: CP.EvaluateRequest, v: CP.Verdict, amb: Ambient, evidence: Object,
                            st': State, o: CP.EvalOutcome)
    requires v.Issue?
  {
    exists g, b, c :: IsRecord(cfg, g, req, amb) && IsIssuance(cfg, b, req, Used(v.approval), amb, evidence)
                      && IsGrant(cfg, c, req, v, Used(v.approval), amb) && IssuesAs(cfg, st, req, v, amb, g, b, c, st', o)
  }

  lemma IssueAudits(cfg: Config, st: State, req: CP.EvaluateRequest, v: CP.Verdict, amb: Ambient, evidence: Object)
    requires v.Issue?
    ensures var (st', o) := CP.IssueGrant(cfg, st, req, v, amb, evidence);
      var c := CP.MakeClaims(cfg, req, v, amb);
      if amb.auditOk then st'.audit == Recorded(cfg, st.audit, CP.IssuedEvent(cfg, req, c, amb, evidence)) && o == CP.Granted(c)
      else st'.audit == st.audit && o == CP.Crashed
  {}

  lemma IssueStores(cfg: Config, st: State, req: CP.EvaluateRequest, v: CP.Verdict, amb: Ambient, evidence: Object)
    requires v.Issue?
    ensures var st', g := CP.IssueGrant(cfg, st, req, v, amb, evidence).0, Provenance.IssuedRecord(cfg, req, v, amb);
      && st' == st.(grants := st.grants[amb.newId := g], approvals := st'.approvals, approvalOrder := st'.approvalOrder, audit := st'.audit)
      && (v.approval.None? ==> st'.approvals == st.approvals && st'.approvalOrder == st.approvalOrder)
      && (v.approval.Some? && v.approval.value.approvalId in st.approvals ==>
            var a := v.approval.value;
            st'.approvals == st.approvals[a.approvalId := a.(usedByGrantId := Some(amb.newId))] && st'.approvalOrder == st.approvalOrder)
  {
    Provenance.IssueEffect(cfg, st, req, v, amb, evidence);
  }

  lemma IssueDoes(cfg: Config, st: State, req: CP.EvaluateRequest, v: CP.Verdict, amb: Ambient, evidence: Object, st': State, o: CP.EvalOutcome)
    requires v.Issue? && (st', o) == CP.IssueGrant(cfg, st, req, v, amb, evidence)
    ensures var c := CP.MakeClaims(cfg, req, v, amb);
      IssuesAs(cfg, st, req, v, amb, Provenance.IssuedRecord(cfg, req, v, amb), CP.IssuedEvent(cfg, req, c, amb, evidence), c, st', o)
  {
    IssueAudits(cfg, st, req, v, amb, evidence);
    IssueStores(cfg, st, req, v, amb, evidence);
  }

  lemma IssueSays(cfg: Config, req: CP.EvaluateRequest, v: CP.Verdict, amb: Ambient, evidence: Object)
    requires v.Issue?
    ensures var c := CP.MakeClaims(cfg, req, v, amb);
      && IsGrant(cfg, c, req, v, Used(v.approval), amb) && IsRecord(cfg, Provenance.IssuedRecord(cfg, req, v, amb), req, amb)
      && IsIssuance(cfg, CP.IssuedEvent(cfg, req, c, amb, evidence), req, Used(v.approval), amb, evidence)
  {}

  lemma IssueExactly(cfg: Config, st: State, req: CP.EvaluateRequest, v: CP.Verdict, amb: Ambient, evidence: Object, st': State, o: CP.EvalOutcome)
    requires v.Issue? && (st', o) == CP.IssueGrant(cfg, st, req, v, amb, evidence)
    ensures IssuesFor(cfg, st, req, v, amb, evidence, st', o)
  {
    IssueDoes(cfg, st, req, v, amb, evidence, st', o);
    IssueSays(cfg, req, v, amb, evidence);
  }

  // ---- evaluations ----

  /** An evaluation denies or issues as it decided; if it decided nothing, it raised and changed nothing. */
  lemma {:induction false} EvaluatedExactly(cfg: Config, st: State, req: CP.EvaluateRequest, amb: Ambient, blocks: bool, evidence: Object)
    ensures var v := CP.Decide(cfg, st, req, amb.now, blocks);
      var (st', o) := CP.EvaluateGrantSpec(cfg, st, req, amb, blocks, evidence);
      match v
      case Refuse(code, quarantine) => DeniesFor(cfg, st, req, code, quarantine, amb, st', o)
      case Issue(_, _, _, _) => IssuesFor(cfg, st, req, v, amb, evidence, st', o)
      case Crash => st' == st && o == CP.Crashed
  {
    EnactedExactly(cfg, st, req, CP.Decide(cfg, st, req, amb.now, blocks), amb, evidence);
  }

  lemma EnactedExactly(cfg: Config, st: State, req: CP.EvaluateRequest, v: CP.Verdict, amb: Ambient, evidence: Object)
    ensures var (st', o) := CP.Enact(cfg, st, req, v, amb, evidence);
      match v
      case Refuse(code, quarantine) => DeniesFor(cfg, st, req, code, quarantine, amb, st', o)
      case Issue(_, _, _, _) => IssuesFor(cfg, st, req, v, amb, evidence, st', o)
      case Crash => st' == st && o == CP.Crashed
  {
    var (st', o) := CP.Enact(cfg, st, req, v, amb, evidence);
    match v
    case Refuse(code, quarantine) => DenyExactly(cfg, st, req, code, quarantine, amb, st', o);
    case Issue(_, _, _, _) => IssueExactly(cfg, st, req, v, amb, evidence, st', o);
    case Crash =>
  }

  // ---- revocation and release ----

  predicate IsRevocation(b: EventBody, d: Delegation, reason: string, user: string, amb: Ambient) {
    && b.auditEventId == amb.auditId && b.taskId == d.taskId && b.delegationId == d.delegationId && b.grantId == None
    && b.actor == HumanActor(user) && b.kind == DelegationRevoked && b.tool == None && b.decision == DenyDecision
    && b.reasonCode == Some(DELEGATION_REVOKED) && b.policyVersion == d.policyVersion
    && b.approvalIds == [] && b.resourceRefs == [] && b.metadata == RevokeReason(reason) && b.occurredAt == amb.now
  }

  /** A known delegation is revoked by this user now, whatever becomes of the record; nothing else changes. */
  lemma RevokedExactly(cfg: Config, st: State, id: string, reason: string, user: string, amb: Ambient)
    requires P.KeyedAt(st, id)
    ensures var (st', r) := CP.RevokeSpec(cfg, st, id, reason, user, amb);
      if id !in st.delegations then st' == st && r == CP.Error(NOT_FOUND)
      else
        var d := st.delegations[id];
        && st' == st.(delegations := st.delegations[id := d.(status := Revoked, revokedAt := Some(amb.now), revokedBy := Some(user))],
                      audit := st'.audit)
        && if amb.auditOk then r == CP.Done && exists b :: IsRevocation(b, d, reason, user, amb) && st'.audit == Recorded(cfg, st.audit, b)
           else r == CP.Error(INTERNAL_ERROR) && st'.audit == st.audit
  {
    if id in st.delegations {
      var d := st.delegations[id];
      var b := CP.RevokedEvent(d.(status := Revoked, revokedAt := Some(amb.now), revokedBy := Some(user)), reason, user, amb);
      assert IsRevocation(b, d, reason, user, amb);
    }
  }

  predicate IsRelease(cfg: Config, b: EventBody, id: string, t: Task, reason: string, user: string, amb: Ambient) {
    && b.auditEventId == amb.auditId && b.taskId == id && b.delegationId == t.delegationId && b.grantId == None
    && b.actor == HumanActor(user) && b.kind == TaskReleased && b.tool == None && b.decision == AllowDecision
    && b.reasonCode == None && b.policyVersion == cfg.policy.version
    && b.approvalIds == [] && b.resourceRefs == [] && b.metadata == ReleaseReason(reason) && b.occurredAt == amb.now
  }

  function Released(t: Task, newSession: string, now: int): Task {
    t.(state := Resuming, version := t.version + 1, updatedAt := now, sessionId := if t.sessionId == "" then newSession else t.sessionId)
  }

  /** A task is released exactly if it is quarantined, and in the state and version the caller expects; it then resumes,
      one version on. A task that is not what the caller expects is a conflict, before anything else is looked at. */
  lemma ReleasedExactly(cfg: Config, st: State, id: string, state: TaskState, version: Option<int>, reason: string,
                        user: string, amb: Ambient)
    ensures var (st', r) := CP.ReleaseSpec(cfg, st, id, state, version, reason, user, amb);
      if id !in st.tasks then st' == st && r == CP.Error(NOT_FOUND)
      else
        var t := st.tasks[id];
        if t.state != state || (version.Some? && version.value != t.version) then st' == st && r == CP.Error(STATE_VERSION_CONFLICT)
        else if t.state != Quarantined then st' == st && r == CP.Error(INVALID_TRANSITION)
        else
          && st' == st.(tasks := st.tasks[id := Released(t, amb.newId, amb.now)], audit := st'.audit)
          && if amb.auditOk then r == CP.Done && exists b :: IsRelease(cfg, b, id, t, reason, user, amb) && st'.audit == Recorded(cfg, st.audit, b)
             else r == CP.Error(INTERNAL_ERROR) && st'.audit == st.audit
  {
    if id in st.tasks {
      var t := st.tasks[id];
      assert Transition(t.state, HumanReleased) == if t.state == Quarantined then Some(Resuming) else None;
      var b := CP.ReleasedEvent(cfg, id, Released(t, amb.newId, amb.now), reason, user, amb);
      assert IsRelease(cfg, b, id, t, reason, user, amb);
    }
  }

  // ---- transitions ----

  /** The worker's event names the delivered event and the two states. */
  predicate IsHop(b: EventBody, t: Task, eventId: string, from: TaskState, to: TaskState, amb: Ambient) {
    && b.auditEventId == amb.auditId && b.taskId == t.taskId && b.delegationId == t.delegationId && b.grantId == None
    && b.actor == SystemActor(WorkerService) && b.kind == TaskTransition && b.tool == None && b.decision == AllowDecision
    && b.reasonCode == None && b.policyVersion == t.policyVersion && b.approvalIds == [] && b.resourceRefs == []
    && b.metadata == Hop(eventId, from, to) && b.occurredAt == amb.now
  }

  /** A processed event moved its task, and the task's chain says so at its end. */
  lemma HopsAreRecorded(cfg: Config, st: State, e: Envelope, ids: WK.FreshIds, amb: Ambient)
    requires WK.HandleSpec(cfg, st, e, ids, amb).1.Processed? && e.taskId in st.tasks
    ensures var (st', o) := WK.HandleSpec(cfg, st, e, ids, amb);
      o.from == st.tasks[e.taskId].state && o.to == st'.tasks[e.taskId].state
      && exists b :: IsHop(b, st.tasks[e.taskId], e.eventId, o.from, o.to, amb) && st'.audit == Recorded(cfg, st.audit, b)
  {
    WK.DeliveredExactly(cfg, st, e, ids, amb);
    var (st', o) := WK.HandleSpec(cfg, st, e, ids, amb);
    var b := WK.TransitionEvent(st'.tasks[e.taskId], o.from, e.eventId, amb);
    assert IsHop(b, st.tasks[e.taskId], e.eventId, o.from, o.to, amb);
  }
}
