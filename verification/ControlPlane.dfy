/** apps/control_plane/main.py: delegations, grant evaluation, approvals and quarantine release. */
module ControlPlane {
  import opened Text
  import opened Json
  import opened Reasons
  import opened StateMachine
  import opened Purpose
  import opened Constraints
  import opened AuditChain
  import opened Records
  import opened Store
  import opened Settings

  const MAX_DELEGATION_LIFETIME := 90 * 24 * 3600 * SECOND
  const MAX_PATH_LENGTH := 200

  datatype EvaluateRequest = EvaluateRequest(
    taskId: string, delegationId: string, agentId: string, agentVersion: string,
    tool: string, arguments: Object, region: string)

  // ---- phases A to F2: scope ----

  datatype ScopeResult = Outside(code: Reason, quarantine: bool) | Inside(delegation: Delegation, policy: ToolPolicy)

  function Scope(cfg: Config, st: State, req: EvaluateRequest, now: int): ScopeResult {
    if req.delegationId !in st.delegations then Outside(DELEGATION_NOT_FOUND, false)
    else
      var d := st.delegations[req.delegationId];
      if d.status == Revoked then Outside(DELEGATION_REVOKED, false)
      else if d.expiresAt <= now then Outside(DELEGATION_EXPIRED, false)
      else if d.taskId != req.taskId then Outside(TASK_NOT_BOUND_TO_DELEGATION, false)
      else if req.taskId !in st.tasks then Outside(TASK_NOT_BOUND_TO_DELEGATION, false)
      else if !st.tasks[req.taskId].state.Live() then Outside(TASK_NOT_LIVE, false)
      else if d.allowedAgents != [] && req.agentId !in d.allowedAgents then Outside(AGENT_NOT_ALLOWED, false)
      else if req.agentId !in cfg.manifests || !cfg.manifests[req.agentId].CanRequest(req.tool) then
        Outside(CAPABILITY_NOT_DECLARED, true)
      else if req.agentVersion != cfg.manifests[req.agentId].version then Outside(AGENT_VERSION_NOT_ALLOWED, false)
      else if req.region !in d.allowedRegions then Outside(REGION_NOT_ALLOWED, false)
      else match cfg.policy.Tool(d.purpose, req.agentId, req.tool)
        case None => Outside(OUTSIDE_BUSINESS_PURPOSE, true)
        case Some(policy) => Inside(d, policy)
  }

  // ---- phase G: approval and separation of duties ----

  /** Every subject key is an argument with the same value; an empty subject matches anything. */
  predicate SubjectMatches(subject: Object, arguments: Object) {
    forall k :: k in subject ==> k in arguments && PyEq(arguments[k], subject[k])
  }

  predicate Eligible(a: Approval, req: EvaluateRequest, now: int) {
    a.delegationId == req.delegationId && a.approvalType == "payment_batch" && a.decision.Approved? && a.IsValid(now)
    && a.usedByGrantId.None? && SubjectMatches(a.subject, req.arguments)
  }

  /** Unknown rules fail closed; the originating actor is not tracked. */
  predicate RuleKept(rule: string, a: Approval, sponsor: string) {
    (rule == SPONSOR && a.approver != sponsor) || rule == ORIGINATING_EXCEPTION_ACTOR
  }

  predicate DutiesSeparated(rules: seq<string>, a: Approval, sponsor: string) {
    forall i :: 0 <= i < |rules| ==> RuleKept(rules[i], a, sponsor)
  }

  predicate Suitable(a: Approval, req: EvaluateRequest, policy: ToolPolicy, sponsor: string, now: int) {
    Eligible(a, req, now) && DutiesSeparated(policy.approverMustDifferFrom, a, sponsor)
  }

  datatype Selection = NoneEligible | DutiesViolated | Selected(approval: Approval)

  /** The first suitable approval in listing order. */
  function Select(listed: seq<Approval>, req: EvaluateRequest, policy: ToolPolicy, sponsor: string,
                  now: int): Selection {
    if listed == [] then NoneEligible
    else
      var rest := Select(listed[1..], req, policy, sponsor, now);
      if Suitable(listed[0], req, policy, sponsor, now) then Selected(listed[0])
      else if rest.NoneEligible? && Eligible(listed[0], req, now) then DutiesViolated
      else rest
  }

  lemma {:induction false} SelectMeaning(listed: seq<Approval>, req: EvaluateRequest, policy: ToolPolicy,
                                         sponsor: string, now: int)
    ensures match Select(listed, req, policy, sponsor, now)
      case NoneEligible => forall a :: a in listed ==> !Eligible(a, req, now)
      case DutiesViolated => (exists a :: a in listed && Eligible(a, req, now))
                             && forall a :: a in listed ==> !Suitable(a, req, policy, sponsor, now)
      case Selected(a) => exists i :: 0 <= i < |listed| && listed[i] == a && Suitable(a, req, policy, sponsor, now)
                             && forall j :: 0 <= j < i ==> !Suitable(listed[j], req, policy, sponsor, now)
  {
    if listed != [] {
      SelectMeaning(listed[1..], req, policy, sponsor, now);
      var rest := Select(listed[1..], req, policy, sponsor, now);
      if Suitable(listed[0], req, policy, sponsor, now) {
        assert listed[0] == Select(listed, req, policy, sponsor, now).approval;
      } else if rest.Selected? {
        var i :| 0 <= i < |listed| - 1 && listed[1..][i] == rest.approval && Suitable(rest.approval, req, policy, sponsor, now)
          && forall j :: 0 <= j < i ==> !Suitable(listed[1..][j], req, policy, sponsor, now);
        assert listed[i + 1] == rest.approval;
        forall j | 0 <= j < i + 1 ensures !Suitable(listed[j], req, policy, sponsor, now) {
          if j > 0 { assert listed[j] == listed[1..][j - 1]; }
        }
      }
    }
  }

  // ---- constraints: pinned arguments and policy caps ----

  predicate Pinnable(v: Json) { v.Str? || v.Int? || v.Float? || v.Bool? }

  function Pins(args: Object, keys: seq<string>): seq<Constraint> {
    if keys == [] then []
    else
      var front := Pins(args, keys[..|keys| - 1]);
      var k := keys[|keys| - 1];
      if k in args && Pinnable(args[k]) then front + [Constraint(k, Eq, args[k])] else front
  }

  function StrList(ss: seq<string>): Json { List(seq(|ss|, i requires 0 <= i < |ss| => Str(ss[i]))) }

  function AmountCaps(policy: ToolPolicy): seq<Constraint> {
    match policy.maxAmountMinor
    case Some(max) => [Constraint("amount_minor", Lte, Int(max)), Constraint("amount_minor", Gt, Int(0))]
    case None => []
  }

  function CurrencyCaps(policy: ToolPolicy): seq<Constraint> {
    if policy.allowedCurrencies != [] then [Constraint("currency", In, StrList(policy.allowedCurrencies))] else []
  }

  function Caps(policy: ToolPolicy): seq<Constraint> { AmountCaps(policy) + CurrencyCaps(policy) }

  ghost function Terms(args: Object, policy: ToolPolicy): seq<Constraint> {
    Pins(args, SortedKeys(args.Keys)) + Caps(policy)
  }

  /** A pinned key must be a legal constraint path, or building the constraint raises. */
  predicate PathLegal(args: Object, k: string) {
    k in args && Pinnable(args[k]) ==> 1 <= |k| <= MAX_PATH_LENGTH
  }

  predicate PathsLegal(args: Object) { forall k :: k in args ==> PathLegal(args, k) }

  // ---- the decision ----

  datatype Verdict = Refuse(code: Reason, quarantine: bool) | Crash
                   | Issue(approval: Option<Approval>, terms: seq<Constraint>, policy: ToolPolicy, delegation: Delegation)

  /** Phases A to I: everything before the first write. */
  ghost function Decide(cfg: Config, st: State, req: EvaluateRequest, now: int, semanticBlocks: bool): Verdict {
    match Scope(cfg, st, req, now)
    case Outside(code, quarantine) => Refuse(code, quarantine)
    case Inside(d, policy) =>
      if policy.requiresApproval then
        match Select(ListedApprovals(st, req.taskId), req, policy, d.sponsor, now)
        case NoneEligible => Refuse(APPROVAL_REQUIRED, false)
        case DutiesViolated => Refuse(SEPARATION_OF_DUTIES_VIOLATION, false)
        case Selected(a) => DecideTerms(cfg, req, Some(a), policy, d, semanticBlocks)
      else DecideTerms(cfg, req, None, policy, d, semanticBlocks)
  }

  ghost function DecideTerms(cfg: Config, req: EvaluateRequest, a: Option<Approval>, policy: ToolPolicy, d: Delegation,
                             semanticBlocks: bool): Verdict
  {
    if !PathsLegal(req.arguments) then Crash
    else match Evaluate(cfg.rx, Terms(req.arguments, policy), Dict(req.arguments))
      case Denied(code, _) => Refuse(code, false)
      case Raised => Crash
      case Allowed =>
        if semanticBlocks then Refuse(SEMANTIC_POLICY_DENIED, true)
        else Issue(a, Terms(req.arguments, policy), policy, d)
  }

  // ---- effects ----

  datatype EvalOutcome = Refused(code: Reason) | Crashed | Granted(claims: Claims)

  function DeniedEvent(cfg: Config, req: EvaluateRequest, code: Reason, amb: Ambient): EventBody {
    EventBody(amb.auditId, req.taskId, req.delegationId, None, AgentActor(req.agentId, req.agentVersion), PolicyDenied,
              Some(req.tool), DenyDecision, Some(code), cfg.policy.version, [], [], NoMetadata, amb.now)
  }

  function QuarantinedEvent(cfg: Config, req: EvaluateRequest, code: Reason, amb: Ambient): EventBody {
    EventBody(amb.auditId2, req.taskId, req.delegationId, None, SystemActor(Service.ControlPlaneService), TaskQuarantined,
              None, QuarantineDecision, Some(code), cfg.policy.version, [], [req.tool], NoMetadata, amb.now)
  }

  function QuarantineTask(t: Task, now: int): Task {
    t.(state := match Transition(t.state, SecurityEvent) case Some(s) => s case None => t.state,
       version := t.version + 1, updatedAt := now)
  }

  function Deny(cfg: Config, st: State, req: EvaluateRequest, code: Reason, quarantine: bool, amb: Ambient): (State,
                EvalOutcome) {
    if !amb.auditOk then (st, Crashed)
    else
      var denied := Record(cfg.hashing, st, DeniedEvent(cfg, req, code, amb));
      if quarantine then Quarantine(cfg, denied, req, code, amb) else (denied, Refused(code))
  }

  /** A running task is quarantined, and the quarantine recorded. */
  function Quarantine(cfg: Config, st: State, req: EvaluateRequest, code: Reason, amb: Ambient): (State, EvalOutcome) {
    if req.taskId in st.tasks && st.tasks[req.taskId].state == Running then
      var stopped := st.(tasks := st.tasks[req.taskId := QuarantineTask(st.tasks[req.taskId], amb.now)]);
      if !amb.auditOk2 then (stopped, Crashed)
      else (Record(cfg.hashing, stopped, QuarantinedEvent(cfg, req, code, amb)), Refused(code))
    else (st, Refused(code))
  }

  function Seconds(now: int): int { now / SECOND }

  function MakeClaims(cfg: Config, req: EvaluateRequest, v: Verdict, amb: Ambient): Claims
    requires v.Issue?
  {
    Claims(amb.newId, cfg.issuer, cfg.audience, req.delegationId, req.taskId, req.agentId, req.agentVersion,
           v.delegation.sponsor, v.delegation.purpose, req.tool, v.terms, v.policy.allowedFields, req.region,
           ApprovalIds(v.approval), Seconds(amb.now), Seconds(amb.now), Seconds(amb.now) + cfg.grantTtl, true,
           cfg.policy.version)
  }

  function ApprovalIds(a: Option<Approval>): seq<string> { if a.Some? then [a.value.approvalId] else [] }

  function MakeRecord(cfg: Config, c: Claims, status: GrantStatus, now: int): GrantRecord {
    GrantRecord(c.jti, c.delegationId, c.taskId, c.agentId, c.agentVersion, c.tool, status, now, c.exp * SECOND, None,
                cfg.policy.version)
  }

  function IssuedEvent(cfg: Config, req: EvaluateRequest, c: Claims, amb: Ambient, evidence: Object): EventBody {
    EventBody(amb.auditId, req.taskId, req.delegationId, Some(c.jti), AgentActor(req.agentId, req.agentVersion), GrantIssued,
              Some(req.tool), AllowDecision, None, cfg.policy.version, c.approvalIds, [], Evidence(evidence), amb.now)
  }

  /** Store the grant, bind the approval, record the issuance; a grant that cannot be recorded is expired. */
  function IssueGrant(cfg: Config, st: State, req: EvaluateRequest, v: Verdict, amb: Ambient,
                      evidence: Object): (State, EvalOutcome)
    requires v.Issue?
  {
    var c := MakeClaims(cfg, req, v, amb);
    var st1 := st.(grants := st.grants[c.jti := MakeRecord(cfg, c, Issued, amb.now)]);
    var st2 := if v.approval.Some? then PutApprovalIn(st1, v.approval.value.(usedByGrantId := Some(c.jti))) else st1;
    if amb.auditOk then (Record(cfg.hashing, st2, IssuedEvent(cfg, req, c, amb, evidence)), Granted(c))
    else (st2.(grants := st2.grants[c.jti := MakeRecord(cfg, c, Expired, amb.now)]), Crashed)
  }

  ghost function EvaluateGrantSpec(cfg: Config, st: State, req: EvaluateRequest, amb: Ambient, semanticBlocks: bool,
                                   evidence: Object): (State, EvalOutcome)
  {
    Enact(cfg, st, req, Decide(cfg, st, req, amb.now, semanticBlocks), amb, evidence)
  }

  ghost function Enact(cfg: Config, st: State, req: EvaluateRequest, v: Verdict, amb: Ambient,
                       evidence: Object): (State, EvalOutcome) {
    match v
    case Refuse(code, quarantine) => Deny(cfg, st, req, code, quarantine, amb)
    case Crash => (st, Crashed)
    case Issue(_, _, _, _) => IssueGrant(cfg, st, req, v, amb, evidence)
  }

  // ---- the other endpoints ----

  datatype CreateDelegationRequest = CreateDelegationRequest(
    purpose: string, taskId: string, allowedAgents: seq<string>, allowedRegions: seq<string>, expiresAt: int, user: string)

  datatype Response = Done | Error(code: Reason)

  function CreateDelegationSpec(cfg: Config, st: State, req: CreateDelegationRequest, amb: Ambient): (State, Response) {
    if req.expiresAt <= amb.now || req.expiresAt - amb.now > MAX_DELEGATION_LIFETIME then (st, Error(VALIDATION_ERROR))
    else if req.purpose !in cfg.policy.purposes then (st, Error(OUTSIDE_BUSINESS_PURPOSE))
    else
      var d := Delegation(amb.newId, req.user, req.purpose, req.taskId, req.allowedAgents, req.allowedRegions,
                          cfg.policy.version, Active, amb.now, req.expiresAt, None, None);
      var st1 := st.(delegations := st.delegations[amb.newId := d]);
      (if req.taskId in st.tasks then st1
       else st1.(tasks := st.tasks[req.taskId := NewTask(req.taskId, amb.newId, cfg.policy.version, amb.now)]), Done)
  }

  function NewTask(taskId: string, delegationId: string, policyVersion: string, now: int): Task {
    Task(taskId, delegationId, Created, 1, "", "", "", "", policyVersion, now, now)
  }

  function RevokedEvent(d: Delegation, reason: string, user: string, amb: Ambient): EventBody {
    EventBody(amb.auditId, d.taskId, d.delegationId, None, HumanActor(user),
              DelegationRevoked, None, DenyDecision, Some(DELEGATION_REVOKED), d.policyVersion, [], [], RevokeReason(reason), amb.now)
  }

  function RevokeSpec(cfg: Config, st: State, id: string, reason: string, user: string, amb: Ambient): (State,
                      Response) {
    if id !in st.delegations then (st, Error(NOT_FOUND))
    else
      var d := st.delegations[id].(status := Revoked, revokedAt := Some(amb.now), revokedBy := Some(user));
      var st1 := st.(delegations := st.delegations[d.delegationId := d]);
      if amb.auditOk then (Record(cfg.hashing, st1, RevokedEvent(d, reason, user, amb)), Done)
      else (st1, Error(INTERNAL_ERROR))
  }

  datatype ApprovalRequest = ApprovalRequest(
    taskId: string, delegationId: string, approvalType: string, subject: Object, decision: ApprovalDecision,
    expiresInSeconds: int, user: string)

  function CreateApprovalSpec(cfg: Config, st: State, req: ApprovalRequest, amb: Ambient): State {
    PutApprovalIn(st, Approval(amb.newId, req.taskId, req.delegationId, req.approvalType, req.subject, req.decision,
      req.user, amb.now, amb.now + req.expiresInSeconds * SECOND, cfg.policy.version, None))
  }

  function ReleaseTask(next: TaskState, newSession: string, now: int): Task -> Task {
    (t: Task) => t.(state := next, version := t.version + 1, updatedAt := now,
                    sessionId := if t.sessionId != "" then t.sessionId else newSession)
  }

  function ReleasedEvent(cfg: Config, taskId: string, t: Task, reason: string, user: string, amb: Ambient): EventBody {
    EventBody(amb.auditId, taskId, t.delegationId, None, HumanActor(user),
              TaskReleased, None, AllowDecision, None, cfg.policy.version, [], [], ReleaseReason(reason), amb.now)
  }

  function ReleaseSpec(cfg: Config, st: State, taskId: string, expectedState: TaskState, expectedVersion: Option<int>,
                       reason: string, user: string, amb: Ambient): (State, Response)
  {
    if taskId !in st.tasks then (st, Error(NOT_FOUND))
    else
      var t := st.tasks[taskId];
      if expectedVersion.Some? && t.version != expectedVersion.value then (st, Error(STATE_VERSION_CONFLICT))
      else if t.state != expectedState then (st, Error(STATE_VERSION_CONFLICT))
      else match Transition(t.state, HumanReleased)
        case None => (st, Error(INVALID_TRANSITION))
        case Some(next) =>
          var t' := ReleaseTask(next, amb.newId, amb.now)(t);
          var st1 := st.(tasks := st.tasks[taskId := t']);
          if amb.auditOk then (Record(cfg.hashing, st1, ReleasedEvent(cfg, taskId, t', reason, user, amb)), Done)
          else (st1, Error(INTERNAL_ERROR))
  }

  // ---- the service ----

  class Server {
    const cfg: Config
    const db: MemoryStore

    constructor (cfg: Config, db: MemoryStore)
      ensures this.cfg == cfg && this.db == db
    {
      this.cfg, this.db := cfg, db;
    }

    method QuarantineIfRunning(req: EvaluateRequest, code: Reason, amb: Ambient) returns (o: EvalOutcome)
      modifies db
      ensures (db.View(), o) == Quarantine(cfg, old(db.View()), req, code, amb)
    {
      var current := db.GetTask(req.taskId);
      if current.None? || current.value.state != Running { return Refused(code); }
      var mutator := (t: Task) => QuarantineTask(t, amb.now);
      var r := db.MutateTaskAtomic(req.taskId, mutator, Some(current.value.version));
      if !r.Mutated? { return Refused(code); }
      if !amb.auditOk2 { return Crashed; }
      db.AppendLinked(cfg.hashing, QuarantinedEvent(cfg, req, code, amb));
      return Refused(code);
    }

    method DenyRequest(req: EvaluateRequest, code: Reason, quarantine: bool, amb: Ambient) returns (o: EvalOutcome)
      modifies db
      ensures (db.View(), o) == Deny(cfg, old(db.View()), req, code, quarantine, amb)
    {
      if !amb.auditOk { return Crashed; }
      db.AppendLinked(cfg.hashing, DeniedEvent(cfg, req, code, amb));
      if quarantine {
        o := QuarantineIfRunning(req, code, amb);
      } else {
        o := Refused(code);
      }
    }

    /** The two loops over the task's approvals: filter the candidates, then take the first that keeps duties apart. */
    method SelectApproval(listed: seq<Approval>, req: EvaluateRequest, policy: ToolPolicy, sponsor: string, now: int)
      returns (s: Selection)
      ensures s == Select(listed, req, policy, sponsor, now)
    {
      var candidates: seq<Approval> := [];
      for i := 0 to |listed|
        invariant forall a :: a in candidates ==> Eligible(a, req, now)
        invariant Select(listed, req, policy, sponsor, now)
               == Joined(Select(candidates, req, policy, sponsor, now), Select(listed[i..], req, policy, sponsor, now))
      {
        assert listed[i..][0] == listed[i] && listed[i..][1..] == listed[i + 1..];
        if Eligible(listed[i], req, now) {
          SelectConcat(candidates, [listed[i]], req, policy, sponsor, now);
          candidates := candidates + [listed[i]];
        }
      }
      if candidates == [] { return NoneEligible; }
      for i := 0 to |candidates|
        invariant Select(candidates, req, policy, sponsor, now) == Joined(
            if i == 0 then NoneEligible else DutiesViolated, Select(candidates[i..], req, policy, sponsor, now))
      {
        assert candidates[i..][0] == candidates[i] && candidates[i..][1..] == candidates[i + 1..];
        var sodOk := CheckDuties(policy.approverMustDifferFrom, candidates[i], sponsor);
        if sodOk { return Selected(candidates[i]); }
      }
      return DutiesViolated;
    }

    method CheckDuties(rules: seq<string>, a: Approval, sponsor: string) returns (ok: bool)
      ensures ok == DutiesSeparated(rules, a, sponsor)
    {
      ok := true;
      for i := 0 to |rules|
        invariant ok == forall j :: 0 <= j < i ==> RuleKept(rules[j], a, sponsor)
      {
        if rules[i] == SPONSOR {
          if a.approver == sponsor { ok := false; }
        } else if rules[i] != ORIGINATING_EXCEPTION_ACTOR {
          return false;
        }
      }
    }

    /** `[Constraint(path=k, op=EQ, value=v) for k, v in sorted(items) if ...]`; a key that is no legal path raises. */
    method BuildPins(args: Object) returns (legal: bool, pins: seq<Constraint>)
      ensures legal == PathsLegal(args)
      ensures legal ==> pins == Pins(args, SortedKeys(args.Keys))
    {
      var keys := Sort(args.Keys);
      pins := [];
      for i := 0 to |keys|
        invariant pins == Pins(args, keys[..i])
        invariant forall j :: 0 <= j < i ==> PathLegal(args, keys[j])
      {
        assert keys[..i + 1][..i] == keys[..i] && keys[i] in keys;
        if Pinnable(args[keys[i]]) {
          if !(1 <= |keys[i]| <= MAX_PATH_LENGTH) { return false, []; }
          pins := pins + [Constraint(keys[i], Eq, args[keys[i]])];
        }
      }
      assert keys[..|keys|] == keys;
      forall k | k in args ensures PathLegal(args, k) {
        assert k in keys;
      }
      legal := true;
    }

    method BuildTerms(args: Object, policy: ToolPolicy) returns (legal: bool, terms: seq<Constraint>)
      ensures legal == PathsLegal(args)
      ensures legal ==> terms == Terms(args, policy)
    {
      legal, terms := BuildPins(args);
      if !legal { return; }
      ghost var pins := terms;
      if policy.maxAmountMinor.Some? {
        terms := terms + [Constraint("amount_minor", Lte, Int(policy.maxAmountMinor.value)), Constraint("amount_minor", Gt, Int(0))];
      }
      if policy.allowedCurrencies != [] {
        terms := terms + [Constraint("currency", In, StrList(policy.allowedCurrencies))];
      }
      assert terms == pins + Caps(policy);
    }

    /** Phases A to F2 of `evaluate_grant`. */
    method CheckScope(req: EvaluateRequest, now: int) returns (r: ScopeResult)
      ensures r == Scope(cfg, db.View(), req, now)
    {
      var found := db.GetDelegation(req.delegationId);
      if found.None? { return Outside(DELEGATION_NOT_FOUND, false); }
      var d := found.value;
      if d.status == Revoked { return Outside(DELEGATION_REVOKED, false); }
      if d.expiresAt <= now { return Outside(DELEGATION_EXPIRED, false); }
      if d.taskId != req.taskId { return Outside(TASK_NOT_BOUND_TO_DELEGATION, false); }
      var task := db.GetTask(req.taskId);
      if task.None? || task.value.state.Terminal() || task.value.state == Quarantined {
        return Outside(if task.None? then TASK_NOT_BOUND_TO_DELEGATION else TASK_NOT_LIVE, false);
      }
      if d.allowedAgents != [] && req.agentId !in d.allowedAgents { return Outside(AGENT_NOT_ALLOWED, false); }
      if req.agentId !in cfg.manifests || !cfg.manifests[req.agentId].CanRequest(req.tool) {
        return Outside(CAPABILITY_NOT_DECLARED, true);
      }
      if req.agentVersion != cfg.manifests[req.agentId].version { return Outside(AGENT_VERSION_NOT_ALLOWED, false); }
      if req.region !in d.allowedRegions { return Outside(REGION_NOT_ALLOWED, false); }
      if d.purpose !in cfg.policy.purposes { return Outside(OUTSIDE_BUSINESS_PURPOSE, true); }
      var agents := cfg.policy.purposes[d.purpose];
      if req.agentId !in agents { return Outside(OUTSIDE_BUSINESS_PURPOSE, true); }
      if req.tool !in agents[req.agentId] { return Outside(OUTSIDE_BUSINESS_PURPOSE, true); }
      r := Inside(d, agents[req.agentId][req.tool]);
    }

    method EvaluateGrant(req: EvaluateRequest, amb: Ambient, semanticBlocks: bool,
                         evidence: Object) returns (o: EvalOutcome)
      modifies db
      ensures (db.View(), o) == EvaluateGrantSpec(cfg, old(db.View()), req, amb, semanticBlocks, evidence)
    {
      var scope := CheckScope(req, amb.now);
      if scope.Outside? { o := DenyRequest(req, scope.code, scope.quarantine, amb); return; }
      var d, policy := scope.delegation, scope.policy;
      var approval: Option<Approval> := None;
      if policy.requiresApproval {
        var listed := db.ListApprovals(req.taskId);
        var selection := SelectApproval(listed, req, policy, d.sponsor, amb.now);
        if selection.NoneEligible? { o := DenyRequest(req, APPROVAL_REQUIRED, false, amb); return; }
        if selection.DutiesViolated? { o := DenyRequest(req, SEPARATION_OF_DUTIES_VIOLATION, false, amb); return; }
        approval := Some(selection.approval);
      }
      o := EvaluateTerms(req, approval, policy, d, amb, semanticBlocks, evidence);
    }

    /** Phases H and I and the issuance. */
    method EvaluateTerms(req: EvaluateRequest, approval: Option<Approval>, policy: ToolPolicy, d: Delegation,
                         amb: Ambient, semanticBlocks: bool, evidence: Object)
      returns (o: EvalOutcome)
      modifies db
      ensures (db.View(), o)
           == Enact(cfg, old(db.View()), req, DecideTerms(cfg, req, approval, policy, d, semanticBlocks), amb, evidence)
    {
      var legal, terms := BuildTerms(req.arguments, policy);
      if !legal { return Crashed; }
      var decision := EvaluateConstraints(cfg.rx, terms, Dict(req.arguments));
      if decision.Denied? { o := DenyRequest(req, decision.code, false, amb); return; }
      if decision.Raised? { return Crashed; }
      if semanticBlocks { o := DenyRequest(req, SEMANTIC_POLICY_DENIED, true, amb); return; }
      o := MintGrant(req, approval, terms, policy, d, amb, evidence);
    }

    method MintGrant(req: EvaluateRequest, approval: Option<Approval>, terms: seq<Constraint>, policy: ToolPolicy,
                     d: Delegation,
                     amb: Ambient, evidence: Object)
      returns (o: EvalOutcome)
      modifies db
      ensures (db.View(), o) == IssueGrant(cfg, old(db.View()), req, Issue(approval, terms, policy, d), amb, evidence)
    {
      var now := Seconds(amb.now);
      var claims := Claims(amb.newId, cfg.issuer, cfg.audience, req.delegationId, req.taskId, req.agentId, req.agentVersion,
        d.sponsor, d.purpose, req.tool, terms, policy.allowedFields, req.region, ApprovalIds(approval),
        now, now, now + cfg.grantTtl, true, cfg.policy.version);
      db.PutGrant(MakeRecord(cfg, claims, Issued, amb.now));
      if approval.Some? {
        db.PutApproval(approval.value.(usedByGrantId := Some(claims.jti)));
      }
      if amb.auditOk {
        db.AppendLinked(cfg.hashing, IssuedEvent(cfg, req, claims, amb, evidence));
        return Granted(claims);
      }
      db.PutGrant(MakeRecord(cfg, claims, Expired, amb.now));
      return Crashed;
    }

    method CreateDelegation(req: CreateDelegationRequest, amb: Ambient) returns (r: Response)
      modifies db
      ensures (db.View(), r) == CreateDelegationSpec(cfg, old(db.View()), req, amb)
    {
      if req.expiresAt <= amb.now || req.expiresAt - amb.now > MAX_DELEGATION_LIFETIME { return Error(VALIDATION_ERROR); }
      if req.purpose !in cfg.policy.purposes { return Error(OUTSIDE_BUSINESS_PURPOSE); }
      db.PutDelegation(Delegation(amb.newId, req.user, req.purpose, req.taskId, req.allowedAgents,
        req.allowedRegions, cfg.policy.version, Active, amb.now, req.expiresAt, None, None));
      var task := db.GetTask(req.taskId);
      if task.None? { db.PutTask(NewTask(req.taskId, amb.newId, cfg.policy.version, amb.now)); }
      return Done;
    }

    method RevokeDelegation(id: string, reason: string, user: string, amb: Ambient) returns (r: Response)
      modifies db
      ensures (db.View(), r) == RevokeSpec(cfg, old(db.View()), id, reason, user, amb)
    {
      var found := db.GetDelegation(id);
      if found.None? { return Error(NOT_FOUND); }
      var d := found.value.(status := Revoked, revokedAt := Some(amb.now), revokedBy := Some(user));
      db.PutDelegation(d);
      if !amb.auditOk { return Error(INTERNAL_ERROR); }
      db.AppendLinked(cfg.hashing, RevokedEvent(d, reason, user, amb));
      return Done;
    }

    method CreateApproval(req: ApprovalRequest, amb: Ambient)
      modifies db
      ensures db.View() == CreateApprovalSpec(cfg, old(db.View()), req, amb)
    {
      db.PutApproval(Approval(amb.newId, req.taskId, req.delegationId, req.approvalType, req.subject, req.decision,
        req.user, amb.now, amb.now + req.expiresInSeconds * SECOND, cfg.policy.version, None));
    }

    method Release(taskId: string, expectedState: TaskState, expectedVersion: Option<int>, reason: string,
                   user: string, amb: Ambient)
      returns (r: Response)
      modifies db
      ensures (db.View(), r) == ReleaseSpec(cfg, old(db.View()), taskId, expectedState, expectedVersion, reason, user, amb)
    {
      var found := db.GetTask(taskId);
      if found.None? { return Error(NOT_FOUND); }
      var task := found.value;
      if expectedVersion.Some? && task.version != expectedVersion.value { return Error(STATE_VERSION_CONFLICT); }
      if task.state != expectedState { return Error(STATE_VERSION_CONFLICT); }
      var next := Transition(task.state, HumanReleased);
      if next.None? { return Error(INVALID_TRANSITION); }
      var m := db.MutateTaskAtomic(taskId, ReleaseTask(next.value, amb.newId, amb.now), Some(task.version));
      if !m.Mutated? { return Error(STATE_VERSION_CONFLICT); }
      if !amb.auditOk { return Error(INTERNAL_ERROR); }
      db.AppendLinked(cfg.hashing, ReleasedEvent(cfg, taskId, m.task, reason, user, amb));
      return Done;
    }
  }

  // ---- joining selections ----

  /** Selecting from one list and then another. */
  function Joined(first: Selection, second: Selection): Selection {
    if first.Selected? then first
    else if second.Selected? then second
    else if first.DutiesViolated? then first
    else second
  }

  lemma {:induction false} SelectConcat(a: seq<Approval>, b: seq<Approval>, req: EvaluateRequest, policy: ToolPolicy,
                                        sponsor: string, now: int)
    ensures Select(a + b, req, policy, sponsor, now)
         == Joined(Select(a, req, policy, sponsor, now), Select(b, req, policy, sponsor, now))
  {
    if a == [] {
      assert a + b == b;
    } else {
      assert (a + b)[1..] == a[1..] + b;
      SelectConcat(a[1..], b, req, policy, sponsor, now);
    }
  }
}
