/** apps/execution_gateway/main.py: verification, single-use consumption, adapter dispatch, projection, audit. */
module Gateway {
  import opened Text
  import opened Json
  import opened Reasons
  import opened StateMachine
  import opened Constraints
  import opened Projection
  import opened AuditChain
  import opened Records
  import opened Store
  import opened Settings
  import opened Erp

  /** `verified` is the result of `parse_and_verify` on the presented token; an absent header is "". */
  datatype ExecuteRequest = ExecuteRequest(
    verified: Option<Claims>, callerAgent: string, callerVersion: string, tool: string, arguments: Object)

  const PAYMENT_INSTRUCT := "payment.instruct"

  /** The tools the gateway can execute. */
  datatype Adapter = InvoiceRead | PurchaseOrderRead | VendorRead | ReconciliationWrite | PaymentInstruct

  function AdapterFor(tool: string): Option<Adapter> {
    if tool == "invoice.read" then Some(InvoiceRead)
    else if tool == "purchase_order.read" then Some(PurchaseOrderRead)
    else if tool == "vendor.read" then Some(VendorRead)
    else if tool == "reconciliation.write" then Some(ReconciliationWrite)
    else if tool == PAYMENT_INSTRUCT then Some(PaymentInstruct)
    else None
  }

  /** `_REQUIRED_ARGS` */
  function RequiredArgs(a: Adapter): seq<string> {
    match a
    case InvoiceRead => ["invoice_id"]
    case PurchaseOrderRead => ["po_id"]
    case VendorRead => ["vendor_id"]
    case ReconciliationWrite => ["invoice_id"]
    case PaymentInstruct => ["batch_id", "amount_minor", "currency"]
  }

  predicate HasArgs(names: seq<string>, args: Object) { forall i :: 0 <= i < |names| ==> names[i] in args }

  // ---- steps 1 to 9 and 12: everything checked before the grant is consumed ----

  function CheckClaims(cfg: Config, c: Claims, now: int): Option<Reason> {
    var ts := now / SECOND;
    if c.iss != cfg.issuer then Some(GRANT_INVALID_ISSUER)
    else if c.aud != cfg.audience then Some(GRANT_INVALID_AUDIENCE)
    else if ts + cfg.clockSkew < c.iat then Some(GRANT_NOT_YET_VALID)
    else if ts < c.nbf - cfg.clockSkew then Some(GRANT_NOT_YET_VALID)
    else if ts >= c.exp then Some(GRANT_EXPIRED)
    else if c.region != cfg.region then Some(GRANT_REGION_MISMATCH)
    else None
  }

  function CheckLive(st: State, c: Claims, now: int): Option<Reason> {
    if c.delegationId !in st.delegations then Some(DELEGATION_NOT_FOUND)
    else if st.delegations[c.delegationId].status == Revoked then Some(DELEGATION_REVOKED)
    else if st.delegations[c.delegationId].status != Active || st.delegations[c.delegationId].expiresAt <= now then
      Some(DELEGATION_EXPIRED)
    else if c.taskId !in st.tasks then Some(TASK_NOT_BOUND_TO_DELEGATION)
    else if !st.tasks[c.taskId].state.Live() then Some(TASK_NOT_LIVE)
    else None
  }

  function CheckCall(cfg: Config, c: Claims, req: ExecuteRequest): Option<Reason> {
    if req.callerAgent != c.agentId || req.callerVersion != c.agentVersion then Some(GRANT_AGENT_MISMATCH)
    else if c.tool != req.tool then Some(GRANT_TOOL_MISMATCH)
    else if AdapterFor(req.tool).None? then Some(UNKNOWN_TOOL)
    else if !HasArgs(RequiredArgs(AdapterFor(req.tool).value), req.arguments) then Some(ARGUMENT_PATH_UNKNOWN)
    else match Evaluate(cfg.rx, c.argConstraints, Dict(req.arguments))
      case Denied(code, _) => Some(code)
      case Raised => Some(INTERNAL_ERROR)
      case Allowed => None
  }

  /** None admits the call to consumption. */
  function Admit(cfg: Config, st: State, req: ExecuteRequest, now: int): Option<Reason> {
    if req.callerAgent == "" then Some(MISSING_AGENT_ID)
    else if req.callerVersion == "" then Some(MISSING_AGENT_VERSION)
    else match req.verified
      case None => Some(GRANT_INVALID_SIGNATURE)
      case Some(c) =>
        match CheckClaims(cfg, c, now)
        case Some(code) => Some(code)
        case None =>
          match CheckLive(st, c, now)
          case Some(code) => Some(code)
          case None => CheckCall(cfg, c, req)
  }

  // ---- steps 10, 11, 13, 14 ----

  datatype ExecOutcome = Refused(code: Reason) | AdapterFailed(code: Reason) | Unrecorded | Answered(result: Json)

  function Dispatch(cfg: Config, e: ErpState, a: Adapter, args: Object, grantId: string, freshId: string,
                    now: int): (ErpState, AdapterResult) {
    match a
    case InvoiceRead => (e, ReadRecord(e.invoices, GetOr(args, "invoice_id", Str(""))))
    case PurchaseOrderRead => (e, ReadRecord(e.purchaseOrders, GetOr(args, "po_id", Str(""))))
    case VendorRead => (e, ReadRecord(e.vendors, GetOr(args, "vendor_id", Str(""))))
    case ReconciliationWrite => WriteReconciliationSpec(cfg, e, args, freshId, now)
    case PaymentInstruct => InstructPaymentSpec(cfg, e, args, grantId, freshId, now)
  }

  function ResourceRef(cfg: Config, a: Adapter, record: Object): string {
    match a
    case InvoiceRead => "invoice:" + cfg.render(GetOr(record, "invoice_id", Null))
    case PurchaseOrderRead => "purchase_order:" + cfg.render(GetOr(record, "po_id", Null))
    case VendorRead => "vendor:" + cfg.render(GetOr(record, "vendor_id", Null))
    case ReconciliationWrite => "reconciliation:" + cfg.render(GetOr(record, "reconciliation_id", Null))
    case PaymentInstruct => "payment:" + cfg.render(GetOr(record, "payment_id", Null))
  }

  function CompletedEvent(c: Claims, ref: string, amb: Ambient): EventBody {
    EventBody(amb.auditId, c.taskId, c.delegationId, Some(c.jti), AgentActor(c.agentId, c.agentVersion), ToolCompleted,
      Some(c.tool), AllowDecision, None, c.policyVersion, c.approvalIds, [ref], NoMetadata, amb.now)
  }

  ghost function RunAdapter(cfg: Config, st: State, e: ErpState, a: Adapter, c: Claims, args: Object,
                            amb: Ambient): (State, ErpState, ExecOutcome) {
    var (e', r) := Dispatch(cfg, e, a, args, c.jti, amb.newId, amb.now);
    match r
    case Absent => (st, e', AdapterFailed(NOT_FOUND))
    case Exception => (st, e', AdapterFailed(INTERNAL_ERROR))
    case Raw(record) =>
      if !amb.auditOk then (st, e', Unrecorded)
      else (Record(cfg.hashing, st, CompletedEvent(c, ResourceRef(cfg, a, record), amb)), e',
            Answered(ProjectFields(Dict(record), c.allowedResponseFields).0))
  }

  ghost function ExecuteSpec(cfg: Config, st: State, e: ErpState, req: ExecuteRequest, amb: Ambient): (State,
                             ErpState, ExecOutcome) {
    match Admit(cfg, st, req, amb.now)
    case Some(code) => (st, e, Refused(code))
    case None =>
      var c := req.verified.value;
      var a := AdapterFor(c.tool).value;
      if !c.singleUse then RunAdapter(cfg, st, e, a, c, req.arguments, amb)
      else
        var (grants, r) := Consume(st.grants, c.jti, amb.now);
        var st1 := st.(grants := grants);
        match r
        case Replay => (st1, e, Refused(GRANT_REPLAYED))
        case GrantLapsed => (st1, e, Refused(GRANT_EXPIRED))
        case Unknown => (st1, e, Refused(GRANT_UNKNOWN))
        case Ok => RunAdapter(cfg, st1, e, a, c, req.arguments, amb)
  }

  /** A refusal leaves store and ERP as they were; only the lapse of the grant itself is written down. */
  lemma RefusalsChangeNothing(cfg: Config, st: State, e: ErpState, req: ExecuteRequest, amb: Ambient)
    requires ExecuteSpec(cfg, st, e, req, amb).2.Refused?
    ensures ExecuteSpec(cfg, st, e, req, amb).1 == e
    ensures var st' := ExecuteSpec(cfg, st, e, req, amb).0;
      st' == st || (req.verified.Some? && st' == st.(grants := Consume(st.grants, req.verified.value.jti, amb.now).0)
                    && Consume(st.grants, req.verified.value.jti, amb.now).1 == GrantLapsed)
  {
    if Admit(cfg, st, req, amb.now).None? {
      var c := req.verified.value;
      assert st.(grants := st.grants) == st;
    }
  }

  class Server {
    const cfg: Config
    const db: MemoryStore
    const erp: FileERPBackend

    constructor (cfg: Config, db: MemoryStore, erp: FileERPBackend)
      ensures this.cfg == cfg && this.db == db && this.erp == erp
    {
      this.cfg, this.db, this.erp := cfg, db, erp;
    }

    method Verify(req: ExecuteRequest, now: int) returns (refusal: Option<Reason>)
      ensures refusal == Admit(cfg, db.View(), req, now)
    {
      if req.callerAgent == "" { return Some(MISSING_AGENT_ID); }
      if req.callerVersion == "" { return Some(MISSING_AGENT_VERSION); }
      if req.verified.None? { return Some(GRANT_INVALID_SIGNATURE); }
      var grant := req.verified.value;
      refusal := VerifyClaims(grant, now);
      if refusal.Some? { return; }
      var delegation := db.GetDelegation(grant.delegationId);
      if delegation.None? { return Some(DELEGATION_NOT_FOUND); }
      if delegation.value.status == Revoked { return Some(DELEGATION_REVOKED); }
      if delegation.value.status != Active || delegation.value.expiresAt <= now { return Some(DELEGATION_EXPIRED); }
      var task := db.GetTask(grant.taskId);
      if task.None? { return Some(TASK_NOT_BOUND_TO_DELEGATION); }
      if task.value.state.Terminal() || task.value.state == Quarantined { return Some(TASK_NOT_LIVE); }
      refusal := VerifyCall(grant, req);
    }

    method VerifyClaims(grant: Claims, now: int) returns (refusal: Option<Reason>)
      ensures refusal == CheckClaims(cfg, grant, now)
    {
      var nowTs := now / SECOND;
      if grant.iss != cfg.issuer { return Some(GRANT_INVALID_ISSUER); }
      if grant.aud != cfg.audience { return Some(GRANT_INVALID_AUDIENCE); }
      if nowTs + cfg.clockSkew < grant.iat { return Some(GRANT_NOT_YET_VALID); }
      if nowTs < grant.nbf - cfg.clockSkew { return Some(GRANT_NOT_YET_VALID); }
      if nowTs >= grant.exp { return Some(GRANT_EXPIRED); }
      if grant.region != cfg.region { return Some(GRANT_REGION_MISMATCH); }
      return None;
    }

    method VerifyCall(grant: Claims, req: ExecuteRequest) returns (refusal: Option<Reason>)
      ensures refusal == CheckCall(cfg, grant, req)
    {
      if req.callerAgent != grant.agentId { return Some(GRANT_AGENT_MISMATCH); }
      if req.callerVersion != grant.agentVersion { return Some(GRANT_AGENT_MISMATCH); }
      if grant.tool != req.tool { return Some(GRANT_TOOL_MISMATCH); }
      var adapter := AdapterFor(req.tool);
      if adapter.None? { return Some(UNKNOWN_TOOL); }
      var required := RequiredArgs(adapter.value);
      for i := 0 to |required|
        invariant forall j :: 0 <= j < i ==> required[j] in req.arguments
      {
        if required[i] !in req.arguments { return Some(ARGUMENT_PATH_UNKNOWN); }
      }
      if grant.argConstraints != [] {
        var d := EvaluateConstraints(cfg.rx, grant.argConstraints, Dict(req.arguments));
        if d.Denied? { return Some(d.code); }
        if d.Raised? { return Some(INTERNAL_ERROR); }
      }
      return None;
    }

    method CallAdapter(a: Adapter, args: Object, grantId: string, freshId: string, now: int) returns (r: AdapterResult)
      requires erp.cfg == cfg
      modifies erp
      ensures (erp.View(), r) == Dispatch(cfg, old(erp.View()), a, args, grantId, freshId, now)
    {
      match a
      case InvoiceRead => r := erp.Read(erp.invoices, GetOr(args, "invoice_id", Str("")));
      case PurchaseOrderRead => r := erp.Read(erp.purchaseOrders, GetOr(args, "po_id", Str("")));
      case VendorRead => r := erp.Read(erp.vendors, GetOr(args, "vendor_id", Str("")));
      case ReconciliationWrite => r := erp.WriteReconciliation(args, freshId, now);
      case PaymentInstruct => r := erp.InstructPayment(args, grantId, freshId, now);
    }

    method Execute(req: ExecuteRequest, amb: Ambient) returns (o: ExecOutcome)
      requires erp.cfg == cfg
      modifies db, erp
      ensures (db.View(), erp.View(), o) == ExecuteSpec(cfg, old(db.View()), old(erp.View()), req, amb)
    {
      var refusal := Verify(req, amb.now);
      if refusal.Some? { return Refused(refusal.value); }
      var grant := req.verified.value;
      if grant.singleUse {
        var r := db.ConsumeGrantAtomic(grant.jti, amb.now);
        if r == Replay { return Refused(GRANT_REPLAYED); }
        if r == GrantLapsed { return Refused(GRANT_EXPIRED); }
        if r == Unknown { return Refused(GRANT_UNKNOWN); }
      }
      assert grant.tool == req.tool;
      o := Perform(AdapterFor(req.tool).value, grant, req.arguments, amb);
    }

    /** Steps 13 and 14. */
    method Perform(a: Adapter, grant: Claims, args: Object, amb: Ambient) returns (o: ExecOutcome)
      requires erp.cfg == cfg
      modifies db, erp
      ensures (db.View(), erp.View(), o) == RunAdapter(cfg, old(db.View()), old(erp.View()), a, grant, args, amb)
    {
      var r := CallAdapter(a, args, grant.jti, amb.newId, amb.now);
      if r.Absent? { return AdapterFailed(NOT_FOUND); }
      if r.Exception? { return AdapterFailed(INTERNAL_ERROR); }
      var projected, _ := ProjectFieldsOf(Dict(r.record), grant.allowedResponseFields);
      if !amb.auditOk { return Unrecorded; }
      db.AppendLinked(cfg.hashing, CompletedEvent(grant, ResourceRef(cfg, a, r.record), amb));
      return Answered(projected);
    }
  }
}
