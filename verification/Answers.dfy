/** What an admitted execution does and answers, tool by tool. */
module Answers {
  import opened Text
  import opened Json
  import opened Reasons
  import opened Projection
  import opened AuditChain
  import opened Records
  import opened Store
  import opened Settings
  import opened Erp
  import GW = Gateway

  // ---- tools ----

  function ToolName(a: GW.Adapter): string {
    match a
    case InvoiceRead => "invoice.read"
    case PurchaseOrderRead => "purchase_order.read"
    case VendorRead => "vendor.read"
    case ReconciliationWrite => "reconciliation.write"
    case PaymentInstruct => "payment.instruct"
  }

  /** The arguments a tool cannot do without. */
  predicate Supplied(a: GW.Adapter, args: Object) {
    match a
    case InvoiceRead => "invoice_id" in args
    case PurchaseOrderRead => "po_id" in args
    case VendorRead => "vendor_id" in args
    case ReconciliationWrite => "invoice_id" in args
    case PaymentInstruct => "batch_id" in args && "amount_minor" in args && "currency" in args
  }

  /** A tool has an adapter exactly under that adapter's name. */
  lemma NamedExactly(tool: string, a: GW.Adapter)
    ensures GW.AdapterFor(tool) == Some(a) <==> tool == ToolName(a)
  {
    assert |"invoice.read"| == 12 && |"purchase_order.read"| == 19 && |"vendor.read"| == 11;
    assert |"reconciliation.write"| == 20 && |"payment.instruct"| == 16;
  }

  lemma SuppliedExactly(a: GW.Adapter, args: Object)
    ensures GW.HasArgs(GW.RequiredArgs(a), args) <==> Supplied(a, args)
  {
    var names := GW.RequiredArgs(a);
    assert GW.HasArgs(names, args) <==> names[0] in args && (|names| == 3 ==> names[1] in args && names[2] in args);
  }

  // ---- what an adapter yields ----

  /** A table gives the record of a string it has, nothing for any other scalar, and cannot hash a list or an object. */
  predicate ReadAs(t: Table, key: Json, r: AdapterResult) {
    match key
    case Str(id) => r == if id in t then Raw(t[id]) else Absent
    case List(_) => r == Exception
    case Dict(_) => r == Exception
    case _ => r == Absent
  }

  /** Reads leave the ERP as it is; each of the two writes adds its one record, unless it is there. */
  predicate Yields(cfg: Config, e: ErpState, e': ErpState, a: GW.Adapter, args: Object, grantId: string, amb: Ambient, r: AdapterResult)
    requires Supplied(a, args)
  {
    match a
    case InvoiceRead => e' == e && ReadAs(e.invoices, args["invoice_id"], r)
    case PurchaseOrderRead => e' == e && ReadAs(e.purchaseOrders, args["po_id"], r)
    case VendorRead => e' == e && ReadAs(e.vendors, args["vendor_id"], r)
    case ReconciliationWrite => Reconciles(cfg, e, e', args, amb, r)
    case PaymentInstruct => Pays(cfg, e, e', args, grantId, amb, r)
  }

  predicate Pays(cfg: Config, e: ErpState, e': ErpState, args: Object, grantId: string, amb: Ambient, r: AdapterResult) {
    if grantId in e.paymentsByGrant then e' == e && r == Raw(e.paymentsByGrant[grantId])
    else r.Raw? && IsPayment(cfg, r.record, args, grantId, amb.newId, amb.now)
         && e' == e.(paymentsByGrant := e.paymentsByGrant[grantId := r.record])
  }

  predicate Reconciles(cfg: Config, e: ErpState, e': ErpState, args: Object, amb: Ambient, r: AdapterResult) {
    var id := Named(cfg, args, "reconciliation_id", amb.newId);
    if id in e.reconciliations then e' == e && r == Raw(e.reconciliations[id])
    else if "invoice_id" !in args || "task_id" !in args || "result" !in args || cfg.toInt(Variance(args)).None? then e' == e && r == Exception
    else r.Raw? && IsReconciliation(cfg, r.record, args, id, amb.now) && e' == e.(reconciliations := e.reconciliations[id := r.record])
  }

  lemma ReadsAs(t: Table, key: Json)
    ensures ReadAs(t, key, ReadRecord(t, key))
  {}

  lemma DispatchExactly(cfg: Config, e: ErpState, a: GW.Adapter, args: Object, grantId: string, amb: Ambient)
    requires Supplied(a, args)
    ensures var (e', r) := GW.Dispatch(cfg, e, a, args, grantId, amb.newId, amb.now);
      Yields(cfg, e, e', a, args, grantId, amb, r)
  {
    match a
    case InvoiceRead => ReadsAs(e.invoices, args["invoice_id"]);
    case PurchaseOrderRead => ReadsAs(e.purchaseOrders, args["po_id"]);
    case VendorRead => ReadsAs(e.vendors, args["vendor_id"]);
    case ReconciliationWrite => ReconciliationsMeaning(cfg, e, args, amb.newId, amb.now);
    case PaymentInstruct => PaymentsMeaning(cfg, e, args, grantId, amb.newId, amb.now);
  }

  // ---- what an execution answers ----

  /** A record is projected and recorded; nothing is not found; an exception is an internal error. */
  ghost predicate AnswersWith(r: AdapterResult, fields: seq<string>, auditOk: bool, o: GW.ExecOutcome) {
    match r
    case Raw(record) => o == if auditOk then GW.Answered(ProjectFields(Dict(record), fields).0) else GW.Unrecorded
    case Absent => o == GW.AdapterFailed(NOT_FOUND)
    case Exception => o == GW.AdapterFailed(INTERNAL_ERROR)
  }

  /** What the completion event refers to: the kind of record and its identifier. */
  function Reference(cfg: Config, a: GW.Adapter, record: Object): string {
    match a
    case InvoiceRead => "invoice:" + cfg.render(FieldOf(record, "invoice_id"))
    case PurchaseOrderRead => "purchase_order:" + cfg.render(FieldOf(record, "po_id"))
    case VendorRead => "vendor:" + cfg.render(FieldOf(record, "vendor_id"))
    case ReconciliationWrite => "reconciliation:" + cfg.render(FieldOf(record, "reconciliation_id"))
    case PaymentInstruct => "payment:" + cfg.render(FieldOf(record, "payment_id"))
  }

  function FieldOf(record: Object, k: string): Json { if k in record then record[k] else Null }

  /** The completion event: the grant, its agent, task, delegation and approvals, the tool, and the record. */
  predicate IsCompletion(cfg: Config, b: EventBody, a: GW.Adapter, c: Claims, record: Object, amb: Ambient) {
    && b.auditEventId == amb.auditId && b.taskId == c.taskId && b.delegationId == c.delegationId && b.grantId == Some(c.jti)
    && b.actor == AgentActor(c.agentId, c.agentVersion) && b.kind == ToolCompleted && b.tool == Some(ToolName(a))
    && b.decision == AllowDecision && b.reasonCode == None && b.policyVersion == c.policyVersion
    && b.approvalIds == c.approvalIds && b.resourceRefs == [Reference(cfg, a, record)] && b.metadata == NoMetadata
    && b.occurredAt == amb.now
  }

  /** A recorded answer adds its completion event to the task's chain; any other outcome adds nothing. */
  ghost predicate Completes(cfg: Config, audit: Audit, audit': Audit, a: GW.Adapter, c: Claims, r: AdapterResult, amb: Ambient) {
    if r.Raw? && amb.auditOk then
      exists b :: IsCompletion(cfg, b, a, c, r.record, amb) && audit' == audit[c.taskId := Append(cfg.hashing, Chain(audit, c.taskId), b)]
    else audit' == audit
  }

  lemma AdapterAnswers(cfg: Config, st: State, e: ErpState, a: GW.Adapter, c: Claims, args: Object, amb: Ambient)
    requires c.tool == ToolName(a) && Supplied(a, args)
    ensures var (st', e', o) := GW.RunAdapter(cfg, st, e, a, c, args, amb);
      var r := GW.Dispatch(cfg, e, a, args, c.jti, amb.newId, amb.now).1;
      && Yields(cfg, e, e', a, args, c.jti, amb, r) && AnswersWith(r, c.allowedResponseFields, amb.auditOk, o)
      && st' == st.(audit := st'.audit) && Completes(cfg, st.audit, st'.audit, a, c, r, amb)
  {
    DispatchExactly(cfg, e, a, args, c.jti, amb);
    var r := GW.Dispatch(cfg, e, a, args, c.jti, amb.newId, amb.now).1;
    if r.Raw? { CompletionExactly(cfg, a, c, r.record, amb); }
  }

  lemma CompletionExactly(cfg: Config, a: GW.Adapter, c: Claims, record: Object, amb: Ambient)
    requires c.tool == ToolName(a)
    ensures IsCompletion(cfg, GW.CompletedEvent(c, GW.ResourceRef(cfg, a, record), amb), a, c, record, amb)
  {}

  /** The grant is used up first: an unknown, used or lapsed one is refused under its own code; then the adapter's one
      effect, its answer and its record follow. */
  ghost predicate Executes(cfg: Config, st: State, e: ErpState, a: GW.Adapter, c: Claims, args: Object, amb: Ambient,
                           st': State, e': ErpState, o: GW.ExecOutcome)
    requires Supplied(a, args)
  {
    if c.jti !in st.grants then o == GW.Refused(GRANT_UNKNOWN) && st' == st && e' == e
    else
      var g := st.grants[c.jti];
      if g.status != Issued then o == GW.Refused(GRANT_REPLAYED) && st' == st && e' == e
      else if g.expiresAt <= amb.now then
        o == GW.Refused(GRANT_EXPIRED) && e' == e && st' == st.(grants := st.grants[c.jti := g.(status := Expired)])
      else
        && st' == st.(grants := st.grants[c.jti := g.(status := Consumed, consumedAt := Some(amb.now))], audit := st'.audit)
        && exists r :: Serves(cfg, st, e, a, c, args, amb, st', e', o, r)
  }

  ghost predicate Serves(cfg: Config, st: State, e: ErpState, a: GW.Adapter, c: Claims, args: Object, amb: Ambient,
                         st': State, e': ErpState, o: GW.ExecOutcome, r: AdapterResult)
    requires Supplied(a, args)
  {
    && Yields(cfg, e, e', a, args, c.jti, amb, r) && AnswersWith(r, c.allowedResponseFields, amb.auditOk, o)
    && Completes(cfg, st.audit, st'.audit, a, c, r, amb)
  }

  lemma ExecutedExactly(cfg: Config, st: State, e: ErpState, req: GW.ExecuteRequest, amb: Ambient, a: GW.Adapter)
    requires GW.Admit(cfg, st, req, amb.now).None? && req.verified.Some? && req.verified.value.singleUse && req.tool == ToolName(a)
    ensures var c := req.verified.value; var (st', e', o) := GW.ExecuteSpec(cfg, st, e, req, amb);
      Supplied(a, req.arguments) && Executes(cfg, st, e, a, c, req.arguments, amb, st', e', o)
  {
    var c := req.verified.value;
    NamedExactly(c.tool, a);
    SuppliedExactly(a, req.arguments);
    var (st', e', o) := GW.ExecuteSpec(cfg, st, e, req, amb);
    if Consume(st.grants, c.jti, amb.now).1 == Ok {
      var st1 := st.(grants := Consume(st.grants, c.jti, amb.now).0);
      AdapterAnswers(cfg, st1, e, a, c, req.arguments, amb);
      assert Serves(cfg, st, e, a, c, req.arguments, amb, st', e', o, GW.Dispatch(cfg, e, a, req.arguments, c.jti, amb.newId, amb.now).1);
    } else {
      assert st.(grants := st.grants) == st;
    }
  }
}
