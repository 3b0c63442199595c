/** Request-step theorems about adapter calls: what each answered, and from which record, in every reachable world. */
module Calls {
  import opened Text
  import opened Json
  import opened Records
  import opened Store
  import opened Settings
  import opened Erp
  import opened Protocol
  import opened Answers
  import Projection
  import Reasons
  import Provenance
  import GW = Gateway

  // ---- what a call owes to the ERP ----

  /** The reconciliation is stored, under the identifier asked for if one was. */
  predicate WroteUnder(cfg: Config, e: ErpState, args: Object, record: Object, id: string) {
    && id in e.reconciliations && e.reconciliations[id] == record
    && ("reconciliation_id" in args && !Empty(args["reconciliation_id"]) ==> id == cfg.render(args["reconciliation_id"]))
  }

  /** A read gave what its own table has under its own argument; a write, what is stored. */
  ghost predicate Sourced(cfg: Config, e: ErpState, a: GW.Adapter, k: Call)
    requires Supplied(a, k.arguments)
  {
    match a
    case InvoiceRead => ReadAs(e.invoices, k.arguments["invoice_id"], k.adapter)
    case PurchaseOrderRead => ReadAs(e.purchaseOrders, k.arguments["po_id"], k.adapter)
    case VendorRead => ReadAs(e.vendors, k.arguments["vendor_id"], k.adapter)
    case PaymentInstruct => k.claims.jti in e.paymentsByGrant && k.adapter == Raw(e.paymentsByGrant[k.claims.jti])
    case ReconciliationWrite =>
      if k.adapter.Raw? then exists id :: WroteUnder(cfg, e, k.arguments, k.adapter.record, id) else k.adapter == Exception
  }

  /** The call was answered from that, under the grant's fields. */
  ghost predicate Served(cfg: Config, e: ErpState, a: GW.Adapter, k: Call) {
    && k.claims.tool == ToolName(a) && Supplied(a, k.arguments) && Sourced(cfg, e, a, k)
    && exists auditOk :: AnswersWith(k.adapter, k.claims.allowedResponseFields, auditOk, k.outcome)
  }

  /** No record is ever changed, and the tables that are read never are. */
  ghost predicate ErpGrows(e: ErpState, e': ErpState) {
    && e'.invoices == e.invoices && e'.purchaseOrders == e.purchaseOrders && e'.vendors == e.vendors
    && (forall g :: g in e.paymentsByGrant ==> g in e'.paymentsByGrant && e'.paymentsByGrant[g] == e.paymentsByGrant[g])
    && (forall id :: id in e.reconciliations ==> id in e'.reconciliations && e'.reconciliations[id] == e.reconciliations[id])
  }

  lemma ServedStays(cfg: Config, e: ErpState, e': ErpState, a: GW.Adapter, k: Call)
    requires Served(cfg, e, a, k) && ErpGrows(e, e')
    ensures Served(cfg, e', a, k)
  {
    if a == GW.ReconciliationWrite && k.adapter.Raw? {
      var id :| WroteUnder(cfg, e, k.arguments, k.adapter.record, id);
      assert WroteUnder(cfg, e', k.arguments, k.adapter.record, id);
    }
  }

  lemma YieldsGrow(cfg: Config, e: ErpState, e': ErpState, a: GW.Adapter, args: Object, g: string, amb: Ambient, r: AdapterResult)
    requires Supplied(a, args) && Yields(cfg, e, e', a, args, g, amb, r)
    ensures ErpGrows(e, e')
  {}

  lemma YieldsSource(cfg: Config, e: ErpState, e': ErpState, a: GW.Adapter, amb: Ambient, k: Call)
    requires Supplied(a, k.arguments) && Yields(cfg, e, e', a, k.arguments, k.claims.jti, amb, k.adapter)
    ensures Sourced(cfg, e', a, k)
  {
    if a == GW.ReconciliationWrite && k.adapter.Raw? {
      assert WroteUnder(cfg, e', k.arguments, k.adapter.record, Named(cfg, k.arguments, "reconciliation_id", amb.newId));
    }
  }

  // ---- every step keeps it ----

  ghost predicate ServedAt(cfg: Config, w: World, i: nat) { i < |w.calls| ==> exists a :: Served(cfg, w.erp, a, w.calls[i]) }

  ghost predicate AllServed(cfg: Config, w: World) { forall i: nat :: ServedAt(cfg, w, i) }

  /** An execution that is not refused comes down to its adapter. */
  lemma ExecuteRuns(cfg: Config, st: State, e: ErpState, req: GW.ExecuteRequest, amb: Ambient)
    requires !GW.ExecuteSpec(cfg, st, e, req, amb).2.Refused?
    ensures GW.Admit(cfg, st, req, amb.now).None? && req.verified.Some? && GW.AdapterFor(req.verified.value.tool).Some?
    ensures var c := req.verified.value;
      var st1 := st.(grants := if c.singleUse then Consume(st.grants, c.jti, amb.now).0 else st.grants);
      GW.ExecuteSpec(cfg, st, e, req, amb) == GW.RunAdapter(cfg, st1, e, GW.AdapterFor(c.tool).value, c, req.arguments, amb)
  {
    assert st.(grants := st.grants) == st;
  }

  lemma NewCallServed(cfg: Config, w: World, req: GW.ExecuteRequest, amb: Ambient)
    requires !GW.ExecuteSpec(cfg, w.store, w.erp, req, amb).2.Refused?
    ensures var w' := NextExecute(cfg, w, req, amb);
      && ErpGrows(w.erp, w'.erp) && |w'.calls| == |w.calls| + 1 && w.calls <= w'.calls
      && exists a :: Served(cfg, w'.erp, a, w'.calls[|w.calls|])
  {
    ExecuteRuns(cfg, w.store, w.erp, req, amb);
    Provenance.AdmitMeaning(cfg, w.store, req, amb.now);
    var c := req.verified.value;
    var a, st1 := GW.AdapterFor(c.tool).value, w.store.(grants := if c.singleUse then Consume(w.store.grants, c.jti, amb.now).0 else w.store.grants);
    NamedExactly(c.tool, a);
    SuppliedExactly(a, req.arguments);
    AdapterAnswers(cfg, st1, w.erp, a, c, req.arguments, amb);
    var w' := NextExecute(cfg, w, req, amb);
    var k := w'.calls[|w.calls|];
    YieldsGrow(cfg, w.erp, w'.erp, a, req.arguments, c.jti, amb, k.adapter);
    YieldsSource(cfg, w.erp, w'.erp, a, amb, k);
    assert Served(cfg, w'.erp, a, k);
  }

  lemma StaysServed(cfg: Config, w: World, w': World)
    requires AllServed(cfg, w) && ErpGrows(w.erp, w'.erp) && w.calls <= w'.calls
    requires |w'.calls| <= |w.calls| + 1 && (|w'.calls| > |w.calls| ==> exists a :: Served(cfg, w'.erp, a, w'.calls[|w.calls|]))
    ensures AllServed(cfg, w')
  {
    forall i: nat ensures ServedAt(cfg, w', i) {
      assert ServedAt(cfg, w, i);
      if i < |w.calls| {
        var a :| Served(cfg, w.erp, a, w.calls[i]);
        ServedStays(cfg, w.erp, w'.erp, a, w.calls[i]);
      }
    }
  }

  lemma RefusedLeavesCalls(cfg: Config, w: World, req: GW.ExecuteRequest, amb: Ambient)
    requires GW.ExecuteSpec(cfg, w.store, w.erp, req, amb).2.Refused?
    ensures var w' := NextExecute(cfg, w, req, amb); w'.calls == w.calls && w'.erp == w.erp
  {
    GW.RefusalsChangeNothing(cfg, w.store, w.erp, req, amb);
  }

  lemma NextKeepsServed(cfg: Config, w: World, s: Step)
    requires AllServed(cfg, w)
    ensures AllServed(cfg, Next(cfg, w, s)) && ErpGrows(w.erp, Next(cfg, w, s).erp)
  {
    if s.Execute? {
      if GW.ExecuteSpec(cfg, w.store, w.erp, s.exec, s.amb).2.Refused? { RefusedLeavesCalls(cfg, w, s.exec, s.amb); }
      else { NewCallServed(cfg, w, s.exec, s.amb); }
    }
    StaysServed(cfg, w, Next(cfg, w, s));
  }

  lemma {:induction false} RunServed(cfg: Config, w: World, steps: seq<Step>)
    requires AllServed(cfg, w)
    ensures AllServed(cfg, Run(cfg, w, steps)) && ErpGrows(w.erp, Run(cfg, w, steps).erp)
    decreases |steps|
  {
    if steps != [] {
      RunServed(cfg, w, steps[..|steps| - 1]);
      NextKeepsServed(cfg, Run(cfg, w, steps[..|steps| - 1]), steps[|steps| - 1]);
    }
  }

  // ---- the theorems ----

  /** In every reachable world each adapter call has its tool's arguments, gave what its tool's own table or store holds,
      and was answered with the projection of that, with nothing if it is not there, or with an error. */
  lemma CallsAreServed(cfg: Config, w: World, k: Call)
    requires Reachable(cfg, w) && k in w.calls
    ensures exists a :: Served(cfg, w.erp, a, k)
  {
    var w0, steps :| Start(w0) && CanRun(cfg, w0, steps) && w == Run(cfg, w0, steps);
    RunServed(cfg, w0, steps);
    var i: nat :| i < |w.calls| && w.calls[i] == k;
    assert ServedAt(cfg, w, i);
  }

  /** The table a tool reads, and the argument that names the record. */
  predicate ReadsFrom(e: ErpState, a: GW.Adapter, table: Table, key: string) {
    match a
    case InvoiceRead => table == e.invoices && key == "invoice_id"
    case PurchaseOrderRead => table == e.purchaseOrders && key == "po_id"
    case VendorRead => table == e.vendors && key == "vendor_id"
    case _ => false
  }

  lemma ReadIsTrue(cfg: Config, e: ErpState, k: Call, a: GW.Adapter, table: Table, key: string)
    requires Served(cfg, e, a, k) && ReadsFrom(e, a, table, key)
    ensures key in k.arguments && ReadAs(table, k.arguments[key], k.adapter)
  {}

  predicate Has(table: Table, key: Json) { key.Str? && key.s in table }

  /** A read that was recorded answers the projection of the one record under its argument; one that was not found named
      no record, and one that raised was given a list or an object. */
  lemma ReadsAreTrue(cfg: Config, w: World, k: Call, a: GW.Adapter, table: Table, key: string)
    requires Reachable(cfg, w) && k in w.calls && k.claims.tool == ToolName(a) && ReadsFrom(w.erp, a, table, key)
    ensures key in k.arguments
    ensures var id, fields := k.arguments[key], k.claims.allowedResponseFields;
      && (k.outcome.Answered? ==> Has(table, id) && k.outcome.result == Projection.ProjectFields(Dict(table[id.s]), fields).0)
      && (k.outcome == GW.AdapterFailed(Reasons.NOT_FOUND) <==> (!id.List? && !id.Dict?) && !Has(table, id))
      && (k.outcome == GW.AdapterFailed(Reasons.INTERNAL_ERROR) <==> id.List? || id.Dict?)
      && (k.outcome == GW.Unrecorded ==> Has(table, id))
  {
    CallsAreServed(cfg, w, k);
    var b :| Served(cfg, w.erp, b, k);
    NamedExactly(k.claims.tool, a);
    NamedExactly(k.claims.tool, b);
    ReadIsTrue(cfg, w.erp, k, a, table, key);
    ReadOutcome(table, k.arguments[key], k.adapter, k.claims.allowedResponseFields, k.outcome);
  }

  lemma ReadOutcome(table: Table, key: Json, r: AdapterResult, fields: seq<string>, o: GW.ExecOutcome)
    requires ReadAs(table, key, r) && exists auditOk :: AnswersWith(r, fields, auditOk, o)
    ensures o.Answered? ==> Has(table, key) && o.result == Projection.ProjectFields(Dict(table[key.s]), fields).0
    ensures o == GW.AdapterFailed(Reasons.NOT_FOUND) <==> (!key.List? && !key.Dict?) && !Has(table, key)
    ensures o == GW.AdapterFailed(Reasons.INTERNAL_ERROR) <==> key.List? || key.Dict?
    ensures o == GW.Unrecorded ==> Has(table, key)
  {}
}
