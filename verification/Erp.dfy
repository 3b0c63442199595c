/** packages/delegation_fabric_adapters/postgres/erp.py: the file-backed ERP behind the gateway. */
module Erp {
  import opened Text
  import opened Json
  import opened Settings

  type Table = map<string, Object>

  datatype ErpState = ErpState(invoices: Table, purchaseOrders: Table, vendors: Table, reconciliations: Table, paymentsByGrant: Table)

  /** What one adapter call gives the gateway: a record, nothing (None), or an exception. */
  datatype AdapterResult = Raw(record: Object) | Absent | Exception

  function GetOr(args: Object, k: string, otherwise: Json): Json { if k in args then args[k] else otherwise }

  /** `table.get(key)`: hashing a list or an object raises; only a string can be a key. */
  function ReadRecord(t: Table, key: Json): AdapterResult {
    if !Scalar(key) then Exception
    else if key.Str? && key.s in t then Raw(t[key.s])
    else Absent
  }

  /** `str(args.get(k) or freshId)` */
  function IdOr(cfg: Config, args: Object, k: string, freshId: string): string {
    if k in args && Truthy(args[k]) then cfg.render(args[k]) else freshId
  }

  function PaymentRecord(cfg: Config, args: Object, grantId: string, freshId: string, now: int): Object
    requires "batch_id" in args
  {
    map["payment_id" := Str(IdOr(cfg, args, "payment_id", freshId)), "batch_id" := Str(cfg.render(args["batch_id"])),
        "grant_id" := Str(grantId), "status" := Str("accepted"), "created_at" := Str(cfg.iso(now))]
  }

  /** One payment per grant: a second instruction under the same grant returns the first one's record. */
  function InstructPaymentSpec(cfg: Config, e: ErpState, args: Object, grantId: string, freshId: string,
                               now: int): (ErpState, AdapterResult) {
    if grantId in e.paymentsByGrant then (e, Raw(e.paymentsByGrant[grantId]))
    else if "batch_id" !in args then (e, Exception)
    else
      var r := PaymentRecord(cfg, args, grantId, freshId, now);
      (e.(paymentsByGrant := e.paymentsByGrant[grantId := r]), Raw(r))
  }

  function WriteReconciliationSpec(cfg: Config, e: ErpState, args: Object, freshId: string, now: int): (ErpState,
                                   AdapterResult) {
    var id := IdOr(cfg, args, "reconciliation_id", freshId);
    if id in e.reconciliations then (e, Raw(e.reconciliations[id]))
    else if "invoice_id" !in args || "task_id" !in args || "result" !in args then (e, Exception)
    else match cfg.toInt(GetOr(args, "variance_minor", Int(0)))
      case None => (e, Exception)
      case Some(variance) =>
        var r: Object := map["reconciliation_id" := Str(id), "invoice_id" := Str(cfg.render(args["invoice_id"])),
          "task_id" := Str(cfg.render(args["task_id"])), "result" := Str(cfg.render(args["result"])),
          "variance_minor" := Int(variance), "created_at" := Str(cfg.iso(now))];
        (e.(reconciliations := e.reconciliations[id := r]), Raw(r))
  }

  // ---- what the records say ----

  /** A payment names its grant, its batch and the identifier asked for, or a fresh one if none was. */
  predicate IsPayment(cfg: Config, r: Object, args: Object, grantId: string, freshId: string, now: int) {
    && r.Keys == {"payment_id", "batch_id", "grant_id", "status", "created_at"} && "batch_id" in args
    && r["grant_id"] == Str(grantId) && r["batch_id"] == Str(cfg.render(args["batch_id"])) && r["status"] == Str("accepted")
    && r["created_at"] == Str(cfg.iso(now)) && r["payment_id"] == Str(Named(cfg, args, "payment_id", freshId))
  }

  function Named(cfg: Config, args: Object, k: string, freshId: string): string {
    if k !in args || Empty(args[k]) then freshId else cfg.render(args[k])
  }

  predicate IsReconciliation(cfg: Config, r: Object, args: Object, id: string, now: int) {
    && r.Keys == {"reconciliation_id", "invoice_id", "task_id", "result", "variance_minor", "created_at"}
    && "invoice_id" in args && "task_id" in args && "result" in args
    && r["reconciliation_id"] == Str(id) && r["invoice_id"] == Str(cfg.render(args["invoice_id"]))
    && r["task_id"] == Str(cfg.render(args["task_id"])) && r["result"] == Str(cfg.render(args["result"]))
    && r["variance_minor"].Int? && Some(r["variance_minor"].i) == cfg.toInt(Variance(args)) && r["created_at"] == Str(cfg.iso(now))
  }

  function Variance(args: Object): Json { if "variance_minor" !in args then Int(0) else args["variance_minor"] }

  lemma PaymentFieldsDiffer()
    ensures "payment_id" != "created_at" && "batch_id" != "grant_id" && "status" !in {"payment_id", "batch_id", "grant_id", "created_at"}
    ensures "payment_id" !in {"batch_id", "grant_id"} && "created_at" !in {"batch_id", "grant_id"}
  {
    assert |"payment_id"| == 10 && |"created_at"| == 10 && |"batch_id"| == 8 && |"grant_id"| == 8 && |"status"| == 6;
    assert "payment_id"[0] == 'p' && "created_at"[0] == 'c' && "batch_id"[0] == 'b' && "grant_id"[0] == 'g';
  }

  lemma NamedMeaning(cfg: Config, args: Object, k: string, freshId: string)
    ensures IdOr(cfg, args, k, freshId) == Named(cfg, args, k, freshId)
  {
    if k in args { TruthyExactly(args[k]); }
  }

  lemma PaymentRecordMeaning(cfg: Config, args: Object, g: string, freshId: string, now: int)
    requires "batch_id" in args
    ensures IsPayment(cfg, PaymentRecord(cfg, args, g, freshId, now), args, g, freshId, now)
  {
    PaymentFieldsDiffer();
    NamedMeaning(cfg, args, "payment_id", freshId);
    var r := PaymentRecord(cfg, args, g, freshId, now);
    assert forall k :: k in r.Keys <==> k in {"payment_id", "batch_id", "grant_id", "status", "created_at"};
  }

  /** A grant's first instruction adds its one payment and nothing else, and every later one answers with that payment. */
  lemma PaymentsMeaning(cfg: Config, e: ErpState, args: Object, g: string, freshId: string, now: int)
    ensures var (e', r) := InstructPaymentSpec(cfg, e, args, g, freshId, now);
      if g in e.paymentsByGrant then e' == e && r == Raw(e.paymentsByGrant[g])
      else if "batch_id" !in args then e' == e && r == Exception
      else r.Raw? && IsPayment(cfg, r.record, args, g, freshId, now)
           && e' == e.(paymentsByGrant := e.paymentsByGrant[g := r.record])
  {
    if "batch_id" in args { PaymentRecordMeaning(cfg, args, g, freshId, now); }
  }

  lemma ReconciliationFieldsDiffer()
    ensures "reconciliation_id" !in {"invoice_id", "task_id", "result", "variance_minor", "created_at"}
    ensures "invoice_id" !in {"task_id", "result", "variance_minor", "created_at"}
    ensures "task_id" !in {"result", "variance_minor", "created_at"} && "result" !in {"variance_minor", "created_at"}
    ensures "variance_minor" != "created_at"
  {
    assert |"reconciliation_id"| == 17 && |"invoice_id"| == 10 && |"created_at"| == 10 && |"task_id"| == 7;
    assert |"result"| == 6 && |"variance_minor"| == 14 && "invoice_id"[0] == 'i' && "created_at"[0] == 'c';
  }

  lemma ReconciliationRecordMeaning(cfg: Config, e: ErpState, args: Object, freshId: string, now: int)
    requires var (e', r) := WriteReconciliationSpec(cfg, e, args, freshId, now); r.Raw? && e' != e
    ensures IsReconciliation(cfg, WriteReconciliationSpec(cfg, e, args, freshId, now).1.record, args,
                             IdOr(cfg, args, "reconciliation_id", freshId), now)
  {
    ReconciliationFieldsDiffer();
    var r := WriteReconciliationSpec(cfg, e, args, freshId, now).1.record;
    assert forall k :: k in r.Keys <==> k in {"reconciliation_id", "invoice_id", "task_id", "result", "variance_minor", "created_at"};
  }

  /** A reconciliation is written once, under the identifier asked for, or a fresh one if none was; what cannot be
      written changes nothing. */
  lemma ReconciliationsMeaning(cfg: Config, e: ErpState, args: Object, freshId: string, now: int)
    ensures var (e', r) := WriteReconciliationSpec(cfg, e, args, freshId, now);
      var id := Named(cfg, args, "reconciliation_id", freshId);
      if id in e.reconciliations then e' == e && r == Raw(e.reconciliations[id])
      else if "invoice_id" !in args || "task_id" !in args || "result" !in args || cfg.toInt(Variance(args)).None? then
        e' == e && r == Exception
      else r.Raw? && IsReconciliation(cfg, r.record, args, id, now)
           && e' == e.(reconciliations := e.reconciliations[id := r.record])
  {
    NamedMeaning(cfg, args, "reconciliation_id", freshId);
    if WriteReconciliationSpec(cfg, e, args, freshId, now).0 != e { ReconciliationRecordMeaning(cfg, e, args, freshId, now); }
  }

  class FileERPBackend {
    const cfg: Config
    var invoices: Table
    var purchaseOrders: Table
    var vendors: Table
    var reconciliations: Table
    var paymentsByGrant: Table

    ghost function View(): ErpState
      reads this
    {
      ErpState(invoices, purchaseOrders, vendors, reconciliations, paymentsByGrant)
    }

    constructor (cfg: Config, invoices: Table, purchaseOrders: Table, vendors: Table)
      ensures this.cfg == cfg && View() == ErpState(invoices, purchaseOrders, vendors, map[], map[])
    {
      this.cfg, this.invoices, this.purchaseOrders, this.vendors := cfg, invoices, purchaseOrders, vendors;
      reconciliations, paymentsByGrant := map[], map[];
    }

    method Read(t: Table, key: Json) returns (r: AdapterResult)
      ensures r == ReadRecord(t, key)
    {
      if key.List? || key.Dict? { return Exception; }
      if key.Str? {
        if key.s in t { return Raw(t[key.s]); }
      }
      return Absent;
    }

    method WriteReconciliation(args: Object, freshId: string, now: int) returns (r: AdapterResult)
      modifies this
      ensures (View(), r) == WriteReconciliationSpec(cfg, old(View()), args, freshId, now)
      ensures var id := IdOr(cfg, args, "reconciliation_id", freshId);
        && (id in old(reconciliations) ==> View() == old(View()) && r == Raw(old(reconciliations)[id]))
        && (r.Raw? ==> id in reconciliations && r.record == reconciliations[id])
        && (!r.Raw? ==> View() == old(View()))
    {
      var id := IdOr(cfg, args, "reconciliation_id", freshId);
      if id in reconciliations { return Raw(reconciliations[id]); }
      if "invoice_id" !in args || "task_id" !in args || "result" !in args { return Exception; }
      var variance := cfg.toInt(GetOr(args, "variance_minor", Int(0)));
      if variance.None? { return Exception; }
      var record: Object := map["reconciliation_id" := Str(id), "invoice_id" := Str(cfg.render(args["invoice_id"])),
        "task_id" := Str(cfg.render(args["task_id"])), "result" := Str(cfg.render(args["result"])),
        "variance_minor" := Int(variance.value), "created_at" := Str(cfg.iso(now))];
      reconciliations := reconciliations[id := record];
      return Raw(record);
    }

    method InstructPayment(args: Object, grantId: string, freshId: string, now: int) returns (r: AdapterResult)
      modifies this
      ensures (View(), r) == InstructPaymentSpec(cfg, old(View()), args, grantId, freshId, now)
      ensures grantId in old(paymentsByGrant) ==> View() == old(View()) && r == Raw(old(paymentsByGrant)[grantId])
      ensures grantId !in old(paymentsByGrant) && "batch_id" in args ==>
        grantId in paymentsByGrant && r == Raw(paymentsByGrant[grantId])
    {
      if grantId in paymentsByGrant { return Raw(paymentsByGrant[grantId]); }
      if "batch_id" !in args { return Exception; }
      var record := PaymentRecord(cfg, args, grantId, freshId, now);
      paymentsByGrant := paymentsByGrant[grantId := record];
      return Raw(record);
    }
  }
}
