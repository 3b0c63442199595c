/** packages/delegation_fabric_core/policy/purpose.py, `default_policy_document`. */
module Baseline {
  import opened Text
  import opened Purpose

  function Reading(fields: seq<string>): ToolPolicy { ToolPolicy(fields, false, [], None, []) }

  const INVOICE_FIELDS := ["invoice_id", "vendor_id", "po_id", "total_minor", "currency", "status"]
  const PO_FIELDS := ["po_id", "vendor_id", "total_minor", "currency", "status"]
  const VENDOR_FIELDS := ["vendor_id", "legal_name", "status", "country_code"]

  const PAYMENT_POLICY := ToolPolicy(["payment_id", "status", "processed_at"], true, [SPONSOR], Some(100_000_000), ["INR"])

  function InvoiceTools(): AgentTools {
    map["invoice.read" := Reading(INVOICE_FIELDS), "purchase_order.read" := Reading(PO_FIELDS)]
  }

  function ReconciliationTools(): AgentTools {
    InvoiceTools()["reconciliation.write" := Reading(["reconciliation_id", "result", "variance_minor"])]
  }

  function VendorTools(): AgentTools { map["vendor.read" := Reading(VENDOR_FIELDS)] }

  function ExceptionTools(): AgentTools { VendorTools()["exception.write" := Reading(["exception_id", "status"])] }

  function TreasuryTools(): AgentTools {
    map["payment.instruct" := PAYMENT_POLICY,
        "payment_batch.read" := Reading(["batch_id", "total_minor", "currency", "status"])]
  }

  function DefaultPolicy(): PolicyDocument {
    PolicyDocument("finance-policy-2026-08-20.1", map[
      "weekly_vendor_settlement" := map["invoice-reconciliation" := InvoiceTools(), "procurement-exception" := VendorTools(),
                                        "treasury-approval" := TreasuryTools()],
      "invoice_reconciliation" := map["invoice-reconciliation" := ReconciliationTools()],
      "procurement_exception" := map["procurement-exception" := ExceptionTools()]])
  }

  predicate StrictlyGuarded(t: ToolPolicy) {
    t.requiresApproval && t.approverMustDifferFrom == ["delegation_sponsor"] && t.maxAmountMinor == Some(100_000_000)
    && t.allowedCurrencies == ["INR"]
  }

  lemma OtherToolsPayNothing()
    ensures "payment.instruct" !in InvoiceTools() && "payment.instruct" !in ReconciliationTools()
    ensures "payment.instruct" !in VendorTools() && "payment.instruct" !in ExceptionTools()
  {
    assert |"payment.instruct"| == 16 && |"invoice.read"| == 12 && |"purchase_order.read"| == 19;
    assert |"reconciliation.write"| == 20 && |"vendor.read"| == 11 && |"exception.write"| == 15;
  }

  lemma OnlyTreasuryPays(purpose: string, agent: string)
    ensures DefaultPolicy().Tool(purpose, agent, "payment.instruct").Some? ==>
      DefaultPolicy().Tool(purpose, agent, "payment.instruct").value == PAYMENT_POLICY
  {
    OtherToolsPayNothing();
  }

  /** The baseline policy guards its payments: approval by someone other than the sponsor, at most 1,000,000.00 INR. */
  lemma DefaultGuardsPayments()
    ensures DefaultPolicy().GuardsPayments()
    ensures forall p, a :: DefaultPolicy().Tool(p, a, "payment.instruct").Some? ==> StrictlyGuarded(DefaultPolicy().Tool(p, a, "payment.instruct").value)
  {
    assert SPONSOR in PAYMENT_POLICY.approverMustDifferFrom;
    forall p, a ensures DefaultPolicy().Tool(p, a, "payment.instruct").Some? ==>
      DefaultPolicy().Tool(p, a, "payment.instruct").value == PAYMENT_POLICY
    {
      OnlyTreasuryPays(p, a);
    }
  }
}
