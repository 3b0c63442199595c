/** packages/delegation_fabric_core/policy/purpose.py and models/manifest.py: immutable policy values. */
module Purpose {
  import opened Text

  const SPONSOR := "delegation_sponsor"
  const ORIGINATING_EXCEPTION_ACTOR := "originating_exception_actor"

  datatype ToolPolicy = ToolPolicy(
    allowedFields: seq<string>,
    requiresApproval: bool,
    approverMustDifferFrom: seq<string>,
    maxAmountMinor: Option<int>,
    allowedCurrencies: seq<string>)

  type AgentTools = map<string, ToolPolicy>
  type PurposeAgents = map<string, AgentTools>

  datatype PolicyDocument = PolicyDocument(version: string, purposes: map<string, PurposeAgents>)
  {
    function Tool(purpose: string, agent: string, tool: string): Option<ToolPolicy> {
      if purpose in purposes && agent in purposes[purpose] && tool in purposes[purpose][agent]
      then Some(purposes[purpose][agent][tool]) else None
    }

    /** Every way to instruct a payment needs an approval by someone other than the sponsor,
        an amount cap and a currency list, as the default policy does. */
    ghost predicate GuardsPayments() {
      forall p, a :: Tool(p, a, "payment.instruct").Some? ==>
        var t := Tool(p, a, "payment.instruct").value;
        t.requiresApproval && SPONSOR in t.approverMustDifferFrom && t.maxAmountMinor.Some? && t.allowedCurrencies != []
    }
  }

  datatype Manifest = Manifest(agentId: string, version: string, capabilities: seq<string>, deniedTools: seq<string>)
  {
    predicate CanRequest(tool: string) { tool !in deniedTools && tool in capabilities }
  }
}
