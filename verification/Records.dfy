/** packages/delegation_fabric_core/models: the entities of the protocol. Instants are integers in microseconds. */
module Records {
  import opened Text
  import opened Json
  import opened Constraints
  import opened StateMachine

  const SECOND := 1_000_000

  datatype DelegationStatus = Active | Revoked | Lapsed

  datatype Delegation = Delegation(
    delegationId: string, sponsor: string, purpose: string, taskId: string,
    allowedAgents: seq<string>, allowedRegions: seq<string>, policyVersion: string,
    status: DelegationStatus, createdAt: int, expiresAt: int, revokedAt: Option<int>, revokedBy: Option<string>)

  datatype Task = Task(
    taskId: string, delegationId: string, state: TaskState, version: int,
    agentId: string, agentVersion: string, sessionId: string, latestCheckpointId: string,
    policyVersion: string, createdAt: int, updatedAt: int)

  datatype Checkpoint = Checkpoint(
    checkpointId: string, taskId: string, state: TaskState, version: int,
    sessionId: string, agentId: string, agentVersion: string, pendingSubject: Option<Object>, createdAt: int)

  datatype GrantStatus = Issued | Consumed | Expired

  datatype GrantRecord = GrantRecord(
    grantId: string, delegationId: string, taskId: string, agentId: string, agentVersion: string, tool: string,
    status: GrantStatus, issuedAt: int, expiresAt: int, consumedAt: Option<int>, policyVersion: string)

  /** The signed claims of an execution grant; `iat`, `nbf` and `exp` are in seconds. */
  datatype Claims = Claims(
    jti: string, iss: string, aud: string, delegationId: string, taskId: string,
    agentId: string, agentVersion: string, humanSponsor: string, purpose: string, tool: string,
    argConstraints: seq<Constraint>, allowedResponseFields: seq<string>, region: string,
    approvalIds: seq<string>, iat: int, nbf: int, exp: int, singleUse: bool, policyVersion: string)

  datatype ApprovalDecision = Approved | Rejected

  datatype Approval = Approval(
    approvalId: string, taskId: string, delegationId: string, approvalType: string, subject: Object,
    decision: ApprovalDecision, approver: string, createdAt: int, expiresAt: int, policyVersion: string,
    usedByGrantId: Option<string>)
  {
    predicate IsValid(now: int) { decision.Approved? && expiresAt > now }
  }

  datatype Envelope = Envelope(eventId: string, kind: EventType, taskId: string, data: Object)

  datatype ReceiptStatus = Processing | Complete
  datatype Receipt = Receipt(eventId: string, kind: EventType, taskId: string, status: ReceiptStatus, attempts: nat, firstSeenAt: int)
}
