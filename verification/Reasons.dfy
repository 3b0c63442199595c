/** Denial reason codes and the structural HTTP errors of the three services. */
module Reasons {
  datatype Reason =
    | DELEGATION_NOT_FOUND | DELEGATION_REVOKED | DELEGATION_EXPIRED
    | TASK_NOT_BOUND_TO_DELEGATION | TASK_NOT_LIVE
    | AGENT_NOT_ALLOWED | AGENT_VERSION_NOT_ALLOWED | CAPABILITY_NOT_DECLARED | OUTSIDE_BUSINESS_PURPOSE
    | ARGUMENT_CONSTRAINT_FAILED | ARGUMENT_TYPE_MISMATCH | ARGUMENT_PATH_UNKNOWN
    | APPROVAL_REQUIRED | SEPARATION_OF_DUTIES_VIOLATION
    | REGION_NOT_ALLOWED | SEMANTIC_POLICY_DENIED
    | GRANT_INVALID_SIGNATURE | GRANT_INVALID_ISSUER | GRANT_INVALID_AUDIENCE
    | GRANT_NOT_YET_VALID | GRANT_EXPIRED | GRANT_REPLAYED | GRANT_TOOL_MISMATCH
    | GRANT_AGENT_MISMATCH | GRANT_REGION_MISMATCH | GRANT_UNKNOWN
    // structural refusals
    | MISSING_AGENT_ID | MISSING_AGENT_VERSION | UNKNOWN_TOOL
    | NOT_FOUND | STATE_VERSION_CONFLICT | INVALID_TRANSITION | VALIDATION_ERROR | INTERNAL_ERROR
}
