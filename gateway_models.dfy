/** The record shapes the gateway components exchange (its pydantic models). */
module GatewayModels {
  import opened Outcomes

  datatype Target = Target(system: string, resource: string, operation: string)

  datatype Initiator = Initiator(kind: string, source: string, sessionId: Option<string>)

  /** The declaration's free-form `context`, which every component reads with `dict.get`. */
  type Context = map<string, string>

  /** `context.get(key, default)`. */
  function LookupOr(context: Context, key: string, default: string): string {
    if key in context then context[key] else default
  }

  datatype ActionDeclaration = ActionDeclaration(
    actionId: string,
    workflowId: string,
    initiator: Initiator,
    timestamp: string,
    actionType: string,
    target: Target,
    context: Context)

  datatype RiskFactor = RiskFactor(factor: string, severity: string, weight: real, details: string)

  /** The dictionary `get_similar_actions` returns and the risk assessor reads. */
  datatype SimilarStats = SimilarStats(count: nat, successRate: real, avgCompletionTime: string)

  datatype RiskAssessment = RiskAssessment(
    actionId: string,
    timestamp: string,
    riskScore: real,
    riskLevel: string,
    riskFactors: seq<RiskFactor>,
    similarActions: SimilarStats,
    recommendation: string,
    confidence: real)

  datatype ApprovalRequest = ApprovalRequest(
    actionId: string,
    riskScore: real,
    approvalType: string,
    approvers: seq<string>,
    deadline: string,
    priority: string)

  datatype ApprovalDecision = ApprovalDecision(
    actionId: string,
    decision: string,
    approver: string,
    timestamp: string,
    reason: string)

  datatype ExecutionResult = ExecutionResult(
    actionId: string,
    startedAt: string,
    completedAt: Option<string>,
    status: string)

  datatype Check = Check(kind: string, status: string, details: string)

  datatype VerificationResult = VerificationResult(
    actionId: string,
    timestamp: string,
    overallStatus: string,
    checks: seq<Check>,
    confidence: real)
}
