/**
 * The action records the dashboard's mock backend keeps and its views read.
 * Optional sub-records are `Option`s; an absent or empty string field is "".
 */
module DashboardModel {
  import opened Outcomes

  /** The free-form `payload` object, keyed by field name. */
  type Payload = map<string, string>

  /** The record's `context` object; the lifecycle operations write its `status` key. */
  type Context = map<string, string>

  const StatusKey := "status"

  datatype Initiator = Initiator(kind: string, source: string, sessionId: string)

  datatype Target = Target(system: string, resource: string, operation: string)

  datatype RiskFactor = RiskFactor(factor: string, severity: string, weight: real, details: string)

  datatype SimilarActions = SimilarActions(past30Days: nat, successRate: real, averageCompletionTime: string)

  datatype RiskAssessment = RiskAssessment(
    actionId: string,
    timestamp: string,
    riskScore: real,
    riskLevel: string,
    riskFactors: seq<RiskFactor>,
    similarActions: SimilarActions,
    recommendation: string,
    confidence: real)

  datatype ApprovalRequest = ApprovalRequest(
    actionId: string,
    riskScore: real,
    approvalType: string,
    approvers: seq<string>,
    deadline: string,
    priority: string)

  datatype ApprovalDecision = ApprovalDecision(
    actionId: string,
    decision: string,
    approver: string,
    timestamp: string,
    reason: string)

  /** The refund fields a `payment.process` execution adds, copied from the payload. */
  datatype Refund = Refund(refundId: string, amountRefunded: Option<string>, currency: Option<string>)

  datatype ExecutionOutput = ExecutionOutput(
    executionTime: string,
    webhookUrl: string,
    refund: Option<Refund>,
    recordsAffected: Option<nat>)

  datatype SideEffect = SideEffect(kind: string, details: string)

  datatype ExecutionResult = ExecutionResult(
    actionId: string,
    startedAt: string,
    completedAt: string,
    status: string,
    result: ExecutionOutput,
    sideEffects: seq<SideEffect>)

  datatype Check = Check(kind: string, status: string, details: string)

  datatype VerificationResult = VerificationResult(
    actionId: string,
    timestamp: string,
    overallStatus: string,
    checks: seq<Check>,
    confidence: real)

  datatype Rollback = Rollback(
    actionId: string,
    timestamp: string,
    reason: string,
    status: string,
    compensatingActions: seq<string>)

  /**
   * One action record. `approval` and `execution` stand for the truthiness of
   * the record fields of those names, which the statistics cards read.
   */
  datatype Action = Action(
    actionId: string,
    workflowId: string,
    initiator: Initiator,
    timestamp: string,
    actionType: string,
    target: Target,
    payload: Payload,
    context: Context,
    riskAssessment: Option<RiskAssessment>,
    approvalRequest: Option<ApprovalRequest>,
    approvalDecision: Option<ApprovalDecision>,
    executionResult: Option<ExecutionResult>,
    verificationResult: Option<VerificationResult>,
    rollback: Option<Rollback>,
    status: string,
    approval: bool,
    execution: bool)
}
