/**
 * The gateway's approval routing: a risk level is mapped to the approval
 * request that says who must approve the action and how urgently.
 */
module ApprovalEngine {
  import opened Outcomes
  import opened GatewayModels

  /**
   * The fields the routing passes to the ApprovalRequest constructor.
   * `approvers` is `None` when the call does not pass that keyword; the other
   * keywords the source passes (decision, timestamp, reason, approvals) are
   * not fields of the record and are dropped by the record's validation.
   */
  datatype RequestArgs = RequestArgs(
    actionId: string,
    riskScore: real,
    approvalType: string,
    approvers: Option<seq<string>>,
    deadline: string,
    priority: string)

  /** The record validation rejects a request whose required field is missing. */
  datatype ValidationError = MissingField(field: string)

  const AutoApprove := "auto_approve"
  const HumanRequired := "human_required"
  const Deadline := "24 hours"

  /** Building the record from its arguments: it exists exactly when every required field was passed. */
  function Construct(args: RequestArgs): (r: Result<ApprovalRequest, ValidationError>)
    ensures r.Ok? <==> args.approvers.Some?
    ensures r.Err? ==> r.error == MissingField("approvers")
    ensures r.Ok? ==> r.value == ApprovalRequest(args.actionId, args.riskScore, args.approvalType, args.approvers.value,
                                                 args.deadline, args.priority)
  {
    match args.approvers
    case None => Err(MissingField("approvers"))
    case Some(approvers) =>
      Ok(ApprovalRequest(args.actionId, args.riskScore, args.approvalType, approvers, args.deadline, args.priority))
  }

  /**
   * The if/elif chain of the routing, as the arguments each branch passes:
   * every branch passes the id, the score and a 24-hour deadline; only the
   * low branch auto-approves; low and medium run at low priority; and the
   * medium branch is the only one that does not pass `approvers`.
   */
  function RequestArgsFor(riskLevel: string, actionId: string, riskScore: real): (a: RequestArgs)
    ensures a.actionId == actionId && a.riskScore == riskScore && a.deadline == Deadline
    ensures a.approvalType == AutoApprove <==> riskLevel == "low"
    ensures a.approvalType == AutoApprove || a.approvalType == HumanRequired
    ensures a.priority == "low" <==> riskLevel == "low" || riskLevel == "medium"
    ensures a.priority == "low" || a.priority == "high"
    ensures a.approvers.None? <==> riskLevel == "medium"
    ensures riskLevel == "low" ==> a.approvers == Some(["system"])
    ensures riskLevel == "high" ==> a.approvers == Some(["cto_team"])
    ensures riskLevel !in {"low", "medium", "high"} ==> a.approvers == Some(["security_team"])
  {
    if riskLevel == "low" then
      RequestArgs(actionId, riskScore, AutoApprove, Some(["system"]), Deadline, "low")
    else if riskLevel == "medium" then
      RequestArgs(actionId, riskScore, HumanRequired, None, Deadline, "low")
    else if riskLevel == "high" then
      RequestArgs(actionId, riskScore, HumanRequired, Some(["cto_team"]), Deadline, "high")
    else
      RequestArgs(actionId, riskScore, HumanRequired, Some(["security_team"]), Deadline, "high")
  }

  /**
   * `get_approval_request` as written: the medium branch names its approver
   * list `approvals`, so the record misses its approvers and cannot be built.
   */
  function GetApprovalRequest(riskLevel: string, actionId: string, riskScore: real): (r: Result<ApprovalRequest, ValidationError>)
    ensures r.Err? <==> riskLevel == "medium"
    ensures r.Err? ==> r.error == MissingField("approvers")
    ensures r.Ok? ==> r.value.actionId == actionId && r.value.riskScore == riskScore && r.value.deadline == Deadline
    ensures r.Ok? ==> (r.value.approvalType == AutoApprove <==> riskLevel == "low")
    ensures r.Ok? ==> (r.value.priority == "low" <==> riskLevel == "low")
    ensures r.Ok? ==> |r.value.approvers| == 1
    ensures r.Ok? ==> (r.value.approvers == ["system"] <==> riskLevel == "low")
    ensures r.Ok? ==> (r.value.approvers == ["cto_team"] <==> riskLevel == "high")
    ensures r.Ok? && riskLevel != "low" ==> r.value.approvalType == HumanRequired && r.value.priority == "high"
    ensures r.Ok? && riskLevel !in {"low", "medium", "high"} ==> r.value.approvers == ["security_team"]
  {
    Construct(RequestArgsFor(riskLevel, actionId, riskScore))
  }

  /** Every medium-risk request fails, whatever the action and score. */
  lemma MediumRequestFails(actionId: string, riskScore: real)
    ensures GetApprovalRequest("medium", actionId, riskScore) == Err(MissingField("approvers"))
  {
  }

  /**
   * The routing as evidently intended: the medium branch passes its approver
   * list `["on_call_engineer"]` under the field's own name.
   */
  function GetApprovalRequestIntended(riskLevel: string, actionId: string, riskScore: real): (r: ApprovalRequest)
    ensures r.actionId == actionId && r.riskScore == riskScore && r.deadline == Deadline
    ensures r.approvalType == AutoApprove <==> riskLevel == "low"
    ensures r.priority == "low" <==> riskLevel == "low" || riskLevel == "medium"
    ensures |r.approvers| == 1 && r.approvers[0] != ""
    ensures riskLevel == "medium" ==> r.approvers == ["on_call_engineer"]
    ensures riskLevel != "medium" ==> Ok(r) == GetApprovalRequest(riskLevel, actionId, riskScore)
  {
    var args := RequestArgsFor(riskLevel, actionId, riskScore);
    var fixed := if riskLevel == "medium" then args.(approvers := Some(["on_call_engineer"])) else args;
    Construct(fixed).value
  }
}
