/**
 * The dashboard's mock backend: a module-level list of action records that
 * `declareAction` prepends to and the lifecycle operations update in place,
 * plus the read-only audit-trail, explanation and listing queries.
 * Latency is left out; the clock readings and random draws each call makes
 * are passed in as parameters.
 */
module MockApi {
  import opened Outcomes
  import opened Text
  import opened DashboardModel

  const NotFound := "Action not found"

  /** JavaScript's `s || fallback` on a string: an absent or empty string falls back. */
  function Or(s: string, fallback: string): (r: string)
    ensures fallback != "" ==> r != ""
    ensures s != "" ==> r == s
    ensures s == "" ==> r == fallback
  {
    if s == "" then fallback else s
  }

  /** The fields of the `data` argument of `declareAction`; a missing string field is "". */
  datatype DeclareInput = DeclareInput(
    workflowId: string,
    initiator: Option<Initiator>,
    actionType: string,
    target: Target,
    payload: Option<Payload>,
    context: Option<Context>)

  /**
   * The readings `declareAction` takes from the environment: `millis` is the
   * decimal text of `Date.now()`, `now` and `deadline` are ISO timestamps
   * (the deadline one hour ahead), the draws are `Math.random()` results and
   * `completionTime` is the formatted random completion time.
   */
  datatype DeclareEnv = DeclareEnv(
    millis: string,
    now: string,
    deadline: string,
    scoreDraw: real,
    pastDraw: real,
    rateDraw: real,
    completionTime: string,
    confidenceDraw: real)

  predicate IsDraw(x: real) {
    0.0 <= x < 1.0
  }

  predicate ValidDraws(env: DeclareEnv) {
    IsDraw(env.scoreDraw) && IsDraw(env.pastDraw) && IsDraw(env.rateDraw) && IsDraw(env.confidenceDraw)
  }

  /** `Math.floor(draw * n)` for a draw in [0, 1): a whole number below `n`. */
  function FloorScaled(draw: real, n: nat): (k: nat)
    requires IsDraw(draw) && n > 0
    ensures k < n && k as real <= draw * n as real < k as real + 1.0
  {
    var k := (draw * n as real).Floor;
    assert draw * n as real < n as real;
    k
  }

  /** The first index holding a record with `id`, as `Array.prototype.find` looks for it. */
  function IndexOf(s: seq<Action>, id: string): (r: Option<nat>)
    ensures r.Some? ==> r.value < |s| && s[r.value].actionId == id
    ensures r.Some? ==> forall j :: 0 <= j < r.value ==> s[j].actionId != id
    ensures r.None? <==> forall j :: 0 <= j < |s| ==> s[j].actionId != id
  {
    if s == [] then None
    else if s[0].actionId == id then Some(0)
    else match IndexOf(s[1..], id)
      case None => None
      case Some(k) => Some(k + 1)
  }

  /** The record `find` returns, if any. */
  function Lookup(s: seq<Action>, id: string): Option<Action> {
    match IndexOf(s, id)
    case None => None
    case Some(k) => Some(s[k])
  }

  /** Replacing a record by one with the same id does not change where any id is found. */
  lemma {:induction false} UpdateKeepsIndex(s: seq<Action>, k: nat, b: Action, id: string)
    requires k < |s| && b.actionId == s[k].actionId
    ensures IndexOf(s[k := b], id) == IndexOf(s, id)
  {
    if k > 0 && s[0].actionId != id {
      assert s[k := b][1..] == s[1..][k - 1 := b];
      UpdateKeepsIndex(s[1..], k - 1, b, id);
    }
  }

  /** After a record is put in front, its id finds it, and every other id is found one place later. */
  lemma PrependShiftsIndex(a: Action, s: seq<Action>, id: string)
    ensures IndexOf([a] + s, a.actionId) == Some(0)
    ensures id != a.actionId ==>
      IndexOf([a] + s, id) == match IndexOf(s, id) { case None => None case Some(k) => Some(k + 1) }
  {
    assert ([a] + s)[1..] == s;
  }

  /** The record `declareAction` builds from `data`, falling back to defaults for missing fields. */
  function NewAction(data: DeclareInput, env: DeclareEnv): (a: Action)
    requires ValidDraws(env)
    ensures a.actionId == "act_" + env.millis && a.status == "pending_approval"
    ensures a.riskAssessment.Some? && a.approvalRequest.Some?
    ensures a.riskAssessment.value.actionId == a.actionId && a.approvalRequest.value.actionId == a.actionId
    ensures var score := a.riskAssessment.value.riskScore;
            && 0.1 <= score < 0.6
            && a.approvalRequest.value.riskScore == score
            && |a.riskAssessment.value.riskFactors| == 1
            && a.riskAssessment.value.riskFactors[0].weight == score
    ensures var ra := a.riskAssessment.value;
            && (ra.riskLevel == "high" <==> ra.riskScore > 0.5)
            && (ra.riskLevel == "medium" <==> 0.3 < ra.riskScore <= 0.5)
            && (ra.riskLevel == "low" <==> ra.riskScore <= 0.3)
            && ra.riskFactors[0].severity == ra.riskLevel
    ensures var ra := a.riskAssessment.value; var ar := a.approvalRequest.value;
            && (ra.recommendation == "human_review" <==> ra.riskScore > 0.3)
            && (ra.recommendation == "human_review" || ra.recommendation == "auto_approve")
            && (ar.approvalType == "human_required" <==> ra.riskScore > 0.3)
            && (ar.approvalType == "human_required" || ar.approvalType == "auto_approve")
            && (ra.riskLevel == "low" <==> ar.approvalType == "auto_approve")
    ensures a.approvalRequest.value.approvers == ["role:default_approver"] && a.approvalRequest.value.priority == "normal"
    ensures var sim := a.riskAssessment.value.similarActions;
            sim.past30Days < 50 && 0.85 <= sim.successRate < 0.95
    ensures 0.85 <= a.riskAssessment.value.confidence < 0.95
    ensures a.approvalDecision.None? && a.executionResult.None? && a.verificationResult.None? && a.rollback.None?
    ensures !a.approval && !a.execution
  {
    var actionId := "act_" + env.millis;
    var riskScore := env.scoreDraw * 0.5 + 0.1;
    var riskLevel := if riskScore > 0.5 then "high" else if riskScore > 0.3 then "medium" else "low";
    var system := Or(data.target.system, "unknown");
    var defaultContext := map[
      "business_reason" := "Custom action",
      "related_entities" := "[]",
      "prior_actions" := "[]",
      "service" := system,
      "namespace" := "custom",
      StatusKey := "pending"];
    Action(
      actionId,
      Or(data.workflowId, "wf_custom_v1"),
      if data.initiator.Some? then data.initiator.value else Initiator("human", "current_user", "session_" + env.millis),
      env.now,
      Or(data.actionType, "api.call"),
      Target(system, Or(data.target.resource, "unknown"), Or(data.target.operation, "unknown")),
      if data.payload.Some? then data.payload.value else map[],
      if data.context.Some? then data.context.value else defaultContext,
      Some(RiskAssessment(
        actionId,
        env.now,
        riskScore,
        riskLevel,
        [RiskFactor("custom_action", riskLevel, riskScore, "Custom action requires review")],
        SimilarActions(FloorScaled(env.pastDraw, 50), 0.85 + env.rateDraw * 0.1, env.completionTime),
        if riskScore > 0.3 then "human_review" else "auto_approve",
        0.85 + env.confidenceDraw * 0.1)),
      Some(ApprovalRequest(
        actionId,
        riskScore,
        if riskScore > 0.3 then "human_required" else "auto_approve",
        ["role:default_approver"],
        env.deadline,
        "normal")),
      None, None, None, None,
      "pending_approval",
      false, false)
  }

  /** Every missing field of the declaration falls back to its default; a given one is kept. */
  lemma DeclareDefaults(data: DeclareInput, env: DeclareEnv)
    requires ValidDraws(env)
    ensures var a := NewAction(data, env);
      && a.workflowId != "" && (data.workflowId != "" ==> a.workflowId == data.workflowId)
      && (data.workflowId == "" ==> a.workflowId == "wf_custom_v1")
      && a.actionType != "" && (data.actionType != "" ==> a.actionType == data.actionType)
      && (data.actionType == "" ==> a.actionType == "api.call")
      && a.target.system != "" && (data.target.system != "" ==> a.target.system == data.target.system)
      && (data.target.system == "" ==> a.target.system == "unknown")
      && a.target.resource != "" && (data.target.resource != "" ==> a.target.resource == data.target.resource)
      && (data.target.resource == "" ==> a.target.resource == "unknown")
      && a.target.operation != "" && (data.target.operation != "" ==> a.target.operation == data.target.operation)
      && (data.target.operation == "" ==> a.target.operation == "unknown")
      && (data.payload.Some? ==> a.payload == data.payload.value)
      && (data.payload.None? ==> a.payload == map[])
      && (data.context.Some? ==> a.context == data.context.value)
      && (data.context.None? ==> a.context == map[
            "business_reason" := "Custom action", "related_entities" := "[]", "prior_actions" := "[]",
            "service" := a.target.system, "namespace" := "custom", StatusKey := "pending"])
      && (data.initiator.Some? ==> a.initiator == data.initiator.value)
      && (data.initiator.None? ==> a.initiator == Initiator("human", "current_user", "session_" + env.millis))
  {
  }

  /** `b` is `a` with the same declaration: only the lifecycle fields may differ. */
  predicate KeepsDeclaration(a: Action, b: Action) {
    && b.actionId == a.actionId && b.workflowId == a.workflowId && b.initiator == a.initiator
    && b.timestamp == a.timestamp && b.actionType == a.actionType && b.target == a.target
    && b.payload == a.payload && b.riskAssessment == a.riskAssessment && b.approvalRequest == a.approvalRequest
    && b.approval == a.approval && b.execution == a.execution
  }

  /** The record after `approveAction`: an approved decision, and `status` and `context.status` set to approved. */
  function Approved(a: Action, approver: string, reason: string, at: string): (b: Action)
    ensures KeepsDeclaration(a, b)
    ensures b.status == "approved" && b.context == a.context[StatusKey := "approved"]
    ensures b.approvalDecision.Some?
    ensures var d := b.approvalDecision.value;
            && d.actionId == a.actionId && d.decision == "approved" && d.approver == approver && d.timestamp == at
            && (reason != "" ==> d.reason == reason) && (reason == "" ==> d.reason == "Manual approval")
    ensures b.executionResult == a.executionResult && b.verificationResult == a.verificationResult && b.rollback == a.rollback
  {
    a.(approvalDecision := Some(ApprovalDecision(a.actionId, "approved", approver, at, Or(reason, "Manual approval"))),
       status := "approved",
       context := a.context[StatusKey := "approved"])
  }

  /** The record after `rejectAction`: a rejected decision, and `status` and `context.status` set to rejected. */
  function Rejected(a: Action, approver: string, reason: string, at: string): (b: Action)
    ensures KeepsDeclaration(a, b)
    ensures b.status == "rejected" && b.context == a.context[StatusKey := "rejected"]
    ensures b.approvalDecision.Some?
    ensures var d := b.approvalDecision.value;
            && d.actionId == a.actionId && d.decision == "rejected" && d.approver == approver && d.timestamp == at
            && (reason != "" ==> d.reason == reason) && (reason == "" ==> d.reason == "Manual rejection")
    ensures b.executionResult == a.executionResult && b.verificationResult == a.verificationResult && b.rollback == a.rollback
  {
    a.(approvalDecision := Some(ApprovalDecision(a.actionId, "rejected", approver, at, Or(reason, "Manual rejection"))),
       status := "rejected",
       context := a.context[StatusKey := "rejected"])
  }

  /**
   * The readings `executeAction` takes: the formatted random duration, the
   * start and completion timestamps, the decimal `Date.now()` for the refund
   * id, and the draw behind the number of affected records.
   */
  datatype ExecuteEnv = ExecuteEnv(
    executionTime: string,
    startedAt: string,
    completedAt: string,
    millis: string,
    recordsDraw: real)

  /** The record after `executeAction`: a successful execution result and status executed. */
  function Executed(a: Action, webhookUrl: string, env: ExecuteEnv): (b: Action)
    requires IsDraw(env.recordsDraw)
    ensures KeepsDeclaration(a, b)
    ensures b.status == "executed" && b.context == a.context[StatusKey := "executed"]
    ensures b.executionResult.Some?
    ensures var x := b.executionResult.value;
            && x.actionId == a.actionId && x.status == "success"
            && x.startedAt == env.startedAt && x.completedAt == env.completedAt
            && x.result.webhookUrl == webhookUrl && x.result.executionTime == env.executionTime + "s"
            && x.sideEffects == [SideEffect("audit_log_created", "Action execution logged")]
    ensures var x := b.executionResult.value;
            && (x.result.refund.Some? <==> a.actionType == "payment.process")
            && (x.result.refund.Some? ==> x.result.refund.value.amountRefunded == Get(a.payload, "amount")
                                          && x.result.refund.value.currency == Get(a.payload, "currency")
                                          && x.result.refund.value.refundId == "re_" + env.millis)
            && (x.result.recordsAffected.Some? <==> a.actionType == "database.update")
            && (x.result.recordsAffected.Some? ==> 1 <= x.result.recordsAffected.value <= 100)
    ensures b.approvalDecision == a.approvalDecision && b.verificationResult == a.verificationResult && b.rollback == a.rollback
  {
    var refund :=
      if a.actionType == "payment.process"
      then Some(Refund("re_" + env.millis, Get(a.payload, "amount"), Get(a.payload, "currency")))
      else None;
    var recordsAffected :=
      if a.actionType == "database.update" then Some(FloorScaled(env.recordsDraw, 100) + 1) else None;
    var output := ExecutionOutput(env.executionTime + "s", webhookUrl, refund, recordsAffected);
    a.(executionResult := Some(ExecutionResult(a.actionId, env.startedAt, env.completedAt, "success", output,
                                               [SideEffect("audit_log_created", "Action execution logged")])),
       status := "executed",
       context := a.context[StatusKey := "executed"])
  }

  /** The record after `verifyAction`: a verified result whose checks all pass, and status verified. */
  function Verified(a: Action, at: string): (b: Action)
    ensures KeepsDeclaration(a, b)
    ensures b.status == "verified" && b.context == a.context[StatusKey := "verified"]
    ensures b.verificationResult.Some?
    ensures var v := b.verificationResult.value;
            && v.actionId == a.actionId && v.timestamp == at && v.overallStatus == "verified" && v.confidence == 0.95
            && |v.checks| == 2 && (forall i :: 0 <= i < |v.checks| ==> v.checks[i].status == "pass")
    ensures b.approvalDecision == a.approvalDecision && b.executionResult == a.executionResult && b.rollback == a.rollback
  {
    var checks := [
      Check("state_consistency", "pass", "System state verified"),
      Check("downstream_effects", "pass", "All downstream effects completed")];
    a.(verificationResult := Some(VerificationResult(a.actionId, at, "verified", checks, 0.95)),
       status := "verified",
       context := a.context[StatusKey := "verified"])
  }

  /** The record after `rollbackAction`: a completed rollback and status rolled_back. */
  function RolledBack(a: Action, reason: string, at: string): (b: Action)
    ensures KeepsDeclaration(a, b)
    ensures b.status == "rolled_back" && b.context == a.context[StatusKey := "rolled_back"]
    ensures b.rollback.Some?
    ensures var rb := b.rollback.value;
            && rb.actionId == a.actionId && rb.timestamp == at && rb.status == "completed"
            && (reason != "" ==> rb.reason == reason) && (reason == "" ==> rb.reason == "Manual rollback")
            && rb.compensatingActions == ["state_restored", "audit_updated"]
    ensures b.approvalDecision == a.approvalDecision && b.executionResult == a.executionResult
            && b.verificationResult == a.verificationResult
  {
    a.(rollback := Some(Rollback(a.actionId, at, Or(reason, "Manual rollback"), "completed",
                                 ["state_restored", "audit_updated"])),
       status := "rolled_back",
       context := a.context[StatusKey := "rolled_back"])
  }

  /** No operation checks the prior status: a rejection after an approval leaves what a rejection alone leaves. */
  lemma RejectAfterApprove(a: Action, approver: string, reason: string, at: string,
                           approver': string, reason': string, at': string)
    ensures Rejected(Approved(a, approver, reason, at), approver', reason', at') == Rejected(a, approver', reason', at')
  {
    assert a.context[StatusKey := "approved"][StatusKey := "rejected"] == a.context[StatusKey := "rejected"];
  }

  /** Likewise an approval after a rejection. */
  lemma ApproveAfterReject(a: Action, approver: string, reason: string, at: string,
                           approver': string, reason': string, at': string)
    ensures Approved(Rejected(a, approver, reason, at), approver', reason', at') == Approved(a, approver', reason', at')
  {
    assert a.context[StatusKey := "rejected"][StatusKey := "approved"] == a.context[StatusKey := "approved"];
  }

  /** No operation guards a rejection either: a rejected record can still be executed, and keeps its rejection. */
  lemma ExecuteAfterReject(a: Action, approver: string, reason: string, at: string, webhookUrl: string, env: ExecuteEnv)
    requires IsDraw(env.recordsDraw)
    ensures var b := Executed(Rejected(a, approver, reason, at), webhookUrl, env);
            && b.status == "executed" && b.executionResult.Some?
            && b.approvalDecision.Some? && b.approvalDecision.value.decision == "rejected"
  {
  }

  /** On the store, approving and then rejecting the same id leaves the store a single rejection leaves. */
  lemma {:induction false} LastDecisionWins(s: seq<Action>, id: string, approver: string, reason: string, at: string,
                                             approver': string, reason': string, at': string)
    requires IndexOf(s, id).Some?
    ensures var k := IndexOf(s, id).value;
            var s1 := s[k := Approved(s[k], approver, reason, at)];
            && IndexOf(s1, id) == Some(k)
            && s1[k := Rejected(s1[k], approver', reason', at')] == s[k := Rejected(s[k], approver', reason', at')]
  {
    var k := IndexOf(s, id).value;
    UpdateKeepsIndex(s, k, Approved(s[k], approver, reason, at), id);
    RejectAfterApprove(s[k], approver, reason, at, approver', reason', at');
  }

  /** One entry of the audit trail's `details`, by event. */
  datatype EventDetails =
    | WorkflowDetails(workflowId: string)
    | RiskDetails(riskScore: real, recommendation: string)
    | ReasonDetails(reason: string)
    | StatusDetails(status: string)

  datatype AuditEvent = AuditEvent(timestamp: string, event: string, actor: string, details: EventDetails)

  datatype AuditTrail = AuditTrail(actionId: string, auditTrail: seq<AuditEvent>)

  const ActionDeclared := "action_declared"
  const RiskAssessed := "risk_assessed"
  const ExecutionStarted := "execution_started"
  const VerificationCompleted := "verification_completed"

  /** The position an event name takes in the lifecycle order of the trail. */
  function Rank(event: string): nat {
    if event == ActionDeclared then 0
    else if event == RiskAssessed then 1
    else if StartsWith(event, "approval_") then 2
    else if event == ExecutionStarted then 3
    else 4
  }

  /** How many of the optional lifecycle sub-records the trail reports are attached to the record. */
  function Attached(found: Option<Action>): nat {
    if found.None? then 0
    else (if found.value.approvalDecision.Some? then 1 else 0)
         + (if found.value.executionResult.Some? then 1 else 0)
         + (if found.value.verificationResult.Some? then 1 else 0)
  }

  predicate HasEvent(events: seq<AuditEvent>, event: string) {
    exists i :: 0 <= i < |events| && events[i].event == event
  }

  predicate HasDecisionEvent(events: seq<AuditEvent>) {
    exists i :: 0 <= i < |events| && StartsWith(events[i].event, "approval_")
  }

  function DeclaredEvent(found: Option<Action>, fallbackTime: string): AuditEvent {
    match found
    case None => AuditEvent(fallbackTime, ActionDeclared, "system", WorkflowDetails("unknown"))
    case Some(a) =>
      AuditEvent(Or(a.timestamp, fallbackTime), ActionDeclared, Or(a.initiator.source, "system"),
                 WorkflowDetails(Or(a.workflowId, "unknown")))
  }

  function RiskEvent(found: Option<Action>, fallbackTime: string): AuditEvent {
    if found.Some? && found.value.riskAssessment.Some? then
      var ra := found.value.riskAssessment.value;
      AuditEvent(Or(ra.timestamp, fallbackTime), RiskAssessed, "risk_engine",
                 RiskDetails(ra.riskScore, Or(ra.recommendation, "unknown")))
    else AuditEvent(fallbackTime, RiskAssessed, "risk_engine", RiskDetails(0.0, "unknown"))
  }

  function DecisionEvent(d: ApprovalDecision): AuditEvent {
    AuditEvent(d.timestamp, "approval_" + d.decision, d.approver, ReasonDetails(d.reason))
  }

  function ExecutionEvent(x: ExecutionResult): AuditEvent {
    AuditEvent(x.startedAt, ExecutionStarted, "execution_engine", StatusDetails(x.status))
  }

  function VerificationEvent(v: VerificationResult): AuditEvent {
    AuditEvent(v.timestamp, VerificationCompleted, "verification_engine", StatusDetails(v.overallStatus))
  }

  /** The fixed event names are not decision events; a decision event's name is. */
  lemma EventNames(d: ApprovalDecision)
    ensures !StartsWith(ActionDeclared, "approval_") && !StartsWith(RiskAssessed, "approval_")
    ensures !StartsWith(ExecutionStarted, "approval_") && !StartsWith(VerificationCompleted, "approval_")
    ensures StartsWith(DecisionEvent(d).event, "approval_")
    ensures Rank(ActionDeclared) == 0 && Rank(RiskAssessed) == 1 && Rank(DecisionEvent(d).event) == 2
    ensures Rank(ExecutionStarted) == 3 && Rank(VerificationCompleted) == 4
  {
    assert ActionDeclared[..9][1] != "approval_"[1];
    assert RiskAssessed[..9][0] != "approval_"[0];
    assert ExecutionStarted[..9][0] != "approval_"[0];
    assert VerificationCompleted[..9][0] != "approval_"[0];
    assert DecisionEvent(d).event[..9] == "approval_";
  }

  predicate Increasing(events: seq<AuditEvent>) {
    forall i, j :: 0 <= i < j < |events| ==> Rank(events[i].event) < Rank(events[j].event)
  }

  /** Appending at most one event that ranks above every earlier one keeps the trail in lifecycle order. */
  lemma AppendRanked(events: seq<AuditEvent>, tail: seq<AuditEvent>, r: nat)
    requires Increasing(events) && (forall i :: 0 <= i < |events| ==> Rank(events[i].event) < r)
    requires |tail| <= 1 && (forall i :: 0 <= i < |tail| ==> Rank(tail[i].event) == r)
    ensures Increasing(events + tail)
    ensures forall i :: 0 <= i < |events + tail| ==> Rank((events + tail)[i].event) <= r
  {
  }

  lemma HasEventAppend(a: seq<AuditEvent>, b: seq<AuditEvent>, event: string)
    ensures HasEvent(a + b, event) <==> HasEvent(a, event) || HasEvent(b, event)
  {
    if HasEvent(a + b, event) {
      var i :| 0 <= i < |a + b| && (a + b)[i].event == event;
      if i >= |a| { assert b[i - |a|] == (a + b)[i]; }
    }
    if HasEvent(a, event) {
      var i :| 0 <= i < |a| && a[i].event == event;
      assert (a + b)[i] == a[i];
    }
    if HasEvent(b, event) {
      var i :| 0 <= i < |b| && b[i].event == event;
      assert (a + b)[|a| + i] == b[i];
    }
  }

  lemma HasDecisionAppend(a: seq<AuditEvent>, b: seq<AuditEvent>)
    ensures HasDecisionEvent(a + b) <==> HasDecisionEvent(a) || HasDecisionEvent(b)
  {
    if HasDecisionEvent(a + b) {
      var i :| 0 <= i < |a + b| && StartsWith((a + b)[i].event, "approval_");
      if i >= |a| { assert b[i - |a|] == (a + b)[i]; }
    }
    if HasDecisionEvent(a) {
      var i :| 0 <= i < |a| && StartsWith(a[i].event, "approval_");
      assert (a + b)[i] == a[i];
    }
    if HasDecisionEvent(b) {
      var i :| 0 <= i < |b| && StartsWith(b[i].event, "approval_");
      assert (a + b)[|a| + i] == b[i];
    }
  }

  /** Where each part of an assembled trail sits: the fixed events first, then each optional event in turn. */
  lemma TrailPositions(base: seq<AuditEvent>, decision: seq<AuditEvent>, execution: seq<AuditEvent>,
                       verification: seq<AuditEvent>)
    requires |base| == 2 && |decision| <= 1 && |execution| <= 1 && |verification| <= 1
    ensures var events := base + decision + execution + verification;
      && |events| == 2 + |decision| + |execution| + |verification|
      && events[0] == base[0] && events[1] == base[1]
      && (decision != [] ==> events[2] == decision[0])
      && (execution != [] ==> events[2 + |decision|] == execution[0])
      && (verification != [] ==> events[|events| - 1] == verification[0])
  {
  }

  /** A trail assembled from the two fixed events and at most one event of each later kind, in order. */
  lemma AssembledTrail(base: seq<AuditEvent>, decision: seq<AuditEvent>, execution: seq<AuditEvent>,
                       verification: seq<AuditEvent>)
    requires |base| == 2 && base[0].event == ActionDeclared && base[1].event == RiskAssessed
    requires |decision| <= 1 && forall i :: 0 <= i < |decision| ==> StartsWith(decision[i].event, "approval_")
    requires |execution| <= 1 && forall i :: 0 <= i < |execution| ==> execution[i].event == ExecutionStarted
    requires |verification| <= 1 && forall i :: 0 <= i < |verification| ==> verification[i].event == VerificationCompleted
    ensures var events := base + decision + execution + verification;
      && Increasing(events)
      && (HasDecisionEvent(events) <==> decision != [])
      && (HasEvent(events, ExecutionStarted) <==> execution != [])
      && (HasEvent(events, VerificationCompleted) <==> verification != [])
  {
    EventNames(ApprovalDecision("", "", "", "", ""));
    AppendRanked([base[0]], [base[1]], 1);
    assert [base[0]] + [base[1]] == base;
    AppendRanked(base, decision, 2);
    AppendRanked(base + decision, execution, 3);
    AppendRanked(base + decision + execution, verification, 4);
    HasDecisionAppend(base, decision);
    HasDecisionAppend(base + decision, execution);
    HasDecisionAppend(base + decision + execution, verification);
    assert !HasDecisionEvent(base);
    assert decision != [] ==> HasDecisionEvent(decision) by {
      if decision != [] { assert StartsWith(decision[0].event, "approval_"); }
    }
    assert ActionDeclared[0] != ExecutionStarted[0] && RiskAssessed[0] != ExecutionStarted[0];
    assert ActionDeclared[0] != VerificationCompleted[0] && RiskAssessed[0] != VerificationCompleted[0];
    assert ExecutionStarted[0] != VerificationCompleted[0];
    assert !HasEvent(base, ExecutionStarted) && !HasEvent(base, VerificationCompleted);
    assert !HasEvent(decision, ExecutionStarted) && !HasEvent(decision, VerificationCompleted);
    assert !HasEvent(execution, VerificationCompleted) && !HasEvent(verification, ExecutionStarted);
    assert execution != [] ==> execution[0].event == ExecutionStarted;
    assert verification != [] ==> verification[0].event == VerificationCompleted;
    HasEventAppend(base, decision, ExecutionStarted);
    HasEventAppend(base + decision, execution, ExecutionStarted);
    HasEventAppend(base + decision + execution, verification, ExecutionStarted);
    HasEventAppend(base, decision, VerificationCompleted);
    HasEventAppend(base + decision, execution, VerificationCompleted);
    HasEventAppend(base + decision + execution, verification, VerificationCompleted);
  }

  /**
   * The audit trail of `found` (the record `find` returned, if any): the
   * declaration and the risk assessment always, then the decision, the
   * execution and the verification when they are attached.
   */
  function TrailEvents(found: Option<Action>, declaredFallback: string, assessedFallback: string): (events: seq<AuditEvent>)
    ensures |events| == 2 + Attached(found)
    ensures events[0].event == ActionDeclared && events[1].event == RiskAssessed
    ensures Increasing(events)
    ensures HasDecisionEvent(events) <==> found.Some? && found.value.approvalDecision.Some?
    ensures HasEvent(events, ExecutionStarted) <==> found.Some? && found.value.executionResult.Some?
    ensures HasEvent(events, VerificationCompleted) <==> found.Some? && found.value.verificationResult.Some?
    ensures found.None? ==> events[0].timestamp == declaredFallback && events[0].actor == "system"
                            && events[0].details == WorkflowDetails("unknown")
    ensures found.Some? ==> events[0].timestamp == Or(found.value.timestamp, declaredFallback)
                            && events[0].actor == Or(found.value.initiator.source, "system")
                            && events[0].details == WorkflowDetails(Or(found.value.workflowId, "unknown"))
    ensures events[1].actor == "risk_engine"
    ensures found.Some? && found.value.riskAssessment.Some? ==>
              var ra := found.value.riskAssessment.value;
              events[1].timestamp == Or(ra.timestamp, assessedFallback)
              && events[1].details == RiskDetails(ra.riskScore, Or(ra.recommendation, "unknown"))
    ensures found.None? || found.value.riskAssessment.None? ==>
              events[1].timestamp == assessedFallback && events[1].details == RiskDetails(0.0, "unknown")
    ensures found.Some? && found.value.approvalDecision.Some? ==>
              var d := found.value.approvalDecision.value;
              events[2].event == "approval_" + d.decision && events[2].actor == d.approver
              && events[2].timestamp == d.timestamp && events[2].details == ReasonDetails(d.reason)
    ensures found.Some? && found.value.executionResult.Some? ==>
              var x := found.value.executionResult.value;
              var j := if found.value.approvalDecision.Some? then 3 else 2;
              j < |events| && events[j].event == ExecutionStarted && events[j].actor == "execution_engine"
              && events[j].timestamp == x.startedAt && events[j].details == StatusDetails(x.status)
    ensures found.Some? && found.value.verificationResult.Some? ==>
              var v := found.value.verificationResult.value;
              events[|events| - 1].event == VerificationCompleted && events[|events| - 1].actor == "verification_engine"
              && events[|events| - 1].timestamp == v.timestamp && events[|events| - 1].details == StatusDetails(v.overallStatus)
  {
    var base := [DeclaredEvent(found, declaredFallback), RiskEvent(found, assessedFallback)];
    var d := if found.Some? && found.value.approvalDecision.Some? then found.value.approvalDecision.value
             else ApprovalDecision("", "", "", "", "");
    EventNames(d);
    var decision := if found.Some? && found.value.approvalDecision.Some? then [DecisionEvent(d)] else [];
    var execution :=
      if found.Some? && found.value.executionResult.Some? then [ExecutionEvent(found.value.executionResult.value)] else [];
    var verification :=
      if found.Some? && found.value.verificationResult.Some?
      then [VerificationEvent(found.value.verificationResult.value)] else [];
    AssembledTrail(base, decision, execution, verification);
    TrailPositions(base, decision, execution, verification);
    base + decision + execution + verification
  }

  /** The explanation text, kept as the values it is formatted from. */
  datatype ExplanationText =
    | Summary(initiatorKind: string, initiatorSource: string, workflowId: string, riskLevel: string,
              riskScore: real, factorCount: nat, humanApproval: bool)
    | NotFoundText

  datatype Explanation = Explanation(
    actionId: string,
    explanation: ExplanationText,
    factors: seq<string>,
    riskBreakdown: Option<RiskAssessment>)

  class MockStore {
    /** `mockActions`, newest first. */
    var actions: seq<Action>

    constructor (seed: seq<Action>)
      ensures actions == seed
    {
      actions := seed;
    }

    /** `mockActions.find(a => a.action_id === id)`, as the index of the record found. */
    method Find(id: string) returns (k: Option<nat>)
      ensures k == IndexOf(actions, id)
    {
      var i := 0;
      while i < |actions|
        invariant 0 <= i <= |actions|
        invariant forall j :: 0 <= j < i ==> actions[j].actionId != id
      {
        if actions[i].actionId == id {
          return Some(i);
        }
        i := i + 1;
      }
      return None;
    }

    /** `declareAction`: builds the new record and puts it in front of the others. */
    method DeclareAction(data: DeclareInput, env: DeclareEnv) returns (a: Action)
      requires ValidDraws(env)
      modifies this
      ensures a == NewAction(data, env)
      ensures actions == [a] + old(actions)
    {
      a := NewAction(data, env);
      actions := [a] + actions;
    }

    method ApproveAction(actionId: string, approver: string, reason: string, at: string)
      returns (r: Result<Action, string>)
      modifies this
      ensures IndexOf(old(actions), actionId).None? ==> r == Err(NotFound) && actions == old(actions)
      ensures IndexOf(old(actions), actionId).Some? ==>
        var k := IndexOf(old(actions), actionId).value;
        actions == old(actions)[k := Approved(old(actions)[k], approver, reason, at)] && r == Ok(actions[k])
    {
      var k := Find(actionId);
      if k.None? {
        return Err(NotFound);
      }
      var i := k.value;
      actions := actions[i := Approved(actions[i], approver, reason, at)];
      r := Ok(actions[i]);
    }

    method RejectAction(actionId: string, approver: string, reason: string, at: string)
      returns (r: Result<Action, string>)
      modifies this
      ensures IndexOf(old(actions), actionId).None? ==> r == Err(NotFound) && actions == old(actions)
      ensures IndexOf(old(actions), actionId).Some? ==>
        var k := IndexOf(old(actions), actionId).value;
        actions == old(actions)[k := Rejected(old(actions)[k], approver, reason, at)] && r == Ok(actions[k])
    {
      var k := Find(actionId);
      if k.None? {
        return Err(NotFound);
      }
      var i := k.value;
      actions := actions[i := Rejected(actions[i], approver, reason, at)];
      r := Ok(actions[i]);
    }

    method ExecuteAction(actionId: string, webhookUrl: string, env: ExecuteEnv)
      returns (r: Result<ExecutionResult, string>)
      requires IsDraw(env.recordsDraw)
      modifies this
      ensures IndexOf(old(actions), actionId).None? ==> r == Err(NotFound) && actions == old(actions)
      ensures IndexOf(old(actions), actionId).Some? ==>
        var k := IndexOf(old(actions), actionId).value;
        && actions == old(actions)[k := Executed(old(actions)[k], webhookUrl, env)]
        && r == Ok(actions[k].executionResult.value)
    {
      var k := Find(actionId);
      if k.None? {
        return Err(NotFound);
      }
      var i := k.value;
      actions := actions[i := Executed(actions[i], webhookUrl, env)];
      r := Ok(actions[i].executionResult.value);
    }

    method VerifyAction(actionId: string, at: string) returns (r: Result<VerificationResult, string>)
      modifies this
      ensures IndexOf(old(actions), actionId).None? ==> r == Err(NotFound) && actions == old(actions)
      ensures IndexOf(old(actions), actionId).Some? ==>
        var k := IndexOf(old(actions), actionId).value;
        && actions == old(actions)[k := Verified(old(actions)[k], at)]
        && r == Ok(actions[k].verificationResult.value)
    {
      var k := Find(actionId);
      if k.None? {
        return Err(NotFound);
      }
      var i := k.value;
      actions := actions[i := Verified(actions[i], at)];
      r := Ok(actions[i].verificationResult.value);
    }

    method RollbackAction(actionId: string, reason: string, at: string) returns (r: Result<Rollback, string>)
      modifies this
      ensures IndexOf(old(actions), actionId).None? ==> r == Err(NotFound) && actions == old(actions)
      ensures IndexOf(old(actions), actionId).Some? ==>
        var k := IndexOf(old(actions), actionId).value;
        && actions == old(actions)[k := RolledBack(old(actions)[k], reason, at)]
        && r == Ok(actions[k].rollback.value)
    {
      var k := Find(actionId);
      if k.None? {
        return Err(NotFound);
      }
      var i := k.value;
      actions := actions[i := RolledBack(actions[i], reason, at)];
      r := Ok(actions[i].rollback.value);
    }

    /**
     * `getAuditTrail`: never fails; an unknown id gets the two default events
     * stamped with the fallback times (five minutes and 299 seconds ago).
     */
    method GetAuditTrail(actionId: string, declaredFallback: string, assessedFallback: string) returns (trail: AuditTrail)
      ensures trail.actionId == actionId
      ensures trail.auditTrail == TrailEvents(Lookup(actions, actionId), declaredFallback, assessedFallback)
    {
      var k := Find(actionId);
      var found := if k.Some? then Some(actions[k.value]) else None;
      var events := [DeclaredEvent(found, declaredFallback), RiskEvent(found, assessedFallback)];
      if found.Some? && found.value.approvalDecision.Some? {
        events := events + [DecisionEvent(found.value.approvalDecision.value)];
      }
      if found.Some? && found.value.executionResult.Some? {
        events := events + [ExecutionEvent(found.value.executionResult.value)];
      }
      if found.Some? && found.value.verificationResult.Some? {
        events := events + [VerificationEvent(found.value.verificationResult.value)];
      }
      trail := AuditTrail(actionId, events);
    }

    /**
     * `getExplanation`. An unknown id resolves with an empty factor list. A
     * found record without a risk assessment or an approval request makes the
     * timer callback throw, so the promise never settles: `None`.
     */
    method GetExplanation(actionId: string) returns (r: Option<Explanation>)
      ensures Lookup(actions, actionId).None? ==> r == Some(Explanation(actionId, NotFoundText, [], None))
      ensures Lookup(actions, actionId).Some? ==>
        var a := Lookup(actions, actionId).value;
        r.Some? <==> a.riskAssessment.Some? && a.approvalRequest.Some?
      ensures r.Some? && Lookup(actions, actionId).Some? ==>
        var ra := Lookup(actions, actionId).value.riskAssessment.value;
        && r.value.actionId == actionId
        && |r.value.factors| == |ra.riskFactors|
        && (forall i :: 0 <= i < |ra.riskFactors| ==> r.value.factors[i] == ra.riskFactors[i].factor)
        && r.value.riskBreakdown == Some(ra)
        && r.value.explanation.Summary? && r.value.explanation.factorCount == |ra.riskFactors|
        && r.value.explanation.riskLevel == ra.riskLevel && r.value.explanation.riskScore == ra.riskScore
    ensures r.Some? && Lookup(actions, actionId).Some? ==>
        var a := Lookup(actions, actionId).value;
        && r.value.explanation.Summary?
        && r.value.explanation.initiatorKind == a.initiator.kind
        && r.value.explanation.initiatorSource == a.initiator.source
        && r.value.explanation.workflowId == a.workflowId
        && (r.value.explanation.humanApproval <==>
              Lookup(actions, actionId).value.approvalRequest.value.approvalType == "human_required")
    {
      var k := Find(actionId);
      if k.None? {
        return Some(Explanation(actionId, NotFoundText, [], None));
      }
      var a := actions[k.value];
      if a.riskAssessment.None? || a.approvalRequest.None? {
        return None;
      }
      var ra := a.riskAssessment.value;
      var text := Summary(a.initiator.kind, a.initiator.source, a.workflowId, ra.riskLevel, ra.riskScore,
                          |ra.riskFactors|, a.approvalRequest.value.approvalType == "human_required");
      var factors := seq(|ra.riskFactors|, i requires 0 <= i < |ra.riskFactors| => ra.riskFactors[i].factor);
      r := Some(Explanation(actionId, text, factors, Some(ra)));
    }

    /** `getActions`: the live list itself. */
    method GetActions() returns (r: seq<Action>)
      ensures r == actions
    {
      r := actions;
    }
  }

  /** A declared action is found under its id, ahead of any record with that id the store held before. */
  lemma DeclaredIsFound(data: DeclareInput, env: DeclareEnv, s: seq<Action>)
    requires ValidDraws(env)
    ensures Lookup([NewAction(data, env)] + s, "act_" + env.millis) == Some(NewAction(data, env))
  {
    PrependShiftsIndex(NewAction(data, env), s, "act_" + env.millis);
  }
}
