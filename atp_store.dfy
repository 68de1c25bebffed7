/**
 * The gateway's in-memory store: one dictionary per lifecycle stage, an
 * append-only audit log per action, and the history of verification
 * outcomes (passed or failed) that feeds the similarity statistics of the
 * risk assessor.
 */
module AtpStore {
  import opened Outcomes
  import opened Text
  import opened GatewayModels

  /** The `.dict()` payload an audit entry records. */
  datatype AuditData =
    | DeclaredData(action: ActionDeclaration)
    | RiskData(assessment: RiskAssessment)
    | ApprovalData(approval: ApprovalDecision)
    | ExecutionData(execution: ExecutionResult)
    | VerificationData(verification: VerificationResult)

  datatype AuditEntry = AuditEntry(timestamp: string, event: string, data: AuditData)

  /** One entry of `action_history`; `execution` is `{}` in the source when nothing was stored. */
  datatype HistoryEntry = HistoryEntry(
    action: ActionDeclaration,
    riskAssessment: RiskAssessment,
    execution: Option<ExecutionResult>,
    verification: VerificationResult,
    timestamp: string)

  /** The exception `store_verification` raises when it indexes a missing risk assessment. */
  datatype StoreError = KeyError(key: string)

  const ActionDeclared := "action_declared"
  const RiskAssessed := "risk_assessed"
  const ApprovalReceived := "approval_received"
  const ExecutionCompleted := "execution_completed"
  const VerificationCompleted := "verification_completed"

  type AuditLogs = map<string, seq<AuditEntry>>

  /** Python's `s[:n]`. */
  function Take(s: string, n: nat): (r: string)
    ensures |r| == if |s| <= n then |s| else n
    ensures StartsWith(s, r)
  {
    if |s| <= n then s else s[..n]
  }

  /**
   * The id `store_action` files a declaration under: the declared id when it
   * is non-empty, otherwise `act_` followed by the first eight characters of
   * a fresh uuid's hex form (`uuidHex`).
   */
  function AssignedId(requested: string, uuidHex: string): (id: string)
    ensures id != ""
    ensures requested != "" ==> id == requested
    ensures requested == "" ==> StartsWith(id, "act_") && StartsWith(uuidHex, id[4..]) && |id[4..]| <= 8
    ensures requested == "" && |uuidHex| >= 8 ==> |id| == 12
  {
    if requested == "" then "act_" + Take(uuidHex, 8) else requested
  }

  /** The log of `id`, or the empty list `audit_log` would create for it. */
  function LogOf(logs: AuditLogs, id: string): seq<AuditEntry> {
    if id in logs then logs[id] else []
  }

  /** The logs after `audit_log(id, …)` appended `e`: only `id`'s list grows, by exactly `e`. */
  function Appended(logs: AuditLogs, id: string, e: AuditEntry): (r: AuditLogs)
    ensures r.Keys == logs.Keys + {id}
    ensures r[id] == LogOf(logs, id) + [e]
    ensures forall k :: k in logs && k != id ==> r[k] == logs[k]
  {
    logs[id := LogOf(logs, id) + [e]]
  }

  /** After an append the log of `id` is non-empty, ends with `e` and keeps its earlier entries. */
  lemma AppendedKeepsHistory(logs: AuditLogs, id: string, e: AuditEntry)
    ensures |Appended(logs, id, e)[id]| == |LogOf(logs, id)| + 1
    ensures Appended(logs, id, e)[id][|LogOf(logs, id)|] == e
    ensures Appended(logs, id, e)[id][..|LogOf(logs, id)|] == LogOf(logs, id)
  {
  }

  /** The filter of `get_similar_actions`: same target system and operation, same namespace (absent matches absent). */
  predicate Matches(h: HistoryEntry, action: ActionDeclaration) {
    && h.action.target.system == action.target.system
    && h.action.target.operation == action.target.operation
    && Get(h.action.context, "namespace") == Get(action.context, "namespace")
  }

  /** The list comprehension `similar`: the matching history entries, in order. */
  function Similar(history: seq<HistoryEntry>, action: ActionDeclaration): (r: seq<HistoryEntry>)
    ensures |r| <= |history|
    ensures forall h :: h in r <==> h in history && Matches(h, action)
    ensures forall h :: multiset(r)[h] == if Matches(h, action) then multiset(history)[h] else 0
  {
    if history == [] then []
    else
      var head := if Matches(history[0], action) then [history[0]] else [];
      var r := head + Similar(history[1..], action);
      assert history == [history[0]] + history[1..];
      assert multiset(history) == multiset([history[0]]) + multiset(history[1..]);
      assert multiset(r) == multiset(head) + multiset(Similar(history[1..], action));
      r
  }

  predicate Succeeded(h: HistoryEntry) {
    h.verification.overallStatus == "verified"
  }

  /** `sum(1 for h in entries if h["verification"]["overall_status"] == "verified")`. */
  function CountVerified(entries: seq<HistoryEntry>): (n: nat)
    ensures n <= |entries|
    ensures n == 0 <==> forall h :: h in entries ==> !Succeeded(h)
    ensures n == |entries| <==> forall h :: h in entries ==> Succeeded(h)
  {
    if entries == [] then 0
    else
      assert forall h :: h in entries <==> h == entries[0] || h in entries[1..] by {
        assert entries == [entries[0]] + entries[1..];
      }
      (if Succeeded(entries[0]) then 1 else 0) + CountVerified(entries[1..])
  }

  /** `successful / count` as a real: a fraction in [0, 1]. */
  function SuccessRate(successful: nat, count: nat): (rate: real)
    requires 0 < count && successful <= count
    ensures 0.0 <= rate <= 1.0
    ensures rate * count as real == successful as real
  {
    var rate := successful as real / count as real;
    assert rate * count as real == successful as real;
    assert rate <= 1.0 by {
      if rate > 1.0 { assert rate * count as real > 1.0 * count as real; }
    }
    rate
  }

  class ATPStore {
    var actions: map<string, ActionDeclaration>
    var riskAssessments: map<string, RiskAssessment>
    var approvals: map<string, ApprovalDecision>
    var executions: map<string, ExecutionResult>
    var verifications: map<string, VerificationResult>
    var auditLogs: AuditLogs
    /** Every verification of a declared and assessed action, passed or failed, oldest first, for the similarity statistics. */
    var actionHistory: seq<HistoryEntry>

    constructor ()
      ensures actions == map[] && riskAssessments == map[] && approvals == map[]
      ensures executions == map[] && verifications == map[] && auditLogs == map[]
      ensures actionHistory == []
    {
      actions := map[];
      riskAssessments := map[];
      approvals := map[];
      executions := map[];
      verifications := map[];
      auditLogs := map[];
      actionHistory := [];
    }

    /** Appends one timestamped entry to the log of `actionId`, creating the log first if needed. */
    method AuditLog(actionId: string, event: string, data: AuditData, now: string)
      modifies this`auditLogs
      ensures auditLogs == Appended(old(auditLogs), actionId, AuditEntry(now, event, data))
    {
      if actionId !in auditLogs {
        auditLogs := auditLogs[actionId := []];
      }
      auditLogs := auditLogs[actionId := auditLogs[actionId] + [AuditEntry(now, event, data)]];
    }

    /**
     * Files a declaration under its id (generating one when the id is empty)
     * and logs `action_declared`. `stored` is the declaration as the caller
     * sees it afterwards, since the source writes the new id into it.
     */
    method StoreAction(action: ActionDeclaration, uuidHex: string, now: string) returns (stored: ActionDeclaration)
      modifies this`actions, this`auditLogs
      ensures stored == action.(actionId := AssignedId(action.actionId, uuidHex))
      ensures actions == old(actions)[stored.actionId := stored]
      ensures auditLogs == Appended(old(auditLogs), stored.actionId, AuditEntry(now, ActionDeclared, DeclaredData(stored)))
    {
      stored := action;
      if action.actionId == "" {
        stored := stored.(actionId := "act_" + Take(uuidHex, 8));
      }
      actions := actions[stored.actionId := stored];
      AuditLog(stored.actionId, ActionDeclared, DeclaredData(stored), now);
    }

    method StoreRiskAssessment(assessment: RiskAssessment, now: string)
      modifies this`riskAssessments, this`auditLogs
      ensures riskAssessments == old(riskAssessments)[assessment.actionId := assessment]
      ensures auditLogs == Appended(old(auditLogs), assessment.actionId, AuditEntry(now, RiskAssessed, RiskData(assessment)))
    {
      riskAssessments := riskAssessments[assessment.actionId := assessment];
      AuditLog(assessment.actionId, RiskAssessed, RiskData(assessment), now);
    }

    method StoreApproval(approval: ApprovalDecision, now: string)
      modifies this`approvals, this`auditLogs
      ensures approvals == old(approvals)[approval.actionId := approval]
      ensures auditLogs == Appended(old(auditLogs), approval.actionId, AuditEntry(now, ApprovalReceived, ApprovalData(approval)))
    {
      approvals := approvals[approval.actionId := approval];
      AuditLog(approval.actionId, ApprovalReceived, ApprovalData(approval), now);
    }

    method StoreExecution(execution: ExecutionResult, now: string)
      modifies this`executions, this`auditLogs
      ensures executions == old(executions)[execution.actionId := execution]
      ensures auditLogs == Appended(old(auditLogs), execution.actionId, AuditEntry(now, ExecutionCompleted, ExecutionData(execution)))
    {
      executions := executions[execution.actionId := execution];
      AuditLog(execution.actionId, ExecutionCompleted, ExecutionData(execution), now);
    }

    /**
     * Files a verification, logs `verification_completed`, and, for a
     * declared action, appends it to the history. The history entry indexes
     * the risk assessment directly, so a declared action without one raises
     * a KeyError after the verification and its audit entry are stored.
     */
    method StoreVerification(verification: VerificationResult, now: string) returns (outcome: Outcome<StoreError>)
      modifies this`verifications, this`auditLogs, this`actionHistory
      ensures verifications == old(verifications)[verification.actionId := verification]
      ensures auditLogs == Appended(old(auditLogs), verification.actionId,
                                    AuditEntry(now, VerificationCompleted, VerificationData(verification)))
      ensures outcome.Fail? <==> verification.actionId in actions && verification.actionId !in riskAssessments
      ensures outcome.Fail? ==> outcome.error == KeyError(verification.actionId)
      ensures actionHistory ==
        if verification.actionId in actions && verification.actionId in riskAssessments
        then old(actionHistory) + [HistoryEntry(actions[verification.actionId], riskAssessments[verification.actionId],
                                                Get(executions, verification.actionId), verification, now)]
        else old(actionHistory)
    {
      var id := verification.actionId;
      verifications := verifications[id := verification];
      AuditLog(id, VerificationCompleted, VerificationData(verification), now);
      outcome := Pass;
      if id in actions {
        if id !in riskAssessments {
          outcome := Fail(KeyError(id));
          return;
        }
        var execution := if id in executions then Some(executions[id]) else None;
        actionHistory := actionHistory + [HistoryEntry(actions[id], riskAssessments[id], execution, verification, now)];
      }
    }

    /**
     * The similarity statistics for `action`: how many history entries match
     * it and which fraction of those were verified.
     */
    function GetSimilarActions(action: ActionDeclaration): (r: SimilarStats)
      reads this
      ensures r.count == |Similar(actionHistory, action)|
      ensures r.count == 0 <==> forall h :: h in actionHistory ==> !Matches(h, action)
      ensures r.count == 0 ==> r.successRate == 0.0 && r.avgCompletionTime == "N/A"
      ensures r.count > 0 ==> r.avgCompletionTime == "2.3s"
      ensures r.count > 0 ==> r.successRate == CountVerified(Similar(actionHistory, action)) as real / r.count as real
      ensures 0.0 <= r.successRate <= 1.0
    {
      var similar := Similar(actionHistory, action);
      if similar == [] then SimilarStats(0, 0.0, "N/A")
      else
        assert similar[0] in similar;
        var successful := CountVerified(similar);
        SimilarStats(|similar|, SuccessRate(successful, |similar|), "2.3s")
    }
  }
}
