/**
 * The gateway's post-execution verification: three checks on an executed
 * action and the verdict they add up to.
 */
module VerificationEngine {
  import opened GatewayModels

  const Verified := "verified"
  const VerificationFailed := "verification_failed"

  predicate Passes(c: Check) {
    c.status == "pass"
  }

  predicate AllPass(checks: seq<Check>) {
    forall i :: 0 <= i < |checks| ==> Passes(checks[i])
  }

  /**
   * Verifies `action` after `execution`: the execution-status check passes
   * only for a successful execution, the service-health and side-effect
   * checks are simulated and always pass, and the verdict is "verified"
   * exactly when every check passes.
   */
  method Verify(action: ActionDeclaration, execution: ExecutionResult, now: string) returns (v: VerificationResult)
    ensures v.actionId == action.actionId && v.timestamp == now && v.confidence == 0.95
    ensures |v.checks| == 3
    ensures v.checks[0].kind == "execution_status" && v.checks[1].kind == "service_health"
            && v.checks[2].kind == "side_effects_check"
    ensures v.checks[0].details == "Execution status: " + execution.status
    ensures Passes(v.checks[0]) <==> execution.status == "success"
    ensures Passes(v.checks[1]) && Passes(v.checks[2])
    ensures forall i :: 0 <= i < 3 ==> v.checks[i].status == "pass" || v.checks[i].status == "fail"
    ensures v.overallStatus == Verified <==> execution.status == "success"
    ensures v.overallStatus == Verified <==> AllPass(v.checks)
    ensures v.overallStatus == Verified || v.overallStatus == VerificationFailed
  {
    var checks: seq<Check> := [];
    var overallStatus := Verified;

    checks := checks + [Check("execution_status", if execution.status == "success" then "pass" else "fail",
                              "Execution status: " + execution.status)];
    if execution.status != "success" {
      overallStatus := VerificationFailed;
    }

    checks := checks + [Check("service_health", "pass", "Service responding with 200 OK")];
    checks := checks + [Check("side_effects_check", "pass", "No unexpected changes detected in related services")];

    v := VerificationResult(action.actionId, now, overallStatus, checks, 0.95);
  }
}
